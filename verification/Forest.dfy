/**
  Parent links between leases and the breadth-first cascade order
  (crates/aeon_agent_runtime/src/authority_kernel/validation.rs:400-434).
  Nothing here assumes that the links are acyclic.
 */
module Forest {
  import opened Basics
  import opened Canonical
  import opened Authority

  type Links = map<LeaseId, Option<LeaseId>>

  function LinksOf(leases: Leases): Links {
    map id | id in leases ::
      match leases[id].certificate.body.parentLease
      case None => None
      case Some(parent) => Some(parent.leaseId)
  }

  /** The lease reached from `id` by following `n` parent links. */
  function Up(g: Links, id: LeaseId, n: nat): Option<LeaseId> {
    if n == 0 then Some(id)
    else match Up(g, id, n - 1)
      case None => None
      case Some(x) => if x in g then g[x] else None
  }

  /** `id` is `root` or lies below it. */
  ghost predicate Below(g: Links, id: LeaseId, root: LeaseId) {
    exists n: nat :: Up(g, id, n) == Some(root)
  }

  lemma {:induction false} UpFromParent(g: Links, id: LeaseId, parent: LeaseId, n: nat)
    requires id in g && g[id] == Some(parent)
    ensures Up(g, id, n + 1) == Up(g, parent, n)
  {
    if n == 0 {
      assert Up(g, id, 0) == Some(id);
    } else {
      UpFromParent(g, id, parent, n - 1);
    }
  }

  lemma BelowParent(g: Links, id: LeaseId, parent: LeaseId, root: LeaseId)
    requires id in g && g[id] == Some(parent)
    ensures Below(g, id, root) <==> id == root || Below(g, parent, root)
  {
    if id == root { assert Up(g, id, 0) == Some(root); }
    if n: nat :| Up(g, parent, n) == Some(root) { UpFromParent(g, id, parent, n); }
    if n: nat :| Up(g, id, n) == Some(root) {
      if n > 0 { UpFromParent(g, id, parent, n - 1); }
    }
  }

  lemma {:induction false} TopStays(g: Links, id: LeaseId, n: nat)
    requires id in g ==> g[id] == None
    ensures n > 0 ==> Up(g, id, n) == None
  {
    if n > 0 {
      TopStays(g, id, n - 1);
      if n == 1 { assert Up(g, id, 0) == Some(id); }
    }
  }

  // ---------------------------------------------------------------- breadth-first order

  ghost function Children(g: Links, parent: LeaseId): set<LeaseId> {
    set c | c in g && g[c] == Some(parent)
  }

  /** `q` lists leases breadth first from `root`: no lease twice, `root` first, every other lease
      after its parent (at index `par[i]`), and leases ordered by the position of their parent and
      then by id. */
  predicate BreadthFirst(g: Links, root: LeaseId, q: seq<LeaseId>, par: seq<nat>) {
    && |par| == |q| > 0
    && q[0] == root
    && Distinct(q)
    && (forall i :: 0 <= i < |q| ==> q[i] in g)
    && (forall i {:trigger par[i]} :: 0 < i < |q| ==> par[i] < i && g[q[i]] == Some(q[par[i]]))
    && (forall i, j {:trigger par[i], par[j]} :: 0 < i < j < |q| ==>
          par[i] < par[j] || (par[i] == par[j] && q[i] < q[j]))
  }

  /** State of the queue loop: `q[..k]` has been popped, `q[k..]` is pending. */
  ghost predicate Queue(g: Links, root: LeaseId, q: seq<LeaseId>, par: seq<nat>, k: nat) {
    && BreadthFirst(g, root, q, par)
    && k <= |q|
    && (forall i {:trigger par[i]} :: 0 < i < |q| ==> par[i] < k)
    && (forall c :: c in g && g[c].Some? && g[c].value in q[..k] ==> c in q)
  }

  ghost function Expand(g: Links, q: seq<LeaseId>, k: nat): seq<LeaseId>
    requires k < |q|
  {
    q + Listed(Children(g, q[k]) - Elems(q))
  }

  lemma ExpandKeepsQueue(g: Links, root: LeaseId, q: seq<LeaseId>, par: seq<nat>, k: nat) returns (par': seq<nat>)
    requires Queue(g, root, q, par, k) && k < |q|
    ensures Queue(g, root, Expand(g, q, k), par', k + 1)
  {
    var added := Listed(Children(g, q[k]) - Elems(q));
    assert forall i :: 0 <= i < |added| ==> added[i] in Elems(added);
    par' := AppendChildren(g, root, q, par, k, added);
    forall c | c in g && g[c].Some? && g[c].value in (q + added)[..k + 1] ensures c in q + added {
      assert (q + added)[..k + 1] == q[..k] + [q[k]];
      if g[c].value == q[k] && c !in q {
        assert c in Elems(added);
      }
    }
  }

  lemma AppendChildren(g: Links, root: LeaseId, q: seq<LeaseId>, par: seq<nat>, k: nat, added: seq<LeaseId>)
    returns (par': seq<nat>)
    requires BreadthFirst(g, root, q, par) && k < |q|
    requires forall i {:trigger par[i]} :: 0 < i < |q| ==> par[i] < k
    requires Ascending(IntLess, added) && Distinct(added)
    requires forall i :: 0 <= i < |added| ==> added[i] in g && g[added[i]] == Some(q[k]) && added[i] !in q
    ensures BreadthFirst(g, root, q + added, par')
    ensures forall i {:trigger par'[i]} :: 0 < i < |q + added| ==> par'[i] < k + 1
  {
    var q' := q + added;
    par' := par + seq(|added|, i => k);
    DistinctConcat(q, added);
    forall i {:trigger par'[i]} | 0 < i < |q'| ensures par'[i] < i && par'[i] < k + 1 && g[q'[i]] == Some(q'[par'[i]]) {
      if i < |q| { assert par'[i] == par[i]; }
    }
    forall i, j {:trigger par'[i], par'[j]} | 0 < i < j < |q'|
      ensures par'[i] < par'[j] || (par'[i] == par'[j] && q'[i] < q'[j])
    {
      if i < |q| { assert par'[i] == par[i]; }
      if j < |q| { assert par'[j] == par[j]; }
      if i >= |q| { assert IntLess(added[i - |q|], added[j - |q|]); }
    }
  }

  /** The rest of the queue loop. */
  ghost function Drain(g: Links, q: seq<LeaseId>, k: nat): seq<LeaseId>
    requires k <= |q| && Distinct(q) && (forall i :: 0 <= i < |q| ==> q[i] in g)
    decreases g.Keys - Elems(q[..k])
  {
    if k == |q| then q
    else
      ExpandStaysInside(g, q, k);
      Drain(g, Expand(g, q, k), k + 1)
  }

  lemma ExpandStaysInside(g: Links, q: seq<LeaseId>, k: nat)
    requires k < |q| && Distinct(q) && (forall i :: 0 <= i < |q| ==> q[i] in g)
    ensures Distinct(Expand(g, q, k)) && q <= Expand(g, q, k)
    ensures forall i :: 0 <= i < |Expand(g, q, k)| ==> Expand(g, q, k)[i] in g
    ensures g.Keys - Elems(Expand(g, q, k)[..k + 1]) < g.Keys - Elems(q[..k])
  {
    var added := Listed(Children(g, q[k]) - Elems(q));
    DistinctConcat(q, added);
    var q' := q + added;
    forall i | 0 <= i < |q'| ensures q'[i] in g {
      if i >= |q| { assert q'[i] == added[i - |q|] && q'[i] in Elems(added); }
    }
    assert q'[..k + 1] == q[..k] + [q[k]];
    assert q[k] in g.Keys - Elems(q[..k]);
    assert q[k] !in g.Keys - Elems(q'[..k + 1]);
    assert forall x :: x in q[..k] ==> x in q'[..k + 1];
  }

  /** The leases of a cascade, in the order the kernel visits them. */
  ghost function Cascade(g: Links, root: LeaseId): seq<LeaseId>
    requires root in g
  {
    Drain(g, [root], 0)
  }

  lemma {:induction false} DrainIsBreadthFirst(g: Links, root: LeaseId, q: seq<LeaseId>, par: seq<nat>, k: nat)
    returns (par': seq<nat>)
    requires Queue(g, root, q, par, k)
    ensures Queue(g, root, Drain(g, q, k), par', |Drain(g, q, k)|)
    decreases g.Keys - Elems(q[..k])
  {
    if k == |q| {
      par' := par;
    } else {
      ExpandStaysInside(g, q, k);
      var par1 := ExpandKeepsQueue(g, root, q, par, k);
      par' := DrainIsBreadthFirst(g, root, Expand(g, q, k), par1, k + 1);
    }
  }

  /** A cascade lists exactly the leases below its root, each once, breadth first with siblings
      sorted; on any link map, cyclic ones included. */
  lemma CascadeExact(g: Links, root: LeaseId) returns (par: seq<nat>)
    requires root in g
    ensures BreadthFirst(g, root, Cascade(g, root), par)
    ensures forall x :: x in Cascade(g, root) <==> x in g && Below(g, x, root)
  {
    var q := Cascade(g, root);
    par := DrainIsBreadthFirst(g, root, [root], [0], 0);
    forall i | 0 <= i < |q| ensures Below(g, q[i], root) { ListedIsBelow(g, root, q, par, i); }
    forall x | x in g && Below(g, x, root) ensures x in q {
      var n: nat :| Up(g, x, n) == Some(root);
      BelowIsListed(g, root, q, par, x, n);
    }
  }

  lemma {:induction false} ListedIsBelow(g: Links, root: LeaseId, q: seq<LeaseId>, par: seq<nat>, i: nat)
    requires BreadthFirst(g, root, q, par) && i < |q|
    ensures Below(g, q[i], root)
  {
    if i == 0 {
      assert Up(g, root, 0) == Some(root);
    } else {
      ListedIsBelow(g, root, q, par, par[i]);
      BelowParent(g, q[i], q[par[i]], root);
    }
  }

  lemma {:induction false} BelowIsListed(g: Links, root: LeaseId, q: seq<LeaseId>, par: seq<nat>, x: LeaseId, n: nat)
    requires Queue(g, root, q, par, |q|) && x in g && Up(g, x, n) == Some(root)
    ensures x in q
    decreases n
  {
    assert q[..|q|] == q;
    if n == 0 {
      assert x == root == q[0];
    } else {
      match g[x]
      case None => TopStays(g, x, n);
      case Some(p) =>
        UpFromParent(g, x, p, n - 1);
        if p in g {
          BelowIsListed(g, root, q, par, p, n - 1);
        } else {
          if n - 1 > 0 { TopStays(g, p, n - 1); }
        }
    }
  }

  /** Breadth-first order with sorted siblings leaves no choice: two complete listings are equal, so
      the order does not depend on how the lease map is iterated. */
  lemma BreadthFirstUnique(g: Links, root: LeaseId, q: seq<LeaseId>, par: seq<nat>, q': seq<LeaseId>, par': seq<nat>)
    requires BreadthFirst(g, root, q, par) && BreadthFirst(g, root, q', par')
    requires Elems(q) == Elems(q')
    ensures q == q'
  {
    SamePrefix(g, root, q, par, q', par', if |q| < |q'| then |q| else |q'|);
    if |q| < |q'| {
      LongerHasMore(q, q');
    } else if |q'| < |q| {
      LongerHasMore(q', q);
    }
  }

  lemma LongerHasMore(q: seq<LeaseId>, q': seq<LeaseId>)
    requires |q| < |q'| && q == q'[..|q|] && Distinct(q')
    ensures Elems(q) != Elems(q')
  {
    assert q'[|q|] in Elems(q');
    assert q'[|q|] !in q;
  }

  lemma {:induction false} SamePrefix(g: Links, root: LeaseId, q: seq<LeaseId>, par: seq<nat>,
                                      q': seq<LeaseId>, par': seq<nat>, n: nat)
    requires BreadthFirst(g, root, q, par) && BreadthFirst(g, root, q', par')
    requires Elems(q) == Elems(q') && n <= |q| && n <= |q'|
    ensures q[..n] == q'[..n]
  {
    if n > 0 {
      SamePrefix(g, root, q, par, q', par', n - 1);
      var k := n - 1;
      assert q[..n] == q[..k] + [q[k]] && q'[..n] == q'[..k] + [q'[k]];
      if k > 0 && q[k] != q'[k] {
        NextComesFirst(g, root, q, par, q', par', k);
        NextComesFirst(g, root, q', par', q, par, k);
      }
    }
  }

  /** After a common prefix, the next lease of one listing precedes every later one of the other. */
  lemma NextComesFirst(g: Links, root: LeaseId, q: seq<LeaseId>, par: seq<nat>,
                       q': seq<LeaseId>, par': seq<nat>, k: nat)
    requires BreadthFirst(g, root, q, par) && BreadthFirst(g, root, q', par')
    requires Elems(q) == Elems(q') && 0 < k < |q| && k < |q'| && q[..k] == q'[..k] && q[k] != q'[k]
    ensures par[k] < par'[k] || (par[k] == par'[k] && q[k] < q'[k])
  {
    assert q'[k] in Elems(q);
    var j :| 0 <= j < |q| && q[j] == q'[k];
    assert j >= k by {
      assert forall i :: 0 <= i < k ==> q[i] == q[..k][i] == q'[..k][i] == q'[i];
    }
    assert q[..k][par[k]] == q'[..k][par[k]];
    assert g[q'[k]] == Some(q'[par'[k]]) && q'[..k][par'[k]] == q[..k][par'[k]];
    assert q[par[j]] == q[par'[k]];
    assert par[j] == par'[k];
  }

  // ---------------------------------------------------------------- the queue loop

  method GroupChildren(leases: Leases) returns (children: map<LeaseId, seq<LeaseId>>)
    ensures forall p :: p in children ==> children[p] == Listed(Children(LinksOf(leases), p))
    ensures forall p :: p !in children ==> Children(LinksOf(leases), p) == {}
  {
    ghost var g := LinksOf(leases);
    var todo := leases.Keys;
    var grouped: map<LeaseId, seq<LeaseId>> := map[];
    while todo != {}
      invariant todo <= leases.Keys
      invariant forall p :: p in grouped ==> Distinct(grouped[p]) && Elems(grouped[p]) == Children(g, p) - todo
      invariant forall p :: p !in grouped ==> Children(g, p) <= todo
      decreases |todo|
    {
      ghost var some := SomeMember(todo);
      var id :| id in todo;
      match leases[id].certificate.body.parentLease {
        case None =>
          assert forall p :: id !in Children(g, p);
        case Some(parent) =>
          var p := parent.leaseId;
          assert id in Children(g, p) && forall p' :: p' != p ==> id !in Children(g, p');
          var known := if p in grouped then grouped[p] else [];
          assert id !in Elems(known);
          DistinctConcat(known, [id]);
          grouped := grouped[p := known + [id]];
      }
      todo := todo - {id};
    }
    assert forall p :: Children(g, p) - {} == Children(g, p);
    forall p | p in grouped ensures SortBy(IntLess, grouped[p]) == Listed(Children(g, p)) {
      SortedEnumeration(grouped[p]);
    }
    children := map p | p in grouped :: SortBy(IntLess, grouped[p]);
  }

  method EnqueueUnseen(kids: seq<LeaseId>, seen: set<LeaseId>) returns (added: seq<LeaseId>, seen': set<LeaseId>)
    requires Ascending(IntLess, kids)
    ensures added == Listed(Elems(kids) - seen)
    ensures seen' == seen + Elems(added)
  {
    added, seen' := [], seen;
    var i := 0;
    assert Elems(kids[..0]) - seen == {};
    while i < |kids|
      invariant 0 <= i <= |kids|
      invariant added == Listed(Elems(kids[..i]) - seen)
      invariant seen' == seen + Elems(added)
    {
      ListedSnoc(kids, i, seen);
      if kids[i] !in seen' {
        ConcatElems(added, [kids[i]]);
        seen' := seen' + {kids[i]};
        added := added + [kids[i]];
      }
      i := i + 1;
    }
    assert kids[..|kids|] == kids;
  }

  /** Index the children, sort siblings, then walk the queue. */
  method DescendantsIncluding(leases: Leases, root: LeaseId) returns (r: Result<seq<LeaseId>>)
    ensures r == if root in leases then Ok(Cascade(LinksOf(leases), root)) else Err(LeaseInactive)
  {
    if root !in leases {
      return Err(LeaseInactive);
    }
    var children := GroupChildren(leases);
    forall p ensures Kids(children, p) == Listed(Children(LinksOf(leases), p)) {
      NoElems(Listed(Children(LinksOf(leases), p)));
    }
    var listed := WalkQueue(children, root, LinksOf(leases));
    return Ok(listed);
  }

  function Kids(children: map<LeaseId, seq<LeaseId>>, parent: LeaseId): seq<LeaseId> {
    if parent in children then children[parent] else []
  }

  method WalkQueue(children: map<LeaseId, seq<LeaseId>>, root: LeaseId, ghost g: Links) returns (listed: seq<LeaseId>)
    requires root in g
    requires forall p :: Kids(children, p) == Listed(Children(g, p))
    ensures listed == Cascade(g, root)
  {
    listed := [];
    var pending := [root];
    var seen := {root};
    ghost var q := [root];
    while pending != []
      invariant q == listed + pending && seen == Elems(q) && Distinct(q)
      invariant forall i :: 0 <= i < |q| ==> q[i] in g
      invariant Drain(g, q, |listed|) == Cascade(g, root)
      decreases g.Keys - Elems(q[..|listed|])
    {
      ExpandStaysInside(g, q, |listed|);
      var added;
      added, seen := EnqueueUnseen(Kids(children, pending[0]), seen);
      ConcatElems(q, added);
      PopAndAppend(listed, pending, added);
      q := Expand(g, q, |listed|);
      listed := listed + [pending[0]];
      pending := pending[1..] + added;
    }
    assert q == listed;
  }

  lemma PopAndAppend<T>(listed: seq<T>, pending: seq<T>, added: seq<T>)
    requires pending != []
    ensures (listed + pending) + added == (listed + [pending[0]]) + (pending[1..] + added)
  {
    assert pending == [pending[0]] + pending[1..];
  }

  lemma ConcatElems(a: seq<LeaseId>, b: seq<LeaseId>)
    ensures Elems(a + b) == Elems(a) + Elems(b)
  {
    assert forall x :: x in a + b <==> x in a || x in b;
  }

  /** Filtering a sorted listing element by element yields the sorted listing of the filtered set. */
  lemma ListedSnoc(kids: seq<LeaseId>, i: nat, drop: set<LeaseId>)
    requires i < |kids| && Ascending(IntLess, kids)
    ensures Listed(Elems(kids[..i + 1]) - drop) ==
            Listed(Elems(kids[..i]) - drop) + if kids[i] in drop then [] else [kids[i]]
    ensures kids[i] !in Listed(Elems(kids[..i]) - drop)
  {
    var before := Listed(Elems(kids[..i]) - drop);
    assert kids[..i + 1] == kids[..i] + [kids[i]];
    var after := before + if kids[i] in drop then [] else [kids[i]];
    forall x | x in before ensures x < kids[i] {
      assert x in Elems(before);
      var j :| 0 <= j < i && kids[j] == x;
    }
    assert forall j :: 0 <= j < |before| ==> before[j] in before;
    assert Elems(after) == Elems(kids[..i + 1]) - drop by {
      assert forall x :: x in after <==> x in before || (x == kids[i] && kids[i] !in drop);
      assert forall x :: x in before <==> x in Elems(before);
      assert forall x :: x in kids[..i + 1] <==> x in kids[..i] || x == kids[i];
    }
    IntLessTotal();
    AscendingUnique(IntLess, after, Listed(Elems(kids[..i + 1]) - drop));
  }
}
