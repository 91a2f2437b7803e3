/**
  Order-insensitive identity of set-like inputs: sort, then drop adjacent repeats.  The runtime
  uses it for capability sets (authority.rs:302-316), approved tools (authority.rs:107-120), bound
  tool digests (agent.rs:220-222), registry roots (tool_registry.rs:317-329) and sorted lease ids.
 */
module Canonical {
  import opened Basics

  ghost predicate StrictTotal<T(!new)>(less: (T, T) -> bool) {
    && (forall x :: !less(x, x))
    && (forall x, y, z :: less(x, y) && less(y, z) ==> less(x, z))
    && (forall x, y :: x == y || less(x, y) || less(y, x))
  }

  predicate Ascending<T>(less: (T, T) -> bool, s: seq<T>) {
    forall i, j :: 0 <= i < j < |s| ==> less(s[i], s[j])
  }

  predicate NonDescending<T>(less: (T, T) -> bool, s: seq<T>) {
    forall i, j :: 0 <= i < j < |s| ==> !less(s[j], s[i])
  }

  function InsertBy<T>(less: (T, T) -> bool, x: T, s: seq<T>): seq<T> {
    if s == [] || !less(s[0], x) then [x] + s else [s[0]] + InsertBy(less, x, s[1..])
  }

  function SortBy<T>(less: (T, T) -> bool, s: seq<T>): seq<T> {
    if s == [] then [] else InsertBy(less, s[0], SortBy(less, s[1..]))
  }

  function Dedup<T(==)>(s: seq<T>): seq<T> {
    if |s| < 2 then s
    else if s[0] == s[1] then Dedup(s[1..])
    else [s[0]] + Dedup(s[1..])
  }

  function SortDedup<T(==)>(less: (T, T) -> bool, s: seq<T>): seq<T> {
    Dedup(SortBy(less, s))
  }

  lemma {:induction false} InsertByKeeps<T(!new)>(less: (T, T) -> bool, x: T, s: seq<T>)
    requires StrictTotal(less) && NonDescending(less, s)
    ensures multiset(InsertBy(less, x, s)) == multiset{x} + multiset(s)
    ensures NonDescending(less, InsertBy(less, x, s))
  {
    if s == [] || !less(s[0], x) {
      assert multiset([x] + s) == multiset{x} + multiset(s);
    } else {
      InsertByKeeps(less, x, s[1..]);
      var rest := InsertBy(less, x, s[1..]);
      assert s == [s[0]] + s[1..];
      forall j | 0 <= j < |rest| ensures !less(rest[j], s[0]) {
        assert rest[j] in multiset(rest);
        assert rest[j] == x || rest[j] in s[1..];
      }
    }
  }

  /** Sorting only rearranges, and leaves nothing out of order. */
  lemma {:induction false} SortByKeeps<T(!new)>(less: (T, T) -> bool, s: seq<T>)
    requires StrictTotal(less)
    ensures multiset(SortBy(less, s)) == multiset(s)
    ensures NonDescending(less, SortBy(less, s))
  {
    if s != [] {
      SortByKeeps(less, s[1..]);
      InsertByKeeps(less, s[0], SortBy(less, s[1..]));
      assert s == [s[0]] + s[1..];
    }
  }

  lemma SortByElems<T(!new)>(less: (T, T) -> bool, s: seq<T>)
    requires StrictTotal(less)
    ensures Elems(SortBy(less, s)) == Elems(s) && |SortBy(less, s)| == |s|
  {
    SortByKeeps(less, s);
    forall x ensures x in SortBy(less, s) <==> x in s {
      assert x in SortBy(less, s) <==> x in multiset(SortBy(less, s));
      assert x in s <==> x in multiset(s);
    }
    assert |multiset(SortBy(less, s))| == |multiset(s)|;
  }

  lemma NoElems<T>(s: seq<T>)
    ensures Elems(s) == {} <==> s == []
  {
    if s != [] { assert s[0] in Elems(s); }
  }

  lemma ElemsCons<T>(x: T, s: seq<T>)
    ensures Elems([x] + s) == {x} + Elems(s)
  {
    assert forall y :: y in [x] + s <==> y == x || y in s;
  }

  lemma {:induction false} DedupAscends<T(!new)>(less: (T, T) -> bool, s: seq<T>)
    requires StrictTotal(less) && NonDescending(less, s)
    ensures Ascending(less, Dedup(s)) && Elems(Dedup(s)) == Elems(s)
  {
    if |s| >= 2 {
      DedupAscends(less, s[1..]);
      var rest := Dedup(s[1..]);
      assert s == [s[0]] + s[1..];
      ElemsCons(s[0], s[1..]);
      if s[0] != s[1] {
        ElemsCons(s[0], rest);
        forall j | 0 <= j < |rest| ensures less(s[0], rest[j]) {
          assert rest[j] in Elems(s[1..]);
          var k :| 0 <= k < |s[1..]| && s[1..][k] == rest[j];
          assert !less(s[k + 1], s[0]) && !less(s[k + 1], s[1]) && less(s[0], s[1]);
        }
      }
    }
  }

  /** A strictly ascending listing of a set is unique. */
  lemma {:induction false} AscendingUnique<T(!new)>(less: (T, T) -> bool, a: seq<T>, b: seq<T>)
    requires StrictTotal(less) && Ascending(less, a) && Ascending(less, b)
    requires Elems(a) == Elems(b)
    ensures a == b
  {
    if a == [] {
      NoElems(a);
      NoElems(b);
    } else {
      assert a[0] in Elems(b);
      assert b != [];
      assert b[0] in Elems(a);
      assert a[0] == b[0] by {
        var j :| 0 <= j < |b| && b[j] == a[0];
        var i :| 0 <= i < |a| && a[i] == b[0];
      }
      forall x ensures x in a[1..] <==> x in b[1..] {
        HeadExcluded(less, a, x);
        HeadExcluded(less, b, x);
      }
      AscendingUnique(less, a[1..], b[1..]);
    }
  }

  lemma HeadExcluded<T(!new)>(less: (T, T) -> bool, a: seq<T>, x: T)
    requires StrictTotal(less) && a != [] && Ascending(less, a)
    ensures x in a[1..] <==> x in Elems(a) && x != a[0]
  {
    assert a == [a[0]] + a[1..];
  }

  lemma SortDedupAscends<T(!new)>(less: (T, T) -> bool, s: seq<T>)
    requires StrictTotal(less)
    ensures Ascending(less, SortDedup(less, s)) && Elems(SortDedup(less, s)) == Elems(s)
  {
    SortByKeeps(less, s);
    SortByElems(less, s);
    DedupAscends(less, SortBy(less, s));
  }

  /** Canonical forms are equal exactly when the underlying sets are: order and repeats are
      forgotten, nothing else is. */
  lemma SortDedupExact<T(!new)>(less: (T, T) -> bool, a: seq<T>, b: seq<T>)
    requires StrictTotal(less)
    ensures SortDedup(less, a) == SortDedup(less, b) <==> Elems(a) == Elems(b)
  {
    SortDedupAscends(less, a);
    SortDedupAscends(less, b);
    if Elems(a) == Elems(b) {
      AscendingUnique(less, SortDedup(less, a), SortDedup(less, b));
    }
  }

  /** Without repeats, sorting alone is already exact. */
  lemma SortByExact<T(!new)>(less: (T, T) -> bool, a: seq<T>, b: seq<T>)
    requires StrictTotal(less) && Distinct(a) && Distinct(b)
    ensures SortBy(less, a) == SortBy(less, b) <==> Elems(a) == Elems(b)
  {
    SortByDistinctAscends(less, a);
    SortByDistinctAscends(less, b);
    SortByElems(less, a);
    SortByElems(less, b);
    if Elems(a) == Elems(b) {
      AscendingUnique(less, SortBy(less, a), SortBy(less, b));
    }
  }

  lemma SortByDistinctAscends<T(!new)>(less: (T, T) -> bool, s: seq<T>)
    requires StrictTotal(less) && Distinct(s)
    ensures Ascending(less, SortBy(less, s))
  {
    SortByKeeps(less, s);
    var t := SortBy(less, s);
    forall i, j | 0 <= i < j < |t| ensures less(t[i], t[j]) {
      assert t[i] != t[j] by {
        if t[i] == t[j] {
          RepeatCounts(t, i, j);
          DistinctCounts(s, t[i]);
        }
      }
    }
  }

  lemma RepeatCounts<T>(t: seq<T>, i: nat, j: nat)
    requires i < j < |t| && t[i] == t[j]
    ensures multiset(t)[t[i]] >= 2
  {
    assert t == t[..j] + [t[j]] + t[j + 1..];
    assert t[i] in multiset(t[..j]) by { assert t[..j][i] == t[i]; }
  }

  lemma {:induction false} DistinctCounts<T>(s: seq<T>, x: T)
    requires Distinct(s)
    ensures multiset(s)[x] <= 1
  {
    if s != [] {
      DistinctCounts(s[1..], x);
      assert s == [s[0]] + s[1..];
      if s[0] == x { assert x !in s[1..]; assert x !in multiset(s[1..]); }
    }
  }

  // ---------------------------------------------------------------- concrete orders

  predicate IntLess(a: int, b: int) { a < b }

  /** Lexicographic order on encoded keys, as on byte strings. */
  predicate LexLess(a: seq<int>, b: seq<int>) {
    if b == [] then false
    else if a == [] then true
    else a[0] < b[0] || (a[0] == b[0] && LexLess(a[1..], b[1..]))
  }

  lemma {:induction false} LexIrreflexive(a: seq<int>)
    ensures !LexLess(a, a)
  {
    if a != [] { LexIrreflexive(a[1..]); }
  }

  lemma {:induction false} LexTransitive(a: seq<int>, b: seq<int>, c: seq<int>)
    requires LexLess(a, b) && LexLess(b, c)
    ensures LexLess(a, c)
  {
    if a != [] && a[0] == b[0] == c[0] { LexTransitive(a[1..], b[1..], c[1..]); }
  }

  lemma {:induction false} LexConnected(a: seq<int>, b: seq<int>)
    ensures a == b || LexLess(a, b) || LexLess(b, a)
  {
    if a != [] && b != [] && a[0] == b[0] {
      LexConnected(a[1..], b[1..]);
      assert a == [a[0]] + a[1..] && b == [b[0]] + b[1..];
    }
  }

  lemma IntLessTotal()
    ensures StrictTotal(IntLess)
  {}

  lemma LexLessTotal()
    ensures StrictTotal(LexLess)
  {
    forall a ensures !LexLess(a, a) { LexIrreflexive(a); }
    forall a, b, c | LexLess(a, b) && LexLess(b, c) ensures LexLess(a, c) { LexTransitive(a, b, c); }
    forall a, b ensures a == b || LexLess(a, b) || LexLess(b, a) { LexConnected(a, b); }
  }

  /** Ascending listing of a finite set of identifiers. */
  ghost function Listed(ids: set<int>): (s: seq<int>)
    ensures Ascending(IntLess, s) && Elems(s) == ids && Distinct(s)
  {
    if ids == {} then [] else
      LeastExists(ids);
      var m :| m in ids && forall x :: x in ids ==> m <= x;
      var rest := Listed(ids - {m});
      ElemsCons(m, rest);
      assert forall i :: 0 <= i < |rest| ==> rest[i] in Elems(rest);
      [m] + rest
  }

  lemma SomeMember<T>(ids: set<T>) returns (a: T)
    requires ids != {}
    ensures a in ids
  {
    a :| a in ids;
  }

  lemma {:induction false} LeastExists(ids: set<int>)
    requires ids != {}
    ensures exists m :: m in ids && forall x :: x in ids ==> m <= x
  {
    var a := SomeMember(ids);
    if ids == {a} {
      assert forall x :: x in ids ==> a <= x;
    } else {
      var rest := ids - {a};
      LeastExists(rest);
      var m :| m in rest && forall x :: x in rest ==> m <= x;
      var least := if a < m then a else m;
      assert forall x :: x in ids ==> x == a || x in rest;
      assert least in ids && forall x :: x in ids ==> least <= x;
    }
  }

  /** Sorting any repeat-free enumeration of a set gives that listing, so results that sort do not
      depend on the iteration order they started from. */
  lemma SortedEnumeration(s: seq<int>)
    requires Distinct(s)
    ensures SortBy(IntLess, s) == Listed(Elems(s))
  {
    IntLessTotal();
    SortByDistinctAscends(IntLess, s);
    SortByElems(IntLess, s);
    AscendingUnique(IntLess, SortBy(IntLess, s), Listed(Elems(s)));
  }
}
