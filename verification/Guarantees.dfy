/**
  What the kernel invariant means for forests, authority, agents and expiry.
 */
module Guarantees {
  import opened Basics
  import opened Authority
  import opened Identity
  import opened Validation
  import opened Forest
  import opened Kernel
  import opened Invariant
  import opened Chain
  import opened Preservation
  import opened Evolution

  // ---------------------------------------------------------------- forest

  /** Parent links form a forest of depth at most 32: from any lease they reach a parentless one in
      exactly `Depth - 1` steps, never return to it, and the identity chain of the lease's agent is
      verified and exactly as long. */
  lemma ForestOfBoundedDepth(s: State, id: LeaseId)
    requires Inv(s) && id in s.leases
    ensures var g, d := LinksOf(s.leases), Depth(s.leases[id].certificate);
            && 1 <= d <= MAX_AUTHORITY_CHAIN_DEPTH
            && (forall n: nat :: n < d ==> Up(g, id, n) == Some(Path(s.leases[id].certificate)[n]))
            && Up(g, id, d) == None
            && (forall n: nat :: n > 0 ==> Up(g, id, n) != Some(id))
            && exists p :: Trusted(s.identities, s.leases[id].certificate.body.agentId, p) && |p| == d
  {
    var g, c := LinksOf(s.leases), s.leases[id].certificate;
    assert CertificateOk(s, id);
    forall n: nat | n <= Depth(c) ensures Up(g, id, n) == if n < Depth(c) then Some(Path(c)[n]) else None {
      UpAlongPath(s, id, n);
    }
    forall n: nat | n > 0 ensures Up(g, id, n) != Some(id) {
      if Up(g, id, n) == Some(id) { BelowIsDeeper(s, id, id, n); }
    }
    AgentPathTrusted(s, id);
    assert Trusted(s.identities, c.body.agentId, AgentPath(c));
  }

  lemma {:induction false} UpAlongPath(s: State, id: LeaseId, n: nat)
    requires Static(s) && id in s.leases && n <= Depth(s.leases[id].certificate)
    ensures Up(LinksOf(s.leases), id, n) ==
            if n < Depth(s.leases[id].certificate) then Some(Path(s.leases[id].certificate)[n]) else None
    decreases n
  {
    var g := LinksOf(s.leases);
    assert CertificateOk(s, id);
    if n > 0 {
      if s.leases[id].certificate.body.parentLease.Some? {
        var p := ParentFacts(s, id);
        UpFromParent(g, id, p, n - 1);
        UpAlongPath(s, p, n - 1);
      } else {
        TopStays(g, id, n);
      }
    }
  }

  /** Everything above a live lease is live. */
  lemma {:induction false} LiveAncestors(s: State, id: LeaseId, above: LeaseId, n: nat)
    requires Static(s) && LiveClosed(s) && id in s.leases && s.leases[id].Live()
    requires Up(LinksOf(s.leases), id, n) == Some(above)
    ensures above in s.leases && s.leases[above].Live()
    decreases n
  {
    var g := LinksOf(s.leases);
    if n > 0 {
      assert CertificateOk(s, id) && LiveUnderLive(s.leases, id);
      if s.leases[id].certificate.body.parentLease.Some? {
        var p := ParentFacts(s, id);
        UpFromParent(g, id, p, n - 1);
        LiveAncestors(s, p, above, n - 1);
      } else {
        TopStays(g, id, n);
      }
    }
  }

  /** Once a lease is revoked, expired or retired, no later state of the run has a live lease at or
      below it, whatever was delegated or renewed meanwhile. */
  lemma NothingLivesBelowTheDead(trace: seq<State>, ops: seq<(Op, Time)>, i: nat, j: nat, dead: LeaseId, id: LeaseId)
    requires Run(trace, ops) && i <= j < |trace|
    requires dead in trace[i].leases && !trace[i].leases[dead].Live()
    requires id in trace[j].leases && Below(LinksOf(trace[j].leases), id, dead)
    ensures !trace[j].leases[id].Live()
  {
    DeadIsFinal(trace, ops, i, j, dead);
    RunKeepsInv(trace, ops, j);
    if trace[j].leases[id].Live() {
      var n: nat :| Up(LinksOf(trace[j].leases), id, n) == Some(dead);
      LiveAncestors(trace[j], id, dead, n);
    }
  }

  // ---------------------------------------------------------------- attenuation

  /** Authority, tools and lifetime only shrink along the chain, through any mix of delegations and
      renewals: a lease stays within the delegable authority, tools and expiry of every ancestor. */
  lemma {:induction false} AttenuatedBelow(s: State, id: LeaseId, above: LeaseId, n: nat)
    requires Static(s) && id in s.leases && Up(LinksOf(s.leases), id, n) == Some(above) && n > 0
    ensures above in s.leases
    ensures var a, b := s.leases[above], s.leases[id];
            && CapsWithin(b.certificate.body.granted.capabilities, a.certificate.body.delegable.capabilities)
            && Attenuates(b.manifest, a.manifest)
            && b.certificate.body.expiresAt <= a.certificate.body.expiresAt
    decreases n
  {
    var g := LinksOf(s.leases);
    assert CertificateOk(s, id);
    if s.leases[id].certificate.body.parentLease.Some? {
      var p := ParentFacts(s, id);
      UpFromParent(g, id, p, n - 1);
      if n > 1 {
        AttenuatedBelow(s, p, above, n - 1);
        assert CertificateOk(s, p);
        var a, b, c := s.leases[above], s.leases[p], s.leases[id];
        CapsWithinTransitive(c.certificate.body.granted.capabilities, b.certificate.body.delegable.capabilities,
                             b.certificate.body.granted.capabilities);
        CapsWithinTransitive(c.certificate.body.granted.capabilities, b.certificate.body.granted.capabilities,
                             a.certificate.body.delegable.capabilities);
        AttenuatesTransitive(c.manifest, b.manifest, a.manifest);
      }
    } else {
      TopStays(g, id, n);
    }
  }

  /** Every lease of every state of a run, parentless ones included, is within the mission. */
  lemma MissionBoundsAll(trace: seq<State>, ops: seq<(Op, Time)>, i: nat, id: LeaseId)
    requires Run(trace, ops) && i < |trace| && id in trace[i].leases
    ensures WithinMission(trace[0].mission, trace[i].leases[id])
  {
    RunKeepsInv(trace, ops, i);
    RunEvolves(trace, ops, 0, i);
    assert CertificateOk(trace[i], id);
  }

  /** Every lease of every state of a run is within each of its ancestors. */
  lemma AuthorityOnlyShrinks(trace: seq<State>, ops: seq<(Op, Time)>, i: nat, id: LeaseId, above: LeaseId)
    requires Run(trace, ops) && i < |trace| && id in trace[i].leases
    requires above != id && Below(LinksOf(trace[i].leases), id, above)
    ensures above in trace[i].leases
    ensures var a, b := trace[i].leases[above], trace[i].leases[id];
            && CapsWithin(b.certificate.body.granted.capabilities, a.certificate.body.delegable.capabilities)
            && ToolsWithin(b.manifest.tools, a.manifest.tools)
            && b.certificate.body.expiresAt <= a.certificate.body.expiresAt
  {
    RunKeepsInv(trace, ops, i);
    RunEvolves(trace, ops, 0, i);
    assert CertificateOk(trace[i], id);
    var n: nat :| Up(LinksOf(trace[i].leases), id, n) == Some(above);
    AttenuatedBelow(trace[i], id, above, n);
  }

  // ---------------------------------------------------------------- agents and renewals

  /** An agent has at most one live lease. */
  lemma OneLiveLease(s: State, x: LeaseId, y: LeaseId)
    requires Inv(s) && SameAgent(s, x, y) && s.leases[x].Live() && s.leases[y].Live()
    ensures x == y
  {
    assert RecordOk(s.leases, x) && RecordOk(s.leases, y);
    assert Unrenewed(s, x) && Unrenewed(s, y);
  }

  lemma PredecessorFacts(s: State, id: LeaseId) returns (q: LeaseId)
    requires Inv(s) && id in s.leases && s.leases[id].certificate.body.renewedFrom.Some?
    ensures q == s.leases[id].certificate.body.renewedFrom.value.leaseId && q in s.leases
    ensures s.leases[q].record.renewedBy == Some(id) && Narrows(s.leases[q], s.leases[id])
    ensures RenewalRank(s.leases[id].certificate) == 1 + RenewalRank(s.leases[q].certificate)
  {
    assert CertificateOk(s, id) && RecordOk(s.leases, id);
    q := s.leases[id].certificate.body.renewedFrom.value.leaseId;
  }

  /** The leases of an agent form one unbranched renewal history: at most one lease per rank. */
  lemma {:induction false} UnbranchedHistory(s: State, x: LeaseId, y: LeaseId)
    requires Inv(s) && SameAgent(s, x, y)
    requires RenewalRank(s.leases[x].certificate) == RenewalRank(s.leases[y].certificate)
    ensures x == y
    decreases RenewalRank(s.leases[x].certificate)
  {
    if s.leases[x].certificate.body.renewedFrom.Some? {
      var p := PredecessorFacts(s, x);
      var q := PredecessorFacts(s, y);
      UnbranchedHistory(s, p, q);
    } else {
      assert Original(s, x) && Original(s, y);
    }
  }

  /** Going back in a history, every earlier rank is occupied by a lease that has been renewed and
      is at least as wide. */
  lemma {:induction false} EarlierRank(s: State, id: LeaseId, rank: nat) returns (z: LeaseId)
    requires Inv(s) && id in s.leases && rank < RenewalRank(s.leases[id].certificate)
    ensures SameAgent(s, z, id) && RenewalRank(s.leases[z].certificate) == rank
    ensures s.leases[z].record.state == Retired && Narrows(s.leases[z], s.leases[id])
    decreases RenewalRank(s.leases[id].certificate)
  {
    var q := PredecessorFacts(s, id);
    if rank + 1 == RenewalRank(s.leases[id].certificate) {
      z := q;
    } else {
      z := EarlierRank(s, q, rank);
      NarrowsTransitive(s.leases[z], s.leases[q], s.leases[id]);
    }
    assert RecordOk(s.leases, z);
  }

  lemma NarrowsTransitive(a: LeaseEntry, b: LeaseEntry, c: LeaseEntry)
    requires Narrows(a, b) && Narrows(b, c)
    ensures Narrows(a, c)
  {
    CapsWithinTransitive(c.certificate.body.granted.capabilities, b.certificate.body.granted.capabilities,
                         a.certificate.body.granted.capabilities);
    CapsWithinTransitive(c.certificate.body.delegable.capabilities, b.certificate.body.delegable.capabilities,
                         a.certificate.body.delegable.capabilities);
    AttenuatesTransitive(c.manifest, b.manifest, a.manifest);
  }

  /** The root lease id always names the newest parentless lease: every other one belongs to the same
      agent, is an earlier retired link of its renewal history, and was at least as wide. */
  lemma RootIsNewest(s: State, id: LeaseId)
    requires Inv(s) && id in s.leases && s.leases[id].certificate.body.parentLease == None
    ensures SameAgent(s, id, s.rootLeaseId)
    ensures id == s.rootLeaseId || (
              && RenewalRank(s.leases[id].certificate) < RenewalRank(s.leases[s.rootLeaseId].certificate)
              && s.leases[id].record.state == Retired
              && Narrows(s.leases[id], s.leases[s.rootLeaseId]))
  {
    NewestInHistory(s, s.rootLeaseId, id);
  }

  lemma NewestInHistory(s: State, head: LeaseId, id: LeaseId)
    requires Inv(s) && SameAgent(s, id, head) && Unrenewed(s, head)
    ensures id == head || (
              && RenewalRank(s.leases[id].certificate) < RenewalRank(s.leases[head].certificate)
              && s.leases[id].record.state == Retired
              && Narrows(s.leases[id], s.leases[head]))
  {
    var i, h := RenewalRank(s.leases[id].certificate), RenewalRank(s.leases[head].certificate);
    assert RecordOk(s.leases, head);
    if i > h {
      var z := EarlierRank(s, id, h);
      UnbranchedHistory(s, z, head);
    } else if i == h {
      UnbranchedHistory(s, id, head);
    } else {
      var z := EarlierRank(s, head, i);
      UnbranchedHistory(s, z, id);
    }
  }

  ghost predicate HasLive(s: State, agent: AgentId) {
    exists id :: id in s.leases && s.leases[id].Live() && AgentOf(s.leases, id) == agent
  }

  lemma RenewOrigin(s: State, request: RenewalRequest, now: Time, id: LeaseId)
    requires Inv(s) && id !in s.leases && Renew(s, request, now, id).Ok?
    ensures var s' := Renew(s, request, now, id).value;
            && s'.leases.Keys == s.leases.Keys + {id}
            && HasLive(s, AgentOf(s'.leases, id))
  {
    var k, certificate := RenewShape(s, request, now, id);
    RenewedEntryOk(s, request, now, id, certificate);
    assert s.leases[request.leaseId].Live() && AgentOf(s.leases, request.leaseId) == certificate.body.agentId;
  }

  lemma DelegateOrigin(s: State, request: DelegationRequest, custody: Custody, now: Time, id: LeaseId)
    requires Delegate(s, request, custody, now, id).Ok?
    ensures var s' := Delegate(s, request, custody, now, id).value;
            s'.leases.Keys == s.leases.Keys + {id} && AgentOf(s'.leases, id) !in s.identities
  {
    var identity, certificate := DelegateShape(s, request, custody, now, id);
  }

  /** A live lease of a known agent after a step continues a live lease of that agent before it. */
  lemma LiveHasOrigin(s: State, op: Op, now: Time, agent: AgentId)
    requires Inv(s) && FreshIds(s, op) && agent in s.identities && HasLive(Step(s, op, now), agent)
    ensures HasLive(s, agent)
  {
    var s' := Step(s, op, now);
    var id :| id in s'.leases && s'.leases[id].Live() && AgentOf(s'.leases, id) == agent;
    StepEvolves(s, op, now);
    if id in s.leases {
      assert s.leases[id].Live() && AgentOf(s.leases, id) == agent;
    } else {
      match op
      case DelegateOp(request, custody, next) => DelegateOrigin(s, request, custody, now, next);
      case PauseOp(lease, expected) =>
      case ResumeOp(lease, expected) =>
      case RevokeOp(lease, expected, reason) => RevokeInv(s, lease, expected, reason, now);
      case RefreshOp => RefreshInv(s, now);
      case RenewOp(request, next) => RenewOrigin(s, request, now, next);
    }
  }

  lemma LinkOrigin(trace: seq<State>, ops: seq<(Op, Time)>, i: nat, agent: AgentId)
    requires Run(trace, ops) && i < |ops| && agent in trace[i].identities && HasLive(trace[i + 1], agent)
    ensures HasLive(trace[i], agent)
  {
    RunKeepsInv(trace, ops, i);
    assert Linked(trace, ops, i);
    LiveHasOrigin(trace[i], ops[i].0, ops[i].1, agent);
  }

  /** An agent whose last lease died never holds a live lease again. */
  lemma {:induction false} DeadAgentsStayDead(trace: seq<State>, ops: seq<(Op, Time)>, i: nat, j: nat, agent: AgentId)
    requires Run(trace, ops) && i <= j < |trace| && agent in trace[i].identities && !HasLive(trace[i], agent)
    ensures !HasLive(trace[j], agent)
    decreases j
  {
    if i < j {
      DeadAgentsStayDead(trace, ops, i, j - 1, agent);
      RunEvolves(trace, ops, i, j - 1);
      if HasLive(trace[j], agent) { LinkOrigin(trace, ops, j - 1, agent); }
    }
  }

  // ---------------------------------------------------------------- the log

  /** Replaying the log of any state of any run rebuilds every lease's state, generation, revocation
      time and successor; generations count lifecycle events; sequence numbers are contiguous. */
  lemma LogRebuildsLeases(trace: seq<State>, ops: seq<(Op, Time)>, i: nat, id: LeaseId)
    requires Run(trace, ops) && i < |trace|
    ensures id in Replay(trace[i].events) <==> id in trace[i].leases
    ensures id in trace[i].leases ==>
            && Replay(trace[i].events)[id] == ViewOf(trace[i].leases[id].record)
            && trace[i].leases[id].record.generation == Lifecycle(trace[i].events, id)
    ensures forall n :: 0 <= n < |trace[i].events| ==> trace[i].events[n].sequence == n + 1
  {
    RunKeepsInv(trace, ops, i);
  }

  // ---------------------------------------------------------------- chain validation

  /** On every reachable state chain validation answers exactly as the short check does. */
  lemma ReachableChainCollapses(trace: seq<State>, ops: seq<(Op, Time)>, i: nat, leaf: LeaseId, expected: Option<nat>,
                                manifest: Manifest, now: Time)
    requires Run(trace, ops) && i < |trace|
    ensures Static(trace[i])
    ensures ValidateChain(trace[i], leaf, expected, manifest, now) ==
            CollapsedChain(trace[i], leaf, expected, manifest, now)
  {
    RunKeepsInv(trace, ops, i);
    ChainCollapses(trace[i], leaf, expected, manifest, now);
  }
}
