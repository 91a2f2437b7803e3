/**
  Where everything in a consumed authorization comes from: the context and lease the call read, the
  proposal its model made, and the tool its lease binds
  (crates/aeon_agent_runtime/src/supervisor.rs:225-328, crates/aeon_agent_runtime/src/execution.rs:149-311).
 */
module Provenance {
  import opened Basics
  import opened Authority
  import opened Invariant
  import opened Registry
  import opened Execution
  import opened Protocol
  import opened ControlFlow
  import opened Linearization
  import opened CommitPoint
  import opened NexusRuns
  import opened Checks

  // ---------------------------------------------------------------- going back one step

  /** At step `i` task `t` leaves `pc` by this move. */
  ghost predicate LeavesAt(trace: seq<Sys>, labels: seq<Label>, i: nat, t: TaskId, pc: Pc, move: Move)
    requires |trace| == |labels| + 1 && i < |labels|
  {
    MovesAt(trace, labels, i, t, move) && trace[i].tasks[t].pc == pc
  }

  lemma ArrivalIsMove(trace: seq<Sys>, labels: seq<Label>, i: nat, t: TaskId)
    requires Interleaving(trace, labels) && i < |labels| && t in trace[i + 1].tasks
    requires t in trace[i].tasks && trace[i].tasks[t].pc != trace[i + 1].tasks[t].pc
    ensures labels[i].TaskStep?
    ensures LeavesAt(trace, labels, i, t, trace[i].tasks[t].pc, labels[i].move)
    ensures Relays(trace[i].tasks[t].pc, labels[i].move, trace[i + 1].tasks[t].pc)
  {
    ChangeIsMove(trace, labels, i, t);
    MoveLands(trace, labels, i, t, labels[i].move);
    LandingRelays(trace[i], trace[i + 1], t, labels[i].move);
  }

  lemma LandingRelays(sys: Sys, sys': Sys, t: TaskId, move: Move)
    requires t in sys.tasks && Landed(sys, sys', t, move) && sys.tasks[t].pc != sys'.tasks[t].pc
    ensures Relays(sys.tasks[t].pc, move, sys'.tasks[t].pc)
  {
    var k := sys.tasks[t];
    AfterFacts(k, Flow(k.pc, move), sys.store.nextAttempt + 1, |sys.store.records|);
    FlowRelays(k.pc, move);
  }

  /** Wherever a task is, a step of its own brought it there. */
  lemma {:induction false} Arrival(trace: seq<Sys>, labels: seq<Label>, j: nat, t: TaskId) returns (i: nat, move: Move)
    requires Interleaving(trace, labels) && j < |trace| && t in trace[j].tasks && !trace[j].tasks[t].pc.Idle?
    ensures i < j && t in trace[i].tasks && LeavesAt(trace, labels, i, t, trace[i].tasks[t].pc, move)
    ensures Relays(trace[i].tasks[t].pc, move, trace[j].tasks[t].pc)
    decreases j
  {
    assert SysLinked(trace, labels, 0);
    ChangeIsMove(trace, labels, j - 1, t);
    if trace[j - 1].tasks[t].pc == trace[j].tasks[t].pc {
      i, move := Arrival(trace, labels, j - 1, t);
    } else {
      ArrivalIsMove(trace, labels, j - 1, t);
      i, move := j - 1, labels[j - 1].move;
    }
  }

  // ---------------------------------------------------------------- the way to the gate

  /** The steps of a call from its proposal `p` over the root read `h`, the snapshot `q` and the tool
      resolution `r` to the gate's decision `g`. */
  datatype GateSteps = GateSteps(p: nat, h: nat, q: nat, r: nat)

  ghost predicate Gated(trace: seq<Sys>, labels: seq<Label>, w: GateSteps, t: TaskId, pc: Pc)
    requires |trace| == |labels| + 1 && w.p < w.h < w.q < w.r < |labels| && pc.GateResolved?
  {
    && t in trace[w.p].tasks && trace[w.p].tasks[t].pc.Replied?
    && trace[w.p].tasks[t].pc.obs.validated.contextDigest == pc.context
    && LeavesAt(trace, labels, w.p, t, trace[w.p].tasks[t].pc, Propose(pc.proposal, true))
    && LeavesAt(trace, labels, w.h, t, Proposed(pc.proposal, pc.context), ReadGateRoot(pc.lease))
    && LeavesAt(trace, labels, w.q, t, GateRooted(pc.proposal, pc.context, pc.lease),
                ReadGateSnapshot(pc.now, Ok(pc.entry)))
    && LeavesAt(trace, labels, w.r, t, GateRead(pc.proposal, pc.context, pc.lease, pc.entry, pc.now),
                ResolveTool(Ok((pc.resolved, pc.live))))
  }

  lemma GateHistory(trace: seq<Sys>, labels: seq<Label>, g: nat, t: TaskId) returns (w: GateSteps)
    requires Interleaving(trace, labels) && g < |trace| && t in trace[g].tasks && trace[g].tasks[t].pc.GateResolved?
    ensures w.p < w.h < w.q < w.r < g && Gated(trace, labels, w, t, trace[g].tasks[t].pc)
  {
    var r, m3 := Arrival(trace, labels, g, t);
    var q, m2 := Arrival(trace, labels, r, t);
    var h, m1 := Arrival(trace, labels, q, t);
    var p, m0 := Arrival(trace, labels, h, t);
    w := GateSteps(p, h, q, r);
  }

  lemma GateJudged(trace: seq<Sys>, labels: seq<Label>, w: GateSteps, t: TaskId, pc: Pc)
    requires SysRun(trace, labels) && w.p < w.h < w.q < w.r < |labels| && pc.GateResolved?
    requires Gated(trace, labels, w, t, pc)
    ensures trace[w.h].kernel.rootLeaseId == pc.lease
    ensures GateSnapshot(trace[w.q].kernel, pc.proposal.tool, pc.lease, pc.now) == Ok(pc.entry)
    ensures ResolveAtGate(trace[w.r].tools, pc.proposal.tool, pc.entry) == Ok((pc.resolved, pc.live))
  {
    JudgedStep(trace, labels, w.h, t);
    JudgedStep(trace, labels, w.q, t);
    JudgedStep(trace, labels, w.r, t);
    RootJudged(trace[w.h], trace[w.h].tasks[t], pc.lease);
    SnapshotJudged(trace[w.q], trace[w.q].tasks[t], pc.now, Ok(pc.entry));
    ToolJudged(trace[w.r], trace[w.r].tasks[t], Ok((pc.resolved, pc.live)));
  }

  lemma RootJudged(sys: Sys, k: Task, lease: LeaseId)
    requires k.pc.Proposed? && Judged(sys, k, ReadGateRoot(lease))
    ensures lease == sys.kernel.rootLeaseId
  {}

  lemma SnapshotJudged(sys: Sys, k: Task, now: Time, snapshot: Result<LeaseEntry>)
    requires k.pc.GateRooted? && Judged(sys, k, ReadGateSnapshot(now, snapshot))
    ensures snapshot == GateSnapshot(sys.kernel, k.pc.proposal.tool, k.pc.lease, now)
  {}

  lemma ToolJudged(sys: Sys, k: Task, bound: Result<(BoundTool, Manifest)>)
    requires k.pc.GateRead? && Judged(sys, k, ResolveTool(bound))
    ensures bound == ResolveAtGate(sys.tools, k.pc.proposal.tool, k.pc.entry)
  {}

  /** The mission runs and allows the tool, and the snapshot binds it as resolved. */
  predicate ToolPassed(mission: Mission, pc: Pc)
    requires pc.GateResolved?
  {
    && mission.active && pc.now < mission.expiresAt && pc.proposal.tool in mission.allowedTools
    && BoundTool(pc.proposal.tool, pc.resolved.manifestDigest) in pc.entry.manifest.tools
  }

  lemma BoundWhenResolved(kernel: State, tools: Tools, pc: Pc)
    requires pc.GateResolved?
    requires GateSnapshot(kernel, pc.proposal.tool, pc.lease, pc.now).Ok?
    requires ResolveAtGate(tools, pc.proposal.tool, pc.entry) == Ok((pc.resolved, pc.live))
    ensures ToolPassed(kernel.mission, pc)
  {
    FoundHasId(tools, pc.proposal.tool);
    FoundHasId(pc.entry.manifest.tools, pc.proposal.tool);
  }

  lemma MissionFixed(trace: seq<Sys>, labels: seq<Label>, i: nat, j: nat)
    requires SysRun(trace, labels) && i <= j < |trace|
    ensures trace[j].kernel.mission == trace[i].kernel.mission
  {
    SysEvolves(trace, labels, i, j);
  }

  lemma ResolvedPassed(trace: seq<Sys>, labels: seq<Label>, g: nat, t: TaskId) returns (w: GateSteps)
    requires SysRun(trace, labels) && g < |trace| && t in trace[g].tasks && trace[g].tasks[t].pc.GateResolved?
    ensures w.p < w.h < w.q < w.r < g && Gated(trace, labels, w, t, trace[g].tasks[t].pc)
    ensures trace[w.h].kernel.rootLeaseId == trace[g].tasks[t].pc.lease
    ensures ToolPassed(trace[g].kernel.mission, trace[g].tasks[t].pc)
  {
    var pc := trace[g].tasks[t].pc;
    w := GateHistory(trace, labels, g, t);
    GateJudged(trace, labels, w, t, pc);
    BoundWhenResolved(trace[w.q].kernel, trace[w.r].tools, pc);
    MissionFixed(trace, labels, w.q, g);
  }

  // ---------------------------------------------------------------- the grant

  /** What a granted authorization is: issued on the state of its grant, for the runtime's own lease, while the
      mission ran, for a tool that mission and lease allow, and within the authority of both. */
  predicate Rightful(sys: Sys, auth: Authorization) {
    var kernel, action := sys.kernel, auth.certificate.body;
    && IssuedFor(kernel, sys.binding.custody, auth.proposal, auth.toolManifestDigest, auth.manifest,
                 action.contextDigest, action.leaseId, action.issuedAt, auth.required, action.recordId, auth)
    && action.leaseId in kernel.leases
    && var lease := kernel.leases[action.leaseId];
       && OwnLease(kernel.mission, sys.binding.agent, lease.certificate.body)
       && action.contextDigest == lease.certificate.body.contextDigest
       && kernel.mission.active && action.issuedAt < kernel.mission.expiresAt
       && auth.proposal.tool in kernel.mission.allowedTools
       && BoundTool(auth.proposal.tool, auth.toolManifestDigest) in lease.manifest.tools
       && CapabilityRefusal(kernel.mission, lease.certificate.body.granted, auth.required) == None
  }

  lemma GrantRightful(sys: Sys, pc: Pc, move: Move, auth: Authorization)
    requires Inv(sys.kernel) && pc.GateResolved? && move.Grant? && ReadBefore(sys.kernel, pc.lease, pc.entry)
    requires ToolPassed(sys.kernel.mission, pc)
    requires Authorize(sys.kernel, sys.binding, pc.proposal, pc.resolved, pc.live, pc.context, pc.lease, pc.entry,
                       pc.now, move.input, move.required, move.recordId) == Ok(auth)
    ensures Rightful(sys, auth) && auth.proposal == pc.proposal && auth.Lease() == pc.lease
    ensures auth.certificate.body.contextDigest == pc.context && auth.certificate.body.issuedAt == pc.now
  {
    AuthorizeExact(sys.kernel, sys.binding, pc.proposal, pc.resolved, pc.live, pc.context, pc.lease, pc.entry, pc.now,
                   move.input, move.required, move.recordId);
  }

  /** The proposal is the one the call's model made, the lease was the root lease when the gate looked, and the
      context is the one observed before the model was called. */
  ghost predicate AsProposed(trace: seq<Sys>, labels: seq<Label>, w: GateSteps, t: TaskId, auth: Authorization)
    requires |trace| == |labels| + 1 && w.p < w.h < w.q < w.r < |labels|
  {
    && t in trace[w.p].tasks && trace[w.p].tasks[t].pc.Replied?
    && LeavesAt(trace, labels, w.p, t, trace[w.p].tasks[t].pc, Propose(auth.proposal, true))
    && trace[w.p].tasks[t].pc.obs.validated.contextDigest == auth.certificate.body.contextDigest
    && trace[w.h].kernel.rootLeaseId == auth.Lease()
  }

  /** Every authorization granted in a run is rightful and as proposed. */
  lemma GrantedAsProposed(trace: seq<Sys>, labels: seq<Label>, g: nat, t: TaskId, auth: Authorization)
    returns (w: GateSteps)
    requires SysRun(trace, labels) && g < |labels| && GrantedAt(trace, labels, g, t, auth)
    ensures w.p < w.h < w.q < w.r < g && AsProposed(trace, labels, w, t, auth)
    ensures Rightful(trace[g], auth)
  {
    var pc := trace[g].tasks[t].pc;
    w := ResolvedPassed(trace, labels, g, t);
    GrantIsJudged(trace, labels, g, t, auth);
    RunKeepsAuthority(trace, labels, g);
    assert TaskFresh(trace[g].kernel, pc);
    GrantRightful(trace[g], pc, labels[g].move, auth);
  }

  // ---------------------------------------------------------------- the observation

  /** The steps of a call that lead to its observation: context, root lease and snapshot read, chain observed. */
  datatype ReadSteps = ReadSteps(c: nat, l: nat, s: nat, o: nat)

  ghost predicate Read(trace: seq<Sys>, labels: seq<Label>, w: ReadSteps, t: TaskId, obs: Observation)
    requires |trace| == |labels| + 1 && w.c < w.l < w.s < w.o < |labels|
  {
    && obs.validated.contextDigest == trace[w.c].context
    && obs.lease == trace[w.l].kernel.rootLeaseId
    && obs.lease in trace[w.s].kernel.leases && obs.entry == trace[w.s].kernel.leases[obs.lease]
    && LeavesAt(trace, labels, w.c, t, Idle, ReadContext(trace[w.c].context))
    && ObservedAt(trace, labels, w.o, t, obs)
  }

  lemma ReadHistory(trace: seq<Sys>, labels: seq<Label>, o: nat, t: TaskId, lease: LeaseId, entry: LeaseEntry,
                    context: Digest)
    returns (c: nat, l: nat, s: nat)
    requires Interleaving(trace, labels) && o < |trace| && t in trace[o].tasks
    requires trace[o].tasks[t].pc == SnapshotRead(lease, entry, context)
    ensures c < l < s < o && LeavesAt(trace, labels, c, t, Idle, ReadContext(context))
    ensures LeavesAt(trace, labels, l, t, ContextRead(context), ReadRoot(lease))
    ensures LeavesAt(trace, labels, s, t, RootRead(lease, context), ReadSnapshot(Some(entry)))
  {
    var m2, m1, m0;
    s, m2 := Arrival(trace, labels, o, t);
    l, m1 := Arrival(trace, labels, s, t);
    c, m0 := Arrival(trace, labels, l, t);
  }

  lemma ReadsJudged(sys: Sys, k: Task, move: Move)
    requires Judged(sys, k, move)
    ensures k.pc.Idle? && move.ReadContext? ==> move.context == sys.context
    ensures k.pc.ContextRead? && move.ReadRoot? ==> move.lease == sys.kernel.rootLeaseId
    ensures k.pc.RootRead? && move.ReadSnapshot? && move.found.Some? ==>
              k.pc.lease in sys.kernel.leases && move.found.value == sys.kernel.leases[k.pc.lease]
  {}

  lemma ObservationJudged(sys: Sys, k: Task, move: Move)
    requires k.pc.SnapshotRead? && move.Observe? && move.observed.Ok? && Judged(sys, k, move)
    ensures move.observed.value.lease == k.pc.lease && move.observed.value.entry == k.pc.entry
    ensures move.observed.value.validated.contextDigest == k.pc.context
  {}

  /** An observation is of the root lease as this call read it, and its context is the runtime's when the call
      began. */
  lemma ObservedAsRead(trace: seq<Sys>, labels: seq<Label>, o: nat, t: TaskId, obs: Observation)
    returns (w: ReadSteps)
    requires SysRun(trace, labels) && o < |labels| && ObservedAt(trace, labels, o, t, obs)
    ensures w.c < w.l < w.s < w.o == o && Read(trace, labels, w, t, obs)
  {
    var pc := trace[o].tasks[t].pc;
    var c, l, s := ReadHistory(trace, labels, o, t, pc.lease, pc.entry, pc.context);
    JudgedStep(trace, labels, c, t);
    JudgedStep(trace, labels, l, t);
    JudgedStep(trace, labels, s, t);
    JudgedStep(trace, labels, o, t);
    ReadsJudged(trace[c], trace[c].tasks[t], labels[c].move);
    ReadsJudged(trace[l], trace[l].tasks[t], labels[l].move);
    ReadsJudged(trace[s], trace[s].tasks[t], labels[s].move);
    ObservationJudged(trace[o], trace[o].tasks[t], labels[o].move);
    w := ReadSteps(c, l, s, o);
  }

  // ---------------------------------------------------------------- consumption and execution

  /** A consumed authorization carries out the proposal this call's model made after observing the context the
      runtime had when the call began; it was granted for the lease that was the root lease when the gate
      looked, and rightfully so. */
  lemma ConsumedAsProposed(trace: seq<Sys>, labels: seq<Label>, j: nat, t: TaskId)
    returns (v: ReadSteps, w: GateSteps, g: nat)
    requires SysRun(trace, labels) && j < |labels| && SpendsAt(trace, labels, j, t)
    ensures trace[j].tasks[t].pc.Committable?
    ensures v.c < v.l < v.s < v.o < w.p < w.h < w.q < w.r < g < j
    ensures GrantedAt(trace, labels, g, t, trace[j].tasks[t].pc.auth) && Rightful(trace[g], trace[j].tasks[t].pc.auth)
    ensures AsProposed(trace, labels, w, t, trace[j].tasks[t].pc.auth)
    ensures Read(trace, labels, v, t, trace[w.p].tasks[t].pc.obs)
  {
    SpendingTask(trace, labels, j, t);
    g := GrantOrigin(trace, labels, j, t);
    w := GrantedAsProposed(trace, labels, g, t, trace[j].tasks[t].pc.auth);
    var o := ObservationOrigin(trace, labels, w.p, t);
    v := ObservedAsRead(trace, labels, o, t, trace[w.p].tasks[t].pc.obs);
  }

  /** Whatever is consumed is a call of a tool the mission allows, under a digest that the lease's stored
      manifest binds to it. */
  lemma ConsumedToolBound(trace: seq<Sys>, labels: seq<Label>, j: nat, t: TaskId)
    requires SysRun(trace, labels) && j < |labels| && SpendsAt(trace, labels, j, t)
    ensures trace[j].tasks[t].pc.Committable?
    ensures var kernel, auth := trace[j].kernel, trace[j].tasks[t].pc.auth;
            && auth.proposal.tool in kernel.mission.allowedTools
            && auth.Lease() in kernel.leases
            && BoundTool(auth.proposal.tool, auth.toolManifestDigest) in kernel.leases[auth.Lease()].manifest.tools
  {
    SpendingTask(trace, labels, j, t);
    var auth := trace[j].tasks[t].pc.auth;
    var g := GrantOrigin(trace, labels, j, t);
    var w := GrantedAsProposed(trace, labels, g, t, auth);
    SysEvolves(trace, labels, g, j);
  }

  /** And so is whatever ran in Nexus. */
  lemma RanToolBound(trace: seq<Sys>, labels: seq<Label>, i: nat, t: TaskId) returns (j: nat)
    requires SysRun(trace, labels) && i < |trace| && t in trace[i].tasks && trace[i].tasks[t].ran
    ensures j < i && SpendsAt(trace, labels, j, t) && trace[j].tasks[t].pc.Committable?
    ensures var kernel, auth := trace[j].kernel, trace[j].tasks[t].pc.auth;
            && auth.proposal.tool in kernel.mission.allowedTools
            && auth.Lease() in kernel.leases
            && BoundTool(auth.proposal.tool, auth.toolManifestDigest) in kernel.leases[auth.Lease()].manifest.tools
  {
    RanIsSpent(trace, labels, i, t);
    j := SpentOrigin(trace, labels, i, t);
    ConsumedToolBound(trace, labels, j, t);
  }

  lemma SameIdentityNoDrift(tools: Tools, template: Manifest, live: Manifest, bound: Manifest)
    requires WellFormed(tools) && Refresh(tools, template) == Ok(live)
    requires ManifestDigest(live) == ManifestDigest(bound) && ManifestDigest(bound).Ok?
    ensures !Drifted(tools, bound)
  {
    RefreshExact(tools, template);
    ManifestDigestExact(live, bound);
    assert live.registryRoot == bound.registryRoot by {
      assert live.(tools := [], permissions := []).registryRoot == bound.(tools := [], permissions := []).registryRoot;
    }
    forall tool | tool in bound.tools ensures tool in tools {
      assert tool in Elems(live.tools);
      var i :| 0 <= i < |live.tools| && live.tools[i] == tool;
    }
  }

  lemma RefreshedWithoutDrift(tools: Tools, auth: Authorization, live: Manifest, bound: Manifest)
    requires WellFormed(tools) && ResolveForExecution(tools, auth) == Ok(live)
    requires ManifestDigest(live) == ManifestDigest(bound) && ManifestDigest(bound).Ok?
    ensures BoundTool(auth.proposal.tool, auth.toolManifestDigest) in tools && !Drifted(tools, bound)
  {
    ResolveForExecutionExact(tools, auth);
    SameIdentityNoDrift(tools, auth.manifest, live, bound);
  }

  /** When the call refreshed its manifest before the commit, the registry held the tool under the authorized
      digest, and had not drifted from what the lease binds. */
  lemma ConsumedWithoutDrift(trace: seq<Sys>, labels: seq<Label>, j: nat, t: TaskId) returns (r: nat)
    requires SysRun(trace, labels) && j < |labels| && SpendsAt(trace, labels, j, t)
    ensures trace[j].tasks[t].pc.Committable?
    ensures r < j && t in trace[r].tasks && trace[r].tasks[t].pc == Recorded(trace[j].tasks[t].pc.auth)
    ensures var kernel, auth := trace[j].kernel, trace[j].tasks[t].pc.auth;
            && BoundTool(auth.proposal.tool, auth.toolManifestDigest) in trace[r].tools
            && auth.Lease() in kernel.leases && !Drifted(trace[r].tools, kernel.leases[auth.Lease()].manifest)
  {
    SpendingTask(trace, labels, j, t);
    var pc := trace[j].tasks[t].pc;
    var c := CheckOrigin(trace, labels, j, t);
    CheckIsSound(trace, labels, c, t, pc);
    var live := trace[c].tasks[t].pc.live;
    r := ResolveOrigin(trace, labels, c, t);
    ResolveIsJudged(trace, labels, r, t, pc.auth, live);
    RegistryStays(trace, labels, r);
    RefreshedWithoutDrift(trace[r].tools, pc.auth, live, trace[c].kernel.leases[pc.auth.Lease()].manifest);
  }
}
