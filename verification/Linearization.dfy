/**
  Authority at the commit point.  The read guard freezes the kernel between the check and the
  consumption, generations freeze the chain between authorization and check, so an authorization is
  consumed only while its chain is exactly as it was when it was granted.
 */
module Linearization {
  import opened Basics
  import opened Authority
  import opened Validation
  import opened Kernel
  import opened Invariant
  import opened Chain
  import opened Preservation
  import opened Evolution
  import opened Execution
  import opened Protocol
  import opened ControlFlow

  // ---------------------------------------------------------------- lock discipline

  ghost predicate LockOk(sys: Sys) {
    && (sys.lock.writer.Some? ==> sys.lock.readers == {})
    && sys.lock.readers <= sys.tasks.Keys
    && forall t {:trigger HoldsGuard(sys.tasks[t].pc)} :: t in sys.tasks ==>
         (t in sys.lock.readers <==> HoldsGuard(sys.tasks[t].pc))
  }

  lemma PerformLock(sys: Sys, t: TaskId, move: Move, o: Outcome)
    requires LockOk(sys) && t in sys.tasks && GuardedFlow(sys.tasks[t].pc, move, o)
    requires o.act.EnterGuard? ==> Readable(sys)
    ensures LockOk(Perform(sys, t, o))
  {
    var sys' := Perform(sys, t, o);
    assert sys'.tasks[t].pc == o.pc;
    assert t in sys.lock.readers <==> HoldsGuard(sys.tasks[t].pc);
    forall u | u in sys'.tasks ensures u in sys'.lock.readers <==> HoldsGuard(sys'.tasks[u].pc) {
      if u != t { assert u in sys.lock.readers <==> HoldsGuard(sys.tasks[u].pc); }
    }
  }

  // ---------------------------------------------------------------- what tasks remember

  /** A lease entry read earlier: the lease still exists and its record has only moved on. */
  predicate ReadBefore(kernel: State, lease: LeaseId, entry: LeaseEntry) {
    && lease in kernel.leases
    && kernel.leases[lease].certificate == entry.certificate
    && kernel.leases[lease].manifest == entry.manifest
    && Later(entry.record, kernel.leases[lease].record)
  }

  /** The chain of `lease` is active, unexpired at `now` and carries exactly these generations. */
  predicate FreshAt(leases: Leases, lease: LeaseId, generations: seq<(LeaseId, nat)>, now: Time) {
    && lease in leases
    && UsableAt(leases, Path(leases[lease].certificate), now)
    && Carries(leases, Path(leases[lease].certificate), generations)
  }

  /** Root-first generations of a leaf-first path. */
  predicate Carries(leases: Leases, path: seq<LeaseId>, generations: seq<(LeaseId, nat)>) {
    && |generations| == |path|
    && forall i :: 0 <= i < |path| ==>
         path[i] in leases && generations[|path| - 1 - i] == (path[i], leases[path[i]].record.generation)
  }

  /** Tokens are positive, at most 30 seconds, and expire with the certificate, every lease of the
      chain and the mission at the latest. */
  predicate TokenBounded(kernel: State, auth: Authorization, issueNow: Time, validity: int) {
    && 0 < validity <= TOKEN_VALIDITY
    && issueNow + validity <= auth.ExpiresAt()
    && issueNow + validity <= kernel.mission.expiresAt
    && auth.Lease() in kernel.leases
    && OutlivedBy(kernel.leases, Path(kernel.leases[auth.Lease()].certificate), issueNow + validity)
  }

  predicate OutlivedBy(leases: Leases, ids: seq<LeaseId>, end: Time) {
    forall i :: 0 <= i < |ids| ==> ids[i] in leases && end <= leases[ids[i]].certificate.body.expiresAt
  }

  predicate ReadyToConsume(kernel: State, auth: Authorization, now: Time, issueNow: Time, validity: int) {
    && FreshAt(kernel.leases, auth.Lease(), auth.generations, now)
    && now < auth.ExpiresAt()
    && TokenBounded(kernel, auth, issueNow, validity)
  }

  /** At the check the current context, the lease's and the certificate's agree, the refreshed manifest is
      the lease's, and the action certificate verifies under the runtime key and binds tool and input. */
  predicate BoundAtCommit(kernel: State, context: Digest, key: Key, auth: Authorization, live: Manifest, now: Time) {
    && auth.Lease() in kernel.leases
    && var lease, action := kernel.leases[auth.Lease()], auth.certificate.body;
       && context == action.contextDigest == lease.certificate.body.contextDigest
       && action.agentIdentity == lease.certificate.body.agentIdentity
       && ManifestDigest(live) == ManifestDigest(lease.manifest)
       && ManifestDigest(live).Ok?
       && now < action.expiresAt
       && action.toolId == auth.proposal.tool
       && action.toolManifestDigest == auth.toolManifestDigest
       && action.inputDigest == auth.proposal.arguments
       && auth.certificate.signature == Signed(key, action)
  }

  /** What each program point may rely on about the kernel. */
  predicate TaskFresh(kernel: State, pc: Pc) {
    && (pc.SnapshotRead? || pc.GateRead? || pc.GateResolved? ==> ReadBefore(kernel, pc.lease, pc.entry))
    && (Observes(pc) ==> ReadBefore(kernel, pc.obs.lease, pc.obs.entry))
    && (pc.FinalReady? ==> FreshAt(kernel.leases, pc.obs.lease, pc.obs.validated.observedGenerations, pc.now))
    && (pc.Committable? ==> ReadyToConsume(kernel, pc.auth, pc.now, pc.issueNow, pc.validity))
  }

  ghost predicate AuthorityInv(sys: Sys) {
    && Inv(sys.kernel)
    && LockOk(sys)
    && forall t {:trigger TaskFresh(sys.kernel, sys.tasks[t].pc)} :: t in sys.tasks ==>
         TaskFresh(sys.kernel, sys.tasks[t].pc)
  }

  // ---------------------------------------------------------------- what the checks establish

  /** An accepted chain is fresh with the generations it reports. */
  lemma AcceptedIsFresh(s: State, leaf: LeaseId, expected: Option<nat>, manifest: Manifest, now: Time)
    requires Static(s) && Records(s) && ValidateChain(s, leaf, expected, manifest, now).Ok?
    ensures var v := ValidateChain(s, leaf, expected, manifest, now).value;
            && FreshAt(s.leases, leaf, v.observedGenerations, now)
            && v.leafExpiresAt == s.leases[leaf].certificate.body.expiresAt
            && v.contextDigest == s.leases[leaf].certificate.body.contextDigest
            && v.agentIdentity == s.leases[leaf].certificate.body.agentIdentity
            && ManifestDigest(manifest) == ManifestDigest(s.leases[leaf].manifest) == Ok(v.manifestDigest)
            && (expected.Some? ==> s.leases[leaf].record.generation == expected.value)
  {
    ChainCollapses(s, leaf, expected, manifest, now);
    UsableIsActiveLeaf(s, leaf, now);
    PathKeys(s, leaf);
    assert CertificateOk(s, leaf);
    var path := Path(s.leases[leaf].certificate);
    assert forall i :: 0 <= i < |path| ==> path[i] in Elems(path);
  }

  /** A lease snapshot and a chain validation read under two separate locks: when the validation
      accepts the snapshot's generation, the snapshot is the lease's present entry, as if both had
      been read at once. */
  lemma SnapshotAgrees(s: State, leaf: LeaseId, entry: LeaseEntry, manifest: Manifest, now: Time)
    requires Static(s) && Records(s) && ReadBefore(s, leaf, entry)
    requires ValidateChain(s, leaf, Some(entry.record.generation), manifest, now).Ok?
    ensures s.leases[leaf] == entry
  {
    AcceptedIsFresh(s, leaf, Some(entry.record.generation), manifest, now);
  }

  lemma CommitCheckShape(kernel: State, context: Digest, key: Key, auth: Authorization, live: Manifest, now: Time,
                         issueNow: Time)
    returns (expected: Option<nat>)
    requires CommitCheck(kernel, context, key, auth, live, now, issueNow).Ok?
    ensures ValidateChain(kernel, auth.Lease(), expected, live, now).Ok?
    ensures var v := ValidateChain(kernel, auth.Lease(), expected, live, now).value;
            && v.observedGenerations == auth.generations
            && v.agentIdentity == auth.certificate.body.agentIdentity
            && v.contextDigest == auth.certificate.body.contextDigest == context
            && ValidateActionCertificate(auth, key, now).Ok?
            && TokenValidity(v.leafExpiresAt, auth.ExpiresAt(), issueNow) ==
               CommitCheck(kernel, context, key, auth, live, now, issueNow)
  {
    expected := Some(GenerationOf(auth.generations, auth.Lease()).value);
  }

  lemma CommitCheckFresh(kernel: State, context: Digest, key: Key, auth: Authorization, live: Manifest, now: Time,
                         issueNow: Time)
    requires Inv(kernel) && CommitCheck(kernel, context, key, auth, live, now, issueNow).Ok?
    ensures ReadyToConsume(kernel, auth, now, issueNow,
                           CommitCheck(kernel, context, key, auth, live, now, issueNow).value)
    ensures BoundAtCommit(kernel, context, key, auth, live, now)
  {
    var expected := CommitCheckShape(kernel, context, key, auth, live, now, issueNow);
    AcceptedIsFresh(kernel, auth.Lease(), expected, live, now);
    BoundedByChain(kernel, auth, issueNow, CommitCheck(kernel, context, key, auth, live, now, issueNow).value);
  }

  lemma BoundedByChain(kernel: State, auth: Authorization, issueNow: Time, validity: int)
    requires Static(kernel) && auth.Lease() in kernel.leases
    requires TokenValidity(kernel.leases[auth.Lease()].certificate.body.expiresAt, auth.ExpiresAt(), issueNow) ==
             Ok(validity)
    ensures TokenBounded(kernel, auth, issueNow, validity)
  {
    var lease := auth.Lease();
    assert CertificateOk(kernel, lease);
    var path := Path(kernel.leases[lease].certificate);
    forall i | 0 <= i < |path|
      ensures path[i] in kernel.leases
      ensures kernel.leases[lease].certificate.body.expiresAt <= kernel.leases[path[i]].certificate.body.expiresAt
    {
      LeafExpiresFirst(kernel, lease, i);
    }
  }

  lemma FinalCheckFresh(kernel: State, context: Digest, obs: Observation, now: Time)
    requires Inv(kernel) && AcceptModelFinal(kernel, context, obs, now).Ok?
    ensures FreshAt(kernel.leases, obs.lease, obs.validated.observedGenerations, now)
  {
    AcceptedIsFresh(kernel, obs.lease, Some(obs.entry.record.generation), obs.entry.manifest, now);
  }

  lemma ObserveShape(kernel: State, agent: AgentId, lease: LeaseId, entry: LeaseEntry, context: Digest, now: Time)
    requires ObserveModelAuthority(kernel, agent, lease, entry, context, now).Ok?
    ensures var obs := ObserveModelAuthority(kernel, agent, lease, entry, context, now).value;
            && obs.lease == lease && obs.entry == entry
            && ValidateChain(kernel, lease, Some(entry.record.generation), entry.manifest, now) == Ok(obs.validated)
  {}

  lemma GateSnapshotShape(kernel: State, tool: ToolId, lease: LeaseId, now: Time)
    requires GateSnapshot(kernel, tool, lease, now).Ok?
    ensures ReadBefore(kernel, lease, GateSnapshot(kernel, tool, lease, now).value)
  {}

  // ---------------------------------------------------------------- every step keeps it

  lemma SnapshotFresh(sys: Sys, k: Task, move: Move, next: Pc)
    requires Judged(sys, k, move) && TaskFresh(sys.kernel, k.pc) && Remembers(k.pc, move, next)
    requires next.SnapshotRead? || next.GateRead? || next.GateResolved?
    ensures ReadBefore(sys.kernel, next.lease, next.entry)
  {
    if next.GateRead? && next != k.pc { GateSnapshotShape(sys.kernel, k.pc.proposal.tool, k.pc.lease, move.now); }
  }

  lemma ObservationFresh(sys: Sys, k: Task, move: Move, next: Pc)
    requires Judged(sys, k, move) && TaskFresh(sys.kernel, k.pc) && Remembers(k.pc, move, next) && Observes(next)
    ensures ReadBefore(sys.kernel, next.obs.lease, next.obs.entry)
  {
    if !(Observes(k.pc) && next.obs == k.pc.obs) {
      ObserveShape(sys.kernel, sys.binding.agent, k.pc.lease, k.pc.entry, k.pc.context, move.now);
    }
  }

  lemma FinalFresh(sys: Sys, k: Task, move: Move, next: Pc)
    requires Inv(sys.kernel) && Judged(sys, k, move) && TaskFresh(sys.kernel, k.pc)
    requires Remembers(k.pc, move, next) && ChecksInPlace(k.pc, move, next) && next.FinalReady?
    ensures FreshAt(sys.kernel.leases, next.obs.lease, next.obs.validated.observedGenerations, next.now)
  {
    if next != k.pc { FinalCheckFresh(sys.kernel, sys.context, k.pc.obs, move.now); }
  }

  lemma CommitFresh(sys: Sys, k: Task, move: Move, next: Pc)
    requires Inv(sys.kernel) && Judged(sys, k, move) && TaskFresh(sys.kernel, k.pc)
    requires Remembers(k.pc, move, next) && ChecksInPlace(k.pc, move, next) && next.Committable?
    ensures ReadyToConsume(sys.kernel, next.auth, next.now, next.issueNow, next.validity)
  {
    if next != k.pc {
      CommitCheckFresh(sys.kernel, sys.context, sys.binding.custody.verifyingKey, k.pc.auth, k.pc.live, move.now,
                       move.issueNow);
    }
  }

  /** Whatever a program point may rely on is established by the verdict that leads to it, or carried along. */
  lemma NextFresh(sys: Sys, k: Task, move: Move, next: Pc)
    requires Inv(sys.kernel) && Judged(sys, k, move) && TaskFresh(sys.kernel, k.pc)
    requires Remembers(k.pc, move, next) && ChecksInPlace(k.pc, move, next)
    ensures TaskFresh(sys.kernel, next)
  {
    if next.SnapshotRead? || next.GateRead? || next.GateResolved? { SnapshotFresh(sys, k, move, next); }
    if Observes(next) { ObservationFresh(sys, k, move, next); }
    if next.FinalReady? { FinalFresh(sys, k, move, next); }
    if next.Committable? { CommitFresh(sys, k, move, next); }
  }

  lemma TaskStepKeepsAuthority(sys: Sys, t: TaskId, move: Move)
    requires AuthorityInv(sys) && t in sys.tasks
    requires Enabled(sys, sys.tasks[t], move) && Judged(sys, sys.tasks[t], move)
    ensures AuthorityInv(Perform(sys, t, Flow(sys.tasks[t].pc, move)))
  {
    var k := sys.tasks[t];
    var o := Flow(k.pc, move);
    assert TaskFresh(sys.kernel, k.pc);
    FlowKeeps(k.pc, move);
    StepKeepsAuthority(sys, t, move, o);
  }

  lemma StepKeepsAuthority(sys: Sys, t: TaskId, move: Move, o: Outcome)
    requires AuthorityInv(sys) && t in sys.tasks && TaskFresh(sys.kernel, sys.tasks[t].pc)
    requires Enabled(sys, sys.tasks[t], move) && Judged(sys, sys.tasks[t], move) && Keeps(sys.tasks[t].pc, move, o)
    ensures AuthorityInv(Perform(sys, t, o))
  {
    PerformLock(sys, t, move, o);
    NextFresh(sys, sys.tasks[t], move, o.pc);
    PerformKeepsAuthority(sys, t, o);
  }

  lemma PerformKeepsAuthority(sys: Sys, t: TaskId, o: Outcome)
    requires AuthorityInv(sys) && t in sys.tasks && LockOk(Perform(sys, t, o)) && TaskFresh(sys.kernel, o.pc)
    ensures AuthorityInv(Perform(sys, t, o))
  {
    var sys' := Perform(sys, t, o);
    assert sys'.tasks[t].pc == o.pc;
    forall u | u in sys'.tasks ensures TaskFresh(sys'.kernel, sys'.tasks[u].pc) {
      if u != t { assert TaskFresh(sys.kernel, sys.tasks[u].pc); }
    }
  }

  lemma StepKeepsInv(s: State, op: Op, now: Time)
    requires Inv(s) && FreshIds(s, op)
    ensures Inv(Step(s, op, now))
  {
    if Apply(s, op, now).Ok? { ApplyInv(s, op, now); }
  }

  lemma ReadersMoveOn(s: State, s': State, pc: Pc)
    requires Evolves(s, s') && TaskFresh(s, pc) && !HoldsGuard(pc)
    ensures TaskFresh(s', pc)
  {}

  /** Control-plane steps run without readers, so no task is inside a guarded section. */
  lemma ControlKeepsAuthority(sys: Sys, op: Op, now: Time)
    requires AuthorityInv(sys) && sys.lock.writer.Some? && FreshIds(sys.kernel, op)
    ensures AuthorityInv(sys.(kernel := Step(sys.kernel, op, now)))
  {
    var s' := Step(sys.kernel, op, now);
    StepKeepsInv(sys.kernel, op, now);
    StepEvolves(sys.kernel, op, now);
    forall t | t in sys.tasks ensures TaskFresh(s', sys.tasks[t].pc) {
      assert TaskFresh(sys.kernel, sys.tasks[t].pc);
      assert !HoldsGuard(sys.tasks[t].pc);
      ReadersMoveOn(sys.kernel, s', sys.tasks[t].pc);
    }
  }

  /** Steps that touch neither the kernel nor any task's program point. */
  lemma OutsideKeepsAuthority(sys: Sys, sys': Sys)
    requires AuthorityInv(sys) && sys'.kernel == sys.kernel && LockOk(sys')
    requires forall t :: t in sys'.tasks ==> sys'.tasks[t] == if t in sys.tasks then sys.tasks[t] else NEW_TASK
    ensures AuthorityInv(sys')
  {
    forall t | t in sys'.tasks ensures TaskFresh(sys'.kernel, sys'.tasks[t].pc) {
      if t in sys.tasks { assert TaskFresh(sys.kernel, sys.tasks[t].pc); }
    }
  }

  lemma NextLock(sys: Sys, event: Label)
    requires LockOk(sys) && !event.TaskStep?
    ensures LockOk(Next(sys, event))
  {
    var sys' := Next(sys, event);
    forall t | t in sys'.tasks ensures t in sys'.lock.readers <==> HoldsGuard(sys'.tasks[t].pc) {
      if t in sys.tasks { assert t in sys.lock.readers <==> HoldsGuard(sys.tasks[t].pc); }
    }
  }

  lemma NextKeepsAuthority(sys: Sys, event: Label)
    requires AuthorityInv(sys)
    requires event.TaskStep? && event.task in sys.tasks ==> Judged(sys, sys.tasks[event.task], event.move)
    requires event.Control? ==> FreshIds(sys.kernel, event.op) && event.after == Step(sys.kernel, event.op, event.now)
    ensures AuthorityInv(Next(sys, event))
  {
    if event.TaskStep? {
      if event.task in sys.tasks && Enabled(sys, sys.tasks[event.task], event.move) {
        TaskStepKeepsAuthority(sys, event.task, event.move);
      }
    } else if event.Control? {
      if sys.lock.writer == Some(event.writer) { ControlKeepsAuthority(sys, event.op, event.now); }
    } else {
      NextLock(sys, event);
      OutsideKeepsAuthority(sys, Next(sys, event));
    }
  }

  lemma {:induction false} RunKeepsAuthority(trace: seq<Sys>, labels: seq<Label>, i: nat)
    requires SysRun(trace, labels) && i < |trace|
    ensures AuthorityInv(trace[i])
    decreases i
  {
    assert SysLinked(trace, labels, i) && Faithful(trace, labels, i);
    if i == 0 {
      var request, custody, now, id :| Bootstrap(request, custody, now, id) == Ok(trace[0].kernel);
      BootstrapInv(request, custody, now, id);
    } else {
      RunKeepsAuthority(trace, labels, i - 1);
      NextKeepsAuthority(trace[i - 1], labels[i - 1]);
    }
  }
}
