/**
  Safety of whole interleaved runs at the two commit points: the consumption of an authorization
  (crates/aeon_agent_runtime/src/execution.rs:396-489) and the acceptance of a final result
  (crates/aeon_agent_runtime/src/supervisor.rs:554-604).
 */
module CommitPoint {
  import opened Basics
  import opened Authority
  import opened Validation
  import opened Kernel
  import opened Invariant
  import opened Chain
  import opened Evolution
  import opened MissionStore
  import opened Execution
  import opened Protocol
  import opened ControlFlow
  import opened Linearization

  // ---------------------------------------------------------------- runs, step by step

  lemma NextEvolves(sys: Sys, event: Label)
    requires Inv(sys.kernel)
    requires event.Control? ==> FreshIds(sys.kernel, event.op) && event.after == Step(sys.kernel, event.op, event.now)
    ensures Evolves(sys.kernel, Next(sys, event).kernel)
  {
    NextKernel(sys, event);
    if event.Control? { StepEvolves(sys.kernel, event.op, event.now); }
  }

  lemma NextKernel(sys: Sys, event: Label)
    ensures Next(sys, event).kernel == sys.kernel || (event.Control? && Next(sys, event).kernel == event.after)
  {}

  lemma StepEvolvesAt(trace: seq<Sys>, labels: seq<Label>, i: nat)
    requires SysRun(trace, labels) && i < |labels|
    ensures Evolves(trace[i].kernel, trace[i + 1].kernel)
  {
    RunKeepsAuthority(trace, labels, i);
    assert SysLinked(trace, labels, i + 1) && Faithful(trace, labels, i + 1);
    NextEvolves(trace[i], labels[i]);
  }

  lemma {:induction false} SysEvolves(trace: seq<Sys>, labels: seq<Label>, i: nat, j: nat)
    requires SysRun(trace, labels) && i <= j < |trace|
    ensures Evolves(trace[i].kernel, trace[j].kernel)
    decreases j
  {
    if i < j {
      SysEvolves(trace, labels, i, j - 1);
      StepEvolvesAt(trace, labels, j - 1);
      EvolvesTransitive(trace[i].kernel, trace[j - 1].kernel, trace[j].kernel);
    }
  }

  /** Task `t` makes this move at step `i`. */
  ghost predicate MovesAt(trace: seq<Sys>, labels: seq<Label>, i: nat, t: TaskId, move: Move)
    requires |trace| == |labels| + 1 && i < |labels|
  {
    labels[i] == TaskStep(t, move) && t in trace[i].tasks && Enabled(trace[i], trace[i].tasks[t], move)
  }

  /** What a move does to a task, as far as later steps look back on it. */
  predicate Moves(k: Task, move: Move, k': Task) {
    && Remembers(k.pc, move, k'.pc) && ChecksInPlace(k.pc, move, k'.pc) && Onward(k.pc, k'.pc)
    && (k.spent ==> k'.spent)
    && (k'.spent && !k.spent ==> k.pc.Committable? && move.ConsumeRecord?)
  }

  /** At each step a task is spawned, left alone, or makes one enabled move. */
  ghost predicate Advances(trace: seq<Sys>, labels: seq<Label>, i: nat, t: TaskId)
    requires |trace| == |labels| + 1 && i < |labels|
  {
    && t in trace[i + 1].tasks
    && (t !in trace[i].tasks ==> trace[i + 1].tasks[t] == NEW_TASK)
    && (t in trace[i].tasks && trace[i + 1].tasks[t] != trace[i].tasks[t] ==>
          && labels[i].TaskStep? && MovesAt(trace, labels, i, t, labels[i].move)
          && Moves(trace[i].tasks[t], labels[i].move, trace[i + 1].tasks[t]))
  }

  lemma PerformLands(sys: Sys, t: TaskId, o: Outcome)
    requires t in sys.tasks
    ensures var sys' := Perform(sys, t, o);
            && t in sys'.tasks && sys'.lock.writer == sys.lock.writer && sys'.kernel == sys.kernel
            && sys'.tasks[t] == After(sys.tasks[t], o, sys.store.nextAttempt + 1, |sys.store.records|)
  {}

  lemma NextPerforms(sys: Sys, t: TaskId, move: Move)
    requires t in sys.tasks && Enabled(sys, sys.tasks[t], move)
    ensures Next(sys, TaskStep(t, move)) == Perform(sys, t, Flow(sys.tasks[t].pc, move))
  {}

  /** The task after its move, and the kernel untouched. */
  predicate Landed(sys: Sys, sys': Sys, t: TaskId, move: Move)
    requires t in sys.tasks
  {
    && t in sys'.tasks && sys'.kernel == sys.kernel && sys'.lock.writer == sys.lock.writer
    && var k := sys.tasks[t];
       sys'.tasks[t] == After(k, Flow(k.pc, move), sys.store.nextAttempt + 1, |sys.store.records|)
  }

  lemma NextLands(sys: Sys, t: TaskId, move: Move)
    requires t in sys.tasks && Enabled(sys, sys.tasks[t], move)
    ensures Landed(sys, Next(sys, TaskStep(t, move)), t, move)
  {
    NextPerforms(sys, t, move);
    PerformLands(sys, t, Flow(sys.tasks[t].pc, move));
  }

  lemma MoveLands(trace: seq<Sys>, labels: seq<Label>, i: nat, t: TaskId, move: Move)
    requires Interleaving(trace, labels) && i < |labels| && MovesAt(trace, labels, i, t, move)
    ensures Landed(trace[i], trace[i + 1], t, move)
  {
    assert SysLinked(trace, labels, i + 1);
    NextLands(trace[i], t, move);
  }

  lemma AfterFacts(k: Task, o: Outcome, draw: AttemptId, slot: nat)
    ensures After(k, o, draw, slot).pc == o.pc
    ensures After(k, o, draw, slot).spent == (k.spent || o.act.SpendRecord?)
  {}

  lemma FlowMoves(k: Task, move: Move, o: Outcome, k': Task)
    requires o == Flow(k.pc, move) && k'.pc == o.pc && k'.spent == (k.spent || o.act.SpendRecord?)
    ensures Moves(k, move, k')
  {
    FlowRemembers(k.pc, move);
    FlowChecks(k.pc, move);
    FlowOnward(k.pc, move);
    FlowTakes(k.pc, move);
  }

  lemma StepAdvances(trace: seq<Sys>, labels: seq<Label>, i: nat, t: TaskId)
    requires Interleaving(trace, labels) && i < |labels| && t in trace[i + 1].tasks
    ensures Advances(trace, labels, i, t)
  {
    ChangeIsMove(trace, labels, i, t);
    if t in trace[i].tasks && trace[i + 1].tasks[t] != trace[i].tasks[t] {
      MoveLands(trace, labels, i, t, labels[i].move);
      LandingMoves(trace[i], trace[i + 1], t, labels[i].move);
    }
  }

  lemma LandingMoves(sys: Sys, sys': Sys, t: TaskId, move: Move)
    requires t in sys.tasks && Landed(sys, sys', t, move)
    ensures Moves(sys.tasks[t], move, sys'.tasks[t])
  {
    var k, o := sys.tasks[t], Flow(sys.tasks[t].pc, move);
    AfterFacts(k, o, sys.store.nextAttempt + 1, |sys.store.records|);
    FlowMoves(k, move, o, sys'.tasks[t]);
  }

  lemma ChangeIsMove(trace: seq<Sys>, labels: seq<Label>, i: nat, t: TaskId)
    requires Interleaving(trace, labels) && i < |labels| && t in trace[i + 1].tasks
    ensures t !in trace[i].tasks ==> trace[i + 1].tasks[t] == NEW_TASK
    ensures t in trace[i].tasks && trace[i + 1].tasks[t] != trace[i].tasks[t] ==>
              labels[i].TaskStep? && MovesAt(trace, labels, i, t, labels[i].move)
  {
    assert SysLinked(trace, labels, i + 1);
  }

  lemma StepKeepsTask(trace: seq<Sys>, labels: seq<Label>, i: nat, t: TaskId)
    requires Interleaving(trace, labels) && i < |labels| && t in trace[i].tasks
    ensures t in trace[i + 1].tasks
  {
    assert SysLinked(trace, labels, i + 1);
  }

  lemma JudgedStep(trace: seq<Sys>, labels: seq<Label>, d: nat, t: TaskId)
    requires SysRun(trace, labels) && d < |labels| && labels[d].TaskStep?
    requires MovesAt(trace, labels, d, t, labels[d].move)
    ensures Judged(trace[d], trace[d].tasks[t], labels[d].move)
  {
    assert Faithful(trace, labels, d + 1);
  }

  // ---------------------------------------------------------------- origins

  /** Task `t` receives this authorization at step `g`. */
  ghost predicate GrantedAt(trace: seq<Sys>, labels: seq<Label>, g: nat, t: TaskId, auth: Authorization)
    requires |trace| == |labels| + 1 && g < |labels|
  {
    && labels[g].TaskStep? && labels[g].move.Grant? && labels[g].move.authorized == Ok(auth)
    && MovesAt(trace, labels, g, t, labels[g].move)
    && trace[g].tasks[t].pc.GateResolved?
  }

  ghost predicate ObservedAt(trace: seq<Sys>, labels: seq<Label>, g: nat, t: TaskId, obs: Observation)
    requires |trace| == |labels| + 1 && g < |labels|
  {
    && labels[g].TaskStep? && labels[g].move.Observe? && labels[g].move.observed == Ok(obs)
    && MovesAt(trace, labels, g, t, labels[g].move)
    && trace[g].tasks[t].pc.SnapshotRead?
  }

  lemma GrantStep(trace: seq<Sys>, labels: seq<Label>, i: nat, t: TaskId)
    requires |trace| == |labels| + 1 && i < |labels| && Advances(trace, labels, i, t)
    requires Authorizes(trace[i + 1].tasks[t].pc)
    ensures t in trace[i].tasks
    ensures var pc, next := trace[i].tasks[t].pc, trace[i + 1].tasks[t].pc;
            (Authorizes(pc) && pc.auth == next.auth) || GrantedAt(trace, labels, i, t, next.auth)
  {}

  lemma ObservationStep(trace: seq<Sys>, labels: seq<Label>, i: nat, t: TaskId)
    requires |trace| == |labels| + 1 && i < |labels| && Advances(trace, labels, i, t)
    requires Observes(trace[i + 1].tasks[t].pc)
    ensures t in trace[i].tasks
    ensures var pc, next := trace[i].tasks[t].pc, trace[i + 1].tasks[t].pc;
            (Observes(pc) && pc.obs == next.obs) || ObservedAt(trace, labels, i, t, next.obs)
  {}

  /** The authorization a task carries was granted to it at an earlier step. */
  lemma {:induction false} GrantOrigin(trace: seq<Sys>, labels: seq<Label>, j: nat, t: TaskId) returns (g: nat)
    requires Interleaving(trace, labels) && j < |trace| && t in trace[j].tasks && Authorizes(trace[j].tasks[t].pc)
    ensures g < j && GrantedAt(trace, labels, g, t, trace[j].tasks[t].pc.auth)
    decreases j
  {
    assert SysLinked(trace, labels, 0);
    g := j - 1;
    StepAdvances(trace, labels, g, t);
    GrantStep(trace, labels, g, t);
    var auth := trace[j].tasks[t].pc.auth;
    if Authorizes(trace[g].tasks[t].pc) && trace[g].tasks[t].pc.auth == auth {
      g := GrantOrigin(trace, labels, g, t);
    }
  }

  lemma {:induction false} ObservationOrigin(trace: seq<Sys>, labels: seq<Label>, j: nat, t: TaskId) returns (g: nat)
    requires Interleaving(trace, labels) && j < |trace| && t in trace[j].tasks && Observes(trace[j].tasks[t].pc)
    ensures g < j && ObservedAt(trace, labels, g, t, trace[j].tasks[t].pc.obs)
    decreases j
  {
    assert SysLinked(trace, labels, 0);
    g := j - 1;
    StepAdvances(trace, labels, g, t);
    ObservationStep(trace, labels, g, t);
    var obs := trace[j].tasks[t].pc.obs;
    if Observes(trace[g].tasks[t].pc) && trace[g].tasks[t].pc.obs == obs {
      g := ObservationOrigin(trace, labels, g, t);
    }
  }

  // ---------------------------------------------------------------- chains that did not change

  predicate SameEntries(a: Leases, b: Leases, path: seq<LeaseId>) {
    forall i :: 0 <= i < |path| ==> path[i] in a && path[i] in b && b[path[i]] == a[path[i]]
  }

  lemma UnchangedLease(s: State, s1: State, s2: State, x: LeaseId)
    requires Evolves(s, s1) && Evolves(s1, s2) && x in s.leases && x in s2.leases
    requires s2.leases[x].record.generation == s.leases[x].record.generation
    ensures x in s1.leases && s1.leases[x] == s.leases[x] && s2.leases[x] == s.leases[x]
  {
    var a, b, c := s.leases[x], s1.leases[x], s2.leases[x];
    assert Later(a.record, b.record) && Later(b.record, c.record);
    assert b == LeaseEntry(a.certificate, b.record, a.manifest) && c == LeaseEntry(a.certificate, c.record, a.manifest);
  }

  /** Equal generation vectors at both ends: no lease of the chain changed at any moment between. */
  lemma EqualGenerationsSameChain(s: State, s1: State, s2: State, lease: LeaseId, generations: seq<(LeaseId, nat)>,
                                  now: Time, now2: Time)
    requires Evolves(s, s1) && Evolves(s1, s2)
    requires FreshAt(s.leases, lease, generations, now) && FreshAt(s2.leases, lease, generations, now2)
    ensures SameEntries(s.leases, s1.leases, Path(s.leases[lease].certificate))
    ensures SameEntries(s.leases, s2.leases, Path(s.leases[lease].certificate))
    ensures UsableAt(s1.leases, Path(s.leases[lease].certificate), now2)
  {
    var path := Path(s.leases[lease].certificate);
    assert path == Path(s2.leases[lease].certificate);
    forall i | 0 <= i < |path|
      ensures path[i] in s.leases && path[i] in s1.leases && path[i] in s2.leases
      ensures s1.leases[path[i]] == s.leases[path[i]] && s2.leases[path[i]] == s.leases[path[i]]
    {
      var x := path[i];
      assert generations[|path| - 1 - i] == (x, s.leases[x].record.generation);
      assert generations[|path| - 1 - i] == (x, s2.leases[x].record.generation);
      UnchangedLease(s, s1, s2, x);
    }
  }

  /** Between two states the whole chain of a lease is the same, Active, and unexpired at `now`. */
  predicate ChainHeld(a: Leases, b: Leases, lease: LeaseId, now: Time) {
    && lease in a
    && SameEntries(a, b, Path(a[lease].certificate))
    && UsableAt(b, Path(a[lease].certificate), now)
  }

  lemma HeldBetween(trace: seq<Sys>, labels: seq<Label>, g: nat, m: nat, j: nat, lease: LeaseId,
                    generations: seq<(LeaseId, nat)>, since: Time, now: Time)
    requires SysRun(trace, labels) && g <= m <= j < |trace|
    requires FreshAt(trace[g].kernel.leases, lease, generations, since)
    requires FreshAt(trace[j].kernel.leases, lease, generations, now)
    ensures ChainHeld(trace[g].kernel.leases, trace[m].kernel.leases, lease, now)
  {
    SysEvolves(trace, labels, g, m);
    SysEvolves(trace, labels, m, j);
    EqualGenerationsSameChain(trace[g].kernel, trace[m].kernel, trace[j].kernel, lease, generations, since, now);
  }

  // ---------------------------------------------------------------- what a grant established

  predicate GrantSound(kernel: State, auth: Authorization) {
    && auth.Lease() in kernel.leases
    && FreshAt(kernel.leases, auth.Lease(), auth.generations, auth.certificate.body.issuedAt)
    && All !in auth.required
    && CapsWithin(auth.required, kernel.mission.allowedCapabilities)
    && CapsWithin(auth.required, kernel.leases[auth.Lease()].certificate.body.granted.capabilities)
    && auth.ExpiresAt() <= kernel.leases[auth.Lease()].certificate.body.expiresAt
  }

  lemma AuthorizeShape(kernel: State, binding: Binding, proposal: Proposal, resolved: BoundTool, live: Manifest,
                       context: Digest, lease: LeaseId, entry: LeaseEntry, now: Time, input: Result<()>,
                       required: seq<Capability>, recordId: AuthorizationId)
    requires Authorize(kernel, binding, proposal, resolved, live, context, lease, entry, now, input, required,
                       recordId).Ok?
    ensures var auth := Authorize(kernel, binding, proposal, resolved, live, context, lease, entry, now, input,
                                  required, recordId).value;
            && ValidateChain(kernel, lease, Some(entry.record.generation), live, now).Ok?
            && auth.generations ==
               ValidateChain(kernel, lease, Some(entry.record.generation), live, now).value.observedGenerations
            && auth.Lease() == lease && auth.certificate.body.issuedAt == now && auth.required == required
            && auth.ExpiresAt() <= entry.certificate.body.expiresAt
            && PermitCapabilities(kernel.mission, entry.certificate.body.granted, required).Ok?
            && forall key, at :: ValidateActionCertificate(auth, key, at).Ok? <==>
                 at < auth.ExpiresAt() && key == binding.custody.signingKey
  {}

  lemma GrantIsJudged(trace: seq<Sys>, labels: seq<Label>, g: nat, t: TaskId, auth: Authorization)
    requires SysRun(trace, labels) && g < |labels| && GrantedAt(trace, labels, g, t, auth)
    ensures var sys, pc, move := trace[g], trace[g].tasks[t].pc, labels[g].move;
            Authorize(sys.kernel, sys.binding, pc.proposal, pc.resolved, pc.live, pc.context, pc.lease, pc.entry,
                      pc.now, move.input, move.required, move.recordId) == Ok(auth)
  {
    assert Faithful(trace, labels, g + 1);
  }

  lemma GrantIsSound(trace: seq<Sys>, labels: seq<Label>, g: nat, t: TaskId, auth: Authorization)
    requires SysRun(trace, labels) && g < |labels| && GrantedAt(trace, labels, g, t, auth)
    ensures GrantSound(trace[g].kernel, auth)
  {
    RunKeepsAuthority(trace, labels, g);
    var sys, pc, move := trace[g], trace[g].tasks[t].pc, labels[g].move;
    GrantIsJudged(trace, labels, g, t, auth);
    assert TaskFresh(sys.kernel, pc);
    AuthorizeShape(sys.kernel, sys.binding, pc.proposal, pc.resolved, pc.live, pc.context, pc.lease, pc.entry, pc.now,
                   move.input, move.required, move.recordId);
    AcceptedIsFresh(sys.kernel, pc.lease, Some(pc.entry.record.generation), pc.live, pc.now);
    SnapshotAgrees(sys.kernel, pc.lease, pc.entry, pc.live, pc.now);
  }

  // ---------------------------------------------------------------- main results

  /** The authorization record of task `t` is consumed at step `j`. */
  ghost predicate SpendsAt(trace: seq<Sys>, labels: seq<Label>, j: nat, t: TaskId)
    requires |trace| == |labels| + 1 && j < |labels|
  {
    && t in trace[j].tasks && t in trace[j + 1].tasks
    && !trace[j].tasks[t].spent && trace[j + 1].tasks[t].spent
  }

  lemma SpendingTask(trace: seq<Sys>, labels: seq<Label>, j: nat, t: TaskId)
    requires Interleaving(trace, labels) && j < |labels| && SpendsAt(trace, labels, j, t)
    ensures trace[j].tasks[t].pc.Committable? && trace[j + 1].kernel == trace[j].kernel
  {
    StepAdvances(trace, labels, j, t);
    MoveLands(trace, labels, j, t, labels[j].move);
  }

  lemma CommitFacts(trace: seq<Sys>, labels: seq<Label>, j: nat, t: TaskId) returns (g: nat)
    requires SysRun(trace, labels) && j < |trace| && t in trace[j].tasks && trace[j].tasks[t].pc.Committable?
    ensures var pc := trace[j].tasks[t].pc;
            && g < j && GrantedAt(trace, labels, g, t, pc.auth)
            && GrantSound(trace[g].kernel, pc.auth)
            && ReadyToConsume(trace[j].kernel, pc.auth, pc.now, pc.issueNow, pc.validity)
  {
    g := GrantOrigin(trace, labels, j, t);
    GrantIsSound(trace, labels, g, t, trace[j].tasks[t].pc.auth);
    RunKeepsAuthority(trace, labels, j);
    assert TaskFresh(trace[j].kernel, trace[j].tasks[t].pc);
  }

  /** Task `t` passes its commit check at step `c`, leading to `pc`. */
  ghost predicate CheckedAt(trace: seq<Sys>, labels: seq<Label>, c: nat, t: TaskId, pc: Pc)
    requires |trace| == |labels| + 1 && c < |labels| && pc.Committable?
  {
    && MovesAt(trace, labels, c, t, Check(pc.now, pc.issueNow, Ok(pc.validity)))
    && trace[c].tasks[t].pc.Guarded? && trace[c].tasks[t].pc.auth == pc.auth
  }

  /** Under the guard the kernel stands still. */
  lemma GuardFreezes(sys: Sys, event: Label, t: TaskId)
    requires LockOk(sys) && t in sys.tasks && HoldsGuard(sys.tasks[t].pc)
    ensures Next(sys, event).kernel == sys.kernel
  {}

  lemma FrozenStep(trace: seq<Sys>, labels: seq<Label>, i: nat, t: TaskId)
    requires SysRun(trace, labels) && i < |labels| && t in trace[i].tasks && HoldsGuard(trace[i].tasks[t].pc)
    ensures trace[i + 1].kernel == trace[i].kernel
  {
    assert SysLinked(trace, labels, i + 1);
    RunKeepsAuthority(trace, labels, i);
    GuardFreezes(trace[i], labels[i], t);
  }

  lemma CheckStep(trace: seq<Sys>, labels: seq<Label>, i: nat, t: TaskId)
    requires |trace| == |labels| + 1 && i < |labels| && Advances(trace, labels, i, t)
    requires trace[i + 1].tasks[t].pc.Committable?
    ensures t in trace[i].tasks
    ensures trace[i].tasks[t].pc != trace[i + 1].tasks[t].pc ==>
              CheckedAt(trace, labels, i, t, trace[i + 1].tasks[t].pc) && HoldsGuard(trace[i].tasks[t].pc)
  {
  }

  /** The check that made a task ready, with the kernel unchanged since. */
  lemma {:induction false} CheckOrigin(trace: seq<Sys>, labels: seq<Label>, j: nat, t: TaskId) returns (c: nat)
    requires SysRun(trace, labels) && j < |trace| && t in trace[j].tasks && trace[j].tasks[t].pc.Committable?
    ensures c < j && CheckedAt(trace, labels, c, t, trace[j].tasks[t].pc)
    ensures trace[c].kernel == trace[j].kernel
    decreases j
  {
    assert SysLinked(trace, labels, 0);
    c := j - 1;
    StepAdvances(trace, labels, c, t);
    CheckStep(trace, labels, c, t);
    FrozenStep(trace, labels, c, t);
    if trace[c].tasks[t].pc == trace[j].tasks[t].pc { c := CheckOrigin(trace, labels, c, t); }
  }

  /** What the check established. */
  lemma CheckIsSound(trace: seq<Sys>, labels: seq<Label>, c: nat, t: TaskId, pc: Pc)
    requires SysRun(trace, labels) && c < |labels| && pc.Committable? && CheckedAt(trace, labels, c, t, pc)
    ensures var sys := trace[c];
            BoundAtCommit(sys.kernel, sys.context, sys.binding.custody.verifyingKey, pc.auth, sys.tasks[t].pc.live,
                          pc.now)
  {
    RunKeepsAuthority(trace, labels, c);
    assert Faithful(trace, labels, c + 1);
    var sys := trace[c];
    CommitCheckFresh(sys.kernel, sys.context, sys.binding.custody.verifyingKey, pc.auth, sys.tasks[t].pc.live, pc.now,
                     pc.issueNow);
  }

  /** From step `g` to just after step `j` the chain of the authorization was held. */
  ghost predicate HeldFrom(trace: seq<Sys>, g: nat, j: nat, lease: LeaseId, now: Time)
    requires g <= j < |trace| - 1
  {
    forall m {:trigger trace[m]} :: g <= m <= j + 1 ==>
      ChainHeld(trace[g].kernel.leases, trace[m].kernel.leases, lease, now)
  }

  lemma HeldThroughout(trace: seq<Sys>, labels: seq<Label>, g: nat, j: nat, lease: LeaseId,
                       generations: seq<(LeaseId, nat)>, since: Time, now: Time)
    requires SysRun(trace, labels) && g <= j < |labels| && trace[j + 1].kernel == trace[j].kernel
    requires FreshAt(trace[g].kernel.leases, lease, generations, since)
    requires FreshAt(trace[j].kernel.leases, lease, generations, now)
    ensures HeldFrom(trace, g, j, lease, now)
  {
    forall m | g <= m <= j + 1
      ensures ChainHeld(trace[g].kernel.leases, trace[m].kernel.leases, lease, now)
    {
      HeldBetween(trace, labels, g, if m <= j then m else j, j, lease, generations, since, now);
    }
  }

  /** Granted at `g`, checked at `c` and consumed at `j`: from the grant to the consumption no lease of the
      chain changed at all, every one stayed Active and unexpired at the commit's clock reading; the
      check found context, manifest, identity and signed certificate in agreement; and the tokens end
      before anything they rest on. */
  ghost predicate Linearized(trace: seq<Sys>, labels: seq<Label>, g: nat, c: nat, j: nat, t: TaskId)
    requires |trace| == |labels| + 1 && g < j < |labels| && c < j
  {
    && t in trace[j].tasks && t in trace[c].tasks && trace[j].tasks[t].pc.Committable?
    && var sys, pc := trace[c], trace[j].tasks[t].pc;
       && GrantedAt(trace, labels, g, t, pc.auth)
       && GrantSound(trace[g].kernel, pc.auth)
       && CheckedAt(trace, labels, c, t, pc)
       && BoundAtCommit(sys.kernel, sys.context, sys.binding.custody.verifyingKey, pc.auth, sys.tasks[t].pc.live,
                        pc.now)
       && trace[j].kernel == sys.kernel
       && HeldFrom(trace, g, j, pc.auth.Lease(), pc.now)
       && TokenBounded(trace[j].kernel, pc.auth, pc.issueNow, pc.validity)
  }

  /** An authorization is consumed only in this way.  So a pause, resume, revocation, expiry or renewal
      of any ancestor in between, even one undone by another, rejects before the record is spent. */
  lemma ConsumptionIsLinearized(trace: seq<Sys>, labels: seq<Label>, j: nat, t: TaskId) returns (g: nat, c: nat)
    requires SysRun(trace, labels) && j < |labels| && SpendsAt(trace, labels, j, t)
    ensures g < j && c < j && Linearized(trace, labels, g, c, j, t)
  {
    SpendingTask(trace, labels, j, t);
    var pc := trace[j].tasks[t].pc;
    g := CommitFacts(trace, labels, j, t);
    c := CheckOrigin(trace, labels, j, t);
    CheckIsSound(trace, labels, c, t, pc);
    HeldThroughout(trace, labels, g, j, pc.auth.Lease(), pc.auth.generations, pc.auth.certificate.body.issuedAt,
                   pc.now);
  }

  // ---------------------------------------------------------------- interference

  lemma {:induction false} PastGrantStays(trace: seq<Sys>, labels: seq<Label>, i: nat, j: nat, t: TaskId)
    requires Interleaving(trace, labels) && i <= j < |trace| && t in trace[i].tasks && PastGrant(trace[i].tasks[t].pc)
    ensures t in trace[j].tasks && PastGrant(trace[j].tasks[t].pc)
    decreases j
  {
    if i < j {
      PastGrantStays(trace, labels, i, j - 1, t);
      StepKeepsTask(trace, labels, j - 1, t);
      StepAdvances(trace, labels, j - 1, t);
      OnwardStep(trace, labels, j - 1, t);
    }
  }

  lemma OnwardStep(trace: seq<Sys>, labels: seq<Label>, i: nat, t: TaskId)
    requires |trace| == |labels| + 1 && i < |labels| && Advances(trace, labels, i, t) && t in trace[i].tasks
    ensures Onward(trace[i].tasks[t].pc, trace[i + 1].tasks[t].pc)
  {}

  lemma GrantLands(pc: Pc, move: Move)
    requires pc.GateResolved? && move.Grant? && move.authorized.Ok?
    ensures Flow(pc, move) == Go(Skip, Granted(move.authorized.value))
  {}

  lemma NeverGatedAgain(trace: seq<Sys>, labels: seq<Label>, g: nat, t: TaskId, auth: Authorization, h: nat)
    requires Interleaving(trace, labels) && g < h < |trace| && GrantedAt(trace, labels, g, t, auth)
    ensures t in trace[h].tasks && !trace[h].tasks[t].pc.GateResolved?
  {
    GrantLands(trace[g].tasks[t].pc, labels[g].move);
    MoveLands(trace, labels, g, t, labels[g].move);
    PastGrantStays(trace, labels, g + 1, h, t);
  }

  /** A task is granted at most one authorization. */
  lemma GrantedOnce(trace: seq<Sys>, labels: seq<Label>, g: nat, t: TaskId, auth: Authorization, h: nat,
                    other: Authorization)
    requires Interleaving(trace, labels) && g < |labels| && h < |labels|
    requires GrantedAt(trace, labels, g, t, auth) && GrantedAt(trace, labels, h, t, other)
    ensures g == h && auth == other
  {
    if g < h {
      NeverGatedAgain(trace, labels, g, t, auth, h);
    } else if h < g {
      NeverGatedAgain(trace, labels, h, t, other, g);
    }
  }

  /** Once any lease of a granted chain has changed, the authorization can never be consumed. */
  lemma InterferenceRejects(trace: seq<Sys>, labels: seq<Label>, g: nat, t: TaskId, auth: Authorization, m: nat,
                            x: LeaseId, j: nat)
    requires SysRun(trace, labels) && g <= m <= j < |labels| && GrantedAt(trace, labels, g, t, auth)
    requires auth.Lease() in trace[g].kernel.leases && x in Path(trace[g].kernel.leases[auth.Lease()].certificate)
    requires x in trace[g].kernel.leases && x in trace[m].kernel.leases
    requires trace[m].kernel.leases[x] != trace[g].kernel.leases[x]
    ensures !SpendsAt(trace, labels, j, t)
  {
    if SpendsAt(trace, labels, j, t) {
      var h, c := ConsumptionIsLinearized(trace, labels, j, t);
      GrantedOnce(trace, labels, g, t, auth, h, trace[j].tasks[t].pc.auth);
    }
  }

  /** What a lease may do, every lease above it may do. */
  lemma {:induction false} GrantedAbove(s: State, id: LeaseId, i: nat)
    requires Static(s) && id in s.leases && i < Depth(s.leases[id].certificate)
    ensures var x := Path(s.leases[id].certificate)[i];
            x in s.leases && CapsWithin(s.leases[id].certificate.body.granted.capabilities,
                                        s.leases[x].certificate.body.granted.capabilities)
    decreases i
  {
    assert CertificateOk(s, id);
    var granted := s.leases[id].certificate.body.granted.capabilities;
    if i == 0 {
      CapsWithinItself(granted);
    } else {
      var p := ParentFacts(s, id);
      GrantedAbove(s, p, i - 1);
      GrantedByParent(s, id, p);
      var x := Path(s.leases[id].certificate)[i];
      CapsWithinTransitive(granted, s.leases[p].certificate.body.granted.capabilities,
                           s.leases[x].certificate.body.granted.capabilities);
    }
  }

  lemma GrantedByParent(s: State, id: LeaseId, p: LeaseId)
    requires CertificateOk(s, p) && id in s.leases && ValidateParentChild(s.leases[p], s.leases[id]).Ok?
    ensures CapsWithin(s.leases[id].certificate.body.granted.capabilities,
                       s.leases[p].certificate.body.granted.capabilities)
  {
    var above := s.leases[p].certificate.body;
    CapsWithinTransitive(s.leases[id].certificate.body.granted.capabilities, above.delegable.capabilities,
                         above.granted.capabilities);
  }

  lemma CapsWithinItself(caps: seq<Capability>)
    ensures CapsWithin(caps, caps)
  {
    forall i | 0 <= i < |caps| ensures Covers(caps, caps[i]) {
      assert IsSubset(caps[i], caps[i]);
    }
  }

  /** Every capability a consumed authorization needs is covered by every lease of its chain and by
      the mission, and none is the wildcard. */
  lemma ConsumedWithinChain(trace: seq<Sys>, labels: seq<Label>, j: nat, t: TaskId, i: nat)
    requires SysRun(trace, labels) && j < |labels| && SpendsAt(trace, labels, j, t)
    requires trace[j].tasks[t].pc.Committable?
    requires var lease := trace[j].tasks[t].pc.auth.Lease();
             lease in trace[j].kernel.leases && i < Depth(trace[j].kernel.leases[lease].certificate)
    ensures var s, auth := trace[j].kernel, trace[j].tasks[t].pc.auth;
            var x := Path(s.leases[auth.Lease()].certificate)[i];
            && x in s.leases && CapsWithin(auth.required, s.leases[x].certificate.body.granted.capabilities)
            && CapsWithin(auth.required, s.mission.allowedCapabilities) && All !in auth.required
  {
    var s, auth := trace[j].kernel, trace[j].tasks[t].pc.auth;
    var g := CommitFacts(trace, labels, j, t);
    SysEvolves(trace, labels, g, j);
    RunKeepsAuthority(trace, labels, j);
    GrantedAbove(s, auth.Lease(), i);
    var x := Path(s.leases[auth.Lease()].certificate)[i];
    CapsWithinTransitive(auth.required, s.leases[auth.Lease()].certificate.body.granted.capabilities,
                         s.leases[x].certificate.body.granted.capabilities);
  }

  // ---------------------------------------------------------------- final results

  /** Task `t` logs its final result at step `j`. */
  ghost predicate ProducesAt(trace: seq<Sys>, labels: seq<Label>, j: nat, t: TaskId)
    requires |trace| == |labels| + 1 && j < |labels|
  {
    MovesAt(trace, labels, j, t, ProduceFinal(true)) && trace[j].tasks[t].pc.FinalReady?
  }

  lemma ObservationIsFresh(trace: seq<Sys>, labels: seq<Label>, g: nat, t: TaskId, obs: Observation)
    requires SysRun(trace, labels) && g < |labels| && ObservedAt(trace, labels, g, t, obs)
    ensures FreshAt(trace[g].kernel.leases, obs.lease, obs.validated.observedGenerations, labels[g].move.now)
    ensures trace[g].kernel.leases[obs.lease] == obs.entry
  {
    RunKeepsAuthority(trace, labels, g);
    assert Faithful(trace, labels, g + 1);
    var sys, pc, now := trace[g], trace[g].tasks[t].pc, labels[g].move.now;
    assert TaskFresh(sys.kernel, pc);
    ObserveShape(sys.kernel, sys.binding.agent, pc.lease, pc.entry, pc.context, now);
    AcceptedIsFresh(sys.kernel, pc.lease, Some(pc.entry.record.generation), pc.entry.manifest, now);
    SnapshotAgrees(sys.kernel, pc.lease, pc.entry, pc.entry.manifest, now);
  }

  lemma ContextStays(sys: Sys, event: Label)
    requires ContextHeld(sys) || event.TaskStep?
    ensures Next(sys, event).context == sys.context
  {}

  lemma AcceptedContext(kernel: State, context: Digest, obs: Observation, now: Time)
    requires AcceptModelFinal(kernel, context, obs, now).Ok?
    ensures obs.validated.contextDigest == context
  {}

  lemma FinalStep(trace: seq<Sys>, labels: seq<Label>, i: nat, t: TaskId)
    requires SysRun(trace, labels) && i < |labels| && Advances(trace, labels, i, t)
    requires trace[i + 1].tasks[t].pc.FinalReady?
    ensures t in trace[i].tasks && trace[i + 1].context == trace[i].context
    ensures var pc, next := trace[i].tasks[t].pc, trace[i + 1].tasks[t].pc;
            pc == next || next.obs.validated.contextDigest == trace[i].context
  {
    assert SysLinked(trace, labels, i + 1) && Faithful(trace, labels, i + 1);
    ContextStays(trace[i], labels[i]);
    var sys, next := trace[i], trace[i + 1].tasks[t].pc;
    if sys.tasks[t].pc != next { AcceptedContext(sys.kernel, sys.context, next.obs, next.now); }
  }

  /** From the check of a final result to its append the context is the observed one. */
  lemma {:induction false} FinalContext(trace: seq<Sys>, labels: seq<Label>, j: nat, t: TaskId)
    requires SysRun(trace, labels) && j < |trace| && t in trace[j].tasks && trace[j].tasks[t].pc.FinalReady?
    ensures trace[j].context == trace[j].tasks[t].pc.obs.validated.contextDigest
    decreases j
  {
    assert SysLinked(trace, labels, 0);
    StepAdvances(trace, labels, j - 1, t);
    FinalStep(trace, labels, j - 1, t);
    if trace[j - 1].tasks[t].pc == trace[j].tasks[t].pc { FinalContext(trace, labels, j - 1, t); }
  }

  /** A final result is logged only if no lease of the observed chain changed between the observation
      before the model call and the append under the guard, and the context at the append is the one
      observed. */
  lemma FinalIsLinearized(trace: seq<Sys>, labels: seq<Label>, j: nat, t: TaskId) returns (g: nat)
    requires SysRun(trace, labels) && j < |labels| && ProducesAt(trace, labels, j, t)
    ensures var pc := trace[j].tasks[t].pc;
            && g < j && ObservedAt(trace, labels, g, t, pc.obs)
            && pc.obs.lease in trace[g].kernel.leases && trace[g].kernel.leases[pc.obs.lease] == pc.obs.entry
            && HeldFrom(trace, g, j, pc.obs.lease, pc.now)
            && trace[j].context == trace[j + 1].context == pc.obs.validated.contextDigest
  {
    FinalContext(trace, labels, j, t);
    assert SysLinked(trace, labels, j + 1);
    ContextStays(trace[j], labels[j]);
    var pc := trace[j].tasks[t].pc;
    MoveLands(trace, labels, j, t, ProduceFinal(true));
    g := ObservationOrigin(trace, labels, j, t);
    ObservationIsFresh(trace, labels, g, t, pc.obs);
    RunKeepsAuthority(trace, labels, j);
    assert TaskFresh(trace[j].kernel, pc);
    HeldThroughout(trace, labels, g, j, pc.obs.lease, pc.obs.validated.observedGenerations, labels[g].move.now, pc.now);
  }
}
