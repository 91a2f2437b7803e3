/**
  Attempts move forward only, never block while no writer holds the lock, and can always be run to
  their end (crates/aeon_agent_runtime/src/supervisor.rs:225-398,
  crates/aeon_agent_runtime/src/execution.rs:370-513).
 */
module Progress {
  import opened Basics
  import opened MissionStore
  import opened Execution
  import opened Protocol
  import opened ControlFlow
  import opened Attempts
  import opened CommitPoint
  import opened EvidenceRuns
  import opened Completeness

  /** A move that can happen now, does something and appends successfully. */
  predicate Advancing(sys: Sys, k: Task, move: Move) {
    Enabled(sys, k, move) && Judged(sys, k, move) && Flow(k.pc, move).pc != k.pc && !AppendFails(move)
  }

  lemma ModelNeverStuck(sys: Sys, k: Task) returns (move: Move)
    requires Readable(sys)
    requires k.pc.Idle? || k.pc.ContextRead? || k.pc.RootRead? || k.pc.SnapshotRead? || k.pc.Observed?
          || k.pc.StepReserved?
    ensures Advancing(sys, k, move)
  {
    assert InModel(k.pc);
    match k.pc
    case Idle => move := ReadContext(sys.context);
    case ContextRead(_) => move := ReadRoot(sys.kernel.rootLeaseId);
    case RootRead(lease, _) =>
      move := ReadSnapshot(if lease in sys.kernel.leases then Some(sys.kernel.leases[lease]) else None);
    case SnapshotRead(lease, entry, context) =>
      move := Observe(0, ObserveModelAuthority(sys.kernel, sys.binding.agent, lease, entry, context, 0));
    case Observed(_) => move := ReserveStep(sys.steps < sys.maxSteps);
    case StepReserved(_) => move := CallModel;
  }

  lemma ReplyNeverStuck(sys: Sys, k: Task) returns (move: Move)
    requires Readable(sys) && (k.pc.Generating? || k.pc.Replied? || k.pc.FinalGuarded? || k.pc.FinalReady?)
    ensures Advancing(sys, k, move)
  {
    assert InModel(k.pc);
    match k.pc
    case Generating(_) => move := Accept(true);
    case Replied(_) => move := GuardFinal;
    case FinalGuarded(obs) => move := CheckFinal(0, AcceptModelFinal(sys.kernel, sys.context, obs, 0));
    case FinalReady(_, _) => move := ProduceFinal(true);
  }

  lemma GateNeverStuck(sys: Sys, k: Task) returns (move: Move)
    requires Readable(sys) && (k.pc.Proposed? || k.pc.GateRooted? || k.pc.GateRead? || k.pc.GateResolved?)
    ensures Advancing(sys, k, move)
  {
    assert !InModel(k.pc) && InGate(k.pc);
    match k.pc
    case Proposed(_, _) => move := ReadGateRoot(sys.kernel.rootLeaseId);
    case GateRooted(proposal, _, lease) =>
      move := ReadGateSnapshot(0, GateSnapshot(sys.kernel, proposal.tool, lease, 0));
    case GateRead(proposal, _, _, entry, _) => move := ResolveTool(ResolveAtGate(sys.tools, proposal.tool, entry));
    case GateResolved(proposal, context, lease, entry, now, resolved, live) =>
      var authorized :=
        Authorize(sys.kernel, sys.binding, proposal, resolved, live, context, lease, entry, now, Ok(()), [], 0);
      move := Grant(Ok(()), [], 0, authorized);
  }

  lemma GrantNeverStuck(sys: Sys, k: Task) returns (move: Move)
    requires k.pc.Granted? || k.pc.ActionReserved? || k.pc.AuthorizedLogged? || k.pc.IssuedLogged?
    ensures Advancing(sys, k, move)
  {
    assert !InModel(k.pc) && InGate(k.pc);
    match k.pc
    case Granted(_) => move := ReserveAction(sys.actions < sys.kernel.mission.maxActions);
    case ActionReserved(_) => move := LogAuthorized(true);
    case AuthorizedLogged(_) => move := LogIssued(true);
    case IssuedLogged(auth) => move := Record(Insert(sys.store, NewRecord(auth.Record()), k.attempt));
  }

  lemma ResolveNeverStuck(sys: Sys, k: Task) returns (move: Move)
    requires Readable(sys) && (k.pc.Recorded? || k.pc.Resolved?)
    ensures Advancing(sys, k, move)
  {
    assert !InModel(k.pc) && !InGate(k.pc);
    match k.pc
    case Recorded(auth) => move := Resolve(ResolveForExecution(sys.tools, auth));
    case Resolved(_, _) => move := Guard;
  }

  lemma CommitNeverStuck(sys: Sys, k: Task) returns (move: Move)
    requires k.pc.Guarded? || k.pc.Committable?
    ensures Advancing(sys, k, move)
  {
    assert !InModel(k.pc) && !InGate(k.pc);
    match k.pc
    case Guarded(auth, live) =>
      move := Check(0, 0, CommitCheck(sys.kernel, sys.context, sys.binding.custody.verifyingKey, auth, live, 0, 0));
    case Committable(auth, _, _, _) =>
      move := ConsumeRecord(Ok(()),
                            Consume(sys.store, auth.Record(), auth.certificate.body.authorizationGeneration, Ok(())));
  }

  lemma EvidenceNeverStuck(sys: Sys, k: Task) returns (move: Move)
    requires k.pc.Spent? || k.pc.Released? || k.pc.EvidenceLogged?
    ensures Advancing(sys, k, move)
  {
    assert !InModel(k.pc) && !InGate(k.pc);
    match k.pc
    case Spent(_) => move := Release;
    case Released(_) => move := LogConsumed(true);
    case EvidenceLogged(_) => move := LogStarted(true);
  }

  lemma ClosingNeverStuck(sys: Sys, k: Task) returns (move: Move)
    requires k.pc.Started? || k.pc.Closing?
    ensures Advancing(sys, k, move)
  {
    assert !InModel(k.pc) && !InGate(k.pc);
    match k.pc
    case Started(_) => move := RunNexus(Successful);
    case Closing(_) => move := Close(true);
  }

  /** While no writer holds the lock, every unfinished task can move. */
  lemma NeverStuck(sys: Sys, k: Task) returns (move: Move)
    requires Readable(sys) && !k.pc.Done?
    ensures Advancing(sys, k, move)
  {
    if k.pc.Generating? || k.pc.Replied? || k.pc.FinalGuarded? || k.pc.FinalReady? {
      move := ReplyNeverStuck(sys, k);
    } else if InModel(k.pc) {
      move := ModelNeverStuck(sys, k);
    } else if k.pc.Proposed? || k.pc.GateRooted? || k.pc.GateRead? || k.pc.GateResolved? {
      move := GateNeverStuck(sys, k);
    } else if InGate(k.pc) {
      move := GrantNeverStuck(sys, k);
    } else if k.pc.Recorded? || k.pc.Resolved? {
      move := ResolveNeverStuck(sys, k);
    } else if k.pc.Guarded? || k.pc.Committable? {
      move := CommitNeverStuck(sys, k);
    } else if k.pc.Spent? || k.pc.Released? || k.pc.EvidenceLogged? {
      move := EvidenceNeverStuck(sys, k);
    } else {
      move := ClosingNeverStuck(sys, k);
    }
  }

  // ---------------------------------------------------------------- running to the end

  /** Over, with nothing logged or with the terminal event logged. */
  predicate EndsClosed(k: Task) {
    k.pc.Done? ==> Closed(k)
  }

  lemma EndsClosedAfter(k: Task, o: Outcome, draw: AttemptId, slot: nat)
    requires Shape(k) && EndsClosed(k) && Edge(k.pc, o) && Delivers(k.pc, o)
    ensures EndsClosed(After(k, o, draw, slot))
  {
    if o.pc.Done? && !k.pc.Done? {
      if o.act.Skip? {
        assert k.log == SPINE[..0];
      } else {
        assert After(k, o, draw, slot).log == k.log + [o.act.kind] && Terminal(o.act.kind);
      }
    }
  }

  /** A task played alone. */
  function Play(sys: Sys, t: TaskId, moves: seq<Move>): Sys
    decreases |moves|
  {
    if moves == [] then sys else Play(Next(sys, TaskStep(t, moves[0])), t, moves[1..])
  }

  /** Each of these moves can happen when its turn comes, with the verdict the checks return then. */
  predicate Playable(sys: Sys, t: TaskId, moves: seq<Move>)
    decreases |moves|
  {
    moves == [] || (
      && t in sys.tasks && Advancing(sys, sys.tasks[t], moves[0])
      && Playable(Next(sys, TaskStep(t, moves[0])), t, moves[1..]))
  }

  /** Where a task is fit to go on. */
  predicate Fit(k: Task) {
    Shape(k) && EndsClosed(k) && InFlight(k)
  }

  lemma FitAfter(k: Task, move: Move, draw: AttemptId, slot: nat)
    requires Fit(k) && !AppendFails(move)
    ensures Fit(After(k, Flow(k.pc, move), draw, slot))
  {
    MoveShape(k, move, draw, slot);
    FlowDelivers(k.pc, move);
    FitAct(k, Flow(k.pc, move), draw, slot);
  }

  lemma FitAct(k: Task, o: Outcome, draw: AttemptId, slot: nat)
    requires Fit(k) && Edge(k.pc, o) && Delivers(k.pc, o) && Shape(After(k, o, draw, slot))
    ensures Fit(After(k, o, draw, slot))
  {
    EndsClosedAfter(k, o, draw, slot);
    InFlightAct(k, o, draw, slot);
  }

  lemma LandsFit(sys: Sys, sys': Sys, t: TaskId, move: Move)
    requires t in sys.tasks && Landed(sys, sys', t, move) && Fit(sys.tasks[t]) && !AppendFails(move)
    ensures Fit(sys'.tasks[t])
  {
    FitAfter(sys.tasks[t], move, sys.store.nextAttempt + 1, |sys.store.records|);
  }

  predicate Closer(sys: Sys, sys': Sys, t: TaskId)
    requires t in sys.tasks
  {
    t in sys'.tasks && Readable(sys') && Fit(sys'.tasks[t]) && Left(sys'.tasks[t].pc) < Left(sys.tasks[t].pc)
  }

  /** One advancing move leads to a state where a task is still fit and has less to go. */
  lemma AdvanceAlone(sys: Sys, t: TaskId) returns (move: Move)
    requires t in sys.tasks && Readable(sys) && Fit(sys.tasks[t]) && !sys.tasks[t].pc.Done?
    ensures Advancing(sys, sys.tasks[t], move) && Closer(sys, Next(sys, TaskStep(t, move)), t)
  {
    move := NeverStuck(sys, sys.tasks[t]);
    NextLands(sys, t, move);
    LandsCloser(sys, Next(sys, TaskStep(t, move)), t, move);
  }

  lemma LandsCloser(sys: Sys, sys': Sys, t: TaskId, move: Move)
    requires t in sys.tasks && Landed(sys, sys', t, move) && Readable(sys) && Fit(sys.tasks[t])
    requires !AppendFails(move) && Flow(sys.tasks[t].pc, move).pc != sys.tasks[t].pc
    ensures Closer(sys, sys', t)
  {
    LandsFit(sys, sys', t, move);
    FlowOnward(sys.tasks[t].pc, move);
    AfterFacts(sys.tasks[t], Flow(sys.tasks[t].pc, move), sys.store.nextAttempt + 1, |sys.store.records|);
  }

  /** This call is over, its attempt closed and its consumption, if any, logged. */
  predicate Finished(sys: Sys, t: TaskId) {
    t in sys.tasks && sys.tasks[t].pc.Done? && Closed(sys.tasks[t]) && !Unrecorded(sys.tasks[t])
  }

  /** From every state without a writer, a task whose appends have succeeded can run alone to its end,
      in at most as many moves as are left, and then its attempt is closed and its evidence complete. */
  lemma {:induction false} CanFinish(sys: Sys, t: TaskId) returns (moves: seq<Move>)
    requires t in sys.tasks && Readable(sys) && Fit(sys.tasks[t])
    ensures |moves| <= Left(sys.tasks[t].pc)
    ensures Playable(sys, t, moves) && Finished(Play(sys, t, moves), t)
    decreases Left(sys.tasks[t].pc)
  {
    if sys.tasks[t].pc.Done? {
      moves := [];
    } else {
      var move := AdvanceAlone(sys, t);
      var rest := CanFinish(Next(sys, TaskStep(t, move)), t);
      moves := [move] + rest;
      assert moves[1..] == rest;
    }
  }

  lemma NewTaskFit()
    ensures Fit(NEW_TASK)
  {
    NewTaskShape();
  }

  /** In a run whose appends succeed every task stays fit. */
  lemma {:induction false} ReliableFit(trace: seq<Sys>, labels: seq<Label>, i: nat, t: TaskId)
    requires Interleaving(trace, labels) && Reliable(labels) && i < |trace| && t in trace[i].tasks
    ensures Fit(trace[i].tasks[t])
    decreases i
  {
    assert SysLinked(trace, labels, 0);
    if i > 0 {
      StepAdvances(trace, labels, i - 1, t);
      NewTaskFit();
      var sys := trace[i - 1];
      if t in sys.tasks {
        ReliableFit(trace, labels, i - 1, t);
        if trace[i].tasks[t] != sys.tasks[t] {
          MoveLands(trace, labels, i - 1, t, labels[i - 1].move);
          LandsFit(sys, trace[i], t, labels[i - 1].move);
        }
      }
    }
  }

  /** At every point of every such run, each attempt can still be brought to its end by its own moves:
      at most 27 of them, whatever the kernel, the registry and the other tasks have done so far. */
  lemma EveryAttemptCanFinish(trace: seq<Sys>, labels: seq<Label>, i: nat, t: TaskId) returns (moves: seq<Move>)
    requires Interleaving(trace, labels) && Reliable(labels) && i < |trace| && t in trace[i].tasks && Readable(trace[i])
    ensures |moves| <= 27
    ensures Playable(trace[i], t, moves) && Finished(Play(trace[i], t, moves), t)
  {
    ReliableFit(trace, labels, i, t);
    moves := CanFinish(trace[i], t);
  }
}
