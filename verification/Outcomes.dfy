/**
  The terminal event of an attempt is the verdict of the step that ended it, over whole interleaved runs
  (crates/aeon_agent_runtime/src/supervisor.rs:225-398, crates/aeon_agent_runtime/src/execution.rs:149-513).
 */
module Outcomes {
  import opened Basics
  import opened MissionStore
  import opened Execution
  import opened Protocol
  import opened ControlFlow
  import opened CommitPoint
  import opened Completeness

  // ---------------------------------------------------------------- where a call is decided

  /** Task `t` makes the move at step `d` that decides how its attempt ends. */
  ghost predicate DecidesAt(trace: seq<Sys>, labels: seq<Label>, d: nat, t: TaskId, kind: Kind)
    requires |trace| == |labels| + 1 && d < |labels|
  {
    && labels[d].TaskStep? && MovesAt(trace, labels, d, t, labels[d].move)
    && !Ended(trace[d].tasks[t].pc)
    && FateOf(trace[d].tasks[t].pc, labels[d].move) == Terminates(kind)
  }

  /** A step of a call as its fate sees it. */
  ghost predicate Fared(k: Task, move: Move, k': Task) {
    exists o: Outcome {:trigger Meets(k.pc, o, FateOf(k.pc, move))} ::
      && Meets(k.pc, o, FateOf(k.pc, move)) && Edge(k.pc, o) && k'.pc == o.pc
      && k'.log == k.log + if Writes(o.act) then [o.act.kind] else []
  }

  lemma LandingFares(sys: Sys, sys': Sys, t: TaskId, move: Move)
    requires t in sys.tasks && Landed(sys, sys', t, move)
    ensures Fared(sys.tasks[t], move, sys'.tasks[t])
  {
    var k := sys.tasks[t];
    var o := Flow(k.pc, move);
    FlowMeets(k.pc, move);
    FlowEdges(k.pc, move);
    AfterLogs(k, o, sys.store.nextAttempt + 1, |sys.store.records|);
  }

  lemma AfterLogs(k: Task, o: Outcome, draw: AttemptId, slot: nat)
    ensures After(k, o, draw, slot).pc == o.pc
    ensures After(k, o, draw, slot).log == k.log + if Writes(o.act) then [o.act.kind] else []
  {}

  lemma StepFares(trace: seq<Sys>, labels: seq<Label>, i: nat, t: TaskId)
    requires Interleaving(trace, labels) && i < |labels| && t in trace[i + 1].tasks
    ensures t !in trace[i].tasks ==> trace[i + 1].tasks[t] == NEW_TASK
    ensures t in trace[i].tasks && trace[i + 1].tasks[t] != trace[i].tasks[t] ==>
              && labels[i].TaskStep? && MovesAt(trace, labels, i, t, labels[i].move)
              && Fared(trace[i].tasks[t], labels[i].move, trace[i + 1].tasks[t])
  {
    ChangeIsMove(trace, labels, i, t);
    if t in trace[i].tasks && trace[i + 1].tasks[t] != trace[i].tasks[t] {
      MoveLands(trace, labels, i, t, labels[i].move);
      LandingFares(trace[i], trace[i + 1], t, labels[i].move);
    }
  }

  /** A call that arrives at its closing event was just decided. */
  lemma ArrivalDecides(k: Task, move: Move, k': Task)
    requires Fared(k, move, k') && k'.pc.Closing? && k.pc != k'.pc
    ensures !Ended(k.pc) && FateOf(k.pc, move) == Terminates(k'.pc.kind)
  {}

  /** A terminal event is logged by its closing move, or as a final result by the move that decides it. */
  lemma TerminalLogged(k: Task, move: Move, k': Task)
    requires Fared(k, move, k') && k'.log != [] && k'.log != k.log && Terminal(k'.log[|k'.log| - 1])
    ensures var kind := k'.log[|k'.log| - 1];
            k.pc == Closing(kind) || (!Ended(k.pc) && FateOf(k.pc, move) == Terminates(kind))
  {}

  lemma {:induction false} ClosingOrigin(trace: seq<Sys>, labels: seq<Label>, i: nat, t: TaskId) returns (d: nat)
    requires Interleaving(trace, labels) && i < |trace| && t in trace[i].tasks && trace[i].tasks[t].pc.Closing?
    ensures d < i && DecidesAt(trace, labels, d, t, trace[i].tasks[t].pc.kind)
    decreases i
  {
    assert SysLinked(trace, labels, 0);
    d := i - 1;
    StepFares(trace, labels, d, t);
    if trace[d].tasks[t].pc == trace[i].tasks[t].pc {
      d := ClosingOrigin(trace, labels, d, t);
    } else {
      ArrivalDecides(trace[d].tasks[t], labels[d].move, trace[i].tasks[t]);
    }
  }

  lemma {:induction false} TerminalOrigin(trace: seq<Sys>, labels: seq<Label>, i: nat, t: TaskId) returns (d: nat)
    requires Interleaving(trace, labels) && i < |trace| && t in trace[i].tasks
    requires trace[i].tasks[t].log != [] && Terminal(trace[i].tasks[t].log[|trace[i].tasks[t].log| - 1])
    ensures d < i && DecidesAt(trace, labels, d, t, trace[i].tasks[t].log[|trace[i].tasks[t].log| - 1])
    decreases i
  {
    assert SysLinked(trace, labels, 0);
    d := i - 1;
    StepFares(trace, labels, d, t);
    if trace[d].tasks[t].log == trace[i].tasks[t].log {
      d := TerminalOrigin(trace, labels, d, t);
    } else {
      TerminalLogged(trace[d].tasks[t], labels[d].move, trace[i].tasks[t]);
      if trace[d].tasks[t].pc.Closing? { d := ClosingOrigin(trace, labels, d, t); }
    }
  }

  lemma {:induction false} EndedStays(trace: seq<Sys>, labels: seq<Label>, i: nat, j: nat, t: TaskId)
    requires Interleaving(trace, labels) && i <= j < |trace| && t in trace[i].tasks && Ended(trace[i].tasks[t].pc)
    ensures t in trace[j].tasks && Ended(trace[j].tasks[t].pc)
    decreases j
  {
    if i < j {
      EndedStays(trace, labels, i, j - 1, t);
      StepKeepsTask(trace, labels, j - 1, t);
      StepFares(trace, labels, j - 1, t);
    }
  }

  lemma DecidedEnds(trace: seq<Sys>, labels: seq<Label>, d: nat, t: TaskId, kind: Kind)
    requires Interleaving(trace, labels) && d < |labels| && DecidesAt(trace, labels, d, t, kind)
    ensures t in trace[d + 1].tasks && Ended(trace[d + 1].tasks[t].pc)
  {
    MoveLands(trace, labels, d, t, labels[d].move);
    LandingFares(trace[d], trace[d + 1], t, labels[d].move);
  }

  lemma NeverDecidedAgain(trace: seq<Sys>, labels: seq<Label>, d: nat, e: nat, t: TaskId, kind: Kind, other: Kind)
    requires Interleaving(trace, labels) && d < e < |labels| && DecidesAt(trace, labels, d, t, kind)
    ensures !DecidesAt(trace, labels, e, t, other)
  {
    DecidedEnds(trace, labels, d, t, kind);
    EndedStays(trace, labels, d + 1, e, t);
  }

  lemma OneFate(trace: seq<Sys>, labels: seq<Label>, d: nat, t: TaskId, kind: Kind, other: Kind)
    requires |trace| == |labels| + 1 && d < |labels|
    requires DecidesAt(trace, labels, d, t, kind) && DecidesAt(trace, labels, d, t, other)
    ensures kind == other
  {}

  /** A call is decided at most once. */
  lemma DecidedOnce(trace: seq<Sys>, labels: seq<Label>, d: nat, e: nat, t: TaskId, kind: Kind, other: Kind)
    requires Interleaving(trace, labels) && d < |labels| && e < |labels|
    requires DecidesAt(trace, labels, d, t, kind) && DecidesAt(trace, labels, e, t, other)
    ensures d == e && kind == other
  {
    if d < e {
      NeverDecidedAgain(trace, labels, d, e, t, kind, other);
    } else if e < d {
      NeverDecidedAgain(trace, labels, e, d, t, other, kind);
    } else {
      OneFate(trace, labels, d, t, kind, other);
    }
  }

  // ---------------------------------------------------------------- the log

  /** In every interleaving the terminal event of an attempt is the verdict of exactly one earlier step of its
      own: a model failure, a malformed reply, a failed check or append, an exhausted budget, a final
      result, or what Nexus answered. */
  lemma TerminalIsVerdict(trace: seq<Sys>, labels: seq<Label>, i: nat, t: TaskId) returns (d: nat)
    requires Interleaving(trace, labels) && i < |trace| && t in trace[i].tasks
    requires trace[i].tasks[t].log != [] && Terminal(trace[i].tasks[t].log[|trace[i].tasks[t].log| - 1])
    ensures d < i && DecidesAt(trace, labels, d, t, trace[i].tasks[t].log[|trace[i].tasks[t].log| - 1])
    ensures forall e, kind :: 0 <= e < |labels| && DecidesAt(trace, labels, e, t, kind) ==>
              e == d && kind == trace[i].tasks[t].log[|trace[i].tasks[t].log| - 1]
  {
    d := TerminalOrigin(trace, labels, i, t);
    var last := trace[i].tasks[t].log[|trace[i].tasks[t].log| - 1];
    forall e, kind | 0 <= e < |labels| && DecidesAt(trace, labels, e, t, kind) ensures e == d && kind == last {
      DecidedOnce(trace, labels, e, d, t, kind, last);
    }
  }

  // ---------------------------------------------------------------- why

  /** The model, the gate and the final check: what they answered at that moment. */
  predicate ModelSaid(sys: Sys, pc: Pc, move: Move, kind: Kind) {
    match move
    case ModelFails(code) => kind == Kind.ModelFailed(code)
    case Malformed(code) => kind == ProtocolRejected(code)
    case CheckFinal(now, _) =>
      && pc.FinalGuarded? && kind.FinalRejected?
      && AcceptModelFinal(sys.kernel, sys.context, pc.obs, now) == Err(kind.code)
    case ProduceFinal(appended) => kind == if appended then FinalProduced else FinalRejected(Internal)
    case _ => false
  }

  predicate GateSaid(sys: Sys, pc: Pc, move: Move, kind: Kind) {
    && kind.ActionRejected?
    && match move
       case ReadGateSnapshot(now, _) =>
         pc.GateRooted? && GateSnapshot(sys.kernel, pc.proposal.tool, pc.lease, now) == Err(kind.code)
       case ResolveTool(_) => pc.GateRead? && ResolveAtGate(sys.tools, pc.proposal.tool, pc.entry) == Err(kind.code)
       case Grant(input, required, recordId, _) =>
         pc.GateResolved?
         && Authorize(sys.kernel, sys.binding, pc.proposal, pc.resolved, pc.live, pc.context, pc.lease, pc.entry,
                      pc.now, input, required, recordId) == Err(kind.code)
       case ReserveAction(_) => sys.actions >= sys.kernel.mission.maxActions && kind.code == BudgetExhausted
       case _ => false
  }

  /** Before Nexus: the store, the registry or the commit check refused, or evidence could not be appended. */
  predicate PortSaid(sys: Sys, k: Task, move: Move, kind: Kind) {
    && kind.ExecutionRejectedBeforeNexus?
    && match move
       case Record(_) =>
         k.pc.IssuedLogged? && Insert(sys.store, NewRecord(k.pc.auth.Record()), k.attempt) == Err(kind.code)
       case Resolve(_) => k.pc.Recorded? && ResolveForExecution(sys.tools, k.pc.auth) == Err(kind.code)
       case Check(now, issueNow, _) =>
         k.pc.Guarded?
         && CommitCheck(sys.kernel, sys.context, sys.binding.custody.verifyingKey, k.pc.auth, k.pc.live, now, issueNow)
            == Err(kind.code)
       case ConsumeRecord(tokens, _) =>
         k.pc.Committable?
         && Consume(sys.store, k.pc.auth.Record(), k.pc.auth.certificate.body.authorizationGeneration, tokens)
            == Err(kind.code)
       case LogConsumed(appended) => !appended && kind.code == Internal
       case LogStarted(appended) => !appended && kind.code == Internal
       case _ => false
  }

  predicate NexusSaid(move: Move, kind: Kind) {
    move.RunNexus? && kind == if move.result.Successful? then ExecutionCompleted
                              else Kind.ExecutionFailed(ErrorCode.ExecutionFailed)
  }

  predicate Justified(sys: Sys, k: Task, move: Move, kind: Kind) {
    ModelSaid(sys, k.pc, move, kind) || GateSaid(sys, k.pc, move, kind) || PortSaid(sys, k, move, kind)
    || NexusSaid(move, kind)
  }

  lemma ModelJustifies(sys: Sys, k: Task, move: Move, kind: Kind)
    requires Judged(sys, k, move) && FateOf(k.pc, move) == Terminates(kind)
    requires move.ModelFails? || move.Malformed? || move.CheckFinal? || move.ProduceFinal? || move.RunNexus?
    ensures Justified(sys, k, move, kind)
  {}

  lemma GateJustifies(sys: Sys, k: Task, move: Move, kind: Kind)
    requires Enabled(sys, k, move) && Judged(sys, k, move) && FateOf(k.pc, move) == Terminates(kind)
    requires move.ReadGateSnapshot? || move.ResolveTool? || move.Grant? || move.ReserveAction?
    ensures GateSaid(sys, k.pc, move, kind)
  {}

  lemma PortJustifies(sys: Sys, k: Task, move: Move, kind: Kind)
    requires Enabled(sys, k, move) && Judged(sys, k, move) && FateOf(k.pc, move) == Terminates(kind)
    requires move.Record? || move.Resolve? || move.Check? || move.ConsumeRecord? || move.LogConsumed?
          || move.LogStarted?
    ensures PortSaid(sys, k, move, kind)
  {}

  lemma FateJustified(sys: Sys, k: Task, move: Move, kind: Kind)
    requires Enabled(sys, k, move) && Judged(sys, k, move) && FateOf(k.pc, move) == Terminates(kind)
    ensures Justified(sys, k, move, kind)
  {
    if move.ReadGateSnapshot? || move.ResolveTool? || move.Grant? || move.ReserveAction? {
      GateJustifies(sys, k, move, kind);
    } else if move.ModelFails? || move.Malformed? || move.CheckFinal? || move.ProduceFinal? || move.RunNexus? {
      ModelJustifies(sys, k, move, kind);
    } else {
      PortJustifies(sys, k, move, kind);
    }
  }

  /** In every run that verdict is what the check in question returned on the state of that step, with its
      code. */
  lemma VerdictIsJustified(trace: seq<Sys>, labels: seq<Label>, d: nat, t: TaskId, kind: Kind)
    requires SysRun(trace, labels) && d < |labels| && DecidesAt(trace, labels, d, t, kind)
    ensures Justified(trace[d], trace[d].tasks[t], labels[d].move, kind)
  {
    JudgedStep(trace, labels, d, t);
    FateJustified(trace[d], trace[d].tasks[t], labels[d].move, kind);
  }

  // ---------------------------------------------------------------- silent ends

  /** Why a call ends without an event: no lease or no usable authority to observe, no step left, no
      instruction, or an event that could not be appended. */
  predicate SilentSaid(sys: Sys, pc: Pc, move: Move) {
    match move
    case ReadSnapshot(_) => pc.RootRead? && pc.lease !in sys.kernel.leases
    case Observe(now, _) =>
      pc.SnapshotRead?
      && ObserveModelAuthority(sys.kernel, sys.binding.agent, pc.lease, pc.entry, pc.context, now).Err?
    case ReserveStep(_) => sys.steps >= sys.maxSteps
    case InstructionFails => true
    case _ => AppendFails(move)
  }

  lemma ReadingSilence(sys: Sys, k: Task, move: Move)
    requires Enabled(sys, k, move) && Judged(sys, k, move) && FateOf(k.pc, move) == Silent
    requires move.ReadSnapshot? || move.Observe? || move.ReserveStep?
    ensures SilentSaid(sys, k.pc, move)
  {}

  lemma OtherSilence(sys: Sys, k: Task, move: Move)
    requires FateOf(k.pc, move) == Silent && !move.ReadSnapshot? && !move.Observe? && !move.ReserveStep?
    ensures SilentSaid(sys, k.pc, move)
  {}

  lemma SilenceJustified(sys: Sys, k: Task, move: Move)
    requires Enabled(sys, k, move) && Judged(sys, k, move) && FateOf(k.pc, move) == Silent
    ensures SilentSaid(sys, k.pc, move)
  {
    if move.ReadSnapshot? || move.Observe? || move.ReserveStep? {
      ReadingSilence(sys, k, move);
    } else {
      OtherSilence(sys, k, move);
    }
  }

  /** A call of a run ends without an event only for such a reason, which held on the state of that step. */
  lemma SilenceIsJustified(trace: seq<Sys>, labels: seq<Label>, d: nat, t: TaskId)
    requires SysRun(trace, labels) && d < |labels| && labels[d].TaskStep?
    requires MovesAt(trace, labels, d, t, labels[d].move)
    requires FateOf(trace[d].tasks[t].pc, labels[d].move) == Silent
    ensures SilentSaid(trace[d], trace[d].tasks[t].pc, labels[d].move)
  {
    JudgedStep(trace, labels, d, t);
    SilenceJustified(trace[d], trace[d].tasks[t], labels[d].move);
  }
}
