/**
  The runtime as interleaved tasks.  Each task is one `run_once` call
  (crates/aeon_agent_runtime/src/supervisor.rs:225-398) with its action gate and execution port
  (crates/aeon_agent_runtime/src/execution.rs:149-311, 370-513); control-plane operations compete with
  them for the kernel's reader/writer lock.  Model replies, clock readings, append and token-issuance
  failures are arbitrary.

  A move carries the verdict of the check it makes.  `Flow` is the control flow: where a verdict leads.
  `Enabled` says when locks, budgets and the store allow the move, `Judged` that the verdict is what the
  authority, registry and context checks return at that moment.  An interleaving obeys the first, a run
  both; what is proved of interleavings holds whatever the checks answer.
 */
module Protocol {
  import opened Basics
  import opened Authority
  import opened Kernel
  import opened Preservation
  import opened Registry
  import opened MissionStore
  import opened Execution

  type TaskId = int

  datatype Pc =
    | Idle
    | ContextRead(context: Digest)
    | RootRead(lease: LeaseId, context: Digest)
    | SnapshotRead(lease: LeaseId, entry: LeaseEntry, context: Digest)
    | Observed(obs: Observation)
    | StepReserved(obs: Observation)
    | Generating(obs: Observation)
    | Replied(obs: Observation)
    | FinalGuarded(obs: Observation)
    | FinalReady(obs: Observation, now: Time)
    | Proposed(proposal: Proposal, context: Digest)
    | GateRooted(proposal: Proposal, context: Digest, lease: LeaseId)
    | GateRead(proposal: Proposal, context: Digest, lease: LeaseId, entry: LeaseEntry, now: Time)
    | GateResolved(proposal: Proposal, context: Digest, lease: LeaseId, entry: LeaseEntry, now: Time,
                   resolved: BoundTool, live: Manifest)
    | Granted(auth: Authorization)
    | ActionReserved(auth: Authorization)
    | AuthorizedLogged(auth: Authorization)
    | IssuedLogged(auth: Authorization)
    | Recorded(auth: Authorization)
    | Resolved(auth: Authorization, live: Manifest)
    | Guarded(auth: Authorization, live: Manifest)
    | Committable(auth: Authorization, now: Time, issueNow: Time, validity: int)
    | Spent(auth: Authorization)
    | Released(auth: Authorization)
    | EvidenceLogged(auth: Authorization)
    | Started(auth: Authorization)
    | Closing(kind: Kind)
    | Done

  /** A task: where it is, the attempt id it drew, the position of the record it inserted, the events
      it has logged, and which budgets and single-use steps it has taken. */
  datatype Task = Task(
    pc: Pc,
    attempt: Option<AttemptId>,
    record: Option<nat>,
    log: seq<Kind>,
    stepTaken: bool,
    actionTaken: bool,
    spent: bool,
    ran: bool)

  const NEW_TASK := Task(Idle, None, None, [], false, false, false, false)

  datatype Lock = Lock(readers: set<TaskId>, writer: Option<TaskId>)

  datatype Sys = Sys(
    kernel: State,
    binding: Binding,
    lock: Lock,
    tools: Tools,
    context: Digest,
    store: Store,
    maxSteps: nat,
    steps: nat,
    actions: nat,
    modelCalls: nat,
    nexusRuns: nat,
    tasks: map<TaskId, Task>)

  // ---------------------------------------------------------------- control flow of one task

  /** What Nexus answers: an error, an output that reports failure, or a successful one. */
  datatype NexusResult = NexusError | Unsuccessful | Successful

  datatype Move =
    | ReadContext(context: Digest)
    | ReadRoot(lease: LeaseId)
    | ReadSnapshot(found: Option<LeaseEntry>)
    | Observe(now: Time, observed: Result<Observation>)
    | ReserveStep(granted: bool)
    | InstructionFails
    | CallModel
    | ModelFails(code: ErrorCode)
    | Malformed(code: ErrorCode)
    | Accept(appended: bool)
    | GuardFinal
    | CheckFinal(now: Time, accepted: Result<()>)
    | ProduceFinal(appended: bool)
    | Propose(proposal: Proposal, appended: bool)
    | ReadGateRoot(lease: LeaseId)
    | ReadGateSnapshot(now: Time, snapshot: Result<LeaseEntry>)
    | ResolveTool(bound: Result<(BoundTool, Manifest)>)
    | Grant(input: Result<()>, required: seq<Capability>, recordId: AuthorizationId, authorized: Result<Authorization>)
    | ReserveAction(granted: bool)
    | LogAuthorized(appended: bool)
    | LogIssued(appended: bool)
    | Record(inserted: Result<Store>)
    | Resolve(live: Result<Manifest>)
    | Guard
    | Check(now: Time, issueNow: Time, validity: Result<int>)
    | ConsumeRecord(tokens: Result<()>, consumed: Result<Store>)
    | Release
    | LogConsumed(appended: bool)
    | LogStarted(appended: bool)
    | RunNexus(result: NexusResult)
    | Close(appended: bool)

  /** The effect of a move on shared state. */
  datatype Act =
    | Skip
    | EnterGuard
    | LeaveGuard
    | TakeStep
    | StartAttempt
    | TakeAction
    | Write(kind: Kind)
    | WriteAndLeave(kind: Kind)
    | InsertRecord(inserted: Store)
    | SpendRecord(consumed: Store)
    | Execute

  datatype Outcome = Go(act: Act, pc: Pc)

  function Logging(appended: bool, kind: Kind, next: Pc, failed: Pc): Outcome {
    if appended then Go(Write(kind), next) else Go(Skip, failed)
  }

  /** supervisor.rs:225-285: observation, budget, model call, protocol gate, final result */
  function ModelFlow(pc: Pc, move: Move): Outcome {
    match pc
    case Idle =>
      if move.ReadContext? then Go(Skip, ContextRead(move.context)) else Go(Skip, pc)
    case ContextRead(context) =>
      if move.ReadRoot? then Go(Skip, RootRead(move.lease, context)) else Go(Skip, pc)
    case RootRead(lease, context) =>
      if !move.ReadSnapshot? then Go(Skip, pc)
      else if move.found.Some? then Go(Skip, SnapshotRead(lease, move.found.value, context)) else Go(Skip, Done)
    case SnapshotRead(_, _, _) =>
      if !move.Observe? then Go(Skip, pc)
      else if move.observed.Ok? then Go(Skip, Observed(move.observed.value)) else Go(Skip, Done)
    case Observed(obs) =>
      if !move.ReserveStep? then Go(Skip, pc)
      else if move.granted then Go(TakeStep, StepReserved(obs)) else Go(Skip, Done)
    case StepReserved(obs) =>
      if move.InstructionFails? then Go(Skip, Done)
      else if move.CallModel? then Go(StartAttempt, Generating(obs)) else Go(Skip, pc)
    case Generating(obs) =>
      if move.ModelFails? then Go(Skip, Closing(Kind.ModelFailed(move.code)))
      else if move.Malformed? then Go(Skip, Closing(ProtocolRejected(move.code)))
      else if move.Accept? then Logging(move.appended, ProtocolAccepted, Replied(obs), Done) else Go(Skip, pc)
    case Replied(obs) =>
      if move.GuardFinal? then Go(EnterGuard, FinalGuarded(obs))
      else if move.Propose?
      then Logging(move.appended, PlanAccepted, Proposed(move.proposal, obs.validated.contextDigest), Done)
      else Go(Skip, pc)
    case FinalGuarded(obs) =>
      if !move.CheckFinal? then Go(Skip, pc)
      else if move.accepted.Ok? then Go(Skip, FinalReady(obs, move.now))
      else Go(LeaveGuard, Closing(FinalRejected(move.accepted.error)))
    case FinalReady(_, _) =>
      if !move.ProduceFinal? then Go(Skip, pc)
      else if move.appended then Go(WriteAndLeave(FinalProduced), Done)
      else Go(LeaveGuard, Closing(FinalRejected(Internal)))
    case _ => Go(Skip, pc)
  }

  /** supervisor.rs:291-349 with execution.rs:162-311: the action gate, the budget, the record */
  function GateFlow(pc: Pc, move: Move): Outcome {
    match pc
    case Proposed(proposal, context) =>
      if move.ReadGateRoot? then Go(Skip, GateRooted(proposal, context, move.lease)) else Go(Skip, pc)
    case GateRooted(proposal, context, lease) =>
      if !move.ReadGateSnapshot? then Go(Skip, pc)
      else if move.snapshot.Ok? then Go(Skip, GateRead(proposal, context, lease, move.snapshot.value, move.now))
      else Go(Skip, Closing(ActionRejected(move.snapshot.error)))
    case GateRead(proposal, context, lease, entry, now) =>
      if !move.ResolveTool? then Go(Skip, pc)
      else if move.bound.Ok?
      then Go(Skip, GateResolved(proposal, context, lease, entry, now, move.bound.value.0, move.bound.value.1))
      else Go(Skip, Closing(ActionRejected(move.bound.error)))
    case GateResolved(_, _, _, _, _, _, _) =>
      if !move.Grant? then Go(Skip, pc)
      else if move.authorized.Ok? then Go(Skip, Granted(move.authorized.value))
      else Go(Skip, Closing(ActionRejected(move.authorized.error)))
    case Granted(auth) =>
      if !move.ReserveAction? then Go(Skip, pc)
      else if move.granted then Go(TakeAction, ActionReserved(auth))
      else Go(Skip, Closing(ActionRejected(BudgetExhausted)))
    case ActionReserved(auth) =>
      if move.LogAuthorized? then Logging(move.appended, ActionAuthorized, AuthorizedLogged(auth), Done)
      else Go(Skip, pc)
    case AuthorizedLogged(auth) =>
      if move.LogIssued? then Logging(move.appended, AuthorizationIssued, IssuedLogged(auth), Done) else Go(Skip, pc)
    case IssuedLogged(auth) =>
      if !move.Record? then Go(Skip, pc)
      else if move.inserted.Ok? then Go(InsertRecord(move.inserted.value), Recorded(auth))
      else Go(Skip, Closing(ExecutionRejectedBeforeNexus(move.inserted.error)))
    case _ => Go(Skip, pc)
  }

  /** execution.rs:370-513 and supervisor.rs:365-395: commit under the guard, evidence, execution */
  function ExecuteFlow(pc: Pc, move: Move): Outcome {
    match pc
    case Recorded(auth) =>
      if !move.Resolve? then Go(Skip, pc)
      else if move.live.Ok? then Go(Skip, Resolved(auth, move.live.value))
      else Go(Skip, Closing(ExecutionRejectedBeforeNexus(move.live.error)))
    case Resolved(auth, live) =>
      if move.Guard? then Go(EnterGuard, Guarded(auth, live)) else Go(Skip, pc)
    case Guarded(auth, _) =>
      if !move.Check? then Go(Skip, pc)
      else if move.validity.Ok? then Go(Skip, Committable(auth, move.now, move.issueNow, move.validity.value))
      else Go(LeaveGuard, Closing(ExecutionRejectedBeforeNexus(move.validity.error)))
    case Committable(auth, _, _, _) =>
      if !move.ConsumeRecord? then Go(Skip, pc)
      else if move.consumed.Ok? then Go(SpendRecord(move.consumed.value), Spent(auth))
      else Go(LeaveGuard, Closing(ExecutionRejectedBeforeNexus(move.consumed.error)))
    case Spent(auth) =>
      if move.Release? then Go(LeaveGuard, Released(auth)) else Go(Skip, pc)
    case Released(auth) =>
      if move.LogConsumed?
      then Logging(move.appended, AuthorizationConsumed, EvidenceLogged(auth),
                   Closing(ExecutionRejectedBeforeNexus(Internal)))
      else Go(Skip, pc)
    case EvidenceLogged(auth) =>
      if move.LogStarted?
      then Logging(move.appended, ExecutionStarted, Started(auth), Closing(ExecutionRejectedBeforeNexus(Internal)))
      else Go(Skip, pc)
    case Started(_) =>
      if !move.RunNexus? then Go(Skip, pc)
      else if move.result.Successful? then Go(Execute, Closing(ExecutionCompleted))
      else Go(Execute, Closing(Kind.ExecutionFailed(ErrorCode.ExecutionFailed)))
    case Closing(kind) =>
      if move.Close? then Logging(move.appended, kind, Done, Done) else Go(Skip, pc)
    case _ => Go(Skip, pc)
  }

  predicate InModel(pc: Pc) {
    || pc.Idle? || pc.ContextRead? || pc.RootRead? || pc.SnapshotRead? || pc.Observed? || pc.StepReserved?
    || pc.Generating? || pc.Replied? || pc.FinalGuarded? || pc.FinalReady?
  }

  predicate InGate(pc: Pc) {
    || pc.Proposed? || pc.GateRooted? || pc.GateRead? || pc.GateResolved? || pc.Granted? || pc.ActionReserved?
    || pc.AuthorizedLogged? || pc.IssuedLogged?
  }

  function Flow(pc: Pc, move: Move): Outcome {
    if InModel(pc) then ModelFlow(pc, move)
    else if InGate(pc) then GateFlow(pc, move)
    else ExecuteFlow(pc, move)
  }

  // ---------------------------------------------------------------- verdicts against shared state

  predicate Readable(sys: Sys) {
    sys.lock.writer == None
  }

  function NewRecord(id: AuthorizationId): AuthorizationRecord {
    AuthorizationRecord(id, 1, Issued, 0)
  }

  /** Reads of the kernel and guards, which wait for a writer. */
  predicate Locks(pc: Pc, move: Move) {
    || (pc.ContextRead? && move.ReadRoot?) || (pc.RootRead? && move.ReadSnapshot?)
    || (pc.SnapshotRead? && move.Observe?) || (pc.Replied? && move.GuardFinal?)
    || (pc.Proposed? && move.ReadGateRoot?) || (pc.GateRooted? && move.ReadGateSnapshot?)
    || (pc.GateResolved? && move.Grant?) || (pc.Resolved? && move.Guard?)
  }

  /** Locks, budgets and the store allow the move, and its verdict about them is theirs. */
  predicate Enabled(sys: Sys, k: Task, move: Move) {
    && (Locks(k.pc, move) ==> Readable(sys))
    && (k.pc.Observed? && move.ReserveStep? ==> move.granted == (sys.steps < sys.maxSteps))
    && (k.pc.Granted? && move.ReserveAction? ==> move.granted == (sys.actions < sys.kernel.mission.maxActions))
    && (k.pc.IssuedLogged? && move.Record? ==>
          move.inserted == Insert(sys.store, NewRecord(k.pc.auth.Record()), k.attempt))
    && (k.pc.Committable? && move.ConsumeRecord? ==>
          move.consumed ==
          Consume(sys.store, k.pc.auth.Record(), k.pc.auth.certificate.body.authorizationGeneration, move.tokens))
  }

  /** The verdict is what the kernel, registry and context checks return now. */
  predicate Judged(sys: Sys, k: Task, move: Move) {
    var pc := k.pc;
    && (pc.Idle? && move.ReadContext? ==> move.context == sys.context)
    && (pc.ContextRead? && move.ReadRoot? ==> move.lease == sys.kernel.rootLeaseId)
    && (pc.RootRead? && move.ReadSnapshot? ==>
          move.found == if pc.lease in sys.kernel.leases then Some(sys.kernel.leases[pc.lease]) else None)
    && (pc.SnapshotRead? && move.Observe? ==>
          move.observed ==
          ObserveModelAuthority(sys.kernel, sys.binding.agent, pc.lease, pc.entry, pc.context, move.now))
    && (pc.FinalGuarded? && move.CheckFinal? ==>
          move.accepted == AcceptModelFinal(sys.kernel, sys.context, pc.obs, move.now))
    && (pc.Proposed? && move.ReadGateRoot? ==> move.lease == sys.kernel.rootLeaseId)
    && (pc.GateRooted? && move.ReadGateSnapshot? ==>
          move.snapshot == GateSnapshot(sys.kernel, pc.proposal.tool, pc.lease, move.now))
    && (pc.GateRead? && move.ResolveTool? ==> move.bound == ResolveAtGate(sys.tools, pc.proposal.tool, pc.entry))
    && (pc.GateResolved? && move.Grant? ==>
          move.authorized ==
          Authorize(sys.kernel, sys.binding, pc.proposal, pc.resolved, pc.live, pc.context, pc.lease, pc.entry, pc.now,
                    move.input, move.required, move.recordId))
    && (pc.Recorded? && move.Resolve? ==> move.live == ResolveForExecution(sys.tools, pc.auth))
    && (pc.Guarded? && move.Check? ==>
          move.validity ==
          CommitCheck(sys.kernel, sys.context, sys.binding.custody.verifyingKey, pc.auth, pc.live, move.now,
                      move.issueNow))
  }

  // ---------------------------------------------------------------- effects

  /** A task after a move; `draw` is the attempt id it would draw and `slot` the ledger's length. */
  function After(k: Task, o: Outcome, draw: AttemptId, slot: nat): Task {
    var k' := k.(pc := o.pc);
    match o.act
    case TakeStep => k'.(stepTaken := true)
    case StartAttempt => k'.(attempt := Some(draw))
    case TakeAction => k'.(actionTaken := true)
    case Write(kind) => k'.(log := k.log + [kind])
    case WriteAndLeave(kind) => k'.(log := k.log + [kind])
    case InsertRecord(_) => k'.(record := Some(slot))
    case SpendRecord(_) => k'.(spent := true)
    case Execute => k'.(ran := true)
    case _ => k'
  }

  function LockAfter(lock: Lock, act: Act, t: TaskId): Lock {
    match act
    case EnterGuard => lock.(readers := lock.readers + {t})
    case LeaveGuard => lock.(readers := lock.readers - {t})
    case WriteAndLeave(_) => lock.(readers := lock.readers - {t})
    case _ => lock
  }

  function StoreAfter(store: Store, act: Act, attempt: Option<AttemptId>): Store {
    match act
    case StartAttempt => store.(nextAttempt := store.nextAttempt + 1)
    case Write(kind) => Append(store, attempt, kind)
    case WriteAndLeave(kind) => Append(store, attempt, kind)
    case InsertRecord(inserted) => inserted
    case SpendRecord(consumed) => consumed
    case _ => store
  }

  function Tick(n: nat, here: bool): nat {
    if here then n + 1 else n
  }

  function Perform(sys: Sys, t: TaskId, o: Outcome): Sys
    requires t in sys.tasks
  {
    var k := sys.tasks[t];
    sys.(
      lock := LockAfter(sys.lock, o.act, t),
      store := StoreAfter(sys.store, o.act, k.attempt),
      steps := Tick(sys.steps, o.act.TakeStep?),
      actions := Tick(sys.actions, o.act.TakeAction?),
      modelCalls := Tick(sys.modelCalls, o.act.StartAttempt?),
      nexusRuns := Tick(sys.nexusRuns, o.act.Execute?),
      tasks := sys.tasks[t := After(k, o, sys.store.nextAttempt + 1, |sys.store.records|)])
  }

  // ---------------------------------------------------------------- runs

  datatype Label =
    | Spawn(task: TaskId)
    | TaskStep(task: TaskId, move: Move)
    | AcquireWrite(writer: TaskId)
    | Control(writer: TaskId, op: Op, now: Time, after: State)
    | ReleaseWrite(writer: TaskId)
    | ReplaceTools(tools: Tools)
    | ReplaceContext(context: Digest)

  /** The context lock is held from the check of a final result to its append (supervisor.rs:591-600). */
  predicate ContextHeld(sys: Sys) {
    exists t :: t in sys.tasks && sys.tasks[t].pc.FinalReady?
  }

  /** One atomic step; a step that is not enabled changes nothing. */
  function Next(sys: Sys, event: Label): Sys {
    match event
    case Spawn(t) => if t in sys.tasks then sys else sys.(tasks := sys.tasks[t := NEW_TASK])
    case TaskStep(t, move) =>
      if t in sys.tasks && Enabled(sys, sys.tasks[t], move) then Perform(sys, t, Flow(sys.tasks[t].pc, move)) else sys
    case AcquireWrite(w) =>
      if sys.lock == Lock({}, None) then sys.(lock := Lock({}, Some(w))) else sys
    case Control(w, _, _, after) =>
      if sys.lock.writer == Some(w) && after.mission == sys.kernel.mission then sys.(kernel := after) else sys
    case ReleaseWrite(w) =>
      if sys.lock.writer == Some(w) then sys.(lock := sys.lock.(writer := None)) else sys
    case ReplaceTools(tools) => if FromTools(tools).Ok? then sys.(tools := tools) else sys
    case ReplaceContext(context) => if ContextHeld(sys) then sys else sys.(context := context)
  }

  function FoundedStore(missionId: int): Store {
    Append(Append(Append(Append(EmptyStore(missionId),
      None, MissionCreated), None, ContextResolved), None, Kind.LeaseIssued), None, AgentActivated)
  }

  /** supervisor.rs:183-222 after the kernel bootstrap */
  predicate Init(sys: Sys) {
    && FromTools(sys.tools).Ok?
    && sys.lock == Lock({}, None)
    && sys.store == FoundedStore(sys.kernel.mission.missionId)
    && sys.steps == sys.actions == sys.modelCalls == sys.nexusRuns == 0
    && sys.tasks == map[]
  }

  /** Any interleaving of task, control-plane and environment steps. */
  ghost predicate Interleaving(trace: seq<Sys>, labels: seq<Label>) {
    && |trace| == |labels| + 1
    && forall i {:trigger SysLinked(trace, labels, i)} :: 0 <= i < |trace| ==> SysLinked(trace, labels, i)
  }

  predicate SysLinked(trace: seq<Sys>, labels: seq<Label>, i: nat)
    requires |trace| == |labels| + 1 && i < |trace|
  {
    if i == 0 then Init(trace[0]) else trace[i] == Next(trace[i - 1], labels[i - 1])
  }

  /** A run of the runtime: an interleaving that starts from a bootstrapped kernel, whose control steps
      are kernel operations, and whose verdicts are those of the checks. */
  ghost predicate SysRun(trace: seq<Sys>, labels: seq<Label>) {
    && Interleaving(trace, labels)
    && forall i {:trigger Faithful(trace, labels, i)} :: 0 <= i < |trace| ==> Faithful(trace, labels, i)
  }

  ghost predicate Faithful(trace: seq<Sys>, labels: seq<Label>, i: nat)
    requires |trace| == |labels| + 1 && i < |trace|
  {
    if i == 0 then Bootstrapped(trace[0].kernel)
    else
      var sys := trace[i - 1];
      match labels[i - 1]
      case TaskStep(t, move) => t in sys.tasks ==> Judged(sys, sys.tasks[t], move)
      case Control(_, op, now, after) => FreshIds(sys.kernel, op) && after == Step(sys.kernel, op, now)
      case _ => true
  }
}
