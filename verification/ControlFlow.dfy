/**
  What the control flow of one call guarantees, independent of any state: where guards, budgets and
  records are taken, what each program point remembers, which events are logged on the way, and how a
  call ends (crates/aeon_agent_runtime/src/supervisor.rs:225-398,
  crates/aeon_agent_runtime/src/execution.rs:149-513).
 */
module ControlFlow {
  import opened Basics
  import opened MissionStore
  import opened Protocol

  // ---------------------------------------------------------------- kinds of program points

  predicate HoldsGuard(pc: Pc) {
    pc.FinalGuarded? || pc.FinalReady? || pc.Guarded? || pc.Committable? || pc.Spent?
  }

  predicate Observes(pc: Pc) {
    pc.Observed? || pc.StepReserved? || pc.Generating? || pc.Replied? || pc.FinalGuarded? || pc.FinalReady?
  }

  predicate Authorizes(pc: Pc) {
    || pc.Granted? || pc.ActionReserved? || pc.AuthorizedLogged? || pc.IssuedLogged? || pc.Recorded? || pc.Resolved?
    || pc.Guarded? || pc.Committable? || pc.Spent? || pc.Released? || pc.EvidenceLogged? || pc.Started?
  }

  predicate Ended(pc: Pc) {
    pc.Closing? || pc.Done?
  }

  predicate PastGrant(pc: Pc) {
    Authorizes(pc) || Ended(pc)
  }

  /** The events of an attempt that runs all the way to Nexus. */
  const SPINE: seq<Kind> := [
    ProtocolAccepted, PlanAccepted, ActionAuthorized, AuthorizationIssued, AuthorizationConsumed, ExecutionStarted]

  /** How many spine events have been logged on arrival at `pc`, and how many milestones lie behind it: step
      reserved, attempt begun, action reserved, record inserted, record spent. */
  function Position(pc: Pc): (nat, nat) {
    match pc
    case Idle | ContextRead(_) | RootRead(_, _) | SnapshotRead(_, _, _) | Observed(_) => (0, 0)
    case StepReserved(_) => (0, 1)
    case Generating(_) => (0, 2)
    case Replied(_) | FinalGuarded(_) | FinalReady(_, _) => (1, 2)
    case Proposed(_, _) | GateRooted(_, _, _) | GateRead(_, _, _, _, _) => (2, 2)
    case GateResolved(_, _, _, _, _, _, _) | Granted(_) => (2, 2)
    case ActionReserved(_) => (2, 3)
    case AuthorizedLogged(_) => (3, 3)
    case IssuedLogged(_) => (4, 3)
    case Recorded(_) | Resolved(_, _) | Guarded(_, _) | Committable(_, _, _, _) => (4, 4)
    case Spent(_) | Released(_) => (4, 5)
    case EvidenceLogged(_) => (5, 5)
    case Started(_) => (6, 5)
    case Closing(_) | Done => (0, 2)
  }

  function Lines(pc: Pc): (n: nat)
    ensures n <= |SPINE|
  {
    Position(pc).0
  }

  function Milestone(pc: Pc): nat {
    Position(pc).1
  }

  /** An upper bound on the moves left. */
  function Left(pc: Pc): (n: nat)
    ensures n <= 27
  {
    match pc
    case Idle => 27
    case ContextRead(_) => 26
    case RootRead(_, _) => 25
    case SnapshotRead(_, _, _) => 24
    case Observed(_) => 23
    case StepReserved(_) => 22
    case Generating(_) => 21
    case Replied(_) => 20
    case FinalGuarded(_) => 19
    case FinalReady(_, _) => 18
    case Proposed(_, _) => 17
    case GateRooted(_, _, _) => 16
    case GateRead(_, _, _, _, _) => 15
    case GateResolved(_, _, _, _, _, _, _) => 14
    case Granted(_) => 13
    case ActionReserved(_) => 12
    case AuthorizedLogged(_) => 11
    case IssuedLogged(_) => 10
    case Recorded(_) => 9
    case Resolved(_, _) => 8
    case Guarded(_, _) => 7
    case Committable(_, _, _, _) => 6
    case Spent(_) => 5
    case Released(_) => 4
    case EvidenceLogged(_) => 3
    case Started(_) => 2
    case Closing(_) => 1
    case Done => 0
  }

  // ---------------------------------------------------------------- kinds of actions and moves

  predicate Writes(act: Act) {
    act.Write? || act.WriteAndLeave?
  }

  /** The milestone an action passes, zero if none. */
  function Passes(act: Act): nat {
    match act
    case TakeStep => 1
    case StartAttempt => 2
    case TakeAction => 3
    case InsertRecord(_) => 4
    case SpendRecord(_) => 5
    case _ => 0
  }

  predicate Stays(act: Act) {
    !Writes(act) && Passes(act) == 0
  }

  predicate AppendFails(move: Move) {
    || (move.Accept? && !move.appended) || (move.ProduceFinal? && !move.appended) || (move.Propose? && !move.appended)
    || (move.LogAuthorized? && !move.appended) || (move.LogIssued? && !move.appended)
    || (move.LogConsumed? && !move.appended) || (move.LogStarted? && !move.appended) || (move.Close? && !move.appended)
  }

  /** Events that close an attempt after `n` spine events. */
  predicate Closes(n: nat, kind: Kind) {
    || (n == 0 && (kind.ModelFailed? || kind.ProtocolRejected?))
    || (n == 1 && kind.FinalRejected?)
    || (n == 2 && kind.ActionRejected?)
    || ((n == 4 || n == 5) && kind.ExecutionRejectedBeforeNexus?)
    || (n == 6 && (kind.ExecutionCompleted? || kind.ExecutionFailed?))
  }

  // ---------------------------------------------------------------- facts about one step

  /** Entering and leaving the guard happens exactly where the control flow crosses its edge, and entering
      waits for the lock. */
  predicate GuardedFlow(pc: Pc, move: Move, o: Outcome) {
    match o.act
    case EnterGuard => HoldsGuard(o.pc) && Locks(pc, move)
    case LeaveGuard => !HoldsGuard(o.pc)
    case WriteAndLeave(_) => !HoldsGuard(o.pc)
    case _ => HoldsGuard(o.pc) <==> HoldsGuard(pc)
  }

  /** Where a program point's lease snapshot, observation and authorization come from. */
  predicate Remembers(pc: Pc, move: Move, next: Pc) {
    && (next.SnapshotRead? && next != pc ==>
          pc.RootRead? && move == ReadSnapshot(Some(next.entry)) && next.lease == pc.lease)
    && (next.GateRead? && next != pc ==>
          pc.GateRooted? && move == ReadGateSnapshot(next.now, Ok(next.entry)) && next.lease == pc.lease)
    && (next.GateResolved? && next != pc ==> pc.GateRead? && next.lease == pc.lease && next.entry == pc.entry)
    && (Observes(next) ==>
          || (Observes(pc) && next.obs == pc.obs)
          || (next.Observed? && pc.SnapshotRead? && move.Observe? && move.observed == Ok(next.obs)))
    && (Authorizes(next) ==>
          || (Authorizes(pc) && next.auth == pc.auth)
          || (next.Granted? && pc.GateResolved? && move.Grant? && move.authorized == Ok(next.auth)))
  }

  /** The guarded sections have one way in: guard then check for a final result; resolve, guard, check for
      a commit. */
  predicate ChecksInPlace(pc: Pc, move: Move, next: Pc) {
    && (next.FinalReady? && next != pc ==>
          pc.FinalGuarded? && move.CheckFinal? && move.now == next.now && move.accepted.Ok?)
    && (next.Resolved? && next != pc ==> pc.Recorded? && move == Resolve(Ok(next.live)))
    && (next.Guarded? && next != pc ==> pc.Resolved? && next.live == pc.live)
    && (next.Committable? && next != pc ==> pc.Guarded? && move == Check(next.now, next.issueNow, Ok(next.validity)))
  }

  /** Budgets and records are taken at one program point each. */
  predicate TakesInPlace(pc: Pc, move: Move, o: Outcome) {
    && (o.act.TakeStep? ==> pc.Observed? && move == ReserveStep(true))
    && (o.act.TakeAction? ==> pc.Granted? && move == ReserveAction(true))
    && (o.act.InsertRecord? ==> pc.IssuedLogged? && move == Record(Ok(o.act.inserted)) && o.pc == Recorded(pc.auth))
    && (o.act.SpendRecord? ==>
          pc.Committable? && move.ConsumeRecord? && move.consumed == Ok(o.act.consumed) && o.pc == Spent(pc.auth))
  }

  /** The control-flow edges of an attempt. */
  predicate Edge(pc: Pc, o: Outcome) {
    if pc.Done? then o == Go(Skip, Done)
    else if pc.Closing? then o == Go(Skip, pc) || o == Go(Skip, Done) || o == Go(Write(pc.kind), Done)
    else if o.pc.Done? then
      (o.act.Skip? && Milestone(pc) < 4) || (o.act == WriteAndLeave(FinalProduced) && Lines(pc) == 1)
    else if o.pc.Closing? then
      && Stays(o.act) && Milestone(pc) >= 2 && Closes(Lines(pc), o.pc.kind)
      && (o.act.Execute? <==> pc.Started?)
    else
      && !o.act.WriteAndLeave? && !o.act.Execute?
      && (if Writes(o.act) then Lines(pc) < |SPINE| && o.act.kind == SPINE[Lines(pc)] && Lines(o.pc) == Lines(pc) + 1
          else Lines(o.pc) == Lines(pc))
      && (if Passes(o.act) > 0 then Milestone(o.pc) == Passes(o.act) == Milestone(pc) + 1
          else Milestone(o.pc) == Milestone(pc))
  }

  predicate Onward(pc: Pc, next: Pc) {
    (next == pc || Left(next) < Left(pc)) && (PastGrant(pc) ==> PastGrant(next))
  }

  /** Without a failing append an attempt ends silently, with its final result, or by its closing event, and
      a consumption goes on to its evidence. */
  predicate Delivers(pc: Pc, o: Outcome) {
    && (o.pc.Done? && !pc.Done? ==>
          || (o.act.Skip? && Lines(pc) == 0 && !pc.Closing?)
          || o.act == WriteAndLeave(FinalProduced)
          || (pc.Closing? && o.act == Write(pc.kind)))
    && (pc.Spent? ==> o == Go(Skip, pc) || o == Go(LeaveGuard, Released(pc.auth)))
    && (pc.Released? ==> o == Go(Skip, pc) || o == Go(Write(AuthorizationConsumed), EvidenceLogged(pc.auth)))
    && (o.act.SpendRecord? ==> o.pc.Spent?)
  }

  /** How a call fares by a move: it goes on, ends without an event, or is to end with this one. */
  datatype Fate = GoesOn | Silent | Terminates(kind: Kind)

  /** The verdict of each check, and the event it is recorded as. */
  function FateOf(pc: Pc, move: Move): Fate {
    match move
    case ReadSnapshot(found) => if pc.RootRead? && found.None? then Silent else GoesOn
    case Observe(_, observed) => if pc.SnapshotRead? && observed.Err? then Silent else GoesOn
    case ReserveStep(granted) => if pc.Observed? && !granted then Silent else GoesOn
    case InstructionFails => if pc.StepReserved? then Silent else GoesOn
    case ModelFails(code) => if pc.Generating? then Terminates(Kind.ModelFailed(code)) else GoesOn
    case Malformed(code) => if pc.Generating? then Terminates(ProtocolRejected(code)) else GoesOn
    case Accept(appended) => if pc.Generating? && !appended then Silent else GoesOn
    case Propose(_, appended) => if pc.Replied? && !appended then Silent else GoesOn
    case CheckFinal(_, accepted) =>
      if pc.FinalGuarded? && accepted.Err? then Terminates(FinalRejected(accepted.error)) else GoesOn
    case ProduceFinal(appended) =>
      if !pc.FinalReady? then GoesOn
      else if appended then Terminates(FinalProduced) else Terminates(FinalRejected(Internal))
    case ReadGateSnapshot(_, snapshot) =>
      if pc.GateRooted? && snapshot.Err? then Terminates(ActionRejected(snapshot.error)) else GoesOn
    case ResolveTool(bound) =>
      if pc.GateRead? && bound.Err? then Terminates(ActionRejected(bound.error)) else GoesOn
    case Grant(_, _, _, authorized) =>
      if pc.GateResolved? && authorized.Err? then Terminates(ActionRejected(authorized.error)) else GoesOn
    case ReserveAction(granted) =>
      if pc.Granted? && !granted then Terminates(ActionRejected(BudgetExhausted)) else GoesOn
    case LogAuthorized(appended) => if pc.ActionReserved? && !appended then Silent else GoesOn
    case LogIssued(appended) => if pc.AuthorizedLogged? && !appended then Silent else GoesOn
    case Record(inserted) =>
      if pc.IssuedLogged? && inserted.Err? then Terminates(ExecutionRejectedBeforeNexus(inserted.error)) else GoesOn
    case Resolve(live) =>
      if pc.Recorded? && live.Err? then Terminates(ExecutionRejectedBeforeNexus(live.error)) else GoesOn
    case Check(_, _, validity) =>
      if pc.Guarded? && validity.Err? then Terminates(ExecutionRejectedBeforeNexus(validity.error)) else GoesOn
    case ConsumeRecord(_, consumed) =>
      if pc.Committable? && consumed.Err? then Terminates(ExecutionRejectedBeforeNexus(consumed.error)) else GoesOn
    case LogConsumed(appended) =>
      if pc.Released? && !appended then Terminates(ExecutionRejectedBeforeNexus(Internal)) else GoesOn
    case LogStarted(appended) =>
      if pc.EvidenceLogged? && !appended then Terminates(ExecutionRejectedBeforeNexus(Internal)) else GoesOn
    case RunNexus(result) =>
      if !pc.Started? then GoesOn
      else if result == NexusError || result == Unsuccessful
      then Terminates(Kind.ExecutionFailed(ErrorCode.ExecutionFailed)) else Terminates(ExecutionCompleted)
    case _ => GoesOn
  }

  /** A call meets its fate: a final result is logged at once, every other verdict by the closing event. */
  predicate Meets(pc: Pc, o: Outcome, fate: Fate) {
    match fate
    case GoesOn => Ended(pc) || !Ended(o.pc)
    case Silent => o == Go(Skip, Done)
    case Terminates(kind) =>
      if kind == FinalProduced then o == Go(WriteAndLeave(kind), Done) else o.pc == Closing(kind) && !Writes(o.act)
  }

  /** Where proposal, context, lease and snapshot of a program point were read. */
  predicate Relays(pc: Pc, move: Move, next: Pc) {
    match next
    case ContextRead(context) => pc.Idle? && move == ReadContext(context)
    case RootRead(lease, context) => pc == ContextRead(context) && move == ReadRoot(lease)
    case SnapshotRead(lease, entry, context) => pc == RootRead(lease, context) && move == ReadSnapshot(Some(entry))
    case Observed(obs) => pc.SnapshotRead? && move.Observe? && move.observed == Ok(obs)
    case StepReserved(obs) => pc == Observed(obs) && move == ReserveStep(true)
    case Generating(obs) => pc == StepReserved(obs) && move == CallModel
    case Replied(obs) => pc == Generating(obs) && move == Accept(true)
    case Proposed(proposal, context) =>
      pc.Replied? && pc.obs.validated.contextDigest == context && move == Propose(proposal, true)
    case GateRooted(proposal, context, lease) => pc == Proposed(proposal, context) && move == ReadGateRoot(lease)
    case GateRead(proposal, context, lease, entry, now) =>
      pc == GateRooted(proposal, context, lease) && move == ReadGateSnapshot(now, Ok(entry))
    case GateResolved(proposal, context, lease, entry, now, resolved, live) =>
      pc == GateRead(proposal, context, lease, entry, now) && move == ResolveTool(Ok((resolved, live)))
    case Granted(auth) => pc.GateResolved? && move.Grant? && move.authorized == Ok(auth)
    case _ => true
  }

  /** What a step takes and remembers. */
  predicate Keeps(pc: Pc, move: Move, o: Outcome) {
    && GuardedFlow(pc, move, o)
    && Remembers(pc, move, o.pc)
    && ChecksInPlace(pc, move, o.pc)
    && TakesInPlace(pc, move, o)
  }

  /** Where a step leads. */
  predicate Proceeds(pc: Pc, move: Move, o: Outcome) {
    && Edge(pc, o)
    && Onward(pc, o.pc)
    && (!AppendFails(move) ==> Delivers(pc, o))
  }

  // ---------------------------------------------------------------- every program point

  lemma ReadingKeeps(pc: Pc, move: Move)
    requires pc.Idle? || pc.ContextRead? || pc.RootRead? || pc.SnapshotRead?
    ensures Keeps(pc, move, Flow(pc, move))
  {}

  lemma CallingKeeps(pc: Pc, move: Move)
    requires pc.Observed? || pc.StepReserved? || pc.Generating?
    ensures Keeps(pc, move, Flow(pc, move))
  {}

  lemma ReplyKeeps(pc: Pc, move: Move)
    requires pc.Replied? || pc.FinalGuarded? || pc.FinalReady?
    ensures Keeps(pc, move, Flow(pc, move))
  {}

  lemma GateKeeps(pc: Pc, move: Move)
    requires pc.Proposed? || pc.GateRooted? || pc.GateRead?
    ensures Keeps(pc, move, Flow(pc, move))
  {}

  lemma GrantKeeps(pc: Pc, move: Move)
    requires pc.GateResolved? || pc.Granted? || pc.ActionReserved?
    ensures Keeps(pc, move, Flow(pc, move))
  {}

  lemma RecordKeeps(pc: Pc, move: Move)
    requires pc.AuthorizedLogged? || pc.IssuedLogged?
    ensures Keeps(pc, move, Flow(pc, move))
  {}

  lemma CommitKeeps(pc: Pc, move: Move)
    requires pc.Recorded? || pc.Resolved? || pc.Guarded?
    ensures Keeps(pc, move, Flow(pc, move))
  {}

  lemma SpendKeeps(pc: Pc, move: Move)
    requires pc.Committable? || pc.Spent? || pc.Released?
    ensures Keeps(pc, move, Flow(pc, move))
  {}

  lemma CloseKeeps(pc: Pc, move: Move)
    requires pc.EvidenceLogged? || pc.Started? || pc.Closing? || pc.Done?
    ensures Keeps(pc, move, Flow(pc, move))
  {}

  lemma FlowKeeps(pc: Pc, move: Move)
    ensures Keeps(pc, move, Flow(pc, move))
  {
    if pc.Idle? || pc.ContextRead? || pc.RootRead? || pc.SnapshotRead? {
      ReadingKeeps(pc, move);
    } else if pc.Observed? || pc.StepReserved? || pc.Generating? {
      CallingKeeps(pc, move);
    } else if pc.Replied? || pc.FinalGuarded? || pc.FinalReady? {
      ReplyKeeps(pc, move);
    } else if pc.Proposed? || pc.GateRooted? || pc.GateRead? {
      GateKeeps(pc, move);
    } else if pc.GateResolved? || pc.Granted? || pc.ActionReserved? {
      GrantKeeps(pc, move);
    } else if pc.AuthorizedLogged? || pc.IssuedLogged? {
      RecordKeeps(pc, move);
    } else if pc.Recorded? || pc.Resolved? || pc.Guarded? {
      CommitKeeps(pc, move);
    } else if pc.Committable? || pc.Spent? || pc.Released? {
      SpendKeeps(pc, move);
    } else {
      CloseKeeps(pc, move);
    }
  }

  lemma StartProceeds(pc: Pc, move: Move)
    requires pc.Idle? || pc.ContextRead?
    ensures Proceeds(pc, move, Flow(pc, move))
  {}

  lemma ReadingProceeds(pc: Pc, move: Move)
    requires pc.RootRead? || pc.SnapshotRead?
    ensures Proceeds(pc, move, Flow(pc, move))
  {}

  lemma BudgetProceeds(pc: Pc, move: Move)
    requires pc.Observed? || pc.StepReserved?
    ensures Proceeds(pc, move, Flow(pc, move))
  {}

  lemma ReplyProceeds(pc: Pc, move: Move)
    requires pc.Generating?
    ensures Proceeds(pc, move, Flow(pc, move))
  {}

  lemma MessageProceeds(pc: Pc, move: Move)
    requires pc.Replied?
    ensures Proceeds(pc, move, Flow(pc, move))
  {}

  lemma FinalProceeds(pc: Pc, move: Move)
    requires pc.FinalGuarded? || pc.FinalReady?
    ensures Proceeds(pc, move, Flow(pc, move))
  {}

  lemma GateProceeds(pc: Pc, move: Move)
    requires pc.Proposed? || pc.GateRooted?
    ensures Proceeds(pc, move, Flow(pc, move))
  {}

  lemma ToolProceeds(pc: Pc, move: Move)
    requires pc.GateRead? || pc.GateResolved?
    ensures Proceeds(pc, move, Flow(pc, move))
  {}

  lemma BudgetedProceeds(pc: Pc, move: Move)
    requires pc.Granted?
    ensures Proceeds(pc, move, Flow(pc, move))
  {}

  lemma ActionProceeds(pc: Pc, move: Move)
    requires pc.ActionReserved?
    ensures Proceeds(pc, move, Flow(pc, move))
  {}

  lemma RecordProceeds(pc: Pc, move: Move)
    requires pc.AuthorizedLogged? || pc.IssuedLogged?
    ensures Proceeds(pc, move, Flow(pc, move))
  {}

  lemma GuardProceeds(pc: Pc, move: Move)
    requires pc.Recorded? || pc.Resolved?
    ensures Proceeds(pc, move, Flow(pc, move))
  {}

  lemma CommitProceeds(pc: Pc, move: Move)
    requires pc.Guarded? || pc.Committable?
    ensures Proceeds(pc, move, Flow(pc, move))
  {}

  lemma SpendProceeds(pc: Pc, move: Move)
    requires pc.Spent?
    ensures Proceeds(pc, move, Flow(pc, move))
  {}

  lemma ReleaseProceeds(pc: Pc, move: Move)
    requires pc.Released?
    ensures Proceeds(pc, move, Flow(pc, move))
  {}

  lemma EvidenceProceeds(pc: Pc, move: Move)
    requires pc.EvidenceLogged?
    ensures Proceeds(pc, move, Flow(pc, move))
  {}

  lemma NexusProceeds(pc: Pc, move: Move)
    requires pc.Started?
    ensures Proceeds(pc, move, Flow(pc, move))
  {}

  lemma CloseProceeds(pc: Pc, move: Move)
    requires pc.Closing? || pc.Done?
    ensures Proceeds(pc, move, Flow(pc, move))
  {}

  lemma FlowProceeds(pc: Pc, move: Move)
    ensures Proceeds(pc, move, Flow(pc, move))
  {
    if pc.Idle? || pc.ContextRead? {
      StartProceeds(pc, move);
    } else if pc.RootRead? || pc.SnapshotRead? {
      ReadingProceeds(pc, move);
    } else if pc.Observed? || pc.StepReserved? {
      BudgetProceeds(pc, move);
    } else if pc.Generating? {
      ReplyProceeds(pc, move);
    } else if pc.Replied? {
      MessageProceeds(pc, move);
    } else if pc.FinalGuarded? || pc.FinalReady? {
      FinalProceeds(pc, move);
    } else if pc.Proposed? || pc.GateRooted? {
      GateProceeds(pc, move);
    } else if pc.GateRead? || pc.GateResolved? {
      ToolProceeds(pc, move);
    } else if pc.Granted? {
      BudgetedProceeds(pc, move);
    } else if pc.ActionReserved? {
      ActionProceeds(pc, move);
    } else if pc.AuthorizedLogged? || pc.IssuedLogged? {
      RecordProceeds(pc, move);
    } else if pc.Recorded? || pc.Resolved? {
      GuardProceeds(pc, move);
    } else if pc.Guarded? || pc.Committable? {
      CommitProceeds(pc, move);
    } else if pc.Spent? {
      SpendProceeds(pc, move);
    } else if pc.Released? {
      ReleaseProceeds(pc, move);
    } else if pc.EvidenceLogged? {
      EvidenceProceeds(pc, move);
    } else if pc.Started? {
      NexusProceeds(pc, move);
    } else {
      CloseProceeds(pc, move);
    }
  }

  // ---------------------------------------------------------------- one fact at a time

  lemma FlowRemembers(pc: Pc, move: Move)
    ensures Remembers(pc, move, Flow(pc, move).pc)
  {
    FlowKeeps(pc, move);
  }

  lemma FlowChecks(pc: Pc, move: Move)
    ensures ChecksInPlace(pc, move, Flow(pc, move).pc)
  {
    FlowKeeps(pc, move);
  }

  lemma FlowTakes(pc: Pc, move: Move)
    ensures TakesInPlace(pc, move, Flow(pc, move))
  {
    FlowKeeps(pc, move);
  }

  lemma FlowEdges(pc: Pc, move: Move)
    ensures Edge(pc, Flow(pc, move))
  {
    FlowProceeds(pc, move);
  }

  lemma FlowOnward(pc: Pc, move: Move)
    ensures Onward(pc, Flow(pc, move).pc)
  {
    FlowProceeds(pc, move);
  }

  lemma FlowDelivers(pc: Pc, move: Move)
    requires !AppendFails(move)
    ensures Delivers(pc, Flow(pc, move))
  {
    FlowProceeds(pc, move);
  }

  // ---------------------------------------------------------------- fates and relays

  lemma ModelMeets(pc: Pc, move: Move)
    requires InModel(pc) && !pc.Generating? && !pc.Replied?
    ensures Meets(pc, Flow(pc, move), FateOf(pc, move))
  {}

  lemma ReplyMeets(pc: Pc, move: Move)
    requires pc.Generating? || pc.Replied?
    ensures Meets(pc, Flow(pc, move), FateOf(pc, move))
  {}

  lemma GateMeets(pc: Pc, move: Move)
    requires pc.Proposed? || pc.GateRooted? || pc.GateRead? || pc.GateResolved?
    ensures Meets(pc, Flow(pc, move), FateOf(pc, move))
  {}

  lemma GrantMeets(pc: Pc, move: Move)
    requires pc.Granted? || pc.ActionReserved? || pc.AuthorizedLogged? || pc.IssuedLogged?
    ensures Meets(pc, Flow(pc, move), FateOf(pc, move))
  {}

  lemma ExecuteMeets(pc: Pc, move: Move)
    requires !InModel(pc) && !InGate(pc)
    ensures Meets(pc, Flow(pc, move), FateOf(pc, move))
  {}

  lemma FlowMeets(pc: Pc, move: Move)
    ensures Meets(pc, Flow(pc, move), FateOf(pc, move))
  {
    if pc.Generating? || pc.Replied? {
      ReplyMeets(pc, move);
    } else if InModel(pc) {
      ModelMeets(pc, move);
    } else if pc.Granted? || pc.ActionReserved? || pc.AuthorizedLogged? || pc.IssuedLogged? {
      GrantMeets(pc, move);
    } else if InGate(pc) {
      GateMeets(pc, move);
    } else {
      ExecuteMeets(pc, move);
    }
  }

  lemma ModelRelays(pc: Pc, move: Move)
    requires InModel(pc) && Flow(pc, move).pc != pc
    ensures Relays(pc, move, Flow(pc, move).pc)
  {}

  lemma GateRelays(pc: Pc, move: Move)
    requires (pc.Proposed? || pc.GateRooted? || pc.GateRead?) && Flow(pc, move).pc != pc
    ensures Relays(pc, move, Flow(pc, move).pc)
  {}

  lemma GrantRelays(pc: Pc, move: Move)
    requires InGate(pc) && !pc.Proposed? && !pc.GateRooted? && !pc.GateRead? && Flow(pc, move).pc != pc
    ensures Relays(pc, move, Flow(pc, move).pc)
  {}

  lemma FlowRelays(pc: Pc, move: Move)
    requires Flow(pc, move).pc != pc
    ensures Relays(pc, move, Flow(pc, move).pc)
  {
    if InModel(pc) {
      ModelRelays(pc, move);
    } else if pc.Proposed? || pc.GateRooted? || pc.GateRead? {
      GateRelays(pc, move);
    } else if InGate(pc) {
      GrantRelays(pc, move);
    }
  }
}
