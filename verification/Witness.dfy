/**
  One complete run, move by move: a call that observes, proposes, is granted, commits, executes and
  closes.  It shows that the commit point is reached, and that the completeness check, which reads
  events and records under two locks (crates/aeon_agent_runtime/src/store.rs:308, 363-368), can fail
  although the store is complete before and after.
 */
module Witness {
  import opened Basics
  import opened Canonical
  import opened Authority
  import opened Validation
  import opened Kernel
  import opened Chain
  import opened Preservation
  import opened Registry
  import opened MissionStore
  import opened Execution
  import opened Protocol
  import opened ControlFlow
  import opened Attempts
  import opened Completeness

  // ---------------------------------------------------------------- one mission, one lease, one tool

  const AGENT: AgentId := 3
  const ROOT: LeaseId := 4
  const KEY: Key := 5
  const CONTEXT: Digest := 9
  const RECORD: AuthorizationId := 11
  const END: Time := 1000
  const TOOL := BoundTool(7, 70)
  const CUSTODY := Custody(KEY, KEY, KEY)
  const MISSION := Mission(1, [7], [], 0, 0, true, END, 1)
  const MANIFEST := Manifest(1, 0, [TOOL], [], 0, [TOOL])
  const REQUEST := RootRequest(MISSION, AGENT, AuthoritySet([]), AuthoritySet([]), MANIFEST, CONTEXT, END)

  const IDENTITY_BODY := IdentityBody(AGENT, KEY, KEY, None, KEY, 0)
  const IDENTITY := IdentityCert(IDENTITY_BODY, Signed(KEY, IDENTITY_BODY))
  const LEASE_BODY := LeaseBody(
    ROOT, 1, AGENT, None, IDENTITY, IDENTITY, KEY, None, None, 0, 0, AuthoritySet([]), AuthoritySet([]), MANIFEST,
    CONTEXT, 0, END)
  const LEASE := LeaseCert(LEASE_BODY, Signed(KEY, LEASE_BODY))
  const ENTRY := LeaseEntry(LEASE, ActiveRecord(ROOT), MANIFEST)
  const KERNEL := State(
    MISSION, ROOT, map[AGENT := IDENTITY], map[AGENT := CUSTODY], map[ROOT := ENTRY],
    [Event(1, ROOT, None, IdentityRegistered, 0), Event(2, ROOT, None, EventKind.LeaseIssued, 0)])

  lemma ManifestIsCanonical()
    ensures ManifestDigest(MANIFEST) == Ok(MANIFEST)
  {
    assert SortBy(ToolLess, [TOOL][1..]) == [];
    assert SortBy(ToolLess, [TOOL]) == [TOOL];
    assert CanonicalCapabilities([]) == [];
  }

  lemma KernelStarts()
    ensures Bootstrap(REQUEST, CUSTODY, 0, ROOT) == Ok(KERNEL)
  {
    ManifestIsCanonical();
    assert ValidateRootRequest(REQUEST, 0).Ok?;
    var s := Bootstrap(REQUEST, CUSTODY, 0, ROOT).value;
    assert s.leases == KERNEL.leases && s.events == KERNEL.events;
  }

  // ---------------------------------------------------------------- what the checks answer

  const VALIDATED := ValidatedAuthority(ROOT, END, IDENTITY, MANIFEST, CONTEXT, [LEASE.Reference()], [(ROOT, 0)])
  const OBSERVATION := Observation(ROOT, ENTRY, VALIDATED)
  const PROPOSAL := Proposal(7, 13)
  const ACTION := ActionBody(1, IDENTITY, ROOT, 0, 0, CONTEXT, 7, 70, 13, RECORD, 1, 0, 0, END)
  const AUTH := Authorization(PROPOSAL, 70, [], MANIFEST, ActionCert(ACTION, Signed(KEY, ACTION)), [(ROOT, 0)])

  lemma ChainIsValid()
    ensures ValidateChain(KERNEL, ROOT, Some(0), MANIFEST, 0) == Ok(VALIDATED)
  {
    KernelStarts();
    BootstrapInv(REQUEST, CUSTODY, 0, ROOT);
    ManifestIsCanonical();
    ChainCollapses(KERNEL, ROOT, Some(0), MANIFEST, 0);
    assert Path(LEASE) == [ROOT];
    assert Reversed([ROOT]) == [ROOT];
    var v := ValidateChain(KERNEL, ROOT, Some(0), MANIFEST, 0).value;
    assert v.chain == [LEASE.Reference()] && v.observedGenerations == [(ROOT, 0)];
  }

  lemma ObservationPasses()
    ensures ObserveModelAuthority(KERNEL, AGENT, ROOT, ENTRY, CONTEXT, 0) == Ok(OBSERVATION)
  {
    ChainIsValid();
  }

  lemma RefreshIsIdentity()
    ensures ResolveWithManifest([TOOL], 7, MANIFEST) == Ok((TOOL, MANIFEST))
  {
    assert ToolIds([TOOL]) == [7];
    assert [TOOL][1..] == [] && [7][1..] == [];
    assert Snapshot([TOOL], [7][1..]) == Ok([]);
    assert Find([TOOL], 7) == Some(TOOL) && [TOOL] + [] == [TOOL];
    assert Snapshot([TOOL], [7]) == Ok([TOOL]);
    assert SortBy(EntryLess, [TOOL]) == [TOOL];
  }

  lemma GatePasses()
    ensures GateSnapshot(KERNEL, 7, ROOT, 0) == Ok(ENTRY)
    ensures ResolveAtGate([TOOL], 7, ENTRY) == Ok((TOOL, MANIFEST))
    ensures ResolveForExecution([TOOL], AUTH) == Ok(MANIFEST)
  {
    RefreshIsIdentity();
  }

  lemma GrantPasses()
    ensures Ok(AUTH) ==
            Authorize(KERNEL, Binding(AGENT, CUSTODY), PROPOSAL, TOOL, MANIFEST, CONTEXT, ROOT, ENTRY, 0,
                      Ok(()), [], RECORD)
  {
    ChainIsValid();
  }

  lemma CommitPasses()
    ensures CommitCheck(KERNEL, CONTEXT, KEY, AUTH, MANIFEST, 0, 0) == Ok(END)
  {
    ChainIsValid();
    ManifestIsCanonical();
  }

  // ---------------------------------------------------------------- the script

  /** The next line of the script. */
  function NextLine(pc: Pc): Pc {
    if pc.Idle? then ContextRead(CONTEXT)
    else if pc.ContextRead? then RootRead(ROOT, CONTEXT)
    else if pc.RootRead? then SnapshotRead(ROOT, ENTRY, CONTEXT)
    else if pc.SnapshotRead? then Observed(OBSERVATION)
    else if pc.Observed? then StepReserved(OBSERVATION)
    else if pc.StepReserved? then Generating(OBSERVATION)
    else if pc.Generating? then Replied(OBSERVATION)
    else if pc.Replied? then Proposed(PROPOSAL, CONTEXT)
    else if pc.Proposed? then GateRooted(PROPOSAL, CONTEXT, ROOT)
    else if pc.GateRooted? then GateRead(PROPOSAL, CONTEXT, ROOT, ENTRY, 0)
    else if pc.GateRead? then GateResolved(PROPOSAL, CONTEXT, ROOT, ENTRY, 0, TOOL, MANIFEST)
    else if pc.GateResolved? then Granted(AUTH)
    else if pc.Granted? then ActionReserved(AUTH)
    else if pc.ActionReserved? then AuthorizedLogged(AUTH)
    else if pc.AuthorizedLogged? then IssuedLogged(AUTH)
    else if pc.IssuedLogged? then Recorded(AUTH)
    else if pc.Recorded? then Resolved(AUTH, MANIFEST)
    else if pc.Resolved? then Guarded(AUTH, MANIFEST)
    else if pc.Guarded? then Committable(AUTH, 0, 0, END)
    else if pc.Committable? then Spent(AUTH)
    else if pc.Spent? then Released(AUTH)
    else if pc.Released? then EvidenceLogged(AUTH)
    else if pc.EvidenceLogged? then Started(AUTH)
    else pc
  }

  /** A line of the script, with the values the checks have returned so far. */
  predicate OnScript(pc: Pc) {
    || pc == Idle
    || pc == ContextRead(CONTEXT)
    || pc == RootRead(ROOT, CONTEXT)
    || pc == SnapshotRead(ROOT, ENTRY, CONTEXT)
    || pc == Observed(OBSERVATION)
    || pc == StepReserved(OBSERVATION)
    || pc == Generating(OBSERVATION)
    || pc == Replied(OBSERVATION)
    || pc == Proposed(PROPOSAL, CONTEXT)
    || pc == GateRooted(PROPOSAL, CONTEXT, ROOT)
    || pc == GateRead(PROPOSAL, CONTEXT, ROOT, ENTRY, 0)
    || pc == GateResolved(PROPOSAL, CONTEXT, ROOT, ENTRY, 0, TOOL, MANIFEST)
    || pc == Granted(AUTH)
    || pc == ActionReserved(AUTH)
    || pc == AuthorizedLogged(AUTH)
    || pc == IssuedLogged(AUTH)
    || pc == Recorded(AUTH)
    || pc == Resolved(AUTH, MANIFEST)
    || pc == Guarded(AUTH, MANIFEST)
    || pc == Committable(AUTH, 0, 0, END)
    || pc == Spent(AUTH)
    || pc == Released(AUTH)
    || pc == EvidenceLogged(AUTH)
    || pc == Started(AUTH)
  }

  const CALL: TaskId := 0

  /** The only task is at `pc`, has done exactly what lies behind it, and everything else is as at the start. */
  predicate Stage(sys: Sys, pc: Pc) {
    && sys.kernel == KERNEL && sys.binding == Binding(AGENT, CUSTODY) && sys.tools == [TOOL] && sys.context == CONTEXT
    && Readable(sys) && sys.maxSteps == 1
    && sys.tasks.Keys == {CALL} && sys.tasks[CALL].pc == pc
    && var k, m := sys.tasks[CALL], Milestone(pc);
       && Flags(k, m) && k.log == SPINE[..Lines(pc)]
       && (m < 1 ==> sys.steps == 0)
       && (m < 3 ==> sys.actions == 0)
       && (if m < 2 then sys.store.nextAttempt == 0 else k.attempt == Some(1))
       && (m < 4 ==> sys.store.records == [])
       && (m == 4 ==> sys.store.records == [NewRecord(RECORD)])
  }

  /** One edge of the control flow leads from stage to stage. */
  lemma StageStep(sys: Sys, pc: Pc, o: Outcome)
    requires Stage(sys, pc) && Edge(pc, o) && !Ended(pc) && !Ended(o.pc)
    requires o.act.InsertRecord? ==> o.act.inserted.records == [NewRecord(RECORD)]
    ensures Stage(Perform(sys, CALL, o), o.pc)
  {
    if Writes(o.act) { SpineGrows(Lines(pc)); }
  }

  /** The move that leads to the next line of the script is allowed and judged so. */
  predicate Leads(sys: Sys, move: Move, next: Pc)
    requires CALL in sys.tasks
  {
    && Enabled(sys, sys.tasks[CALL], move) && Judged(sys, sys.tasks[CALL], move)
    && Flow(sys.tasks[CALL].pc, move).pc == next
    && (Flow(sys.tasks[CALL].pc, move).act.InsertRecord? ==>
          Flow(sys.tasks[CALL].pc, move).act.inserted.records == [NewRecord(RECORD)])
  }

  lemma LeadsToObservation(sys: Sys, pc: Pc) returns (move: Move)
    requires Stage(sys, pc) && OnScript(pc) && (pc.Idle? || pc.ContextRead? || pc.RootRead? || pc.SnapshotRead?)
    ensures Leads(sys, move, NextLine(pc))
  {
    if pc.Idle? {
      move := ReadContext(CONTEXT);
    } else if pc.ContextRead? {
      move := ReadRoot(ROOT);
    } else if pc.RootRead? {
      move := ReadSnapshot(Some(ENTRY));
    } else if pc.SnapshotRead? {
      ObservationPasses();
      move := Observe(0, Ok(OBSERVATION));
    }
  }

  lemma LeadsToModel(sys: Sys, pc: Pc) returns (move: Move)
    requires Stage(sys, pc) && OnScript(pc) && (pc.Observed? || pc.StepReserved?)
    ensures Leads(sys, move, NextLine(pc))
  {
    if pc.Observed? {
      move := ReserveStep(true);
    } else if pc.StepReserved? {
      move := CallModel;
    }
  }

  lemma LeadsToProposal(sys: Sys, pc: Pc) returns (move: Move)
    requires Stage(sys, pc) && OnScript(pc) && (pc.Generating? || pc.Replied?)
    ensures Leads(sys, move, NextLine(pc))
  {
    if pc.Generating? {
      move := Accept(true);
    } else if pc.Replied? {
      move := Propose(PROPOSAL, true);
    }
  }

  lemma LeadsToGate(sys: Sys, pc: Pc) returns (move: Move)
    requires Stage(sys, pc) && OnScript(pc) && (pc.Proposed? || pc.GateRooted?)
    ensures Leads(sys, move, NextLine(pc))
  {
    if pc.Proposed? {
      move := ReadGateRoot(ROOT);
    } else if pc.GateRooted? {
      GatePasses();
      move := ReadGateSnapshot(0, Ok(ENTRY));
    }
  }

  lemma LeadsToGrant(sys: Sys, pc: Pc) returns (move: Move)
    requires Stage(sys, pc) && OnScript(pc) && (pc.GateRead? || pc.GateResolved?)
    ensures Leads(sys, move, NextLine(pc))
  {
    if pc.GateRead? {
      GatePasses();
      move := ResolveTool(Ok((TOOL, MANIFEST)));
    } else if pc.GateResolved? {
      GrantPasses();
      move := Grant(Ok(()), [], RECORD, Ok(AUTH));
    }
  }

  lemma LeadsToAuthorized(sys: Sys, pc: Pc) returns (move: Move)
    requires Stage(sys, pc) && OnScript(pc) && (pc.Granted? || pc.ActionReserved?)
    ensures Leads(sys, move, NextLine(pc))
  {
    if pc.Granted? {
      move := ReserveAction(true);
    } else if pc.ActionReserved? {
      move := LogAuthorized(true);
    }
  }

  lemma LeadsToRecord(sys: Sys, pc: Pc) returns (move: Move)
    requires Stage(sys, pc) && OnScript(pc) && (pc.AuthorizedLogged? || pc.IssuedLogged?)
    ensures Leads(sys, move, NextLine(pc))
  {
    if pc.AuthorizedLogged? {
      move := LogIssued(true);
    } else if pc.IssuedLogged? {
      move := Record(Insert(sys.store, NewRecord(RECORD), Some(1)));
    }
  }

  lemma LeadsToGuard(sys: Sys, pc: Pc) returns (move: Move)
    requires Stage(sys, pc) && OnScript(pc) && (pc.Recorded? || pc.Resolved?)
    ensures Leads(sys, move, NextLine(pc))
  {
    if pc.Recorded? {
      GatePasses();
      move := Resolve(Ok(MANIFEST));
    } else if pc.Resolved? {
      move := Guard;
    }
  }

  lemma LeadsToCommit(sys: Sys, pc: Pc) returns (move: Move)
    requires Stage(sys, pc) && OnScript(pc) && pc.Guarded?
    ensures Leads(sys, move, NextLine(pc))
  {
    CommitPasses();
    move := Check(0, 0, Ok(END));
  }

  lemma LeadsToSpent(sys: Sys, pc: Pc) returns (move: Move)
    requires Stage(sys, pc) && OnScript(pc) && (pc.Committable? || pc.Spent?)
    ensures Leads(sys, move, NextLine(pc))
  {
    if pc.Committable? {
      move := ConsumeRecord(Ok(()), Consume(sys.store, RECORD, 0, Ok(())));
    } else if pc.Spent? {
      move := Release;
    }
  }

  lemma LeadsToStart(sys: Sys, pc: Pc) returns (move: Move)
    requires Stage(sys, pc) && OnScript(pc) && (pc.Released? || pc.EvidenceLogged?)
    ensures Leads(sys, move, NextLine(pc))
  {
    if pc.Released? {
      move := LogConsumed(true);
    } else if pc.EvidenceLogged? {
      move := LogStarted(true);
    }
  }

  lemma LeadsOn(sys: Sys, pc: Pc) returns (move: Move)
    requires Stage(sys, pc) && OnScript(pc) && !pc.Started?
    ensures Leads(sys, move, NextLine(pc))
  {
    if pc.Idle? || pc.ContextRead? || pc.RootRead? || pc.SnapshotRead? {
      move := LeadsToObservation(sys, pc);
    } else if pc.Observed? || pc.StepReserved? {
      move := LeadsToModel(sys, pc);
    } else if pc.Generating? || pc.Replied? {
      move := LeadsToProposal(sys, pc);
    } else if pc.Proposed? || pc.GateRooted? {
      move := LeadsToGate(sys, pc);
    } else if pc.GateRead? || pc.GateResolved? {
      move := LeadsToGrant(sys, pc);
    } else if pc.Granted? || pc.ActionReserved? {
      move := LeadsToAuthorized(sys, pc);
    } else if pc.AuthorizedLogged? || pc.IssuedLogged? {
      move := LeadsToRecord(sys, pc);
    } else if pc.Recorded? || pc.Resolved? {
      move := LeadsToGuard(sys, pc);
    } else if pc.Guarded? {
      move := LeadsToCommit(sys, pc);
    } else if pc.Committable? || pc.Spent? {
      move := LeadsToSpent(sys, pc);
    } else if pc.Released? || pc.EvidenceLogged? {
      move := LeadsToStart(sys, pc);
    }
  }

  // ---------------------------------------------------------------- playing the script

  datatype Journey = Journey(trace: seq<Sys>, labels: seq<Label>) {
    function Last(): Sys
      requires trace != []
    {
      trace[|trace| - 1]
    }
  }

  const START := Sys(
    KERNEL, Binding(AGENT, CUSTODY), Lock({}, None), [TOOL], CONTEXT, FoundedStore(1), 1, 0, 0, 0, 0, map[])

  ghost predicate Runs(j: Journey) {
    SysRun(j.trace, j.labels) && j.trace != [] && j.trace[0] == START
  }

  /** A run goes on by any judged step of its last state. */
  lemma RunGrows(j: Journey, event: Label) returns (j': Journey)
    requires Runs(j) && !event.Control?
    requires event.TaskStep? && event.task in j.Last().tasks ==>
              Judged(j.Last(), j.Last().tasks[event.task], event.move)
    ensures Runs(j') && j'.Last() == Next(j.Last(), event)
  {
    j' := Journey(j.trace + [Next(j.Last(), event)], j.labels + [event]);
    forall i | 0 <= i < |j'.trace| ensures SysLinked(j'.trace, j'.labels, i) && Faithful(j'.trace, j'.labels, i) {
      if i < |j.trace| { assert SysLinked(j.trace, j.labels, i) && Faithful(j.trace, j.labels, i); }
    }
  }

  lemma ScriptGoesOn(pc: Pc)
    requires OnScript(pc) && !pc.Started?
    ensures OnScript(NextLine(pc)) && !Ended(NextLine(pc)) && Left(NextLine(pc)) < Left(pc)
  {
    if InModel(pc) { ModelGoesOn(pc); } else if InGate(pc) { GateGoesOn(pc); } else { ExecuteGoesOn(pc); }
  }

  lemma ModelGoesOn(pc: Pc)
    requires OnScript(pc) && InModel(pc)
    ensures OnScript(NextLine(pc)) && !Ended(NextLine(pc)) && Left(NextLine(pc)) < Left(pc)
  {}

  lemma GateGoesOn(pc: Pc)
    requires OnScript(pc) && InGate(pc)
    ensures OnScript(NextLine(pc)) && !Ended(NextLine(pc)) && Left(NextLine(pc)) < Left(pc)
  {}

  lemma ExecuteGoesOn(pc: Pc)
    requires OnScript(pc) && !InModel(pc) && !InGate(pc) && !pc.Started?
    ensures OnScript(NextLine(pc)) && !Ended(NextLine(pc)) && Left(NextLine(pc)) < Left(pc)
  {}

  lemma NextStage(sys: Sys, pc: Pc) returns (move: Move)
    requires Stage(sys, pc) && OnScript(pc) && !pc.Started?
    ensures Judged(sys, sys.tasks[CALL], move) && Stage(Next(sys, TaskStep(CALL, move)), NextLine(pc))
  {
    move := LeadsOn(sys, pc);
    ScriptGoesOn(pc);
    FlowEdges(pc, move);
    StageStep(sys, pc, Flow(pc, move));
  }

  lemma {:induction false} PlayScript(j: Journey, pc: Pc) returns (j': Journey)
    requires Runs(j) && Stage(j.Last(), pc) && OnScript(pc)
    ensures Runs(j') && Stage(j'.Last(), Started(AUTH))
    decreases Left(pc)
  {
    if pc.Started? {
      j' := j;
    } else {
      var move := NextStage(j.Last(), pc);
      ScriptGoesOn(pc);
      var k := RunGrows(j, TaskStep(CALL, move));
      j' := PlayScript(k, NextLine(pc));
    }
  }

  lemma Begin() returns (j: Journey)
    ensures Runs(j) && Stage(j.Last(), Idle)
  {
    KernelStarts();
    assert Bootstrapped(KERNEL);
    j := Journey([START], []);
    assert SysLinked([START], [], 0) && Faithful([START], [], 0);
    j := RunGrows(j, Spawn(CALL));
    assert SPINE[..0] == [];
  }

  /** The only task has executed and closed its attempt. */
  predicate Executed(sys: Sys) {
    && sys.tasks.Keys == {CALL}
    && var k := sys.tasks[CALL]; k.ran && k.spent && k.log == SPINE + [ExecutionCompleted]
  }

  predicate ClosingExecution(sys: Sys) {
    && sys.tasks.Keys == {CALL}
    && var k := sys.tasks[CALL]; k.pc == Closing(ExecutionCompleted) && k.ran && k.spent && k.log == SPINE
  }

  lemma Executes(sys: Sys)
    requires Stage(sys, Started(AUTH))
    ensures Judged(sys, sys.tasks[CALL], RunNexus(Successful))
    ensures ClosingExecution(Next(sys, TaskStep(CALL, RunNexus(Successful))))
  {
    assert SPINE[..6] == SPINE;
  }

  lemma ClosesAttempt(sys: Sys)
    requires ClosingExecution(sys)
    ensures Judged(sys, sys.tasks[CALL], Close(true)) && Executed(Next(sys, TaskStep(CALL, Close(true))))
  {}

  /** There is a run in which a call is granted, commits, executes in Nexus and closes its attempt. */
  lemma ExecutingRun() returns (j: Journey)
    ensures Runs(j) && Executed(j.Last())
  {
    j := Begin();
    j := PlayScript(j, Idle);
    Executes(j.Last());
    j := RunGrows(j, TaskStep(CALL, RunNexus(Successful)));
    ClosesAttempt(j.Last());
    j := RunGrows(j, TaskStep(CALL, Close(true)));
  }

  /** Events read before this call and records read after it: the store is complete at both moments, and
      the check that reads across them fails. */
  lemma SplitReadFailsSpuriously() returns (trace: seq<Sys>, labels: seq<Label>, i: nat, j: nat)
    ensures SysRun(trace, labels) && i < j < |trace|
    ensures Complete(trace[i].store) && Complete(trace[j].store)
    ensures !Complete(SplitRead(trace[i].store, trace[j].store))
  {
    var run := ExecutingRun();
    trace, labels, i, j := run.trace, run.labels, 0, |run.labels|;
    CompletenessExact(trace, labels, i);
    CompletenessExact(trace, labels, j);
    SplitReadExact(trace, labels, i, j);
    assert Closed(trace[j].tasks[CALL]) && !Unrecorded(trace[j].tasks[CALL]) by {
      assert trace[j].tasks[CALL].log[4] == AuthorizationConsumed;
    }
  }
}
