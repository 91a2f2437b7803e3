/**
  Budgets over whole interleaved runs: no execution without a consumed record, no record without an
  action taken from the mission's budget, no model call without a step
  (crates/aeon_agent_runtime/src/supervisor.rs:232-342, 614-626).
 */
module Budgets {
  import opened MissionStore
  import opened Protocol
  import opened ControlFlow
  import opened Attempts
  import opened EvidenceRuns

  predicate TookStep(k: Task) { k.stepTaken }
  predicate CalledModel(k: Task) { k.attempt.Some? }
  predicate TookAction(k: Task) { k.actionTaken }
  predicate HasRecord(k: Task) { k.record.Some? }
  predicate SpentRecord(k: Task) { k.spent }
  predicate RanNexus(k: Task) { k.ran }

  function Who(tasks: TaskMap, p: Task -> bool): set<TaskId> {
    set t | t in tasks && p(tasks[t])
  }

  function ConsumedRecords(records: seq<AuthorizationRecord>): set<int> {
    set i | 0 <= i < |records| && records[i].state.Consumed?
  }

  ghost predicate BudgetInv(sys: Sys) {
    && sys.steps == |Who(sys.tasks, TookStep)| <= sys.maxSteps
    && sys.modelCalls == |Who(sys.tasks, CalledModel)|
    && sys.actions == |Who(sys.tasks, TookAction)| <= sys.kernel.mission.maxActions
    && |sys.store.records| == |Who(sys.tasks, HasRecord)|
    && |ConsumedRecords(sys.store.records)| == |Who(sys.tasks, SpentRecord)|
    && sys.nexusRuns == |Who(sys.tasks, RanNexus)|
  }

  lemma WhoAfter(tasks: TaskMap, t: TaskId, k': Task, p: Task -> bool)
    requires t in tasks && p(tasks[t]) ==> p(k')
    ensures |Who(tasks[t := k'], p)| == |Who(tasks, p)| + if p(k') && !(t in tasks && p(tasks[t])) then 1 else 0
  {
    var a, b := Who(tasks, p), Who(tasks[t := k'], p);
    if p(k') { assert b == a + {t}; } else { assert b == a; }
  }

  lemma WhoWithin(tasks: TaskMap, p: Task -> bool, q: Task -> bool)
    requires forall t :: t in tasks && p(tasks[t]) ==> q(tasks[t])
    ensures |Who(tasks, p)| <= |Who(tasks, q)|
  {
    forall t | t in Who(tasks, p) ensures t in Who(tasks, q) {
      assert p(tasks[t]);
    }
    SubsetSize(Who(tasks, p), Who(tasks, q));
  }

  lemma SubsetSize<T>(a: set<T>, b: set<T>)
    requires a <= b
    ensures |a| <= |b|
  {
    assert b == a + (b - a);
  }

  lemma OneMoreConsumed(records: seq<AuthorizationRecord>, i: nat, r: AuthorizationRecord)
    requires i < |records| && !records[i].state.Consumed? && r.state.Consumed?
    ensures |ConsumedRecords(records[i := r])| == |ConsumedRecords(records)| + 1
  {
    assert ConsumedRecords(records[i := r]) == ConsumedRecords(records) + {i};
  }

  lemma NoMoreConsumed(records: seq<AuthorizationRecord>, r: AuthorizationRecord)
    requires !r.state.Consumed?
    ensures ConsumedRecords(records + [r]) == ConsumedRecords(records)
  {}

  lemma ConsumedAfter(st: Store, k: Task, o: Outcome)
    requires RecordVerdict(st, k, o)
    ensures var st' := StoreAfter(st, o.act, k.attempt);
            && |ConsumedRecords(st'.records)| == |ConsumedRecords(st.records)| + (if o.act.SpendRecord? then 1 else 0)
            && |st'.records| == |st.records| + (if o.act.InsertRecord? then 1 else 0)
  {
    if o.act.SpendRecord? {
      var i := FirstRecord(st.records, k.pc.auth.Record());
      OneMoreConsumed(st.records, i, Spend(st.records[i]));
    } else if o.act.InsertRecord? {
      NoMoreConsumed(st.records, NewRecord(k.pc.auth.Record()));
    }
  }

  /** A flag that one action raises, and raises once, counts those actions. */
  lemma CountAfter(tasks: TaskMap, t: TaskId, k': Task, p: Task -> bool, raised: bool)
    requires t in tasks && (p(k') <==> p(tasks[t]) || raised) && !(p(tasks[t]) && raised)
    ensures |Who(tasks[t := k'], p)| == |Who(tasks, p)| + (if raised then 1 else 0)
  {
    WhoAfter(tasks, t, k', p);
  }

  lemma StepCounts(tasks: TaskMap, t: TaskId, o: Outcome, draw: AttemptId, slot: nat)
    requires t in tasks && Shape(tasks[t]) && Edge(tasks[t].pc, o) && Shape(After(tasks[t], o, draw, slot))
    ensures var tasks' := tasks[t := After(tasks[t], o, draw, slot)];
            && |Who(tasks', TookStep)| == |Who(tasks, TookStep)| + (if o.act.TakeStep? then 1 else 0)
            && |Who(tasks', CalledModel)| == |Who(tasks, CalledModel)| + (if o.act.StartAttempt? then 1 else 0)
  {
    PassesOnce(tasks[t], o, draw, slot);
    CountAfter(tasks, t, After(tasks[t], o, draw, slot), TookStep, o.act.TakeStep?);
    CountAfter(tasks, t, After(tasks[t], o, draw, slot), CalledModel, o.act.StartAttempt?);
  }

  lemma ActionCounts(tasks: TaskMap, t: TaskId, o: Outcome, draw: AttemptId, slot: nat)
    requires t in tasks && Shape(tasks[t]) && Edge(tasks[t].pc, o) && Shape(After(tasks[t], o, draw, slot))
    ensures var tasks' := tasks[t := After(tasks[t], o, draw, slot)];
            && |Who(tasks', TookAction)| == |Who(tasks, TookAction)| + (if o.act.TakeAction? then 1 else 0)
            && |Who(tasks', HasRecord)| == |Who(tasks, HasRecord)| + (if o.act.InsertRecord? then 1 else 0)
  {
    PassesOnce(tasks[t], o, draw, slot);
    CountAfter(tasks, t, After(tasks[t], o, draw, slot), TookAction, o.act.TakeAction?);
    CountAfter(tasks, t, After(tasks[t], o, draw, slot), HasRecord, o.act.InsertRecord?);
  }

  lemma SpendCounts(tasks: TaskMap, t: TaskId, o: Outcome, draw: AttemptId, slot: nat)
    requires t in tasks && Shape(tasks[t]) && Edge(tasks[t].pc, o) && Shape(After(tasks[t], o, draw, slot))
    ensures var tasks' := tasks[t := After(tasks[t], o, draw, slot)];
            && |Who(tasks', SpentRecord)| == |Who(tasks, SpentRecord)| + (if o.act.SpendRecord? then 1 else 0)
            && |Who(tasks', RanNexus)| == |Who(tasks, RanNexus)| + (if o.act.Execute? then 1 else 0)
  {
    PassesOnce(tasks[t], o, draw, slot);
    CountAfter(tasks, t, After(tasks[t], o, draw, slot), SpentRecord, o.act.SpendRecord?);
    CountAfter(tasks, t, After(tasks[t], o, draw, slot), RanNexus, o.act.Execute?);
  }

  /** What an action does to the counters, the ledger and the tasks. */
  lemma PerformCounts(sys: Sys, t: TaskId, o: Outcome)
    requires t in sys.tasks
    ensures var sys' := Perform(sys, t, o);
            && sys'.steps == Tick(sys.steps, o.act.TakeStep?) && sys'.actions == Tick(sys.actions, o.act.TakeAction?)
            && sys'.modelCalls == Tick(sys.modelCalls, o.act.StartAttempt?)
            && sys'.nexusRuns == Tick(sys.nexusRuns, o.act.Execute?)
            && sys'.store == StoreAfter(sys.store, o.act, sys.tasks[t].attempt)
            && sys'.tasks == sys.tasks[t := After(sys.tasks[t], o, sys.store.nextAttempt + 1, |sys.store.records|)]
            && sys'.maxSteps == sys.maxSteps && sys'.kernel == sys.kernel
  {}

  lemma PerformKeepsBudget(sys: Sys, t: TaskId, o: Outcome)
    requires BudgetInv(sys) && t in sys.tasks && Shape(sys.tasks[t]) && Edge(sys.tasks[t].pc, o)
    requires RecordVerdict(sys.store, sys.tasks[t], o)
    requires Shape(After(sys.tasks[t], o, sys.store.nextAttempt + 1, |sys.store.records|))
    requires o.act.TakeStep? ==> sys.steps < sys.maxSteps
    requires o.act.TakeAction? ==> sys.actions < sys.kernel.mission.maxActions
    ensures BudgetInv(Perform(sys, t, o))
  {
    StepCounts(sys.tasks, t, o, sys.store.nextAttempt + 1, |sys.store.records|);
    ActionCounts(sys.tasks, t, o, sys.store.nextAttempt + 1, |sys.store.records|);
    SpendCounts(sys.tasks, t, o, sys.store.nextAttempt + 1, |sys.store.records|);
    ConsumedAfter(sys.store, sys.tasks[t], o);
    PerformCounts(sys, t, o);
    CountsKeepBudget(sys, Perform(sys, t, o), o.act);
  }

  lemma CountsKeepBudget(sys: Sys, sys': Sys, act: Act)
    requires BudgetInv(sys) && sys'.maxSteps == sys.maxSteps && sys'.kernel == sys.kernel
    requires sys'.steps == Tick(sys.steps, act.TakeStep?) && sys'.actions == Tick(sys.actions, act.TakeAction?)
    requires sys'.modelCalls == Tick(sys.modelCalls, act.StartAttempt?)
    requires sys'.nexusRuns == Tick(sys.nexusRuns, act.Execute?)
    requires |Who(sys'.tasks, TookStep)| == |Who(sys.tasks, TookStep)| + (if act.TakeStep? then 1 else 0)
    requires |Who(sys'.tasks, CalledModel)| == |Who(sys.tasks, CalledModel)| + (if act.StartAttempt? then 1 else 0)
    requires |Who(sys'.tasks, TookAction)| == |Who(sys.tasks, TookAction)| + (if act.TakeAction? then 1 else 0)
    requires |Who(sys'.tasks, HasRecord)| == |Who(sys.tasks, HasRecord)| + (if act.InsertRecord? then 1 else 0)
    requires |Who(sys'.tasks, SpentRecord)| == |Who(sys.tasks, SpentRecord)| + (if act.SpendRecord? then 1 else 0)
    requires |Who(sys'.tasks, RanNexus)| == |Who(sys.tasks, RanNexus)| + (if act.Execute? then 1 else 0)
    requires |sys'.store.records| == |sys.store.records| + (if act.InsertRecord? then 1 else 0)
    requires |ConsumedRecords(sys'.store.records)| ==
             |ConsumedRecords(sys.store.records)| + (if act.SpendRecord? then 1 else 0)
    requires act.TakeStep? ==> sys.steps < sys.maxSteps
    requires act.TakeAction? ==> sys.actions < sys.kernel.mission.maxActions
    ensures BudgetInv(sys')
  {}

  /** A budget is only taken while some of it is left. */
  lemma TakesWithin(sys: Sys, k: Task, move: Move, o: Outcome)
    requires Enabled(sys, k, move) && TakesInPlace(k.pc, move, o)
    ensures o.act.TakeStep? ==> sys.steps < sys.maxSteps
    ensures o.act.TakeAction? ==> sys.actions < sys.kernel.mission.maxActions
  {}

  lemma TaskStepKeepsBudget(sys: Sys, t: TaskId, move: Move)
    requires BudgetInv(sys) && t in sys.tasks && Shape(sys.tasks[t]) && Enabled(sys, sys.tasks[t], move)
    ensures BudgetInv(Perform(sys, t, Flow(sys.tasks[t].pc, move)))
  {
    var k := sys.tasks[t];
    MoveShape(k, move, sys.store.nextAttempt + 1, |sys.store.records|);
    MoveVerdict(sys, k, move);
    FlowTakes(k.pc, move);
    TakesWithin(sys, k, move, Flow(k.pc, move));
    PerformKeepsBudget(sys, t, Flow(k.pc, move));
  }

  lemma SpawnKeepsBudget(sys: Sys, t: TaskId)
    requires BudgetInv(sys) && t !in sys.tasks
    ensures BudgetInv(sys.(tasks := sys.tasks[t := NEW_TASK]))
  {
    WhoAfter(sys.tasks, t, NEW_TASK, TookStep);
    WhoAfter(sys.tasks, t, NEW_TASK, CalledModel);
    WhoAfter(sys.tasks, t, NEW_TASK, TookAction);
    WhoAfter(sys.tasks, t, NEW_TASK, HasRecord);
    WhoAfter(sys.tasks, t, NEW_TASK, SpentRecord);
    WhoAfter(sys.tasks, t, NEW_TASK, RanNexus);
  }

  lemma NextKeepsBudget(sys: Sys, event: Label)
    requires BudgetInv(sys) && EvidenceInv(sys)
    ensures BudgetInv(Next(sys, event))
  {
    if event.TaskStep? && event.task in sys.tasks {
      assert TaskOk(sys.store, sys.tasks[event.task]);
      if Enabled(sys, sys.tasks[event.task], event.move) { TaskStepKeepsBudget(sys, event.task, event.move); }
    } else if event.Spawn? && event.task !in sys.tasks {
      SpawnKeepsBudget(sys, event.task);
    }
  }

  lemma MissionKept(sys: Sys, event: Label)
    ensures Next(sys, event).kernel.mission == sys.kernel.mission && Next(sys, event).maxSteps == sys.maxSteps
  {}

  lemma {:induction false} RunKeepsBudget(trace: seq<Sys>, labels: seq<Label>, i: nat)
    requires Interleaving(trace, labels) && i < |trace|
    ensures BudgetInv(trace[i])
    ensures trace[i].maxSteps == trace[0].maxSteps && trace[i].kernel.mission == trace[0].kernel.mission
    decreases i
  {
    assert SysLinked(trace, labels, i);
    if i == 0 {
      EmptyBudget(trace[0]);
    } else {
      RunKeepsBudget(trace, labels, i - 1);
      RunKeepsEvidence(trace, labels, i - 1);
      MissionKept(trace[i - 1], labels[i - 1]);
      NextKeepsBudget(trace[i - 1], labels[i - 1]);
    }
  }

  lemma EmptyBudget(sys: Sys)
    requires Init(sys)
    ensures BudgetInv(sys)
  {
    assert ConsumedRecords([]) == {};
  }

  /** At every point of every interleaving: executions, consumed records, records, actions and the
      mission's budget form a chain, and so do model calls, steps and the step budget. */
  lemma BudgetsHold(trace: seq<Sys>, labels: seq<Label>, i: nat)
    requires Interleaving(trace, labels) && i < |trace|
    ensures var sys := trace[i];
            && sys.nexusRuns <= |ConsumedRecords(sys.store.records)| <= |sys.store.records| <= sys.actions
            && sys.actions <= trace[0].kernel.mission.maxActions
            && sys.modelCalls <= sys.steps <= trace[0].maxSteps
  {
    RunKeepsBudget(trace, labels, i);
    RunKeepsEvidence(trace, labels, i);
    FlagsNest(trace[i].store, trace[i].tasks);
  }

  lemma FlagsNest(st: Store, tasks: TaskMap)
    requires TasksOk(st, tasks)
    ensures |Who(tasks, RanNexus)| <= |Who(tasks, SpentRecord)| <= |Who(tasks, HasRecord)| <= |Who(tasks, TookAction)|
    ensures |Who(tasks, CalledModel)| <= |Who(tasks, TookStep)|
  {
    forall t | t in tasks ensures Ordered(tasks[t]) { assert TaskOk(st, tasks[t]); }
    WhoWithin(tasks, RanNexus, SpentRecord);
    WhoWithin(tasks, SpentRecord, HasRecord);
    WhoWithin(tasks, HasRecord, TookAction);
    WhoWithin(tasks, CalledModel, TookStep);
  }
}
