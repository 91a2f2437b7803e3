/**
  Evidence and records over whole interleaved runs: what the store holds is, attempt by attempt, what
  each task did, and the completeness check passes exactly when every attempt is closed
  (crates/aeon_agent_runtime/src/store.rs:101-395, crates/aeon_agent_runtime/src/supervisor.rs:225-398).
 */
module EvidenceRuns {
  import opened Basics
  import opened MissionStore
  import opened Protocol
  import opened ControlFlow
  import opened Attempts

  type TaskMap = map<TaskId, Task>

  function Tail(events: seq<MissionEvent>): seq<MissionEvent> {
    if |events| >= 4 then events[4..] else []
  }

  predicate LogOk(st: Store, k: Task) {
    k.attempt.Some? ==>
      0 < k.attempt.value <= st.nextAttempt && History(Tail(st.events), k.attempt.value) == k.log
  }

  /** One use of generation 0, or none of generation 1. */
  predicate UsedOnce(r: AuthorizationRecord, spent: bool) {
    if spent then r.remaining == 0 && r.state == AuthorizationState.Consumed && r.generation == 1
    else r.remaining == 1 && r.state == Issued && r.generation == 0
  }

  /** The record a task holds: its own, bound to its attempt, with its one use left until its holder spent it. */
  predicate SlotOk(st: Store, k: Task) {
    k.record.Some? ==>
      && k.attempt.Some? && k.record.value < |st.records|
      && var r := st.records[k.record.value];
         && UsedOnce(r, k.spent)
         && r.recordId in st.attempts && st.attempts[r.recordId] == k.attempt.value
         && (Authorizes(k.pc) ==> k.pc.auth.Record() == r.recordId)
  }

  predicate TaskOk(st: Store, k: Task) {
    Shape(k) && LogOk(st, k) && SlotOk(st, k)
  }

  predicate Apart(k: Task, u: Task) {
    && (k.attempt.Some? ==> k.attempt != u.attempt)
    && (k.record.Some? ==> k.record != u.record)
  }

  predicate Owns(k: Task, a: AttemptId) {
    k.attempt == Some(a)
  }

  ghost predicate Owned(tasks: TaskMap, a: AttemptId) {
    exists t :: t in tasks && Owns(tasks[t], a)
  }

  predicate Holds(k: Task, i: nat) {
    k.record == Some(i)
  }

  ghost predicate Held(tasks: TaskMap, i: nat) {
    exists t :: t in tasks && Holds(tasks[t], i)
  }

  predicate EventOk(st: Store, i: nat)
    requires i < |st.events|
  {
    && st.events[i].sequence == i + 1 && st.events[i].missionId == st.missionId
    && (i < 4 ==> st.events[i].kind == FOUNDATION[i] && st.events[i].attempt == None)
    && (i >= 4 ==> Attributed(st.events[i]))
  }

  predicate EventsOk(st: Store) {
    forall i {:trigger EventOk(st, i)} :: 0 <= i < |st.events| ==> EventOk(st, i)
  }

  predicate DistinctRecords(records: seq<AuthorizationRecord>) {
    forall i, j :: 0 <= i < j < |records| ==> records[i].recordId != records[j].recordId
  }

  ghost predicate TasksOk(st: Store, tasks: TaskMap) {
    && (forall t {:trigger TaskOk(st, tasks[t])} :: t in tasks ==> TaskOk(st, tasks[t]))
    && (forall t, u {:trigger Apart(tasks[t], tasks[u])} :: t in tasks && u in tasks && t != u ==>
          Apart(tasks[t], tasks[u]))
  }

  ghost predicate StoreOk(st: Store, tasks: TaskMap) {
    && |st.events| >= 4
    && EventsOk(st)
    && (forall a: AttemptId {:trigger Owned(tasks, a)} :: Logged(Tail(st.events), a) ==> Owned(tasks, a))
    && (forall i {:trigger Held(tasks, i)} :: 0 <= i < |st.records| ==> Held(tasks, i))
    && DistinctRecords(st.records)
  }

  ghost predicate EvidenceInv(sys: Sys) {
    TasksOk(sys.store, sys.tasks) && StoreOk(sys.store, sys.tasks)
  }

  // ---------------------------------------------------------------- one task changes

  /** A task keeps its attempt and its record once it has them. */
  predicate Grows(k: Task, k': Task) {
    && (k.attempt.Some? ==> k'.attempt == k.attempt)
    && (k.record.Some? ==> k'.record == k.record)
  }

  lemma OwnedKept(tasks: TaskMap, t: TaskId, k': Task, a: AttemptId)
    requires Owned(tasks, a) && (t in tasks ==> Grows(tasks[t], k'))
    ensures Owned(tasks[t := k'], a)
  {
    var u :| u in tasks && Owns(tasks[u], a);
    assert Owns(tasks[t := k'][u], a);
  }

  lemma HeldKept(tasks: TaskMap, t: TaskId, k': Task, i: nat)
    requires Held(tasks, i) && (t in tasks ==> Grows(tasks[t], k'))
    ensures Held(tasks[t := k'], i)
  {
    var u :| u in tasks && Holds(tasks[u], i);
    assert Holds(tasks[t := k'][u], i);
  }

  /** Only task `t` and the parts of the store it touches change. */
  lemma TasksKept(st: Store, st': Store, tasks: TaskMap, t: TaskId, k': Task)
    requires TasksOk(st, tasks) && TaskOk(st', k')
    requires forall u {:trigger TaskOk(st, tasks[u])} :: u in tasks && u != t ==>
              LogOk(st', tasks[u]) && SlotOk(st', tasks[u])
    requires forall u {:trigger TaskOk(st, tasks[u])} :: u in tasks && u != t ==>
              Apart(tasks[u], k') && Apart(k', tasks[u])
    ensures TasksOk(st', tasks[t := k'])
  {
    var tasks' := tasks[t := k'];
    forall u | u in tasks' ensures TaskOk(st', tasks'[u]) {
      if u != t { assert TaskOk(st, tasks[u]); }
    }
    forall u, v | u in tasks' && v in tasks' && u != v ensures Apart(tasks'[u], tasks'[v]) {
      if u != t { assert TaskOk(st, tasks[u]); }
      if v != t { assert TaskOk(st, tasks[v]); }
      if u != t && v != t { assert Apart(tasks[u], tasks[v]); }
    }
  }

  lemma StoreKept(st: Store, tasks: TaskMap, t: TaskId, k': Task)
    requires StoreOk(st, tasks) && (t in tasks ==> Grows(tasks[t], k'))
    ensures StoreOk(st, tasks[t := k'])
  {
    var tasks' := tasks[t := k'];
    forall a: AttemptId | Logged(Tail(st.events), a) ensures Owned(tasks', a) {
      OwnedKept(tasks, t, k', a);
    }
    forall i | 0 <= i < |st.records| ensures Held(tasks', i) {
      HeldKept(tasks, t, k', i);
    }
  }

  /** A move that leaves attempt, log, record and store alone. */
  lemma QuietMove(st: Store, tasks: TaskMap, t: TaskId, k': Task)
    requires TasksOk(st, tasks) && StoreOk(st, tasks) && Shape(k')
    requires t in tasks ==> Same(tasks[t], k') && CarriesAuth(tasks[t].pc, k'.pc)
    requires t !in tasks ==> k' == NEW_TASK
    ensures TasksOk(st, tasks[t := k']) && StoreOk(st, tasks[t := k'])
  {
    if t in tasks { assert TaskOk(st, tasks[t]); }
    forall u | u in tasks && u != t
      ensures LogOk(st, tasks[u]) && SlotOk(st, tasks[u]) && Apart(tasks[u], k') && Apart(k', tasks[u])
    {
      assert TaskOk(st, tasks[u]);
      if t in tasks { assert Apart(tasks[u], tasks[t]) && Apart(tasks[t], tasks[u]); }
    }
    TasksKept(st, st, tasks, t, k');
    StoreKept(st, tasks, t, k');
  }

  predicate Same(k: Task, k': Task) {
    k'.attempt == k.attempt && k'.record == k.record && k'.log == k.log && k'.spent == k.spent
  }

  predicate CarriesAuth(pc: Pc, pc': Pc) {
    Authorizes(pc') ==> pc'.Granted? || (Authorizes(pc) && pc'.auth == pc.auth)
  }

  lemma OwnedIsDrawn(st: Store, tasks: TaskMap, a: AttemptId)
    requires TasksOk(st, tasks) && Owned(tasks, a)
    ensures 0 < a <= st.nextAttempt
  {
    var u :| u in tasks && Owns(tasks[u], a);
    assert TaskOk(st, tasks[u]);
  }

  lemma DrawAttempt(st: Store, tasks: TaskMap, t: TaskId, k': Task)
    requires TasksOk(st, tasks) && StoreOk(st, tasks) && Shape(k') && t in tasks
    requires tasks[t].attempt == None && k'.record == None && k'.log == []
    requires k'.attempt == Some(st.nextAttempt + 1)
    ensures TasksOk(st.(nextAttempt := st.nextAttempt + 1), tasks[t := k'])
    ensures StoreOk(st.(nextAttempt := st.nextAttempt + 1), tasks[t := k'])
  {
    var st' := st.(nextAttempt := st.nextAttempt + 1);
    var a := st.nextAttempt + 1;
    assert TaskOk(st, tasks[t]);
    forall u | u in tasks && u != t
      ensures LogOk(st', tasks[u]) && SlotOk(st', tasks[u]) && Apart(tasks[u], k') && Apart(k', tasks[u])
    {
      assert TaskOk(st, tasks[u]);
    }
    assert History(Tail(st.events), a) == [] by {
      HistoryEmpty(Tail(st.events), a);
      if Logged(Tail(st.events), a) { OwnedIsDrawn(st, tasks, a); }
    }
    TasksKept(st, st', tasks, t, k');
    StoreKept(st, tasks, t, k');
    assert forall i :: 0 <= i < |st.events| && EventOk(st, i) ==> EventOk(st', i);
  }

  lemma AppendTail(st: Store, attempt: Option<AttemptId>, kind: Kind, a: AttemptId)
    requires |st.events| >= 4
    ensures var tail, tail' := Tail(st.events), Tail(Append(st, attempt, kind).events);
            && History(tail', a) == History(tail, a) + (if attempt == Some(a) then [kind] else [])
            && (Logged(tail', a) ==> Logged(tail, a) || attempt == Some(a))
  {
    var e := MissionEvent(|st.events| + 1, st.missionId, attempt, kind);
    var tail := Tail(st.events);
    assert Tail(Append(st, attempt, kind).events) == tail + [e];
    HistorySnoc(tail, e, a);
    HistoryEmpty(tail, a);
    HistoryEmpty(tail + [e], a);
  }

  lemma AppendEvents(st: Store, a: AttemptId, kind: Kind)
    requires |st.events| >= 4 && a != 0 && EventsOk(st)
    ensures EventsOk(Append(st, Some(a), kind))
  {
    var st' := Append(st, Some(a), kind);
    forall i | 0 <= i < |st'.events| ensures EventOk(st', i) {
      if i < |st.events| { assert EventOk(st, i); }
    }
  }

  lemma WriteEvent(st: Store, tasks: TaskMap, t: TaskId, k': Task, kind: Kind)
    requires TasksOk(st, tasks) && StoreOk(st, tasks) && Shape(k') && t in tasks && CarriesAuth(tasks[t].pc, k'.pc)
    requires var k := tasks[t];
             && k.attempt.Some? && k'.attempt == k.attempt && k'.record == k.record && k'.spent == k.spent
             && k'.log == k.log + [kind]
    ensures TasksOk(Append(st, tasks[t].attempt, kind), tasks[t := k'])
    ensures StoreOk(Append(st, tasks[t].attempt, kind), tasks[t := k'])
  {
    var a := tasks[t].attempt.value;
    var st' := Append(st, Some(a), kind);
    assert TaskOk(st, tasks[t]);
    AppendTail(st, Some(a), kind, a);
    forall u | u in tasks && u != t
      ensures LogOk(st', tasks[u]) && SlotOk(st', tasks[u]) && Apart(tasks[u], k') && Apart(k', tasks[u])
    {
      assert TaskOk(st, tasks[u]);
      assert Apart(tasks[u], tasks[t]) && Apart(tasks[t], tasks[u]);
      if tasks[u].attempt.Some? { AppendTail(st, Some(a), kind, tasks[u].attempt.value); }
    }
    TasksKept(st, st', tasks, t, k');
    AppendEvents(st, a, kind);
    StoreKept(st, tasks, t, k');
    forall b: AttemptId | Logged(Tail(st'.events), b) ensures Owned(tasks[t := k'], b) {
      AppendTail(st, Some(a), kind, b);
      if b == a { assert Owns(tasks[t := k'][t], a); }
    }
  }

  lemma InsertSlot(st: Store, tasks: TaskMap, t: TaskId, k': Task, id: AuthorizationId)
    requires TasksOk(st, tasks) && StoreOk(st, tasks) && Shape(k') && t in tasks
    requires var k := tasks[t];
             && k.attempt.Some? && k.record == None && !k.spent
             && k'.attempt == k.attempt && k'.record == Some(|st.records|) && k'.log == k.log && !k'.spent
             && (Authorizes(k'.pc) ==> k'.pc.auth.Record() == id)
    requires Insert(st, NewRecord(id), tasks[t].attempt).Ok?
    ensures TasksOk(Insert(st, NewRecord(id), tasks[t].attempt).value, tasks[t := k'])
    ensures StoreOk(Insert(st, NewRecord(id), tasks[t].attempt).value, tasks[t := k'])
  {
    var st' := Insert(st, NewRecord(id), tasks[t].attempt).value;
    assert TaskOk(st, tasks[t]);
    forall u | u in tasks && u != t
      ensures LogOk(st', tasks[u]) && SlotOk(st', tasks[u]) && Apart(tasks[u], k') && Apart(k', tasks[u])
    {
      assert TaskOk(st, tasks[u]);
      assert Apart(tasks[u], tasks[t]) && Apart(tasks[t], tasks[u]);
      if tasks[u].record.Some? { assert st'.records[tasks[u].record.value] == st.records[tasks[u].record.value]; }
    }
    TasksKept(st, st', tasks, t, k');
    StoreKept(st, tasks, t, k');
    assert Held(tasks[t := k'], |st.records|) by { assert Holds(tasks[t := k'][t], |st.records|); }
    assert forall i :: 0 <= i < |st.events| && EventOk(st, i) ==> EventOk(st', i);
  }

  lemma SpendSlot(st: Store, tasks: TaskMap, t: TaskId, k': Task, id: AuthorizationId, expected: nat,
                  commit: Result<()>)
    requires TasksOk(st, tasks) && StoreOk(st, tasks) && Shape(k') && t in tasks
    requires var k := tasks[t];
             && k.record.Some? && !k.spent && Authorizes(k.pc) && k.pc.auth.Record() == id
             && k'.attempt == k.attempt && k'.record == k.record && k'.log == k.log && k'.spent
             && CarriesAuth(k.pc, k'.pc) && !k'.pc.Granted?
    requires Consume(st, id, expected, commit).Ok?
    ensures TasksOk(Consume(st, id, expected, commit).value, tasks[t := k'])
    ensures StoreOk(Consume(st, id, expected, commit).value, tasks[t := k'])
  {
    var st' := Consume(st, id, expected, commit).value;
    assert TaskOk(st, tasks[t]);
    var i := FirstRecord(st.records, id);
    var slot := tasks[t].record.value;
    assert st.records[slot].recordId == id;
    assert i == slot;
    forall u | u in tasks && u != t
      ensures LogOk(st', tasks[u]) && SlotOk(st', tasks[u]) && Apart(tasks[u], k') && Apart(k', tasks[u])
    {
      assert TaskOk(st, tasks[u]);
      assert Apart(tasks[u], tasks[t]) && Apart(tasks[t], tasks[u]);
    }
    TasksKept(st, st', tasks, t, k');
    StoreKept(st, tasks, t, k');
    assert forall j :: 0 <= j < |st.events| && EventOk(st, j) ==> EventOk(st', j);
    assert |st'.records| == |st.records|;
  }

  // ---------------------------------------------------------------- every step keeps it

  /** The verdict a record move carries is the store's answer about its own record. */
  predicate RecordVerdict(st: Store, k: Task, o: Outcome) {
    && (o.act.InsertRecord? ==>
          && k.pc.IssuedLogged? && o.pc == Recorded(k.pc.auth)
          && Insert(st, NewRecord(k.pc.auth.Record()), k.attempt) == Ok(o.act.inserted))
    && (o.act.SpendRecord? ==>
          && k.pc.Committable? && o.pc == Spent(k.pc.auth)
          && Consume(st, k.pc.auth.Record(), k.pc.auth.certificate.body.authorizationGeneration, Ok(()))
             == Ok(o.act.consumed))
  }

  lemma InsertVerdict(sys: Sys, k: Task, move: Move)
    requires k.pc.IssuedLogged? && move.Record? && Enabled(sys, k, move)
    ensures move.inserted == Insert(sys.store, NewRecord(k.pc.auth.Record()), k.attempt)
  {}

  lemma SpendVerdict(sys: Sys, k: Task, move: Move)
    requires k.pc.Committable? && move.ConsumeRecord? && Enabled(sys, k, move)
    ensures move.consumed == Consume(sys.store, k.pc.auth.Record(), k.pc.auth.certificate.body.authorizationGeneration,
                                     move.tokens)
  {}

  lemma MoveVerdict(sys: Sys, k: Task, move: Move)
    requires Enabled(sys, k, move)
    ensures RecordVerdict(sys.store, k, Flow(k.pc, move))
  {
    var o := Flow(k.pc, move);
    FlowTakes(k.pc, move);
    if o.act.InsertRecord? {
      InsertVerdict(sys, k, move);
    } else if o.act.SpendRecord? {
      SpendVerdict(sys, k, move);
    }
  }

  lemma MoveShape(k: Task, move: Move, draw: AttemptId, slot: nat)
    requires Shape(k)
    ensures var o := Flow(k.pc, move);
            Edge(k.pc, o) && Shape(After(k, o, draw, slot)) && CarriesAuth(k.pc, o.pc)
  {
    FlowEdges(k.pc, move);
    ShapeKept(k, Flow(k.pc, move), draw, slot);
    FlowRemembers(k.pc, move);
  }

  lemma PassesOnce(k: Task, o: Outcome, draw: AttemptId, slot: nat)
    requires Shape(k) && Edge(k.pc, o) && Shape(After(k, o, draw, slot))
    ensures Writes(o.act) ==> k.attempt.Some?
    ensures o.act.TakeStep? ==> !k.stepTaken
    ensures o.act.StartAttempt? ==> k.attempt == None && k.record == None && k.log == []
    ensures o.act.TakeAction? ==> !k.actionTaken
    ensures o.act.InsertRecord? ==> k.attempt.Some? && k.record == None && !k.spent
    ensures o.act.SpendRecord? ==> k.record.Some? && !k.spent
    ensures o.act.Execute? ==> !k.ran
  {
    if Passes(o.act) > 0 {
      assert !Ended(k.pc) && Milestone(k.pc) == Passes(o.act) - 1;
    }
  }

  lemma RecordActKeepsEvidence(st: Store, tasks: TaskMap, t: TaskId, o: Outcome)
    requires TasksOk(st, tasks) && StoreOk(st, tasks) && t in tasks
    requires Edge(tasks[t].pc, o) && CarriesAuth(tasks[t].pc, o.pc) && RecordVerdict(st, tasks[t], o)
    requires Shape(After(tasks[t], o, st.nextAttempt + 1, |st.records|))
    requires o.act.InsertRecord? || o.act.SpendRecord?
    ensures var st' := StoreAfter(st, o.act, tasks[t].attempt);
            var k' := After(tasks[t], o, st.nextAttempt + 1, |st.records|);
            TasksOk(st', tasks[t := k']) && StoreOk(st', tasks[t := k'])
  {
    var k := tasks[t];
    var k' := After(k, o, st.nextAttempt + 1, |st.records|);
    assert TaskOk(st, k);
    PassesOnce(k, o, st.nextAttempt + 1, |st.records|);
    if o.act.InsertRecord? {
      InsertSlot(st, tasks, t, k', k.pc.auth.Record());
    } else {
      SpendSlot(st, tasks, t, k', k.pc.auth.Record(), k.pc.auth.certificate.body.authorizationGeneration, Ok(()));
    }
  }

  lemma WriteActKeepsEvidence(st: Store, tasks: TaskMap, t: TaskId, o: Outcome)
    requires TasksOk(st, tasks) && StoreOk(st, tasks) && t in tasks
    requires Edge(tasks[t].pc, o) && CarriesAuth(tasks[t].pc, o.pc) && Writes(o.act)
    requires Shape(After(tasks[t], o, st.nextAttempt + 1, |st.records|))
    ensures var st' := StoreAfter(st, o.act, tasks[t].attempt);
            var k' := After(tasks[t], o, st.nextAttempt + 1, |st.records|);
            TasksOk(st', tasks[t := k']) && StoreOk(st', tasks[t := k'])
  {
    assert TaskOk(st, tasks[t]);
    PassesOnce(tasks[t], o, st.nextAttempt + 1, |st.records|);
    WriteEvent(st, tasks, t, After(tasks[t], o, st.nextAttempt + 1, |st.records|), o.act.kind);
  }

  lemma DrawActKeepsEvidence(st: Store, tasks: TaskMap, t: TaskId, o: Outcome)
    requires TasksOk(st, tasks) && StoreOk(st, tasks) && t in tasks
    requires Edge(tasks[t].pc, o) && CarriesAuth(tasks[t].pc, o.pc) && o.act.StartAttempt?
    requires Shape(After(tasks[t], o, st.nextAttempt + 1, |st.records|))
    ensures var st' := StoreAfter(st, o.act, tasks[t].attempt);
            var k' := After(tasks[t], o, st.nextAttempt + 1, |st.records|);
            TasksOk(st', tasks[t := k']) && StoreOk(st', tasks[t := k'])
  {
    assert TaskOk(st, tasks[t]);
    PassesOnce(tasks[t], o, st.nextAttempt + 1, |st.records|);
    DrawAttempt(st, tasks, t, After(tasks[t], o, st.nextAttempt + 1, |st.records|));
  }

  lemma ActKeepsEvidence(st: Store, tasks: TaskMap, t: TaskId, o: Outcome)
    requires TasksOk(st, tasks) && StoreOk(st, tasks) && t in tasks
    requires Edge(tasks[t].pc, o) && CarriesAuth(tasks[t].pc, o.pc) && RecordVerdict(st, tasks[t], o)
    requires Shape(After(tasks[t], o, st.nextAttempt + 1, |st.records|))
    ensures var st' := StoreAfter(st, o.act, tasks[t].attempt);
            var k' := After(tasks[t], o, st.nextAttempt + 1, |st.records|);
            TasksOk(st', tasks[t := k']) && StoreOk(st', tasks[t := k'])
  {
    if Writes(o.act) {
      WriteActKeepsEvidence(st, tasks, t, o);
    } else if o.act.StartAttempt? {
      DrawActKeepsEvidence(st, tasks, t, o);
    } else if o.act.InsertRecord? || o.act.SpendRecord? {
      RecordActKeepsEvidence(st, tasks, t, o);
    } else {
      QuietActKeepsEvidence(st, tasks, t, o);
    }
  }

  lemma QuietActKeepsEvidence(st: Store, tasks: TaskMap, t: TaskId, o: Outcome)
    requires TasksOk(st, tasks) && StoreOk(st, tasks) && t in tasks && CarriesAuth(tasks[t].pc, o.pc)
    requires Quiet(o.act) && Shape(After(tasks[t], o, st.nextAttempt + 1, |st.records|))
    ensures var st' := StoreAfter(st, o.act, tasks[t].attempt);
            var k' := After(tasks[t], o, st.nextAttempt + 1, |st.records|);
            TasksOk(st', tasks[t := k']) && StoreOk(st', tasks[t := k'])
  {
    QuietAct(tasks[t], o, st, st.nextAttempt + 1, |st.records|);
    QuietMove(st, tasks, t, After(tasks[t], o, st.nextAttempt + 1, |st.records|));
  }

  /** An action that neither logs, nor draws an attempt, nor touches a record. */
  predicate Quiet(act: Act) {
    !Writes(act) && !act.StartAttempt? && !act.InsertRecord? && !act.SpendRecord?
  }

  lemma QuietAct(k: Task, o: Outcome, st: Store, draw: AttemptId, slot: nat)
    requires Quiet(o.act)
    ensures Same(k, After(k, o, draw, slot)) && After(k, o, draw, slot).pc == o.pc
    ensures StoreAfter(st, o.act, k.attempt) == st
  {}

  lemma PerformKeepsEvidence(sys: Sys, t: TaskId, o: Outcome)
    requires EvidenceInv(sys) && t in sys.tasks
    requires Edge(sys.tasks[t].pc, o) && CarriesAuth(sys.tasks[t].pc, o.pc) && RecordVerdict(sys.store, sys.tasks[t], o)
    requires Shape(After(sys.tasks[t], o, sys.store.nextAttempt + 1, |sys.store.records|))
    ensures EvidenceInv(Perform(sys, t, o))
  {
    ActKeepsEvidence(sys.store, sys.tasks, t, o);
  }

  lemma TaskStepKeepsEvidence(sys: Sys, t: TaskId, move: Move)
    requires EvidenceInv(sys) && t in sys.tasks && Enabled(sys, sys.tasks[t], move)
    ensures EvidenceInv(Perform(sys, t, Flow(sys.tasks[t].pc, move)))
  {
    var k := sys.tasks[t];
    assert TaskOk(sys.store, k);
    MoveShape(k, move, sys.store.nextAttempt + 1, |sys.store.records|);
    MoveVerdict(sys, k, move);
    PerformKeepsEvidence(sys, t, Flow(k.pc, move));
  }

  lemma NextKeepsEvidence(sys: Sys, event: Label)
    requires EvidenceInv(sys)
    ensures EvidenceInv(Next(sys, event))
  {
    if event.TaskStep? {
      if event.task in sys.tasks && Enabled(sys, sys.tasks[event.task], event.move) {
        TaskStepKeepsEvidence(sys, event.task, event.move);
      }
    } else if event.Spawn? && event.task !in sys.tasks {
      NewTaskShape();
      QuietMove(sys.store, sys.tasks, event.task, NEW_TASK);
    }
  }

  lemma NewTaskShape()
    ensures Shape(NEW_TASK)
  {
    assert SPINE[..0] == [];
  }

  lemma FoundedIsOk(missionId: int)
    ensures StoreOk(FoundedStore(missionId), map[]) && TasksOk(FoundedStore(missionId), map[])
  {
    var st := FoundedStore(missionId);
    assert Tail(st.events) == [];
    assert forall i :: 0 <= i < |st.events| ==> EventOk(st, i);
  }

  lemma {:induction false} RunKeepsEvidence(trace: seq<Sys>, labels: seq<Label>, i: nat)
    requires Interleaving(trace, labels) && i < |trace|
    ensures EvidenceInv(trace[i])
    decreases i
  {
    assert SysLinked(trace, labels, i);
    if i == 0 {
      FoundedIsOk(trace[0].kernel.mission.missionId);
    } else {
      RunKeepsEvidence(trace, labels, i - 1);
      NextKeepsEvidence(trace[i - 1], labels[i - 1]);
    }
  }
}
