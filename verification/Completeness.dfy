/**
  The producer and the checker agree: on every state of every interleaved run the completeness check
  passes exactly when every attempt that logged anything is closed and no consumption lost its
  evidence (crates/aeon_agent_runtime/src/store.rs:307-395).
 */
module Completeness {
  import opened Basics
  import opened MissionStore
  import opened Protocol
  import opened ControlFlow
  import opened Attempts
  import opened CommitPoint
  import opened EvidenceRuns

  // ---------------------------------------------------------------- what the check asks of tasks

  predicate Terminal(kind: Kind) {
    || kind.ModelFailed? || kind.ProtocolRejected? || kind.FinalProduced? || kind.FinalRejected? || kind.ActionRejected?
    || kind.ExecutionRejectedBeforeNexus? || kind.ExecutionFailed? || kind.ExecutionCompleted?
  }

  /** Such a call has logged nothing, or has logged its terminal event. */
  predicate Closed(k: Task) {
    k.log == [] || Terminal(k.log[|k.log| - 1])
  }

  /** The authorization is consumed and the log does not say so. */
  predicate Unrecorded(k: Task) {
    k.spent && AuthorizationConsumed !in k.log
  }

  ghost predicate AllClosed(tasks: TaskMap) {
    forall t :: t in tasks ==> Closed(tasks[t])
  }

  ghost predicate NoneUnrecorded(tasks: TaskMap) {
    forall t :: t in tasks ==> !Unrecorded(tasks[t])
  }

  lemma ClosedIffAccepted(k: Task)
    requires Shape(k) && k.log != []
    ensures Closed(k) <==> Accepted(k.log)
  {
    if OnSpine(k.log) {
      SpineIsUnfinished(k.log);
      assert k.log[|k.log| - 1] == SPINE[|k.log| - 1];
    } else {
      assert SPINE[..Lines(k.pc)] <= SPINE;
    }
  }

  // ---------------------------------------------------------------- counting

  lemma {:induction false} EvidenceIffLogged(h: seq<Kind>)
    ensures Evidence(h) >= 1 <==> AuthorizationConsumed in h
  {
    if h != [] {
      var n := |h| - 1;
      EvidenceIffLogged(h[..n]);
      assert h == h[..n] + [h[n]];
    }
  }

  predicate CountsFor(st: Store, a: AttemptId, i: nat)
    requires i < |st.records|
  {
    var r := st.records[i];
    r.state.Consumed? && r.recordId in st.attempts && st.attempts[r.recordId] == a
  }

  lemma {:induction false} ConsumedWitness(st: Store, n: nat, a: AttemptId) returns (i: nat)
    requires n <= |st.records| && ConsumedBy(st.records[..n], st.attempts, a) >= 1
    ensures i < n && CountsFor(st, a, i)
    decreases n
  {
    assert st.records[..n][..n - 1] == st.records[..n - 1];
    if CountsFor(st, a, n - 1) { i := n - 1; } else { i := ConsumedWitness(st, n - 1, a); }
  }

  lemma {:induction false} ConsumedPair(st: Store, n: nat, a: AttemptId) returns (i: nat, j: nat)
    requires n <= |st.records| && ConsumedBy(st.records[..n], st.attempts, a) >= 2
    ensures i < j < n && CountsFor(st, a, i) && CountsFor(st, a, j)
    decreases n
  {
    assert st.records[..n][..n - 1] == st.records[..n - 1];
    if CountsFor(st, a, n - 1) {
      j := n - 1;
      i := ConsumedWitness(st, n - 1, a);
    } else {
      i, j := ConsumedPair(st, n - 1, a);
    }
  }

  lemma HolderOf(st: Store, tasks: TaskMap, i: nat) returns (t: TaskId)
    requires TasksOk(st, tasks) && StoreOk(st, tasks) && i < |st.records|
    ensures t in tasks && tasks[t].record == Some(i) && TaskOk(st, tasks[t])
  {
    assert Held(tasks, i);
    t :| t in tasks && Holds(tasks[t], i);
    assert TaskOk(st, tasks[t]);
  }

  lemma SameAttemptSameTask(st: Store, tasks: TaskMap, t: TaskId, u: TaskId)
    requires TasksOk(st, tasks) && t in tasks && u in tasks && tasks[t].attempt.Some?
    requires tasks[t].attempt == tasks[u].attempt
    ensures t == u
  {
    assert t != u ==> Apart(tasks[t], tasks[u]);
  }

  /** Each attempt has at most one consumed record. */
  lemma ConsumedOnce(st: Store, tasks: TaskMap, a: AttemptId)
    requires TasksOk(st, tasks) && StoreOk(st, tasks)
    ensures ConsumedBy(st.records, st.attempts, a) <= 1
  {
    var n := |st.records|;
    assert st.records[..n] == st.records;
    if ConsumedBy(st.records, st.attempts, a) >= 2 {
      var i, j := ConsumedPair(st, n, a);
      var t := HolderOf(st, tasks, i);
      var u := HolderOf(st, tasks, j);
      SameAttemptSameTask(st, tasks, t, u);
    }
  }

  lemma CoveredByEvidence(st: Store, tasks: TaskMap, a: AttemptId)
    requires TasksOk(st, tasks) && StoreOk(st, tasks) && NoneUnrecorded(tasks)
    ensures ConsumedBy(st.records, st.attempts, a) <= Evidence(History(Tail(st.events), a))
  {
    ConsumedOnce(st, tasks, a);
    var n := |st.records|;
    assert st.records[..n] == st.records;
    if ConsumedBy(st.records, st.attempts, a) == 1 {
      var i := ConsumedWitness(st, n, a);
      var t := HolderOf(st, tasks, i);
      assert tasks[t].attempt == Some(a) && tasks[t].spent;
      EvidenceIffLogged(tasks[t].log);
    }
  }

  // ---------------------------------------------------------------- both directions

  lemma LoggedIsAccepted(st: Store, tasks: TaskMap, a: AttemptId)
    requires TasksOk(st, tasks) && StoreOk(st, tasks) && AllClosed(tasks) && Logged(Tail(st.events), a)
    ensures Accepted(History(Tail(st.events), a))
  {
    assert Owned(tasks, a);
    var t :| t in tasks && Owns(tasks[t], a);
    assert TaskOk(st, tasks[t]);
    HistoryEmpty(Tail(st.events), a);
    ClosedIffAccepted(tasks[t]);
  }

  lemma ConsumedIsBound(st: Store, tasks: TaskMap, i: nat)
    requires TasksOk(st, tasks) && StoreOk(st, tasks) && i < |st.records|
    ensures st.records[i].recordId in st.attempts
  {
    var t := HolderOf(st, tasks, i);
  }

  lemma ClosedIsComplete(st: Store, tasks: TaskMap)
    requires TasksOk(st, tasks) && StoreOk(st, tasks) && AllClosed(tasks) && NoneUnrecorded(tasks)
    ensures Complete(st)
  {
    var events := st.events;
    forall i | 0 <= i < |events|
      ensures events[i].sequence == i + 1 && events[i].missionId == st.missionId
      ensures i < 4 ==> events[i].kind == FOUNDATION[i] && events[i].attempt == None
      ensures i >= 4 ==> Attributed(events[i])
    {
      assert EventOk(st, i);
    }
    forall a: AttemptId | Logged(events[4..], a)
      ensures Accepted(History(events[4..], a))
    {
      LoggedIsAccepted(st, tasks, a);
    }
    forall i | 0 <= i < |st.records| ensures st.records[i].recordId in st.attempts { ConsumedIsBound(st, tasks, i); }
    forall a: AttemptId
      ensures ConsumedBy(st.records, st.attempts, a) <= Evidence(History(events[4..], a))
    {
      CoveredByEvidence(st, tasks, a);
    }
  }

  lemma CompleteIsClosed(st: Store, tasks: TaskMap, t: TaskId)
    requires TasksOk(st, tasks) && StoreOk(st, tasks) && Complete(st) && t in tasks
    ensures Closed(tasks[t]) && !Unrecorded(tasks[t])
  {
    var k := tasks[t];
    assert TaskOk(st, k);
    if k.attempt.Some? {
      var a := k.attempt.value;
      HistoryEmpty(Tail(st.events), a);
      if k.log != [] { ClosedIffAccepted(k); }
      if k.spent {
        ConsumedByCounts(st.records, st.attempts, a, k.record.value);
        EvidenceIffLogged(k.log);
      }
    }
  }

  /** The completeness check passes exactly when every attempt that logged anything has logged its
      terminal event and every consumed authorization has its evidence, at every point of every
      interleaving, whichever appends failed. */
  lemma CompletenessExact(trace: seq<Sys>, labels: seq<Label>, i: nat)
    requires Interleaving(trace, labels) && i < |trace|
    ensures Complete(trace[i].store) <==> AllClosed(trace[i].tasks) && NoneUnrecorded(trace[i].tasks)
  {
    RunKeepsEvidence(trace, labels, i);
    var st, tasks := trace[i].store, trace[i].tasks;
    if Complete(st) {
      forall t | t in tasks ensures Closed(tasks[t]) && !Unrecorded(tasks[t]) { CompleteIsClosed(st, tasks, t); }
    } else if AllClosed(tasks) && NoneUnrecorded(tasks) {
      ClosedIsComplete(st, tasks);
    }
  }

  // ---------------------------------------------------------------- runs whose appends succeed

  ghost predicate Reliable(labels: seq<Label>) {
    forall i :: 0 <= i < |labels| && labels[i].TaskStep? ==> !AppendFails(labels[i].move)
  }

  /** Consumption without evidence is only ever on its way to the log. */
  predicate InFlight(k: Task) {
    Unrecorded(k) ==> k.pc.Spent? || k.pc.Released?
  }

  lemma InFlightAct(k: Task, o: Outcome, draw: AttemptId, slot: nat)
    requires InFlight(k) && Delivers(k.pc, o)
    ensures InFlight(After(k, o, draw, slot))
  {
    var k' := After(k, o, draw, slot);
    assert k.log <= k'.log;
    if AuthorizationConsumed in k.log {
      var i :| 0 <= i < |k.log| && k.log[i] == AuthorizationConsumed;
      assert k'.log[i] == AuthorizationConsumed;
    }
    if k.pc.Released? && o.act.Write? { assert k'.log[|k.log|] == AuthorizationConsumed; }
  }

  lemma LandsInFlight(sys: Sys, sys': Sys, t: TaskId, move: Move)
    requires t in sys.tasks && Landed(sys, sys', t, move) && InFlight(sys.tasks[t]) && !AppendFails(move)
    ensures InFlight(sys'.tasks[t])
  {
    var k := sys.tasks[t];
    FlowDelivers(k.pc, move);
    InFlightAct(k, Flow(k.pc, move), sys.store.nextAttempt + 1, |sys.store.records|);
  }

  lemma {:induction false} ReliableInFlight(trace: seq<Sys>, labels: seq<Label>, i: nat, t: TaskId)
    requires Interleaving(trace, labels) && Reliable(labels) && i < |trace| && t in trace[i].tasks
    ensures InFlight(trace[i].tasks[t])
    decreases i
  {
    assert SysLinked(trace, labels, 0);
    if i > 0 {
      StepAdvances(trace, labels, i - 1, t);
      if t in trace[i - 1].tasks {
        ReliableInFlight(trace, labels, i - 1, t);
        if trace[i].tasks[t] != trace[i - 1].tasks[t] {
          MoveLands(trace, labels, i - 1, t, labels[i - 1].move);
          LandsInFlight(trace[i - 1], trace[i], t, labels[i - 1].move);
        }
      }
    }
  }

  /** When evidence appends succeed, and whatever else happens, the check passes exactly when every
      attempt that logged anything has logged its terminal event. */
  lemma ReliableCompleteness(trace: seq<Sys>, labels: seq<Label>, i: nat)
    requires Interleaving(trace, labels) && Reliable(labels) && i < |trace|
    ensures Complete(trace[i].store) <==> AllClosed(trace[i].tasks)
  {
    CompletenessExact(trace, labels, i);
    RunKeepsEvidence(trace, labels, i);
    var st, tasks := trace[i].store, trace[i].tasks;
    forall t | t in tasks && Closed(tasks[t]) ensures !Unrecorded(tasks[t]) {
      ReliableInFlight(trace, labels, i, t);
      assert TaskOk(st, tasks[t]);
      ClosedIsNotInFlight(tasks[t]);
    }
  }

  lemma ClosedIsNotInFlight(k: Task)
    requires Shape(k) && Closed(k)
    ensures !k.pc.Spent? && !k.pc.Released?
  {
    assert SPINE[..4][3] == AuthorizationIssued;
  }

  // ---------------------------------------------------------------- lost evidence

  /** The call is over and its consumption was never logged. */
  predicate Lost(k: Task) {
    Unrecorded(k) && Ended(k.pc)
  }

  lemma LostStays(k: Task, o: Outcome, draw: AttemptId, slot: nat)
    requires Shape(k) && Edge(k.pc, o) && Lost(k)
    ensures Lost(After(k, o, draw, slot))
  {
    if k.pc.Closing? { ClosedIsAccepted(k.log, k.pc.kind); }
  }

  lemma {:induction false} LostForever(trace: seq<Sys>, labels: seq<Label>, i: nat, j: nat, t: TaskId)
    requires Interleaving(trace, labels) && i <= j < |trace| && t in trace[i].tasks && Lost(trace[i].tasks[t])
    ensures t in trace[j].tasks && Lost(trace[j].tasks[t]) && !Complete(trace[j].store)
    decreases j
  {
    if i < j {
      LostForever(trace, labels, i, j - 1, t);
      StepKeepsTask(trace, labels, j - 1, t);
      StepAdvances(trace, labels, j - 1, t);
      var sys := trace[j - 1];
      if trace[j].tasks[t] != sys.tasks[t] {
        RunKeepsEvidence(trace, labels, j - 1);
        assert TaskOk(sys.store, sys.tasks[t]);
        MoveLands(trace, labels, j - 1, t, labels[j - 1].move);
        FlowEdges(sys.tasks[t].pc, labels[j - 1].move);
        LostStays(sys.tasks[t], Flow(sys.tasks[t].pc, labels[j - 1].move), sys.store.nextAttempt + 1,
                  |sys.store.records|);
      }
    }
    CompletenessExact(trace, labels, j);
  }

  // ---------------------------------------------------------------- single use

  predicate IdsKept(st: Store, st': Store) {
    && |st.records| <= |st'.records|
    && forall n :: 0 <= n < |st.records| ==> st'.records[n].recordId == st.records[n].recordId
  }

  lemma VerdictKeepsIds(st: Store, k: Task, o: Outcome)
    requires RecordVerdict(st, k, o)
    ensures IdsKept(st, StoreAfter(st, o.act, k.attempt))
  {}

  lemma NextKeepsIds(sys: Sys, event: Label)
    ensures IdsKept(sys.store, Next(sys, event).store)
  {
    if event.TaskStep? && event.task in sys.tasks && Enabled(sys, sys.tasks[event.task], event.move) {
      var k := sys.tasks[event.task];
      MoveVerdict(sys, k, event.move);
      VerdictKeepsIds(sys.store, k, Flow(k.pc, event.move));
    }
  }

  /** Task `t` has spent record `id` on attempt `a`. */
  predicate HasSpent(sys: Sys, t: TaskId, id: AuthorizationId, a: AttemptId) {
    && t in sys.tasks && sys.tasks[t].spent && sys.tasks[t].record.Some? && sys.tasks[t].attempt == Some(a)
    && var slot := sys.tasks[t].record.value; slot < |sys.store.records| && sys.store.records[slot].recordId == id
  }

  lemma {:induction false} SpentForever(trace: seq<Sys>, labels: seq<Label>, i: nat, j: nat, t: TaskId,
                                        id: AuthorizationId, a: AttemptId)
    requires Interleaving(trace, labels) && i <= j < |trace| && HasSpent(trace[i], t, id, a)
    ensures HasSpent(trace[j], t, id, a)
    decreases j
  {
    if i < j {
      SpentForever(trace, labels, i, j - 1, t, id, a);
      StepKeepsTask(trace, labels, j - 1, t);
      StepAdvances(trace, labels, j - 1, t);
      IdsKeptAt(trace, labels, j - 1);
      if trace[j].tasks[t] != trace[j - 1].tasks[t] { SpentStays(trace, labels, j - 1, t); }
    }
  }

  lemma IdsKeptAt(trace: seq<Sys>, labels: seq<Label>, i: nat)
    requires Interleaving(trace, labels) && i < |labels|
    ensures IdsKept(trace[i].store, trace[i + 1].store)
  {
    assert SysLinked(trace, labels, i + 1);
    NextKeepsIds(trace[i], labels[i]);
  }

  lemma SpentStays(trace: seq<Sys>, labels: seq<Label>, i: nat, t: TaskId)
    requires Interleaving(trace, labels) && i < |labels| && labels[i].TaskStep?
    requires MovesAt(trace, labels, i, t, labels[i].move)
    requires trace[i].tasks[t].spent
    ensures t in trace[i + 1].tasks
    ensures trace[i + 1].tasks[t].spent && trace[i + 1].tasks[t].record == trace[i].tasks[t].record
    ensures trace[i + 1].tasks[t].attempt == trace[i].tasks[t].attempt
  {
    RunKeepsEvidence(trace, labels, i);
    MoveLands(trace, labels, i, t, labels[i].move);
    var k, o := trace[i].tasks[t], Flow(trace[i].tasks[t].pc, labels[i].move);
    var draw, slot := trace[i].store.nextAttempt + 1, |trace[i].store.records|;
    assert TaskOk(trace[i].store, k);
    MoveShape(k, labels[i].move, draw, slot);
    PassesOnce(k, o, draw, slot);
  }

  /** A consumed authorization can never be consumed again, at any later state of the run. */
  lemma NeverConsumedAgain(trace: seq<Sys>, labels: seq<Label>, i: nat, j: nat, t: TaskId, id: AuthorizationId,
                           a: AttemptId, expected: nat, commit: Result<()>)
    requires Interleaving(trace, labels) && i <= j < |trace| && HasSpent(trace[i], t, id, a)
    ensures Consume(trace[j].store, id, expected, commit) == Err(AuthorizationInvalid)
  {
    SpentForever(trace, labels, i, j, t, id, a);
    RunKeepsEvidence(trace, labels, j);
    var st, k := trace[j].store, trace[j].tasks[t];
    assert TaskOk(st, k);
    assert FirstRecord(st.records, id) == k.record.value;
  }

  /** If the evidence of a consumption fails to be appended, the check fails from the end of the
      attempt on, and the record stays consumed. */
  lemma DroppedEvidence(trace: seq<Sys>, labels: seq<Label>, i: nat, j: nat, t: TaskId)
    requires Interleaving(trace, labels) && i < j < |trace|
    requires MovesAt(trace, labels, i, t, LogConsumed(false)) && trace[i].tasks[t].pc.Released?
    ensures !Complete(trace[j].store)
    ensures forall expected, commit ::
              Consume(trace[j].store, trace[i].tasks[t].pc.auth.Record(), expected, commit) == Err(AuthorizationInvalid)
  {
    RunKeepsEvidence(trace, labels, i);
    var k := trace[i].tasks[t];
    assert TaskOk(trace[i].store, k);
    ReleasedIsUnrecorded(k);
    MoveLands(trace, labels, i, t, LogConsumed(false));
    LostForever(trace, labels, i + 1, j, t);
    forall expected, commit
      ensures Consume(trace[j].store, k.pc.auth.Record(), expected, commit) == Err(AuthorizationInvalid)
    {
      NeverConsumedAgain(trace, labels, i, j, t, k.pc.auth.Record(), k.attempt.value, expected, commit);
    }
  }

  lemma ReleasedIsUnrecorded(k: Task)
    requires Shape(k) && k.pc.Released?
    ensures Unrecorded(k)
  {
    assert k.log == SPINE[..4];
  }

  // ---------------------------------------------------------------- two separate reads

  /** The store as the check sees it when events and records are read at different moments. */
  function SplitRead(events: Store, records: Store): Store {
    events.(records := records.records, attempts := records.attempts)
  }

  lemma SpentShows(trace: seq<Sys>, labels: seq<Label>, i: nat, j: nat, t: TaskId)
    requires Interleaving(trace, labels) && i <= j < |trace| && t in trace[i].tasks && trace[i].tasks[t].spent
    requires trace[i].tasks[t].attempt.Some?
    ensures ConsumedBy(trace[j].store.records, trace[j].store.attempts, trace[i].tasks[t].attempt.value) >= 1
  {
    RunKeepsEvidence(trace, labels, i);
    RunKeepsEvidence(trace, labels, j);
    var k := trace[i].tasks[t];
    assert TaskOk(trace[i].store, k);
    var id := trace[i].store.records[k.record.value].recordId;
    SpentForever(trace, labels, i, j, t, id, k.attempt.value);
    var st := trace[j].store;
    assert TaskOk(st, trace[j].tasks[t]);
    ConsumedByCounts(st.records, st.attempts, k.attempt.value, trace[j].tasks[t].record.value);
  }

  /** No task consumed between the two reads. */
  ghost predicate NothingSpentSince(before: TaskMap, after: TaskMap) {
    forall t :: t in after && after[t].spent ==> t in before && before[t].spent
  }

  /** A pass is sound for the moment the events were read: every attempt was closed and every consumption
      recorded then. */
  lemma SplitReadIsSound(trace: seq<Sys>, labels: seq<Label>, i: nat, j: nat)
    requires Interleaving(trace, labels) && i <= j < |trace| && Complete(SplitRead(trace[i].store, trace[j].store))
    ensures Complete(trace[i].store)
  {
    RunKeepsEvidence(trace, labels, i);
    var st, tasks := trace[i].store, trace[i].tasks;
    forall t | t in tasks ensures Closed(tasks[t]) && !Unrecorded(tasks[t]) {
      assert TaskOk(st, tasks[t]);
      if tasks[t].spent { SpentShows(trace, labels, i, j, t); }
      SplitIsClosed(SplitRead(st, trace[j].store), st, tasks[t]);
    }
    ClosedIsComplete(st, tasks);
  }

  /** A consumption seen in the records must have been logged, and so made, before the events were read. */
  lemma PassSpentBefore(trace: seq<Sys>, labels: seq<Label>, i: nat, j: nat, t: TaskId)
    requires Interleaving(trace, labels) && i <= j < |trace| && Complete(SplitRead(trace[i].store, trace[j].store))
    requires t in trace[j].tasks && trace[j].tasks[t].spent
    ensures t in trace[i].tasks && trace[i].tasks[t].spent
  {
    RunKeepsEvidence(trace, labels, i);
    RunKeepsEvidence(trace, labels, j);
    var st, tasks := trace[i].store, trace[i].tasks;
    assert TaskOk(trace[j].store, trace[j].tasks[t]);
    var a := trace[j].tasks[t].attempt.value;
    SpentShows(trace, labels, j, j, t);
    var u := EvidenceOwner(st, tasks, a);
    HeldSpent(trace, labels, i, j, u, a);
    SameAttemptSameTask(trace[j].store, trace[j].tasks, t, u);
  }

  lemma EvidenceOwner(st: Store, tasks: TaskMap, a: AttemptId) returns (u: TaskId)
    requires TasksOk(st, tasks) && StoreOk(st, tasks) && Evidence(History(Tail(st.events), a)) >= 1
    ensures u in tasks && tasks[u].attempt == Some(a) && tasks[u].spent
  {
    HistoryEmpty(Tail(st.events), a);
    EvidenceIffLogged(History(Tail(st.events), a));
    assert Owned(tasks, a);
    u :| u in tasks && Owns(tasks[u], a);
    assert TaskOk(st, tasks[u]);
  }

  /** A spent task keeps its attempt and stays spent. */
  lemma HeldSpent(trace: seq<Sys>, labels: seq<Label>, i: nat, j: nat, t: TaskId, a: AttemptId)
    requires Interleaving(trace, labels) && i <= j < |trace|
    requires t in trace[i].tasks && trace[i].tasks[t].spent && trace[i].tasks[t].attempt == Some(a)
    ensures t in trace[j].tasks && trace[j].tasks[t].spent && trace[j].tasks[t].attempt == Some(a)
  {
    RunKeepsEvidence(trace, labels, i);
    var k := trace[i].tasks[t];
    assert TaskOk(trace[i].store, k);
    SpentForever(trace, labels, i, j, t, trace[i].store.records[k.record.value].recordId, a);
  }

  lemma SplitCovered(trace: seq<Sys>, labels: seq<Label>, i: nat, j: nat, a: AttemptId)
    requires Interleaving(trace, labels) && i <= j < |trace| && NoneUnrecorded(trace[i].tasks)
    requires NothingSpentSince(trace[i].tasks, trace[j].tasks)
    ensures ConsumedBy(trace[j].store.records, trace[j].store.attempts, a) <=
            Evidence(History(Tail(trace[i].store.events), a))
  {
    RunKeepsEvidence(trace, labels, i);
    RunKeepsEvidence(trace, labels, j);
    var st := trace[j].store;
    ConsumedOnce(st, trace[j].tasks, a);
    var n := |st.records|;
    assert st.records[..n] == st.records;
    if ConsumedBy(st.records, st.attempts, a) == 1 {
      var slot := ConsumedWitness(st, n, a);
      var t := HolderOf(st, trace[j].tasks, slot);
      var k := trace[i].tasks[t];
      assert TaskOk(trace[i].store, k);
      HeldSpent(trace, labels, i, j, t, k.attempt.value);
      EvidenceIffLogged(k.log);
    }
  }

  lemma SplitIsComplete(trace: seq<Sys>, labels: seq<Label>, i: nat, j: nat)
    requires Interleaving(trace, labels) && i <= j < |trace| && Complete(trace[i].store)
    requires NothingSpentSince(trace[i].tasks, trace[j].tasks)
    ensures Complete(SplitRead(trace[i].store, trace[j].store))
  {
    CompletenessExact(trace, labels, i);
    RunKeepsEvidence(trace, labels, j);
    var st := trace[j].store;
    forall r | 0 <= r < |st.records|
      ensures st.records[r].recordId in st.attempts
    {
      ConsumedIsBound(st, trace[j].tasks, r);
    }
    forall a: AttemptId
      ensures ConsumedBy(st.records, st.attempts, a) <= Evidence(History(trace[i].store.events[4..], a))
    {
      SplitCovered(trace, labels, i, j, a);
    }
  }

  /** The check reads the events first and the records later, with any steps in between.  It passes exactly
      when the store was complete when the events were read and nothing has been consumed since: a
      consumption between the two reads makes it fail, however well that attempt is recorded. */
  lemma SplitReadExact(trace: seq<Sys>, labels: seq<Label>, i: nat, j: nat)
    requires Interleaving(trace, labels) && i <= j < |trace|
    ensures Complete(SplitRead(trace[i].store, trace[j].store)) <==>
            Complete(trace[i].store) && NothingSpentSince(trace[i].tasks, trace[j].tasks)
  {
    if Complete(SplitRead(trace[i].store, trace[j].store)) {
      SplitReadIsSound(trace, labels, i, j);
      forall t | t in trace[j].tasks && trace[j].tasks[t].spent ensures t in trace[i].tasks && trace[i].tasks[t].spent {
        PassSpentBefore(trace, labels, i, j, t);
      }
    } else if Complete(trace[i].store) && NothingSpentSince(trace[i].tasks, trace[j].tasks) {
      SplitIsComplete(trace, labels, i, j);
    }
  }

  lemma SplitIsClosed(seen: Store, st: Store, k: Task)
    requires Complete(seen) && seen.events == st.events && TaskOk(st, k)
    requires k.spent && k.attempt.Some? ==> ConsumedBy(seen.records, seen.attempts, k.attempt.value) >= 1
    ensures Closed(k) && !Unrecorded(k)
  {
    if k.attempt.Some? {
      HistoryEmpty(Tail(st.events), k.attempt.value);
      if k.log != [] { ClosedIffAccepted(k); }
      EvidenceIffLogged(k.log);
    }
  }
}
