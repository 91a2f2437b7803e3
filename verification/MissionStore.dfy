/**
  The mission store: attempt-scoped evidence, single-use authorization records and the completeness
  check over both (crates/aeon_agent_runtime/src/store.rs).
 */
module MissionStore {
  import opened Basics

  type AuthorizationId = int
  type AttemptId = nat

  /** store.rs:17-37 */
  datatype Kind =
    | MissionCreated | ContextResolved | LeaseIssued | AgentActivated
    | ModelFailed(code: ErrorCode)
    | ProtocolAccepted | ProtocolRejected(code: ErrorCode)
    | PlanAccepted
    | ActionAuthorized | ActionRejected(code: ErrorCode)
    | AuthorizationIssued | AuthorizationConsumed
    | ExecutionStarted | ExecutionRejectedBeforeNexus(code: ErrorCode)
    | ExecutionFailed(code: ErrorCode) | ExecutionCompleted
    | FinalProduced | FinalRejected(code: ErrorCode)

  datatype MissionEvent = MissionEvent(sequence: nat, missionId: int, attempt: Option<AttemptId>, kind: Kind)

  datatype AuthorizationState = Issued | Prepared | Consumed | Aborted | Revoked | Expired

  datatype AuthorizationRecord = AuthorizationRecord(
    recordId: AuthorizationId,
    remaining: nat,
    state: AuthorizationState,
    generation: nat)

  datatype Store = Store(
    missionId: int,
    events: seq<MissionEvent>,
    nextAttempt: nat,
    records: seq<AuthorizationRecord>,
    attempts: map<AuthorizationId, AttemptId>)

  function EmptyStore(missionId: int): Store {
    Store(missionId, [], 0, [], map[])
  }

  /** store.rs:101-141, when the append succeeds */
  function Append(st: Store, attempt: Option<AttemptId>, kind: Kind): Store {
    st.(events := st.events + [MissionEvent(|st.events| + 1, st.missionId, attempt, kind)])
  }

  predicate HasRecord(st: Store, id: AuthorizationId) {
    exists i :: 0 <= i < |st.records| && st.records[i].recordId == id
  }

  /** store.rs:190-233 */
  function Insert(st: Store, record: AuthorizationRecord, attempt: Option<AttemptId>): Result<Store> {
    if attempt == Some(0) then Err(InvalidInput)
    else if HasRecord(st, record.recordId) then Err(AuthorizationInvalid)
    else Ok(st.(
      records := st.records + [record],
      attempts := if attempt.Some? then st.attempts[record.recordId := attempt.value] else st.attempts))
  }

  /** Index of the first record with the given id. */
  function FirstRecord(records: seq<AuthorizationRecord>, id: AuthorizationId): (i: nat)
    ensures i <= |records|
    ensures i < |records| ==> records[i].recordId == id
    ensures forall j :: 0 <= j < i ==> records[j].recordId != id
  {
    if records == [] || records[0].recordId == id then 0
    else
      var i := FirstRecord(records[1..], id);
      assert forall j :: 1 <= j < i + 1 ==> records[j] == records[1..][j - 1];
      i + 1
  }

  predicate Available(record: AuthorizationRecord, expected: nat) {
    record.state.Issued? && record.generation == expected && record.remaining > 0
  }

  function Spend(record: AuthorizationRecord): AuthorizationRecord
    requires record.remaining > 0
  {
    record.(remaining := record.remaining - 1, state := Consumed, generation := record.generation + 1)
  }

  /** store.rs:268-292; `commit` is the outcome of the closure run before the record is spent */
  function Consume(st: Store, id: AuthorizationId, expected: nat, commit: Result<()>): Result<Store> {
    var i := FirstRecord(st.records, id);
    if i == |st.records| || !Available(st.records[i], expected) then Err(AuthorizationInvalid)
    else if commit.Err? then Err(commit.error)
    else Ok(st.(records := st.records[i := Spend(st.records[i])]))
  }

  /** A record is refused for attempt zero or a known id, and otherwise added at the end, bound to its attempt. */
  lemma InsertExact(st: Store, record: AuthorizationRecord, attempt: Option<AttemptId>)
    ensures var inserted := Insert(st, record, attempt);
            if attempt == Some(0) then inserted == Err(InvalidInput)
            else if exists known :: known in st.records && known.recordId == record.recordId
            then inserted == Err(AuthorizationInvalid)
            else inserted == Ok(Store(
              st.missionId, st.events, st.nextAttempt, st.records + [record],
              match attempt case Some(a) => st.attempts[record.recordId := a] case None => st.attempts))
  {
    if known :| known in st.records && known.recordId == record.recordId {
      var i :| 0 <= i < |st.records| && st.records[i] == known;
    }
  }

  /** Where ids do not repeat, a record is spent exactly when it is Issued, of the expected generation and with
      uses left, and the commit succeeds; then it is Consumed, with one use fewer and one generation more,
      and nothing else changes. */
  lemma ConsumeExact(st: Store, slot: nat, expected: nat, commit: Result<()>)
    requires slot < |st.records|
    requires forall j :: 0 <= j < |st.records| && j != slot ==> st.records[j].recordId != st.records[slot].recordId
    ensures var r := st.records[slot];
            var consumed := Consume(st, r.recordId, expected, commit);
            if r.state != Issued || r.generation != expected || r.remaining == 0
            then consumed == Err(AuthorizationInvalid)
            else if commit.Err? then consumed == Err(commit.error)
            else consumed == Ok(st.(records := st.records[slot := AuthorizationRecord(
                   r.recordId, r.remaining - 1, AuthorizationState.Consumed, r.generation + 1)]))
    ensures forall id :: (forall j :: 0 <= j < |st.records| ==> st.records[j].recordId != id) ==>
              Consume(st, id, expected, commit) == Err(AuthorizationInvalid)
  {
    assert FirstRecord(st.records, st.records[slot].recordId) == slot;
  }

  // ---------------------------------------------------------------- completeness

  /** Event kinds of one attempt, in order. */
  function History(events: seq<MissionEvent>, a: AttemptId): seq<Kind> {
    if events == [] then []
    else
      var last := events[|events| - 1];
      History(events[..|events| - 1], a) + if last.attempt == Some(a) then [last.kind] else []
  }

  /** store.rs:432-473: the histories of finished attempts. */
  predicate Accepted(h: seq<Kind>) {
    || (|h| == 1 && (h[0].ModelFailed? || h[0].ProtocolRejected?))
    || (|h| == 2 && h[0].ProtocolAccepted? && (h[1].FinalProduced? || h[1].FinalRejected?))
    || (|h| == 3 && Planned(h) && h[2].ActionRejected?)
    || (|h| == 5 && Granted(h) && (h[4].ExecutionRejectedBeforeNexus? || h[4].ExecutionFailed?))
    || (|h| == 6 && Granted(h) && h[4].AuthorizationConsumed? && h[5].ExecutionRejectedBeforeNexus?)
    || (|h| == 7 && Granted(h) && h[4].AuthorizationConsumed? && h[5].ExecutionStarted?
        && (h[6].ExecutionCompleted? || h[6].ExecutionFailed?))
  }

  predicate Planned(h: seq<Kind>) {
    |h| >= 2 && h[0].ProtocolAccepted? && h[1].PlanAccepted?
  }

  predicate Granted(h: seq<Kind>) {
    |h| >= 4 && Planned(h) && h[2].ActionAuthorized? && h[3].AuthorizationIssued?
  }

  function Evidence(h: seq<Kind>): nat {
    if h == [] then 0
    else Evidence(h[..|h| - 1]) + if h[|h| - 1].AuthorizationConsumed? then 1 else 0
  }

  /** Consumed records bound to one attempt. */
  function ConsumedBy(records: seq<AuthorizationRecord>, attempts: map<AuthorizationId, AttemptId>, a: AttemptId): nat {
    if records == [] then 0
    else
      var last := records[|records| - 1];
      ConsumedBy(records[..|records| - 1], attempts, a)
      + if last.state.Consumed? && last.recordId in attempts && attempts[last.recordId] == a then 1 else 0
  }

  const FOUNDATION: seq<Kind> := [MissionCreated, ContextResolved, LeaseIssued, AgentActivated]

  predicate Founded(events: seq<MissionEvent>) {
    && |events| >= 4
    && forall i :: 0 <= i < 4 ==> events[i].kind == FOUNDATION[i] && events[i].attempt == None
  }

  predicate Sequenced(st: Store) {
    forall i :: 0 <= i < |st.events| ==> st.events[i].sequence == i + 1 && st.events[i].missionId == st.missionId
  }

  predicate Attributed(e: MissionEvent) {
    e.attempt.Some? && e.attempt.value != 0
  }

  predicate Logged(events: seq<MissionEvent>, a: AttemptId) {
    exists i :: 0 <= i < |events| && events[i].attempt == Some(a)
  }

  /** Every consumed record is bound to an attempt. */
  predicate AllBound(st: Store) {
    forall i :: 0 <= i < |st.records| && st.records[i].state.Consumed? ==> st.records[i].recordId in st.attempts
  }

  function CountOf(counts: map<AttemptId, nat>, a: AttemptId): nat {
    if a in counts then counts[a] else 0
  }

  /** store.rs:307-395 */
  ghost predicate Complete(st: Store) {
    && Founded(st.events)
    && Sequenced(st)
    && (forall i :: 4 <= i < |st.events| ==> Attributed(st.events[i]))
    && (forall a: AttemptId :: Logged(st.events[4..], a) ==> Accepted(History(st.events[4..], a)))
    && AllBound(st)
    && (forall a: AttemptId :: ConsumedBy(st.records, st.attempts, a) <= Evidence(History(st.events[4..], a)))
  }

  // ---------------------------------------------------------------- language facts

  lemma HistorySnoc(events: seq<MissionEvent>, e: MissionEvent, a: AttemptId)
    ensures History(events + [e], a) == History(events, a) + if e.attempt == Some(a) then [e.kind] else []
  {
    assert (events + [e])[..|events|] == events;
  }

  lemma {:induction false} HistoryEmpty(events: seq<MissionEvent>, a: AttemptId)
    ensures History(events, a) == [] <==> !Logged(events, a)
  {
    if events != [] {
      var n := |events| - 1;
      HistoryEmpty(events[..n], a);
      assert Logged(events[..n], a) ==> Logged(events, a) by {
        if i :| 0 <= i < n && events[..n][i].attempt == Some(a) { assert events[i].attempt == Some(a); }
      }
      if i :| 0 <= i < |events| && events[i].attempt == Some(a) {
        if i < n { assert events[..n][i].attempt == Some(a); }
      }
    }
  }

  lemma {:induction false} EvidenceConcat(h: seq<Kind>, k: Kind)
    ensures Evidence(h + [k]) == Evidence(h) + if k.AuthorizationConsumed? then 1 else 0
  {
    assert (h + [k])[..|h|] == h;
  }

  /** No accepted history continues another: an attempt cannot cross its terminal event. */
  lemma AcceptedPrefixFree(h: seq<Kind>, h': seq<Kind>)
    requires Accepted(h) && Accepted(h') && h <= h'
    ensures h == h'
  {
    assert forall i :: 0 <= i < |h| ==> h[i] == h'[i];
  }

  /** An accepted history holds at most one consumption, and only after an authorization. */
  lemma AcceptedEvidence(h: seq<Kind>)
    requires Accepted(h)
    ensures Evidence(h) == if |h| >= 6 then 1 else 0
  {
    EvidenceUnroll(h, |h|);
    assert h[..|h|] == h;
  }

  lemma {:induction false} EvidenceUnroll(h: seq<Kind>, n: nat)
    requires n <= |h| <= 7
    requires forall i :: 0 <= i < |h| ==> (h[i].AuthorizationConsumed? ==> i == 4)
    ensures Evidence(h[..n]) == if n >= 5 && h[4].AuthorizationConsumed? then 1 else 0
    decreases n
  {
    if n > 0 {
      EvidenceUnroll(h, n - 1);
      assert h[..n][..n - 1] == h[..n - 1];
    }
  }

  lemma {:induction false} ConsumedByCounts(records: seq<AuthorizationRecord>,
                                            attempts: map<AuthorizationId, AttemptId>, a: AttemptId, i: nat)
    requires i < |records| && records[i].state.Consumed? && records[i].recordId in attempts
    requires attempts[records[i].recordId] == a
    ensures ConsumedBy(records, attempts, a) >= 1
  {
    var n := |records| - 1;
    if i < n { ConsumedByCounts(records[..n], attempts, a, i); }
  }

  lemma {:induction false} ConsumedByCountsTwo(records: seq<AuthorizationRecord>,
                                               attempts: map<AuthorizationId, AttemptId>, a: AttemptId, i: nat, j: nat)
    requires i < j < |records|
    requires records[i].state.Consumed? && records[i].recordId in attempts && attempts[records[i].recordId] == a
    requires records[j].state.Consumed? && records[j].recordId in attempts && attempts[records[j].recordId] == a
    ensures ConsumedBy(records, attempts, a) >= 2
  {
    var n := |records| - 1;
    if j < n {
      ConsumedByCountsTwo(records[..n], attempts, a, i, j);
    } else {
      ConsumedByCounts(records[..n], attempts, a, i);
    }
  }

  /** Whatever happened to the store, when the check passes every consumed authorization belongs to an
      attempt of its own, whose accepted history holds exactly one consumption event. */
  lemma CompleteBindsConsumption(st: Store, i: nat)
    requires Complete(st) && i < |st.records| && st.records[i].state.Consumed?
    ensures st.records[i].recordId in st.attempts
    ensures var a := st.attempts[st.records[i].recordId];
            && Accepted(History(st.events[4..], a))
            && Evidence(History(st.events[4..], a)) == 1
            && ConsumedBy(st.records, st.attempts, a) == 1
    ensures forall j :: 0 <= j < |st.records| && j != i && st.records[j].state.Consumed? ==>
              && st.records[j].recordId in st.attempts
              && st.attempts[st.records[j].recordId] != st.attempts[st.records[i].recordId]
  {
    var a := st.attempts[st.records[i].recordId];
    var h := History(st.events[4..], a);
    ConsumedByCounts(st.records, st.attempts, a, i);
    HistoryEmpty(st.events[4..], a);
    assert h != [];
    AcceptedEvidence(h);
    forall j | 0 <= j < |st.records| && j != i && st.records[j].state.Consumed?
      ensures st.records[j].recordId in st.attempts && st.attempts[st.records[j].recordId] != a
    {
      if st.attempts[st.records[j].recordId] == a {
        if i < j { ConsumedByCountsTwo(st.records, st.attempts, a, i, j); }
        else { ConsumedByCountsTwo(st.records, st.attempts, a, j, i); }
      }
    }
  }

  // ---------------------------------------------------------------- the store object

  class InMemoryMissionStore {
    const missionId: int
    var events: seq<MissionEvent>
    var nextAttempt: nat
    var records: seq<AuthorizationRecord>
    var attempts: map<AuthorizationId, AttemptId>

    function Abs(): Store
      reads this
    {
      Store(missionId, events, nextAttempt, records, attempts)
    }

    constructor (missionId: int)
      ensures Abs() == EmptyStore(missionId)
    {
      this.missionId := missionId;
      events, nextAttempt, records, attempts := [], 0, [], map[];
    }

    method AppendEvent(attempt: Option<AttemptId>, kind: Kind)
      modifies this`events
      ensures Abs() == Append(old(Abs()), attempt, kind)
    {
      events := events + [MissionEvent(|events| + 1, missionId, attempt, kind)];
    }

    method BeginAttempt() returns (a: AttemptId)
      modifies this`nextAttempt
      ensures a == old(nextAttempt) + 1 && Abs() == old(Abs()).(nextAttempt := a)
    {
      nextAttempt := nextAttempt + 1;
      return nextAttempt;
    }

    method InsertAuthorization(record: AuthorizationRecord, attempt: Option<AttemptId>) returns (r: Result<()>)
      modifies this`records, this`attempts
      ensures r.Ok? ==> Insert(old(Abs()), record, attempt) == Ok(Abs())
      ensures r.Err? ==> Insert(old(Abs()), record, attempt) == Err(r.error) && Abs() == old(Abs())
    {
      if attempt == Some(0) {
        return Err(InvalidInput);
      }
      if exists i :: 0 <= i < |records| && records[i].recordId == record.recordId {
        return Err(AuthorizationInvalid);
      }
      if attempt.Some? {
        attempts := attempts[record.recordId := attempt.value];
      }
      records := records + [record];
      return Ok(());
    }

    method ConsumeAuthorizationWith(id: AuthorizationId, expected: nat, commit: Result<()>) returns (r: Result<()>)
      modifies this`records
      ensures r.Ok? ==> Consume(old(Abs()), id, expected, commit) == Ok(Abs())
      ensures r.Err? ==> Consume(old(Abs()), id, expected, commit) == Err(r.error) && Abs() == old(Abs())
    {
      var i := 0;
      while i < |records| && records[i].recordId != id
        invariant 0 <= i <= |records|
        invariant forall j :: 0 <= j < i ==> records[j].recordId != id
      {
        i := i + 1;
      }
      assert i == FirstRecord(records, id);
      if i == |records| || !Available(records[i], expected) {
        return Err(AuthorizationInvalid);
      }
      if commit.Err? {
        return commit;
      }
      records := records[i := Spend(records[i])];
      return Ok(());
    }

    /** Group the runtime events by attempt. */
    method GroupAttempts(tail: seq<MissionEvent>) returns (r: Result<map<AttemptId, seq<Kind>>>)
      ensures r.Err? ==> r.error == EventIncomplete
      ensures r.Ok? <==> forall i :: 0 <= i < |tail| ==> Attributed(tail[i])
      ensures r.Ok? ==> forall a: AttemptId :: a in r.value <==> Logged(tail, a)
      ensures r.Ok? ==> forall a: AttemptId :: a in r.value ==> r.value[a] == History(tail, a)
    {
      var grouped: map<AttemptId, seq<Kind>> := map[];
      var i := 0;
      while i < |tail|
        invariant 0 <= i <= |tail|
        invariant forall j :: 0 <= j < i ==> Attributed(tail[j])
        invariant forall a: AttemptId :: a in grouped <==> Logged(tail[..i], a)
        invariant forall a: AttemptId :: a in grouped ==> grouped[a] == History(tail[..i], a)
      {
        var e := tail[i];
        if e.attempt.None? || e.attempt.value == 0 {
          return Err(EventIncomplete);
        }
        var a := e.attempt.value;
        ghost var before := tail[..i];
        assert tail[..i + 1] == before + [e];
        forall b: AttemptId
          ensures Logged(tail[..i + 1], b) <==> Logged(before, b) || b == a
          ensures History(tail[..i + 1], b) == History(before, b) + if b == a then [e.kind] else []
          ensures !Logged(before, b) ==> History(before, b) == []
        {
          HistorySnoc(before, e, b);
          HistoryEmpty(before, b);
          HistoryEmpty(before + [e], b);
        }
        grouped := grouped[a := (if a in grouped then grouped[a] else []) + [e.kind]];
        i := i + 1;
      }
      assert tail[..|tail|] == tail;
      return Ok(grouped);
    }

    /** Count the consumed records per attempt. */
    method CountConsumed() returns (r: Result<map<AttemptId, nat>>)
      ensures r.Err? ==> r.error == EventIncomplete
      ensures r.Ok? <==> AllBound(Abs())
      ensures r.Ok? ==> forall a: AttemptId :: ConsumedBy(records, attempts, a) == CountOf(r.value, a)
    {
      var counts: map<AttemptId, nat> := map[];
      var i := 0;
      while i < |records|
        invariant 0 <= i <= |records|
        invariant forall j :: 0 <= j < i && records[j].state.Consumed? ==> records[j].recordId in attempts
        invariant forall a: AttemptId :: ConsumedBy(records[..i], attempts, a) == if a in counts then counts[a] else 0
      {
        assert records[..i + 1][..i] == records[..i];
        if records[i].state.Consumed? {
          if records[i].recordId !in attempts {
            return Err(EventIncomplete);
          }
          var a := attempts[records[i].recordId];
          counts := counts[a := (if a in counts then counts[a] else 0) + 1];
        }
        i := i + 1;
      }
      assert records[..|records|] == records;
      return Ok(counts);
    }

    method CountEvidence(h: seq<Kind>) returns (n: nat)
      ensures n == Evidence(h)
    {
      n := 0;
      for i := 0 to |h|
        invariant n == Evidence(h[..i])
      {
        assert h[..i + 1] == h[..i] + [h[i]];
        EvidenceConcat(h[..i], h[i]);
        if h[i].AuthorizationConsumed? {
          n := n + 1;
        }
      }
      assert h[..|h|] == h;
    }

    method VerifyEventCompleteness() returns (r: Result<()>)
      ensures r == if Complete(Abs()) then Ok(()) else Err(EventIncomplete)
    {
      if !Founded(events) || !Sequenced(Abs()) {
        return Err(EventIncomplete);
      }
      var tail := events[4..];
      var grouped := GroupAttempts(tail);
      assert forall i :: 4 <= i < |events| ==> events[i] == tail[i - 4];
      if grouped.Err? {
        return Err(EventIncomplete);
      }
      var accepted := AllAccepted(grouped.value, tail);
      if !accepted {
        return Err(EventIncomplete);
      }
      var counts := CountConsumed();
      if counts.Err? {
        return Err(EventIncomplete);
      }
      var covered := AllCovered(grouped.value, counts.value, tail);
      if !covered {
        return Err(EventIncomplete);
      }
      return Ok(());
    }

    method AllAccepted(grouped: map<AttemptId, seq<Kind>>, ghost tail: seq<MissionEvent>) returns (ok: bool)
      requires forall a: AttemptId :: a in grouped <==> Logged(tail, a)
      requires forall a: AttemptId :: a in grouped ==> grouped[a] == History(tail, a)
      ensures ok <==> forall a: AttemptId :: Logged(tail, a) ==> Accepted(History(tail, a))
    {
      ok := forall a :: a in grouped ==> Accepted(grouped[a]);
    }

    method AllCovered(grouped: map<AttemptId, seq<Kind>>, counts: map<AttemptId, nat>,
                      ghost tail: seq<MissionEvent>) returns (ok: bool)
      requires forall a: AttemptId :: a in grouped <==> Logged(tail, a)
      requires forall a: AttemptId :: a in grouped ==> grouped[a] == History(tail, a)
      requires forall a: AttemptId :: ConsumedBy(records, attempts, a) == if a in counts then counts[a] else 0
      ensures ok <==> forall a: AttemptId :: ConsumedBy(records, attempts, a) <= Evidence(History(tail, a))
    {
      var todo := counts.Keys;
      while todo != {}
        invariant todo <= counts.Keys
        invariant forall a: AttemptId :: a !in todo ==> ConsumedBy(records, attempts, a) <= Evidence(History(tail, a))
        decreases |todo|
      {
        var a :| a in todo;
        HistoryEmpty(tail, a);
        var n := CountEvidence(if a in grouped then grouped[a] else []);
        if n < counts[a] {
          return false;
        }
        todo := todo - {a};
      }
      return true;
    }
  }
}
