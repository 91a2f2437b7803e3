/**
  What pause, resume, revoke and refresh do, field by field: when each is accepted, which records
  change and to what, and which events are logged.  Acceptance and effect are
  stated on the fields, apart from the helpers of the operations themselves
  (crates/aeon_agent_runtime/src/authority_kernel.rs:401-509, 600-626).
 */
module Effects {
  import opened Basics
  import opened Canonical
  import opened Authority
  import opened Forest
  import opened Kernel
  import opened Invariant
  import opened Preservation
  import opened Expiry

  predicate InForce(entry: LeaseEntry) {
    entry.record.state == Active || entry.record.state == Paused
  }

  // ---------------------------------------------------------------- pause and resume

  /** The state and the generation of one lease change; nothing else does but the log. */
  predicate Turned(s: State, s': State, id: LeaseId, to: LeaseState, kind: EventKind, now: Time) {
    && id in s.leases
    && var entry := s.leases[id];
       var r := entry.record;
       && s'.leases == s.leases[id := LeaseEntry(
            entry.certificate,
            LeaseRecord(r.leaseId, to, r.generation + 1, r.revokedAt, r.revocationReason, r.renewedBy),
            entry.manifest)]
       && s'.events == s.events + [Event(|s.events| + 1, id, None, kind, now)]
       && s' == s.(leases := s'.leases, events := s'.events)
  }

  /** Pause is accepted exactly on an Active, unexpired lease of the expected generation. */
  lemma PauseExact(s: State, id: LeaseId, expected: nat, now: Time)
    ensures Pause(s, id, expected, now).Ok? <==>
            && id in s.leases && s.leases[id].record.generation == expected
            && s.leases[id].record.state == Active && now < s.leases[id].certificate.body.expiresAt
    ensures id in s.leases && s.leases[id].record.generation != expected ==>
              Pause(s, id, expected, now) == Err(LeaseGenerationMismatch)
    ensures Pause(s, id, expected, now).Err? && (id in s.leases ==> s.leases[id].record.generation == expected) ==>
              Pause(s, id, expected, now) == Err(LeaseInactive)
    ensures Pause(s, id, expected, now).Ok? ==>
              Turned(s, Pause(s, id, expected, now).value, id, Paused, LeasePaused, now)
  {
    assert Pause(s, id, expected, now) == Transition(s, id, expected, Active, Paused, LeasePaused, now);
  }

  /** Resume is accepted exactly on a Paused, unexpired lease of the expected generation. */
  lemma ResumeExact(s: State, id: LeaseId, expected: nat, now: Time)
    ensures Resume(s, id, expected, now).Ok? <==>
            && id in s.leases && s.leases[id].record.generation == expected
            && s.leases[id].record.state == Paused && now < s.leases[id].certificate.body.expiresAt
    ensures id in s.leases && s.leases[id].record.generation != expected ==>
              Resume(s, id, expected, now) == Err(LeaseGenerationMismatch)
    ensures Resume(s, id, expected, now).Err? && (id in s.leases ==> s.leases[id].record.generation == expected) ==>
              Resume(s, id, expected, now) == Err(LeaseInactive)
    ensures Resume(s, id, expected, now).Ok? ==>
              Turned(s, Resume(s, id, expected, now).value, id, Active, LeaseResumed, now)
  {
    assert Resume(s, id, expected, now) == Transition(s, id, expected, Paused, Active, LeaseResumed, now);
  }

  /** Resuming undoes a pause but for the generation, which ends two steps on, and the two events. */
  lemma PauseThenResume(s: State, id: LeaseId, expected: nat, now: Time, later: Time)
    requires Pause(s, id, expected, now).Ok? && later < s.leases[id].certificate.body.expiresAt
    ensures var resumed := Resume(Pause(s, id, expected, now).value, id, expected + 1, later);
            && resumed.Ok?
            && resumed.value.leases == s.leases[id := s.leases[id].(record := resumed.value.leases[id].record)]
            && resumed.value.leases[id].record == s.leases[id].record.(generation := expected + 2)
            && resumed.value.events == s.events + [Event(|s.events| + 1, id, None, LeasePaused, now)]
                                                + [Event(|s.events| + 2, id, None, LeaseResumed, later)]
  {
    PauseExact(s, id, expected, now);
    var paused := Pause(s, id, expected, now).value;
    ResumeExact(paused, id, expected + 1, later);
    assert paused.leases[id].record.generation == expected + 1;
  }

  // ---------------------------------------------------------------- cascades

  /** What a cascade leaves of a lease it hits. */
  predicate RevokedFrom(before: LeaseEntry, after: LeaseEntry, reason: string, now: Time) {
    var r := before.record;
    after == LeaseEntry(
      before.certificate,
      LeaseRecord(r.leaseId, Revoked, r.generation + 1, Some(now), Some(reason), r.renewedBy),
      before.manifest)
  }

  /** One revocation event per lease of `hit`, in that order, naming `root` except for `root` itself. */
  function RevocationLog(hit: seq<LeaseId>, root: LeaseId, logged: nat, now: Time): seq<Event> {
    seq(|hit|, i requires 0 <= i < |hit| =>
      Event(logged + 1 + i, hit[i], if hit[i] == root then None else Some(root), LeaseRevoked, now))
  }

  function Standing(leases: Leases, order: seq<LeaseId>): seq<LeaseId> {
    if order == [] then []
    else
      (if order[0] in leases && InForce(leases[order[0]]) then [order[0]] else []) + Standing(leases, order[1..])
  }

  lemma {:induction false} StandingExact(leases: Leases, order: seq<LeaseId>)
    requires Distinct(order)
    ensures Distinct(Standing(leases, order))
    ensures forall x :: x in Standing(leases, order) <==> x in order && x in leases && InForce(leases[x])
  {
    if order != [] {
      StandingExact(leases, order[1..]);
      assert order == [order[0]] + order[1..];
      assert order[0] !in order[1..];
    }
  }

  lemma {:induction false} StandingAgrees(a: Leases, b: Leases, order: seq<LeaseId>)
    requires forall x :: x in order && x in a ==> x in b && b[x] == a[x]
    requires forall x :: x in order && x in b ==> x in a
    ensures Standing(a, order) == Standing(b, order)
  {
    if order != [] {
      var id := order[0];
      assert id in order && (id in a <==> id in b) && (id in a ==> b[id] == a[id]);
      assert forall x :: x in order[1..] ==> x in order;
      StandingAgrees(a, b, order[1..]);
    }
  }

  /** The event of one iteration, and the leases the others see. */
  lemma VisitLog(s: State, id: LeaseId, root: LeaseId, reason: string, now: Time, rest: seq<LeaseId>)
    requires id in s.leases && id !in rest
    ensures var s1 := RevokeOne(s, id, root, reason, now);
            && s1.leases.Keys == s.leases.Keys && Standing(s1.leases, rest) == Standing(s.leases, rest)
            && s1.events == s.events + RevocationLog(if InForce(s.leases[id]) then [id] else [], root, |s.events|, now)
  {
    var s1 := RevokeOne(s, id, root, reason, now);
    forall x | x in rest && x in s.leases ensures s1.leases[x] == s.leases[x] { assert x != id; }
    StandingAgrees(s.leases, s1.leases, rest);
  }

  lemma LogsJoin(a: seq<Event>, b: seq<Event>, c: seq<Event>, first: seq<LeaseId>, rest: seq<LeaseId>, root: LeaseId,
                 now: Time)
    requires b == a + RevocationLog(first, root, |a|, now) && c == b + RevocationLog(rest, root, |b|, now)
    ensures c == a + RevocationLog(first + rest, root, |a|, now)
  {}

  /** A cascade over any list of leases, repeats excluded. */
  lemma {:induction false} CascadeLog(s: State, order: seq<LeaseId>, root: LeaseId, reason: string, now: Time)
    requires Elems(order) <= s.leases.Keys && Distinct(order)
    ensures RevokeEach(s, order, root, reason, now).events ==
            s.events + RevocationLog(Standing(s.leases, order), root, |s.events|, now)
    decreases |order|
  {
    if order == [] {
      assert s.events + [] == s.events;
    } else {
      var id, rest := order[0], order[1..];
      assert forall x :: x in rest ==> x in order;
      assert id in Elems(order) && id !in rest;
      var s1 := RevokeOne(s, id, root, reason, now);
      VisitLog(s, id, root, reason, now, rest);
      CascadeLog(s1, rest, root, reason, now);
      LogsJoin(s.events, s1.events, RevokeEach(s1, rest, root, reason, now).events,
               if InForce(s.leases[id]) then [id] else [], Standing(s.leases, rest), root, now);
    }
  }

  /** `hit` is revoked, the rest of the leases and everything else but the log is unchanged. */
  ghost predicate Revokes(s: State, s': State, hit: seq<LeaseId>, root: LeaseId, reason: string, now: Time) {
    && s' == s.(leases := s'.leases, events := s'.events)
    && s'.leases.Keys == s.leases.Keys
    && (forall x :: x in hit ==> x in s.leases && RevokedFrom(s.leases[x], s'.leases[x], reason, now))
    && (forall x :: x in s.leases && x !in hit ==> s'.leases[x] == s.leases[x])
    && s'.events == s.events + RevocationLog(hit, root, |s.events|, now)
  }

  lemma CascadeRevokes(s: State, order: seq<LeaseId>, root: LeaseId, reason: string, now: Time)
    requires Elems(order) <= s.leases.Keys && Distinct(order)
    ensures Revokes(s, RevokeEach(s, order, root, reason, now), Standing(s.leases, order), root, reason, now)
  {
    StandingExact(s.leases, order);
    CascadeLog(s, order, root, reason, now);
    RevokeEachEffect(s, order, root, reason, now);
  }

  // ---------------------------------------------------------------- revoke

  /** Revocation is accepted exactly on an Active or Paused lease of the expected generation. */
  lemma RevokeAccepted(s: State, id: LeaseId, expected: nat, reason: string, now: Time)
    ensures Revoke(s, id, expected, reason, now).Ok? <==>
            id in s.leases && s.leases[id].record.generation == expected && InForce(s.leases[id])
    ensures id in s.leases && s.leases[id].record.generation != expected ==>
              Revoke(s, id, expected, reason, now) == Err(LeaseGenerationMismatch)
    ensures id in s.leases && s.leases[id].record.generation == expected && !InForce(s.leases[id]) ==>
              Revoke(s, id, expected, reason, now) == Err(LeaseInactive)
    ensures id !in s.leases ==> Revoke(s, id, expected, reason, now) == Err(LeaseInactive)
  {
    assert Revoke(s, id, expected, reason, now).Ok? ==> id in s.leases;
  }

  /** It revokes exactly the Active and Paused leases at or below the given one, the lease itself first, and
      logs one event for each. */
  lemma RevokeExact(s: State, id: LeaseId, expected: nat, reason: string, now: Time) returns (hit: seq<LeaseId>)
    requires Revoke(s, id, expected, reason, now).Ok?
    ensures Distinct(hit) && hit != [] && hit[0] == id
    ensures forall x :: x in hit <==> x in s.leases && InForce(s.leases[x]) && Below(LinksOf(s.leases), x, id)
    ensures Revokes(s, Revoke(s, id, expected, reason, now).value, hit, id, reason, now)
  {
    var order := Cascade(LinksOf(s.leases), id);
    var par := CascadeExact(LinksOf(s.leases), id);
    CascadeInLeases(s.leases, id);
    StandingExact(s.leases, order);
    CascadeRevokes(s, order, id, reason, now);
    hit := Standing(s.leases, order);
  }

  // ---------------------------------------------------------------- refresh of expirations

  predicate Lapsed(entry: LeaseEntry, now: Time) {
    InForce(entry) && now >= entry.certificate.body.expiresAt
  }

  /** What expiry leaves of a lease the loop itself reaches. */
  predicate ExpiredFrom(before: LeaseEntry, after: LeaseEntry) {
    var r := before.record;
    after == LeaseEntry(
      before.certificate,
      LeaseRecord(r.leaseId, Expired, r.generation + 1, r.revokedAt, r.revocationReason, r.renewedBy),
      before.manifest)
  }

  /** Every lapsed lease strictly above has a greater id. */
  ghost predicate ReachedFirst(s: State, now: Time, id: LeaseId) {
    forall a :: a in s.leases && a != id && Lapsed(s.leases[a], now) && Below(LinksOf(s.leases), id, a) ==> id < a
  }

  /** Refreshing changes exactly the leases whose time has come: those reached before any lapsed ancestor
      expire, the others are revoked by an ancestor's cascade. */
  lemma RefreshEffect(s: State, now: Time)
    requires Inv(s)
    ensures var s' := RefreshExpirations(s, now);
            && s' == s.(leases := s'.leases, events := s'.events)
            && s'.leases.Keys == s.leases.Keys
            && forall id :: id in s.leases ==>
                 if !Lapsed(s.leases[id], now) then s'.leases[id] == s.leases[id]
                 else if ReachedFirst(s, now, id) then ExpiredFrom(s.leases[id], s'.leases[id])
                 else RevokedFrom(s.leases[id], s'.leases[id], "ancestor lease expired", now)
  {
    var s' := RefreshExpirations(s, now);
    RefreshInv(s, now);
    forall id | id in s.leases ensures Lapsed(s.leases[id], now) == Due(s.leases[id], now) {}
    forall id | id in s.leases
      ensures if !Lapsed(s.leases[id], now) then s'.leases[id] == s.leases[id]
              else if ReachedFirst(s, now, id) then ExpiredFrom(s.leases[id], s'.leases[id])
              else RevokedFrom(s.leases[id], s'.leases[id], "ancestor lease expired", now)
    {
      RefreshExact(s, now, id);
      assert ReachedFirst(s, now, id) == PrecedesDue(s, now, id);
    }
  }

  /** The event of a death: an expiry names nothing, a revocation the expired lease above. */
  ghost predicate Announces(g: Links, after: Leases, e: Event, n: nat, x: LeaseId, now: Time) {
    && x in after && e.sequence == n && e.leaseId == x && e.occurredAt == now
    && if after[x].record.state == Expired then e.kind == LeaseExpired && e.related == None
       else e.kind == LeaseRevoked && e.related.Some? && FellWith(g, after, x, e.related.value)
  }

  ghost predicate FellWith(g: Links, after: Leases, x: LeaseId, a: LeaseId) {
    a in after && a != x && Below(g, x, a) && after[a].record.state == Expired
  }

  /** `hit` lists the leases that changed, and the new part of the log is one announcement for each. */
  ghost predicate LogsDeaths(s: State, t: State, hit: seq<LeaseId>, now: Time) {
    && s.leases.Keys == t.leases.Keys && Distinct(hit)
    && (forall x :: x in hit <==> x in s.leases && t.leases[x] != s.leases[x])
    && |t.events| == |s.events| + |hit| && s.events <= t.events
    && forall i :: 0 <= i < |hit| ==>
         Announces(LinksOf(s.leases), t.leases, t.events[|s.events| + i], |s.events| + i + 1, hit[i], now)
  }

  lemma ExpireOneLogs(s: State, id: LeaseId, now: Time) returns (hit: seq<LeaseId>)
    requires Inv(s) && id in s.leases && s.leases[id].Live()
    ensures LogsDeaths(s, ExpireOne(s, id, now), hit, now)
  {
    var m := PushEvent(SetRecord(s, id, ExpiredRecord(s.leases[id].record)), id, None, LeaseExpired, now);
    var below := ExpiryCascade(s, m, id, now);
    hit := [id] + below;
    ExpiryLog(s, m, ExpireOne(s, id, now), id, below, now);
  }

  /** The cascade after an expiry, seen from the state before it. */
  lemma ExpiryCascade(s: State, m: State, id: LeaseId, now: Time) returns (hit: seq<LeaseId>)
    requires id in s.leases
    requires m == PushEvent(SetRecord(s, id, ExpiredRecord(s.leases[id].record)), id, None, LeaseExpired, now)
    ensures Revokes(m, RevokeDescendants(m, id, EXPIRED_REASON, now), hit, id, EXPIRED_REASON, now)
    ensures Distinct(hit) && id !in hit
    ensures forall x :: x in hit ==> x in s.leases && InForce(s.leases[x]) && Below(LinksOf(s.leases), x, id)
  {
    SameLinks(s, m);
    var order, below := Cascade(LinksOf(s.leases), id), Descendants(m.leases, id);
    var par := CascadeExact(LinksOf(s.leases), id);
    assert below == order[1..];
    forall x | x in below ensures x in order {}
    CascadeRevokes(m, below, id, EXPIRED_REASON, now);
    StandingExact(m.leases, below);
    hit := Standing(m.leases, below);
  }

  lemma ExpiryLog(s: State, m: State, t: State, id: LeaseId, hit: seq<LeaseId>, now: Time)
    requires id in s.leases && s.leases[id].Live()
    requires m == PushEvent(SetRecord(s, id, ExpiredRecord(s.leases[id].record)), id, None, LeaseExpired, now)
    requires Revokes(m, t, hit, id, EXPIRED_REASON, now) && Distinct(hit) && id !in hit
    requires forall x :: x in hit ==> x in s.leases && InForce(s.leases[x]) && Below(LinksOf(s.leases), x, id)
    ensures LogsDeaths(s, t, [id] + hit, now)
  {
    var all := [id] + hit;
    forall i | 0 <= i < |all|
      ensures Announces(LinksOf(s.leases), t.leases, t.events[|s.events| + i], |s.events| + i + 1, all[i], now)
    {
      if i > 0 { assert all[i] == hit[i - 1]; }
    }
  }

  lemma DeathsJoin(s: State, m: State, t: State, first: seq<LeaseId>, rest: seq<LeaseId>, now: Time)
    requires OnlyKills(s, m) && OnlyKills(m, t)
    requires LogsDeaths(s, m, first, now) && LogsDeaths(m, t, rest, now)
    ensures LogsDeaths(s, t, first + rest, now)
  {
    forall x | x in first ensures t.leases[x] == m.leases[x] && x !in rest {}
    assert Elems(first) !! Elems(rest);
    DistinctConcat(first, rest);
    forall x ensures x in first + rest <==> x in s.leases && t.leases[x] != s.leases[x] {}
    var all := first + rest;
    forall i | 0 <= i < |all|
      ensures Announces(LinksOf(s.leases), t.leases, t.events[|s.events| + i], |s.events| + i + 1, all[i], now)
    {
      AnnouncementsJoin(s, m, t, first, rest, i, now);
    }
  }

  lemma AnnouncementsJoin(s: State, m: State, t: State, first: seq<LeaseId>, rest: seq<LeaseId>, i: nat, now: Time)
    requires OnlyKills(s, m) && OnlyKills(m, t) && i < |first + rest|
    requires LogsDeaths(s, m, first, now) && LogsDeaths(m, t, rest, now)
    ensures |t.events| == |s.events| + |first + rest|
    ensures Announces(LinksOf(s.leases), t.leases, t.events[|s.events| + i], |s.events| + i + 1, (first + rest)[i], now)
  {
    SameLinks(s, m);
    if i < |first| {
      AnnouncementStands(m, t, LinksOf(s.leases), m.events[|s.events| + i], |s.events| + i + 1, first[i], now);
    } else {
      assert rest[i - |first|] == (first + rest)[i];
    }
  }

  lemma AnnouncementStands(m: State, t: State, g: Links, e: Event, n: nat, x: LeaseId, now: Time)
    requires OnlyKills(m, t) && Announces(g, m.leases, e, n, x, now) && !m.leases[x].Live()
    ensures Announces(g, t.leases, e, n, x, now)
  {
    assert t.leases[x].record == m.leases[x].record;
    if e.related.Some? && FellWith(g, m.leases, x, e.related.value) {
      assert t.leases[e.related.value].record == m.leases[e.related.value].record;
    }
  }

  lemma {:induction false} ExpireEachLogs(s: State, due: seq<LeaseId>, now: Time) returns (hit: seq<LeaseId>)
    requires Inv(s) && Elems(due) <= s.leases.Keys
    ensures LogsDeaths(s, ExpireEach(s, due, now), hit, now)
    decreases |due|
  {
    hit := [];
    if due != [] {
      assert forall x :: x in due[1..] ==> x in due;
      assert due[0] in Elems(due);
      var s1 := ExpireOne(s, due[0], now);
      ExpireOneInv(s, due[0], now);
      var rest := ExpireEachLogs(s1, due[1..], now);
      ExpireEachInv(s1, due[1..], now);
      if s.leases[due[0]].Live() {
        var first := ExpireOneLogs(s, due[0], now);
        DeathsJoin(s, s1, ExpireEach(s1, due[1..], now), first, rest, now);
        hit := first + rest;
      } else {
        hit := rest;
      }
    }
  }

  /** Refreshing logs one event for each lease whose time has come, and nothing else. */
  lemma RefreshLogs(s: State, now: Time) returns (hit: seq<LeaseId>)
    requires Inv(s)
    ensures forall x :: x in hit <==> x in s.leases && Lapsed(s.leases[x], now)
    ensures LogsDeaths(s, RefreshExpirations(s, now), hit, now)
  {
    hit := ExpireEachLogs(s, Listed(DueIds(s.leases, now)), now);
    RefreshEffect(s, now);
  }
}
