/**
  Exactly what `refresh_expirations` does (crates/aeon_agent_runtime/src/authority_kernel.rs:477-509).
  The loop visits the due leases in id order and cascades; the outcome is stated without the loop.
 */
module Expiry {
  import opened Basics
  import opened Canonical
  import opened Authority
  import opened Forest
  import opened Kernel
  import opened Invariant
  import opened Chain
  import opened Preservation

  lemma {:induction false} UpChains(g: Links, x: LeaseId, y: LeaseId, z: LeaseId, m: nat, n: nat)
    requires Up(g, x, m) == Some(y) && Up(g, y, n) == Some(z)
    ensures Up(g, x, m + n) == Some(z)
    decreases n
  {
    if n > 0 {
      var w := Up(g, y, n - 1).value;
      UpChains(g, x, y, w, m, n - 1);
    }
  }

  lemma BelowTransitive(g: Links, x: LeaseId, y: LeaseId, z: LeaseId)
    requires Below(g, x, y) && Below(g, y, z)
    ensures Below(g, x, z)
  {
    var m: nat :| Up(g, x, m) == Some(y);
    var n: nat :| Up(g, y, n) == Some(z);
    UpChains(g, x, y, z, m, n);
  }

  lemma BelowSelf(g: Links, x: LeaseId)
    ensures Below(g, x, x)
  {
    assert Up(g, x, 0) == Some(x);
  }

  /** A live lease below a due one is due itself, because a child never outlives its parent. */
  lemma {:induction false} DueSpreadsDown(s: State, id: LeaseId, above: LeaseId, n: nat)
    requires Static(s) && id in s.leases && Up(LinksOf(s.leases), id, n) == Some(above)
    ensures above in s.leases && s.leases[id].certificate.body.expiresAt <= s.leases[above].certificate.body.expiresAt
    decreases n
  {
    if n > 0 {
      assert CertificateOk(s, id);
      if s.leases[id].certificate.body.parentLease.Some? {
        var p := ParentFacts(s, id);
        UpFromParent(LinksOf(s.leases), id, p, n - 1);
        DueSpreadsDown(s, p, above, n - 1);
      } else {
        TopStays(LinksOf(s.leases), id, n);
      }
    }
  }

  lemma LiveBelowDueIsDue(s: State, id: LeaseId, above: LeaseId, now: Time)
    requires Static(s) && id in s.leases && above in s.leases && Below(LinksOf(s.leases), id, above)
    requires Due(s.leases[above], now) && s.leases[id].Live()
    ensures Due(s.leases[id], now)
  {
    var n: nat :| Up(LinksOf(s.leases), id, n) == Some(above);
    DueSpreadsDown(s, id, above, n);
  }

  // ---------------------------------------------------------------- the loop, without the loop

  /** The lease itself or an ancestor is in `done`. */
  ghost predicate Reached(g: Links, done: seq<LeaseId>, id: LeaseId) {
    exists a :: a in done && Below(g, id, a)
  }

  /** The lease is in `done` and no proper ancestor in `done` has a smaller id. */
  ghost predicate Precedes(g: Links, done: seq<LeaseId>, id: LeaseId) {
    id in done && forall a :: a in done && a != id && Below(g, id, a) ==> id < a
  }

  /** The record of a lease once the loop has visited `done`. */
  ghost function Outcome(s: State, done: seq<LeaseId>, now: Time, id: LeaseId): LeaseRecord
    requires id in s.leases
  {
    var r, g := s.leases[id].record, LinksOf(s.leases);
    if !Due(s.leases[id], now) || !Reached(g, done, id) then r
    else if Precedes(g, done, id) then ExpiredRecord(r)
    else RevokedRecord(r, EXPIRED_REASON, now)
  }

  ghost predicate Matches(s: State, done: seq<LeaseId>, now: Time, t: State) {
    && Extends(s, t) && t.leases.Keys == s.leases.Keys
    && forall id :: id in s.leases ==> t.leases[id].record == Outcome(s, done, now, id)
  }

  lemma ReachedSnoc(g: Links, done: seq<LeaseId>, p: LeaseId, id: LeaseId)
    ensures Reached(g, done + [p], id) <==> Reached(g, done, id) || Below(g, id, p)
  {
    if a :| a in done + [p] && Below(g, id, a) { assert a in done || a == p; }
    if a :| a in done && Below(g, id, a) { assert a in done + [p]; }
    if Below(g, id, p) { assert p in done + [p]; }
  }

  lemma PrecedesSnoc(g: Links, done: seq<LeaseId>, p: LeaseId, id: LeaseId)
    requires forall a :: a in done ==> a < p
    requires id != p
    ensures Precedes(g, done + [p], id) <==> Precedes(g, done, id)
  {
    assert forall a :: a in done + [p] <==> a in done || a == p;
  }

  /** Visiting a lease that is still live expires it and revokes what is below. */
  lemma OutcomeWhenLive(s: State, done: seq<LeaseId>, p: LeaseId, now: Time, id: LeaseId)
    requires Static(s) && p in s.leases && Due(s.leases[p], now) && id in s.leases
    requires forall a :: a in done ==> a < p
    requires !Reached(LinksOf(s.leases), done, p)
    ensures var g, before := LinksOf(s.leases), Outcome(s, done, now, id);
            Outcome(s, done + [p], now, id) ==
            if id == p then ExpiredRecord(s.leases[p].record)
            else if Below(g, id, p) && before.state.Live() then RevokedRecord(before, EXPIRED_REASON, now)
            else before
  {
    var g := LinksOf(s.leases);
    ReachedSnoc(g, done, p, id);
    BelowSelf(g, id);
    if id == p {
      assert p in done + [p];
      assert Precedes(g, done + [p], p);
    } else {
      PrecedesSnoc(g, done, p, id);
      if Below(g, id, p) && s.leases[id].Live() { LiveBelowDueIsDue(s, id, p, now); }
      if id in done { assert Reached(g, done, id); }
    }
  }

  /** Visiting a lease that an ancestor's cascade already killed changes nothing. */
  lemma OutcomeWhenDead(s: State, done: seq<LeaseId>, p: LeaseId, now: Time, id: LeaseId)
    requires p in s.leases && id in s.leases && p !in done
    requires forall a :: a in done ==> a < p
    requires Reached(LinksOf(s.leases), done, p)
    ensures Outcome(s, done + [p], now, id) == Outcome(s, done, now, id)
  {
    var g := LinksOf(s.leases);
    var a0 :| a0 in done && Below(g, p, a0);
    ReachedSnoc(g, done, p, id);
    if Below(g, id, p) { BelowTransitive(g, id, p, a0); }
    if id == p {
      assert a0 in done + [p];
      assert !Precedes(g, done + [p], p);
    } else {
      PrecedesSnoc(g, done, p, id);
    }
  }

  lemma ExpireOneMatches(s: State, done: seq<LeaseId>, p: LeaseId, now: Time, t: State)
    requires Static(s) && Static(t) && Records(t) && Matches(s, done, now, t)
    requires p in s.leases && Due(s.leases[p], now) && p !in done
    requires forall a :: a in done ==> a < p
    ensures Matches(s, done + [p], now, ExpireOne(t, p, now))
  {
    if t.leases[p].Live() { ExpireLiveMatches(s, done, p, now, t); } else { ExpireDeadMatches(s, done, p, now, t); }
  }

  lemma ExpireLiveMatches(s: State, done: seq<LeaseId>, p: LeaseId, now: Time, t: State)
    requires Static(s) && Static(t) && Records(t) && Matches(s, done, now, t)
    requires p in s.leases && Due(s.leases[p], now) && p !in done && t.leases[p].Live()
    requires forall a :: a in done ==> a < p
    ensures Matches(s, done + [p], now, ExpireOne(t, p, now))
  {
    var g := LinksOf(s.leases);
    SameLinks(s, t);
    var t' := ExpireOne(t, p, now);
    assert !Reached(g, done, p);
    ExpireOneEffect(t, p, now);
    var par := CascadeExact(g, p);
    forall id | id in s.leases ensures t'.leases[id].record == Outcome(s, done + [p], now, id) {
      OutcomeWhenLive(s, done, p, now, id);
    }
  }

  lemma ExpireDeadMatches(s: State, done: seq<LeaseId>, p: LeaseId, now: Time, t: State)
    requires Matches(s, done, now, t)
    requires p in s.leases && Due(s.leases[p], now) && p !in done && !t.leases[p].Live()
    requires forall a :: a in done ==> a < p
    ensures Matches(s, done + [p], now, ExpireOne(t, p, now))
  {
    forall id | id in s.leases ensures t.leases[id].record == Outcome(s, done + [p], now, id) {
      OutcomeWhenDead(s, done, p, now, id);
    }
  }

  lemma DoneBefore(done: seq<LeaseId>, rest: seq<LeaseId>)
    requires rest != [] && Ascending(IntLess, done + rest)
    ensures rest[0] in Elems(done + rest) && rest[0] !in done && forall a :: a in done ==> a < rest[0]
  {
    assert (done + rest)[|done|] == rest[0];
    forall a | a in done ensures a < rest[0] {
      var i :| 0 <= i < |done| && done[i] == a;
      assert IntLess((done + rest)[i], (done + rest)[|done|]);
    }
  }

  lemma {:induction false} ExpireEachMatches(s: State, done: seq<LeaseId>, rest: seq<LeaseId>, now: Time, t: State)
    requires Inv(s) && Inv(t) && Matches(s, done, now, t) && Ascending(IntLess, done + rest)
    requires Elems(done + rest) == DueIds(s.leases, now) && Elems(rest) <= t.leases.Keys
    ensures Matches(s, done + rest, now, ExpireEach(t, rest, now))
    decreases |rest|
  {
    if rest == [] {
      assert done + [] == done;
    } else {
      var p := rest[0];
      DoneBefore(done, rest);
      ExpireOneMatches(s, done, p, now, t);
      ExpireOneInv(t, p, now);
      assert (done + [p]) + rest[1..] == done + rest;
      assert forall x :: x in rest[1..] ==> x in rest;
      ExpireEachMatches(s, done + [p], rest[1..], now, ExpireOne(t, p, now));
    }
  }

  /** The id of a lease precedes those of all its due proper ancestors. */
  ghost predicate PrecedesDue(s: State, now: Time, id: LeaseId) {
    forall a :: a in s.leases && a != id && Due(s.leases[a], now) && Below(LinksOf(s.leases), id, a) ==> id < a
  }

  /** Refreshing touches exactly the live leases that are due, each by one generation.  A due lease
      expires if its id precedes those of all its due proper ancestors, and is revoked by an
      ancestor's cascade otherwise; nothing that was not due dies. */
  lemma RefreshExact(s: State, now: Time, id: LeaseId)
    requires Inv(s) && id in s.leases
    ensures id in RefreshExpirations(s, now).leases
    ensures var r, r' := s.leases[id].record, RefreshExpirations(s, now).leases[id].record;
            if !Due(s.leases[id], now) then r' == r
            else if PrecedesDue(s, now, id)
            then r' == ExpiredRecord(r)
            else r' == RevokedRecord(r, EXPIRED_REASON, now)
  {
    var g, due := LinksOf(s.leases), Listed(DueIds(s.leases, now));
    forall x | x in s.leases ensures s.leases[x].record == Outcome(s, [], now, x) {}
    assert Matches(s, [], now, s);
    assert [] + due == due;
    ExpireEachMatches(s, [], due, now, s);
    assert forall a :: a in due <==> a in Elems(due);
    if Due(s.leases[id], now) {
      BelowSelf(g, id);
      assert id in due;
      assert Reached(g, due, id);
    }
  }

  /** Which leases count as expired, in the order they are reported. */
  ghost function ExpiredList(s: State, due: seq<LeaseId>, now: Time): seq<LeaseId>
    requires Elems(due) <= s.leases.Keys
    decreases |due|
  {
    if due == [] then []
    else
      assert forall x :: x in due[1..] ==> x in due;
      assert due[0] in Elems(due);
      ExpireOneKeys(s, due[0], now);
      (if s.leases[due[0]].Live() then [due[0]] else []) + ExpiredList(ExpireOne(s, due[0], now), due[1..], now)
  }

  /** One turn of the loop, seen from the folds. */
  lemma ExpireStep(s: State, due: seq<LeaseId>, i: nat, listed: seq<LeaseId>, now: Time)
    requires i < |due| && due[i] in s.leases && Elems(due[i..]) <= s.leases.Keys && Elems(due[i + 1..]) <= s.leases.Keys
    ensures var s1 := ExpireOne(s, due[i], now);
            && s1.leases.Keys == s.leases.Keys
            && s1 == s.(leases := s1.leases, events := s1.events)
            && ExpireEach(s, due[i..], now) == ExpireEach(s1, due[i + 1..], now)
            && listed + ExpiredList(s, due[i..], now)
               == (if s.leases[due[i]].Live() then listed + [due[i]] else listed) + ExpiredList(s1, due[i + 1..], now)
  {
    assert due[i..][0] == due[i] && due[i..][1..] == due[i + 1..];
    ExpireOneKeys(s, due[i], now);
    if s.leases[due[i]].Live() {
      var s1 := PushEvent(SetRecord(s, due[i], ExpiredRecord(s.leases[due[i]].record)), due[i], None, LeaseExpired,
                          now);
      RevokeEachEffect(s1, Descendants(s1.leases, due[i]), due[i], EXPIRED_REASON, now);
    }
  }

  /** `out` lists, ascending, exactly the leases that went from live to Expired. */
  ghost predicate Reports(s: State, t: State, out: seq<LeaseId>) {
    && Ascending(IntLess, out)
    && s.leases.Keys == t.leases.Keys
    && Elems(out) <= s.leases.Keys
    && forall id :: id in s.leases ==> (id in out <==> s.leases[id].Live() && t.leases[id].record.state == Expired)
  }

  /** The reported list holds exactly the leases that ended Expired, ascending. */
  lemma {:induction false} ExpiredListExact(s: State, due: seq<LeaseId>, now: Time)
    requires Inv(s) && Elems(due) <= s.leases.Keys && Ascending(IntLess, due)
    ensures Reports(s, ExpireEach(s, due, now), ExpiredList(s, due, now))
    ensures Elems(ExpiredList(s, due, now)) <= Elems(due)
    decreases |due|
  {
    if due != [] {
      var p, rest := due[0], due[1..];
      assert forall x :: x in rest ==> x in due;
      assert p in Elems(due);
      var s1 := ExpireOne(s, p, now);
      ExpireOneInv(s, p, now);
      ExpiredListExact(s1, rest, now);
      assert forall i :: 0 <= i < |rest| ==> rest[i] == due[i + 1];
      ReportsFirst(s, s1, p, rest, now);
      ListWithin(p, rest, due, (if s.leases[p].Live() then [p] else []), ExpiredList(s1, rest, now));
    }
  }

  lemma ReportsFirst(s: State, s1: State, p: LeaseId, rest: seq<LeaseId>, now: Time)
    requires Inv(s) && Inv(s1) && p in s.leases && s1 == ExpireOne(s, p, now) && Elems(rest) <= s1.leases.Keys
    requires OnlyKills(s, s1) && forall i :: 0 <= i < |rest| ==> IntLess(p, rest[i])
    requires Reports(s1, ExpireEach(s1, rest, now), ExpiredList(s1, rest, now))
    requires Elems(ExpiredList(s1, rest, now)) <= Elems(rest)
    ensures Reports(s, ExpireEach(s1, rest, now), (if s.leases[p].Live() then [p] else []) + ExpiredList(s1, rest, now))
  {
    ExpireEachInv(s1, rest, now);
    ExpireOneOutcome(s, p, now);
    ReportsCons(s, s1, ExpireEach(s1, rest, now), p, rest, ExpiredList(s1, rest, now));
  }

  lemma ListWithin(p: LeaseId, rest: seq<LeaseId>, due: seq<LeaseId>, head: seq<LeaseId>, out: seq<LeaseId>)
    requires due == [p] + rest && (head == [] || head == [p]) && Elems(out) <= Elems(rest)
    ensures Elems(head + out) <= Elems(due)
  {
    forall x | x in head + out ensures x in due {
      if x in out { assert x in Elems(out); }
    }
  }

  lemma ExpireOneOutcome(s: State, p: LeaseId, now: Time)
    requires Static(s) && Records(s) && p in s.leases
    ensures ExpireOne(s, p, now).leases.Keys == s.leases.Keys
    ensures s.leases[p].Live() ==> ExpireOne(s, p, now).leases[p].record.state == Expired
    ensures forall x :: x in s.leases && x != p && s.leases[x].Live() && !ExpireOne(s, p, now).leases[x].Live()
                        ==> ExpireOne(s, p, now).leases[x].record.state == Revoked
  {
    if s.leases[p].Live() { ExpireOneEffect(s, p, now); }
  }

  lemma ReportsCons(s: State, s1: State, t: State, p: LeaseId, rest: seq<LeaseId>, out: seq<LeaseId>)
    requires OnlyKills(s, s1) && OnlyKills(s1, t) && Reports(s1, t, out) && p in s.leases
    requires Elems(out) <= Elems(rest) && forall i :: 0 <= i < |rest| ==> IntLess(p, rest[i])
    requires s.leases[p].Live() ==> s1.leases[p].record.state == Expired
    requires forall x :: x in s.leases && x != p && s.leases[x].Live() && !s1.leases[x].Live() ==>
              s1.leases[x].record.state == Revoked
    ensures Reports(s, t, (if s.leases[p].Live() then [p] else []) + out)
  {
    var head := if s.leases[p].Live() then [p] else [];
    AscendingCons(p, rest, out);
    assert [] + out == out;
    forall id | id in s.leases
      ensures id in head + out <==> s.leases[id].Live() && t.leases[id].record.state == Expired
    {
      assert id in head + out <==> id in head || id in out;
      ReportsAt(s.leases[id].record, s1.leases[id].record, t.leases[id].record, id == p, id in out);
    }
    forall x | x in head + out ensures x in s.leases {
      if x in out { assert x in Elems(out); }
    }
  }

  lemma ReportsAt(r: LeaseRecord, r1: LeaseRecord, r2: LeaseRecord, visited: bool, listed: bool)
    requires r1 == r || Killed(r, r1)
    requires r2 == r1 || Killed(r1, r2)
    requires listed <==> r1.state.Live() && r2.state == Expired
    requires r.state.Live() && visited ==> r1.state == Expired
    requires r.state.Live() && !visited && !r1.state.Live() ==> r1.state == Revoked
    ensures (visited && r.state.Live()) || listed <==> r.state.Live() && r2.state == Expired
  {}

  lemma AscendingCons(p: LeaseId, rest: seq<LeaseId>, out: seq<LeaseId>)
    requires Ascending(IntLess, out) && Elems(out) <= Elems(rest) && forall i :: 0 <= i < |rest| ==> IntLess(p, rest[i])
    ensures Ascending(IntLess, [p] + out)
  {
    forall i | 0 <= i < |out| ensures p < out[i] {
      assert out[i] in Elems(out);
      var j :| 0 <= j < |rest| && rest[j] == out[i];
    }
  }
}
