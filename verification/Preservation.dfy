/**
  Every kernel operation keeps the invariant, so every run does.
 */
module Preservation {
  import opened Basics
  import opened Canonical
  import opened Authority
  import opened Validation
  import opened Forest
  import opened Kernel
  import opened Invariant
  import opened Chain

  // ---------------------------------------------------------------- the log

  lemma ReplaySnoc(events: seq<Event>, e: Event)
    ensures Replay(events + [e]) == ReplayEvent(Replay(events), e)
    ensures forall id {:trigger Lifecycle(events + [e], id)} ::
              Lifecycle(events + [e], id) == Lifecycle(events, id) + if Advances(e, id) then 1 else 0
  {
    assert (events + [e])[..|events|] == events;
  }

  /** A record change keeps the log in step when the pushed event replays to it. */
  lemma LogFollows(s: State, id: LeaseId, record: LeaseRecord, related: Option<LeaseId>, kind: EventKind, now: Time)
    requires LogOk(s) && id in s.leases
    requires ReplayEvent(ViewsOf(s.leases), Event(|s.events| + 1, id, related, kind, now)) ==
             ViewsOf(s.leases)[id := ViewOf(record)]
    requires kind.LeasePaused? || kind.LeaseResumed? || kind.LeaseRevoked? || kind.LeaseExpired?
    requires record.generation == s.leases[id].record.generation + 1
    ensures LogOk(PushEvent(SetRecord(s, id, record), id, related, kind, now))
  {
    ReplaySnoc(s.events, Event(|s.events| + 1, id, related, kind, now));
    assert ViewsOf(SetRecord(s, id, record).leases) == ViewsOf(s.leases)[id := ViewOf(record)];
  }

  lemma RevokeOneLog(s: State, id: LeaseId, root: LeaseId, reason: string, now: Time)
    requires LogOk(s) && id in s.leases
    ensures LogOk(RevokeOne(s, id, root, reason, now))
  {
    if s.leases[id].Live() {
      var related := if id == root then None else Some(root);
      LogFollows(s, id, RevokedRecord(s.leases[id].record, reason, now), related, LeaseRevoked, now);
    }
  }

  lemma {:induction false} RevokeEachLog(s: State, order: seq<LeaseId>, root: LeaseId, reason: string, now: Time)
    requires LogOk(s) && Elems(order) <= s.leases.Keys
    ensures LogOk(RevokeEach(s, order, root, reason, now))
    decreases |order|
  {
    if order != [] {
      assert forall x :: x in order[1..] ==> x in order;
      assert order[0] in Elems(order);
      RevokeOneLog(s, order[0], root, reason, now);
      RevokeEachLog(RevokeOne(s, order[0], root, reason, now), order[1..], root, reason, now);
    }
  }

  /** A cascade does not look at records outside its order. */
  lemma {:induction false} RevokeEachCommutes(s: State, order: seq<LeaseId>, root: LeaseId, reason: string, now: Time,
                                              id: LeaseId, record: LeaseRecord)
    requires Elems(order) <= s.leases.Keys && id in s.leases && id !in order
    ensures var s' := RevokeEach(s, order, root, reason, now);
            && id in s'.leases
            && RevokeEach(SetRecord(s, id, record), order, root, reason, now) == SetRecord(s', id, record)
    decreases |order|
  {
    if order != [] {
      assert forall x :: x in order[1..] ==> x in order;
      assert order[0] in Elems(order);
      var s1 := RevokeOne(s, order[0], root, reason, now);
      assert RevokeOne(SetRecord(s, id, record), order[0], root, reason, now) == SetRecord(s1, id, record);
      RevokeEachCommutes(s1, order[1..], root, reason, now, id, record);
    }
  }

  // ---------------------------------------------------------------- pause and resume

  /** One live lease changes between Active and Paused; nothing else changes. */
  ghost predicate Toggles(s: State, s': State, id: LeaseId) {
    && id in s.leases && Extends(s, s') && s'.leases.Keys == s.leases.Keys
    && s'.identities == s.identities && s'.custodians == s.custodians && s'.rootLeaseId == s.rootLeaseId
    && s.leases[id].Live() && s'.leases[id].Live()
    && (forall y :: y in s.leases && y != id ==> s'.leases[y] == s.leases[y])
    && var r, r' := s.leases[id].record, s'.leases[id].record;
       r'.(state := r.state, generation := r.generation) == r
  }

  lemma TransitionShape(s: State, id: LeaseId, expected: nat, from: LeaseState, to: LeaseState, kind: EventKind,
                        now: Time)
    requires from.Live() && to.Live() && Transition(s, id, expected, from, to, kind, now).Ok?
    ensures Toggles(s, Transition(s, id, expected, from, to, kind, now).value, id)
  {}

  lemma TransitionLog(s: State, id: LeaseId, expected: nat, from: LeaseState, to: LeaseState, kind: EventKind,
                      now: Time)
    requires LogOk(s) && Transition(s, id, expected, from, to, kind, now).Ok?
    requires (from, to, kind) in {(Active, Paused, LeasePaused), (Paused, Active, LeaseResumed)}
    ensures LogOk(Transition(s, id, expected, from, to, kind, now).value)
  {
    var r := s.leases[id].record;
    LogFollows(s, id, r.(state := to, generation := r.generation + 1), None, kind, now);
  }

  lemma TransitionInv(s: State, id: LeaseId, expected: nat, from: LeaseState, to: LeaseState, kind: EventKind,
                      now: Time)
    requires Inv(s) && (from, to, kind) in {(Active, Paused, LeasePaused), (Paused, Active, LeaseResumed)}
    requires Transition(s, id, expected, from, to, kind, now).Ok?
    ensures Inv(Transition(s, id, expected, from, to, kind, now).value)
  {
    var s' := Transition(s, id, expected, from, to, kind, now).value;
    TransitionShape(s, id, expected, from, to, kind, now);
    TransitionLog(s, id, expected, from, to, kind, now);
    ToggleKeepsStatic(s, s', id);
    ToggleKeepsRecords(s, s', id);
    ToggleKeepsLiveClosed(s, s', id);
    ToggleKeepsHistory(s, s', id);
  }

  lemma ToggleKeepsStatic(s: State, s': State, id: LeaseId)
    requires Static(s) && Toggles(s, s', id)
    ensures Static(s')
  {
    StaticExtends(s, s');
  }

  lemma ToggleKeepsRecords(s: State, s': State, id: LeaseId)
    requires Records(s) && Toggles(s, s', id)
    ensures Records(s')
  {
    forall x | x in s'.leases ensures RecordOk(s'.leases, x) {
      assert RecordOk(s.leases, x);
      ToggleKeepsRecord(s, s', id, x);
    }
  }

  lemma ToggleKeepsRecord(s: State, s': State, id: LeaseId, x: LeaseId)
    requires Toggles(s, s', id) && RecordOk(s.leases, x)
    ensures RecordOk(s'.leases, x)
  {
    var r := s.leases[x].record;
    assert s'.leases[x].certificate == s.leases[x].certificate;
    if r.renewedBy.Some? {
      var n := r.renewedBy.value;
      assert s'.leases[n].certificate == s.leases[n].certificate;
    }
  }

  lemma ToggleKeepsLiveClosed(s: State, s': State, id: LeaseId)
    requires LiveClosed(s) && Toggles(s, s', id)
    ensures LiveClosed(s')
  {
    forall x | x in s'.leases ensures LiveUnderLive(s'.leases, x) { assert LiveUnderLive(s.leases, x); }
  }

  lemma ToggleKeepsHistory(s: State, s': State, id: LeaseId)
    requires OneHistory(s) && RootOk(s) && Toggles(s, s', id)
    ensures OneHistory(s') && RootOk(s')
  {
    HistoryKept(s, s');
  }

  // ---------------------------------------------------------------- revoke

  lemma RevokeKills(s: State, id: LeaseId, expected: nat, reason: string, now: Time)
    requires Records(s) && LiveClosed(s) && Revoke(s, id, expected, reason, now).Ok?
    ensures var s' := Revoke(s, id, expected, reason, now).value; OnlyKills(s, s') && LiveClosed(s')
  {
    var order := Cascade(LinksOf(s.leases), id);
    var s' := Revoke(s, id, expected, reason, now).value;
    CascadeInLeases(s.leases, id);
    RevokeEachEffect(s, order, id, reason, now);
    RevokedIsKill(s, s', order, reason, now);
    CascadeKeepsLiveClosed(s, s', id);
  }

  lemma RevokeLog(s: State, id: LeaseId, expected: nat, reason: string, now: Time)
    requires LogOk(s) && Revoke(s, id, expected, reason, now).Ok?
    ensures LogOk(Revoke(s, id, expected, reason, now).value)
  {
    CascadeInLeases(s.leases, id);
    RevokeEachLog(s, Cascade(LinksOf(s.leases), id), id, reason, now);
  }

  lemma RevokeInv(s: State, id: LeaseId, expected: nat, reason: string, now: Time)
    requires Inv(s) && Revoke(s, id, expected, reason, now).Ok?
    ensures Inv(Revoke(s, id, expected, reason, now).value)
    ensures OnlyKills(s, Revoke(s, id, expected, reason, now).value)
  {
    RevokeKills(s, id, expected, reason, now);
    RevokeLog(s, id, expected, reason, now);
    OnlyKillsKeeps(s, Revoke(s, id, expected, reason, now).value);
  }

  // ---------------------------------------------------------------- expiry

  /** What one iteration of the expiry loop does to a live lease and everything below it. */
  lemma ExpireOneEffect(s: State, id: LeaseId, now: Time)
    requires Static(s) && Records(s) && id in s.leases && s.leases[id].Live()
    ensures var s', order := ExpireOne(s, id, now), Cascade(LinksOf(s.leases), id);
            && OnlyKills(s, s')
            && s'.leases[id].record == ExpiredRecord(s.leases[id].record)
            && forall x :: x in s.leases && x != id ==>
                 s'.leases[x].record == if x in order && s.leases[x].Live()
                                        then RevokedRecord(s.leases[x].record, EXPIRED_REASON, now)
                                        else s.leases[x].record
  {
    var s1 := PushEvent(SetRecord(s, id, ExpiredRecord(s.leases[id].record)), id, None, LeaseExpired, now);
    assert RecordOk(s.leases, id);
    assert OnlyKills(s, s1);
    OnlyKillsRecords(s, s1);
    SameLinks(s, s1);
    var below := Descendants(s1.leases, id);
    RevokeEachEffect(s1, below, id, EXPIRED_REASON, now);
    var s' := ExpireOne(s, id, now);
    RevokedIsKill(s1, s', below, EXPIRED_REASON, now);
    OnlyKillsTransitive(s, s1, s');
  }

  lemma OnlyKillsRecords(s: State, s': State)
    requires OnlyKills(s, s') && Records(s)
    ensures Records(s')
  {
    forall id | id in s'.leases
      ensures RecordOk(s'.leases, id)
    {
      assert RecordOk(s.leases, id);
      KillKeepsRecord(s, s', id);
    }
  }

  lemma ExpireOneLog(s: State, id: LeaseId, now: Time)
    requires LogOk(s) && id in s.leases && s.leases[id].Live()
    ensures LogOk(ExpireOne(s, id, now))
  {
    LogFollows(s, id, ExpiredRecord(s.leases[id].record), None, LeaseExpired, now);
    var s1 := PushEvent(SetRecord(s, id, ExpiredRecord(s.leases[id].record)), id, None, LeaseExpired, now);
    RevokeEachLog(s1, Descendants(s1.leases, id), id, EXPIRED_REASON, now);
  }

  lemma ExpireOneLiveClosed(s: State, id: LeaseId, now: Time)
    requires Static(s) && Records(s) && LiveClosed(s) && id in s.leases && s.leases[id].Live()
    ensures LiveClosed(ExpireOne(s, id, now))
  {
    ExpireOneEffect(s, id, now);
    CascadeInLeases(s.leases, id);
    CascadeKeepsLiveClosed(s, ExpireOne(s, id, now), id);
  }

  lemma ExpireOneInv(s: State, id: LeaseId, now: Time)
    requires Inv(s) && id in s.leases
    ensures Inv(ExpireOne(s, id, now)) && OnlyKills(s, ExpireOne(s, id, now))
  {
    if s.leases[id].Live() {
      ExpireOneEffect(s, id, now);
      OnlyKillsKeeps(s, ExpireOne(s, id, now));
      ExpireOneLiveClosed(s, id, now);
      ExpireOneLog(s, id, now);
    }
  }

  lemma {:induction false} ExpireEachInv(s: State, due: seq<LeaseId>, now: Time)
    requires Inv(s) && Elems(due) <= s.leases.Keys
    ensures Inv(ExpireEach(s, due, now)) && OnlyKills(s, ExpireEach(s, due, now))
    decreases |due|
  {
    if due != [] {
      assert forall x :: x in due[1..] ==> x in due;
      assert due[0] in Elems(due);
      var s1 := ExpireOne(s, due[0], now);
      ExpireOneInv(s, due[0], now);
      ExpireEachInv(s1, due[1..], now);
      OnlyKillsTransitive(s, s1, ExpireEach(s1, due[1..], now));
    }
  }

  lemma RefreshInv(s: State, now: Time)
    requires Inv(s)
    ensures Inv(RefreshExpirations(s, now)) && OnlyKills(s, RefreshExpirations(s, now))
  {
    ExpireEachInv(s, Listed(DueIds(s.leases, now)), now);
  }

  // ---------------------------------------------------------------- adding a lease

  /** `s'` is `s` with one more live lease, and possibly one more identity. */
  ghost predicate Adds(s: State, s': State, id: LeaseId) {
    && Extends(s, s')
    && id !in s.leases
    && s'.leases.Keys == s.leases.Keys + {id}
    && s'.leases[id].record == ActiveRecord(id)
  }

  lemma BootstrapLog(request: RootRequest, custody: Custody, now: Time, id: LeaseId)
    requires Bootstrap(request, custody, now, id).Ok?
    ensures LogOk(Bootstrap(request, custody, now, id).value)
  {
    var s := Bootstrap(request, custody, now, id).value;
    var e1 := Event(1, id, None, IdentityRegistered, now);
    var e2 := Event(2, id, None, LeaseIssued, now);
    assert [] + [e1] == [e1];
    ReplaySnoc([], e1);
    ReplaySnoc([e1], e2);
    assert s.events == [e1] + [e2];
    assert Replay(s.events) == ViewsOf(s.leases);
  }

  lemma BootstrapStatic(request: RootRequest, custody: Custody, now: Time, id: LeaseId)
    requires Bootstrap(request, custody, now, id).Ok?
    ensures Static(Bootstrap(request, custody, now, id).value)
  {
    var s := Bootstrap(request, custody, now, id).value;
    assert s.leases.Keys == {id} && s.identities.Keys == {request.agentId};
    assert IdentityOk(s, request.agentId);
    assert CertificateOk(s, id);
  }

  lemma BootstrapInv(request: RootRequest, custody: Custody, now: Time, id: LeaseId)
    requires Bootstrap(request, custody, now, id).Ok?
    ensures Inv(Bootstrap(request, custody, now, id).value)
  {
    var s := Bootstrap(request, custody, now, id).value;
    BootstrapStatic(request, custody, now, id);
    BootstrapLog(request, custody, now, id);
    assert s.leases.Keys == {id};
    assert RecordOk(s.leases, id) && LiveUnderLive(s.leases, id);
  }

  // ---------------------------------------------------------------- delegate

  /** The checks a successful delegation passed, and the lease it adds. */
  ghost predicate Delegates(s: State, request: DelegationRequest, custody: Custody, now: Time, id: LeaseId,
                            identity: IdentityCert, certificate: LeaseCert, s': State) {
    && request.parentLeaseId in s.leases
    && var parent := s.leases[request.parentLeaseId];
       var agent := parent.certificate.body.agentId;
       && ValidateActiveRecord(parent, Some(request.expectedParentGeneration), now).Ok?
       && ValidateDelegationRequest(s, parent, request, now).Ok?
       && request.childAgentId !in s.identities
       && agent in s.custodians && agent in s.identities
       && SignedIdentity(request.childAgentId, custody, Some(agent), s.custodians[agent], now) == Ok(identity)
       && ManifestDigest(request.manifest).Ok?
       && SignedLease(
            ChildBody(parent.certificate.body, parent.certificate.Reference(), s.identities[agent],
                      s.custodians[agent].keyId, identity, ManifestDigest(request.manifest).value, request, now, id),
            s.custodians[agent]) == Ok(certificate)
       && s'.mission == s.mission && s'.rootLeaseId == s.rootLeaseId
       && s'.identities == s.identities[request.childAgentId := identity]
       && s'.custodians == s.custodians[request.childAgentId := custody]
       && s'.leases == s.leases[id := LeaseEntry(certificate, ActiveRecord(id), request.manifest)]
       && s'.events == s.events
            + [Event(|s.events| + 1, id, Some(request.parentLeaseId), IdentityRegistered, now)]
            + [Event(|s.events| + 2, id, Some(request.parentLeaseId), LeaseDelegated, now)]
  }

  lemma DelegateChain(s: State, request: DelegationRequest, custody: Custody, now: Time, id: LeaseId)
    requires Delegate(s, request, custody, now, id).Ok?
    ensures request.parentLeaseId in s.leases
    ensures var chain := ValidateChain(s, request.parentLeaseId, Some(request.expectedParentGeneration),
                                       s.leases[request.parentLeaseId].manifest, now);
            chain.Ok? && |chain.value.chain| < MAX_AUTHORITY_CHAIN_DEPTH
  {}

  lemma DelegateShape(s: State, request: DelegationRequest, custody: Custody, now: Time, id: LeaseId)
    returns (identity: IdentityCert, certificate: LeaseCert)
    requires Delegate(s, request, custody, now, id).Ok?
    ensures Delegates(s, request, custody, now, id, identity, certificate, Delegate(s, request, custody, now, id).value)
  {
    var parent := s.leases[request.parentLeaseId];
    var agent := parent.certificate.body.agentId;
    identity := SignedIdentity(request.childAgentId, custody, Some(agent), s.custodians[agent], now).value;
    var body := ChildBody(parent.certificate.body, parent.certificate.Reference(), s.identities[agent],
                          s.custodians[agent].keyId, identity, ManifestDigest(request.manifest).value, request, now,
                          id);
    certificate := SignedLease(body, s.custodians[agent]).value;
  }

  lemma ChildAdds(s: State, request: DelegationRequest, custody: Custody, now: Time, id: LeaseId,
                  identity: IdentityCert, certificate: LeaseCert, s': State)
    requires s.custodians.Keys == s.identities.Keys && id !in s.leases
    requires Delegates(s, request, custody, now, id, identity, certificate, s')
    ensures Adds(s, s', id)
  {}

  lemma ChildIdentity(s: State, request: DelegationRequest, custody: Custody, now: Time, id: LeaseId,
                      identity: IdentityCert, certificate: LeaseCert, s': State)
    requires Static(s) && id !in s.leases && Delegates(s, request, custody, now, id, identity, certificate, s')
    ensures IdentityOk(s', request.childAgentId)
  {
    assert CertificateOk(s, request.parentLeaseId);
    assert IdentityOk(s, s.leases[request.parentLeaseId].certificate.body.agentId);
  }

  lemma ChildSigned(s: State, request: DelegationRequest, custody: Custody, now: Time, id: LeaseId,
                    identity: IdentityCert, certificate: LeaseCert, s': State)
    requires Static(s) && id !in s.leases && Delegates(s, request, custody, now, id, identity, certificate, s')
    ensures Adds(s, s', id) && IdentityOk(s', request.childAgentId) && SignedFor(s', s'.leases[id])
  {
    ChildAdds(s, request, custody, now, id, identity, certificate, s');
    ChildIdentity(s, request, custody, now, id, identity, certificate, s');
    assert CertificateOk(s, request.parentLeaseId);
    assert IdentityOk(s, s.leases[request.parentLeaseId].certificate.body.agentId);
  }

  lemma ChildFits(s: State, request: DelegationRequest, custody: Custody, now: Time, id: LeaseId,
                  identity: IdentityCert, certificate: LeaseCert, s': State)
    requires Static(s) && id !in s.leases && Delegates(s, request, custody, now, id, identity, certificate, s')
    ensures WithinMission(s.mission, s'.leases[id]) && ParentOk(s'.leases, s'.leases[id])
    ensures Depth(certificate) == 1 + Depth(s.leases[request.parentLeaseId].certificate)
  {
    var pid := request.parentLeaseId;
    var parent, entry := s.leases[pid], s'.leases[id];
    var p, b := parent.certificate.body, certificate.body;
    assert CertificateOk(s, pid);
    assert s'.leases[pid] == parent;
    CapsWithinTransitive(b.granted.capabilities, p.delegable.capabilities, p.granted.capabilities);
    CapsWithinTransitive(b.granted.capabilities, p.granted.capabilities, s.mission.allowedCapabilities);
    ToolsInMissionShrinks(entry.manifest.tools, parent.manifest.tools, s.mission);
  }

  /** The delegated lease is well bound to an agent that had none. */
  lemma ChildCertificate(s: State, request: DelegationRequest, custody: Custody, now: Time, id: LeaseId,
                         identity: IdentityCert, certificate: LeaseCert, s': State)
    requires Static(s) && id !in s.leases && Delegates(s, request, custody, now, id, identity, certificate, s')
    requires Depth(s.leases[request.parentLeaseId].certificate) < MAX_AUTHORITY_CHAIN_DEPTH
    ensures Adds(s, s', id) && IdentityOk(s', request.childAgentId) && CertificateOk(s', id)
  {
    ChildSigned(s, request, custody, now, id, identity, certificate, s');
    ChildFits(s, request, custody, now, id, identity, certificate, s');
  }

  lemma ToolsInMissionShrinks(child: seq<BoundTool>, parent: seq<BoundTool>, mission: Mission)
    requires ToolsWithin(child, parent) && ToolsInMission(parent, mission)
    ensures ToolsInMission(child, mission)
  {
    forall i | 0 <= i < |child| ensures child[i].toolId in mission.allowedTools {
      var j :| 0 <= j < |parent| && parent[j] == child[i];
    }
  }

  lemma DelegateLog(s: State, request: DelegationRequest, custody: Custody, now: Time, id: LeaseId,
                    identity: IdentityCert, certificate: LeaseCert, s': State)
    requires LogOk(s) && id !in s.leases && Delegates(s, request, custody, now, id, identity, certificate, s')
    ensures LogOk(s')
  {
    AddedLog(s, id, Some(request.parentLeaseId), s'.leases[id], now, s');
  }

  /** Registering an identity and delegating to it logs two events. */
  lemma AddedLog(s: State, id: LeaseId, related: Option<LeaseId>, entry: LeaseEntry, now: Time, s': State)
    requires LogOk(s) && id !in s.leases && entry.record == ActiveRecord(id) && s'.leases == s.leases[id := entry]
    requires s'.events == s.events + [Event(|s.events| + 1, id, related, IdentityRegistered, now)]
                                   + [Event(|s.events| + 2, id, related, LeaseDelegated, now)]
    ensures LogOk(s')
  {
    var e1 := Event(|s.events| + 1, id, related, IdentityRegistered, now);
    var e2 := Event(|s.events| + 2, id, related, LeaseDelegated, now);
    ReplaySnoc(s.events, e1);
    ReplaySnoc(s.events + [e1], e2);
    assert ViewsOf(s'.leases) == ViewsOf(s.leases)[id := View(Active, 0, None, None)];
  }

  lemma AddKeepsRecord(s: State, s': State, id: LeaseId, x: LeaseId)
    requires Adds(s, s', id) && s'.leases == s.leases[id := s'.leases[id]] && RecordOk(s.leases, x)
    ensures RecordOk(s'.leases, x)
  {
    var r := s.leases[x].record;
    if r.renewedBy.Some? {
      var n := r.renewedBy.value;
      assert s'.leases[n] == s.leases[n];
    }
  }

  lemma DelegateInv(s: State, request: DelegationRequest, custody: Custody, now: Time, id: LeaseId)
    requires Inv(s) && id !in s.leases && Delegate(s, request, custody, now, id).Ok?
    ensures Inv(Delegate(s, request, custody, now, id).value)
  {
    var s' := Delegate(s, request, custody, now, id).value;
    var pid := request.parentLeaseId;
    var identity, certificate := DelegateShape(s, request, custody, now, id);
    DelegateChain(s, request, custody, now, id);
    AcceptedChain(s, pid, Some(request.expectedParentGeneration), s.leases[pid].manifest, now);
    DelegatesInv(s, request, custody, now, id, identity, certificate, s');
  }

  lemma DelegatesInv(s: State, request: DelegationRequest, custody: Custody, now: Time, id: LeaseId,
                     identity: IdentityCert, certificate: LeaseCert, s': State)
    requires Inv(s) && id !in s.leases && Delegates(s, request, custody, now, id, identity, certificate, s')
    requires Depth(s.leases[request.parentLeaseId].certificate) < MAX_AUTHORITY_CHAIN_DEPTH
    ensures Inv(s')
  {
    DelegatesStatic(s, request, custody, now, id, identity, certificate, s');
    DelegateLog(s, request, custody, now, id, identity, certificate, s');
    AddKeepsRecords(s, s', id);
    AddKeepsLiveClosed(s, s', id, request.parentLeaseId);
    NewAgentKeepsHistory(s, s', id);
  }

  lemma DelegatesStatic(s: State, request: DelegationRequest, custody: Custody, now: Time, id: LeaseId,
                        identity: IdentityCert, certificate: LeaseCert, s': State)
    requires Static(s) && id !in s.leases && Delegates(s, request, custody, now, id, identity, certificate, s')
    requires Depth(s.leases[request.parentLeaseId].certificate) < MAX_AUTHORITY_CHAIN_DEPTH
    ensures Static(s') && Adds(s, s', id) && s.leases[request.parentLeaseId].Live()
    ensures var body := s'.leases[id].certificate.body;
            && body.agentId !in s.identities && RenewalLinked(s'.leases, body)
            && body.parentLease.Some? && body.parentLease.value.leaseId == request.parentLeaseId
  {
    assert CertificateOk(s, request.parentLeaseId);
    ChildCertificate(s, request, custody, now, id, identity, certificate, s');
    StaticExtends(s, s');
  }

  lemma AddKeepsRecords(s: State, s': State, id: LeaseId)
    requires Records(s) && Adds(s, s', id) && s'.leases == s.leases[id := s'.leases[id]]
    requires RenewalLinked(s'.leases, s'.leases[id].certificate.body)
    ensures Records(s')
  {
    forall x | x in s'.leases ensures RecordOk(s'.leases, x) {
      if x != id { assert RecordOk(s.leases, x); AddKeepsRecord(s, s', id, x); }
    }
  }

  lemma AddKeepsLiveClosed(s: State, s': State, id: LeaseId, parent: LeaseId)
    requires LiveClosed(s) && Adds(s, s', id) && s'.leases == s.leases[id := s'.leases[id]]
    requires parent in s.leases && s.leases[parent].Live()
    requires s'.leases[id].certificate.body.parentLease.Some?
    requires s'.leases[id].certificate.body.parentLease.value.leaseId == parent
    ensures LiveClosed(s')
  {
    forall x | x in s'.leases ensures LiveUnderLive(s'.leases, x) {
      if x != id { assert LiveUnderLive(s.leases, x); }
    }
  }

  lemma NewAgentKeepsHistory(s: State, s': State, id: LeaseId)
    requires Static(s) && OneHistory(s) && RootOk(s) && Adds(s, s', id)
    requires s'.leases == s.leases[id := s'.leases[id]] && s'.rootLeaseId == s.rootLeaseId
    requires s'.leases[id].certificate.body.agentId !in s.identities
    requires s'.leases[id].certificate.body.parentLease.Some?
    ensures OneHistory(s') && RootOk(s')
  {
    forall x, y | SameAgent(s', x, y) ensures x == y == id || SameAgent(s, x, y) {
      if x in s.leases { assert CertificateOk(s, x); }
      if y in s.leases { assert CertificateOk(s, y); }
    }
    forall x | x in s.leases ensures Unrenewed(s', x) == Unrenewed(s, x) && Original(s', x) == Original(s, x) {}
    forall x | x in s'.leases && s'.leases[x].certificate.body.parentLease == None
      ensures AgentOf(s'.leases, x) == AgentOf(s'.leases, s'.rootLeaseId)
    {
      assert x in s.leases;
    }
  }

  // ---------------------------------------------------------------- renew

  /** Going down the forest goes deeper, so nothing is below its own descendant. */
  lemma {:induction false} BelowIsDeeper(s: State, x: LeaseId, root: LeaseId, n: nat)
    requires Static(s) && x in s.leases && Up(LinksOf(s.leases), x, n) == Some(root)
    ensures root in s.leases && Depth(s.leases[x].certificate) == Depth(s.leases[root].certificate) + n
    decreases n
  {
    var g := LinksOf(s.leases);
    assert CertificateOk(s, x);
    if n > 0 {
      if s.leases[x].certificate.body.parentLease.Some? {
        var p := ParentFacts(s, x);
        UpFromParent(g, x, p, n - 1);
        BelowIsDeeper(s, p, root, n - 1);
      } else {
        TopStays(g, x, n);
      }
    }
  }

  lemma ParentNotBelow(s: State, id: LeaseId)
    requires Static(s) && id in s.leases && s.leases[id].certificate.body.parentLease.Some?
    ensures s.leases[id].certificate.body.parentLease.value.leaseId !in Cascade(LinksOf(s.leases), id)
  {
    assert CertificateOk(s, id);
    var p := ParentFacts(s, id);
    var g := LinksOf(s.leases);
    var par := CascadeExact(g, id);
    if p in Cascade(g, id) {
      var n: nat :| Up(g, p, n) == Some(id);
      BelowIsDeeper(s, p, id, n);
    }
  }

  lemma AttenuatesTransitive(a: Manifest, b: Manifest, c: Manifest)
    requires Attenuates(a, b) && Attenuates(b, c)
    ensures Attenuates(a, c)
  {
    forall i | 0 <= i < |a.tools| ensures a.tools[i] in c.tools {
      var j :| 0 <= j < |b.tools| && b.tools[j] == a.tools[i];
    }
  }

  /** A certificate that passed the renewal checks narrows its predecessor and fits its parent. */
  lemma RenewedEntryOk(s: State, request: RenewalRequest, now: Time, id: LeaseId, certificate: LeaseCert)
    requires Static(s) && RenewalCertificate(s, request, now, id) == Ok(certificate)
    ensures request.leaseId in s.leases
    ensures EntryOk(s, id, LeaseEntry(certificate, ActiveRecord(id), request.manifest))
    ensures certificate.body.renewedFrom == Some(s.leases[request.leaseId].certificate.Reference())
    ensures Narrows(s.leases[request.leaseId], LeaseEntry(certificate, ActiveRecord(id), request.manifest))
  {
    var prior := s.leases[request.leaseId];
    var issuer := IssuerAgent(prior.certificate.body);
    assert CertificateOk(s, request.leaseId);
    assert IdentityOk(s, issuer);
    assert ValidateRenewalRequest(s, prior, request, now).Ok?;
    var digest := ManifestDigest(request.manifest).value;
    assert certificate.body == RenewedBody(prior.certificate, s.identities[issuer], s.custodians[issuer].keyId, digest,
                                           request, now, id);
    RenewalFits(s, request, now, certificate);
  }

  lemma RenewalFits(s: State, request: RenewalRequest, now: Time, certificate: LeaseCert)
    requires request.leaseId in s.leases && CertificateOk(s, request.leaseId)
    requires ValidateRenewalRequest(s, s.leases[request.leaseId], request, now).Ok?
    requires var a, b := s.leases[request.leaseId].certificate.body, certificate.body;
             && b.parentLease == a.parentLease && b.parentAgentId == a.parentAgentId
             && b.granted == request.granted && b.delegable == request.delegable && b.expiresAt == request.expiresAt
    ensures var next := LeaseEntry(certificate, ActiveRecord(certificate.body.leaseId), request.manifest);
            && WithinMission(s.mission, next)
            && ParentOk(s.leases, next)
            && Depth(certificate) == Depth(s.leases[request.leaseId].certificate)
  {
    var prior := s.leases[request.leaseId];
    var a := prior.certificate.body;
    CapsWithinTransitive(request.granted.capabilities, a.granted.capabilities, s.mission.allowedCapabilities);
    ToolsInMissionShrinks(request.manifest.tools, prior.manifest.tools, s.mission);
    if a.parentLease.Some? {
      var p := ParentFacts(s, request.leaseId);
      CapsWithinTransitive(request.granted.capabilities, a.granted.capabilities,
                           s.leases[p].certificate.body.delegable.capabilities);
      AttenuatesTransitive(request.manifest, prior.manifest, s.leases[p].manifest);
    }
  }

  /** `s'` is `k` with `prior` retired in favour of the new lease `id`. */
  ghost predicate Renews(k: State, prior: LeaseId, id: LeaseId, next: LeaseEntry, now: Time, s': State) {
    && prior in k.leases && id !in k.leases
    && k.leases[prior].record.state == Active
    && next.record == ActiveRecord(id)
    && s'.mission == k.mission && s'.identities == k.identities && s'.custodians == k.custodians
    && s'.rootLeaseId == (if k.rootLeaseId == prior then id else k.rootLeaseId)
    && s'.leases == k.leases[prior := k.leases[prior].(record := RetiredRecord(k.leases[prior].record, id))][id := next]
    && s'.events == k.events + [Event(|k.events| + 1, id, Some(prior), LeaseRenewed, now)]
  }

  /** Retiring a lease commutes with the cascade below it. */
  lemma CascadeUnderRetired(s: State, prior: LeaseId, id: LeaseId, now: Time) returns (k: State)
    requires Records(s) && prior in s.leases
    ensures prior in k.leases && k.leases[prior] == s.leases[prior]
    ensures var record := RetiredRecord(s.leases[prior].record, id);
            RevokeDescendants(SetRecord(s, prior, record), prior, RETIRED_REASON, now) == SetRecord(k, prior, record)
    ensures OnlyKills(s, k) && (LogOk(s) ==> LogOk(k))
    ensures RevokedExactly(s.leases, k.leases, Descendants(s.leases, prior), RETIRED_REASON, now)
  {
    var record := RetiredRecord(s.leases[prior].record, id);
    var order := Descendants(s.leases, prior);
    SameLinks(s, SetRecord(s, prior, record));
    RevokeEachCommutes(s, order, prior, RETIRED_REASON, now, prior, record);
    k := RevokeEach(s, order, prior, RETIRED_REASON, now);
    RevokeEachEffect(s, order, prior, RETIRED_REASON, now);
    RevokedIsKill(s, k, order, RETIRED_REASON, now);
    if LogOk(s) { RevokeEachLog(s, order, prior, RETIRED_REASON, now); }
  }

  lemma RenewalNeedsActive(s: State, request: RenewalRequest, now: Time, id: LeaseId)
    requires RenewalCertificate(s, request, now, id).Ok?
    ensures request.leaseId in s.leases && s.leases[request.leaseId].record.state == Active
    ensures RenewalCertificate(s, request, now, id).value.body.leaseId == id
  {}

  /** A renewal is a cascade below the retired lease followed by the exchange of two records. */
  lemma RenewShape(s: State, request: RenewalRequest, now: Time, id: LeaseId) returns (k: State, certificate: LeaseCert)
    requires Records(s) && id !in s.leases && Renew(s, request, now, id).Ok?
    ensures RenewalCertificate(s, request, now, id) == Ok(certificate)
    ensures request.leaseId in s.leases
    ensures Renews(k, request.leaseId, id, LeaseEntry(certificate, ActiveRecord(id), request.manifest), now,
                   Renew(s, request, now, id).value)
    ensures OnlyKills(s, k) && (LogOk(s) ==> LogOk(k))
    ensures RevokedExactly(s.leases, k.leases, Descendants(s.leases, request.leaseId), RETIRED_REASON, now)
    ensures k.leases[request.leaseId] == s.leases[request.leaseId]
  {
    RenewalNeedsActive(s, request, now, id);
    certificate := RenewalCertificate(s, request, now, id).value;
    k := CascadeUnderRetired(s, request.leaseId, id, now);
    InstallShape(k, request.leaseId, id, certificate, request.manifest, now);
  }

  lemma InstallShape(k: State, prior: LeaseId, id: LeaseId, certificate: LeaseCert, manifest: Manifest, now: Time)
    requires prior in k.leases && id !in k.leases && k.leases[prior].record.state == Active
    requires certificate.body.leaseId == id
    ensures Renews(k, prior, id, LeaseEntry(certificate, ActiveRecord(id), manifest), now,
                   InstallRenewal(SetRecord(k, prior, RetiredRecord(k.leases[prior].record, id)), prior, certificate,
                                  manifest, now))
  {}

  lemma RenewsLog(k: State, prior: LeaseId, id: LeaseId, next: LeaseEntry, now: Time, s': State)
    requires LogOk(k) && Renews(k, prior, id, next, now, s')
    ensures LogOk(s')
  {
    var e := Event(|k.events| + 1, id, Some(prior), LeaseRenewed, now);
    ReplaySnoc(k.events, e);
    assert ViewsOf(s'.leases) == ReplayEvent(ViewsOf(k.leases), e);
  }

  lemma RenewsRecord(k: State, prior: LeaseId, id: LeaseId, next: LeaseEntry, now: Time, s': State, x: LeaseId)
    requires Records(k) && Renews(k, prior, id, next, now, s') && x in s'.leases
    requires next.certificate.body.renewedFrom == Some(k.leases[prior].certificate.Reference())
    requires next.certificate.body.leaseId == id && k.leases[prior].certificate.body.leaseId == prior
    requires next.certificate.body.agentId == k.leases[prior].certificate.body.agentId
    requires next.certificate.body.missionId == k.leases[prior].certificate.body.missionId
    ensures RecordOk(s'.leases, x)
  {
    assert s'.leases[prior].certificate == k.leases[prior].certificate;
    if x != id {
      assert RecordOk(k.leases, x);
      var r := k.leases[x].record;
      if r.renewedBy.Some? {
        var n := r.renewedBy.value;
        assert s'.leases[n].certificate == k.leases[n].certificate;
      }
      if k.leases[x].certificate.body.renewedFrom.Some? {
        var q := k.leases[x].certificate.body.renewedFrom.value.leaseId;
        assert q != prior;
        assert s'.leases[q] == k.leases[q];
      }
    }
  }

  lemma RenewsRecords(k: State, prior: LeaseId, id: LeaseId, next: LeaseEntry, now: Time, s': State)
    requires Records(k) && Renews(k, prior, id, next, now, s')
    requires next.certificate.body.renewedFrom == Some(k.leases[prior].certificate.Reference())
    requires next.certificate.body.leaseId == id && k.leases[prior].certificate.body.leaseId == prior
    requires next.certificate.body.agentId == k.leases[prior].certificate.body.agentId
    requires next.certificate.body.missionId == k.leases[prior].certificate.body.missionId
    ensures Records(s')
  {
    forall x | x in s'.leases ensures RecordOk(s'.leases, x) { RenewsRecord(k, prior, id, next, now, s', x); }
  }

  lemma RenewsHistory(k: State, prior: LeaseId, id: LeaseId, next: LeaseEntry, now: Time, s': State)
    requires Records(k) && OneHistory(k) && RootOk(k) && Renews(k, prior, id, next, now, s')
    requires next.certificate.body.renewedFrom.Some?
    requires next.certificate.body.agentId == AgentOf(k.leases, prior)
    requires next.certificate.body.parentLease == k.leases[prior].certificate.body.parentLease
    ensures OneHistory(s') && RootOk(s')
  {
    assert RecordOk(k.leases, prior);
    forall x, y | SameAgent(s', x, y) && Unrenewed(s', x) && Unrenewed(s', y) ensures x == y {
      if x != id { assert Unrenewed(k, x); if y == id { assert SameAgent(k, x, prior) && Unrenewed(k, prior); } }
      if y != id { assert Unrenewed(k, y); if x == id { assert SameAgent(k, y, prior) && Unrenewed(k, prior); } }
      if x != id && y != id { assert SameAgent(k, x, y); }
    }
    forall x, y | SameAgent(s', x, y) && Original(s', x) && Original(s', y) ensures x == y {
      assert SameAgent(k, x, y) && Original(k, x) && Original(k, y);
    }
    var root := k.rootLeaseId;
    forall x | x in s'.leases && s'.leases[x].certificate.body.parentLease == None
      ensures AgentOf(s'.leases, x) == AgentOf(s'.leases, s'.rootLeaseId)
    {
      var y := if x == id then prior else x;
      assert AgentOf(k.leases, y) == AgentOf(k.leases, root);
    }
  }

  lemma RenewsLiveClosed(s: State, k: State, prior: LeaseId, id: LeaseId, next: LeaseEntry, now: Time, s': State)
    requires Static(s) && LiveClosed(s) && OnlyKills(s, k) && Renews(k, prior, id, next, now, s')
    requires RevokedExactly(s.leases, k.leases, Descendants(s.leases, prior), RETIRED_REASON, now)
    requires next.certificate.body.parentLease == s.leases[prior].certificate.body.parentLease
    requires s.leases[prior].Live()
    ensures LiveClosed(s')
  {
    var m := SetRecord(k, prior, RetiredRecord(k.leases[prior].record, id));
    CascadeKeepsLiveClosed(s, m, prior);
    forall x | x in s'.leases ensures LiveUnderLive(s'.leases, x) {
      if x != id {
        assert LiveUnderLive(m.leases, x);
      } else if next.certificate.body.parentLease.Some? {
        assert LiveUnderLive(s.leases, prior);
        ParentNotBelow(s, prior);
        var p := next.certificate.body.parentLease.value.leaseId;
        assert m.leases[p].record == s.leases[p].record;
      }
    }
  }

  lemma RenewInv(s: State, request: RenewalRequest, now: Time, id: LeaseId)
    requires Inv(s) && id !in s.leases && Renew(s, request, now, id).Ok?
    ensures Inv(Renew(s, request, now, id).value)
  {
    var s' := Renew(s, request, now, id).value;
    var prior := request.leaseId;
    var k, certificate := RenewShape(s, request, now, id);
    RenewedEntryOk(s, request, now, id, certificate);
    var next := LeaseEntry(certificate, ActiveRecord(id), request.manifest);
    OnlyKillsKeeps(s, k);
    RenewsInv(s, k, prior, id, next, now, s');
  }

  lemma RenewsExtends(s: State, k: State, prior: LeaseId, id: LeaseId, next: LeaseEntry, now: Time, s': State)
    requires OnlyKills(s, k) && Renews(k, prior, id, next, now, s')
    ensures Extends(s, s')
  {}

  lemma RenewsInv(s: State, k: State, prior: LeaseId, id: LeaseId, next: LeaseEntry, now: Time, s': State)
    requires Static(s) && LiveClosed(s) && OnlyKills(s, k) && Renews(k, prior, id, next, now, s')
    requires Records(k) && OneHistory(k) && RootOk(k) && LogOk(k)
    requires RevokedExactly(s.leases, k.leases, Descendants(s.leases, prior), RETIRED_REASON, now)
    requires s.leases[prior] == k.leases[prior] && EntryOk(s, id, next) && Narrows(s.leases[prior], next)
    requires next.certificate.body.renewedFrom == Some(s.leases[prior].certificate.Reference())
    ensures Inv(s')
  {
    assert CertificateOk(s, prior);
    RenewsLog(k, prior, id, next, now, s');
    RenewsRecords(k, prior, id, next, now, s');
    RenewsHistory(k, prior, id, next, now, s');
    RenewsLiveClosed(s, k, prior, id, next, now, s');
    RenewsStatic(s, k, prior, id, next, now, s');
  }

  lemma RenewsStatic(s: State, k: State, prior: LeaseId, id: LeaseId, next: LeaseEntry, now: Time, s': State)
    requires Static(s) && OnlyKills(s, k) && Renews(k, prior, id, next, now, s') && EntryOk(s, id, next)
    ensures Static(s')
  {
    RenewsExtends(s, k, prior, id, next, now, s');
    EntryOkExtends(s, s', id, next, next);
    StaticExtends(s, s');
  }

  // ---------------------------------------------------------------- every operation, every run

  lemma ApplyInv(s: State, op: Op, now: Time)
    requires Inv(s) && FreshIds(s, op) && Apply(s, op, now).Ok?
    ensures Inv(Apply(s, op, now).value)
  {
    match op
    case DelegateOp(request, custody, id) => DelegateInv(s, request, custody, now, id);
    case PauseOp(lease, expected) => TransitionInv(s, lease, expected, Active, Paused, LeasePaused, now);
    case ResumeOp(lease, expected) => TransitionInv(s, lease, expected, Paused, Active, LeaseResumed, now);
    case RevokeOp(lease, expected, reason) => RevokeInv(s, lease, expected, reason, now);
    case RefreshOp => RefreshInv(s, now);
    case RenewOp(request, id) => RenewInv(s, request, now, id);
  }

  /** A run of the kernel: bootstrap, then any operations at any times. */
  ghost predicate Run(trace: seq<State>, ops: seq<(Op, Time)>) {
    && |trace| == |ops| + 1
    && Bootstrapped(trace[0])
    && forall i {:trigger Linked(trace, ops, i)} :: 0 <= i < |ops| ==> Linked(trace, ops, i)
  }

  ghost predicate Bootstrapped(s: State) {
    exists request, custody, now, id :: Bootstrap(request, custody, now, id) == Ok(s)
  }

  ghost predicate Linked(trace: seq<State>, ops: seq<(Op, Time)>, i: nat)
    requires |trace| == |ops| + 1 && i < |ops|
  {
    FreshIds(trace[i], ops[i].0) && trace[i + 1] == Step(trace[i], ops[i].0, ops[i].1)
  }

  lemma LinkInv(trace: seq<State>, ops: seq<(Op, Time)>, i: nat)
    requires Run(trace, ops) && i < |ops| && Inv(trace[i])
    ensures Inv(trace[i + 1])
  {
    assert Linked(trace, ops, i);
    if Apply(trace[i], ops[i].0, ops[i].1).Ok? { ApplyInv(trace[i], ops[i].0, ops[i].1); }
  }

  /** The invariant holds in every state of every run. */
  lemma {:induction false} RunKeepsInv(trace: seq<State>, ops: seq<(Op, Time)>, i: nat)
    requires Run(trace, ops) && i < |trace|
    ensures Inv(trace[i])
    decreases i
  {
    if i == 0 {
      var request, custody, now, id :| Bootstrap(request, custody, now, id) == Ok(trace[0]);
      BootstrapInv(request, custody, now, id);
    } else {
      RunKeepsInv(trace, ops, i - 1);
      LinkInv(trace, ops, i - 1);
    }
  }
}
