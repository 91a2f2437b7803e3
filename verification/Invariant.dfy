/**
  What every kernel operation keeps, and why.  `Inv` is the conjunction; each operation gets one
  preservation lemma, and `RunKeepsInv` lifts them to every run.
 */
module Invariant {
  import opened Basics
  import opened Authority
  import opened Identity
  import opened Validation
  import opened Forest
  import opened Kernel

  // ---------------------------------------------------------------- immutable part

  /** A registered identity verifies, carries its own id, and its custodian holds its key. */
  predicate IdentityOk(s: State, agent: AgentId) {
    && LinkVerified(s.identities, agent)
    && s.identities[agent].body.agentId == agent
    && agent in s.custodians
    && s.custodians[agent].keyId == s.identities[agent].body.keyId
    && s.custodians[agent].verifyingKey == s.identities[agent].body.key
  }

  predicate WithinMission(mission: Mission, entry: LeaseEntry) {
    var body := entry.certificate.body;
    && body.expiresAt <= mission.expiresAt
    && CapsWithin(body.granted.capabilities, mission.allowedCapabilities)
    && ToolsInMission(entry.manifest.tools, mission)
  }

  predicate SignedFor(s: State, entry: LeaseEntry) {
    var body := entry.certificate.body;
    && BoundToMission(s.mission, entry)
    && BoundToSubject(s.identities, body)
    && BoundToIssuer(s.identities, body)
    && entry.certificate.VerifiedBy(s.identities[IssuerAgent(body)].body.key)
    && s.identities[body.agentId].body.issuerAgentId == body.parentAgentId
  }

  predicate ParentOk(leases: Leases, entry: LeaseEntry) {
    var body := entry.certificate.body;
    match body.parentLease
    case None => body.parentAgentId == None
    case Some(parent) =>
      && parent.leaseId in leases
      && leases[parent.leaseId].certificate == parent.certificate
      && ValidateParentChild(leases[parent.leaseId], entry).Ok?
  }

  /** A renewal keeps parent and context and only narrows. */
  predicate Narrows(prior: LeaseEntry, next: LeaseEntry) {
    var a, b := prior.certificate.body, next.certificate.body;
    && b.agentId == a.agentId
    && b.parentAgentId == a.parentAgentId
    && b.parentLease == a.parentLease
    && b.contextDigest == a.contextDigest
    && CapsWithin(b.granted.capabilities, a.granted.capabilities)
    && CapsWithin(b.delegable.capabilities, a.delegable.capabilities)
    && Attenuates(next.manifest, prior.manifest)
  }

  predicate PredecessorOk(leases: Leases, entry: LeaseEntry) {
    match entry.certificate.body.renewedFrom
    case None => true
    case Some(previous) =>
      && previous.leaseId in leases
      && leases[previous.leaseId].certificate == previous.certificate
      && Narrows(leases[previous.leaseId], entry)
  }

  /** Everything the immutable part of a lease promises. */
  predicate EntryOk(s: State, id: LeaseId, entry: LeaseEntry) {
    && entry.certificate.body.leaseId == id
    && SignedFor(s, entry)
    && ValidateAuthoritySets(entry.certificate.body.granted, entry.certificate.body.delegable).Ok?
    && ValidateManifest(entry.manifest, entry.certificate.body.granted).Ok?
    && WithinMission(s.mission, entry)
    && Depth(entry.certificate) <= MAX_AUTHORITY_CHAIN_DEPTH
    && ParentOk(s.leases, entry)
    && PredecessorOk(s.leases, entry)
  }

  predicate CertificateOk(s: State, id: LeaseId) {
    id in s.leases && EntryOk(s, id, s.leases[id])
  }

  ghost predicate Static(s: State) {
    && s.custodians.Keys == s.identities.Keys
    && (forall a {:trigger IdentityOk(s, a)} :: a in s.identities ==> IdentityOk(s, a))
    && (forall id {:trigger CertificateOk(s, id)} :: id in s.leases ==> CertificateOk(s, id))
  }

  // ---------------------------------------------------------------- mutable part

  /** Retirement and renewal links mirror each other. */
  predicate RecordOk(leases: Leases, id: LeaseId) {
    && id in leases
    && var r := leases[id].record;
       && r.leaseId == id
       && (r.state == Retired <==> r.renewedBy.Some?)
       && (r.state == Revoked <==> r.revokedAt.Some?)
       && (r.renewedBy.Some? ==>
             && r.renewedBy.value in leases
             && leases[r.renewedBy.value].certificate.body.renewedFrom == Some(leases[id].certificate.Reference()))
       && RenewalLinked(leases, leases[id].certificate.body)
  }

  ghost predicate Records(s: State) {
    forall id {:trigger RecordOk(s.leases, id)} :: id in s.leases ==> RecordOk(s.leases, id)
  }

  /** No live lease under a dead one. */
  predicate LiveUnderLive(leases: Leases, id: LeaseId) {
    && id in leases
    && (leases[id].Live() ==>
          match leases[id].certificate.body.parentLease
          case None => true
          case Some(parent) => parent.leaseId in leases && leases[parent.leaseId].Live())
  }

  ghost predicate LiveClosed(s: State) {
    forall id {:trigger LiveUnderLive(s.leases, id)} :: id in s.leases ==> LiveUnderLive(s.leases, id)
  }

  function AgentOf(leases: Leases, id: LeaseId): AgentId
    requires id in leases
  {
    leases[id].certificate.body.agentId
  }

  /** One lease per agent is not yet renewed, and one started its history. */
  ghost predicate OneHistory(s: State) {
    && (forall x, y :: SameAgent(s, x, y) && Unrenewed(s, x) && Unrenewed(s, y) ==> x == y)
    && (forall x, y :: SameAgent(s, x, y) && Original(s, x) && Original(s, y) ==> x == y)
  }

  predicate SameAgent(s: State, x: LeaseId, y: LeaseId) {
    x in s.leases && y in s.leases && AgentOf(s.leases, x) == AgentOf(s.leases, y)
  }

  predicate Unrenewed(s: State, x: LeaseId) {
    x in s.leases && s.leases[x].record.renewedBy == None
  }

  predicate Original(s: State, x: LeaseId) {
    x in s.leases && s.leases[x].certificate.body.renewedFrom == None
  }

  ghost predicate RootOk(s: State) {
    && s.rootLeaseId in s.leases
    && s.leases[s.rootLeaseId].certificate.body.parentLease == None
    && s.leases[s.rootLeaseId].record.renewedBy == None
    && (forall x :: x in s.leases && s.leases[x].certificate.body.parentLease == None ==>
          AgentOf(s.leases, x) == AgentOf(s.leases, s.rootLeaseId))
  }

  // ---------------------------------------------------------------- the log

  /** What the event log says about a lease. */
  datatype View = View(state: LeaseState, generation: nat, revokedAt: Option<Time>, renewedBy: Option<LeaseId>)

  function ViewOf(r: LeaseRecord): View {
    View(r.state, r.generation, r.revokedAt, r.renewedBy)
  }

  type Views = map<LeaseId, View>

  function Advance(v: View, state: LeaseState): View {
    v.(state := state, generation := v.generation + 1)
  }

  function ReplayEvent(m: Views, e: Event): Views {
    match e.kind
    case IdentityRegistered => m
    case LeaseIssued | LeaseDelegated => m[e.leaseId := View(Active, 0, None, None)]
    case LeasePaused => if e.leaseId in m then m[e.leaseId := Advance(m[e.leaseId], Paused)] else m
    case LeaseResumed => if e.leaseId in m then m[e.leaseId := Advance(m[e.leaseId], Active)] else m
    case LeaseRevoked =>
      if e.leaseId in m then m[e.leaseId := Advance(m[e.leaseId], Revoked).(revokedAt := Some(e.occurredAt))] else m
    case LeaseExpired => if e.leaseId in m then m[e.leaseId := Advance(m[e.leaseId], Expired)] else m
    case LeaseRenewed =>
      if e.related.Some? && e.related.value in m then
        m[e.related.value := Advance(m[e.related.value], Retired).(renewedBy := Some(e.leaseId))]
         [e.leaseId := View(Active, 0, None, None)]
      else m
  }

  /** Rebuild every lease's mutable state from the log alone. */
  function Replay(events: seq<Event>): Views {
    if events == [] then map[]
    else ReplayEvent(Replay(events[..|events| - 1]), events[|events| - 1])
  }

  function ViewsOf(leases: Leases): Views {
    map id | id in leases :: ViewOf(leases[id].record)
  }

  /** An event that moves a lease one generation on. */
  predicate Advances(e: Event, id: LeaseId) {
    || (e.leaseId == id
        && (e.kind.LeasePaused? || e.kind.LeaseResumed? || e.kind.LeaseRevoked? || e.kind.LeaseExpired?))
    || (e.related == Some(id) && e.kind.LeaseRenewed?)
  }

  function Lifecycle(events: seq<Event>, id: LeaseId): nat {
    if events == [] then 0
    else Lifecycle(events[..|events| - 1], id) + if Advances(events[|events| - 1], id) then 1 else 0
  }

  ghost predicate LogOk(s: State) {
    && Replay(s.events) == ViewsOf(s.leases)
    && (forall i :: 0 <= i < |s.events| ==> s.events[i].sequence == i + 1)
    && (forall id {:trigger Lifecycle(s.events, id)} ::
          Lifecycle(s.events, id) == if id in s.leases then s.leases[id].record.generation else 0)
  }

  ghost predicate Inv(s: State) {
    Static(s) && Records(s) && LiveClosed(s) && OneHistory(s) && RootOk(s) && LogOk(s)
  }

  // ---------------------------------------------------------------- state growth

  /** Certificates, manifests and identities only accumulate. */
  ghost predicate Extends(s: State, s': State) {
    && s'.mission == s.mission
    && s.leases.Keys <= s'.leases.Keys
    && (forall id :: id in s.leases ==>
          s'.leases[id].certificate == s.leases[id].certificate && s'.leases[id].manifest == s.leases[id].manifest)
    && s.identities.Keys <= s'.identities.Keys
    && (forall a :: a in s.identities ==> s'.identities[a] == s.identities[a])
    && s.custodians.Keys <= s'.custodians.Keys
    && (forall a :: a in s.custodians ==> s'.custodians[a] == s.custodians[a])
  }

  lemma IdentityOkExtends(s: State, s': State, a: AgentId)
    requires Extends(s, s') && IdentityOk(s, a)
    ensures IdentityOk(s', a)
  {}

  lemma ParentOkExtends(s: State, s': State, entry: LeaseEntry, entry': LeaseEntry)
    requires Extends(s, s') && ParentOk(s.leases, entry)
    requires entry'.certificate == entry.certificate && entry'.manifest == entry.manifest
    ensures ParentOk(s'.leases, entry')
  {
    if entry.certificate.body.parentLease.Some? {
      var p := entry.certificate.body.parentLease.value.leaseId;
      assert s'.leases[p].certificate == s.leases[p].certificate && s'.leases[p].manifest == s.leases[p].manifest;
    }
  }

  lemma PredecessorOkExtends(s: State, s': State, entry: LeaseEntry, entry': LeaseEntry)
    requires Extends(s, s') && PredecessorOk(s.leases, entry)
    requires entry'.certificate == entry.certificate && entry'.manifest == entry.manifest
    ensures PredecessorOk(s'.leases, entry')
  {
    if entry.certificate.body.renewedFrom.Some? {
      var q := entry.certificate.body.renewedFrom.value.leaseId;
      assert s'.leases[q].certificate == s.leases[q].certificate && s'.leases[q].manifest == s.leases[q].manifest;
    }
  }

  lemma EntryOkExtends(s: State, s': State, id: LeaseId, entry: LeaseEntry, entry': LeaseEntry)
    requires Extends(s, s') && EntryOk(s, id, entry)
    requires entry'.certificate == entry.certificate && entry'.manifest == entry.manifest
    ensures EntryOk(s', id, entry')
  {
    ParentOkExtends(s, s', entry, entry');
    PredecessorOkExtends(s, s', entry, entry');
  }

  lemma StaticExtends(s: State, s': State)
    requires Static(s) && Extends(s, s') && s'.custodians.Keys == s'.identities.Keys
    requires forall a :: a in s'.identities && a !in s.identities ==> IdentityOk(s', a)
    requires forall id :: id in s'.leases && id !in s.leases ==> CertificateOk(s', id)
    ensures Static(s')
  {
    forall a | a in s'.identities ensures IdentityOk(s', a) {
      if a in s.identities { IdentityOkExtends(s, s', a); }
    }
    forall id | id in s'.leases ensures CertificateOk(s', id) {
      if id in s.leases { assert CertificateOk(s, id); EntryOkExtends(s, s', id, s.leases[id], s'.leases[id]); }
    }
  }

  lemma SameLinks(s: State, s': State)
    requires Extends(s, s') && s.leases.Keys == s'.leases.Keys
    ensures LinksOf(s'.leases) == LinksOf(s.leases)
  {
    assert forall id :: id in s.leases ==> LinksOf(s'.leases)[id] == LinksOf(s.leases)[id];
  }

  // ---------------------------------------------------------------- killing leases

  /** A live lease dies, with one generation step. */
  predicate Killed(r: LeaseRecord, r': LeaseRecord) {
    && r.state.Live()
    && !r'.state.Live()
    && r'.generation == r.generation + 1
    && r'.leaseId == r.leaseId
    && (r'.state == Retired ==> r'.renewedBy.Some?)
    && (r'.state != Retired ==> r'.renewedBy == r.renewedBy)
    && (if r'.state == Revoked then r'.revokedAt.Some? else r'.revokedAt == r.revokedAt)
  }

  /** Only records change, and only by killing live leases without retiring them. */
  ghost predicate OnlyKills(s: State, s': State) {
    && Extends(s, s')
    && s'.leases.Keys == s.leases.Keys
    && s'.identities == s.identities
    && s'.custodians == s.custodians
    && s'.rootLeaseId == s.rootLeaseId
    && s.events <= s'.events
    && (forall id :: id in s.leases ==>
          var r, r' := s.leases[id].record, s'.leases[id].record;
          r' == r || (Killed(r, r') && r'.state != Retired))
  }

  lemma OnlyKillsTransitive(s: State, s1: State, s2: State)
    requires OnlyKills(s, s1) && OnlyKills(s1, s2)
    ensures OnlyKills(s, s2)
  {}

  lemma OnlyKillsKeeps(s: State, s': State)
    requires OnlyKills(s, s') && Static(s) && Records(s) && OneHistory(s) && RootOk(s)
    ensures Static(s') && Records(s') && OneHistory(s') && RootOk(s')
  {
    StaticExtends(s, s');
    forall id | id in s'.leases ensures RecordOk(s'.leases, id) { KillKeepsRecord(s, s', id); }
    forall id | id in s.leases ensures s'.leases[id].record.renewedBy == s.leases[id].record.renewedBy {
      assert RecordOk(s.leases, id);
    }
    HistoryKept(s, s');
  }

  lemma HistoryKept(s: State, s': State)
    requires Extends(s, s') && s'.leases.Keys == s.leases.Keys && s'.rootLeaseId == s.rootLeaseId
    requires forall id :: id in s.leases ==> s'.leases[id].record.renewedBy == s.leases[id].record.renewedBy
    requires OneHistory(s) && RootOk(s)
    ensures OneHistory(s') && RootOk(s')
  {
    forall x, y | SameAgent(s', x, y) ensures SameAgent(s, x, y) {}
    forall x | x in s.leases ensures Unrenewed(s', x) == Unrenewed(s, x) && Original(s', x) == Original(s, x) {}
    forall x | x in s'.leases && s'.leases[x].certificate.body.parentLease == None
      ensures AgentOf(s'.leases, x) == AgentOf(s'.leases, s'.rootLeaseId)
    {
      assert s.leases[x].certificate == s'.leases[x].certificate;
    }
  }

  lemma KillKeepsRecord(s: State, s': State, id: LeaseId)
    requires OnlyKills(s, s') && RecordOk(s.leases, id)
    ensures RecordOk(s'.leases, id)
  {
    var r := s.leases[id].record;
    assert s'.leases[id].certificate == s.leases[id].certificate;
    if r.renewedBy.Some? {
      var n := r.renewedBy.value;
      assert s'.leases[n].certificate == s.leases[n].certificate;
    }
  }

  /** Leases with their record replaced by a revocation, for the ids in `hit`. */
  predicate RevokedExactly(before: Leases, after: Leases, hit: seq<LeaseId>, reason: string, now: Time) {
    && after.Keys == before.Keys
    && forall id :: id in before ==>
         after[id] == if id in hit && before[id].Live()
                      then before[id].(record := RevokedRecord(before[id].record, reason, now))
                      else before[id]
  }

  lemma {:induction false} RevokeEachEffect(s: State, order: seq<LeaseId>, root: LeaseId, reason: string, now: Time)
    requires Elems(order) <= s.leases.Keys
    ensures RevokedExactly(s.leases, RevokeEach(s, order, root, reason, now).leases, order, reason, now)
    ensures var s' := RevokeEach(s, order, root, reason, now);
            s' == s.(leases := s'.leases, events := s'.events) && s.events <= s'.events
    decreases |order|
  {
    if order != [] {
      assert forall x :: x in order[1..] ==> x in order;
      assert order[0] in Elems(order);
      var s1 := RevokeOne(s, order[0], root, reason, now);
      assert RevokedExactly(s.leases, s1.leases, [order[0]], reason, now);
      RevokeEachEffect(s1, order[1..], root, reason, now);
      RevokedTwice(s.leases, s1.leases, RevokeEach(s1, order[1..], root, reason, now).leases, order[0], order[1..],
                   reason, now);
      assert order == [order[0]] + order[1..];
    } else {
      assert s.(leases := s.leases, events := s.events) == s;
    }
  }

  lemma RevokedTwice(a: Leases, b: Leases, c: Leases, first: LeaseId, rest: seq<LeaseId>, reason: string, now: Time)
    requires RevokedExactly(a, b, [first], reason, now) && RevokedExactly(b, c, rest, reason, now)
    ensures RevokedExactly(a, c, [first] + rest, reason, now)
  {}

  lemma RevokedIsKill(s: State, s': State, hit: seq<LeaseId>, reason: string, now: Time)
    requires Records(s) && RevokedExactly(s.leases, s'.leases, hit, reason, now)
    requires s' == s.(leases := s'.leases, events := s'.events) && s.events <= s'.events
    ensures OnlyKills(s, s')
  {
    forall id | id in s.leases
      ensures s'.leases[id].record == s.leases[id].record
           || (Killed(s.leases[id].record, s'.leases[id].record) && s'.leases[id].record.state != Retired)
    {
      assert RecordOk(s.leases, id);
    }
  }

  /** Killing everything at or below `root` leaves no live lease under a dead one. */
  lemma CascadeKeepsLiveClosed(s: State, s': State, root: LeaseId)
    requires LiveClosed(s) && Extends(s, s') && s'.leases.Keys == s.leases.Keys && root in s.leases
    requires forall id :: id in Cascade(LinksOf(s.leases), root) && id in s.leases ==> !s'.leases[id].Live()
    requires forall id :: id in s.leases && id !in Cascade(LinksOf(s.leases), root) ==>
              s'.leases[id].record == s.leases[id].record
    ensures LiveClosed(s')
  {
    var g := LinksOf(s.leases);
    var par := CascadeExact(g, root);
    forall id | id in s'.leases ensures LiveUnderLive(s'.leases, id) {
      assert LiveUnderLive(s.leases, id);
      if s'.leases[id].Live() && s.leases[id].certificate.body.parentLease.Some? {
        var p := s.leases[id].certificate.body.parentLease.value.leaseId;
        BelowParent(g, id, p, root);
      }
    }
  }
}
