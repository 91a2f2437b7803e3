/**
  What each kernel operation does to the state (crates/aeon_agent_runtime/src/authority_kernel.rs).
  Times and the id drawn for a new lease are arguments.
 */
module Kernel {
  import opened Basics
  import opened Canonical
  import opened Authority
  import opened Validation
  import opened Forest

  // ---------------------------------------------------------------- building blocks

  /** validation.rs:464-478 */
  function PushEvent(s: State, id: LeaseId, related: Option<LeaseId>, kind: EventKind, now: Time): State {
    s.(events := s.events + [Event(|s.events| + 1, id, related, kind, now)])
  }

  function SetRecord(s: State, id: LeaseId, record: LeaseRecord): State
    requires id in s.leases
  {
    s.(leases := s.leases[id := s.leases[id].(record := record)])
  }

  function AddLease(s: State, certificate: LeaseCert, manifest: Manifest): State {
    var id := certificate.body.leaseId;
    s.(leases := s.leases[id := LeaseEntry(certificate, ActiveRecord(id), manifest)])
  }

  /** authority_kernel.rs:659-677 */
  function SignedIdentity(agent: AgentId, subject: Custody, issuerAgent: Option<AgentId>, issuer: Custody,
                          now: Time): Result<IdentityCert> {
    var body := IdentityBody(agent, subject.keyId, subject.verifyingKey, issuerAgent, issuer.keyId, now);
    var identity := IdentityCert(body, issuer.Sign(body));
    if identity.VerifiedBy(issuer.verifyingKey) then Ok(identity) else Err(IdentityInvalid)
  }

  /** authority_kernel.rs:679-707 */
  function SignedLease(body: LeaseBody, issuer: Custody): Result<LeaseCert> {
    var certificate := LeaseCert(body, issuer.Sign(body));
    if certificate.VerifiedBy(issuer.verifyingKey) then Ok(certificate) else Err(AuthorizationInvalid)
  }

  // ---------------------------------------------------------------- bootstrap and delegation

  /** authority_kernel.rs:150-224 */
  function Bootstrap(request: RootRequest, custody: Custody, now: Time, id: LeaseId): Result<State> {
    var _ :- ValidateRootRequest(request, now);
    var identity :- SignedIdentity(request.agentId, custody, None, custody, now);
    var digest :- ManifestDigest(request.manifest);
    var body := LeaseBody(
      id, request.mission.missionId, request.agentId, None, identity, identity, custody.keyId, None, None,
      request.mission.organizationVersion, request.mission.policyEpoch, request.granted, request.delegable,
      digest, request.contextDigest, now, request.expiresAt);
    var certificate :- SignedLease(body, custody);
    var s := State(request.mission, id, map[request.agentId := identity], map[request.agentId := custody], map[], []);
    Ok(PushEvent(
      PushEvent(AddLease(s, certificate, request.manifest), id, None, IdentityRegistered, now),
      id, None, LeaseIssued, now))
  }

  predicate KeyBound(ids: Identities, keyId: KeyId) {
    exists a :: a in ids && ids[a].body.keyId == keyId
  }

  function ChildBody(parent: LeaseBody, parentRef: LeaseRef, parentIdentity: IdentityCert, issuerKeyId: KeyId,
                     identity: IdentityCert, digest: Manifest, request: DelegationRequest, now: Time,
                     id: LeaseId): LeaseBody {
    LeaseBody(
      id, parent.missionId, request.childAgentId, Some(parent.agentId), identity, parentIdentity, issuerKeyId,
      Some(parentRef), None, parent.organizationVersion, parent.policyEpoch, request.granted, request.delegable,
      digest, request.contextDigest, now, request.expiresAt)
  }

  /** authority_kernel.rs:249-363 */
  function Delegate(s: State, request: DelegationRequest, custody: Custody, now: Time, id: LeaseId): Result<State> {
    if request.parentLeaseId !in s.leases then Err(LeaseInactive) else
    var parent := s.leases[request.parentLeaseId];
    var agent := parent.certificate.body.agentId;
    var _ :- ValidateActiveRecord(parent, Some(request.expectedParentGeneration), now);
    var validated :- ValidateChain(s, request.parentLeaseId, Some(request.expectedParentGeneration), parent.manifest,
                                   now);
    var _ :- Need(|validated.chain| < MAX_AUTHORITY_CHAIN_DEPTH, DelegationInvalid);
    var _ :- ValidateDelegationRequest(s, parent, request, now);
    if request.childAgentId in s.identities || KeyBound(s.identities, custody.keyId) then Err(IdentityInvalid) else
    if agent !in s.custodians then Err(IdentityInvalid) else
    var identity :- SignedIdentity(request.childAgentId, custody, Some(agent), s.custodians[agent], now);
    if agent !in s.identities then Err(IdentityInvalid) else
    var digest :- ManifestDigest(request.manifest);
    var body := ChildBody(parent.certificate.body, parent.certificate.Reference(), s.identities[agent],
                          s.custodians[agent].keyId, identity, digest, request, now, id);
    var certificate :- SignedLease(body, s.custodians[agent]);
    var registered := s.(
      identities := s.identities[request.childAgentId := identity],
      custodians := s.custodians[request.childAgentId := custody]);
    Ok(PushEvent(
      PushEvent(AddLease(registered, certificate, request.manifest), id, Some(request.parentLeaseId),
                IdentityRegistered, now),
      id, Some(request.parentLeaseId), LeaseDelegated, now))
  }

  // ---------------------------------------------------------------- pause, resume

  /** The checks of authority_kernel.rs:609-621. */
  function TransitionCheck(leases: Leases, id: LeaseId, expected: nat, from: LeaseState,
                           now: Time): (r: Result<LeaseRecord>)
    ensures r.Ok? ==> id in leases && r.value == leases[id].record
    ensures r.Ok? ==> r.value.state == from && r.value.generation == expected
  {
    if id !in leases then Err(LeaseInactive)
    else if leases[id].record.generation != expected then Err(LeaseGenerationMismatch)
    else if leases[id].record.state != from || now >= leases[id].certificate.body.expiresAt then Err(LeaseInactive)
    else Ok(leases[id].record)
  }

  /** authority_kernel.rs:600-626 */
  function Transition(s: State, id: LeaseId, expected: nat, from: LeaseState, to: LeaseState, kind: EventKind,
                      now: Time): Result<State> {
    var record :- TransitionCheck(s.leases, id, expected, from, now);
    Ok(PushEvent(SetRecord(s, id, record.(state := to, generation := record.generation + 1)), id, None, kind, now))
  }

  function Pause(s: State, id: LeaseId, expected: nat, now: Time): Result<State> {
    Transition(s, id, expected, Active, Paused, LeasePaused, now)
  }

  function Resume(s: State, id: LeaseId, expected: nat, now: Time): Result<State> {
    Transition(s, id, expected, Paused, Active, LeaseResumed, now)
  }

  // ---------------------------------------------------------------- cascades

  function RevokedRecord(r: LeaseRecord, reason: string, now: Time): LeaseRecord {
    r.(state := Revoked, generation := r.generation + 1, revokedAt := Some(now), revocationReason := Some(reason))
  }

  /** One iteration of the cascade loops (authority_kernel.rs:456-473, validation.rs:443-460). */
  function RevokeOne(s: State, id: LeaseId, root: LeaseId, reason: string, now: Time): State
    requires id in s.leases
  {
    if s.leases[id].Live() then
      PushEvent(
        SetRecord(s, id, RevokedRecord(s.leases[id].record, reason, now)),
        id, if id == root then None else Some(root), LeaseRevoked, now)
    else s
  }

  function RevokeEach(s: State, order: seq<LeaseId>, root: LeaseId, reason: string, now: Time): State
    requires Elems(order) <= s.leases.Keys
    decreases |order|
  {
    if order == [] then s
    else
      assert forall x :: x in order[1..] ==> x in order;
      assert order[0] in Elems(order);
      RevokeEach(RevokeOne(s, order[0], root, reason, now), order[1..], root, reason, now)
  }

  lemma CascadeInLeases(leases: Leases, root: LeaseId)
    requires root in leases
    ensures Elems(Cascade(LinksOf(leases), root)) <= leases.Keys
    ensures Cascade(LinksOf(leases), root) != [] && Cascade(LinksOf(leases), root)[0] == root
    ensures Elems(Cascade(LinksOf(leases), root)[1..]) <= leases.Keys - {root}
  {
    var par := CascadeExact(LinksOf(leases), root);
  }

  /** authority_kernel.rs:433-475 */
  ghost function Revoke(s: State, id: LeaseId, expected: nat, reason: string, now: Time): Result<State> {
    if id !in s.leases then Err(LeaseInactive) else
    if s.leases[id].record.generation != expected then Err(LeaseGenerationMismatch) else
    if !s.leases[id].Live() then Err(LeaseInactive) else
    CascadeInLeases(s.leases, id);
    Ok(RevokeEach(s, Cascade(LinksOf(s.leases), id), id, reason, now))
  }

  ghost function Descendants(leases: Leases, root: LeaseId): (order: seq<LeaseId>)
    requires root in leases
    ensures Elems(order) <= leases.Keys - {root} && root !in order
    ensures Cascade(LinksOf(leases), root) == [root] + order
  {
    CascadeInLeases(leases, root);
    var order := Cascade(LinksOf(leases), root)[1..];
    assert root in order ==> root in Elems(order);
    order
  }

  /** validation.rs:436-462 */
  ghost function RevokeDescendants(s: State, root: LeaseId, reason: string, now: Time): State
    requires root in s.leases
  {
    RevokeEach(s, Descendants(s.leases, root), root, reason, now)
  }

  const EXPIRED_REASON := "ancestor lease expired"
  const RETIRED_REASON := "ancestor lease retired during renewal"

  // ---------------------------------------------------------------- expiry

  predicate Due(entry: LeaseEntry, now: Time) {
    entry.Live() && now >= entry.certificate.body.expiresAt
  }

  function DueIds(leases: Leases, now: Time): set<LeaseId> {
    set id | id in leases && Due(leases[id], now)
  }

  function ExpiredRecord(r: LeaseRecord): LeaseRecord {
    r.(state := Expired, generation := r.generation + 1)
  }

  /** One iteration of authority_kernel.rs:490-507. */
  ghost function ExpireOne(s: State, id: LeaseId, now: Time): State
    requires id in s.leases
  {
    if s.leases[id].Live() then
      RevokeDescendants(
        PushEvent(SetRecord(s, id, ExpiredRecord(s.leases[id].record)), id, None, LeaseExpired, now),
        id, EXPIRED_REASON, now)
    else s
  }

  ghost function ExpireEach(s: State, due: seq<LeaseId>, now: Time): State
    requires Elems(due) <= s.leases.Keys
    decreases |due|
  {
    if due == [] then s
    else
      assert forall x :: x in due[1..] ==> x in due;
      assert due[0] in Elems(due);
      ExpireOneKeys(s, due[0], now);
      ExpireEach(ExpireOne(s, due[0], now), due[1..], now)
  }

  lemma {:induction false} RevokeEachKeys(s: State, order: seq<LeaseId>, root: LeaseId, reason: string, now: Time)
    requires Elems(order) <= s.leases.Keys
    ensures RevokeEach(s, order, root, reason, now).leases.Keys == s.leases.Keys
    decreases |order|
  {
    if order != [] {
      assert forall x :: x in order[1..] ==> x in order;
      assert order[0] in Elems(order);
      RevokeEachKeys(RevokeOne(s, order[0], root, reason, now), order[1..], root, reason, now);
    }
  }

  lemma ExpireOneKeys(s: State, id: LeaseId, now: Time)
    requires id in s.leases
    ensures ExpireOne(s, id, now).leases.Keys == s.leases.Keys
  {
    if s.leases[id].Live() {
      var s1 := PushEvent(SetRecord(s, id, ExpiredRecord(s.leases[id].record)), id, None, LeaseExpired, now);
      RevokeEachKeys(s1, Descendants(s1.leases, id), id, EXPIRED_REASON, now);
    }
  }

  /** authority_kernel.rs:477-509 */
  ghost function RefreshExpirations(s: State, now: Time): State {
    ExpireEach(s, Listed(DueIds(s.leases, now)), now)
  }

  // ---------------------------------------------------------------- renewal

  function RenewedBody(prior: LeaseCert, issuerIdentity: IdentityCert, issuerKeyId: KeyId, digest: Manifest,
                       request: RenewalRequest, now: Time, id: LeaseId): LeaseBody {
    prior.body.(
      leaseId := id, issuerIdentity := issuerIdentity, issuerKeyId := issuerKeyId,
      renewedFrom := Some(prior.Reference()), granted := request.granted, delegable := request.delegable,
      manifestDigest := digest, contextDigest := request.contextDigest, issuedAt := now,
      expiresAt := request.expiresAt)
  }

  /** The checks and the signature of authority_kernel.rs:511-566, before anything changes. */
  function RenewalCertificate(s: State, request: RenewalRequest, now: Time, id: LeaseId): Result<LeaseCert> {
    if request.leaseId !in s.leases then Err(LeaseInactive) else
    var prior := s.leases[request.leaseId];
    var _ :- ValidateActiveRecord(prior, Some(request.expectedGeneration), now);
    var _ :- ValidateChain(s, request.leaseId, Some(request.expectedGeneration), prior.manifest, now);
    var _ :- ValidateRenewalRequest(s, prior, request, now);
    var issuer := IssuerAgent(prior.certificate.body);
    if issuer !in s.identities || issuer !in s.custodians then Err(IdentityInvalid) else
    var digest :- ManifestDigest(request.manifest);
    SignedLease(
      RenewedBody(prior.certificate, s.identities[issuer], s.custodians[issuer].keyId, digest, request, now, id),
      s.custodians[issuer])
  }

  function RetiredRecord(r: LeaseRecord, successor: LeaseId): LeaseRecord {
    r.(state := Retired, generation := r.generation + 1, renewedBy := Some(successor))
  }

  /** authority_kernel.rs:579-596: the new lease takes the place of the retired one. */
  function InstallRenewal(s: State, prior: LeaseId, certificate: LeaseCert, manifest: Manifest, now: Time): State {
    var id := certificate.body.leaseId;
    var added := AddLease(s, certificate, manifest);
    var rooted := if added.rootLeaseId == prior then added.(rootLeaseId := id) else added;
    PushEvent(rooted, id, Some(prior), LeaseRenewed, now)
  }

  /** authority_kernel.rs:511-598 */
  ghost function Renew(s: State, request: RenewalRequest, now: Time, id: LeaseId): Result<State> {
    var certificate :- RenewalCertificate(s, request, now, id);
    var retired := SetRecord(s, request.leaseId, RetiredRecord(s.leases[request.leaseId].record, id));
    Ok(InstallRenewal(RevokeDescendants(retired, request.leaseId, RETIRED_REASON, now), request.leaseId, certificate,
                      request.manifest, now))
  }

  // ---------------------------------------------------------------- runs

  datatype Op =
    | DelegateOp(delegation: DelegationRequest, custody: Custody, id: LeaseId)
    | PauseOp(lease: LeaseId, expected: nat)
    | ResumeOp(lease: LeaseId, expected: nat)
    | RevokeOp(lease: LeaseId, expected: nat, reason: string)
    | RefreshOp
    | RenewOp(renewal: RenewalRequest, id: LeaseId)

  ghost function Apply(s: State, op: Op, now: Time): Result<State> {
    match op
    case DelegateOp(request, custody, id) => Delegate(s, request, custody, now, id)
    case PauseOp(lease, expected) => Pause(s, lease, expected, now)
    case ResumeOp(lease, expected) => Resume(s, lease, expected, now)
    case RevokeOp(lease, expected, reason) => Revoke(s, lease, expected, reason, now)
    case RefreshOp => Ok(RefreshExpirations(s, now))
    case RenewOp(request, id) => Renew(s, request, now, id)
  }

  /** New leases get unused ids. */
  predicate FreshIds(s: State, op: Op) {
    (op.DelegateOp? || op.RenewOp?) ==> op.id !in s.leases
  }

  /** The state after an operation; a failed one changes nothing. */
  ghost function Step(s: State, op: Op, now: Time): State {
    match Apply(s, op, now)
    case Ok(s') => s'
    case Err(_) => s
  }
}
