/**
  Values of the authority kernel: capabilities, manifests, identities, leases and the kernel state.

  Identifiers and digest atoms are integers: the runtime only compares them for equality and by
  one total order.  A digest is represented by the canonical value it hashes, and a signature by
  the key and payload it covers, so both are ideal: distinct values have distinct digests, and a
  signature verifies only under its own key and payload.
 */
module Authority {
  import opened Basics
  import opened Canonical

  type LeaseId = int
  type AgentId = int
  type KeyId = int
  type ToolId = int
  type MissionId = int
  type Key = int
  type Digest = int
  type Time = int

  const MAX_AUTHORITY_CHAIN_DEPTH: nat := 32

  // ---------------------------------------------------------------- capabilities

  /** A Nexus capability: the wildcard, a plain permission, or one scoped to a resource path. */
  datatype Capability = All | Plain(kind: int) | Scoped(kind: int, path: seq<int>)

  /** Nexus attenuation (tests/support_contracts.rs:337-343): a scoped capability narrows to any
      path below its own. */
  predicate IsSubset(a: Capability, b: Capability) {
    || b.All?
    || (a.Plain? && a == b)
    || (a.Scoped? && b.Scoped? && a.kind == b.kind && b.path <= a.path)
  }

  lemma IsSubsetTransitive(a: Capability, b: Capability, c: Capability)
    requires IsSubset(a, b) && IsSubset(b, c)
    ensures IsSubset(a, c)
  {}

  predicate Covers(granted: seq<Capability>, required: Capability) {
    exists i :: 0 <= i < |granted| && IsSubset(required, granted[i])
  }

  predicate CapsWithin(child: seq<Capability>, parent: seq<Capability>) {
    forall i :: 0 <= i < |child| ==> Covers(parent, child[i])
  }

  lemma CapsWithinTransitive(a: seq<Capability>, b: seq<Capability>, c: seq<Capability>)
    requires CapsWithin(a, b) && CapsWithin(b, c)
    ensures CapsWithin(a, c)
  {
    forall i | 0 <= i < |a| ensures Covers(c, a[i]) {
      var j :| 0 <= j < |b| && IsSubset(a[i], b[j]);
      var k :| 0 <= k < |c| && IsSubset(b[j], c[k]);
      IsSubsetTransitive(a[i], b[j], c[k]);
    }
  }

  /** Something an agent may try: use a plain permission, or reach a resource path. */
  datatype Access = Use(kind: int) | Reach(kind: int, path: seq<int>)

  predicate Permits(c: Capability, a: Access) {
    match c
    case All => true
    case Plain(kind) => a == Use(kind)
    case Scoped(kind, path) => a.Reach? && a.kind == kind && path <= a.path
  }

  ghost predicate PermittedBy(caps: seq<Capability>, a: Access) {
    exists i :: 0 <= i < |caps| && Permits(caps[i], a)
  }

  /** A plain permission that no capability of the list names. */
  function Unused(caps: seq<Capability>): (kind: int)
    ensures forall i :: 0 <= i < |caps| && caps[i].Plain? ==> caps[i].kind < kind
  {
    if caps == [] then 0
    else
      var rest := Unused(caps[1..]);
      assert forall i :: 1 <= i < |caps| ==> caps[i] == caps[1..][i - 1];
      if caps[0].Plain? && caps[0].kind >= rest then caps[0].kind + 1 else rest
  }

  /** The access that only capabilities at least as wide as `c` permit. */
  function Hardest(c: Capability, caps: seq<Capability>): Access {
    match c
    case All => Use(Unused(caps))
    case Plain(kind) => Use(kind)
    case Scoped(kind, path) => Reach(kind, path)
  }

  /** One list of capabilities is within another exactly when it permits nothing more. */
  lemma CapsWithinExact(child: seq<Capability>, parent: seq<Capability>)
    ensures CapsWithin(child, parent) <==> forall a :: PermittedBy(child, a) ==> PermittedBy(parent, a)
  {
    if CapsWithin(child, parent) {
      forall a | PermittedBy(child, a) ensures PermittedBy(parent, a) {
        var i :| 0 <= i < |child| && Permits(child[i], a);
        var j :| 0 <= j < |parent| && IsSubset(child[i], parent[j]);
        assert Permits(parent[j], a);
      }
    }
    if forall a :: PermittedBy(child, a) ==> PermittedBy(parent, a) {
      forall i | 0 <= i < |child| ensures Covers(parent, child[i]) {
        var a := Hardest(child[i], parent);
        assert Permits(child[i], a);
        assert PermittedBy(parent, a);
        var j :| 0 <= j < |parent| && Permits(parent[j], a);
        assert IsSubset(child[i], parent[j]);
      }
    }
  }

  /** Stands for the canonical JSON bytes of a capability; only injectivity and order matter. */
  function CapabilityKey(c: Capability): seq<int> {
    match c
    case All => [0]
    case Plain(kind) => [1, kind]
    case Scoped(kind, path) => [2, kind] + path
  }

  predicate CapabilityLess(a: Capability, b: Capability) {
    LexLess(CapabilityKey(a), CapabilityKey(b))
  }

  lemma CapabilityKeyInjective(a: Capability, b: Capability)
    requires CapabilityKey(a) == CapabilityKey(b)
    ensures a == b
  {
    assert CapabilityKey(a)[0] == CapabilityKey(b)[0];
    if a.Scoped? {
      assert CapabilityKey(a)[1] == CapabilityKey(b)[1];
      assert a.path == CapabilityKey(a)[2..];
      assert b.path == CapabilityKey(b)[2..];
    } else if a.Plain? {
      assert CapabilityKey(a)[1] == CapabilityKey(b)[1];
    }
  }

  lemma CapabilityLessTotal()
    ensures StrictTotal(CapabilityLess)
  {
    LexLessTotal();
    forall a, b ensures a == b || CapabilityLess(a, b) || CapabilityLess(b, a) {
      if CapabilityKey(a) == CapabilityKey(b) { CapabilityKeyInjective(a, b); }
    }
  }

  /** crates/aeon_agent_runtime/src/authority.rs:302-316 */
  function CanonicalCapabilities(caps: seq<Capability>): seq<Capability> {
    SortDedup(CapabilityLess, caps)
  }

  datatype AuthoritySet = AuthoritySet(capabilities: seq<Capability>)

  // ---------------------------------------------------------------- capability manifests

  datatype BoundTool = BoundTool(toolId: ToolId, manifestDigest: Digest)

  predicate ToolLess(a: BoundTool, b: BoundTool) {
    a.toolId < b.toolId || (a.toolId == b.toolId && a.manifestDigest < b.manifestDigest)
  }

  lemma ToolLessTotal()
    ensures StrictTotal(ToolLess)
  {}

  /** `registryRoot` is the registry-root digest, that is the sorted entries it hashes. */
  datatype Manifest = Manifest(
    version: nat,
    modelDigest: Digest,
    tools: seq<BoundTool>,
    permissions: seq<Capability>,
    runtimeDigest: Digest,
    registryRoot: seq<BoundTool>)

  function ToolIds(tools: seq<BoundTool>): seq<ToolId> {
    seq(|tools|, i requires 0 <= i < |tools| => tools[i].toolId)
  }

  /** crates/aeon_agent_runtime/src/authority.rs:96-134: refuses repeated tool ids, then forgets
      the order of tools and the order and repeats of permissions. */
  function ManifestDigest(m: Manifest): Result<Manifest> {
    if Distinct(ToolIds(m.tools)) then
      Ok(m.(tools := SortBy(ToolLess, m.tools), permissions := CanonicalCapabilities(m.permissions)))
    else
      Err(CapabilityManifestMismatch)
  }

  /** The canonical identity of a manifest is exact: two manifests without repeated tool ids share
      it exactly when they agree on every scalar, on the set of tools and on the set of
      permissions. */
  lemma ManifestDigestExact(a: Manifest, b: Manifest)
    requires ManifestDigest(a).Ok? && ManifestDigest(b).Ok?
    ensures ManifestDigest(a) == ManifestDigest(b) <==>
            && a.(tools := [], permissions := []) == b.(tools := [], permissions := [])
            && Elems(a.tools) == Elems(b.tools)
            && Elems(a.permissions) == Elems(b.permissions)
  {
    ToolLessTotal();
    CapabilityLessTotal();
    DistinctTools(a.tools);
    DistinctTools(b.tools);
    SortByExact(ToolLess, a.tools, b.tools);
    SortDedupExact(CapabilityLess, a.permissions, b.permissions);
  }

  lemma DistinctTools(tools: seq<BoundTool>)
    requires Distinct(ToolIds(tools))
    ensures Distinct(tools)
  {
    forall i, j | 0 <= i < j < |tools| ensures tools[i] != tools[j] {
      assert ToolIds(tools)[i] != ToolIds(tools)[j];
    }
  }

  // ---------------------------------------------------------------- signed certificates

  datatype Signature<P> = Signed(key: Key, payload: P) | Malformed

  /** A signer; an implementation whose signing key is not the one it publishes is representable. */
  datatype Custody = Custody(keyId: KeyId, verifyingKey: Key, signingKey: Key) {
    function Sign<P>(payload: P): Signature<P> { Signed(signingKey, payload) }
  }

  datatype IdentityBody = IdentityBody(
    agentId: AgentId,
    keyId: KeyId,
    key: Key,
    issuerAgentId: Option<AgentId>,
    issuerKeyId: KeyId,
    issuedAt: Time)

  datatype IdentityCert = IdentityCert(body: IdentityBody, signature: Signature<IdentityBody>) {
    predicate VerifiedBy(issuerKey: Key) { signature == Signed(issuerKey, body) }
  }

  /** The certificate digest of a reference is the certificate itself. */
  datatype LeaseRef = LeaseRef(leaseId: LeaseId, certificate: LeaseCert)

  datatype LeaseBody = LeaseBody(
    leaseId: LeaseId,
    missionId: MissionId,
    agentId: AgentId,
    parentAgentId: Option<AgentId>,
    agentIdentity: IdentityCert,
    issuerIdentity: IdentityCert,
    issuerKeyId: KeyId,
    parentLease: Option<LeaseRef>,
    renewedFrom: Option<LeaseRef>,
    organizationVersion: nat,
    policyEpoch: nat,
    granted: AuthoritySet,
    delegable: AuthoritySet,
    manifestDigest: Manifest,
    contextDigest: Digest,
    issuedAt: Time,
    expiresAt: Time)

  datatype LeaseCert = LeaseCert(body: LeaseBody, signature: Signature<LeaseBody>) {
    predicate VerifiedBy(issuerKey: Key) { signature == Signed(issuerKey, body) }

    function Reference(): LeaseRef { LeaseRef(body.leaseId, this) }
  }

  /** Length of the signed delegation chain above and including a certificate. */
  function Depth(c: LeaseCert): nat {
    match c.body.parentLease
    case None => 1
    case Some(parent) => 1 + Depth(parent.certificate)
  }

  /** Lease ids on that chain, leaf first. */
  function Path(c: LeaseCert): (ids: seq<LeaseId>)
    ensures |ids| == Depth(c) && ids[0] == c.body.leaseId
  {
    match c.body.parentLease
    case None => [c.body.leaseId]
    case Some(parent) => [c.body.leaseId] + Path(parent.certificate)
  }

  /** Number of renewals that led to a certificate. */
  function RenewalRank(c: LeaseCert): nat {
    match c.body.renewedFrom
    case None => 0
    case Some(previous) => 1 + RenewalRank(previous.certificate)
  }

  // ---------------------------------------------------------------- lease records and state

  datatype LeaseState = Active | Paused | Revoked | Expired | Retired {
    predicate Live() { Active? || Paused? }
  }

  datatype LeaseRecord = LeaseRecord(
    leaseId: LeaseId,
    state: LeaseState,
    generation: nat,
    revokedAt: Option<Time>,
    revocationReason: Option<string>,
    renewedBy: Option<LeaseId>)

  function ActiveRecord(id: LeaseId): LeaseRecord {
    LeaseRecord(id, Active, 0, None, None, None)
  }

  datatype LeaseEntry = LeaseEntry(certificate: LeaseCert, record: LeaseRecord, manifest: Manifest) {
    predicate Live() { record.state.Live() }
  }

  datatype Mission = Mission(
    missionId: MissionId,
    allowedTools: seq<ToolId>,
    allowedCapabilities: seq<Capability>,
    policyEpoch: nat,
    organizationVersion: nat,
    active: bool,
    expiresAt: Time,
    maxActions: nat)
  {
    predicate UsableAt(now: Time) { active && maxActions > 0 && now < expiresAt }
  }

  datatype EventKind =
    | IdentityRegistered | LeaseIssued | LeaseDelegated | LeasePaused | LeaseResumed
    | LeaseRevoked | LeaseExpired | LeaseRenewed

  datatype Event = Event(
    sequence: nat,
    leaseId: LeaseId,
    related: Option<LeaseId>,
    kind: EventKind,
    occurredAt: Time)

  type Leases = map<LeaseId, LeaseEntry>
  type Identities = map<AgentId, IdentityCert>

  datatype State = State(
    mission: Mission,
    rootLeaseId: LeaseId,
    identities: Identities,
    custodians: map<AgentId, Custody>,
    leases: Leases,
    events: seq<Event>)

  datatype RootRequest = RootRequest(
    mission: Mission,
    agentId: AgentId,
    granted: AuthoritySet,
    delegable: AuthoritySet,
    manifest: Manifest,
    contextDigest: Digest,
    expiresAt: Time)

  datatype DelegationRequest = DelegationRequest(
    parentLeaseId: LeaseId,
    expectedParentGeneration: nat,
    childAgentId: AgentId,
    granted: AuthoritySet,
    delegable: AuthoritySet,
    manifest: Manifest,
    contextDigest: Digest,
    expiresAt: Time)

  datatype RenewalRequest = RenewalRequest(
    leaseId: LeaseId,
    expectedGeneration: nat,
    granted: AuthoritySet,
    delegable: AuthoritySet,
    manifest: Manifest,
    contextDigest: Digest,
    expiresAt: Time)

  datatype ValidatedAuthority = ValidatedAuthority(
    leafLeaseId: LeaseId,
    leafExpiresAt: Time,
    agentIdentity: IdentityCert,
    manifestDigest: Manifest,
    contextDigest: Digest,
    chain: seq<LeaseRef>,
    observedGenerations: seq<(LeaseId, nat)>)
}
