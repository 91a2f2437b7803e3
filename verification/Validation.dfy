/**
  The kernel's checks: requests, manifests, lease records, certificates and whole authority chains
  (crates/aeon_agent_runtime/src/authority_kernel/validation.rs and the request checks at the end
  of authority_kernel.rs).
 */
module Validation {
  import opened Basics
  import opened Authority
  import opened Identity

  // ---------------------------------------------------------------- authority sets and manifests

  /** validation.rs:274-296 */
  function ValidateAuthoritySets(granted: AuthoritySet, delegable: AuthoritySet): Result<()> {
    if All in granted.capabilities || All in delegable.capabilities then Err(CapabilityAllForbidden)
    else Need(CapsWithin(delegable.capabilities, granted.capabilities), DelegationInvalid)
  }

  /** validation.rs:298-329 */
  function ValidateManifest(m: Manifest, granted: AuthoritySet): Result<()> {
    Need(
      && m.version == 1
      && CanonicalCapabilities(m.permissions) == CanonicalCapabilities(granted.capabilities)
      && Distinct(ToolIds(m.tools)),
      CapabilityManifestMismatch)
  }

  predicate ToolsWithin(child: seq<BoundTool>, parent: seq<BoundTool>) {
    forall i :: 0 <= i < |child| ==> child[i] in parent
  }

  predicate Attenuates(child: Manifest, parent: Manifest) {
    && child.version == parent.version
    && child.modelDigest == parent.modelDigest
    && child.runtimeDigest == parent.runtimeDigest
    && child.registryRoot == parent.registryRoot
    && ToolsWithin(child.tools, parent.tools)
  }

  /** validation.rs:331-352 */
  function ValidateAttenuation(child: Manifest, parent: Manifest): Result<()> {
    Need(Attenuates(child, parent), CapabilityManifestMismatch)
  }

  predicate ToolsInMission(tools: seq<BoundTool>, mission: Mission) {
    forall i :: 0 <= i < |tools| ==> tools[i].toolId in mission.allowedTools
  }

  // ---------------------------------------------------------------- requests

  /** authority_kernel.rs:709-748 */
  function ValidateRootRequest(request: RootRequest, now: Time): Result<()> {
    var mission := request.mission;
    var _ :- Need(mission.UsableAt(now) && now < request.expiresAt <= mission.expiresAt, LeaseInactive);
    var _ :- ValidateAuthoritySets(request.granted, request.delegable);
    var _ :- Need(CapsWithin(request.granted.capabilities, mission.allowedCapabilities), CapabilityOutsideAuthority);
    var _ :- ValidateManifest(request.manifest, request.granted);
    Need(ToolsInMission(request.manifest.tools, mission), ToolOutsideMission)
  }

  /** authority_kernel.rs:750-778 */
  function ValidateDelegationRequest(s: State, parent: LeaseEntry, request: DelegationRequest, now: Time): Result<()> {
    var body := parent.certificate.body;
    var _ :- Need(now < request.expiresAt <= body.expiresAt && request.expiresAt <= s.mission.expiresAt,
                  DelegationInvalid);
    var _ :- ValidateAuthoritySets(request.granted, request.delegable);
    var _ :- Need(CapsWithin(request.granted.capabilities, body.delegable.capabilities), DelegationInvalid);
    var _ :- ValidateManifest(request.manifest, request.granted);
    ValidateAttenuation(request.manifest, parent.manifest)
  }

  /** authority_kernel.rs:780-826 */
  function ValidateRenewalRequest(s: State, prior: LeaseEntry, request: RenewalRequest, now: Time): Result<()> {
    var body := prior.certificate.body;
    var _ :- Need(now < request.expiresAt <= s.mission.expiresAt, DelegationInvalid);
    var _ :- Need(request.contextDigest == body.contextDigest, SemanticContextChanged);
    var _ :- ValidateAuthoritySets(request.granted, request.delegable);
    var _ :- Need(
      && CapsWithin(request.granted.capabilities, body.granted.capabilities)
      && CapsWithin(request.delegable.capabilities, body.delegable.capabilities),
      DelegationInvalid);
    var _ :- ValidateManifest(request.manifest, request.granted);
    var _ :- ValidateAttenuation(request.manifest, prior.manifest);
    match body.parentLease
    case None => Ok(())
    case Some(parentRef) =>
      if parentRef.leaseId !in s.leases then Err(DelegationInvalid) else
      var parent := s.leases[parentRef.leaseId];
      var _ :- ValidateActiveRecord(parent, None, now);
      Need(request.expiresAt <= parent.certificate.body.expiresAt, DelegationInvalid)
  }

  // ---------------------------------------------------------------- leases and chains

  /** validation.rs:257-272 with require_generation at 368-376 */
  function ValidateActiveRecord(entry: LeaseEntry, expected: Option<nat>, now: Time): Result<()> {
    if expected.Some? && entry.record.generation != expected.value then Err(LeaseGenerationMismatch)
    else Need(entry.record.state.Active? && now < entry.certificate.body.expiresAt, LeaseInactive)
  }

  function IssuerAgent(body: LeaseBody): AgentId {
    match body.parentAgentId
    case Some(parent) => parent
    case None => body.agentId
  }

  /** The renewal back-link of a certificate, checked against the predecessor's live record. */
  predicate RenewalLinked(leases: Leases, body: LeaseBody) {
    match body.renewedFrom
    case None => true
    case Some(previous) =>
      && previous.leaseId in leases
      && var prior := leases[previous.leaseId];
         && previous == prior.certificate.Reference()
         && prior.certificate.body.agentId == body.agentId
         && prior.certificate.body.missionId == body.missionId
         && prior.record.state == Retired
         && prior.record.renewedBy == Some(body.leaseId)
  }

  predicate BoundToMission(mission: Mission, entry: LeaseEntry) {
    var body := entry.certificate.body;
    && body.missionId == mission.missionId
    && body.organizationVersion == mission.organizationVersion
    && body.policyEpoch == mission.policyEpoch
    && ManifestDigest(entry.manifest) == Ok(body.manifestDigest)
  }

  predicate BoundToSubject(ids: Identities, body: LeaseBody) {
    body.agentId in ids && ids[body.agentId] == body.agentIdentity
  }

  predicate BoundToIssuer(ids: Identities, body: LeaseBody) {
    && IssuerAgent(body) in ids
    && ids[IssuerAgent(body)] == body.issuerIdentity
    && ids[IssuerAgent(body)].body.keyId == body.issuerKeyId
  }

  /** validation.rs:78-144: the new identity memo set on success. */
  function ValidateCertificateEntry(s: State, entry: LeaseEntry, memo: set<AgentId>): Result<set<AgentId>> {
    var body := entry.certificate.body;
    var _ :- Need(BoundToMission(s.mission, entry), CapabilityManifestMismatch);
    var _ :- Need(body.agentId in s.identities, IdentityInvalid);
    var memo' :- IdentityCheck(s.identities, body.agentId, memo);
    var _ :- Need(BoundToSubject(s.identities, body) && BoundToIssuer(s.identities, body), IdentityInvalid);
    var _ :- Need(entry.certificate.VerifiedBy(s.identities[IssuerAgent(body)].body.key), AuthorizationInvalid);
    var _ :- Need(RenewalLinked(s.leases, body), DelegationInvalid);
    Ok(memo')
  }

  /** validation.rs:230-255 */
  function ValidateParentChild(parent: LeaseEntry, child: LeaseEntry): Result<()> {
    var body := child.certificate.body;
    var _ :- Need(
      && body.parentLease == Some(parent.certificate.Reference())
      && body.parentAgentId == Some(parent.certificate.body.agentId)
      && body.expiresAt <= parent.certificate.body.expiresAt
      && CapsWithin(body.granted.capabilities, parent.certificate.body.delegable.capabilities),
      DelegationInvalid);
    var _ :- ValidateAuthoritySets(body.granted, body.delegable);
    ValidateAttenuation(child.manifest, parent.manifest)
  }

  function ExpectedAt(current: LeaseId, leaf: LeaseId, expected: Option<nat>): Option<nat> {
    if current == leaf then expected else None
  }

  /** The loop of validation.rs:14-45 after `walked` (leaf first) has been accepted. */
  function WalkChain(s: State, leaf: LeaseId, expected: Option<nat>, now: Time,
                     current: LeaseId, memo: set<AgentId>, walked: seq<LeaseId>): (r: Result<seq<LeaseId>>)
    requires |walked| < MAX_AUTHORITY_CHAIN_DEPTH && Elems(walked) <= s.leases.Keys
    ensures r.Ok? ==> r.value != [] && Elems(r.value) <= s.leases.Keys
    decreases MAX_AUTHORITY_CHAIN_DEPTH - |walked|
  {
    if current in walked || current !in s.leases then Err(DelegationInvalid)
    else
      var entry := s.leases[current];
      var _ :- ValidateActiveRecord(entry, ExpectedAt(current, leaf, expected), now);
      var memo' :- ValidateCertificateEntry(s, entry, memo);
      match entry.certificate.body.parentLease
      case None => Ok(walked + [current])
      case Some(parent) =>
        if |walked| + 1 >= MAX_AUTHORITY_CHAIN_DEPTH then Err(DelegationInvalid)
        else WalkChain(s, leaf, expected, now, parent.leaseId, memo', walked + [current])
  }

  /** validation.rs:46-49: parent-child checks from the root downwards along a leaf-first walk. */
  function ValidateLinks(leases: Leases, walked: seq<LeaseId>): Result<()>
    requires Elems(walked) <= leases.Keys
  {
    if |walked| < 2 then Ok(())
    else
      assert forall x :: x in walked[1..] ==> x in walked;
      var _ :- ValidateLinks(leases, walked[1..]);
      assert walked[0] in Elems(walked) && walked[1] in Elems(walked);
      ValidateParentChild(leases[walked[1]], leases[walked[0]])
  }

  function Reversed<T>(s: seq<T>): (r: seq<T>)
    ensures |r| == |s| && forall i :: 0 <= i < |s| ==> r[i] == s[|s| - 1 - i]
  {
    seq(|s|, i requires 0 <= i < |s| => s[|s| - 1 - i])
  }

  /** The bindings a successful validation hands out, for a root-first chain. */
  function Authorized(leases: Leases, leaf: LeaseId, chain: seq<LeaseId>): ValidatedAuthority
    requires Elems(chain) <= leases.Keys && leaf in leases
  {
    assert forall i :: 0 <= i < |chain| ==> chain[i] in Elems(chain);
    var body := leases[leaf].certificate.body;
    ValidatedAuthority(
      leaf,
      body.expiresAt,
      body.agentIdentity,
      body.manifestDigest,
      body.contextDigest,
      seq(|chain|, i requires 0 <= i < |chain| => leases[chain[i]].certificate.Reference()),
      seq(|chain|, i requires 0 <= i < |chain| => (chain[i], leases[chain[i]].record.generation)))
  }

  /** validation.rs:3-76 */
  function ValidateChain(s: State, leaf: LeaseId, expected: Option<nat>, manifest: Manifest,
                         now: Time): Result<ValidatedAuthority> {
    var walked :- WalkChain(s, leaf, expected, now, leaf, {}, []);
    var _ :- ValidateLinks(s.leases, walked);
    WalkStartsAtLeaf(s, leaf, expected, now);
    var current :- ManifestDigest(manifest);
    var bound :- ManifestDigest(s.leases[leaf].manifest);
    var _ :- Need(bound == current, CapabilityManifestMismatch);
    ReversedElems(walked);
    Ok(Authorized(s.leases, leaf, Reversed(walked)))
  }

  lemma ReversedElems<T>(s: seq<T>)
    ensures Elems(Reversed(s)) == Elems(s)
  {
    var r := Reversed(s);
    forall x | x in s ensures x in r {
      var i :| 0 <= i < |s| && s[i] == x;
      assert r[|s| - 1 - i] == x;
    }
  }

  lemma {:induction false} WalkExtends(s: State, leaf: LeaseId, expected: Option<nat>, now: Time,
                                       current: LeaseId, memo: set<AgentId>, walked: seq<LeaseId>)
    requires |walked| < MAX_AUTHORITY_CHAIN_DEPTH && Elems(walked) <= s.leases.Keys
    requires WalkChain(s, leaf, expected, now, current, memo, walked).Ok?
    ensures walked + [current] <= WalkChain(s, leaf, expected, now, current, memo, walked).value
    decreases MAX_AUTHORITY_CHAIN_DEPTH - |walked|
  {
    var entry := s.leases[current];
    match entry.certificate.body.parentLease
    case None =>
    case Some(parent) =>
      var memo' := ValidateCertificateEntry(s, entry, memo).value;
      WalkExtends(s, leaf, expected, now, parent.leaseId, memo', walked + [current]);
  }

  lemma WalkStartsAtLeaf(s: State, leaf: LeaseId, expected: Option<nat>, now: Time)
    ensures WalkChain(s, leaf, expected, now, leaf, {}, []).Ok? ==>
            leaf in s.leases && WalkChain(s, leaf, expected, now, leaf, {}, []).value[0] == leaf
  {
    if WalkChain(s, leaf, expected, now, leaf, {}, []).Ok? {
      WalkExtends(s, leaf, expected, now, leaf, {}, []);
    }
  }

  /** The two loops of `validate_chain`, over any state, reachable or not.  `checked` lists the
      identities whose signature the traversal verifies: none twice. */
  method CheckChain(s: State, leaf: LeaseId, expected: Option<nat>, manifest: Manifest, now: Time)
    returns (r: Result<ValidatedAuthority>, checked: seq<AgentId>)
    ensures r == ValidateChain(s, leaf, expected, manifest, now)
    ensures Distinct(checked)
  {
    var visited: set<LeaseId> := {};
    var memo: set<AgentId> := {};
    var walked: seq<LeaseId> := [];
    var current := leaf;
    checked := [];
    while true
      invariant |walked| < MAX_AUTHORITY_CHAIN_DEPTH
      invariant visited == Elems(walked) <= s.leases.Keys
      invariant Distinct(checked) && Elems(checked) == memo
      invariant WalkChain(s, leaf, expected, now, current, memo, walked) ==
                WalkChain(s, leaf, expected, now, leaf, {}, [])
      decreases MAX_AUTHORITY_CHAIN_DEPTH - |walked|
    {
      if current in visited || current !in s.leases {
        return Err(DelegationInvalid), checked;
      }
      visited := visited + {current};
      var entry := s.leases[current];
      var active := ValidateActiveRecord(entry, ExpectedAt(current, leaf, expected), now);
      if active.Err? {
        return Err(active.error), checked;
      }
      var ok, memo', added := CheckCertificateEntry(s, entry, memo);
      DistinctConcat(checked, added);
      checked := checked + added;
      if ok.Err? {
        return Err(ok.error), checked;
      }
      memo := memo';
      walked := walked + [current];
      match entry.certificate.body.parentLease {
        case None => break;
        case Some(parent) =>
          if |walked| >= MAX_AUTHORITY_CHAIN_DEPTH {
            return Err(DelegationInvalid), checked;
          }
          current := parent.leaseId;
      }
    }
    WalkStartsAtLeaf(s, leaf, expected, now);
    var links := CheckLinks(s.leases, walked);
    if links.Err? {
      return Err(links.error), checked;
    }
    var supplied := ManifestDigest(manifest);
    var bound := ManifestDigest(s.leases[leaf].manifest);
    if supplied.Err? || bound.Err? || supplied != bound {
      return Err(CapabilityManifestMismatch), checked;
    }
    ReversedElems(walked);
    return Ok(Authorized(s.leases, leaf, Reversed(walked))), checked;
  }

  method CheckCertificateEntry(s: State, entry: LeaseEntry, memo: set<AgentId>)
    returns (r: Result<()>, memo': set<AgentId>, checked: seq<AgentId>)
    ensures match ValidateCertificateEntry(s, entry, memo)
            case Ok(grown) => r.Ok? && memo' == grown == memo + Elems(checked)
            case Err(e) => r == Err(e)
    ensures Distinct(checked) && Elems(checked) !! memo
  {
    var body := entry.certificate.body;
    memo', checked := memo, [];
    if !BoundToMission(s.mission, entry) {
      return Err(CapabilityManifestMismatch), memo, [];
    }
    if body.agentId !in s.identities {
      return Err(IdentityInvalid), memo, [];
    }
    r, memo', checked := ValidateIdentityChain(s.identities, body.agentId, memo);
    if r.Err? {
      return;
    }
    if !BoundToSubject(s.identities, body) || !BoundToIssuer(s.identities, body) {
      r := Err(IdentityInvalid);
    } else if !entry.certificate.VerifiedBy(s.identities[IssuerAgent(body)].body.key) {
      r := Err(AuthorizationInvalid);
    } else if !RenewalLinked(s.leases, body) {
      r := Err(DelegationInvalid);
    }
  }

  method CheckLinks(leases: Leases, walked: seq<LeaseId>) returns (r: Result<()>)
    requires Elems(walked) <= leases.Keys
    ensures r == ValidateLinks(leases, walked)
  {
    var i := |walked|;
    while i > 1
      invariant 0 <= i <= |walked| && (walked != [] ==> i >= 1)
      invariant Elems(walked[if i == 0 then 0 else i - 1..]) <= leases.Keys
      invariant i >= 1 ==> ValidateLinks(leases, walked[i - 1..]) == Ok(())
    {
      i := i - 1;
      assert walked[i - 1..][1..] == walked[i..];
      assert forall x :: x in walked[i - 1..] ==> x in walked;
      assert walked[i - 1..][0] == walked[i - 1] && walked[i - 1..][1] == walked[i];
      assert walked[i] in Elems(walked) && walked[i - 1] in Elems(walked);
      r := ValidateParentChild(leases[walked[i]], leases[walked[i - 1]]);
      if r.Err? {
        LinkFailurePropagates(leases, walked, i - 1);
        return;
      }
    }
    r := Ok(());
    assert walked != [] ==> walked[0..] == walked;
  }

  lemma {:induction false} LinkFailurePropagates(leases: Leases, walked: seq<LeaseId>, k: nat)
    requires k <= |walked| && Elems(walked) <= leases.Keys && Elems(walked[k..]) <= leases.Keys
    requires ValidateLinks(leases, walked[k..]).Err?
    ensures ValidateLinks(leases, walked) == ValidateLinks(leases, walked[k..])
  {
    if k == 0 {
      assert walked[0..] == walked;
    } else {
      assert walked[k - 1..][1..] == walked[k..];
      assert forall x :: x in walked[k - 1..] ==> x in walked;
      LinkFailurePropagates(leases, walked, k - 1);
    }
  }
}
