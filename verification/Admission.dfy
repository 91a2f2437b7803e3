/**
  What bootstrap, delegation and renewal demand of a request and what they issue, field by field
  and apart from the checks and constructors of the operations themselves
  (crates/aeon_agent_runtime/src/authority_kernel.rs:150-363, 511-598, 709-826).
 */
module Admission {
  import opened Basics
  import opened Canonical
  import opened Authority
  import opened Validation
  import opened Forest
  import opened Kernel
  import opened Invariant
  import opened Chain
  import opened Preservation
  import opened Expiry
  import opened Guarantees
  import opened Effects

  // ---------------------------------------------------------------- what is asked of every request

  /** Version 1, the permissions of the granted authority in any order, and no tool twice. */
  predicate ManifestFits(m: Manifest, granted: AuthoritySet) {
    && m.version == 1
    && Elems(m.permissions) == Elems(granted.capabilities)
    && forall i, j :: 0 <= i < j < |m.tools| ==> m.tools[i].toolId != m.tools[j].toolId
  }

  /** Same model, runtime, registry and version, and no tool the other does not bind. */
  predicate NarrowerManifest(m: Manifest, above: Manifest) {
    && m == above.(tools := m.tools, permissions := m.permissions)
    && forall tool :: tool in m.tools ==> tool in above.tools
  }

  /** The error of a request's authority sets, if any. */
  function SetsRefusal(granted: AuthoritySet, delegable: AuthoritySet): Option<ErrorCode> {
    if All in granted.capabilities || All in delegable.capabilities then Some(CapabilityAllForbidden)
    else if !CapsWithin(delegable.capabilities, granted.capabilities) then Some(DelegationInvalid)
    else None
  }

  lemma SetsExact(granted: AuthoritySet, delegable: AuthoritySet)
    ensures ValidateAuthoritySets(granted, delegable) ==
            match SetsRefusal(granted, delegable) case Some(e) => Err(e) case None => Ok(())
  {}

  lemma ManifestExact(m: Manifest, granted: AuthoritySet)
    ensures ValidateManifest(m, granted) == if ManifestFits(m, granted) then Ok(()) else Err(CapabilityManifestMismatch)
    ensures ManifestFits(m, granted) ==> ManifestDigest(m).Ok?
  {
    CapabilityLessTotal();
    SortDedupExact(CapabilityLess, m.permissions, granted.capabilities);
    DistinctIds(m.tools);
  }

  lemma DistinctIds(tools: seq<BoundTool>)
    ensures Distinct(ToolIds(tools)) <==> forall i, j :: 0 <= i < j < |tools| ==> tools[i].toolId != tools[j].toolId
  {
    var ids := ToolIds(tools);
    if Distinct(ids) {
      forall i, j | 0 <= i < j < |tools| ensures tools[i].toolId != tools[j].toolId { assert ids[i] != ids[j]; }
    }
  }

  lemma AttenuationExact(m: Manifest, above: Manifest)
    ensures ValidateAttenuation(m, above) ==
            if NarrowerManifest(m, above) then Ok(()) else Err(CapabilityManifestMismatch)
  {
    if Attenuates(m, above) {
      forall tool | tool in m.tools ensures tool in above.tools {}
    }
  }

  // ---------------------------------------------------------------- bootstrap

  /** Why a bootstrap is refused, first reason first. */
  function RootRefusal(request: RootRequest, custody: Custody, now: Time): Option<ErrorCode> {
    var mission := request.mission;
    if !mission.active || mission.maxActions == 0 || !(now < request.expiresAt <= mission.expiresAt)
    then Some(LeaseInactive)
    else if SetsRefusal(request.granted, request.delegable).Some? then SetsRefusal(request.granted, request.delegable)
    else if !CapsWithin(request.granted.capabilities, mission.allowedCapabilities) then Some(CapabilityOutsideAuthority)
    else if !ManifestFits(request.manifest, request.granted) then Some(CapabilityManifestMismatch)
    else if exists tool :: tool in request.manifest.tools && tool.toolId !in mission.allowedTools
    then Some(ToolOutsideMission)
    else if custody.signingKey != custody.verifyingKey then Some(IdentityInvalid)
    else None
  }

  lemma RootRequestExact(request: RootRequest, custody: Custody, now: Time)
    ensures ValidateRootRequest(request, now).Err? ==>
              RootRefusal(request, custody, now) == Some(ValidateRootRequest(request, now).error)
    ensures ValidateRootRequest(request, now).Ok? ==>
              && ManifestDigest(request.manifest).Ok?
              && RootRefusal(request, custody, now) ==
                 if custody.signingKey != custody.verifyingKey then Some(IdentityInvalid) else None
  {
    SetsExact(request.granted, request.delegable);
    ManifestExact(request.manifest, request.granted);
    ToolsInMissionExact(request.manifest.tools, request.mission);
  }

  lemma ToolsInMissionExact(tools: seq<BoundTool>, mission: Mission)
    ensures ToolsInMission(tools, mission) <==> !exists tool :: tool in tools && tool.toolId !in mission.allowedTools
  {
    if tool :| tool in tools && tool.toolId !in mission.allowedTools {
      var i :| 0 <= i < |tools| && tools[i] == tool;
    } else {
      forall i | 0 <= i < |tools| ensures tools[i].toolId in mission.allowedTools { assert tools[i] in tools; }
    }
  }

  /** Bootstrap fails exactly with the first reason, and without one it succeeds. */
  lemma BootstrapExact(request: RootRequest, custody: Custody, now: Time, id: LeaseId)
    ensures match RootRefusal(request, custody, now)
            case Some(e) => Bootstrap(request, custody, now, id) == Err(e)
            case None => Bootstrap(request, custody, now, id).Ok?
  {
    RootRequestExact(request, custody, now);
  }

  /** The one identity and the one lease of a fresh kernel, and its two events. */
  lemma BootstrapEffect(request: RootRequest, custody: Custody, now: Time, id: LeaseId)
    requires Bootstrap(request, custody, now, id).Ok?
    ensures var s := Bootstrap(request, custody, now, id).value;
            var body := IdentityBody(request.agentId, custody.keyId, custody.verifyingKey, None, custody.keyId, now);
            var identity := IdentityCert(body, Signed(custody.verifyingKey, body));
            var mission := request.mission;
            var lease := LeaseBody(
              id, mission.missionId, request.agentId, None, identity, identity, custody.keyId, None, None,
              mission.organizationVersion, mission.policyEpoch, request.granted, request.delegable,
              ManifestDigest(request.manifest).value, request.contextDigest, now, request.expiresAt);
            && ManifestDigest(request.manifest).Ok?
            && s.mission == mission && s.rootLeaseId == id
            && s.identities == map[request.agentId := identity]
            && s.custodians == map[request.agentId := custody]
            && s.leases == map[id := LeaseEntry(
                 LeaseCert(lease, Signed(custody.verifyingKey, lease)),
                 LeaseRecord(id, Active, 0, None, None, None),
                 request.manifest)]
            && s.events == [Event(1, id, None, IdentityRegistered, now), Event(2, id, None, LeaseIssued, now)]
  {
    RootRequestExact(request, custody, now);
  }

  // ---------------------------------------------------------------- the chain above

  /** A lease and everything above it is Active, and the lease has not expired. */
  ghost predicate ChainActive(s: State, id: LeaseId, now: Time) {
    && id in s.leases
    && (forall x :: Below(LinksOf(s.leases), id, x) ==> x in s.leases && s.leases[x].record.state == Active)
    && now < s.leases[id].certificate.body.expiresAt
  }

  lemma ActiveAbove(s: State, id: LeaseId)
    requires Static(s) && id in s.leases
    ensures AllActive(s.leases, Path(s.leases[id].certificate)) <==>
            forall x :: Below(LinksOf(s.leases), id, x) ==> x in s.leases && s.leases[x].record.state == Active
  {
    var g, path := LinksOf(s.leases), Path(s.leases[id].certificate);
    if AllActive(s.leases, path) {
      forall x | Below(g, id, x) ensures x in s.leases && s.leases[x].record.state == Active {
        var n: nat :| Up(g, id, n) == Some(x);
        UpWithinPath(s, id, n);
      }
    }
    if forall x :: Below(g, id, x) ==> x in s.leases && s.leases[x].record.state == Active {
      forall i | 0 <= i < |path| ensures path[i] in s.leases && s.leases[path[i]].record.state.Active? {
        UpAlongPath(s, id, i);
        assert Below(g, id, path[i]);
      }
    }
  }

  lemma UpWithinPath(s: State, id: LeaseId, n: nat)
    requires Static(s) && id in s.leases && Up(LinksOf(s.leases), id, n).Some?
    ensures n < Depth(s.leases[id].certificate)
    ensures Up(LinksOf(s.leases), id, n) == Some(Path(s.leases[id].certificate)[n])
  {
    var g, d := LinksOf(s.leases), Depth(s.leases[id].certificate);
    if n >= d {
      UpAlongPath(s, id, d);
      UpStaysNone(g, id, d, n);
    } else {
      UpAlongPath(s, id, n);
    }
  }

  lemma {:induction false} UpStaysNone(g: Links, id: LeaseId, m: nat, n: nat)
    requires m <= n && Up(g, id, m) == None
    ensures Up(g, id, n) == None
    decreases n
  {
    if m < n { UpStaysNone(g, id, m, n - 1); }
  }

  /** What is left of the two checks made of a lease's generation and chain. */
  lemma ChainRefusal(s: State, id: LeaseId, expected: nat, now: Time)
    requires Inv(s) && id in s.leases
    ensures var entry := s.leases[id];
            var active := ValidateActiveRecord(entry, Some(expected), now);
            var chain := ValidateChain(s, id, Some(expected), entry.manifest, now);
            && (entry.record.generation != expected ==> active == Err(LeaseGenerationMismatch))
            && (entry.record.generation == expected && !ChainActive(s, id, now) ==>
                  active == Err(LeaseInactive) || (active.Ok? && chain == Err(LeaseInactive)))
            && (entry.record.generation == expected && ChainActive(s, id, now) ==>
                  active.Ok? && chain.Ok? && |chain.value.chain| == Depth(entry.certificate))
  {
    var entry := s.leases[id];
    assert CertificateOk(s, id);
    ChainCollapses(s, id, Some(expected), entry.manifest, now);
    ActiveAbove(s, id);
    BelowSelf(LinksOf(s.leases), id);
  }

  // ---------------------------------------------------------------- delegation

  /** Why a delegation is refused, first reason first. */
  ghost function DelegationRefusal(s: State, request: DelegationRequest, custody: Custody,
                                   now: Time): Option<ErrorCode> {
    if request.parentLeaseId !in s.leases then Some(LeaseInactive)
    else
      var parent := s.leases[request.parentLeaseId];
      var body := parent.certificate.body;
      if parent.record.generation != request.expectedParentGeneration then Some(LeaseGenerationMismatch)
      else if !ChainActive(s, request.parentLeaseId, now) then Some(LeaseInactive)
      else if Depth(parent.certificate) >= 32 || !(now < request.expiresAt <= body.expiresAt)
      then Some(DelegationInvalid)
      else if SetsRefusal(request.granted, request.delegable).Some? then SetsRefusal(request.granted, request.delegable)
      else if !CapsWithin(request.granted.capabilities, body.delegable.capabilities) then Some(DelegationInvalid)
      else if !ManifestFits(request.manifest, request.granted) || !NarrowerManifest(request.manifest, parent.manifest)
      then Some(CapabilityManifestMismatch)
      else if request.childAgentId in s.identities || KeyTaken(s, custody.keyId) || !SignsTruly(s, body.agentId)
      then Some(IdentityInvalid)
      else None
  }

  /** Some agent is already known under this key id. */
  ghost predicate KeyTaken(s: State, keyId: KeyId) {
    exists agent :: agent in s.identities && s.identities[agent].body.keyId == keyId
  }

  /** The agent's custodian signs with the key it publishes. */
  predicate SignsTruly(s: State, agent: AgentId) {
    agent in s.custodians && s.custodians[agent].signingKey == s.custodians[agent].verifyingKey
  }

  lemma DelegationRequestExact(s: State, request: DelegationRequest, custody: Custody, now: Time)
    requires Inv(s) && request.parentLeaseId in s.leases
    requires ChainActive(s, request.parentLeaseId, now) && Depth(s.leases[request.parentLeaseId].certificate) < 32
    requires s.leases[request.parentLeaseId].record.generation == request.expectedParentGeneration
    ensures var checked := ValidateDelegationRequest(s, s.leases[request.parentLeaseId], request, now);
            && (checked.Err? ==> DelegationRefusal(s, request, custody, now) == Some(checked.error))
            && (checked.Ok? ==>
                  && ManifestDigest(request.manifest).Ok?
                  && DelegationRefusal(s, request, custody, now) ==
                     if || request.childAgentId in s.identities || KeyTaken(s, custody.keyId)
                        || !SignsTruly(s, s.leases[request.parentLeaseId].certificate.body.agentId)
                     then Some(IdentityInvalid) else None)
  {
    assert CertificateOk(s, request.parentLeaseId);
    SetsExact(request.granted, request.delegable);
    ManifestExact(request.manifest, request.granted);
    AttenuationExact(request.manifest, s.leases[request.parentLeaseId].manifest);
  }

  /** Delegation from a state of a run fails exactly with the first reason, and without one it succeeds. */
  lemma DelegateExact(s: State, request: DelegationRequest, custody: Custody, now: Time, id: LeaseId)
    requires Inv(s)
    ensures match DelegationRefusal(s, request, custody, now)
            case Some(e) => Delegate(s, request, custody, now, id) == Err(e)
            case None => Delegate(s, request, custody, now, id).Ok?
  {
    var pid := request.parentLeaseId;
    if pid in s.leases {
      ChainRefusal(s, pid, request.expectedParentGeneration, now);
      if s.leases[pid].record.generation == request.expectedParentGeneration && ChainActive(s, pid, now)
         && Depth(s.leases[pid].certificate) < 32 {
        DelegationRequestExact(s, request, custody, now);
        assert CertificateOk(s, pid);
        assert IdentityOk(s, s.leases[pid].certificate.body.agentId);
      }
    }
  }

  /** The identity and the lease a delegation issues, bound to the request, the parent and the clock, and its
      two events; nothing else changes. */
  lemma DelegateEffect(s: State, request: DelegationRequest, custody: Custody, now: Time, id: LeaseId)
    requires Inv(s) && Delegate(s, request, custody, now, id).Ok?
    ensures request.parentLeaseId in s.leases && ManifestDigest(request.manifest).Ok?
    ensures var s' := Delegate(s, request, custody, now, id).value;
            var parent := s.leases[request.parentLeaseId].certificate;
            var agent, child := parent.body.agentId, request.childAgentId;
            && agent in s.identities
            && var issuer := s.identities[agent];
               var body := IdentityBody(
                 child, custody.keyId, custody.verifyingKey, Some(agent), issuer.body.keyId, now);
               var identity := IdentityCert(body, Signed(issuer.body.key, body));
               var lease := LeaseBody(
                 id, s.mission.missionId, child, Some(agent), identity, issuer, issuer.body.keyId,
                 Some(LeaseRef(request.parentLeaseId, parent)), None, s.mission.organizationVersion,
                 s.mission.policyEpoch, request.granted, request.delegable, ManifestDigest(request.manifest).value,
                 request.contextDigest, now, request.expiresAt);
               && s'.identities == s.identities[child := identity]
               && s'.custodians == s.custodians[child := custody]
               && s'.leases == s.leases[id := LeaseEntry(
                    LeaseCert(lease, Signed(issuer.body.key, lease)),
                    LeaseRecord(id, Active, 0, None, None, None),
                    request.manifest)]
               && s'.mission == s.mission && s'.rootLeaseId == s.rootLeaseId
               && s'.events == s.events
                    + [Event(|s.events| + 1, id, Some(request.parentLeaseId), IdentityRegistered, now)]
                    + [Event(|s.events| + 2, id, Some(request.parentLeaseId), LeaseDelegated, now)]
  {
    assert CertificateOk(s, request.parentLeaseId);
    assert IdentityOk(s, s.leases[request.parentLeaseId].certificate.body.agentId);
    var identity, certificate := DelegateShape(s, request, custody, now, id);
  }

  // ---------------------------------------------------------------- renewal

  /** Why a renewal is refused, first reason first. */
  ghost function RenewalRefusal(s: State, request: RenewalRequest, now: Time): Option<ErrorCode> {
    if request.leaseId !in s.leases then Some(LeaseInactive)
    else
      var prior := s.leases[request.leaseId];
      var body := prior.certificate.body;
      if prior.record.generation != request.expectedGeneration then Some(LeaseGenerationMismatch)
      else if !ChainActive(s, request.leaseId, now) then Some(LeaseInactive)
      else if !(now < request.expiresAt <= s.mission.expiresAt) then Some(DelegationInvalid)
      else if request.contextDigest != body.contextDigest then Some(SemanticContextChanged)
      else if SetsRefusal(request.granted, request.delegable).Some? then SetsRefusal(request.granted, request.delegable)
      else if !CapsWithin(request.granted.capabilities, body.granted.capabilities)
           || !CapsWithin(request.delegable.capabilities, body.delegable.capabilities)
      then Some(DelegationInvalid)
      else if !ManifestFits(request.manifest, request.granted) || !NarrowerManifest(request.manifest, prior.manifest)
      then Some(CapabilityManifestMismatch)
      else if OutlivesParent(s, body, request.expiresAt) then Some(DelegationInvalid)
      else if !SignsTruly(s, if body.parentAgentId.Some? then body.parentAgentId.value else body.agentId)
      then Some(AuthorizationInvalid)
      else None
  }

  predicate OutlivesParent(s: State, body: LeaseBody, expiresAt: Time) {
    && body.parentLease.Some? && body.parentLease.value.leaseId in s.leases
    && s.leases[body.parentLease.value.leaseId].certificate.body.expiresAt < expiresAt
  }

  /** Under an active chain the parent, if there is one, is usable. */
  lemma ParentUsable(s: State, id: LeaseId, now: Time)
    requires Inv(s) && ChainActive(s, id, now) && s.leases[id].certificate.body.parentLease.Some?
    ensures var p := s.leases[id].certificate.body.parentLease.value.leaseId;
            p in s.leases && ValidateActiveRecord(s.leases[p], None, now).Ok?
  {
    assert CertificateOk(s, id);
    var p := ParentFacts(s, id);
    var g := LinksOf(s.leases);
    BelowSelf(g, p);
    BelowParent(g, id, p, p);
  }

  lemma RenewalRequestExact(s: State, request: RenewalRequest, now: Time)
    requires Inv(s) && ChainActive(s, request.leaseId, now)
    requires s.leases[request.leaseId].record.generation == request.expectedGeneration
    ensures var checked := ValidateRenewalRequest(s, s.leases[request.leaseId], request, now);
            && (checked.Err? ==> RenewalRefusal(s, request, now) == Some(checked.error))
            && (checked.Ok? ==>
                  && ManifestDigest(request.manifest).Ok?
                  && RenewalRefusal(s, request, now) ==
                     if !SignsTruly(s, IssuerAgent(s.leases[request.leaseId].certificate.body))
                     then Some(AuthorizationInvalid) else None)
  {
    assert CertificateOk(s, request.leaseId);
    SetsExact(request.granted, request.delegable);
    ManifestExact(request.manifest, request.granted);
    AttenuationExact(request.manifest, s.leases[request.leaseId].manifest);
    if s.leases[request.leaseId].certificate.body.parentLease.Some? { ParentUsable(s, request.leaseId, now); }
  }

  /** The issuer of a stored lease is registered, with its custodian. */
  lemma IssuerKnown(s: State, id: LeaseId)
    requires Inv(s) && id in s.leases
    ensures var issuer := IssuerAgent(s.leases[id].certificate.body);
            && issuer in s.identities && issuer in s.custodians
            && s.custodians[issuer].keyId == s.identities[issuer].body.keyId
            && s.custodians[issuer].verifyingKey == s.identities[issuer].body.key
            && issuer == if s.leases[id].certificate.body.parentAgentId.Some?
                         then s.leases[id].certificate.body.parentAgentId.value
                         else s.leases[id].certificate.body.agentId
  {
    assert CertificateOk(s, id);
    assert IdentityOk(s, IssuerAgent(s.leases[id].certificate.body));
  }

  lemma RenewalCertificateExact(s: State, request: RenewalRequest, now: Time, id: LeaseId)
    requires Inv(s)
    ensures match RenewalRefusal(s, request, now)
            case Some(e) => RenewalCertificate(s, request, now, id) == Err(e)
            case None => RenewalCertificate(s, request, now, id).Ok?
  {
    var prior := request.leaseId;
    if prior in s.leases {
      ChainRefusal(s, prior, request.expectedGeneration, now);
      if s.leases[prior].record.generation == request.expectedGeneration && ChainActive(s, prior, now) {
        RenewalRequestExact(s, request, now);
        IssuerKnown(s, prior);
      }
    }
  }

  /** Renewal in a state of a run fails exactly with the first reason, and without one it succeeds. */
  lemma RenewExact(s: State, request: RenewalRequest, now: Time, id: LeaseId)
    requires Inv(s)
    ensures match RenewalRefusal(s, request, now)
            case Some(e) => Renew(s, request, now, id) == Err(e)
            case None => Renew(s, request, now, id).Ok?
  {
    RenewalCertificateExact(s, request, now, id);
  }

  /** The certificate of a renewal: agent, parent and mission of the old one, everything else as requested. */
  lemma RenewalIssues(s: State, request: RenewalRequest, now: Time, id: LeaseId)
    requires Inv(s) && RenewalCertificate(s, request, now, id).Ok?
    ensures request.leaseId in s.leases && ManifestDigest(request.manifest).Ok?
    ensures s.leases[request.leaseId].record.state == Active
    ensures var prior := s.leases[request.leaseId].certificate;
            var agent := if prior.body.parentAgentId.Some? then prior.body.parentAgentId.value else prior.body.agentId;
            && agent in s.identities
            && var issuer := s.identities[agent];
               var lease := LeaseBody(
                 id, s.mission.missionId, prior.body.agentId, prior.body.parentAgentId, prior.body.agentIdentity,
                 issuer, issuer.body.keyId, prior.body.parentLease, Some(LeaseRef(request.leaseId, prior)),
                 s.mission.organizationVersion, s.mission.policyEpoch, request.granted, request.delegable,
                 ManifestDigest(request.manifest).value, request.contextDigest, now, request.expiresAt);
               RenewalCertificate(s, request, now, id) == Ok(LeaseCert(lease, Signed(issuer.body.key, lease)))
  {
    RenewalNeedsActive(s, request, now, id);
    assert CertificateOk(s, request.leaseId);
    IssuerKnown(s, request.leaseId);
  }

  /** What renewal leaves of the lease it replaces. */
  predicate RetiredFrom(before: LeaseEntry, after: LeaseEntry, successor: LeaseId) {
    var r := before.record;
    after == LeaseEntry(
      before.certificate,
      LeaseRecord(r.leaseId, Retired, r.generation + 1, r.revokedAt, r.revocationReason, Some(successor)),
      before.manifest)
  }

  /** `id` replaces `prior`, everything of `hit` is revoked, the rest of the leases is unchanged. */
  ghost predicate Replaces(s: State, s': State, prior: LeaseId, id: LeaseId, next: LeaseEntry, hit: seq<LeaseId>,
                           now: Time)
  {
    && prior in s.leases && s'.leases.Keys == s.leases.Keys + {id}
    && s'.leases[id] == next
    && RetiredFrom(s.leases[prior], s'.leases[prior], id)
    && (forall x :: x in hit ==>
          x in s.leases && RevokedFrom(s.leases[x], s'.leases[x], "ancestor lease retired during renewal", now))
    && (forall x :: x in s.leases && x != prior && x !in hit ==> s'.leases[x] == s.leases[x])
    && s'.rootLeaseId == (if s.rootLeaseId == prior then id else s.rootLeaseId)
    && s'.mission == s.mission && s'.identities == s.identities && s'.custodians == s.custodians
    && s'.events == s.events + RevocationLog(hit, prior, |s.events|, now)
                             + [Event(|s.events| + |hit| + 1, id, Some(prior), LeaseRenewed, now)]
  }

  /** Renewal retires the old lease in favour of the new one, revokes exactly the Active and Paused leases
      strictly below the old one, moves the root id along, and logs each of these deaths and the renewal. */
  lemma RenewEffect(s: State, request: RenewalRequest, now: Time, id: LeaseId) returns (hit: seq<LeaseId>)
    requires Inv(s) && id !in s.leases && Renew(s, request, now, id).Ok?
    ensures RenewalCertificate(s, request, now, id).Ok?
    ensures Distinct(hit) && forall x :: x in hit <==>
              x in s.leases && x != request.leaseId && InForce(s.leases[x])
              && Below(LinksOf(s.leases), x, request.leaseId)
    ensures Replaces(s, Renew(s, request, now, id).value, request.leaseId, id,
                     LeaseEntry(RenewalCertificate(s, request, now, id).value,
                                LeaseRecord(id, Active, 0, None, None, None), request.manifest),
                     hit, now)
  {
    RenewalNeedsActive(s, request, now, id);
    var prior := request.leaseId;
    var retired := SetRecord(s, prior, RetiredRecord(s.leases[prior].record, id));
    SameLinks(s, retired);
    hit := RetirementCascade(s, retired, prior, now);
    Replaced(s, retired, RevokeDescendants(retired, prior, RETIRED_REASON, now), prior,
             RenewalCertificate(s, request, now, id).value, request.manifest, hit, now);
  }

  lemma RetirementCascade(s: State, retired: State, prior: LeaseId, now: Time) returns (hit: seq<LeaseId>)
    requires prior in s.leases && retired.leases.Keys == s.leases.Keys
    requires LinksOf(retired.leases) == LinksOf(s.leases)
    requires forall x :: x in s.leases && x != prior ==> retired.leases[x] == s.leases[x]
    ensures Distinct(hit) && forall x :: x in hit <==>
              x in s.leases && x != prior && InForce(s.leases[x]) && Below(LinksOf(s.leases), x, prior)
    ensures Revokes(retired, RevokeDescendants(retired, prior, RETIRED_REASON, now), hit, prior, RETIRED_REASON, now)
  {
    var order := Cascade(LinksOf(s.leases), prior);
    var par := CascadeExact(LinksOf(s.leases), prior);
    var below := Descendants(retired.leases, prior);
    assert order == [prior] + below;
    CascadeRevokes(retired, below, prior, RETIRED_REASON, now);
    StandingExact(retired.leases, below);
    hit := Standing(retired.leases, below);
  }

  lemma Replaced(s: State, retired: State, k: State, prior: LeaseId, certificate: LeaseCert, manifest: Manifest,
                 hit: seq<LeaseId>, now: Time)
    requires prior in s.leases && prior !in hit && certificate.body.leaseId !in s.leases
    requires retired == SetRecord(s, prior, RetiredRecord(s.leases[prior].record, certificate.body.leaseId))
    requires Revokes(retired, k, hit, prior, RETIRED_REASON, now)
    ensures var id := certificate.body.leaseId;
            Replaces(s, InstallRenewal(k, prior, certificate, manifest, now), prior, id,
                     LeaseEntry(certificate, LeaseRecord(id, Active, 0, None, None, None), manifest), hit, now)
  {}
}
