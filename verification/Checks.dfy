/**
  When the runtime's checks pass and with which code they fail: the observation before a model call, the
  action gate, the refresh before execution, the commit check and the final check, on kernel states that
  satisfy the invariant (crates/aeon_agent_runtime/src/supervisor.rs:519-604,
  crates/aeon_agent_runtime/src/execution.rs:149-311, 370-469, 534-569).
 */
module Checks {
  import opened Basics
  import opened Authority
  import opened Validation
  import opened Invariant
  import opened Chain
  import opened Registry
  import opened MissionStore
  import opened Execution
  import opened Linearization
  import opened Admission
  import opened Soundness

  // ---------------------------------------------------------------- chain validation

  /** Why the chain of a lease is refused, first reason first. */
  ghost function StaleChain(s: State, id: LeaseId, expected: Option<nat>, manifest: Manifest,
                            now: Time): Option<ErrorCode> {
    if id !in s.leases then Some(DelegationInvalid)
    else if expected.Some? && s.leases[id].record.generation != expected.value then Some(LeaseGenerationMismatch)
    else if !ChainActive(s, id, now) then Some(LeaseInactive)
    else if ManifestDigest(manifest) != Ok(s.leases[id].certificate.body.manifestDigest)
    then Some(CapabilityManifestMismatch)
    else None
  }

  /** The outcome of a chain validation, by its reason and its report. */
  predicate ChainOutcome(s: State, id: LeaseId, stale: Option<ErrorCode>, outcome: Result<ValidatedAuthority>) {
    match stale
    case Some(e) => outcome == Err(e)
    case None => outcome.Ok? && id in s.leases && HandsOut(s, id, Path(s.leases[id].certificate), outcome.value)
  }

  lemma ChainExact(s: State, id: LeaseId, expected: Option<nat>, manifest: Manifest, now: Time)
    requires Inv(s)
    ensures ChainOutcome(s, id, StaleChain(s, id, expected, manifest, now),
                         ValidateChain(s, id, expected, manifest, now))
  {
    ChainCollapses(s, id, expected, manifest, now);
    if id in s.leases {
      ActiveAbove(s, id);
      PathKeys(s, id);
      ReversedElems(Path(s.leases[id].certificate));
      ReportMeans(s, id, Path(s.leases[id].certificate));
    }
  }

  // ---------------------------------------------------------------- observation and final result

  /** The lease belongs to the runtime's agent, mission, organization version and policy epoch. */
  predicate OwnLease(mission: Mission, agent: AgentId, body: LeaseBody) {
    (body.agentId, body.missionId, body.organizationVersion, body.policyEpoch) ==
    (agent, mission.missionId, mission.organizationVersion, mission.policyEpoch)
  }

  predicate MissionRuns(mission: Mission, now: Time) {
    mission.active && mission.maxActions > 0 && now < mission.expiresAt
  }

  ghost function ObservationRefusal(kernel: State, agent: AgentId, lease: LeaseId, entry: LeaseEntry, context: Digest,
                                    now: Time): Option<ErrorCode> {
    if !MissionRuns(kernel.mission, now) then Some(MissionInactive)
    else if !OwnLease(kernel.mission, agent, entry.certificate.body) then Some(AuthorizationInvalid)
    else
      var stale := StaleChain(kernel, lease, Some(entry.record.generation), entry.manifest, now);
      if stale.Some? then stale
      else if kernel.leases[lease].certificate.body.contextDigest != context then Some(SemanticContextChanged)
      else None
  }

  /** The observation before a model call fails exactly with the first reason; otherwise it reports the chain. */
  lemma ObserveExact(kernel: State, agent: AgentId, lease: LeaseId, entry: LeaseEntry, context: Digest, now: Time)
    requires Inv(kernel)
    ensures var observed := ObserveModelAuthority(kernel, agent, lease, entry, context, now);
            match ObservationRefusal(kernel, agent, lease, entry, context, now)
            case Some(e) => observed == Err(e)
            case None =>
              && observed.Ok? && observed.value.lease == lease && observed.value.entry == entry
              && HandsOut(kernel, lease, Path(kernel.leases[lease].certificate), observed.value.validated)
  {
    ChainExact(kernel, lease, Some(entry.record.generation), entry.manifest, now);
  }

  /** The bindings a final result compares. */
  predicate SameBindings(a: ValidatedAuthority, b: ValidatedAuthority) {
    (a.chain, a.agentIdentity, a.manifestDigest, a.contextDigest) ==
    (b.chain, b.agentIdentity, b.manifestDigest, b.contextDigest)
  }

  /** A final result is accepted exactly while the mission runs, the chain is usable, its generations and
      bindings are those observed, and so is the context; each failure has its own code. */
  lemma FinalExact(kernel: State, context: Digest, obs: Observation, now: Time)
    requires Inv(kernel)
    ensures var accepted := AcceptModelFinal(kernel, context, obs, now);
            var expected := Some(obs.entry.record.generation);
            var stale := StaleChain(kernel, obs.lease, expected, obs.entry.manifest, now);
            var chain := ValidateChain(kernel, obs.lease, expected, obs.entry.manifest, now);
            if !MissionRuns(kernel.mission, now) then accepted == Err(MissionInactive)
            else if stale.Some? then accepted == Err(stale.value)
            else && chain.Ok?
                 && accepted ==
                    if chain.value.observedGenerations != obs.validated.observedGenerations
                    then Err(LeaseGenerationMismatch)
                    else if !SameBindings(chain.value, obs.validated) then Err(AuthorizationInvalid)
                    else if obs.validated.contextDigest != context then Err(SemanticContextChanged)
                    else Ok(())
  {
    ChainExact(kernel, obs.lease, Some(obs.entry.record.generation), obs.entry.manifest, now);
  }

  // ---------------------------------------------------------------- the action gate

  /** The manifest binds the tool to the digest it is registered with. */
  predicate BindsRegistered(tools: Tools, manifest: Manifest, id: ToolId) {
    exists tool :: tool in manifest.tools && tool in tools && tool.toolId == id
  }

  /** Some tool of the manifest is no longer registered as bound, or the registry holds other tools. */
  predicate Drifted(tools: Tools, manifest: Manifest) {
    manifest.registryRoot != RootDigest(tools) || exists tool :: tool in manifest.tools && tool !in tools
  }

  predicate AllRegistered(tools: Tools, manifest: Manifest) {
    forall tool :: tool in manifest.tools ==> IsRegistered(tools, tool.toolId)
  }

  lemma BoundAsRegistered(tools: Tools, manifest: Manifest, id: ToolId)
    requires WellFormed(tools) && WellFormed(manifest.tools) && Find(tools, id).Some?
    ensures Find(manifest.tools, id) == Find(tools, id) <==> BindsRegistered(tools, manifest, id)
  {
    FindRegistered(tools, id);
    FindRegistered(manifest.tools, id);
    if tool :| tool in manifest.tools && tool in tools && tool.toolId == id {
      FindExact(manifest.tools, tool);
      FindExact(tools, tool);
    }
  }

  /** The tool must be registered, every tool of the lease's manifest too, and the lease must bind it as it
      is registered. */
  lemma GateToolExact(tools: Tools, id: ToolId, entry: LeaseEntry)
    requires WellFormed(tools) && WellFormed(entry.manifest.tools)
    ensures var bound := ResolveAtGate(tools, id, entry);
            if !IsRegistered(tools, id) || !AllRegistered(tools, entry.manifest) then bound == Err(UnknownTool)
            else if !BindsRegistered(tools, entry.manifest, id) then bound == Err(ToolManifestMismatch)
            else && bound.Ok? && bound.value.0 in tools && bound.value.0 in entry.manifest.tools
                 && bound.value.0.toolId == id && Refresh(tools, entry.manifest) == Ok(bound.value.1)
  {
    ResolveExact(tools, id, entry.manifest);
    RefreshExact(tools, entry.manifest);
    FindRegistered(tools, id);
    FindRegistered(entry.manifest.tools, id);
    if IsRegistered(tools, id) { BoundAsRegistered(tools, entry.manifest, id); }
  }

  /** A refreshed manifest keeps its identity exactly without drift. */
  lemma RefreshedIdentity(tools: Tools, manifest: Manifest)
    requires WellFormed(tools) && WellFormed(manifest.tools) && Refresh(tools, manifest).Ok?
    ensures ManifestDigest(Refresh(tools, manifest).value) == ManifestDigest(manifest) <==> !Drifted(tools, manifest)
  {
    RefreshExact(tools, manifest);
    var live := Refresh(tools, manifest).value;
    SnapshotKeepsIds(tools, ToolIds(manifest.tools));
    ManifestDigestExact(live, manifest);
    if !Drifted(tools, manifest) {
      SnapshotOfRegistered(tools, manifest.tools);
    }
    if Elems(live.tools) == Elems(manifest.tools) {
      forall tool | tool in manifest.tools ensures tool in tools {
        assert tool in Elems(live.tools);
      }
    }
  }

  /** Why capabilities are refused, first reason first. */
  function CapabilityRefusal(mission: Mission, granted: AuthoritySet, required: seq<Capability>): Option<ErrorCode> {
    if All in required || All in mission.allowedCapabilities then Some(CapabilityAllForbidden)
    else if !CapsWithin(required, mission.allowedCapabilities) || !CapsWithin(required, granted.capabilities)
    then Some(CapabilityOutsideAuthority)
    else None
  }

  /** Why an authorization is refused once the tool is resolved, first reason first; `stale` is what is wrong
      with the chain. */
  function GrantRefusal(kernel: State, agent: AgentId, context: Digest, lease: LeaseId, entry: LeaseEntry,
                        stale: Option<ErrorCode>, input: Result<()>, required: seq<Capability>): Option<ErrorCode> {
    if stale.Some? then stale
    else if !OwnLease(kernel.mission, agent, entry.certificate.body) then Some(AuthorizationInvalid)
    else if lease in kernel.leases && context != kernel.leases[lease].certificate.body.contextDigest
    then Some(SemanticContextChanged)
    else if input.Err? then Some(input.error)
    else CapabilityRefusal(kernel.mission, entry.certificate.body.granted, required)
  }

  /** The authorization issued for a proposal: bound to mission, agent identity, lease, context, tool, input
      and record, good for one use, until five minutes from now or the lease's end if that comes first. */
  predicate IssuedFor(kernel: State, custody: Custody, proposal: Proposal, digest: Digest, live: Manifest,
                      context: Digest, lease: LeaseId, now: Time, required: seq<Capability>,
                      recordId: AuthorizationId, auth: Authorization)
  {
    && lease in kernel.leases
    && var leaf, end := kernel.leases[lease].certificate.body, auth.certificate.body.expiresAt;
       var action := ActionBody(
         kernel.mission.missionId, leaf.agentIdentity, lease, kernel.mission.organizationVersion,
         kernel.mission.policyEpoch, context, proposal.tool, digest, proposal.arguments, recordId, 1, 0, now, end);
       && end <= leaf.expiresAt && end <= now + 300_000_000_000
       && (end == leaf.expiresAt || end == now + 300_000_000_000)
       && auth == Authorization(
            proposal, digest, required, live, ActionCert(action, Signed(custody.signingKey, action)),
            auth.generations)
       && Carries(kernel.leases, Path(kernel.leases[lease].certificate), auth.generations)
  }

  lemma AuthorizeRefuses(kernel: State, binding: Binding, proposal: Proposal, resolved: BoundTool, live: Manifest,
                         context: Digest, lease: LeaseId, entry: LeaseEntry, now: Time, input: Result<()>,
                         required: seq<Capability>, recordId: AuthorizationId, stale: Option<ErrorCode>)
    requires ChainOutcome(kernel, lease, stale,
                          ValidateChain(kernel, lease, Some(entry.record.generation), live, now))
    ensures var authorized := Authorize(kernel, binding, proposal, resolved, live, context, lease, entry, now, input,
                                        required, recordId);
            match GrantRefusal(kernel, binding.agent, context, lease, entry, stale, input, required)
            case Some(e) => authorized == Err(e)
            case None => authorized.Ok?
  {}

  lemma AuthorizeIssues(kernel: State, binding: Binding, proposal: Proposal, resolved: BoundTool, live: Manifest,
                        context: Digest, lease: LeaseId, entry: LeaseEntry, now: Time, input: Result<()>,
                        required: seq<Capability>, recordId: AuthorizationId, v: ValidatedAuthority)
    requires lease in kernel.leases && entry.certificate == kernel.leases[lease].certificate
    requires ValidateChain(kernel, lease, Some(entry.record.generation), live, now) == Ok(v)
    requires HandsOut(kernel, lease, Path(kernel.leases[lease].certificate), v)
    requires Authorize(kernel, binding, proposal, resolved, live, context, lease, entry, now, input, required,
                       recordId).Ok?
    ensures IssuedFor(kernel, binding.custody, proposal, resolved.manifestDigest, live, context, lease, now, required,
                      recordId, Authorize(kernel, binding, proposal, resolved, live, context, lease, entry, now, input,
                                          required, recordId).value)
  {
    CarriesReported(kernel, lease, v);
  }

  lemma CarriesReported(s: State, lease: LeaseId, v: ValidatedAuthority)
    requires lease in s.leases && HandsOut(s, lease, Path(s.leases[lease].certificate), v)
    ensures Carries(s.leases, Path(s.leases[lease].certificate), v.observedGenerations)
  {}

  lemma AuthorizeGiven(kernel: State, binding: Binding, proposal: Proposal, resolved: BoundTool, live: Manifest,
                       context: Digest, lease: LeaseId, entry: LeaseEntry, now: Time, input: Result<()>,
                       required: seq<Capability>, recordId: AuthorizationId, stale: Option<ErrorCode>)
    requires ReadBefore(kernel, lease, entry)
    requires ChainOutcome(kernel, lease, stale,
                          ValidateChain(kernel, lease, Some(entry.record.generation), live, now))
    ensures var authorized := Authorize(kernel, binding, proposal, resolved, live, context, lease, entry, now, input,
                                        required, recordId);
            match GrantRefusal(kernel, binding.agent, context, lease, entry, stale, input, required)
            case Some(e) => authorized == Err(e)
            case None =>
              && authorized.Ok?
              && IssuedFor(kernel, binding.custody, proposal, resolved.manifestDigest, live, context, lease, now,
                           required, recordId, authorized.value)
  {
    AuthorizeRefuses(kernel, binding, proposal, resolved, live, context, lease, entry, now, input, required, recordId,
                     stale);
    if GrantRefusal(kernel, binding.agent, context, lease, entry, stale, input, required).None? {
      AuthorizeIssues(kernel, binding, proposal, resolved, live, context, lease, entry, now, input, required, recordId,
                      ValidateChain(kernel, lease, Some(entry.record.generation), live, now).value);
    }
  }

  /** Authorization fails exactly with the first reason; otherwise it issues exactly this. */
  lemma AuthorizeExact(kernel: State, binding: Binding, proposal: Proposal, resolved: BoundTool, live: Manifest,
                       context: Digest, lease: LeaseId, entry: LeaseEntry, now: Time, input: Result<()>,
                       required: seq<Capability>, recordId: AuthorizationId)
    requires Inv(kernel) && ReadBefore(kernel, lease, entry)
    ensures var authorized := Authorize(kernel, binding, proposal, resolved, live, context, lease, entry, now, input,
                                        required, recordId);
            var stale := StaleChain(kernel, lease, Some(entry.record.generation), live, now);
            match GrantRefusal(kernel, binding.agent, context, lease, entry, stale, input, required)
            case Some(e) => authorized == Err(e)
            case None =>
              && authorized.Ok?
              && IssuedFor(kernel, binding.custody, proposal, resolved.manifestDigest, live, context, lease, now,
                           required, recordId, authorized.value)
  {
    ChainExact(kernel, lease, Some(entry.record.generation), live, now);
    AuthorizeGiven(kernel, binding, proposal, resolved, live, context, lease, entry, now, input, required, recordId,
                   StaleChain(kernel, lease, Some(entry.record.generation), live, now));
  }

  // ---------------------------------------------------------------- the whole gate

  /** The gate when nothing interferes between its reads. */
  function Gate(kernel: State, tools: Tools, binding: Binding, proposal: Proposal, context: Digest, lease: LeaseId,
                now: Time, input: Result<()>, required: seq<Capability>,
                recordId: AuthorizationId): Result<Authorization> {
    var entry :- GateSnapshot(kernel, proposal.tool, lease, now);
    var (resolved, live) :- ResolveAtGate(tools, proposal.tool, entry);
    Authorize(kernel, binding, proposal, resolved, live, context, lease, entry, now, input, required, recordId)
  }

  /** Why the gate refuses a proposal, first reason first. */
  ghost function GateRefusal(kernel: State, tools: Tools, agent: AgentId, tool: ToolId, context: Digest, lease: LeaseId,
                             now: Time, input: Result<()>, required: seq<Capability>): Option<ErrorCode> {
    var mission := kernel.mission;
    if !mission.active || mission.expiresAt <= now then Some(MissionInactive)
    else if tool !in mission.allowedTools then Some(ToolOutsideMission)
    else if lease !in kernel.leases then Some(LeaseInactive)
    else
      var entry := kernel.leases[lease];
      var body := entry.certificate.body;
      if !IsRegistered(tools, tool) || !AllRegistered(tools, entry.manifest) then Some(UnknownTool)
      else if !BindsRegistered(tools, entry.manifest, tool) then Some(ToolManifestMismatch)
      else if !ChainActive(kernel, lease, now) then Some(LeaseInactive)
      else if Drifted(tools, entry.manifest) then Some(CapabilityManifestMismatch)
      else if !OwnLease(mission, agent, body) then Some(AuthorizationInvalid)
      else if context != body.contextDigest then Some(SemanticContextChanged)
      else if input.Err? then Some(input.error)
      else CapabilityRefusal(mission, body.granted, required)
  }

  /** The mission allows the tool, and registry and lease know it under this digest. */
  predicate GoodTool(kernel: State, tools: Tools, lease: LeaseId, id: ToolId, digest: Digest) {
    && id in kernel.mission.allowedTools && BoundTool(id, digest) in tools
    && lease in kernel.leases && BoundTool(id, digest) in kernel.leases[lease].manifest.tools
  }

  lemma GateBinding(kernel: State, tools: Tools, tool: ToolId, lease: LeaseId, now: Time)
    requires Inv(kernel) && WellFormed(tools) && lease in kernel.leases
    requires ResolveAtGate(tools, tool, kernel.leases[lease]).Ok?
    ensures var entry, live := kernel.leases[lease], ResolveAtGate(tools, tool, kernel.leases[lease]).value.1;
            StaleChain(kernel, lease, Some(entry.record.generation), live, now) ==
            if !ChainActive(kernel, lease, now) then Some(LeaseInactive)
            else if Drifted(tools, entry.manifest) then Some(CapabilityManifestMismatch) else None
  {
    assert CertificateOk(kernel, lease);
    GateToolExact(tools, tool, kernel.leases[lease]);
    RefreshedIdentity(tools, kernel.leases[lease].manifest);
  }

  /** The refusal of the gate, by the reasons its parts give. */
  lemma GateReasons(kernel: State, tools: Tools, agent: AgentId, tool: ToolId, context: Digest, lease: LeaseId,
                    now: Time, input: Result<()>, required: seq<Capability>, stale: Option<ErrorCode>)
    requires lease in kernel.leases && kernel.mission.active && now < kernel.mission.expiresAt
    requires tool in kernel.mission.allowedTools
    requires IsRegistered(tools, tool) && AllRegistered(tools, kernel.leases[lease].manifest)
    requires BindsRegistered(tools, kernel.leases[lease].manifest, tool)
    requires stale == if !ChainActive(kernel, lease, now) then Some(LeaseInactive)
                      else if Drifted(tools, kernel.leases[lease].manifest) then Some(CapabilityManifestMismatch)
                      else None
    ensures GateRefusal(kernel, tools, agent, tool, context, lease, now, input, required) ==
            GrantRefusal(kernel, agent, context, lease, kernel.leases[lease], stale, input, required)
  {}

  lemma GateOutcome(kernel: State, tools: Tools, binding: Binding, proposal: Proposal, context: Digest, lease: LeaseId,
                    now: Time, input: Result<()>, required: seq<Capability>, recordId: AuthorizationId)
    requires Inv(kernel) && WellFormed(tools) && GateSnapshot(kernel, proposal.tool, lease, now).Ok?
    requires ResolveAtGate(tools, proposal.tool, kernel.leases[lease]).Ok?
    ensures var entry := kernel.leases[lease];
            var (resolved, live) := ResolveAtGate(tools, proposal.tool, entry).value;
            var authorized := Authorize(kernel, binding, proposal, resolved, live, context, lease, entry, now, input,
                                        required, recordId);
            match GateRefusal(kernel, tools, binding.agent, proposal.tool, context, lease, now, input, required)
            case Some(e) => authorized == Err(e)
            case None =>
              && authorized.Ok?
              && IssuedFor(kernel, binding.custody, proposal, resolved.manifestDigest, live, context, lease, now,
                           required, recordId, authorized.value)
  {
    var entry := kernel.leases[lease];
    var (resolved, live) := ResolveAtGate(tools, proposal.tool, entry).value;
    assert CertificateOk(kernel, lease);
    GateToolExact(tools, proposal.tool, entry);
    GateBinding(kernel, tools, proposal.tool, lease, now);
    var stale := StaleChain(kernel, lease, Some(entry.record.generation), live, now);
    GateReasons(kernel, tools, binding.agent, proposal.tool, context, lease, now, input, required, stale);
    ChainExact(kernel, lease, Some(entry.record.generation), live, now);
    AuthorizeGiven(kernel, binding, proposal, resolved, live, context, lease, entry, now, input, required, recordId,
                   stale);
  }

  /** Without interference the gate fails exactly with the first reason; otherwise it issues an authorization
      for a tool that mission, registry and lease all know under the same digest. */
  lemma GateExact(kernel: State, tools: Tools, binding: Binding, proposal: Proposal, context: Digest, lease: LeaseId,
                  now: Time, input: Result<()>, required: seq<Capability>, recordId: AuthorizationId)
    requires Inv(kernel) && WellFormed(tools)
    ensures var gate := Gate(kernel, tools, binding, proposal, context, lease, now, input, required, recordId);
            match GateRefusal(kernel, tools, binding.agent, proposal.tool, context, lease, now, input, required)
            case Some(e) => gate == Err(e)
            case None =>
              && gate.Ok? && GoodTool(kernel, tools, lease, proposal.tool, gate.value.toolManifestDigest)
              && IssuedFor(kernel, binding.custody, proposal, gate.value.toolManifestDigest, gate.value.manifest,
                           context, lease, now, required, recordId, gate.value)
  {
    if GateSnapshot(kernel, proposal.tool, lease, now).Ok? {
      assert CertificateOk(kernel, lease);
      GateToolExact(tools, proposal.tool, kernel.leases[lease]);
      if ResolveAtGate(tools, proposal.tool, kernel.leases[lease]).Ok? {
        GateOutcome(kernel, tools, binding, proposal, context, lease, now, input, required, recordId);
      }
    }
  }

  // ---------------------------------------------------------------- the refresh before execution

  /** Before execution the tool must still be registered under the digest it was authorized with. */
  lemma ResolveForExecutionExact(tools: Tools, auth: Authorization)
    requires WellFormed(tools)
    ensures var resolved := ResolveForExecution(tools, auth);
            var id := auth.proposal.tool;
            if !IsRegistered(tools, id) || !AllRegistered(tools, auth.manifest) then resolved == Err(UnknownTool)
            else if BoundTool(id, auth.toolManifestDigest) !in tools then resolved == Err(ToolManifestMismatch)
            else resolved.Ok? && Refresh(tools, auth.manifest) == resolved
  {
    ResolveExact(tools, auth.proposal.tool, auth.manifest);
    RefreshExact(tools, auth.manifest);
    FindExact(tools, BoundTool(auth.proposal.tool, auth.toolManifestDigest));
    FindRegistered(tools, auth.proposal.tool);
  }

  // ---------------------------------------------------------------- the commit check

  /** Tokens last thirty seconds, or until the lease or the certificate ends if that comes first; at or past
      either end there are none. */
  lemma TokenValidityExact(leafEnd: Time, certificateEnd: Time, issueNow: Time)
    ensures var validity := TokenValidity(leafEnd, certificateEnd, issueNow);
            if leafEnd <= issueNow || certificateEnd <= issueNow then validity == Err(ErrorCode.LeaseInactive)
            else && validity.Ok? && var v := validity.value;
                 && v <= 30_000_000_000 && issueNow + v <= leafEnd && issueNow + v <= certificateEnd
                 && (v == 30_000_000_000 || issueNow + v == leafEnd || issueNow + v == certificateEnd)
  {
    assert TOKEN_VALIDITY == 30_000_000_000;
  }

  /** The generation listed first for a lease, if it is listed. */
  lemma {:induction false} GenerationExact(generations: seq<(LeaseId, nat)>, lease: LeaseId)
    ensures match GenerationOf(generations, lease)
            case None => forall i :: 0 <= i < |generations| ==> generations[i].0 != lease
            case Some(g) => exists i :: 0 <= i < |generations| && generations[i] == (lease, g)
                                        && forall j :: 0 <= j < i ==> generations[j].0 != lease
  {
    if generations != [] && generations[0].0 != lease {
      var rest := generations[1..];
      GenerationExact(rest, lease);
      assert forall i :: 0 <= i < |rest| ==> rest[i] == generations[i + 1];
      if GenerationOf(generations, lease).Some? {
        var g := GenerationOf(generations, lease).value;
        var i :| 0 <= i < |rest| && rest[i] == (lease, g) && forall j :: 0 <= j < i ==> rest[j].0 != lease;
        assert generations[i + 1] == (lease, g);
        assert forall j :: 0 <= j < i + 1 ==> generations[j].0 != lease;
      }
    }
  }

  /** The action certificate has not expired, binds tool, digest and input, and is signed with the key. */
  predicate ActionStands(auth: Authorization, key: Key, now: Time) {
    var action := auth.certificate.body;
    && now < action.expiresAt
    && (action.toolId, action.toolManifestDigest, action.inputDigest) ==
       (auth.proposal.tool, auth.toolManifestDigest, auth.proposal.arguments)
    && auth.certificate.signature == Signed(key, action)
  }

  /** Why a commit is refused after the chain has passed, first reason first. */
  function BindingRefusal(kernel: State, context: Digest, key: Key, auth: Authorization, now: Time,
                          issueNow: Time): Option<ErrorCode>
    requires auth.certificate.body.leaseId in kernel.leases
  {
    var action := auth.certificate.body;
    var lease := kernel.leases[action.leaseId].certificate;
    if || !Carries(kernel.leases, Path(lease), auth.generations)
       || (action.agentIdentity, action.contextDigest) != (lease.body.agentIdentity, lease.body.contextDigest)
    then Some(AuthorizationInvalid)
    else if context != lease.body.contextDigest then Some(SemanticContextChanged)
    else if !ActionStands(auth, key, now) then Some(AuthorizationInvalid)
    else if lease.body.expiresAt <= issueNow || action.expiresAt <= issueNow then Some(LeaseInactive)
    else None
  }

  /** Why a commit is refused, first reason first. */
  ghost function CommitRefusal(kernel: State, context: Digest, key: Key, auth: Authorization, live: Manifest,
                               now: Time, issueNow: Time): Option<ErrorCode> {
    var lease := auth.certificate.body.leaseId;
    var generation := GenerationOf(auth.generations, lease);
    if generation.None? then Some(AuthorizationInvalid)
    else
      var stale := StaleChain(kernel, lease, generation, live, now);
      if stale.Some? then stale else BindingRefusal(kernel, context, key, auth, now, issueNow)
  }

  lemma SameGenerations(leases: Leases, path: seq<LeaseId>, a: seq<(LeaseId, nat)>, b: seq<(LeaseId, nat)>)
    requires Carries(leases, path, a)
    ensures a == b <==> Carries(leases, path, b)
  {
    if Carries(leases, path, b) {
      forall i | 0 <= i < |a| ensures a[i] == b[i] {
        var k := |path| - 1 - i;
        assert path[k] in leases && a[|path| - 1 - k] == b[|path| - 1 - k];
      }
    }
  }

  lemma CommitGiven(kernel: State, context: Digest, key: Key, auth: Authorization, live: Manifest, now: Time,
                    issueNow: Time, v: ValidatedAuthority)
    requires GenerationOf(auth.generations, auth.Lease()).Some? && auth.Lease() in kernel.leases
    requires ValidateChain(kernel, auth.Lease(), GenerationOf(auth.generations, auth.Lease()), live, now) == Ok(v)
    requires var lease := kernel.leases[auth.Lease()].certificate;
             && (v.observedGenerations == auth.generations <==>
                   Carries(kernel.leases, Path(lease), auth.generations))
             && (v.leafExpiresAt, v.agentIdentity, v.contextDigest) ==
                (lease.body.expiresAt, lease.body.agentIdentity, lease.body.contextDigest)
             && Ok(v.manifestDigest) == ManifestDigest(live)
    ensures var checked := CommitCheck(kernel, context, key, auth, live, now, issueNow);
            match BindingRefusal(kernel, context, key, auth, now, issueNow)
            case Some(e) => checked == Err(e)
            case None => checked.Ok? && checked == TokenValidity(
              kernel.leases[auth.Lease()].certificate.body.expiresAt, auth.ExpiresAt(), issueNow)
  {
    TokenValidityExact(v.leafExpiresAt, auth.ExpiresAt(), issueNow);
  }

  /** The commit check fails exactly with the first reason; otherwise it yields the tokens' validity. */
  lemma CommitExact(kernel: State, context: Digest, key: Key, auth: Authorization, live: Manifest, now: Time,
                    issueNow: Time)
    requires Inv(kernel)
    ensures var checked := CommitCheck(kernel, context, key, auth, live, now, issueNow);
            match CommitRefusal(kernel, context, key, auth, live, now, issueNow)
            case Some(e) => checked == Err(e)
            case None => auth.Lease() in kernel.leases && checked.Ok? && checked == TokenValidity(
              kernel.leases[auth.Lease()].certificate.body.expiresAt, auth.ExpiresAt(), issueNow)
  {
    var generation := GenerationOf(auth.generations, auth.Lease());
    if generation.Some? {
      ChainExact(kernel, auth.Lease(), generation, live, now);
      if StaleChain(kernel, auth.Lease(), generation, live, now).None? {
        var v := ValidateChain(kernel, auth.Lease(), generation, live, now).value;
        CarriesReported(kernel, auth.Lease(), v);
        SameGenerations(kernel.leases, Path(kernel.leases[auth.Lease()].certificate), v.observedGenerations,
                        auth.generations);
        CommitGiven(kernel, context, key, auth, live, now, issueNow, v);
      }
    }
  }
}
