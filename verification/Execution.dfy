/**
  The checks of the action gate, the model-authority observation and the execution commit
  (crates/aeon_agent_runtime/src/execution.rs, crates/aeon_agent_runtime/src/supervisor.rs).
 */
module Execution {
  import opened Basics
  import opened Authority
  import opened Validation
  import opened Registry
  import opened MissionStore

  /** Nanoseconds: thirty seconds and five minutes. */
  const TOKEN_VALIDITY: int := 30_000_000_000
  const CERTIFICATE_LIFETIME: int := 300_000_000_000

  /** What a runtime is bound to besides its kernel. */
  datatype Binding = Binding(agent: AgentId, custody: Custody)

  datatype Observation = Observation(lease: LeaseId, entry: LeaseEntry, validated: ValidatedAuthority)

  /** A proposed tool call; the input digest is the canonical input itself. */
  datatype Proposal = Proposal(tool: ToolId, arguments: Digest)

  /** crates/aeon_agent_runtime/src/action.rs:172-190 without the certificate id and action reference */
  datatype ActionBody = ActionBody(
    missionId: MissionId,
    agentIdentity: IdentityCert,
    leaseId: LeaseId,
    organizationVersion: nat,
    policyEpoch: nat,
    contextDigest: Digest,
    toolId: ToolId,
    toolManifestDigest: Digest,
    inputDigest: Digest,
    recordId: AuthorizationId,
    grantedUses: nat,
    authorizationGeneration: nat,
    issuedAt: Time,
    expiresAt: Time)

  datatype ActionCert = ActionCert(body: ActionBody, signature: Signature<ActionBody>)

  /** execution.rs:81-90 */
  datatype Authorization = Authorization(
    proposal: Proposal,
    toolManifestDigest: Digest,
    required: seq<Capability>,
    manifest: Manifest,
    certificate: ActionCert,
    generations: seq<(LeaseId, nat)>)
  {
    function Lease(): LeaseId { certificate.body.leaseId }
    function Record(): AuthorizationId { certificate.body.recordId }
    function ExpiresAt(): Time { certificate.body.expiresAt }
  }

  predicate BoundToRuntime(mission: Mission, agent: AgentId, body: LeaseBody) {
    && body.agentId == agent
    && body.missionId == mission.missionId
    && body.organizationVersion == mission.organizationVersion
    && body.policyEpoch == mission.policyEpoch
  }

  /** supervisor.rs:519-552 */
  function ObserveModelAuthority(kernel: State, agent: AgentId, lease: LeaseId, entry: LeaseEntry, context: Digest,
                                 now: Time): Result<Observation> {
    var mission := kernel.mission;
    var _ :- Need(mission.UsableAt(now), MissionInactive);
    var _ :- Need(BoundToRuntime(mission, agent, entry.certificate.body), AuthorizationInvalid);
    var validated :- ValidateChain(kernel, lease, Some(entry.record.generation), entry.manifest, now);
    var _ :- Need(validated.contextDigest == context, SemanticContextChanged);
    Ok(Observation(lease, entry, validated))
  }

  /** supervisor.rs:554-597, up to the append under the guard */
  function AcceptModelFinal(kernel: State, context: Digest, obs: Observation, now: Time): Result<()> {
    var _ :- Need(kernel.mission.UsableAt(now), MissionInactive);
    var validated :- ValidateChain(kernel, obs.lease, Some(obs.entry.record.generation), obs.entry.manifest, now);
    var _ :- Need(validated.observedGenerations == obs.validated.observedGenerations, LeaseGenerationMismatch);
    var _ :- Need(
      && validated.chain == obs.validated.chain
      && validated.agentIdentity == obs.validated.agentIdentity
      && validated.manifestDigest == obs.validated.manifestDigest
      && validated.contextDigest == obs.validated.contextDigest,
      AuthorizationInvalid);
    Need(obs.validated.contextDigest == context, SemanticContextChanged)
  }

  /** execution.rs:162-175 */
  function GateSnapshot(kernel: State, tool: ToolId, lease: LeaseId, now: Time): Result<LeaseEntry> {
    var mission := kernel.mission;
    var _ :- Need(mission.active && now < mission.expiresAt, MissionInactive);
    var _ :- Need(tool in mission.allowedTools, ToolOutsideMission);
    if lease in kernel.leases then Ok(kernel.leases[lease]) else Err(LeaseInactive)
  }

  /** execution.rs:176-196 */
  function ResolveAtGate(tools: Tools, tool: ToolId, entry: LeaseEntry): Result<(BoundTool, Manifest)> {
    var (resolved, live) :- ResolveWithManifest(tools, tool, entry.manifest);
    var bound := Find(entry.manifest.tools, tool);
    if bound.Some? && bound.value.manifestDigest == resolved.manifestDigest then Ok((resolved, live))
    else Err(ToolManifestMismatch)
  }

  /** execution.rs:219-239 */
  function PermitCapabilities(mission: Mission, granted: AuthoritySet, required: seq<Capability>): Result<()> {
    var _ :- Need(All !in required && All !in mission.allowedCapabilities, CapabilityAllForbidden);
    Need(CapsWithin(required, mission.allowedCapabilities) && CapsWithin(required, granted.capabilities),
         CapabilityOutsideAuthority)
  }

  function Earlier(a: Time, b: Time): Time {
    if a < b then a else b
  }

  /** execution.rs:198-304; `input` is the outcome of the tool's input-schema check */
  function Authorize(kernel: State, binding: Binding, proposal: Proposal, resolved: BoundTool, live: Manifest,
                     context: Digest, lease: LeaseId, entry: LeaseEntry, now: Time, input: Result<()>,
                     required: seq<Capability>, recordId: AuthorizationId): Result<Authorization> {
    var mission := kernel.mission;
    var validated :- ValidateChain(kernel, lease, Some(entry.record.generation), live, now);
    var _ :- Need(BoundToRuntime(mission, binding.agent, entry.certificate.body), AuthorizationInvalid);
    var _ :- Need(context == validated.contextDigest, SemanticContextChanged);
    var _ :- input;
    var _ :- PermitCapabilities(mission, entry.certificate.body.granted, required);
    var body := ActionBody(
      mission.missionId, validated.agentIdentity, lease, mission.organizationVersion, mission.policyEpoch, context,
      proposal.tool, resolved.manifestDigest, proposal.arguments, recordId, 1, 0, now,
      Earlier(now + CERTIFICATE_LIFETIME, entry.certificate.body.expiresAt));
    Ok(Authorization(proposal, resolved.manifestDigest, required, live,
                     ActionCert(body, binding.custody.Sign(body)), validated.observedGenerations))
  }

  /** execution.rs:534-569 */
  function ValidateActionCertificate(auth: Authorization, key: Key, now: Time): Result<()> {
    var body := auth.certificate.body;
    var _ :- Need(
      && now < body.expiresAt
      && body.toolId == auth.proposal.tool
      && body.toolManifestDigest == auth.toolManifestDigest
      && body.inputDigest == auth.proposal.arguments,
      AuthorizationInvalid);
    Need(auth.certificate.signature == Signed(key, body), AuthorizationInvalid)
  }

  function GenerationOf(generations: seq<(LeaseId, nat)>, lease: LeaseId): Option<nat> {
    if generations == [] then None
    else if generations[0].0 == lease then Some(generations[0].1)
    else GenerationOf(generations[1..], lease)
  }

  /** execution.rs:370-395 */
  function ResolveForExecution(tools: Tools, auth: Authorization): Result<Manifest> {
    var (resolved, live) :- ResolveWithManifest(tools, auth.proposal.tool, auth.manifest);
    if resolved.manifestDigest == auth.toolManifestDigest then Ok(live) else Err(ToolManifestMismatch)
  }

  /** execution.rs:452-469: the validity of the tokens minted at `issueNow`. */
  function TokenValidity(leafExpiresAt: Time, certificateExpiresAt: Time, issueNow: Time): Result<int> {
    var remaining := Earlier(leafExpiresAt, certificateExpiresAt) - issueNow;
    if remaining < 0 then Err(ErrorCode.LeaseInactive)
    else
      var validity := if TOKEN_VALIDITY < remaining then TOKEN_VALIDITY else remaining;
      if validity == 0 then Err(ErrorCode.LeaseInactive) else Ok(validity)
  }

  /** execution.rs:396-469: what must hold under the read guard before the record is consumed. */
  function CommitCheck(kernel: State, context: Digest, key: Key, auth: Authorization, live: Manifest, now: Time,
                       issueNow: Time): Result<int> {
    match GenerationOf(auth.generations, auth.Lease())
    case None => Err(AuthorizationInvalid)
    case Some(generation) =>
      var validated :- ValidateChain(kernel, auth.Lease(), Some(generation), live, now);
      var _ :- Need(
        && validated.observedGenerations == auth.generations
        && validated.agentIdentity == auth.certificate.body.agentIdentity
        && validated.contextDigest == auth.certificate.body.contextDigest
        && Ok(validated.manifestDigest) == ManifestDigest(live),
        AuthorizationInvalid);
      var _ :- Need(context == validated.contextDigest, SemanticContextChanged);
      var _ :- ValidateActionCertificate(auth, key, now);
      TokenValidity(validated.leafExpiresAt, auth.ExpiresAt(), issueNow)
  }

  datatype Token = Token(capability: Capability, validity: int)

  /** execution.rs:515-532: one token per required capability, in order, or none at all; `issued`
      counts the tokens minted before the first refusal. */
  method IssueTokens(required: seq<Capability>, validity: int, initialized: bool, mints: Capability -> bool)
    returns (r: Result<seq<Token>>, issued: nat)
    ensures r.Ok? <==> initialized && forall i :: 0 <= i < |required| ==> mints(required[i])
    ensures r.Err? ==> r.error == ErrorCode.ExecutionFailed
    ensures r.Ok? ==> |r.value| == |required| == issued
    ensures r.Ok? ==> forall i :: 0 <= i < |required| ==> r.value[i] == Token(required[i], validity)
    ensures issued <= |required| && forall i :: 0 <= i < issued ==> mints(required[i])
    ensures initialized && issued < |required| ==> !mints(required[issued])
  {
    if !initialized {
      return Err(ErrorCode.ExecutionFailed), 0;
    }
    var tokens: seq<Token> := [];
    for i := 0 to |required|
      invariant |tokens| == i
      invariant forall j :: 0 <= j < i ==> mints(required[j]) && tokens[j] == Token(required[j], validity)
    {
      if !mints(required[i]) {
        return Err(ErrorCode.ExecutionFailed), i;
      }
      tokens := tokens + [Token(required[i], validity)];
    }
    return Ok(tokens), |required|;
  }
}
