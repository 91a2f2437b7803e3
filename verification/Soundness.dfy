/**
  What an accepted authority chain means in any kernel state, reachable or not: every check the walk
  makes is needed, and together they are enough
  (crates/aeon_agent_runtime/src/authority_kernel/validation.rs:3-255).
 */
module Soundness {
  import opened Basics
  import opened Authority
  import opened Identity
  import opened Validation
  import opened Admission

  // ---------------------------------------------------------------- identities

  /** The identity of `agent` is signed by the one registered for `issuer`. */
  predicate SignedIdentityOf(ids: Identities, agent: AgentId, issuer: AgentId) {
    && agent in ids && issuer in ids
    && ids[agent].body.issuerKeyId == ids[issuer].body.keyId
    && ids[agent].signature == Signed(ids[issuer].body.key, ids[agent].body)
  }

  /** Identities from `agent` up to one that signed itself, each signed by the next. */
  predicate Vouches(ids: Identities, agent: AgentId, p: seq<AgentId>) {
    && p != [] && p[0] == agent
    && (forall i :: 0 <= i < |p| - 1 ==>
          SignedIdentityOf(ids, p[i], p[i + 1]) && ids[p[i]].body.issuerAgentId == Some(p[i + 1]))
    && SignedIdentityOf(ids, p[|p| - 1], p[|p| - 1]) && ids[p[|p| - 1]].body.issuerAgentId == None
  }

  lemma TrustMeans(ids: Identities, agent: AgentId, p: seq<AgentId>)
    ensures Trusted(ids, agent, p) <==> Vouches(ids, agent, p)
  {
    if Trusted(ids, agent, p) {
      forall i | 0 <= i < |p| - 1
        ensures SignedIdentityOf(ids, p[i], p[i + 1]) && ids[p[i]].body.issuerAgentId == Some(p[i + 1])
      {
        assert LinkVerified(ids, p[i]) && LinkVerified(ids, p[i + 1]);
      }
      assert LinkVerified(ids, p[|p| - 1]);
    }
    if Vouches(ids, agent, p) {
      forall i | 0 <= i < |p| ensures LinkVerified(ids, p[i]) {
        if i < |p| - 1 { assert SignedIdentityOf(ids, p[i], p[i + 1]); }
      }
    }
  }

  ghost predicate Known(ids: Identities, agent: AgentId) {
    exists p :: Vouches(ids, agent, p)
  }

  // ---------------------------------------------------------------- one lease of a chain

  /** If the lease was renewed from another, that one exists unchanged, is Retired and names this lease. */
  predicate Succeeds(s: State, body: LeaseBody) {
    body.renewedFrom.Some? ==>
      && var prior := body.renewedFrom.value;
      && prior.leaseId in s.leases
      && var entry := s.leases[prior.leaseId];
      && prior == LeaseRef(entry.certificate.body.leaseId, entry.certificate)
      && entry.certificate.body.agentId == body.agentId && entry.certificate.body.missionId == body.missionId
      && entry.record.state == Retired && entry.record.renewedBy == Some(body.leaseId)
  }

  /** The lease is usable now, bound to the mission, to its manifest and to registered identities, and signed
      by its issuer. */
  predicate WellBound(s: State, entry: LeaseEntry) {
    var body := entry.certificate.body;
    var issuer := if body.parentAgentId.Some? then body.parentAgentId.value else body.agentId;
    && body.missionId == s.mission.missionId && body.policyEpoch == s.mission.policyEpoch
    && body.organizationVersion == s.mission.organizationVersion
    && ManifestDigest(entry.manifest) == Ok(body.manifestDigest)
    && body.agentId in s.identities && s.identities[body.agentId] == body.agentIdentity
    && issuer in s.identities && s.identities[issuer] == body.issuerIdentity
    && body.issuerIdentity.body.keyId == body.issuerKeyId
    && entry.certificate.signature == Signed(body.issuerIdentity.body.key, body)
    && Succeeds(s, body)
  }

  predicate UsableNow(entry: LeaseEntry, now: Time) {
    entry.record.state == Active && now < entry.certificate.body.expiresAt
  }

  /** The child names its parent exactly and stays within it. */
  predicate Attenuated(parent: LeaseEntry, child: LeaseEntry) {
    var above, body := parent.certificate.body, child.certificate.body;
    && body.parentLease == Some(LeaseRef(above.leaseId, parent.certificate))
    && body.parentAgentId == Some(above.agentId)
    && body.expiresAt <= above.expiresAt
    && CapsWithin(body.granted.capabilities, above.delegable.capabilities)
    && CapsWithin(body.delegable.capabilities, body.granted.capabilities)
    && All !in body.granted.capabilities && All !in body.delegable.capabilities
    && NarrowerManifest(child.manifest, parent.manifest)
  }

  /** A usable, well-bound lease of an agent whose identity is vouched for. */
  ghost predicate Good(s: State, id: LeaseId, now: Time) {
    && id in s.leases && UsableNow(s.leases[id], now) && WellBound(s, s.leases[id])
    && Known(s.identities, s.leases[id].certificate.body.agentId)
  }

  predicate Above(leases: Leases, id: LeaseId, parent: LeaseId) {
    && id in leases && leases[id].certificate.body.parentLease.Some?
    && leases[id].certificate.body.parentLease.value.leaseId == parent
  }

  /** From the leaf to a parentless lease: at most 32 leases, none twice, every one good, every link
      attenuated. */
  ghost predicate Chained(s: State, leaf: LeaseId, now: Time, path: seq<LeaseId>) {
    && ChainedFrom(s, now, path, 0) && Distinct(path) && path[0] == leaf
    && forall i :: 0 <= i < |path| - 1 ==> Attenuated(s.leases[path[i + 1]], s.leases[path[i]])
  }

  /** The part of a chain from position `n` upwards. */
  ghost predicate ChainedFrom(s: State, now: Time, path: seq<LeaseId>, n: nat) {
    && n < |path| <= 32
    && (forall i :: n <= i < |path| ==> Good(s, path[i], now))
    && (forall i :: n <= i < |path| - 1 ==> Above(s.leases, path[i], path[i + 1]))
    && s.leases[path[|path| - 1]].certificate.body.parentLease == None
  }

  /** The generation the caller expects of the leaf, and a manifest with the leaf's identity. */
  predicate AsExpected(s: State, leaf: LeaseId, expected: Option<nat>, manifest: Manifest) {
    && leaf in s.leases
    && (expected.Some? ==> s.leases[leaf].record.generation == expected.value)
    && ManifestDigest(manifest).Ok? && ManifestDigest(manifest) == ManifestDigest(s.leases[leaf].manifest)
  }

  // ---------------------------------------------------------------- the checks, one lease at a time

  lemma IdentityMeans(ids: Identities, agent: AgentId, memo: set<AgentId>)
    requires MemoSound(ids, memo) && IdentityCheck(ids, agent, memo).Ok?
    ensures Known(ids, agent) && MemoSound(ids, IdentityCheck(ids, agent, memo).value)
  {
    MemoisedIdentityExact(ids, agent, memo);
    var p :| Trusted(ids, agent, p) && FitsDepth(memo, p);
    TrustMeans(ids, agent, p);
  }

  lemma EntryMeans(s: State, entry: LeaseEntry, memo: set<AgentId>)
    ensures ValidateCertificateEntry(s, entry, memo).Ok? <==>
            WellBound(s, entry) && IdentityCheck(s.identities, entry.certificate.body.agentId, memo).Ok?
    ensures ValidateCertificateEntry(s, entry, memo).Ok? ==>
              ValidateCertificateEntry(s, entry, memo) ==
              IdentityCheck(s.identities, entry.certificate.body.agentId, memo)
  {}

  lemma LinkMeans(parent: LeaseEntry, child: LeaseEntry)
    ensures ValidateParentChild(parent, child).Ok? <==> Attenuated(parent, child)
  {
    AttenuationExact(child.manifest, parent.manifest);
  }

  lemma {:induction false} LinksMean(leases: Leases, walked: seq<LeaseId>)
    requires Elems(walked) <= leases.Keys && (forall i :: 0 <= i < |walked| ==> walked[i] in leases)
    ensures ValidateLinks(leases, walked).Ok? <==>
            forall i :: 0 <= i < |walked| - 1 ==> Attenuated(leases[walked[i + 1]], leases[walked[i]])
  {
    if |walked| >= 2 {
      var rest := walked[1..];
      assert forall x :: x in rest ==> x in walked;
      LinksMean(leases, rest);
      LinkMeans(leases[walked[1]], leases[walked[0]]);
      if ValidateLinks(leases, walked).Ok? {
        forall i | 0 <= i < |walked| - 1 ensures Attenuated(leases[walked[i + 1]], leases[walked[i]]) {
          if i > 0 { assert rest[i - 1] == walked[i] && rest[i] == walked[i + 1]; }
        }
      }
    }
  }

  // ---------------------------------------------------------------- the walk

  /** One turn of the walk accepts a good lease of the expected generation and goes on above it. */
  lemma TurnMeans(s: State, leaf: LeaseId, expected: Option<nat>, now: Time,
                  current: LeaseId, memo: set<AgentId>, walked: seq<LeaseId>)
    returns (memo': set<AgentId>)
    requires |walked| < MAX_AUTHORITY_CHAIN_DEPTH && Elems(walked) <= s.leases.Keys
    requires MemoSound(s.identities, memo)
    requires WalkChain(s, leaf, expected, now, current, memo, walked).Ok?
    ensures Good(s, current, now) && current !in walked && MemoSound(s.identities, memo')
    ensures current == leaf && expected.Some? ==> s.leases[current].record.generation == expected.value
    ensures var parent := s.leases[current].certificate.body.parentLease;
            if parent.None? then WalkChain(s, leaf, expected, now, current, memo, walked) == Ok(walked + [current])
            else && |walked| + 1 < MAX_AUTHORITY_CHAIN_DEPTH && Elems(walked + [current]) <= s.leases.Keys
                 && WalkChain(s, leaf, expected, now, current, memo, walked) ==
                    WalkChain(s, leaf, expected, now, parent.value.leaseId, memo', walked + [current])
  {
    var entry := s.leases[current];
    EntryMeans(s, entry, memo);
    IdentityMeans(s.identities, entry.certificate.body.agentId, memo);
    memo' := ValidateCertificateEntry(s, entry, memo).value;
  }

  lemma {:induction false} WalkMeans(s: State, leaf: LeaseId, expected: Option<nat>, now: Time,
                                     current: LeaseId, memo: set<AgentId>, walked: seq<LeaseId>)
    requires |walked| < MAX_AUTHORITY_CHAIN_DEPTH && Elems(walked) <= s.leases.Keys && Distinct(walked)
    requires MemoSound(s.identities, memo)
    requires WalkChain(s, leaf, expected, now, current, memo, walked).Ok?
    ensures var path := WalkChain(s, leaf, expected, now, current, memo, walked).value;
            Distinct(path) && walked + [current] <= path && ChainedFrom(s, now, path, |walked|)
    decreases MAX_AUTHORITY_CHAIN_DEPTH - |walked|
  {
    var memo' := TurnMeans(s, leaf, expected, now, current, memo, walked);
    var walked' := walked + [current];
    var path := WalkChain(s, leaf, expected, now, current, memo, walked).value;
    if s.leases[current].certificate.body.parentLease.Some? {
      var p := s.leases[current].certificate.body.parentLease.value.leaseId;
      WalkMeans(s, leaf, expected, now, p, memo', walked');
      ChainGrows(s, now, path, walked, current, p);
    }
  }

  lemma ChainGrows(s: State, now: Time, path: seq<LeaseId>, walked: seq<LeaseId>, current: LeaseId, p: LeaseId)
    requires Good(s, current, now) && Above(s.leases, current, p)
    requires walked + [current] + [p] <= path && ChainedFrom(s, now, path, |walked| + 1)
    ensures walked + [current] <= path && ChainedFrom(s, now, path, |walked|)
  {
    assert path[|walked|] == current && path[|walked| + 1] == p;
  }

  // ---------------------------------------------------------------- main results

  /** The leaf's bindings, and the chain with its generations from the root down. */
  predicate HandsOut(s: State, leaf: LeaseId, path: seq<LeaseId>, v: ValidatedAuthority) {
    && leaf in s.leases && v.leafLeaseId == leaf
    && v.leafExpiresAt == s.leases[leaf].certificate.body.expiresAt
    && v.agentIdentity == s.leases[leaf].certificate.body.agentIdentity
    && v.manifestDigest == s.leases[leaf].certificate.body.manifestDigest
    && v.contextDigest == s.leases[leaf].certificate.body.contextDigest
    && |v.chain| == |v.observedGenerations| == |path|
    && forall i :: 0 <= i < |path| ==>
         && path[i] in s.leases
         && var entry := s.leases[path[i]];
            && v.chain[|path| - 1 - i] == LeaseRef(entry.certificate.body.leaseId, entry.certificate)
            && v.observedGenerations[|path| - 1 - i] == (path[i], entry.record.generation)
  }

  lemma ReportMeans(s: State, leaf: LeaseId, path: seq<LeaseId>)
    requires leaf in s.leases && Elems(path) <= s.leases.Keys && Elems(Reversed(path)) <= s.leases.Keys
    ensures HandsOut(s, leaf, path, Authorized(s.leases, leaf, Reversed(path)))
  {
    forall i | 0 <= i < |path| ensures path[i] in s.leases { assert path[i] in Elems(path); }
  }

  /** Whatever the state holds, an accepted chain is one: no check of the walk is missing. */
  lemma ChainSound(s: State, leaf: LeaseId, expected: Option<nat>, manifest: Manifest, now: Time)
    returns (path: seq<LeaseId>)
    requires ValidateChain(s, leaf, expected, manifest, now).Ok?
    ensures Chained(s, leaf, now, path) && AsExpected(s, leaf, expected, manifest)
    ensures HandsOut(s, leaf, path, ValidateChain(s, leaf, expected, manifest, now).value)
  {
    path := WalkChain(s, leaf, expected, now, leaf, {}, []).value;
    ReversedElems(path);
    WalkStartsAtLeaf(s, leaf, expected, now);
    ReportMeans(s, leaf, path);
    WalkIsChain(s, leaf, expected, now, path);
  }

  lemma WalkIsChain(s: State, leaf: LeaseId, expected: Option<nat>, now: Time, path: seq<LeaseId>)
    requires WalkChain(s, leaf, expected, now, leaf, {}, []) == Ok(path) && ValidateLinks(s.leases, path).Ok?
    ensures Chained(s, leaf, now, path)
    ensures leaf in s.leases && (expected.Some? ==> s.leases[leaf].record.generation == expected.value)
  {
    WalkMeans(s, leaf, expected, now, leaf, {}, []);
    var memo' := TurnMeans(s, leaf, expected, now, leaf, {}, []);
    assert path[0] == ([] + [leaf])[0];
    LinksMean(s.leases, path);
  }

  /** No identity chain of the agent has more than 32 identities. */
  ghost predicate Short(ids: Identities, agent: AgentId) {
    forall p :: Vouches(ids, agent, p) ==> |p| <= 32
  }

  ghost predicate ShortIdentities(s: State, path: seq<LeaseId>) {
    forall i :: 0 <= i < |path| && path[i] in s.leases ==>
      Short(s.identities, s.leases[path[i]].certificate.body.agentId)
  }

  lemma IdentityPasses(ids: Identities, agent: AgentId, memo: set<AgentId>)
    requires MemoSound(ids, memo) && Known(ids, agent) && Short(ids, agent)
    ensures IdentityCheck(ids, agent, memo).Ok? && MemoSound(ids, IdentityCheck(ids, agent, memo).value)
  {
    var p :| Vouches(ids, agent, p);
    TrustMeans(ids, agent, p);
    assert FitsDepth(memo, p);
    MemoisedIdentityExact(ids, agent, memo);
  }

  /** The walk accepts a good lease it has not met. */
  lemma TurnPasses(s: State, leaf: LeaseId, expected: Option<nat>, now: Time,
                   current: LeaseId, memo: set<AgentId>, walked: seq<LeaseId>)
    returns (memo': set<AgentId>)
    requires |walked| < MAX_AUTHORITY_CHAIN_DEPTH && Elems(walked) <= s.leases.Keys && current !in walked
    requires MemoSound(s.identities, memo) && Good(s, current, now)
    requires Short(s.identities, s.leases[current].certificate.body.agentId)
    requires current == leaf && expected.Some? ==> s.leases[current].record.generation == expected.value
    ensures MemoSound(s.identities, memo') && Elems(walked + [current]) <= s.leases.Keys
    ensures var parent := s.leases[current].certificate.body.parentLease;
            if parent.None? then WalkChain(s, leaf, expected, now, current, memo, walked) == Ok(walked + [current])
            else |walked| + 1 < MAX_AUTHORITY_CHAIN_DEPTH ==>
                   WalkChain(s, leaf, expected, now, current, memo, walked) ==
                   WalkChain(s, leaf, expected, now, parent.value.leaseId, memo', walked + [current])
  {
    var entry := s.leases[current];
    IdentityPasses(s.identities, entry.certificate.body.agentId, memo);
    EntryMeans(s, entry, memo);
    memo' := ValidateCertificateEntry(s, entry, memo).value;
  }

  lemma {:induction false} WalkPasses(s: State, leaf: LeaseId, expected: Option<nat>, now: Time, path: seq<LeaseId>,
                                      n: nat, memo: set<AgentId>)
    requires n < |path| && ChainedFrom(s, now, path, 0) && Distinct(path) && ShortIdentities(s, path)
    requires MemoSound(s.identities, memo) && Elems(path[..n]) <= s.leases.Keys
    requires leaf in s.leases && (expected.Some? ==> s.leases[leaf].record.generation == expected.value)
    ensures WalkChain(s, leaf, expected, now, path[n], memo, path[..n]) == Ok(path)
    decreases |path| - n
  {
    assert Good(s, path[n], now);
    assert path[n] !in path[..n];
    var memo' := TurnPasses(s, leaf, expected, now, path[n], memo, path[..n]);
    assert path[..n] + [path[n]] == path[..n + 1];
    if n + 1 < |path| {
      assert Above(s.leases, path[n], path[n + 1]);
      WalkPasses(s, leaf, expected, now, path, n + 1, memo');
    } else {
      assert path[..n + 1] == path;
    }
  }

  /** And whatever the state holds, a chain is accepted, as long as no identity chain is too deep. */
  lemma ChainComplete(s: State, leaf: LeaseId, expected: Option<nat>, manifest: Manifest, now: Time, path: seq<LeaseId>)
    requires Chained(s, leaf, now, path) && AsExpected(s, leaf, expected, manifest) && ShortIdentities(s, path)
    ensures ValidateChain(s, leaf, expected, manifest, now).Ok?
  {
    WalkPasses(s, leaf, expected, now, path, 0, {});
    assert path[..0] == [];
    forall x | x in path ensures x in s.leases {
      var i :| 0 <= i < |path| && path[i] == x;
      assert Good(s, path[i], now);
    }
    LinksMean(s.leases, path);
  }
}
