/**
  On every state that satisfies the invariant, `validate_chain` collapses to a short check
  (crates/aeon_agent_runtime/src/authority_kernel/validation.rs:3-144, 230-255).
 */
module Chain {
  import opened Basics
  import opened Authority
  import opened Identity
  import opened Validation
  import opened Invariant

  // ---------------------------------------------------------------- chains of certificates

  lemma ParentFacts(s: State, id: LeaseId) returns (p: LeaseId)
    requires CertificateOk(s, id) && s.leases[id].certificate.body.parentLease.Some?
    ensures var child, parentRef := s.leases[id], s.leases[id].certificate.body.parentLease.value;
            && p == parentRef.leaseId && p in s.leases
            && s.leases[p].certificate == parentRef.certificate
            && ValidateParentChild(s.leases[p], child).Ok?
            && Depth(child.certificate) == 1 + Depth(s.leases[p].certificate)
            && Path(child.certificate) == [id] + Path(s.leases[p].certificate)
  {
    p := s.leases[id].certificate.body.parentLease.value.leaseId;
  }

  /** Every lease on a path is in the map, one level deeper than the next. */
  lemma {:induction false} PathInside(s: State, id: LeaseId, i: nat)
    requires Static(s) && id in s.leases && i < Depth(s.leases[id].certificate)
    ensures var x := Path(s.leases[id].certificate)[i];
            x in s.leases && Depth(s.leases[x].certificate) == Depth(s.leases[id].certificate) - i
    decreases i
  {
    assert CertificateOk(s, id);
    if i > 0 {
      var p := ParentFacts(s, id);
      PathInside(s, p, i - 1);
    }
  }

  lemma PathKeys(s: State, id: LeaseId)
    requires Static(s) && id in s.leases
    ensures Elems(Path(s.leases[id].certificate)) <= s.leases.Keys
    ensures Distinct(Path(s.leases[id].certificate))
  {
    var path := Path(s.leases[id].certificate);
    forall i | 0 <= i < |path|
      ensures path[i] in s.leases && Depth(s.leases[path[i]].certificate) == |path| - i
    {
      PathInside(s, id, i);
    }
  }

  function AgentPath(c: LeaseCert): (agents: seq<AgentId>)
    ensures |agents| == Depth(c) && agents[0] == c.body.agentId
  {
    match c.body.parentLease
    case None => [c.body.agentId]
    case Some(parent) => [c.body.agentId] + AgentPath(parent.certificate)
  }

  /** The identity chain of a lease's agent follows the lease chain, so both have the same depth. */
  lemma {:induction false} AgentPathTrusted(s: State, id: LeaseId)
    requires Static(s) && id in s.leases
    ensures TrustPath(s.identities, AgentPath(s.leases[id].certificate))
    decreases Depth(s.leases[id].certificate)
  {
    var body := s.leases[id].certificate.body;
    var agents := AgentPath(s.leases[id].certificate);
    assert CertificateOk(s, id);
    assert IdentityOk(s, body.agentId);
    if body.parentLease.Some? {
      var p := ParentFacts(s, id);
      AgentPathTrusted(s, p);
      var above := AgentPath(s.leases[p].certificate);
      assert agents == [body.agentId] + above;
      assert s.identities[body.agentId].body.issuerAgentId == Some(above[0]);
      forall i | 0 <= i < |agents| - 1 ensures s.identities[agents[i]].body.issuerAgentId == Some(agents[i + 1]) {
        if i > 0 { assert agents[i] == above[i - 1] && agents[i + 1] == above[i]; }
      }
      forall i | 0 <= i < |agents| ensures LinkVerified(s.identities, agents[i]) {
        if i > 0 { assert agents[i] == above[i - 1]; }
      }
    }
  }

  /** The certificate checks pass for every stored lease, whatever the memo set holds. */
  lemma EntryAlwaysValid(s: State, id: LeaseId, memo: set<AgentId>)
    requires Static(s) && Records(s) && id in s.leases
    ensures ValidateCertificateEntry(s, s.leases[id], memo).Ok?
  {
    var c := s.leases[id].certificate;
    assert CertificateOk(s, id) && RecordOk(s.leases, id);
    var agents := AgentPath(c);
    AgentPathTrusted(s, id);
    WalkFollowsPath(s.identities, memo, agents, 0);
    assert agents[..0] == [];
    assert FitsDepth(memo, agents);
  }

  lemma {:induction false} LinksAlwaysValid(s: State, id: LeaseId)
    requires Static(s) && id in s.leases
    requires Elems(Path(s.leases[id].certificate)) <= s.leases.Keys
    ensures ValidateLinks(s.leases, Path(s.leases[id].certificate)) == Ok(())
    decreases Depth(s.leases[id].certificate)
  {
    assert CertificateOk(s, id);
    if s.leases[id].certificate.body.parentLease.Some? {
      var p := ParentFacts(s, id);
      var path := Path(s.leases[id].certificate);
      assert path[1..] == Path(s.leases[p].certificate);
      PathKeys(s, p);
      LinksAlwaysValid(s, p);
    }
  }

  // ---------------------------------------------------------------- activity along the path

  predicate UsableAt(leases: Leases, ids: seq<LeaseId>, now: Time) {
    forall i :: 0 <= i < |ids| ==>
      ids[i] in leases && leases[ids[i]].record.state.Active? && now < leases[ids[i]].certificate.body.expiresAt
  }

  predicate AllActive(leases: Leases, ids: seq<LeaseId>) {
    forall i :: 0 <= i < |ids| ==> ids[i] in leases && leases[ids[i]].record.state.Active?
  }

  /** Expiry never grows along a path, so only the leaf's matters. */
  lemma {:induction false} LeafExpiresFirst(s: State, id: LeaseId, i: nat)
    requires Static(s) && id in s.leases && i < Depth(s.leases[id].certificate)
    ensures var x := Path(s.leases[id].certificate)[i];
            x in s.leases && s.leases[id].certificate.body.expiresAt <= s.leases[x].certificate.body.expiresAt
    decreases i
  {
    assert CertificateOk(s, id);
    if i > 0 {
      var p := ParentFacts(s, id);
      LeafExpiresFirst(s, p, i - 1);
    }
  }

  lemma UsableIsActiveLeaf(s: State, id: LeaseId, now: Time)
    requires Static(s) && id in s.leases
    ensures UsableAt(s.leases, Path(s.leases[id].certificate), now) <==>
            AllActive(s.leases, Path(s.leases[id].certificate)) && now < s.leases[id].certificate.body.expiresAt
  {
    var path := Path(s.leases[id].certificate);
    assert path[0] == id by { assert CertificateOk(s, id); }
    forall i | 0 <= i < |path|
      ensures path[i] in s.leases
      ensures s.leases[id].certificate.body.expiresAt <= s.leases[path[i]].certificate.body.expiresAt
    {
      LeafExpiresFirst(s, id, i);
    }
  }

  /** What is left of the walk from `current` upwards. */
  ghost function Collapsed(s: State, leaf: LeaseId, expected: Option<nat>, now: Time, current: LeaseId,
                           walked: seq<LeaseId>): Result<seq<LeaseId>>
    requires current in s.leases
  {
    if Stale(s, leaf, expected, current) then Err(LeaseGenerationMismatch)
    else if UsableAt(s.leases, Path(s.leases[current].certificate), now)
    then Ok(walked + Path(s.leases[current].certificate))
    else Err(LeaseInactive)
  }

  predicate Stale(s: State, leaf: LeaseId, expected: Option<nat>, current: LeaseId)
    requires current in s.leases
  {
    current == leaf && expected.Some? && s.leases[current].record.generation != expected.value
  }

  predicate Usable(entry: LeaseEntry, now: Time) {
    entry.record.state.Active? && now < entry.certificate.body.expiresAt
  }

  lemma CollapsedOnce(s: State, leaf: LeaseId, expected: Option<nat>, now: Time, current: LeaseId, walked: seq<LeaseId>)
    requires CertificateOk(s, current)
    ensures s.leases[current].certificate.body.parentLease == None ==>
              Collapsed(s, leaf, expected, now, current, walked) ==
              if Stale(s, leaf, expected, current) then Err(LeaseGenerationMismatch)
              else if Usable(s.leases[current], now) then Ok(walked + [current]) else Err(LeaseInactive)
    ensures s.leases[current].certificate.body.parentLease.Some? ==>
              var p := s.leases[current].certificate.body.parentLease.value.leaseId;
              && p in s.leases && (leaf != p ==>
                 Collapsed(s, leaf, expected, now, current, walked) ==
                 if Stale(s, leaf, expected, current) then Err(LeaseGenerationMismatch)
                 else if Usable(s.leases[current], now) then Collapsed(s, leaf, expected, now, p, walked + [current])
                 else Err(LeaseInactive))
  {
    UsableOne(s.leases, current, now);
    if s.leases[current].certificate.body.parentLease.Some? {
      var p := ParentFacts(s, current);
      var above := Path(s.leases[p].certificate);
      UsableSplits(s.leases, [current], above, now);
      assert walked + ([current] + above) == walked + [current] + above;
    }
  }

  lemma UsableOne(leases: Leases, id: LeaseId, now: Time)
    requires id in leases
    ensures UsableAt(leases, [id], now) <==> Usable(leases[id], now)
  {
    assert [id][0] == id;
  }

  lemma {:induction false} WalkCollapses(s: State, leaf: LeaseId, expected: Option<nat>, now: Time,
                                         current: LeaseId, memo: set<AgentId>, walked: seq<LeaseId>)
    requires Static(s) && Records(s) && current in s.leases
    requires |walked| + Depth(s.leases[current].certificate) <= MAX_AUTHORITY_CHAIN_DEPTH
    requires Elems(walked) <= s.leases.Keys && Deeper(s, walked, current)
    requires current == leaf || leaf in walked
    ensures |walked| < MAX_AUTHORITY_CHAIN_DEPTH
    ensures WalkChain(s, leaf, expected, now, current, memo, walked) ==
            Collapsed(s, leaf, expected, now, current, walked)
    decreases Depth(s.leases[current].certificate)
  {
    assert CertificateOk(s, current);
    WalkOnce(s, leaf, expected, now, current, memo, walked);
    CollapsedOnce(s, leaf, expected, now, current, walked);
    if s.leases[current].certificate.body.parentLease.Some? {
      var p := ParentFacts(s, current);
      var memo' := ValidateCertificateEntry(s, s.leases[current], memo).value;
      DeeperSnoc(s, walked, current, p);
      WalkCollapses(s, leaf, expected, now, p, memo', walked + [current]);
    }
  }

  /** Everything walked so far lies deeper than `current`. */
  predicate Deeper(s: State, walked: seq<LeaseId>, current: LeaseId)
    requires current in s.leases
  {
    forall x :: x in walked ==> x in s.leases && Depth(s.leases[x].certificate) > Depth(s.leases[current].certificate)
  }

  lemma DeeperSnoc(s: State, walked: seq<LeaseId>, current: LeaseId, p: LeaseId)
    requires current in s.leases && p in s.leases && Deeper(s, walked, current)
    requires Depth(s.leases[current].certificate) > Depth(s.leases[p].certificate)
    ensures Deeper(s, walked + [current], p)
  {}

  /** One turn of the walk on an invariant state: only the record can stop it. */
  lemma WalkOnce(s: State, leaf: LeaseId, expected: Option<nat>, now: Time,
                 current: LeaseId, memo: set<AgentId>, walked: seq<LeaseId>)
    requires Static(s) && Records(s) && current in s.leases && Deeper(s, walked, current)
    requires |walked| + Depth(s.leases[current].certificate) <= MAX_AUTHORITY_CHAIN_DEPTH
    requires Elems(walked) <= s.leases.Keys
    ensures |walked| < MAX_AUTHORITY_CHAIN_DEPTH && ValidateCertificateEntry(s, s.leases[current], memo).Ok?
    ensures s.leases[current].certificate.body.parentLease.Some? ==>
              |walked| + 1 < MAX_AUTHORITY_CHAIN_DEPTH && Elems(walked + [current]) <= s.leases.Keys
    ensures var entry, parent := s.leases[current], s.leases[current].certificate.body.parentLease;
            WalkChain(s, leaf, expected, now, current, memo, walked) ==
            if Stale(s, leaf, expected, current) then Err(LeaseGenerationMismatch)
            else if !Usable(entry, now) then Err(LeaseInactive)
            else if parent == None then Ok(walked + [current])
            else WalkChain(s, leaf, expected, now, parent.value.leaseId,
                           ValidateCertificateEntry(s, entry, memo).value, walked + [current])
  {
    assert CertificateOk(s, current);
    EntryAlwaysValid(s, current, memo);
  }

  lemma UsableSplits(leases: Leases, a: seq<LeaseId>, b: seq<LeaseId>, now: Time)
    ensures UsableAt(leases, a + b, now) <==> UsableAt(leases, a, now) && UsableAt(leases, b, now)
  {
    var c := a + b;
    if UsableAt(leases, c, now) {
      forall i | 0 <= i < |a|
        ensures a[i] in leases && leases[a[i]].record.state.Active? && now < leases[a[i]].certificate.body.expiresAt
      {
        assert c[i] == a[i];
      }
      forall i | 0 <= i < |b|
        ensures b[i] in leases && leases[b[i]].record.state.Active? && now < leases[b[i]].certificate.body.expiresAt
      {
        assert c[|a| + i] == b[i];
      }
    }
  }

  // ---------------------------------------------------------------- main result

  /** What remains of `validate_chain`: existence, generation, activity, leaf expiry, manifest. */
  ghost function CollapsedChain(s: State, leaf: LeaseId, expected: Option<nat>, manifest: Manifest,
                                now: Time): Result<ValidatedAuthority>
    requires Static(s)
  {
    if leaf !in s.leases then Err(DelegationInvalid)
    else
      var entry := s.leases[leaf];
      var path := Path(entry.certificate);
      PathKeys(s, leaf);
      ReversedElems(path);
      if expected.Some? && entry.record.generation != expected.value then Err(LeaseGenerationMismatch)
      else if !AllActive(s.leases, path) || now >= entry.certificate.body.expiresAt then Err(LeaseInactive)
      else if ManifestDigest(manifest) != Ok(entry.certificate.body.manifestDigest) then Err(CapabilityManifestMismatch)
      else Ok(Authorized(s.leases, leaf, Reversed(path)))
  }

  /** On invariant states the cycle, depth, missing-parent, signature, identity, renewal-link and
      attenuation errors never fire: acceptance, rejection and error code are those of the short
      check. */
  lemma ChainCollapses(s: State, leaf: LeaseId, expected: Option<nat>, manifest: Manifest, now: Time)
    requires Static(s) && Records(s)
    ensures ValidateChain(s, leaf, expected, manifest, now) == CollapsedChain(s, leaf, expected, manifest, now)
  {
    if leaf in s.leases {
      WholeWalk(s, leaf, expected, now);
      assert CertificateOk(s, leaf);
      assert ManifestDigest(s.leases[leaf].manifest) == Ok(s.leases[leaf].certificate.body.manifestDigest);
    }
  }

  lemma WholeWalk(s: State, leaf: LeaseId, expected: Option<nat>, now: Time)
    requires Static(s) && Records(s) && leaf in s.leases
    ensures var path := Path(s.leases[leaf].certificate);
            && Elems(path) <= s.leases.Keys && ValidateLinks(s.leases, path) == Ok(())
            && WalkChain(s, leaf, expected, now, leaf, {}, []) ==
               if expected.Some? && s.leases[leaf].record.generation != expected.value then Err(LeaseGenerationMismatch)
               else if AllActive(s.leases, path) && now < s.leases[leaf].certificate.body.expiresAt then Ok(path)
               else Err(LeaseInactive)
  {
    assert CertificateOk(s, leaf);
    var path := Path(s.leases[leaf].certificate);
    WalkCollapses(s, leaf, expected, now, leaf, {}, []);
    assert [] + path == path;
    UsableIsActiveLeaf(s, leaf, now);
    PathKeys(s, leaf);
    LinksAlwaysValid(s, leaf);
  }

  /** What an accepted chain tells the operations that validate first. */
  lemma AcceptedChain(s: State, leaf: LeaseId, expected: Option<nat>, manifest: Manifest, now: Time)
    requires Static(s) && Records(s)
    requires ValidateChain(s, leaf, expected, manifest, now).Ok?
    ensures leaf in s.leases
    ensures |ValidateChain(s, leaf, expected, manifest, now).value.chain| == Depth(s.leases[leaf].certificate)
    ensures UsableAt(s.leases, Path(s.leases[leaf].certificate), now)
  {
    ChainCollapses(s, leaf, expected, manifest, now);
    UsableIsActiveLeaf(s, leaf, now);
  }
}
