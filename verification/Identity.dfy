/**
  Identity chains and the traversal-local memo set
  (crates/aeon_agent_runtime/src/authority_kernel/validation.rs:146-208).
 */
module Identity {
  import opened Basics
  import opened Authority

  /** The issuer link of one identity, checked the way the chain walk checks it. */
  predicate LinkVerified(ids: Identities, agent: AgentId) {
    && agent in ids
    && var identity := ids[agent];
       match identity.body.issuerAgentId
       case Some(issuer) =>
         && issuer in ids
         && identity.body.issuerKeyId == ids[issuer].body.keyId
         && identity.VerifiedBy(ids[issuer].body.key)
       case None =>
         && identity.body.issuerKeyId == identity.body.keyId
         && identity.VerifiedBy(identity.body.key)
  }

  /** What an identity chain means, without memo, visited set or depth bound: a sequence of verified
      issuer links that ends in a self-issued identity. */
  predicate TrustPath(ids: Identities, p: seq<AgentId>) {
    && p != []
    && (forall i :: 0 <= i < |p| ==> LinkVerified(ids, p[i]))
    && (forall i :: 0 <= i < |p| - 1 ==> ids[p[i]].body.issuerAgentId == Some(p[i + 1]))
    && ids[p[|p| - 1]].body.issuerAgentId == None
  }

  /** The loop of `validate_identity_chain` after `visited` has been walked and verified. */
  function WalkIdentity(ids: Identities, memo: set<AgentId>, current: AgentId,
                        visited: seq<AgentId>): Result<seq<AgentId>>
    requires |visited| < MAX_AUTHORITY_CHAIN_DEPTH
    decreases MAX_AUTHORITY_CHAIN_DEPTH - |visited|
  {
    if current in memo then Ok(visited)
    else if current in visited then Err(IdentityInvalid)
    else if current !in ids then Err(IdentityInvalid)
    else if ids[current].body.issuerAgentId.Some? && |visited| + 1 >= MAX_AUTHORITY_CHAIN_DEPTH then
      Err(IdentityInvalid)
    else if !LinkVerified(ids, current) then Err(IdentityInvalid)
    else match ids[current].body.issuerAgentId
      case Some(issuer) => WalkIdentity(ids, memo, issuer, visited + [current])
      case None => Ok(visited + [current])
  }

  /** Memoised validation: the new memo set on success. */
  function IdentityCheck(ids: Identities, agent: AgentId, memo: set<AgentId>): Result<set<AgentId>> {
    var verified :- WalkIdentity(ids, memo, agent, []);
    Ok(memo + Elems(verified))
  }

  /** The loop itself.  `checked` lists the identities whose signature the call verifies. */
  method ValidateIdentityChain(ids: Identities, leaf: AgentId, memo: set<AgentId>)
    returns (r: Result<()>, memo': set<AgentId>, checked: seq<AgentId>)
    ensures r.Ok? == IdentityCheck(ids, leaf, memo).Ok?
    ensures r.Ok? ==> IdentityCheck(ids, leaf, memo) == Ok(memo') && memo' == memo + Elems(checked)
    ensures r.Err? ==> r == Err(IdentityInvalid) && memo' == memo
    ensures r.Err? ==> IdentityCheck(ids, leaf, memo) == Err(IdentityInvalid)
    ensures Distinct(checked) && Elems(checked) !! memo
  {
    checked, memo' := [], memo;
    if leaf in memo {
      assert memo + Elems(checked) == memo;
      return Ok(()), memo, [];
    }
    var current := leaf;
    var visited: set<AgentId> := {};
    var walked: seq<AgentId> := [];
    while current !in memo
      invariant |walked| < MAX_AUTHORITY_CHAIN_DEPTH
      invariant visited == Elems(walked) && checked == walked && |visited| == |walked|
      invariant Distinct(walked) && Elems(walked) !! memo
      invariant WalkIdentity(ids, memo, current, walked) == WalkIdentity(ids, memo, leaf, [])
      decreases MAX_AUTHORITY_CHAIN_DEPTH - |walked|
    {
      if current in visited {
        return Err(IdentityInvalid), memo, checked;
      }
      visited := visited + {current};
      if current !in ids {
        return Err(IdentityInvalid), memo, checked;
      }
      var identity := ids[current];
      match identity.body.issuerAgentId {
        case Some(issuer) =>
          if |visited| >= MAX_AUTHORITY_CHAIN_DEPTH {
            return Err(IdentityInvalid), memo, checked;
          }
          if issuer !in ids || identity.body.issuerKeyId != ids[issuer].body.keyId {
            return Err(IdentityInvalid), memo, checked;
          }
          checked := checked + [current];
          if !identity.VerifiedBy(ids[issuer].body.key) {
            return Err(IdentityInvalid), memo, checked;
          }
          walked := walked + [current];
          current := issuer;
        case None =>
          if identity.body.issuerKeyId != identity.body.keyId {
            return Err(IdentityInvalid), memo, checked;
          }
          checked := checked + [current];
          if !identity.VerifiedBy(identity.body.key) {
            return Err(IdentityInvalid), memo, checked;
          }
          walked := walked + [current];
          return Ok(()), memo + Elems(walked), checked;
      }
    }
    return Ok(()), memo + Elems(walked), checked;
  }

  // ---------------------------------------------------------------- trust paths

  lemma {:induction false} TrustPathUnique(ids: Identities, p: seq<AgentId>, q: seq<AgentId>)
    requires TrustPath(ids, p) && TrustPath(ids, q) && p[0] == q[0]
    ensures p == q
  {
    assert |q| > 1 ==> ids[q[0]].body.issuerAgentId == Some(q[1]);
    if |p| == 1 {
      assert |q| == 1;
    } else {
      assert ids[p[0]].body.issuerAgentId == Some(p[1]);
      assert |q| > 1;
      assert TrustPath(ids, p[1..]) by { TrustPathTail(ids, p, 1); }
      assert TrustPath(ids, q[1..]) by { TrustPathTail(ids, q, 1); }
      TrustPathUnique(ids, p[1..], q[1..]);
      assert p == [p[0]] + p[1..] && q == [q[0]] + q[1..];
    }
  }

  lemma TrustPathTail(ids: Identities, p: seq<AgentId>, k: nat)
    requires TrustPath(ids, p) && k < |p|
    ensures TrustPath(ids, p[k..])
  {
    var t := p[k..];
    assert forall i :: 0 <= i < |t| ==> t[i] == p[k + i];
  }

  /** Verified issuer chains never loop. */
  lemma TrustPathDistinct(ids: Identities, p: seq<AgentId>)
    requires TrustPath(ids, p)
    ensures Distinct(p)
  {
    forall i, j | 0 <= i < j < |p| ensures p[i] != p[j] {
      if p[i] == p[j] {
        TrustPathTail(ids, p, i);
        TrustPathTail(ids, p, j);
        TrustPathUnique(ids, p[i..], p[j..]);
      }
    }
  }

  /** How many agents of `p` the walk visits before it meets the memo set. */
  function Stop(memo: set<AgentId>, p: seq<AgentId>): (n: nat)
    ensures n <= |p|
    ensures forall i :: 0 <= i < n ==> p[i] !in memo
    ensures n < |p| ==> p[n] in memo
  {
    if p == [] || p[0] in memo then 0
    else
      var n := Stop(memo, p[1..]);
      assert forall i :: 1 <= i < n + 1 ==> p[i] == p[1..][i - 1];
      n + 1
  }

  predicate FitsDepth(memo: set<AgentId>, p: seq<AgentId>) {
    if Stop(memo, p) < |p| then Stop(memo, p) < MAX_AUTHORITY_CHAIN_DEPTH
    else |p| <= MAX_AUTHORITY_CHAIN_DEPTH
  }

  lemma {:induction false} WalkFollowsPath(ids: Identities, memo: set<AgentId>, p: seq<AgentId>, k: nat)
    requires TrustPath(ids, p) && k <= Stop(memo, p) && k < |p| && k < MAX_AUTHORITY_CHAIN_DEPTH
    ensures WalkIdentity(ids, memo, p[k], p[..k]) ==
            if FitsDepth(memo, p) then Ok(p[..Stop(memo, p)]) else Err(IdentityInvalid)
    decreases |p| - k
  {
    if k < Stop(memo, p) {
      TrustPathDistinct(ids, p);
      assert p[k] !in p[..k];
      assert LinkVerified(ids, p[k]);
      assert p[..k] + [p[k]] == p[..k + 1];
      if k + 1 < |p| {
        assert ids[p[k]].body.issuerAgentId == Some(p[k + 1]);
        if k + 1 < MAX_AUTHORITY_CHAIN_DEPTH {
          WalkFollowsPath(ids, memo, p, k + 1);
        }
      }
    }
  }

  lemma {:induction false} WalkFindsPath(ids: Identities, memo: set<AgentId>, current: AgentId, visited: seq<AgentId>)
    returns (p: seq<AgentId>)
    requires |visited| < MAX_AUTHORITY_CHAIN_DEPTH
    requires MemoSound(ids, memo)
    requires WalkIdentity(ids, memo, current, visited).Ok?
    ensures TrustPath(ids, p) && p[0] == current
    decreases MAX_AUTHORITY_CHAIN_DEPTH - |visited|
  {
    if current in memo {
      p :| Trusted(ids, current, p);
    } else {
      match ids[current].body.issuerAgentId
      case None => p := [current];
      case Some(issuer) =>
        var q := WalkFindsPath(ids, memo, issuer, visited + [current]);
        p := [current] + q;
    }
  }

  predicate Trusted(ids: Identities, agent: AgentId, p: seq<AgentId>) {
    TrustPath(ids, p) && p[0] == agent
  }

  /** Every agent in the memo set has a complete verified chain. */
  ghost predicate MemoSound(ids: Identities, memo: set<AgentId>) {
    forall a :: a in memo ==> exists p :: Trusted(ids, a, p)
  }

  // ---------------------------------------------------------------- main results

  /** Exactly when the memoised check accepts: the agent has a complete verified chain, and the part
      of it outside the memo set fits the depth bound.  The accepted agents enter the memo set, which
      stays sound. */
  lemma MemoisedIdentityExact(ids: Identities, agent: AgentId, memo: set<AgentId>)
    requires MemoSound(ids, memo)
    ensures IdentityCheck(ids, agent, memo).Ok? <==>
            exists p :: Trusted(ids, agent, p) && FitsDepth(memo, p)
    ensures IdentityCheck(ids, agent, memo).Ok? ==> MemoSound(ids, IdentityCheck(ids, agent, memo).value)
  {
    if p :| Trusted(ids, agent, p) && FitsDepth(memo, p) {
      WalkFollowsPath(ids, memo, p, 0);
      assert p[..0] == [];
      var grown := IdentityCheck(ids, agent, memo).value;
      forall a | a in grown ensures exists q :: Trusted(ids, a, q) {
        if a !in memo {
          var i :| 0 <= i < Stop(memo, p) && p[i] == a;
          TrustPathTail(ids, p, i);
          assert Trusted(ids, a, p[i..]);
        }
      }
    }
    if IdentityCheck(ids, agent, memo).Ok? {
      var p := WalkFindsPath(ids, memo, agent, []);
      WalkFollowsPath(ids, memo, p, 0);
      assert p[..0] == [];
      assert Trusted(ids, agent, p) && FitsDepth(memo, p);
    }
  }

  /** With an empty memo set the check accepts exactly the chains of at most 32 identities. */
  lemma PlainIdentityExact(ids: Identities, agent: AgentId)
    ensures IdentityCheck(ids, agent, {}).Ok? <==>
            exists p :: Trusted(ids, agent, p) && |p| <= MAX_AUTHORITY_CHAIN_DEPTH
  {
    MemoisedIdentityExact(ids, agent, {});
    if p :| Trusted(ids, agent, p) && |p| <= MAX_AUTHORITY_CHAIN_DEPTH { assert FitsDepth({}, p); }
    if p :| Trusted(ids, agent, p) && FitsDepth({}, p) {
      assert Stop({}, p) == |p|;
    }
  }

  /** The memo set changes nothing for an agent whose chain has at most 32 identities; for a longer
      chain the plain check rejects and the memoised one accepts exactly when the memo set is met
      within 31 steps. */
  lemma MemoAgreesWithPlain(ids: Identities, agent: AgentId, memo: set<AgentId>, p: seq<AgentId>)
    requires MemoSound(ids, memo) && Trusted(ids, agent, p)
    ensures IdentityCheck(ids, agent, memo).Ok? == IdentityCheck(ids, agent, {}).Ok? <==>
            |p| <= MAX_AUTHORITY_CHAIN_DEPTH || Stop(memo, p) >= MAX_AUTHORITY_CHAIN_DEPTH
  {
    WalkFollowsPath(ids, memo, p, 0);
    WalkFollowsPath(ids, {}, p, 0);
    assert p[..0] == [];
    assert Stop({}, p) == |p|;
  }

  /** Without a complete chain both reject. */
  lemma MemoRejectsUntrusted(ids: Identities, agent: AgentId, memo: set<AgentId>)
    requires MemoSound(ids, memo) && !exists p :: Trusted(ids, agent, p)
    ensures IdentityCheck(ids, agent, memo).Err? && IdentityCheck(ids, agent, {}).Err?
  {
    MemoisedIdentityExact(ids, agent, memo);
    MemoisedIdentityExact(ids, agent, {});
  }

  // ---------------------------------------------------------------- a state where they differ

  function TowerCert(i: nat): IdentityCert {
    var body := IdentityBody(i, i, i, if i == 0 then None else Some(i - 1), if i == 0 then 0 else i - 1, 0);
    IdentityCert(body, Signed(if i == 0 then 0 else i - 1, body))
  }

  /** A chain of 33 identities, each issued by the one below. */
  function Tower(): Identities {
    map i: int | 0 <= i < 33 :: TowerCert(i)
  }

  /** Checking agent 1 puts agents 0 and 1 in the memo set; then agent 32 is accepted although its own
      chain is too deep. */
  lemma MemoAcceptsTooDeep()
    ensures IdentityCheck(Tower(), 1, {}) == Ok({0, 1})
    ensures IdentityCheck(Tower(), 32, {0, 1}).Ok? && IdentityCheck(Tower(), 32, {}).Err?
  {
    TowerWalk();
    var p := seq(33, i requires 0 <= i < 33 => 32 - i);
    assert TrustPath(Tower(), p);
    assert MemoSound(Tower(), {0, 1}) by { MemoisedIdentityExact(Tower(), 1, {}); }
    assert p[31] == 1 && forall i :: 0 <= i < 31 ==> p[i] !in {0, 1};
    assert Stop({0, 1}, p) == 31;
    MemoAgreesWithPlain(Tower(), 32, {0, 1}, p);
    WalkFollowsPath(Tower(), {0, 1}, p, 0);
    assert p[..0] == [];
  }

  lemma TowerWalk()
    ensures IdentityCheck(Tower(), 1, {}) == Ok({0, 1})
  {
    var low := [1, 0];
    assert TrustPath(Tower(), low);
    WalkFollowsPath(Tower(), {}, low, 0);
    assert low[..0] == [] && Stop({}, low) == 2 && low[..2] == low;
    assert FitsDepth({}, low);
    assert WalkIdentity(Tower(), {}, 1, []) == Ok(low);
    var memo: set<AgentId> := {};
    assert memo + Elems(low) == {0, 1};
  }
}
