/**
  The kernel object: six fields changed in place by loops and cascades
  (crates/aeon_agent_runtime/src/authority_kernel.rs:99-639).  Every method is proved to compute the
  operation of the same name in `Kernel`, and to change nothing when it fails.
 */
module KernelObject {
  import opened Basics
  import opened Canonical
  import opened Authority
  import opened Validation
  import opened Forest
  import opened Kernel
  import opened Invariant
  import opened Preservation
  import opened Expiry

  class AuthorityKernel {
    var mission: Mission
    var rootLeaseId: LeaseId
    var identities: Identities
    var custodians: map<AgentId, Custody>
    var leases: Leases
    var events: seq<Event>

    function Abs(): State
      reads this
    {
      State(mission, rootLeaseId, identities, custodians, leases, events)
    }

    constructor (s: State)
      ensures Abs() == s
    {
      mission, rootLeaseId, identities := s.mission, s.rootLeaseId, s.identities;
      custodians, leases, events := s.custodians, s.leases, s.events;
    }

    method Push(id: LeaseId, related: Option<LeaseId>, kind: EventKind, now: Time)
      modifies this`events
      ensures Abs() == PushEvent(old(Abs()), id, related, kind, now)
    {
      events := events + [Event(|events| + 1, id, related, kind, now)];
    }

    method Delegate(request: DelegationRequest, custody: Custody, now: Time, id: LeaseId) returns (r: Result<LeaseId>)
      modifies this
      ensures r.Ok? ==> Kernel.Delegate(old(Abs()), request, custody, now, id) == Ok(Abs()) && r.value == id
      ensures r.Err? ==> Kernel.Delegate(old(Abs()), request, custody, now, id) == Err(r.error) && Abs() == old(Abs())
    {
      if request.parentLeaseId !in leases {
        return Err(LeaseInactive);
      }
      var parent := leases[request.parentLeaseId];
      var agent := parent.certificate.body.agentId;
      var active := ValidateActiveRecord(parent, Some(request.expectedParentGeneration), now);
      if active.Err? {
        return Err(active.error);
      }
      var validated, _ := CheckChain(Abs(), request.parentLeaseId, Some(request.expectedParentGeneration),
                                     parent.manifest, now);
      if validated.Err? {
        return Err(validated.error);
      }
      if |validated.value.chain| >= MAX_AUTHORITY_CHAIN_DEPTH {
        return Err(DelegationInvalid);
      }
      var checked := ValidateDelegationRequest(Abs(), parent, request, now);
      if checked.Err? {
        return Err(checked.error);
      }
      if request.childAgentId in identities || KeyBound(identities, custody.keyId) {
        return Err(IdentityInvalid);
      }
      if agent !in custodians {
        return Err(IdentityInvalid);
      }
      var identity := SignedIdentity(request.childAgentId, custody, Some(agent), custodians[agent], now);
      if identity.Err? {
        return Err(identity.error);
      }
      if agent !in identities {
        return Err(IdentityInvalid);
      }
      var digest := ManifestDigest(request.manifest);
      if digest.Err? {
        return Err(digest.error);
      }
      var certificate := SignedLease(
        ChildBody(parent.certificate.body, parent.certificate.Reference(), identities[agent], custodians[agent].keyId,
                  identity.value, digest.value, request, now, id),
        custodians[agent]);
      if certificate.Err? {
        return Err(certificate.error);
      }
      identities := identities[request.childAgentId := identity.value];
      custodians := custodians[request.childAgentId := custody];
      leases := leases[id := LeaseEntry(certificate.value, ActiveRecord(id), request.manifest)];
      Push(id, Some(request.parentLeaseId), IdentityRegistered, now);
      Push(id, Some(request.parentLeaseId), LeaseDelegated, now);
      return Ok(id);
    }

    method CheckChange(lease: LeaseId, expected: nat, from: LeaseState, now: Time) returns (r: Result<LeaseRecord>)
      ensures r == TransitionCheck(leases, lease, expected, from, now)
    {
      if lease !in leases {
        return Err(LeaseInactive);
      }
      var entry := leases[lease];
      if entry.record.generation != expected {
        return Err(LeaseGenerationMismatch);
      }
      if entry.record.state != from || now >= entry.certificate.body.expiresAt {
        return Err(LeaseInactive);
      }
      return Ok(entry.record);
    }

    method Change(lease: LeaseId, expected: nat, from: LeaseState, to: LeaseState, kind: EventKind, now: Time)
      returns (r: Result<LeaseRecord>)
      modifies this`leases, this`events
      ensures r.Ok? ==>
              && Transition(old(Abs()), lease, expected, from, to, kind, now) == Ok(Abs())
              && lease in leases && r.value == leases[lease].record
      ensures r.Err? ==> Abs() == old(Abs())
      ensures r.Err? ==> Transition(old(Abs()), lease, expected, from, to, kind, now) == Err(r.error)
    {
      r := CheckChange(lease, expected, from, now);
      if r.Ok? {
        r := Ok(r.value.(state := to, generation := r.value.generation + 1));
        ReplaceRecord(lease, r.value);
        Push(lease, None, kind, now);
      }
    }

    method ReplaceRecord(lease: LeaseId, record: LeaseRecord)
      requires lease in leases
      modifies this`leases
      ensures Abs() == SetRecord(old(Abs()), lease, record)
      ensures lease in leases && leases[lease].record == record
    {
      leases := leases[lease := leases[lease].(record := record)];
    }

    method Pause(lease: LeaseId, expected: nat, now: Time) returns (r: Result<LeaseRecord>)
      modifies this`leases, this`events
      ensures r.Ok? ==> Kernel.Pause(old(Abs()), lease, expected, now) == Ok(Abs())
      ensures r.Err? ==> Kernel.Pause(old(Abs()), lease, expected, now) == Err(r.error) && Abs() == old(Abs())
    {
      r := Change(lease, expected, Active, Paused, LeasePaused, now);
    }

    method Resume(lease: LeaseId, expected: nat, now: Time) returns (r: Result<LeaseRecord>)
      modifies this`leases, this`events
      ensures r.Ok? ==> Kernel.Resume(old(Abs()), lease, expected, now) == Ok(Abs())
      ensures r.Err? ==> Kernel.Resume(old(Abs()), lease, expected, now) == Err(r.error) && Abs() == old(Abs())
    {
      r := Change(lease, expected, Paused, Active, LeaseResumed, now);
    }

    /** The loop both cascades run.  A listed lease that is missing would be an error after the first
        mutation; it cannot happen. */
    method RevokeListed(order: seq<LeaseId>, root: LeaseId, reason: string, now: Time)
      requires Elems(order) <= leases.Keys
      modifies this`leases, this`events
      ensures Abs() == RevokeEach(old(Abs()), order, root, reason, now)
    {
      var i := 0;
      while i < |order|
        invariant 0 <= i <= |order|
        invariant mission == old(mission) && rootLeaseId == old(rootLeaseId)
        invariant identities == old(identities) && custodians == old(custodians)
        invariant leases.Keys == old(leases.Keys)
        invariant Elems(order[i..]) <= leases.Keys
        invariant RevokeEach(Abs(), order[i..], root, reason, now) == RevokeEach(old(Abs()), order, root, reason, now)
      {
        var id := order[i];
        assert order[i..][0] == id && order[i..][1..] == order[i + 1..];
        assert id in Elems(order[i..]);
        assert forall x :: x in order[i + 1..] ==> x in order[i..];
        if id !in leases {
          assert false;
        }
        ghost var before := Abs();
        if leases[id].record.state.Active? || leases[id].record.state.Paused? {
          leases := leases[id := leases[id].(record := RevokedRecord(leases[id].record, reason, now))];
          Push(id, if id == root then None else Some(root), LeaseRevoked, now);
        }
        assert Abs() == RevokeOne(before, id, root, reason, now);
        i := i + 1;
      }
      assert order[i..] == [];
    }

    method Revoke(lease: LeaseId, expected: nat, reason: string, now: Time) returns (r: Result<seq<LeaseId>>)
      modifies this`leases, this`events
      ensures r.Ok? ==>
              && Kernel.Revoke(old(Abs()), lease, expected, reason, now) == Ok(Abs())
              && lease in old(leases) && r.value == Cascade(LinksOf(old(leases)), lease)
      ensures r.Err? ==> Kernel.Revoke(old(Abs()), lease, expected, reason, now) == Err(r.error) && Abs() == old(Abs())
    {
      if lease !in leases {
        return Err(LeaseInactive);
      }
      if leases[lease].record.generation != expected {
        return Err(LeaseGenerationMismatch);
      }
      if !leases[lease].Live() {
        return Err(LeaseInactive);
      }
      r := DescendantsIncluding(leases, lease);
      CascadeInLeases(leases, lease);
      RevokeListed(r.value, lease, reason, now);
    }

    method RevokeBelow(root: LeaseId, reason: string, now: Time)
      requires root in leases
      modifies this`leases, this`events
      ensures Abs() == RevokeDescendants(old(Abs()), root, reason, now)
    {
      var r := DescendantsIncluding(leases, root);
      CascadeInLeases(leases, root);
      RevokeListed(r.value[1..], root, reason, now);
    }

    method DueList(now: Time) returns (due: seq<LeaseId>)
      ensures due == Listed(DueIds(leases, now))
    {
      var todo := leases.Keys;
      var found: seq<LeaseId> := [];
      while todo != {}
        invariant todo <= leases.Keys
        invariant Distinct(found) && Elems(found) == DueIds(leases, now) - todo
        decreases |todo|
      {
        ghost var some := SomeMember(todo);
        var id :| id in todo;
        if Due(leases[id], now) {
          assert id !in Elems(found);
          DistinctConcat(found, [id]);
          found := found + [id];
        }
        todo := todo - {id};
      }
      assert DueIds(leases, now) - {} == DueIds(leases, now);
      SortedEnumeration(found);
      due := SortBy(IntLess, found);
    }

    method ExpireVisit(id: LeaseId, now: Time) returns (hit: bool)
      requires id in leases
      modifies this`leases, this`events
      ensures Abs() == ExpireOne(old(Abs()), id, now) && hit == old(leases)[id].Live()
    {
      hit := leases[id].Live();
      if hit {
        leases := leases[id := leases[id].(record := ExpiredRecord(leases[id].record))];
        Push(id, None, LeaseExpired, now);
        RevokeBelow(id, EXPIRED_REASON, now);
      }
    }

    /** The result lists the leases that expired; those an ancestor's cascade revoked are not in it. */
    method RefreshExpirations(now: Time) returns (expired: seq<LeaseId>)
      modifies this`leases, this`events
      ensures Abs() == Kernel.RefreshExpirations(old(Abs()), now)
      ensures expired == ExpiredList(old(Abs()), Listed(DueIds(old(leases), now)), now)
    {
      var due := DueList(now);
      expired := [];
      ghost var cur := Abs();
      ghost var goal, listed := ExpireEach(cur, due, now), ExpiredList(cur, due, now);
      var i := 0;
      assert due[0..] == due;
      while i < |due|
        invariant 0 <= i <= |due|
        invariant Abs() == cur
        invariant Elems(due) <= cur.leases.Keys && Elems(due[i..]) <= cur.leases.Keys
        invariant ExpireEach(cur, due[i..], now) == goal
        invariant expired + ExpiredList(cur, due[i..], now) == listed
      {
        var id := due[i];
        assert id in Elems(due);
        assert forall x :: x in due[i + 1..] ==> x in due;
        if id !in leases {
          assert false;
        }
        ExpireStep(cur, due, i, expired, now);
        var hit := ExpireVisit(id, now);
        if hit {
          expired := expired + [id];
        }
        cur := ExpireOne(cur, id, now);
        i := i + 1;
      }
      assert due[i..] == [];
    }

    method Renew(request: RenewalRequest, now: Time, id: LeaseId) returns (r: Result<LeaseId>)
      modifies this
      ensures r.Ok? ==> Kernel.Renew(old(Abs()), request, now, id) == Ok(Abs()) && r.value == id
      ensures r.Err? ==> Kernel.Renew(old(Abs()), request, now, id) == Err(r.error) && Abs() == old(Abs())
    {
      var certificate := CertifyRenewal(request, now, id);
      if certificate.Err? {
        return Err(certificate.error);
      }
      var prior := leases[request.leaseId];
      leases := leases[request.leaseId := prior.(record := RetiredRecord(prior.record, id))];
      RevokeBelow(request.leaseId, RETIRED_REASON, now);
      leases := leases[id := LeaseEntry(certificate.value, ActiveRecord(id), request.manifest)];
      if rootLeaseId == request.leaseId {
        rootLeaseId := id;
      }
      Push(id, Some(request.leaseId), LeaseRenewed, now);
      return Ok(id);
    }

    method CertifyRenewal(request: RenewalRequest, now: Time, id: LeaseId) returns (r: Result<LeaseCert>)
      ensures r == RenewalCertificate(Abs(), request, now, id)
      ensures r.Ok? ==> request.leaseId in leases && r.value.body.leaseId == id
    {
      if request.leaseId !in leases {
        return Err(LeaseInactive);
      }
      var prior := leases[request.leaseId];
      var active := ValidateActiveRecord(prior, Some(request.expectedGeneration), now);
      if active.Err? {
        return Err(active.error);
      }
      var validated, _ := CheckChain(Abs(), request.leaseId, Some(request.expectedGeneration), prior.manifest, now);
      if validated.Err? {
        return Err(validated.error);
      }
      var checked := ValidateRenewalRequest(Abs(), prior, request, now);
      if checked.Err? {
        return Err(checked.error);
      }
      var issuer := IssuerAgent(prior.certificate.body);
      if issuer !in identities || issuer !in custodians {
        return Err(IdentityInvalid);
      }
      var digest := ManifestDigest(request.manifest);
      if digest.Err? {
        return Err(digest.error);
      }
      r := SignedLease(
        RenewedBody(prior.certificate, identities[issuer], custodians[issuer].keyId, digest.value, request, now, id),
        custodians[issuer]);
    }
  }

  /** authority_kernel.rs:150-224 */
  method BootstrapKernel(request: RootRequest, custody: Custody, now: Time, id: LeaseId)
    returns (r: Result<AuthorityKernel>)
    ensures r.Ok? ==> fresh(r.value) && Bootstrap(request, custody, now, id) == Ok(r.value.Abs()) && Inv(r.value.Abs())
    ensures r.Err? ==> Bootstrap(request, custody, now, id) == Err(r.error)
  {
    var s := Bootstrap(request, custody, now, id);
    if s.Err? {
      return Err(s.error);
    }
    BootstrapInv(request, custody, now, id);
    var kernel := new AuthorityKernel(s.value);
    return Ok(kernel);
  }
}
