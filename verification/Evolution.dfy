/**
  How leases change from state to state: generations only grow, every record change is one
  generation, and dead leases never change again.
 */
module Evolution {
  import opened Authority
  import opened Kernel
  import opened Invariant
  import opened Preservation

  /** One operation changes a record at most once: a live lease moves one generation on. */
  predicate OneChange(r: LeaseRecord, r': LeaseRecord) {
    r' == r || (r.state.Live() && r'.generation == r.generation + 1 && r'.leaseId == r.leaseId)
  }

  ghost predicate StepsOnce(s: State, s': State) {
    && Extends(s, s')
    && s.events <= s'.events
    && forall id :: id in s.leases ==> OneChange(s.leases[id].record, s'.leases[id].record)
  }

  lemma DelegateStepsOnce(s: State, request: DelegationRequest, custody: Custody, now: Time, id: LeaseId)
    requires Static(s) && id !in s.leases && Delegate(s, request, custody, now, id).Ok?
    ensures StepsOnce(s, Delegate(s, request, custody, now, id).value)
  {
    var identity, certificate := DelegateShape(s, request, custody, now, id);
    ChildSigned(s, request, custody, now, id, identity, certificate, Delegate(s, request, custody, now, id).value);
  }

  lemma RenewStepsOnce(s: State, request: RenewalRequest, now: Time, id: LeaseId)
    requires Records(s) && id !in s.leases && Renew(s, request, now, id).Ok?
    ensures StepsOnce(s, Renew(s, request, now, id).value)
  {
    var k, certificate := RenewShape(s, request, now, id);
    RenewsStepOnce(s, k, request.leaseId, id, LeaseEntry(certificate, ActiveRecord(id), request.manifest), now,
                   Renew(s, request, now, id).value);
  }

  lemma TransitionStepsOnce(s: State, id: LeaseId, expected: nat, from: LeaseState, to: LeaseState, kind: EventKind,
                            now: Time)
    requires from.Live() && to.Live() && Transition(s, id, expected, from, to, kind, now).Ok?
    ensures StepsOnce(s, Transition(s, id, expected, from, to, kind, now).value)
  {}

  lemma KillsStepOnce(s: State, s': State)
    requires OnlyKills(s, s')
    ensures StepsOnce(s, s')
  {}

  lemma ApplyStepsOnce(s: State, op: Op, now: Time)
    requires Inv(s) && FreshIds(s, op) && Apply(s, op, now).Ok?
    ensures StepsOnce(s, Apply(s, op, now).value)
  {
    match op
    case DelegateOp(request, custody, id) => DelegateStepsOnce(s, request, custody, now, id);
    case PauseOp(lease, expected) => TransitionStepsOnce(s, lease, expected, Active, Paused, LeasePaused, now);
    case ResumeOp(lease, expected) => TransitionStepsOnce(s, lease, expected, Paused, Active, LeaseResumed, now);
    case RevokeOp(lease, expected, reason) =>
      RevokeInv(s, lease, expected, reason, now);
      KillsStepOnce(s, Revoke(s, lease, expected, reason, now).value);
    case RefreshOp =>
      RefreshInv(s, now);
      KillsStepOnce(s, RefreshExpirations(s, now));
    case RenewOp(request, id) => RenewStepsOnce(s, request, now, id);
  }

  lemma RenewsStepOnce(s: State, k: State, prior: LeaseId, id: LeaseId, next: LeaseEntry, now: Time, s': State)
    requires OnlyKills(s, k) && Renews(k, prior, id, next, now, s') && k.leases[prior] == s.leases[prior]
    ensures StepsOnce(s, s')
  {
    RenewsExtends(s, k, prior, id, next, now, s');
  }

  // ---------------------------------------------------------------- across any number of steps

  /** A record is unchanged, or its generation has grown from a live state. */
  predicate Later(r: LeaseRecord, r': LeaseRecord) {
    r' == r || (r.state.Live() && r'.generation > r.generation)
  }

  ghost predicate Evolves(s: State, s': State) {
    && Extends(s, s')
    && s.events <= s'.events
    && forall id :: id in s.leases ==> Later(s.leases[id].record, s'.leases[id].record)
  }

  lemma EvolvesTransitive(s: State, s1: State, s2: State)
    requires Evolves(s, s1) && Evolves(s1, s2)
    ensures Evolves(s, s2)
  {}

  lemma OnceEvolves(s: State, s': State)
    requires StepsOnce(s, s')
    ensures Evolves(s, s')
  {}

  lemma LinkEvolves(trace: seq<State>, ops: seq<(Op, Time)>, i: nat)
    requires Run(trace, ops) && i < |ops|
    ensures Inv(trace[i]) && Inv(trace[i + 1]) && StepsOnce(trace[i], trace[i + 1])
  {
    RunKeepsInv(trace, ops, i);
    RunKeepsInv(trace, ops, i + 1);
    assert Linked(trace, ops, i);
    if Apply(trace[i], ops[i].0, ops[i].1).Ok? { ApplyStepsOnce(trace[i], ops[i].0, ops[i].1); }
  }

  lemma EvolvesAt(trace: seq<State>, ops: seq<(Op, Time)>, i: nat)
    requires Run(trace, ops) && i < |ops|
    ensures Evolves(trace[i], trace[i + 1])
  {
    LinkEvolves(trace, ops, i);
    OnceEvolves(trace[i], trace[i + 1]);
  }

  lemma StepEvolves(s: State, op: Op, now: Time)
    requires Inv(s) && FreshIds(s, op)
    ensures Evolves(s, Step(s, op, now))
  {
    if Apply(s, op, now).Ok? { ApplyStepsOnce(s, op, now); }
  }

  lemma {:induction false} RunEvolves(trace: seq<State>, ops: seq<(Op, Time)>, i: nat, j: nat)
    requires Run(trace, ops) && i <= j < |trace|
    ensures Evolves(trace[i], trace[j])
    decreases j
  {
    if i < j {
      RunEvolves(trace, ops, i, j - 1);
      EvolvesAt(trace, ops, j - 1);
      EvolvesTransitive(trace[i], trace[j - 1], trace[j]);
    }
  }

  /** Equal generations mean that nothing happened to the lease in between: no pause, resume,
      revocation, expiry or renewal, however many operations ran. */
  lemma SameGenerationSameLease(trace: seq<State>, ops: seq<(Op, Time)>, i: nat, m: nat, j: nat, id: LeaseId)
    requires Run(trace, ops) && i <= m <= j < |trace| && id in trace[i].leases
    requires id in trace[j].leases && trace[j].leases[id].record.generation == trace[i].leases[id].record.generation
    ensures id in trace[m].leases && trace[m].leases[id] == trace[i].leases[id]
  {
    RunEvolves(trace, ops, i, m);
    RunEvolves(trace, ops, m, j);
  }

  /** Revoked, Expired and Retired are final. */
  lemma DeadIsFinal(trace: seq<State>, ops: seq<(Op, Time)>, i: nat, j: nat, id: LeaseId)
    requires Run(trace, ops) && i <= j < |trace| && id in trace[i].leases && !trace[i].leases[id].Live()
    ensures id in trace[j].leases && trace[j].leases[id] == trace[i].leases[id]
  {
    RunEvolves(trace, ops, i, j);
  }

  /** A step that fails, or that does not touch a lease, leaves it alone; one that touches it adds
      exactly one generation. */
  lemma RunStepsOnce(trace: seq<State>, ops: seq<(Op, Time)>, i: nat, id: LeaseId)
    requires Run(trace, ops) && i < |ops| && id in trace[i].leases
    ensures id in trace[i + 1].leases && OneChange(trace[i].leases[id].record, trace[i + 1].leases[id].record)
  {
    LinkEvolves(trace, ops, i);
  }
}
