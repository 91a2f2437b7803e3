/**
  From a Nexus execution back to its grant: nothing runs in Nexus but a consumed authorization, whose
  chain, context, certificate and registry were as the commit section demands
  (crates/aeon_agent_runtime/src/execution.rs:370-513).
 */
module NexusRuns {
  import opened Basics
  import opened Authority
  import opened Registry
  import opened Execution
  import opened Protocol
  import opened CommitPoint
  import opened EvidenceRuns

  // ---------------------------------------------------------------- execution follows consumption

  lemma {:induction false} SpentOrigin(trace: seq<Sys>, labels: seq<Label>, i: nat, t: TaskId) returns (j: nat)
    requires Interleaving(trace, labels) && i < |trace| && t in trace[i].tasks && trace[i].tasks[t].spent
    ensures j < i && SpendsAt(trace, labels, j, t)
    decreases i
  {
    assert SysLinked(trace, labels, 0);
    j := i - 1;
    StepAdvances(trace, labels, j, t);
    if trace[j].tasks[t].spent { j := SpentOrigin(trace, labels, j, t); }
  }

  lemma {:induction false} SpentRemains(trace: seq<Sys>, labels: seq<Label>, i: nat, j: nat, t: TaskId)
    requires Interleaving(trace, labels) && i <= j < |trace| && t in trace[i].tasks && trace[i].tasks[t].spent
    ensures t in trace[j].tasks && trace[j].tasks[t].spent
    decreases j
  {
    if i < j {
      SpentRemains(trace, labels, i, j - 1, t);
      StepKeepsTask(trace, labels, j - 1, t);
      StepAdvances(trace, labels, j - 1, t);
    }
  }

  lemma RanIsSpent(trace: seq<Sys>, labels: seq<Label>, i: nat, t: TaskId)
    requires Interleaving(trace, labels) && i < |trace| && t in trace[i].tasks && trace[i].tasks[t].ran
    ensures trace[i].tasks[t].spent
  {
    RunKeepsEvidence(trace, labels, i);
    assert TaskOk(trace[i].store, trace[i].tasks[t]);
  }

  /** Whatever ran in Nexus was consumed at an earlier step, and that consumption was linearized. */
  lemma RunIsLinearized(trace: seq<Sys>, labels: seq<Label>, i: nat, t: TaskId) returns (g: nat, c: nat, j: nat)
    requires SysRun(trace, labels) && i < |trace| && t in trace[i].tasks && trace[i].tasks[t].ran
    ensures g < j && c < j < i && SpendsAt(trace, labels, j, t) && Linearized(trace, labels, g, c, j, t)
  {
    RanIsSpent(trace, labels, i, t);
    j := SpentOrigin(trace, labels, i, t);
    g, c := ConsumptionIsLinearized(trace, labels, j, t);
  }

  /** If any lease of a granted chain changes before the authorization is consumed, the call never runs
      in Nexus. */
  lemma InterferenceNeverRuns(trace: seq<Sys>, labels: seq<Label>, g: nat, t: TaskId, auth: Authorization,
                              m: nat, x: LeaseId, i: nat)
    requires SysRun(trace, labels) && g <= m <= i < |trace| && g < |labels| && GrantedAt(trace, labels, g, t, auth)
    requires auth.Lease() in trace[g].kernel.leases && x in Path(trace[g].kernel.leases[auth.Lease()].certificate)
    requires x in trace[g].kernel.leases && x in trace[m].kernel.leases
    requires trace[m].kernel.leases[x] != trace[g].kernel.leases[x]
    requires t in trace[m].tasks && !trace[m].tasks[t].spent && t in trace[i].tasks
    ensures !trace[i].tasks[t].spent && !trace[i].tasks[t].ran
  {
    if trace[i].tasks[t].ran { RanIsSpent(trace, labels, i, t); }
    if trace[i].tasks[t].spent {
      var j := SpentOrigin(trace, labels, i, t);
      if j < m {
        SpentRemains(trace, labels, j + 1, m, t);
      } else {
        InterferenceRejects(trace, labels, g, t, auth, m, x, j);
      }
    }
  }

  // ---------------------------------------------------------------- registry drift

  lemma {:induction false} RegistryStays(trace: seq<Sys>, labels: seq<Label>, i: nat)
    requires Interleaving(trace, labels) && i < |trace|
    ensures WellFormed(trace[i].tools)
    decreases i
  {
    assert SysLinked(trace, labels, i);
    if i > 0 { RegistryStays(trace, labels, i - 1); }
  }

  /** Task `t` refreshes its manifest against the registry at step `r`. */
  ghost predicate ResolvedAt(trace: seq<Sys>, labels: seq<Label>, r: nat, t: TaskId, auth: Authorization,
                             live: Manifest)
    requires |trace| == |labels| + 1 && r < |labels|
  {
    MovesAt(trace, labels, r, t, Resolve(Ok(live))) && trace[r].tasks[t].pc == Recorded(auth)
  }

  predicate HoldsLive(pc: Pc) {
    pc.Resolved? || pc.Guarded?
  }

  lemma ResolveStep(trace: seq<Sys>, labels: seq<Label>, i: nat, t: TaskId)
    requires |trace| == |labels| + 1 && i < |labels| && Advances(trace, labels, i, t)
    requires HoldsLive(trace[i + 1].tasks[t].pc)
    ensures t in trace[i].tasks
    ensures var pc, pc' := trace[i].tasks[t].pc, trace[i + 1].tasks[t].pc;
            || (HoldsLive(pc) && pc.auth == pc'.auth && pc.live == pc'.live)
            || ResolvedAt(trace, labels, i, t, pc'.auth, pc'.live)
  {}

  lemma {:induction false} ResolveOrigin(trace: seq<Sys>, labels: seq<Label>, j: nat, t: TaskId) returns (r: nat)
    requires Interleaving(trace, labels) && j < |trace| && t in trace[j].tasks && HoldsLive(trace[j].tasks[t].pc)
    ensures r < j && ResolvedAt(trace, labels, r, t, trace[j].tasks[t].pc.auth, trace[j].tasks[t].pc.live)
    decreases j
  {
    assert SysLinked(trace, labels, 0);
    r := j - 1;
    StepAdvances(trace, labels, r, t);
    ResolveStep(trace, labels, r, t);
    var pc := trace[j].tasks[t].pc;
    if !ResolvedAt(trace, labels, r, t, pc.auth, pc.live) { r := ResolveOrigin(trace, labels, r, t); }
  }

  lemma ResolveIsJudged(trace: seq<Sys>, labels: seq<Label>, r: nat, t: TaskId, auth: Authorization, live: Manifest)
    requires SysRun(trace, labels) && r < |labels| && ResolvedAt(trace, labels, r, t, auth, live)
    ensures ResolveForExecution(trace[r].tools, auth) == Ok(live)
  {
    assert Faithful(trace, labels, r + 1);
  }

  /** A manifest that keeps its identity carries the root of the registry it was refreshed on. */
  lemma SameIdentitySameRegistry(live: Tools, auth: Authorization, refreshed: Manifest, bound: Tools,
                                 template: Manifest, manifest: Manifest)
    requires WellFormed(live) && WellFormed(bound)
    requires ResolveForExecution(live, auth) == Ok(refreshed) && Refresh(bound, template) == Ok(manifest)
    requires ManifestDigest(refreshed) == ManifestDigest(manifest) && ManifestDigest(refreshed).Ok?
    ensures Elems(live) == Elems(bound)
  {
    assert refreshed.registryRoot == RootDigest(live) && manifest.registryRoot == RootDigest(bound);
    RootDigestExact(live, bound);
  }

  /** A consumption means that, when the call refreshed its manifest before the commit, the registry held
      exactly the tools and digests of the registry the leaf's manifest was bound on.  A refresh that
      fails, or a registry that drifted, rejects before the record is spent. */
  lemma ConsumedOnBoundRegistry(trace: seq<Sys>, labels: seq<Label>, j: nat, t: TaskId, bound: Tools,
                                template: Manifest)
    returns (r: nat)
    requires SysRun(trace, labels) && j < |labels| && SpendsAt(trace, labels, j, t)
    requires trace[j].tasks[t].pc.Committable? && trace[j].tasks[t].pc.auth.Lease() in trace[j].kernel.leases
    requires WellFormed(bound)
    requires Refresh(bound, template) == Ok(trace[j].kernel.leases[trace[j].tasks[t].pc.auth.Lease()].manifest)
    ensures r < j && t in trace[r].tasks && trace[r].tasks[t].pc == Recorded(trace[j].tasks[t].pc.auth)
    ensures ResolveForExecution(trace[r].tools, trace[j].tasks[t].pc.auth).Ok?
    ensures Elems(trace[r].tools) == Elems(bound)
  {
    var pc := trace[j].tasks[t].pc;
    var c := CheckOrigin(trace, labels, j, t);
    CheckIsSound(trace, labels, c, t, pc);
    var live := trace[c].tasks[t].pc.live;
    r := ResolveOrigin(trace, labels, c, t);
    ResolveIsJudged(trace, labels, r, t, pc.auth, live);
    RegistryStays(trace, labels, r);
    SameIdentitySameRegistry(trace[r].tools, pc.auth, live, bound, template,
                             trace[j].kernel.leases[pc.auth.Lease()].manifest);
  }
}
