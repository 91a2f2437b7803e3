/**
  Registry snapshots and manifest refresh (crates/aeon_agent_runtime/src/tool_registry.rs:167-329).
  A registered tool is its id and the digest of its manifest.
 */
module Registry {
  import opened Basics
  import opened Canonical
  import opened Authority
  import opened Validation
  import opened Kernel
  import opened Invariant
  import opened Chain

  /** A registry is the list of its (tool id, manifest digest) pairs in registration order; the
      trusted constructor refuses repeated ids (tool_registry.rs:168-183). */
  type Tools = seq<BoundTool>

  predicate WellFormed(tools: Tools) {
    Distinct(ToolIds(tools))
  }

  /** tool_registry.rs:168-183: the registries that exist are those without repeated ids. */
  function FromTools(tools: Tools): (r: Result<Tools>)
    ensures r.Ok? <==> WellFormed(tools)
    ensures r.Ok? ==> r.value == tools && forall tool :: tool in tools <==> Find(tools, tool.toolId) == Some(tool)
  {
    if WellFormed(tools) then
      assert forall tool :: tool in tools <==> Find(tools, tool.toolId) == Some(tool) by {
        forall tool ensures tool in tools <==> Find(tools, tool.toolId) == Some(tool) { FindExact(tools, tool); }
      }
      Ok(tools)
    else Err(DuplicateTool)
  }

  function Find(tools: Tools, id: ToolId): Option<BoundTool> {
    if tools == [] then None
    else if tools[0].toolId == id then Some(tools[0])
    else Find(tools[1..], id)
  }

  /** tool_registry.rs:262-290 */
  function Snapshot(tools: Tools, ids: seq<ToolId>): Result<seq<BoundTool>> {
    if ids == [] then Ok([])
    else match Find(tools, ids[0])
      case None => Err(UnknownTool)
      case Some(tool) =>
        var rest :- Snapshot(tools, ids[1..]);
        Ok([tool] + rest)
  }

  /** Order of the JSON text of registry entries: manifest digest first, then tool id. */
  predicate EntryLess(a: BoundTool, b: BoundTool) {
    a.manifestDigest < b.manifestDigest || (a.manifestDigest == b.manifestDigest && a.toolId < b.toolId)
  }

  lemma EntryLessTotal()
    ensures StrictTotal(EntryLess)
  {}

  /** tool_registry.rs:317-329 */
  function RootDigest(tools: Tools): seq<BoundTool> {
    SortBy(EntryLess, tools)
  }

  /** tool_registry.rs:292-315 */
  function Refresh(tools: Tools, template: Manifest): Result<Manifest> {
    var bound :- Snapshot(tools, ToolIds(template.tools));
    Ok(template.(tools := bound, registryRoot := RootDigest(tools)))
  }

  /** tool_registry.rs:243-259 */
  function ResolveWithManifest(tools: Tools, id: ToolId, template: Manifest): Result<(BoundTool, Manifest)> {
    match Find(tools, id)
    case None => Err(UnknownTool)
    case Some(tool) =>
      var manifest :- Refresh(tools, template);
      Ok((tool, manifest))
  }

  // ---------------------------------------------------------------- facts

  lemma {:induction false} FindExact(tools: Tools, tool: BoundTool)
    requires WellFormed(tools)
    ensures Find(tools, tool.toolId) == Some(tool) <==> tool in tools
  {
    if tools != [] {
      var rest := tools[1..];
      assert tools == [tools[0]] + rest;
      assert forall i :: 0 <= i < |rest| ==> ToolIds(rest)[i] == ToolIds(tools)[i + 1];
      FindExact(rest, tool);
      forall i | 0 <= i < |rest| ensures rest[i].toolId != tools[0].toolId {
        assert ToolIds(tools)[0] != ToolIds(tools)[i + 1];
      }
    }
  }

  lemma {:induction false} FoundHasId(tools: Tools, id: ToolId)
    ensures Find(tools, id).Some? ==> Find(tools, id).value.toolId == id && Find(tools, id).value in tools
  {
    if tools != [] && tools[0].toolId != id {
      FoundHasId(tools[1..], id);
    }
  }

  lemma {:induction false} SnapshotKeepsIds(tools: Tools, ids: seq<ToolId>)
    requires Snapshot(tools, ids).Ok?
    ensures ToolIds(Snapshot(tools, ids).value) == ids
    ensures forall i :: 0 <= i < |Snapshot(tools, ids).value| ==> Snapshot(tools, ids).value[i] in tools
  {
    if ids != [] {
      SnapshotKeepsIds(tools, ids[1..]);
      FoundHasId(tools, ids[0]);
      var bound, rest := Snapshot(tools, ids).value, Snapshot(tools, ids[1..]).value;
      assert bound[1..] == rest;
      assert ids == [ids[0]] + ids[1..];
      forall i | 0 <= i < |bound| ensures ToolIds(bound)[i] == ids[i] {
        if i > 0 { assert ToolIds(bound)[i] == ToolIds(rest)[i - 1]; }
      }
    }
  }

  /** Tools that are all registered snapshot to themselves. */
  lemma {:induction false} SnapshotOfRegistered(tools: Tools, bound: seq<BoundTool>)
    requires WellFormed(tools) && forall i :: 0 <= i < |bound| ==> bound[i] in tools
    ensures Snapshot(tools, ToolIds(bound)) == Ok(bound)
  {
    if bound != [] {
      FindExact(tools, bound[0]);
      assert ToolIds(bound)[1..] == ToolIds(bound[1..]);
      SnapshotOfRegistered(tools, bound[1..]);
      assert bound == [bound[0]] + bound[1..];
    }
  }

  predicate IsRegistered(tools: Tools, id: ToolId) {
    exists tool :: tool in tools && tool.toolId == id
  }

  lemma FindRegistered(tools: Tools, id: ToolId)
    requires WellFormed(tools)
    ensures Find(tools, id).Some? <==> IsRegistered(tools, id)
    ensures Find(tools, id).Some? ==> Find(tools, id).value in tools && Find(tools, id).value.toolId == id
  {
    FoundHasId(tools, id);
    if tool :| tool in tools && tool.toolId == id { FindExact(tools, tool); }
  }

  lemma {:induction false} SnapshotAccepts(tools: Tools, ids: seq<ToolId>)
    requires WellFormed(tools)
    ensures Snapshot(tools, ids).Ok? <==> forall id :: id in ids ==> IsRegistered(tools, id)
    ensures Snapshot(tools, ids).Err? ==> Snapshot(tools, ids) == Err(UnknownTool)
  {
    if ids != [] {
      FindRegistered(tools, ids[0]);
      SnapshotAccepts(tools, ids[1..]);
      assert ids == [ids[0]] + ids[1..];
    }
  }

  /** Refreshing succeeds exactly when every tool of the template is registered; it then binds each, in
      order, to its registered digest, records the registry's root and leaves the rest alone. */
  lemma RefreshExact(tools: Tools, template: Manifest)
    requires WellFormed(tools)
    ensures Refresh(tools, template).Ok? <==>
            forall tool :: tool in template.tools ==> IsRegistered(tools, tool.toolId)
    ensures Refresh(tools, template).Err? ==> Refresh(tools, template) == Err(UnknownTool)
    ensures Refresh(tools, template).Ok? ==>
              var m := Refresh(tools, template).value;
              && m == template.(tools := m.tools, registryRoot := RootDigest(tools))
              && |m.tools| == |template.tools|
              && forall i :: 0 <= i < |m.tools| ==>
                   m.tools[i] in tools && m.tools[i].toolId == template.tools[i].toolId
  {
    var ids := ToolIds(template.tools);
    SnapshotAccepts(tools, ids);
    forall tool | tool in template.tools ensures tool.toolId in ids {
      var i :| 0 <= i < |template.tools| && template.tools[i] == tool;
      assert ids[i] == tool.toolId;
    }
    if Refresh(tools, template).Ok? {
      SnapshotKeepsIds(tools, ids);
      var m := Refresh(tools, template).value;
      forall i | 0 <= i < |m.tools| ensures m.tools[i].toolId == template.tools[i].toolId {
        assert ToolIds(m.tools)[i] == ids[i];
      }
    }
  }

  /** A tool resolves exactly when it is registered and the template refreshes. */
  lemma ResolveExact(tools: Tools, id: ToolId, template: Manifest)
    requires WellFormed(tools)
    ensures ResolveWithManifest(tools, id, template).Ok? <==> IsRegistered(tools, id) && Refresh(tools, template).Ok?
    ensures ResolveWithManifest(tools, id, template).Err? ==>
              ResolveWithManifest(tools, id, template) == Err(UnknownTool)
    ensures ResolveWithManifest(tools, id, template).Ok? ==>
              var (tool, manifest) := ResolveWithManifest(tools, id, template).value;
              tool in tools && tool.toolId == id && Refresh(tools, template) == Ok(manifest)
  {
    FindRegistered(tools, id);
    RefreshExact(tools, template);
  }

  lemma RootDigestExact(a: Tools, b: Tools)
    requires WellFormed(a) && WellFormed(b)
    ensures RootDigest(a) == RootDigest(b) <==> Elems(a) == Elems(b)
  {
    EntryLessTotal();
    DistinctTools(a);
    DistinctTools(b);
    SortByExact(EntryLess, a, b);
  }

  // ---------------------------------------------------------------- main results

  /** Refreshing twice is refreshing once. */
  lemma RefreshIdempotent(tools: Tools, template: Manifest)
    requires WellFormed(tools) && Refresh(tools, template).Ok?
    ensures Refresh(tools, Refresh(tools, template).value) == Refresh(tools, template)
  {
    var bound := Snapshot(tools, ToolIds(template.tools)).value;
    SnapshotKeepsIds(tools, ToolIds(template.tools));
    SnapshotOfRegistered(tools, bound);
  }

  /** A manifest bound on one registry keeps its canonical identity when refreshed on another exactly
      when both hold the same (tool, manifest digest) pairs, in any registration order. */
  lemma RefreshDetectsDrift(bound: Tools, live: Tools, template: Manifest, manifest: Manifest)
    requires WellFormed(bound) && WellFormed(live)
    requires Refresh(bound, template) == Ok(manifest) && ManifestDigest(manifest).Ok?
    ensures (Refresh(live, manifest).Ok? && ManifestDigest(Refresh(live, manifest).value) == ManifestDigest(manifest))
            <==> Elems(bound) == Elems(live)
    ensures Elems(bound) == Elems(live) ==> Refresh(live, manifest) == Ok(manifest)
  {
    RootDigestExact(bound, live);
    SnapshotKeepsIds(bound, ToolIds(template.tools));
    if Elems(bound) == Elems(live) {
      forall i | 0 <= i < |manifest.tools| ensures manifest.tools[i] in live {
        assert manifest.tools[i] in Elems(bound);
      }
      SnapshotOfRegistered(live, manifest.tools);
    }
  }

  /** Registry drift stops both the commit and the renewal of a lease bound before it: refreshing the
      lease's manifest fails, or yields one that chain validation and renewal reject. */
  lemma DriftRejected(s: State, leaf: LeaseId, expected: Option<nat>, now: Time, bound: Tools, live: Tools,
                      template: Manifest)
    requires Static(s) && Records(s) && leaf in s.leases && WellFormed(bound) && WellFormed(live)
    requires Refresh(bound, template) == Ok(s.leases[leaf].manifest) && Elems(bound) != Elems(live)
    ensures forall tool :: var resolved := ResolveWithManifest(live, tool, s.leases[leaf].manifest);
              resolved.Err? || ValidateChain(s, leaf, expected, resolved.value.1, now).Err?
    ensures forall request: RenewalRequest, id ::
              request.leaseId == leaf && Ok(request.manifest) == Refresh(live, s.leases[leaf].manifest) ==>
                RenewalCertificate(s, request, now, id).Err?
  {
    var manifest := s.leases[leaf].manifest;
    var refreshed := Refresh(live, manifest);
    if refreshed.Ok? {
      assert CertificateOk(s, leaf);
      RefreshDetectsDrift(bound, live, template, manifest);
      ChainCollapses(s, leaf, expected, refreshed.value, now);
      RootDigestExact(bound, live);
      forall request: RenewalRequest, id | request.leaseId == leaf && request.manifest == refreshed.value
        ensures RenewalCertificate(s, request, now, id).Err?
      {
        assert !Attenuates(refreshed.value, manifest);
        DriftedRenewal(s, request, now);
      }
    }
  }

  lemma DriftedRenewal(s: State, request: RenewalRequest, now: Time)
    requires request.leaseId in s.leases && !Attenuates(request.manifest, s.leases[request.leaseId].manifest)
    ensures ValidateRenewalRequest(s, s.leases[request.leaseId], request, now).Err?
  {}
}
