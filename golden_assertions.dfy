/**
 * playbook_golden/assertions.py: the validators the golden-playbook tests
 * run on API payloads and generated text. Each either returns or raises;
 * a raise is `Fail(AssertionError)`. The citation checks are regular
 * expressions and are not part of this model.
 */
module GoldenAssertions {
  import opened Json
  import opened Text
  import opened Utils

  // ---------------------------------------------------------------------
  // assert_json_structure_valid

  /** Follows `parts` through nested dicts: `None` as soon as the current value is not a dict or lacks the part. */
  function Walk(current: Json, parts: seq<string>): (r: Option<Json>)
    ensures parts == [] ==> r == Some(current)
    ensures parts != [] && !Has(current, parts[0]) ==> r.None?
  {
    if parts == [] then Some(current)
    else if !Has(current, parts[0]) then None
    else Walk(Get(current, parts[0]), parts[1..])
  }

  /** Walking a path in two stretches is walking it in one. */
  lemma {:induction false} WalkAppend(d: Json, p: seq<string>, q: seq<string>)
    ensures Walk(d, p + q) == (match Walk(d, p) case None => None case Some(e) => Walk(e, q))
  {
    if p == [] {
      assert p + q == q;
    } else {
      assert (p + q)[0] == p[0] && (p + q)[1..] == p[1..] + q;
      if Has(d, p[0]) {
        WalkAppend(Get(d, p[0]), p[1..], q);
      }
    }
  }

  /** A dotted field such as `"data.items"` can be reached in `data`. */
  predicate Reachable(data: Json, field: string)
  {
    Walk(data, Split(field, '.')).Some?
  }

  /** The required fields that cannot be reached, in order. */
  function MissingFields(data: Json, fields: seq<string>): (r: seq<string>)
    ensures forall f :: f in r <==> f in fields && !Reachable(data, f)
    ensures r == [] <==> forall f :: f in fields ==> Reachable(data, f)
  {
    if fields == [] then []
    else (if Reachable(data, fields[0]) then [] else [fields[0]]) + MissingFields(data, fields[1..])
  }

  /** `assert_json_structure_valid(data, required_fields=...)` */
  function AssertJsonStructureValid(data: Json, requiredFields: seq<string>): (r: Check)
    ensures r.Pass? <==> data.Obj? && forall f :: f in requiredFields ==> Reachable(data, f)
    ensures r.Fail? ==> r.error == AssertionError
  {
    if !data.Obj? then Fail(AssertionError)
    else if MissingFields(data, requiredFields) != [] then Fail(AssertionError)
    else Pass
  }

  /** A dotted field made of dot-free segments is reached exactly by walking those segments in turn. */
  lemma DottedFieldWalksSegments(data: Json, parts: seq<string>)
    requires parts != [] && forall k :: 0 <= k < |parts| ==> '.' !in parts[k]
    ensures Reachable(data, Join(".", parts)) <==> Walk(data, parts).Some?
  {
    SplitOfJoin(parts, '.');
  }

  /** A field `a.b` is there exactly when `a` is there and its value is a dict holding `b`. */
  lemma TwoLevelField(data: Json, a: string, b: string)
    requires '.' !in a && '.' !in b
    ensures Reachable(data, a + "." + b) <==> Has(data, a) && Has(Get(data, a), b)
  {
    DottedFieldWalksSegments(data, [a, b]);
    assert Join(".", [a, b]) == a + "." + b;
    WalkAppend(data, [a], [b]);
    assert [a] + [b] == [a, b];
  }

  // ---------------------------------------------------------------------
  // assert_list_not_empty and assert_table_rows_valid

  /** `assert_list_not_empty` */
  function AssertListNotEmpty(data: Json): (r: Check)
    ensures r.Pass? <==> data.List? && |data.items| > 0
    ensures r.Fail? ==> r.error == AssertionError
  {
    if !data.List? then Fail(AssertionError)
    else if data.items == [] then Fail(AssertionError)
    else Pass
  }

  /** A row that is a dict holding every required column. */
  predicate RowHasColumns(row: Json, columns: seq<string>)
  {
    row.Obj? && forall c :: c in columns ==> Has(row, c)
  }

  function RowValid(columns: seq<string>): Json -> bool
  {
    row => RowHasColumns(row, columns)
  }

  /** `assert_table_rows_valid(rows, min_rows=..., required_columns=...)` */
  function AssertTableRowsValid(rows: Json, minRows: int, requiredColumns: seq<string>): (r: Check)
    ensures r.Pass? <==> (rows.List? && |rows.items| >= minRows
      && (requiredColumns != [] ==> forall i :: 0 <= i < |rows.items| ==> RowHasColumns(rows.items[i], requiredColumns)))
    ensures r.Fail? ==> r.error == AssertionError
  {
    if !rows.List? then Fail(AssertionError)
    else if |rows.items| < minRows then Fail(AssertionError)
    else if requiredColumns == [] then Pass
    else CheckEach(rows.items, RowValid(requiredColumns))
  }

  /** Without required columns the rows may be anything: a list of scalars long enough passes. */
  lemma RowsUncheckedWithoutColumns(items: seq<Json>, minRows: int)
    requires |items| >= minRows
    ensures AssertTableRowsValid(List(items), minRows, []).Pass?
  {
  }

  // ---------------------------------------------------------------------
  // assert_no_placeholder_leaks

  /** The template markers that must not survive into generated text. */
  const Placeholders: seq<string> := ["{{", "}}", "{%", "%}", "[[PLACEHOLDER]]", "[TODO]", "[TBD]", "___"]

  /** The markers of `ps` found in `text`, in order. */
  function Leaks(ps: seq<string>, text: string): (r: seq<string>)
    ensures forall p :: p in r <==> p in ps && Contains(text, p)
  {
    if ps == [] then []
    else (if Contains(text, ps[0]) then [ps[0]] else []) + Leaks(ps[1..], text)
  }

  /** `assert_no_placeholder_leaks(text)` */
  function AssertNoPlaceholderLeaks(text: string): (r: Check)
    ensures r.Pass? <==> forall p :: p in Placeholders ==> !Contains(text, p)
    ensures r.Fail? ==> r.error == AssertionError
  {
    var found := Leaks(Placeholders, text);
    if found != [] then
      assert found[0] in found;
      Fail(AssertionError)
    else Pass
  }

  /** A marker anywhere in the text is reported, whatever surrounds it. */
  lemma EmbeddedMarkerLeaks(before: string, p: string, after: string)
    requires p in Placeholders
    ensures AssertNoPlaceholderLeaks(before + p + after).Fail?
  {
    ContainsInfix(before, p, after);
  }

  // ---------------------------------------------------------------------
  // assert_deliverable_structure

  const DeliverableStatuses: set<string> := {"completed", "done", "pending", "in_progress"}

  /** `assert_deliverable_structure(deliverable)`; a non-dict has no `.get`. */
  function AssertDeliverableStructure(d: Json): (r: Check)
    ensures !d.Obj? ==> r == Fail(AttributeError)
    ensures d.Obj? ==> (r.Pass? <==>
      Truthy(Get(d, "id")) && Truthy(Get(d, "output_key")) && Truthy(Get(d, "file_id"))
      && (Clean(Get(d, "status")) == "" || Clean(Get(d, "status")) in DeliverableStatuses))
    ensures d.Obj? && r.Fail? ==> r.error == AssertionError
  {
    if !d.Obj? then Fail(AttributeError)
    else if !Truthy(Get(d, "id")) || !Truthy(Get(d, "output_key")) || !Truthy(Get(d, "file_id")) then Fail(AssertionError)
    else
      var status := Clean(Get(d, "status"));
      if status != "" && status !in DeliverableStatuses then Fail(AssertionError) else Pass
  }

  /** A deliverable with its three ids and a known status padded with spaces passes: the status is stripped first. */
  lemma PaddedStatusAccepted(d: Json, status: string)
    requires d.Obj? && Truthy(Get(d, "id")) && Truthy(Get(d, "output_key")) && Truthy(Get(d, "file_id"))
    requires status in DeliverableStatuses && Get(d, "status") == Str(" " + status + " ")
    ensures AssertDeliverableStructure(d).Pass?
  {
    StatusStrip(status);
  }

  lemma StatusStrip(status: string)
    requires status in DeliverableStatuses
    ensures Strip(" " + status + " ") == status
  {
    var s := " " + status + " ";
    assert TrimStart(s) == status + " " by {
      assert s[1..] == status + " ";
    }
    assert TrimEnd(status + " ") == status by {
      assert (status + " ")[..|status|] == status;
    }
  }

  // ---------------------------------------------------------------------
  // assert_trace_has_nodes

  /** The ids one trace contributes: its cleaned `node_id` and, when that holds a `:`, the piece after the last `:`. */
  function NodeIdsOf(t: Json): (r: set<string>)
    ensures r != {} ==> t.Obj? && Clean(Get(t, "node_id")) in r
  {
    if !t.Obj? then {}
    else
      var nid := Clean(Get(t, "node_id"));
      if nid == "" then {}
      else {nid} + (if ':' in nid then {LastPiece(nid, ':')} else {})
  }

  /** The `node_ids` set `assert_trace_has_nodes` builds from the traces. */
  function TraceNodeIds(traces: seq<Json>): (r: set<string>)
    ensures forall x :: x in r <==> exists i :: 0 <= i < |traces| && x in NodeIdsOf(traces[i])
  {
    set i, x | 0 <= i < |traces| && x in NodeIdsOf(traces[i]) :: x
  }

  /** A required node is met by its own id or its `skill:` id among the collected ids. */
  predicate NodeSatisfied(ids: set<string>, node: string)
  {
    Strip(node) in ids || "skill:" + Strip(node) in ids
  }

  /** The stripped required nodes that are not met, in order. */
  function MissingNodes(ids: set<string>, nodes: seq<string>): (r: seq<string>)
    ensures r == [] <==> forall n :: n in nodes ==> NodeSatisfied(ids, n)
  {
    if nodes == [] then []
    else (if NodeSatisfied(ids, nodes[0]) then [] else [Strip(nodes[0])]) + MissingNodes(ids, nodes[1..])
  }

  /** `assert_trace_has_nodes(traces, required_nodes=...)` */
  function AssertTraceHasNodes(traces: seq<Json>, requiredNodes: seq<string>): (r: Check)
    ensures r.Pass? <==> forall n :: n in requiredNodes ==> NodeSatisfied(TraceNodeIds(traces), n)
    ensures r.Fail? ==> r.error == AssertionError
  {
    if MissingNodes(TraceNodeIds(traces), requiredNodes) != [] then Fail(AssertionError) else Pass
  }

  /**
   * A node is met by a trace whose cleaned node id is the node itself, is
   * `skill:` followed by it, or ends in `:` followed by it.
   */
  lemma NodeMetByTrace(traces: seq<Json>, i: nat, node: string)
    requires i < |traces| && traces[i].Obj?
    requires var nid := Clean(Get(traces[i], "node_id"));
      nid == Strip(node) || nid == "skill:" + Strip(node) || (':' in nid && LastPiece(nid, ':') == Strip(node))
    requires Strip(node) != ""
    ensures NodeSatisfied(TraceNodeIds(traces), node)
  {
    var nid := Clean(Get(traces[i], "node_id"));
    assert nid != "";
    assert nid in NodeIdsOf(traces[i]);
    if ':' in nid {
      assert LastPiece(nid, ':') in NodeIdsOf(traces[i]);
    }
  }

  /** Conversely, a met node comes from some dict trace in one of those three ways. */
  lemma NodeMetOnlyByTrace(traces: seq<Json>, node: string)
    requires NodeSatisfied(TraceNodeIds(traces), node)
    ensures exists i :: 0 <= i < |traces| && MeetsNode(traces[i], node)
  {
    var ids := TraceNodeIds(traces);
    var want := if Strip(node) in ids then Strip(node) else "skill:" + Strip(node);
    var i :| 0 <= i < |traces| && want in NodeIdsOf(traces[i]);
    NodeIdFrom(traces[i], want, node);
  }

  /** One collected id that is the node or its `skill:` id makes its trace meet the node. */
  lemma NodeIdFrom(t: Json, want: string, node: string)
    requires want in NodeIdsOf(t)
    requires want == Strip(node) || want == "skill:" + Strip(node)
    ensures MeetsNode(t, node)
  {
    var nid := Clean(Get(t, "node_id"));
    if want != nid {
      assert want == LastPiece(nid, ':');
    }
  }

  /** The trace's cleaned node id is the node, `skill:` and the node, or ends in `:` and the node. */
  predicate MeetsNode(t: Json, node: string)
  {
    t.Obj? &&
    var nid := Clean(Get(t, "node_id"));
    nid != "" && (nid == Strip(node) || nid == "skill:" + Strip(node) || (':' in nid && LastPiece(nid, ':') == Strip(node)))
  }

  // ---------------------------------------------------------------------
  // assert_phase_timeline_valid and assert_workflow_profile_valid

  /** The cleaned ids of the dict phases, blank ones included. */
  function PhaseIdSet(tl: Json): set<string>
  {
    set p | p in ListOrEmpty(Get(tl, "phases")) && p.Obj? :: Clean(Get(p, "id"))
  }

  /** `assert_phase_timeline_valid(phase_tl, playbook_id=..., required_phases=...)`; a non-dict has no `.get`. */
  function AssertPhaseTimelineValid(tl: Json, playbookId: string, requiredPhases: seq<string>): (r: Check)
    ensures !tl.Obj? ==> r == Fail(AttributeError)
    ensures tl.Obj? ==> (r.Pass? <==> (Aliased(tl, "playbookId", "playbook_id") == playbookId
      && forall ph :: ph in requiredPhases ==> ph in PhaseIdSet(tl)))
    ensures tl.Obj? && r.Fail? ==> r.error == AssertionError
  {
    if !tl.Obj? then Fail(AttributeError)
    else if Aliased(tl, "playbookId", "playbook_id") != playbookId then Fail(AssertionError)
    else if exists ph :: ph in requiredPhases && ph !in PhaseIdSet(tl) then Fail(AssertionError)
    else Pass
  }

  /** The phase entry `{"id": ph}`. */
  function PhaseEntry(ph: string): Json
  {
    Obj([Field("id", Str(ph))])
  }

  /**
   * A timeline that names the playbook under `playbookId` and lists each of
   * the required phases (already stripped) as `{"id": ...}` passes.
   */
  lemma ListedPhasesPass(playbookId: string, phases: seq<string>)
    requires Strip(playbookId) == playbookId && playbookId != ""
    requires forall k :: 0 <= k < |phases| ==> Strip(phases[k]) == phases[k]
    ensures var entries := seq(|phases|, k requires 0 <= k < |phases| => PhaseEntry(phases[k]));
      AssertPhaseTimelineValid(Obj([Field("playbookId", Str(playbookId)), Field("phases", List(entries))]), playbookId, phases).Pass?
  {
    var entries := seq(|phases|, k requires 0 <= k < |phases| => PhaseEntry(phases[k]));
    var tl := Obj([Field("playbookId", Str(playbookId)), Field("phases", List(entries))]);
    PairGet("playbookId", Str(playbookId), "phases", List(entries));
    forall ph | ph in phases ensures ph in PhaseIdSet(tl) {
      var k :| 0 <= k < |phases| && phases[k] == ph;
      assert Get(entries[k], "id") == Str(ph);
      assert entries[k] in ListOrEmpty(Get(tl, "phases"));
    }
  }

  /** `assert_workflow_profile_valid(profile, service_type_id=...)`; a non-dict has no `.get`. */
  function AssertWorkflowProfileValid(profile: Json, serviceTypeId: string): (r: Check)
    ensures !profile.Obj? ==> r == Fail(AttributeError)
    ensures profile.Obj? ==> (r.Pass? <==> Aliased(profile, "service_type_id", "serviceTypeId") == serviceTypeId)
    ensures profile.Obj? && r.Fail? ==> r.error == AssertionError
  {
    if !profile.Obj? then Fail(AttributeError)
    else if Aliased(profile, "service_type_id", "serviceTypeId") != serviceTypeId then Fail(AssertionError)
    else Pass
  }

  /** The snake-case key wins over the camel-case one whenever it is set. */
  lemma SnakeCaseServiceTypeWins(s: string, other: Json, serviceTypeId: string)
    requires s != ""
    ensures AssertWorkflowProfileValid(Obj([Field("serviceTypeId", other), Field("service_type_id", Str(s))]), serviceTypeId).Pass?
      <==> Strip(s) == serviceTypeId
  {
    PairGet("serviceTypeId", other, "service_type_id", Str(s));
  }
}
