/**
 * `_support/traces.py`: the execution traces of a matter (newest first) and
 * the tool calls recorded in one trace.
 */
module Traces {
  import opened Json
  import opened Text
  import opened Utils

  /** The cleaned `node_id` of a trace; blank for anything that is not a dict. */
  function NodeIdOf(t: Json): string
  {
    Clean(Get(t, "node_id"))
  }

  /**
   * `find_latest_trace`: ValueError for a blank node id; otherwise the first
   * dict trace with that node id — the latest, as the list is newest first —
   * or None.
   */
  function FindLatestTrace(traces: seq<Json>, nodeId: string): (r: Result<Option<Json>>)
    ensures r.Err? <==> Strip(nodeId) == ""
    ensures r.Err? ==> r.error == ValueError
    ensures r.Ok? ==> (r.value.None? <==> forall t :: t in traces ==> NodeIdOf(t) != Strip(nodeId))
    ensures r.Ok? && r.value.Some? ==>
      (r.value.value in traces && r.value.value.Obj? && NodeIdOf(r.value.value) == Strip(nodeId))
  {
    var want := Strip(nodeId);
    if want == "" then Err(ValueError)
    else
      var i := FirstMatch(traces, NodeIdOf, want);
      if i == |traces| then Ok(None)
      else
        assert traces[i] in traces && traces[i].Obj?;
        Ok(Some(traces[i]))
  }

  /** An older trace of the same node, listed further down, is never the one returned. */
  lemma LatestTraceWins(newer: seq<Json>, t: Json, older: seq<Json>, nodeId: string)
    requires Strip(nodeId) != "" && NodeIdOf(t) == Strip(nodeId)
    requires forall u :: u in newer ==> NodeIdOf(u) != Strip(nodeId)
    ensures FindLatestTrace(newer + [t] + older, nodeId) == Ok(Some(t))
  {
    FirstMatchAt(newer, t, older, NodeIdOf, Strip(nodeId));
  }

  /** `tool_calls`: the dict items of the trace's `tool_calls` list. */
  function ToolCalls(trace: Json): seq<Json>
  {
    DictItemsAt(trace, "tool_calls")
  }

  /** The cleaned `name` of a tool call. */
  function CallName(c: Json): string
  {
    Clean(Get(c, "name"))
  }

  /** `find_tool_call`: ValueError for a blank name; otherwise the first tool call with that name, or None. */
  function FindToolCall(trace: Json, name: string): (r: Result<Option<Json>>)
    ensures r.Err? <==> Strip(name) == ""
    ensures r.Err? ==> r.error == ValueError
    ensures r.Ok? ==> (r.value.None? <==> forall c :: c in ToolCalls(trace) ==> CallName(c) != Strip(name))
    ensures r.Ok? && r.value.Some? ==>
      (r.value.value in ToolCalls(trace) && CallName(r.value.value) == Strip(name))
  {
    var want := Strip(name);
    if want == "" then Err(ValueError)
    else
      var calls := ToolCalls(trace);
      var i := FirstMatch(calls, CallName, want);
      if i == |calls| then Ok(None)
      else
        assert calls[i] in calls;
        Ok(Some(calls[i]))
  }

  /** A later tool call of the same name is never the one returned: the first call with the name is. */
  lemma FirstToolCallWins(trace: Json, before: seq<Json>, c: Json, after: seq<Json>, name: string)
    requires ToolCalls(trace) == before + [c] + after
    requires Strip(name) != "" && CallName(c) == Strip(name)
    requires forall u :: u in before ==> CallName(u) != Strip(name)
    ensures FindToolCall(trace, name) == Ok(Some(c))
  {
    FirstMatchAt(before, c, after, CallName, Strip(name));
  }

  /**
   * `extract_context_manifest`: the `result` of the first
   * `context_manifest` tool call when that is a dict, else None.
   */
  function ExtractContextManifest(trace: Json): (r: Option<Json>)
    ensures r.Some? ==> r.value.Obj? && exists c :: c in ToolCalls(trace) && CallName(c) == "context_manifest" && Get(c, "result") == r.value
    ensures (forall c :: c in ToolCalls(trace) ==> CallName(c) != "context_manifest") ==> r.None?
  {
    StripOfUnspaced("context_manifest");
    match FindToolCall(trace, "context_manifest")
    case Err(_) => None
    case Ok(None) => None
    case Ok(Some(c)) =>
      var res := Get(c, "result");
      if res.Obj? then Some(res) else None
  }

  /**
   * The manifest is the `result` of the first `context_manifest` call when
   * that is a dict, and None when it is not, whatever later calls hold.
   */
  lemma FirstManifestDecides(trace: Json, before: seq<Json>, c: Json, after: seq<Json>)
    requires ToolCalls(trace) == before + [c] + after && CallName(c) == "context_manifest"
    requires forall u :: u in before ==> CallName(u) != "context_manifest"
    ensures ExtractContextManifest(trace) == (if Get(c, "result").Obj? then Some(Get(c, "result")) else None)
  {
    StripOfUnspaced("context_manifest");
    FirstToolCallWins(trace, before, c, after, "context_manifest");
  }
}
