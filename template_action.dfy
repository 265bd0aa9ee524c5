/**
 * The helpers of `document_drafting/test_template_action_flow.py`: reading
 * the atomic template list, choosing the template to draft from, and
 * looking for an agentic-search tool call in the matter's traces.
 */
module TemplateAction {
  import opened Json
  import opened Text
  import opened Utils

  /**
   * `_extract_templates`: the dict templates of the unwrapped data when it
   * is a dict with a `templates` list, else of the raw payload when that is,
   * else none.
   */
  function ExtractTemplates(payload: Json): (r: seq<Json>)
    ensures forall t :: t in r ==> t.Obj?
    ensures var data := UnwrapApiResponse(payload);
      data.Obj? && Get(data, "templates").List? ==> r == DictItemsAt(data, "templates")
    ensures var data := UnwrapApiResponse(payload);
      !(data.Obj? && Get(data, "templates").List?) && Get(payload, "templates").List? ==> r == DictItemsAt(payload, "templates")
    ensures !Get(UnwrapApiResponse(payload), "templates").List? && !Get(payload, "templates").List? ==> r == []
  {
    var data := UnwrapApiResponse(payload);
    if data.Obj? && Get(data, "templates").List? then Dicts(Get(data, "templates").items)
    else if payload.Obj? && Get(payload, "templates").List? then Dicts(Get(payload, "templates").items)
    else []
  }

  /** An envelope whose `data` has no template list falls back to a `templates` list beside it. */
  lemma EnvelopeFallsBack(c: Json, d: Json, ts: seq<Json>)
    requires !Get(d, "templates").List?
    ensures ExtractTemplates(Obj([Field("code", c), Field("data", d), Field("templates", List(ts))])) == Dicts(ts)
  {
    var payload := Obj([Field("code", c), Field("data", d), Field("templates", List(ts))]);
    UnwrapEnvelope(c, d, [Field("templates", List(ts))]);
    assert [Field("code", c), Field("data", d)] + [Field("templates", List(ts))] == payload.fields;
    var fs := payload.fields;
    GetTail(fs, "templates");
    GetTail(fs[1..], "templates");
    assert fs[1..][1..] == [Field("templates", List(ts))];
    assert Get(payload, "templates") == List(ts);
  }

  /** `_out_key`: the cleaned `outputKey`, falling back to `output_key`. */
  function OutKey(t: Json): string
  {
    Aliased(t, "outputKey", "output_key")
  }

  /** `_name`: the cleaned `name`. */
  function Name(t: Json): string
  {
    Clean(Get(t, "name"))
  }

  const ComplaintKey: string := "civil_complaint"
  const ComplaintTitle: string := "起诉状"

  predicate IsComplaint(t: Json) { OutKey(t) == ComplaintKey }
  predicate NamedComplaint(t: Json) { Contains(Name(t), ComplaintTitle) }
  predicate HasOutKey(t: Json) { OutKey(t) != "" }

  /**
   * `_pick_template`: the first template whose output key is
   * `civil_complaint`; failing that, the first whose name contains
   * `起诉状`; failing that, the first with any output key; else
   * AssertionError.
   */
  function PickTemplate(templates: seq<Json>): (r: Result<Json>)
    ensures r.Ok? ==> r.value in templates
    ensures (exists t :: t in templates && IsComplaint(t)) ==> r.Ok? && IsComplaint(r.value)
    ensures (forall t :: t in templates ==> !IsComplaint(t)) && (exists t :: t in templates && NamedComplaint(t)) ==>
      r.Ok? && NamedComplaint(r.value)
    ensures (forall t :: t in templates ==> !IsComplaint(t) && !NamedComplaint(t)) ==>
      (r.Ok? <==> exists t :: t in templates && HasOutKey(t))
    ensures r.Ok? ==> HasOutKey(r.value) || NamedComplaint(r.value)
    ensures r.Err? ==> r.error == AssertionError
  {
    var i := FirstWhere(templates, IsComplaint);
    if i < |templates| then Ok(templates[i])
    else
      var j := FirstWhere(templates, NamedComplaint);
      if j < |templates| then Ok(templates[j])
      else
        var k := FirstWhere(templates, HasOutKey);
        if k < |templates| then Ok(templates[k]) else Err(AssertionError)
  }

  /** `ts[i]` is the first template satisfying `p`. */
  predicate FirstOf(ts: seq<Json>, i: int, p: Json -> bool)
  {
    0 <= i < |ts| && p(ts[i]) && forall j :: 0 <= j < i ==> !p(ts[j])
  }

  /** No template satisfies `p`. */
  predicate NoneOf(ts: seq<Json>, p: Json -> bool)
  {
    forall t :: t in ts ==> !p(t)
  }

  /** `FirstWhere` finds the first template satisfying `p`. */
  lemma FirstOfIsFirstWhere(ts: seq<Json>, i: int, p: Json -> bool)
    requires FirstOf(ts, i, p)
    ensures FirstWhere(ts, p) == i
  {
  }

  /** `FirstWhere` runs off the end when no template satisfies `p`. */
  lemma NoneOfFirstWhere(ts: seq<Json>, p: Json -> bool)
    requires NoneOf(ts, p)
    ensures FirstWhere(ts, p) == |ts|
  {
  }

  /** Within the tier that decides, the pick is the first template of that tier in list order. */
  lemma PickFirstOfTier(templates: seq<Json>)
    ensures forall i :: FirstOf(templates, i, IsComplaint) ==> PickTemplate(templates) == Ok(templates[i])
    ensures NoneOf(templates, IsComplaint) ==>
      forall i :: FirstOf(templates, i, NamedComplaint) ==> PickTemplate(templates) == Ok(templates[i])
    ensures NoneOf(templates, IsComplaint) && NoneOf(templates, NamedComplaint) ==>
      forall i :: FirstOf(templates, i, HasOutKey) ==> PickTemplate(templates) == Ok(templates[i])
  {
    forall i | FirstOf(templates, i, IsComplaint)
      ensures PickTemplate(templates) == Ok(templates[i])
    {
      FirstOfIsFirstWhere(templates, i, IsComplaint);
    }
    if NoneOf(templates, IsComplaint) {
      NoneOfFirstWhere(templates, IsComplaint);
      forall i | FirstOf(templates, i, NamedComplaint)
        ensures PickTemplate(templates) == Ok(templates[i])
      {
        FirstOfIsFirstWhere(templates, i, NamedComplaint);
      }
      if NoneOf(templates, NamedComplaint) {
        NoneOfFirstWhere(templates, NamedComplaint);
        forall i | FirstOf(templates, i, HasOutKey)
          ensures PickTemplate(templates) == Ok(templates[i])
        {
          FirstOfIsFirstWhere(templates, i, HasOutKey);
        }
      }
    }
  }

  /** The priority is by kind before position: a complaint template listed last still beats a named one listed first. */
  lemma ComplaintKeyBeatsName(named: Json, others: seq<Json>, complaint: Json)
    requires NamedComplaint(named) && IsComplaint(complaint)
    ensures PickTemplate([named] + others + [complaint]).Ok?
    ensures IsComplaint(PickTemplate([named] + others + [complaint]).value)
  {
    assert complaint in [named] + others + [complaint];
  }

  /** The lower-cased cleaned name of a tool call holds `agentic_search` or `agentic-search`. */
  predicate IsAgenticCall(c: Json)
  {
    var name := Lower(Clean(Get(c, "name")));
    Contains(name, "agentic_search") || Contains(name, "agentic-search")
  }

  /**
   * What `for c in t.get("tool_calls") or []` walks over: the list, or
   * nothing for a falsy value; a string or a dict is walked too but yields
   * no dict; a truthy number or `True` cannot be iterated.
   */
  function CallsOf(t: Json): (r: Result<seq<Json>>)
    ensures r.Err? <==> Truthy(Get(t, "tool_calls")) && (Get(t, "tool_calls").Int? || Get(t, "tool_calls").Bool?)
    ensures r.Err? ==> r.error == TypeError
    ensures r.Ok? ==> r.value == DictItemsAt(t, "tool_calls")
  {
    var v := Or(Get(t, "tool_calls"), List([]));
    match v
    case List(xs) => Ok(Dicts(xs))
    case Str(_) => Ok([])
    case Obj(_) => Ok([])
    case _ => Err(TypeError)
  }

  /** Some dict call of the list is an agentic-search call. */
  predicate AnyAgentic(calls: seq<Json>)
  {
    exists c :: c in calls && IsAgenticCall(c)
  }

  /**
   * `_has_agentic_search`: true at the first dict trace holding an
   * agentic-search call; a trace before it whose `tool_calls` cannot be
   * iterated raises TypeError; false when no trace has one.
   */
  function HasAgenticSearch(traces: seq<Json>): (r: Result<bool>)
    ensures r == Ok(true) ==> exists t :: t in traces && t.Obj? && AnyAgentic(DictItemsAt(t, "tool_calls"))
    ensures r == Ok(false) ==> forall t :: t in traces && t.Obj? ==> !AnyAgentic(DictItemsAt(t, "tool_calls"))
    ensures r.Err? ==> r.error == TypeError && exists t :: t in traces && t.Obj? && CallsOf(t).Err?
    ensures (forall t :: t in traces && t.Obj? ==> CallsOf(t).Ok?) ==> r.Ok?
  {
    if traces == [] then Ok(false)
    else
      var t := traces[0];
      assert forall u :: u in traces <==> u == t || u in traces[1..];
      if !t.Obj? then HasAgenticSearch(traces[1..])
      else
        match CallsOf(t)
        case Err(e) => Err(e)
        case Ok(calls) =>
          if AnyAgentic(calls) then Ok(true) else HasAgenticSearch(traces[1..])
  }

  /** The scan stops at the first agentic-search call: a malformed trace after it is never read. */
  lemma EarlyAgenticWins(t: Json, c: Json, rest: seq<Json>)
    requires t.Obj? && Get(t, "tool_calls") == List([c]) && c.Obj? && IsAgenticCall(c)
    ensures HasAgenticSearch([t] + rest) == Ok(true)
  {
    assert ([t] + rest)[0] == t;
    assert c in DictItemsAt(t, "tool_calls");
  }
}
