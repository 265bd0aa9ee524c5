/**
 * The SSE helpers of the workbench tests (`_support/sse.py`). A stream call
 * returns `{"events": [...], "output": ...}`; the helpers filter its events by
 * type and check the shape a workbench UI relies on, passing or raising
 * AssertionError.
 */
module Sse {
  import opened Json
  import opened Text
  import ApiClient

  /** `_events`: the dict items of `sse["events"]` when that is a list. */
  function Events(sse: Json): (r: seq<Json>)
    ensures forall e :: e in r ==> e.Obj?
  {
    DictItemsAt(sse, "events")
  }

  /** The type tags of `event_types`: the `event` values that are non-empty strings, in order. */
  function TypesOf(es: seq<Json>): (r: seq<string>)
    ensures |r| <= |es|
    ensures forall t :: t in r ==> t != ""
  {
    if es == [] then []
    else
      var t := Get(es[0], "event");
      (if t.Str? && t.s != "" then [t.s] else []) + TypesOf(es[1..])
  }

  /** A tag is listed exactly when some event carries it. */
  lemma {:induction false} TypesOfMember(es: seq<Json>, t: string)
    ensures t in TypesOf(es) <==> t != "" && exists i :: 0 <= i < |es| && Get(es[i], "event") == Str(t)
  {
    if es != [] {
      TypesOfMember(es[1..], t);
      if t in TypesOf(es[1..]) {
        var i :| 0 <= i < |es[1..]| && Get(es[1..][i], "event") == Str(t);
        assert Get(es[i + 1], "event") == Str(t);
      }
      if t != "" && exists i :: 0 <= i < |es| && Get(es[i], "event") == Str(t) {
        var i :| 0 <= i < |es| && Get(es[i], "event") == Str(t);
        if i > 0 {
          assert Get(es[1..][i - 1], "event") == Str(t);
        }
      }
    }
  }

  function EventTypes(sse: Json): seq<string>
  {
    TypesOf(Events(sse))
  }

  /** What `events_of_type` appends for one event: its data when a dict, else `{"data": data}`. */
  function Wrap(data: Json): (r: Json)
    ensures r.Obj?
    ensures data.Obj? ==> r == data
    ensures !data.Obj? ==> Get(r, "data") == data && !Has(r, "partial")
  {
    if data.Obj? then data else Obj([Field("data", data)])
  }

  predicate OfKind(e: Json, want: string)
  {
    Get(e, "event") == Str(want)
  }

  /** The loop of `events_of_type` for a non-blank wanted type. */
  function OfType(es: seq<Json>, want: string): (r: seq<Json>)
    ensures |r| <= |es|
    ensures forall x :: x in r ==> x.Obj?
  {
    if es == [] then []
    else (if OfKind(es[0], want) then [Wrap(Get(es[0], "data"))] else []) + OfType(es[1..], want)
  }

  /** Arrival order is kept: filtering a concatenation concatenates the filtered parts. */
  lemma {:induction false} OfTypeAppend(a: seq<Json>, b: seq<Json>, want: string)
    ensures OfType(a + b, want) == OfType(a, want) + OfType(b, want)
  {
    if a == [] {
      assert a + b == b;
    } else {
      assert (a + b)[1..] == a[1..] + b;
      OfTypeAppend(a[1..], b, want);
    }
  }

  /** An item is in the result exactly when it is the wrapped data of an event of the wanted type. */
  lemma {:induction false} OfTypeMember(es: seq<Json>, want: string, x: Json)
    ensures x in OfType(es, want) <==> exists i :: 0 <= i < |es| && OfKind(es[i], want) && x == Wrap(Get(es[i], "data"))
  {
    if es != [] {
      OfTypeMember(es[1..], want, x);
      if x in OfType(es[1..], want) {
        var i :| 0 <= i < |es[1..]| && OfKind(es[1..][i], want) && x == Wrap(Get(es[1..][i], "data"));
        assert es[i + 1] == es[1..][i];
      }
      if exists i :: 0 <= i < |es| && OfKind(es[i], want) && x == Wrap(Get(es[i], "data")) {
        var i :| 0 <= i < |es| && OfKind(es[i], want) && x == Wrap(Get(es[i], "data"));
        if i > 0 {
          assert es[1..][i - 1] == es[i];
        }
      }
    }
  }

  /** Some event has the wanted type exactly when the filtered list is not empty. */
  lemma OfTypeNonEmpty(es: seq<Json>, want: string)
    ensures OfType(es, want) != [] <==> exists i :: 0 <= i < |es| && OfKind(es[i], want)
  {
    if OfType(es, want) != [] {
      OfTypeMember(es, want, OfType(es, want)[0]);
    }
    if exists i :: 0 <= i < |es| && OfKind(es[i], want) {
      var i :| 0 <= i < |es| && OfKind(es[i], want);
      OfTypeMember(es, want, Wrap(Get(es[i], "data")));
    }
  }

  /** `events_of_type(sse, event)`: nothing for a blank type, else the wrapped data of that type in arrival order. */
  function EventsOfType(sse: Json, event: string): (r: seq<Json>)
    ensures IsBlank(event) ==> r == []
    ensures !IsBlank(event) ==> r == OfType(Events(sse), Strip(event))
  {
    StripEmpty(event);
    var want := Strip(event);
    if want == "" then [] else OfType(Events(sse), want)
  }

  /** The wanted types the helpers use are their own stripped form. */
  lemma PlainType(event: string)
    requires event != [] && !IsSpace(event[0]) && !IsSpace(event[|event| - 1])
    ensures !IsBlank(event) && Strip(event) == event
  {
    StripOfUnspaced(event);
  }

  /** The last non-empty dict of a list, scanning from the end. */
  function LastNonEmpty(xs: seq<Json>): (r: Option<Json>)
  {
    if xs == [] then None
    else if NonEmptyDict(xs[|xs| - 1]) then Some(xs[|xs| - 1])
    else LastNonEmpty(xs[..|xs| - 1])
  }

  /** `None` exactly when no item is a non-empty dict; otherwise the last such item. */
  lemma {:induction false} LastNonEmptySpec(xs: seq<Json>)
    ensures LastNonEmpty(xs).None? <==> forall i :: 0 <= i < |xs| ==> !NonEmptyDict(xs[i])
    ensures LastNonEmpty(xs).Some? ==>
      exists i :: 0 <= i < |xs| && xs[i] == LastNonEmpty(xs).value && NonEmptyDict(xs[i]) && forall j :: i < j < |xs| ==> !NonEmptyDict(xs[j])
  {
    if xs != [] && !NonEmptyDict(xs[|xs| - 1]) {
      var init := xs[..|xs| - 1];
      LastNonEmptySpec(init);
      if LastNonEmpty(init).Some? {
        var i :| 0 <= i < |init| && init[i] == LastNonEmpty(init).value
          && NonEmptyDict(init[i]) && forall j :: i < j < |init| ==> !NonEmptyDict(init[j]);
        assert xs[i] == init[i];
        assert forall j :: i < j < |xs| ==> !NonEmptyDict(xs[j]) by {
          forall j | i < j < |xs| ensures !NonEmptyDict(xs[j]) {
            if j < |xs| - 1 {
              assert xs[j] == init[j];
            }
          }
        }
      } else {
        assert forall i :: 0 <= i < |xs| - 1 ==> xs[i] == init[i];
      }
    }
  }

  /** `last_event_data`: the data of the last event of a type that is a non-empty dict, or None. */
  function LastEventData(sse: Json, event: string): Option<Json>
  {
    LastNonEmpty(EventsOfType(sse, event))
  }

  /** `extract_output`: `str(sse.get("output") or "")`. */
  function ExtractOutput(sse: Json): string
  {
    if sse.Obj? then StrOr(Get(sse, "output")) else ""
  }

  /** `extract_last_card` */
  function ExtractLastCard(sse: Json): Option<Json>
  {
    LastEventData(sse, "card")
  }

  /** `e.get("partial") is True` */
  predicate IsPartial(e: Json)
  {
    Get(e, "partial") == Bool(true)
  }

  /** The event `_post_sse` records for a stream cut mid-way: an `error` event whose dict data has `partial` True. */
  predicate PartialErrorEvent(e: Json)
  {
    OfKind(e, "error") && Get(e, "data").Obj? && IsPartial(Get(e, "data"))
  }

  /** `_has_partial_stream_error` */
  predicate HasPartialStreamError(sse: Json)
  {
    exists e :: e in EventsOfType(sse, "error") && IsPartial(e)
  }

  /** True exactly when some event of the stream is a partial error event; non-dict data never counts. */
  lemma PartialStreamErrorIff(sse: Json)
    ensures HasPartialStreamError(sse) <==> exists i :: 0 <= i < |Events(sse)| && PartialErrorEvent(Events(sse)[i])
  {
    var es := Events(sse);
    PlainType("error");
    if HasPartialStreamError(sse) {
      var e :| e in OfType(es, "error") && IsPartial(e);
      OfTypeMember(es, "error", e);
      var i :| 0 <= i < |es| && OfKind(es[i], "error") && e == Wrap(Get(es[i], "data"));
      assert PartialErrorEvent(es[i]);
    }
    if exists i :: 0 <= i < |es| && PartialErrorEvent(es[i]) {
      var i :| 0 <= i < |es| && PartialErrorEvent(es[i]);
      OfTypeMember(es, "error", Get(es[i], "data"));
    }
  }

  /** `str((it or {}).get("node") or "").strip()` */
  function Node(it: Json): string
  {
    Clean(Get(it, "node"))
  }

  function TaskStarts(sse: Json): seq<Json>
  {
    EventsOfType(sse, "task_start")
  }

  function TaskEnds(sse: Json): seq<Json>
  {
    EventsOfType(sse, "task_end")
  }

  predicate Named(it: Json)
  {
    Node(it) != ""
  }

  /** A `run_skill` start must carry a non-blank `skill_id`. */
  predicate SkillEnriched(it: Json)
  {
    Node(it) == "run_skill" ==> Clean(Get(it, "skill_id")) != ""
  }

  /**
   * The contract `validate_task_events` enforces: every start and end names a
   * node, every end names a started node when anything started (in whatever
   * order), and `run_skill` starts carry a skill id.
   */
  predicate TaskEventsValid(starts: seq<Json>, ends: seq<Json>)
  {
    && (forall i :: 0 <= i < |starts| ==> Named(starts[i]))
    && (forall i :: 0 <= i < |ends| ==> Named(ends[i]))
    && (starts != [] ==> forall i :: 0 <= i < |ends| ==> exists j :: 0 <= j < |starts| && Node(starts[j]) == Node(ends[i]))
    && (forall i :: 0 <= i < |starts| ==> SkillEnriched(starts[i]))
  }

  /** The end loop's test: a named node that was started, unless nothing was. */
  predicate EndMatched(started: set<string>, it: Json)
  {
    Named(it) && (started == {} || Node(it) in started)
  }

  /** The loops of `validate_task_events`: starts, then ends against the started set, then `run_skill` starts. */
  function ValidateTasks(starts: seq<Json>, ends: seq<Json>): (r: Check)
    ensures r.Fail? ==> r.error == AssertionError
  {
    var started := set i | 0 <= i < |starts| :: Node(starts[i]);
    Then(CheckEach(starts, Named), Then(CheckEach(ends, it => EndMatched(started, it)), CheckEach(starts, SkillEnriched)))
  }

  /** The started set is empty exactly when nothing started, and holds exactly the nodes of the starts. */
  lemma StartedNodes(starts: seq<Json>, n: string)
    ensures var started := set i | 0 <= i < |starts| :: Node(starts[i]);
      && (started == {} <==> starts == [])
      && (n in started <==> exists j :: 0 <= j < |starts| && Node(starts[j]) == n)
  {
    var started := set i | 0 <= i < |starts| :: Node(starts[i]);
    if starts != [] {
      assert Node(starts[0]) in started;
    }
  }

  /** The end loop passes exactly when every end names a node that started, or nothing started. */
  lemma EndLoopSpec(starts: seq<Json>, ends: seq<Json>)
    ensures var started := set i | 0 <= i < |starts| :: Node(starts[i]);
      CheckEach(ends, it => EndMatched(started, it)).Pass? <==>
        (forall i :: 0 <= i < |ends| ==> Named(ends[i]))
        && (starts != [] ==> forall i :: 0 <= i < |ends| ==> exists j :: 0 <= j < |starts| && Node(starts[j]) == Node(ends[i]))
  {
    var started := set i | 0 <= i < |starts| :: Node(starts[i]);
    StartedNodes(starts, "");
    forall i | 0 <= i < |ends|
      ensures EndMatched(started, ends[i]) <==> Named(ends[i]) && (starts != [] ==> exists j :: 0 <= j < |starts| && Node(starts[j]) == Node(ends[i]))
    {
      StartedNodes(starts, Node(ends[i]));
    }
  }

  /** The loops raise exactly when the contract is broken. */
  lemma ValidateTasksSpec(starts: seq<Json>, ends: seq<Json>)
    ensures ValidateTasks(starts, ends).Pass? <==> TaskEventsValid(starts, ends)
  {
    EndLoopSpec(starts, ends);
  }

  /** `validate_task_events` */
  function ValidateTaskEvents(sse: Json): (r: Check)
    ensures r.Fail? ==> r.error == AssertionError
  {
    ValidateTasks(TaskStarts(sse), TaskEnds(sse))
  }

  /** An end that arrives before its start is accepted: only membership is checked. */
  lemma EndBeforeStartAccepted(node: string)
    requires node != [] && !IsSpace(node[0]) && !IsSpace(node[|node| - 1]) && node != "run_skill"
    ensures var end := Obj([Field("event", Str("task_end")), Field("data", Obj([Field("node", Str(node))]))]);
      var start := Obj([Field("event", Str("task_start")), Field("data", Obj([Field("node", Str(node))]))]);
      ValidateTaskEvents(Obj([Field("events", List([end, start]))])) == Pass
  {
    var data := Obj([Field("node", Str(node))]);
    EndThenStartEvents(data, data);
    StripOfUnspaced(node);
    assert Node(data) == node;
    SameNodeAccepted(data);
  }

  /** One start and one end of the same named node, not `run_skill`, pass validation. */
  lemma SameNodeAccepted(d: Json)
    requires Named(d) && Node(d) != "run_skill"
    ensures ValidateTasks([d], [d]) == Pass
  {
    ValidateTasksSpec([d], [d]);
    assert [d][0] == d;
  }

  /** A stream of a `task_end` event and then a `task_start` event starts the start's data and ends the end's data. */
  lemma EndThenStartEvents(endData: Json, startData: Json)
    ensures var end := Obj([Field("event", Str("task_end")), Field("data", endData)]);
      var start := Obj([Field("event", Str("task_start")), Field("data", startData)]);
      var sse := Obj([Field("events", List([end, start]))]);
      TaskStarts(sse) == [Wrap(startData)] && TaskEnds(sse) == [Wrap(endData)]
  {
    var end := Obj([Field("event", Str("task_end")), Field("data", endData)]);
    var start := Obj([Field("event", Str("task_start")), Field("data", startData)]);
    TaskEventsOfStream([end, start]);
    OfTypeOfPair("task_end", endData, "task_start", startData);
  }

  /** Filtering two events of different types by either type keeps exactly that event's wrapped data. */
  lemma OfTypeOfPair(ta: string, da: Json, tb: string, db: Json)
    requires ta != tb
    ensures var a := Obj([Field("event", Str(ta)), Field("data", da)]);
      var b := Obj([Field("event", Str(tb)), Field("data", db)]);
      OfType([a, b], ta) == [Wrap(da)] && OfType([a, b], tb) == [Wrap(db)]
  {
    var a := Obj([Field("event", Str(ta)), Field("data", da)]);
    var b := Obj([Field("event", Str(tb)), Field("data", db)]);
    PairGet("event", Str(ta), "data", da);
    PairGet("event", Str(tb), "data", db);
    assert [a, b] == [a] + [b];
    OfTypeAppend([a], [b], ta);
    OfTypeAppend([a], [b], tb);
    OfTypeOne(a, ta);
    OfTypeOne(b, ta);
    OfTypeOne(a, tb);
    OfTypeOne(b, tb);
  }

  /** Filtering a single event keeps its wrapped data exactly when it has the wanted type. */
  lemma OfTypeOne(e: Json, want: string)
    ensures OfType([e], want) == if OfKind(e, want) then [Wrap(Get(e, "data"))] else []
  {
    assert [e][1..] == [];
  }

  /** The starts and ends are the events of those two types. */
  lemma TaskKinds(sse: Json)
    ensures TaskStarts(sse) == OfType(Events(sse), "task_start")
    ensures TaskEnds(sse) == OfType(Events(sse), "task_end")
  {
    PlainType("task_start");
    PlainType("task_end");
  }

  /** The starts and ends of a stream whose `events` list holds only dicts are those events of the two types, in arrival order. */
  lemma TaskEventsOfStream(es: seq<Json>)
    requires forall i :: 0 <= i < |es| ==> es[i].Obj?
    ensures TaskStarts(Obj([Field("events", List(es))])) == OfType(es, "task_start")
    ensures TaskEnds(Obj([Field("events", List(es))])) == OfType(es, "task_end")
  {
    EventsOfStream(es);
    TaskKinds(Obj([Field("events", List(es))]));
  }

  /** A stream whose `events` list holds only dicts has exactly those events, in order. */
  lemma EventsOfStream(es: seq<Json>)
    requires forall i :: 0 <= i < |es| ==> es[i].Obj?
    ensures Events(Obj([Field("events", List(es))])) == es
  {
    assert Get(Obj([Field("events", List(es))]), "events") == List(es);
    DictsOfDicts(es);
  }

  /** `assert_task_lifecycle`: enough starts, at least one end, then `validate_task_events`. */
  function AssertTaskLifecycle(sse: Json, minStarts: int): (r: Check)
    ensures r.Pass? <==> |TaskStarts(sse)| >= minStarts && TaskEnds(sse) != [] && TaskEventsValid(TaskStarts(sse), TaskEnds(sse))
    ensures r.Fail? ==> r.error == AssertionError
  {
    ValidateTasksSpec(TaskStarts(sse), TaskEnds(sse));
    if |TaskStarts(sse)| < minStarts then Fail(AssertionError)
    else if TaskEnds(sse) == [] then Fail(AssertionError)
    else ValidateTaskEvents(sse)
  }

  /** The errors `assert_no_error` reports: those not marked partial, in order. */
  function NonPartial(xs: seq<Json>): (r: seq<Json>)
    ensures r == [] <==> forall i :: 0 <= i < |xs| ==> IsPartial(xs[i])
  {
    if xs == [] then []
    else (if IsPartial(xs[0]) then [] else [xs[0]]) + NonPartial(xs[1..])
  }

  /** `assert_no_error` */
  function AssertNoError(sse: Json): (r: Check)
    ensures r.Fail? ==> r.error == AssertionError
  {
    if NonPartial(EventsOfType(sse, "error")) != [] then Fail(AssertionError) else Pass
  }

  /** It fails exactly when some `error` event of the stream is not a partial error event. */
  lemma NoErrorIff(sse: Json)
    ensures AssertNoError(sse).Fail? <==> exists i :: 0 <= i < |Events(sse)| && OfKind(Events(sse)[i], "error") && !PartialErrorEvent(Events(sse)[i])
  {
    PlainType("error");
    var errs := OfType(Events(sse), "error");
    if AssertNoError(sse).Fail? {
      assert NonPartial(errs) != [];
      var k :| 0 <= k < |errs| && !IsPartial(errs[k]);
      FatalErrorEvent(Events(sse), errs[k]);
    }
    if exists i :: 0 <= i < |Events(sse)| && OfKind(Events(sse)[i], "error") && !PartialErrorEvent(Events(sse)[i]) {
      var i :| 0 <= i < |Events(sse)| && OfKind(Events(sse)[i], "error") && !PartialErrorEvent(Events(sse)[i]);
      FatalErrorReported(Events(sse), i);
    }
  }

  /** A reported error comes from an `error` event that is not a partial error event. */
  lemma FatalErrorEvent(es: seq<Json>, e: Json)
    requires e in OfType(es, "error") && !IsPartial(e)
    ensures exists i :: 0 <= i < |es| && OfKind(es[i], "error") && !PartialErrorEvent(es[i])
  {
    OfTypeMember(es, "error", e);
    var i :| 0 <= i < |es| && OfKind(es[i], "error") && e == Wrap(Get(es[i], "data"));
    assert !PartialErrorEvent(es[i]);
  }

  /** An `error` event that is not a partial error event is reported. */
  lemma FatalErrorReported(es: seq<Json>, i: nat)
    requires i < |es| && OfKind(es[i], "error") && !PartialErrorEvent(es[i])
    ensures NonPartial(OfType(es, "error")) != []
  {
    var errs := OfType(es, "error");
    var x := Wrap(Get(es[i], "data"));
    OfTypeMember(es, "error", x);
    var k :| 0 <= k < |errs| && errs[k] == x;
    assert !IsPartial(errs[k]);
  }

  /** An event that tells a stream is over: `end`, `complete`, or a partial error. */
  predicate EndSignal(e: Json)
  {
    OfKind(e, "end") || OfKind(e, "complete") || PartialErrorEvent(e)
  }

  /** `assert_has_end` */
  function AssertHasEnd(sse: Json): (r: Check)
    ensures r.Fail? ==> r.error == AssertionError
  {
    if EventsOfType(sse, "end") != [] || EventsOfType(sse, "complete") != [] || HasPartialStreamError(sse) then Pass
    else Fail(AssertionError)
  }

  /** It passes exactly when some event is `end`, `complete` or a partial error. */
  lemma HasEndIff(sse: Json)
    ensures AssertHasEnd(sse).Pass? <==> (exists i :: 0 <= i < |Events(sse)| && EndSignal(Events(sse)[i]))
  {
    var es := Events(sse);
    PlainType("end");
    PlainType("complete");
    OfTypeNonEmpty(es, "end");
    OfTypeNonEmpty(es, "complete");
    PartialStreamErrorIff(sse);
  }

  /** The event `_post_sse` appends to a cut stream is a partial error event. */
  lemma PartialErrorSignalsEnd(message: string)
    ensures PartialErrorEvent(ApiClient.PartialError(message))
  {
    var e := ApiClient.PartialError(message);
    assert FieldIndex(e.fields, "event") == 0;
    assert FieldIndex(e.fields, "data") == 1;
    var d := Obj([Field("error", Str(message)), Field("partial", Bool(true))]);
    assert FieldIndex(d.fields, "partial") == 1;
  }

  /** A returned stream whose last event signals the end passes `assert_has_end`. */
  lemma LastSignalsEnd(events: seq<Json>)
    requires events != [] && EndSignal(events[|events| - 1])
    ensures AssertHasEnd(ApiClient.SseResult(events)).Pass?
  {
    var sse := ApiClient.SseResult(events);
    var last := events[|events| - 1];
    assert Get(sse, "events") == List(events);
    assert last in Events(sse);
    var i :| 0 <= i < |Events(sse)| && Events(sse)[i] == last;
    HasEndIff(sse);
  }

  /**
   * A stream `_post_sse` returns passes `assert_has_end` whenever it stopped on
   * a terminal event or was cut: a cut leaves the partial error event last.
   */
  lemma EndedOrCutStreamHasEnd(lines: seq<string>, ending: ApiClient.Ending, parse: string -> Option<Json>)
    requires ending.Cut? || ApiClient.Decode(lines, 0, None, parse).stopped
    ensures var events := ApiClient.StreamEvents(lines, ending, parse);
      events.Some? && AssertHasEnd(ApiClient.SseResult(events.value)).Pass?
  {
    var events := ApiClient.StreamEvents(lines, ending, parse).value;
    var d := ApiClient.Decode(lines, 0, None, parse);
    ApiClient.DecodeStops(lines, 0, None, parse);
    if d.stopped {
      assert events == d.events;
    } else {
      assert events == d.events + [ApiClient.PartialError(ending.message)];
      PartialErrorSignalsEnd(ending.message);
    }
    LastSignalsEnd(events);
  }

  /** Whether some progress message contains the fragment. */
  function AnyMessageContains(ps: seq<Json>, msg: string): (r: bool)
    ensures r <==> exists i :: 0 <= i < |ps| && Contains(StrOr(Get(ps[i], "message")), msg)
  {
    if ps == [] then false
    else Contains(StrOr(Get(ps[0], "message")), msg) || AnyMessageContains(ps[1..], msg)
  }

  /**
   * `assert_has_progress`: at least one progress event and, when a non-blank
   * fragment is asked for, one whose message contains it.
   */
  function AssertHasProgress(sse: Json, messageContains: Option<string>): (r: Check)
    ensures r.Pass? <==> (EventsOfType(sse, "progress") != []
      && (messageContains.Some? && Strip(messageContains.value) != "" ==>
        exists i :: 0 <= i < |EventsOfType(sse, "progress")| && Contains(StrOr(Get(EventsOfType(sse, "progress")[i], "message")), Strip(messageContains.value))))
    ensures r.Fail? ==> r.error == AssertionError
  {
    var msg := if messageContains.Some? then Some(Strip(messageContains.value)) else None;
    var ps := EventsOfType(sse, "progress");
    if ps == [] then Fail(AssertionError)
    else if msg.Some? && msg.value != "" then
      (if AnyMessageContains(ps, msg.value) then Pass else Fail(AssertionError))
    else Pass
  }

  /** The fragments of `output_must_contain` missing from the output: stripped, blanks skipped, in order. */
  function Missing(out: string, xs: seq<string>): (r: seq<string>)
    ensures forall s :: s in r ==> s != "" && !Contains(out, s)
    ensures r == [] <==> forall i :: 0 <= i < |xs| ==> Strip(xs[i]) == "" || Contains(out, Strip(xs[i]))
  {
    if xs == [] then []
    else
      var s := Strip(xs[0]);
      (if s != "" && !Contains(out, s) then [s] else []) + Missing(out, xs[1..])
  }

  /**
   * `assert_visible_response`: no fatal error, an end, progress and valid task
   * events; then something to show (output text or a pending card), and every
   * non-blank wanted fragment in the output.
   */
  function AssertVisibleResponse(sse: Json, outputMustContain: seq<string>): (r: Check)
    ensures r.Pass? <==> (AssertNoError(sse).Pass? && AssertHasEnd(sse).Pass? && AssertHasProgress(sse, None).Pass?
      && ValidateTaskEvents(sse).Pass?
      && (Strip(ExtractOutput(sse)) != "" || ExtractLastCard(sse).Some?)
      && forall i :: 0 <= i < |outputMustContain| ==> Strip(outputMustContain[i]) == "" || Contains(Strip(ExtractOutput(sse)), Strip(outputMustContain[i])))
    ensures r.Fail? ==> r.error == AssertionError
  {
    var pre := Then(AssertNoError(sse), Then(AssertHasEnd(sse), Then(AssertHasProgress(sse, None), ValidateTaskEvents(sse))));
    if pre.Fail? then pre
    else
      var out := Strip(ExtractOutput(sse));
      var card := ExtractLastCard(sse);
      if out == "" && card.None? then Fail(AssertionError)
      else if Missing(out, outputMustContain) != [] then Fail(AssertionError)
      else Pass
  }
}
