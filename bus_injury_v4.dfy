/**
 * The Layer-A runner of the bus-injury scenario (`scripts/run_bus_injury_v4_e2e.py`):
 * its `data` unwrapper, the line finder of the contract-marker scan, the
 * per-event tally of a turn, the step log and the exit code, its own card
 * auto-answerer, and the bounded loop that consumes pending cards.
 */
module BusInjuryV4 {
  import opened Json
  import opened Text
  import opened Cards
  import Utils

  // ---------------------------------------------------------------------
  // `unwrap`

  /** `unwrap`: a dict with a `data` key gives that value; anything else is returned as it is. */
  function Unwrap(payload: Json): (r: Json)
    ensures Has(payload, "data") ==> r == Get(payload, "data")
    ensures !Has(payload, "data") ==> r == payload
  {
    if payload.Obj? && Has(payload, "data") then Get(payload, "data") else payload
  }

  /**
   * Unlike the support library's `unwrap_api_response`, this unwrapper keys on
   * `data` rather than `code`: a bare `{"data": d}` is unwrapped, and an
   * envelope `{"code": c}` without data is kept.
   */
  lemma UnwrapKeysOnData(c: Json, d: Json)
    ensures Unwrap(Obj([Field("data", d)])) == d
    ensures Utils.UnwrapApiResponse(Obj([Field("data", d)])) == Obj([Field("data", d)])
    ensures Unwrap(Obj([Field("code", c)])) == Obj([Field("code", c)])
    ensures Utils.UnwrapApiResponse(Obj([Field("code", c)])) == Null
  {
    assert FieldIndex([Field("data", d)], "data") == 0;
    assert FieldIndex([Field("code", c)], "data") == 1;
    assert FieldIndex([Field("code", c)], "code") == 0;
    assert FieldIndex([Field("data", d)], "code") == 1;
  }

  // ---------------------------------------------------------------------
  // `first_line`

  /** The number of newline characters in `s`. */
  function Newlines(s: string): nat
  {
    if s == [] then 0 else (if s[0] == '\n' then 1 else 0) + Newlines(s[1..])
  }

  lemma {:induction false} NewlinesAppend(a: string, b: string)
    ensures Newlines(a + b) == Newlines(a) + Newlines(b)
  {
    if a != [] {
      assert (a + b)[1..] == a[1..] + b;
      NewlinesAppend(a[1..], b);
    } else {
      assert a + b == b;
    }
  }

  lemma {:induction false} NoNewlines(s: string)
    requires '\n' !in s
    ensures Newlines(s) == 0
  {
    if s != [] {
      NoNewlines(s[1..]);
    }
  }

  /** `first_line`: the 1-based number of the line where `needle` first occurs, or None when it does not. */
  function FirstLine(text: string, needle: string): (r: Option<nat>)
    ensures r.None? <==> forall j :: 0 <= j <= |text| ==> !OccursAt(text, needle, j)
    ensures r.Some? ==> r.value >= 1
  {
    FindSpec(text, needle);
    match Find(text, needle)
    case None => None
    case Some(i) => Some(Newlines(text[..i]) + 1)
  }

  /** A needle without a newline that is not in `line` does not start anywhere in `line + "\n"`. */
  lemma NotInFirstLine(line: string, rest: string, needle: string, j: nat)
    requires needle != [] && '\n' !in needle
    requires forall j :: 0 <= j <= |line| ==> !OccursAt(line, needle, j)
    requires j <= |line|
    ensures !OccursAt(line + "\n" + rest, needle, j)
  {
    var text := line + "\n" + rest;
    if j + |needle| <= |line| {
      assert text[j..j + |needle|] == line[j..j + |needle|];
      assert !OccursAt(line, needle, j);
    } else if j + |needle| <= |text| {
      assert text[j..j + |needle|][|line| - j] == '\n';
    }
  }

  /** Past the first line, the needle occurs in the text where it occurs in `rest`. */
  lemma InRest(line: string, rest: string, needle: string, j: nat)
    requires j <= |rest|
    ensures OccursAt(line + "\n" + rest, needle, |line| + 1 + j) <==> OccursAt(rest, needle, j)
  {
    var text := line + "\n" + rest;
    var off := |line| + 1;
    if j + |needle| <= |rest| {
      assert text[off + j..off + j + |needle|] == rest[j..j + |needle|];
    }
  }

  /** A needle that is in neither part is not in the text. */
  lemma NextLineAbsent(line: string, rest: string, needle: string)
    requires needle != [] && '\n' !in needle
    requires forall j :: 0 <= j <= |line| ==> !OccursAt(line, needle, j)
    requires forall j :: 0 <= j <= |rest| ==> !OccursAt(rest, needle, j)
    ensures Find(line + "\n" + rest, needle).None?
  {
    var text := line + "\n" + rest;
    forall j | 0 <= j <= |text| ensures !OccursAt(text, needle, j) {
      AbsentAt(line, rest, needle, j);
    }
    FindNone(text, needle);
  }

  /** A needle that is in neither part starts nowhere in the text. */
  lemma AbsentAt(line: string, rest: string, needle: string, j: nat)
    requires needle != [] && '\n' !in needle
    requires forall j :: 0 <= j <= |line| ==> !OccursAt(line, needle, j)
    requires forall j :: 0 <= j <= |rest| ==> !OccursAt(rest, needle, j)
    requires j <= |line| + 1 + |rest|
    ensures !OccursAt(line + "\n" + rest, needle, j)
  {
    if j > |line| {
      InRest(line, rest, needle, j - |line| - 1);
    } else {
      NotInFirstLine(line, rest, needle, j);
    }
  }

  /** The first occurrence in `rest` is the first occurrence in the text, shifted past the first line. */
  lemma NextLinePresent(line: string, rest: string, needle: string, i: nat)
    requires needle != [] && '\n' !in needle
    requires forall j :: 0 <= j <= |line| ==> !OccursAt(line, needle, j)
    requires OccursAt(rest, needle, i)
    requires forall j :: 0 <= j < i ==> !OccursAt(rest, needle, j)
    ensures Find(line + "\n" + rest, needle) == Some(|line| + 1 + i)
  {
    var text := line + "\n" + rest;
    forall j | 0 <= j < |line| + 1 + i ensures !OccursAt(text, needle, j) {
      if j > |line| {
        InRest(line, rest, needle, j - |line| - 1);
      } else {
        NotInFirstLine(line, rest, needle, j);
      }
    }
    InRest(line, rest, needle, i);
    FindFirst(text, needle, |line| + 1 + i);
  }

  /**
   * A needle without a newline that does not occur in a first line occurs in
   * the text exactly where it occurs in the rest, one line further down.
   */
  lemma FirstLineNextLine(line: string, rest: string, needle: string)
    requires needle != [] && '\n' !in needle && '\n' !in line
    requires forall j :: 0 <= j <= |line| ==> !OccursAt(line, needle, j)
    ensures FirstLine(line + "\n" + rest, needle) == match FirstLine(rest, needle) case None => None case Some(k) => Some(k + 1)
  {
    FindSpec(rest, needle);
    match Find(rest, needle)
    case None =>
      NextLineAbsent(line, rest, needle);
    case Some(i) =>
      NextLinePresent(line, rest, needle, i);
      var text := line + "\n" + rest;
      assert text[..|line| + 1 + i] == (line + "\n") + rest[..i];
      NewlinesAppend(line + "\n", rest[..i]);
      NewlinesAppend(line, "\n");
      NoNewlines(line);
  }

  /** A needle that occurs before the first newline is reported on line 1. */
  lemma FirstLineOne(text: string, needle: string, i: nat)
    requires OccursAt(text, needle, i) && '\n' !in text[..i]
    requires forall j :: 0 <= j < i ==> !OccursAt(text, needle, j)
    ensures FirstLine(text, needle) == Some(1)
  {
    FindFirst(text, needle, i);
    NoNewlines(text[..i]);
  }

  // ---------------------------------------------------------------------
  // `event_counts`

  /** The tally key of an event: `str(row.get("event") or "")`. */
  function EventKey(row: Json): string
  {
    StrOr(Get(row, "event"))
  }

  /** How many events have the key `k`. */
  function Occurrences(events: seq<Json>, k: string): nat
  {
    if events == [] then 0
    else Occurrences(events[..|events| - 1], k) + (if EventKey(events[|events| - 1]) == k then 1 else 0)
  }

  /** A count as a number: an `int` value, or 0 for a key not counted yet. */
  function CountOf(v: Json): int
  {
    if v.Int? then v.i else 0
  }

  /** `counts[key] = counts.get(key, 0) + 1` */
  function Bump(counts: seq<Field>, key: string): seq<Field>
  {
    Put(counts, key, Int(CountOf(Get(Obj(counts), key)) + 1))
  }

  /** The tally after a prefix of the events, as the loop builds it. */
  function Tally(events: seq<Json>): seq<Field>
  {
    if events == [] then []
    else Bump(Tally(events[..|events| - 1]), EventKey(events[|events| - 1]))
  }

  /** A bump adds one to the count of its key and leaves every other key as it was. */
  lemma BumpGet(counts: seq<Field>, key: string, k: string)
    ensures Get(Obj(Bump(counts, key)), k) == if k == key then Int(CountOf(Get(Obj(counts), k)) + 1) else Get(Obj(counts), k)
  {
    var v := Int(CountOf(Get(Obj(counts), key)) + 1);
    assert Bump(counts, key) == Put(counts, key, v);
    PutGetAt(counts, key, v, k);
  }

  /** Each key reads back as its number of events, and a key no event has is absent. */
  lemma {:induction false} TallyGet(events: seq<Json>, k: string)
    ensures Get(Obj(Tally(events)), k) == if Occurrences(events, k) == 0 then Null else Int(Occurrences(events, k))
  {
    if events != [] {
      var init := events[..|events| - 1];
      var key := EventKey(events[|events| - 1]);
      var n := Occurrences(init, k);
      assert Occurrences(events, k) == n + (if key == k then 1 else 0);
      TallyGet(init, k);
      BumpGet(Tally(init), key, k);
    }
  }

  /** The sum of the counts of a tally. */
  function Total(fs: seq<Field>): int
  {
    if fs == [] then 0 else CountOf(fs[0].val) + Total(fs[1..])
  }

  /** Setting a key changes the total by the difference between the new and the old count. */
  lemma {:induction false} TotalPut(fs: seq<Field>, k: string, v: Json)
    ensures Total(Put(fs, k, v)) == Total(fs) - CountOf(Get(Obj(fs), k)) + CountOf(v)
  {
    if fs != [] {
      if fs[0].key == k {
        assert FieldIndex(fs, k) == 0;
        assert Put(fs, k, v)[1..] == fs[1..];
      } else {
        GetTail(fs, k);
        assert Put(fs, k, v)[1..] == Put(fs[1..], k, v);
        TotalPut(fs[1..], k, v);
      }
    }
  }

  /** A bump adds one to the total. */
  lemma TotalBump(counts: seq<Field>, key: string)
    ensures Total(Bump(counts, key)) == Total(counts) + 1
  {
    TotalPut(counts, key, Int(CountOf(Get(Obj(counts), key)) + 1));
  }

  /** The counts add up to the number of events. */
  lemma {:induction false} TallyTotal(events: seq<Json>)
    ensures Total(Tally(events)) == |events|
  {
    if events != [] {
      var init := events[..|events| - 1];
      var prev := Tally(init);
      var key := EventKey(events[|events| - 1]);
      TallyTotal(init);
      TotalBump(prev, key);
    }
  }

  /** `event_counts`: one pass over the events, counting each under its key. */
  method EventCounts(events: seq<Json>) returns (counts: seq<Field>)
    ensures counts == Tally(events)
  {
    counts := [];
    var i := 0;
    while i < |events|
      invariant 0 <= i <= |events|
      invariant counts == Tally(events[..i])
    {
      assert events[..i + 1][..i] == events[..i];
      counts := Bump(counts, EventKey(events[i]));
      i := i + 1;
    }
    assert events[..i] == events;
  }

  // ---------------------------------------------------------------------
  // Step log and exit code

  datatype StepResult = StepResult(step: string, title: string, status: string, details: string)

  /** Whether some step failed. */
  predicate AnyFail(results: seq<StepResult>)
  {
    results != [] && (results[0].status == "FAIL" || AnyFail(results[1..]))
  }

  /** The exit code of `run`: 1 when some step failed, else 0. */
  function ExitCode(results: seq<StepResult>): (r: int)
    ensures r == 1 <==> exists i :: 0 <= i < |results| && results[i].status == "FAIL"
    ensures r == 0 <==> forall i :: 0 <= i < |results| ==> results[i].status != "FAIL"
  {
    AnyFailIff(results);
    if AnyFail(results) then 1 else 0
  }

  lemma {:induction false} AnyFailIff(results: seq<StepResult>)
    ensures AnyFail(results) <==> exists i :: 0 <= i < |results| && results[i].status == "FAIL"
  {
    if results != [] {
      AnyFailIff(results[1..]);
      if AnyFail(results[1..]) {
        var i :| 0 <= i < |results[1..]| && results[1..][i].status == "FAIL";
        assert results[i + 1].status == "FAIL";
      }
      if exists i :: 0 <= i < |results| && results[i].status == "FAIL" {
        var i :| 0 <= i < |results| && results[i].status == "FAIL";
        if i > 0 {
          assert results[1..][i - 1].status == "FAIL";
        }
      }
    }
  }

  /** The record `append_step` adds: PASS exactly when `ok`. */
  function StepOf(step: string, title: string, ok: bool, details: string): (r: StepResult)
    ensures r.status == "PASS" <==> ok
    ensures r.status == "FAIL" <==> !ok
  {
    StepResult(step, title, if ok then "PASS" else "FAIL", details)
  }

  /** One more step fails the run exactly when it is not ok; otherwise the code is unchanged. */
  lemma ExitCodeSnoc(results: seq<StepResult>, step: string, title: string, ok: bool, details: string)
    ensures ExitCode(results + [StepOf(step, title, ok, details)]) == if ok then ExitCode(results) else 1
  {
    var all := results + [StepOf(step, title, ok, details)];
    if !ok {
      assert all[|results|].status == "FAIL";
    } else {
      assert forall i :: 0 <= i < |all| ==> (all[i].status == "FAIL" <==> i < |results| && results[i].status == "FAIL");
    }
  }

  /** The caller's list of step results, which `append_step` extends in place. */
  class StepLog {
    var results: seq<StepResult>

    constructor()
      ensures results == []
    {
      results := [];
    }

    /** `append_step` */
    method AppendStep(step: string, title: string, ok: bool, details: string)
      modifies this
      ensures results == old(results) + [StepOf(step, title, ok, details)]
      ensures ExitCode(results) == if ok then ExitCode(old(results)) else 1
    {
      ExitCodeSnoc(results, step, title, ok, details);
      results := results + [StepOf(step, title, ok, details)];
    }
  }

  // ---------------------------------------------------------------------
  // `auto_answer_card`

  /** The value this runner picks before its repair. */
  function V4Value(fk: string, it: string, req: bool, d: Json, opts: seq<Json>, uploaded: seq<string>): Json
  {
    if fk == "attachment_file_ids" then StrList(uploaded)
    else if IsSelectType(it) then (if d != Null then d else PickRecommendedOrFirst(List(opts)))
    else if IsMultiType(it) then
      if d.List? then d
      else
        var k := FirstRecommended(opts);
        if k < |opts| then List([Get(opts[k], "value")]) else List([])
    else if IsBoolType(it) then (if d != Null then Bool(Truthy(d)) else Bool(true))
    else if IsFileType(it) then (if it == "file_ids" then StrList(uploaded) else StrList(uploaded[..if uploaded == [] then 0 else 1]))
    else if d != Null then d
    else if req then Str(Confirmed)
    else Null
  }

  /** The answer for one question with a field key: repaired when required and empty, left out when optional and None. */
  function V4AnswerOf(fk: string, it: string, req: bool, d: Json, opts: seq<Json>, uploaded: seq<string>): (r: Option<Answer>)
    ensures r.Some? ==> r.value.fieldKey == fk && r.value.value != Null
    ensures r.None? ==> !req && V4Value(fk, it, req, d, opts, uploaded) == Null
    ensures req ==> r.Some? && !IsEmptyAnswer(r.value.value)
  {
    var value := V4Value(fk, it, req, d, opts, uploaded);
    var repaired := Repair(it, req, value);
    if repaired == Null && !req then None else Some(Answer(fk, repaired))
  }

  /** `auto_answer_card` on one question. */
  function V4AnswerFor(q: Json, uploaded: seq<string>): (r: Option<Answer>)
    ensures r.Some? ==> Answerable(q) && r.value.fieldKey == FieldKey(q)
  {
    if !Answerable(q) then None
    else V4AnswerOf(FieldKey(q), InputType(q), Required(q), Get(q, "default"), Options(q), uploaded)
  }

  /** The answers of `auto_answer_card`, in question order. */
  function V4Answers(card: Json, uploaded: seq<string>): seq<Answer>
  {
    Collect(Questions(card), q => V4AnswerFor(q, uploaded))
  }

  /** `auto_answer_card`: `{"answers": [...]}`. */
  function V4AutoAnswerCard(card: Json, uploaded: seq<string>): (r: Json)
    ensures Get(r, "answers").List? && |Get(r, "answers").items| <= |Questions(card)|
  {
    UserResponse(V4Answers(card, uploaded))
  }

  /**
   * Every required question with a field key is answered with a value that is
   * not empty, and no answer is None.
   */
  lemma {:induction false} V4RequiredAnswered(card: Json, uploaded: seq<string>, q: Json)
    requires q in Questions(card) && Answerable(q) && Required(q)
    ensures exists a :: a in V4Answers(card, uploaded) && a.fieldKey == FieldKey(q) && !IsEmptyAnswer(a.value)
    ensures forall a :: a in V4Answers(card, uploaded) ==> a.value != Null
  {
    var f := q => V4AnswerFor(q, uploaded);
    CollectComplete(Questions(card), f);
    CollectSound(Questions(card), f);
  }

  /** An optional question whose chosen value is None is left out. */
  lemma V4OptionalNoneOmitted(fk: string, it: string, d: Json, opts: seq<Json>, uploaded: seq<string>)
    requires V4Value(fk, it, false, d, opts, uploaded) == Null
    ensures V4AnswerOf(fk, it, false, d, opts, uploaded) == None
  {
  }

  /**
   * `attachment_file_ids` gets the uploaded ids whatever its input type; a
   * required one without uploads is repaired to True when its type is
   * boolean and to the placeholder text otherwise.
   */
  lemma AttachmentGetsUploads(it: string, req: bool, d: Json, opts: seq<Json>, uploaded: seq<string>)
    ensures V4AnswerOf("attachment_file_ids", it, req, d, opts, uploaded)
      == Some(Answer("attachment_file_ids", if req && uploaded == [] then (if IsBoolType(it) then Bool(true) else Str(Confirmed)) else StrList(uploaded)))
  {
    if uploaded != [] {
      assert StrList(uploaded).items[0] == Str(uploaded[0]);
    }
  }

  /**
   * `file_id` gets only the first uploaded id and `file_ids` all of them; with
   * no uploads a required file field becomes the placeholder text and an
   * optional one an empty list.
   */
  lemma FileFieldAnswer(fk: string, it: string, req: bool, d: Json, opts: seq<Json>, uploaded: seq<string>)
    requires IsFileType(it) && fk != "attachment_file_ids"
    ensures uploaded != [] ==>
      V4AnswerOf(fk, it, req, d, opts, uploaded) == Some(Answer(fk, if it == "file_ids" then StrList(uploaded) else StrList([uploaded[0]])))
    ensures uploaded == [] ==>
      V4AnswerOf(fk, it, req, d, opts, uploaded) == Some(Answer(fk, if req then Str(Confirmed) else List([])))
  {
    assert !IsSelectType(it) && !IsMultiType(it) && !IsBoolType(it);
    if uploaded != [] {
      assert StrList(uploaded).items[0] == Str(uploaded[0]);
      assert uploaded[..1] == [uploaded[0]];
    } else {
      assert StrList(uploaded) == List([]);
    }
  }

  /** A boolean is `bool(default)` when there is a default and True otherwise; False is sent, never repaired. */
  lemma BooleanAnswer(fk: string, it: string, req: bool, d: Json, opts: seq<Json>, uploaded: seq<string>)
    requires IsBoolType(it) && fk != "attachment_file_ids"
    ensures V4AnswerOf(fk, it, req, d, opts, uploaded) == Some(Answer(fk, Bool(d == Null || Truthy(d))))
  {
  }

  /** A list default of a multi-select is sent as it is, even an empty one, unless a required repair applies. */
  lemma MultiListDefault(fk: string, it: string, req: bool, items: seq<Json>, opts: seq<Json>, uploaded: seq<string>)
    requires IsMultiType(it) && fk != "attachment_file_ids"
    ensures V4AnswerOf(fk, it, req, List(items), opts, uploaded)
      == Some(Answer(fk, if req && items == [] then Str(Confirmed) else List(items)))
  {
    assert !IsSelectType(it);
  }

  /**
   * Without a list default, a multi-select takes only a recommended option:
   * a list of the first one, else an empty list (the placeholder when required).
   */
  lemma MultiRecommendedOnly(fk: string, it: string, req: bool, d: Json, opts: seq<Json>, uploaded: seq<string>)
    requires IsMultiType(it) && fk != "attachment_file_ids" && !d.List?
    requires forall o :: o in opts ==> !RecommendedValued(o)
    ensures V4AnswerOf(fk, it, req, d, opts, uploaded) == Some(Answer(fk, if req then Str(Confirmed) else List([])))
  {
    assert !IsSelectType(it);
    assert FirstRecommended(opts) == |opts|;
  }

  // ---------------------------------------------------------------------
  // `consume_pending_cards`

  /** `min(max(1, int(resume_max_loops)), 4)` */
  function ResumeLoops(n: int): (r: int)
    ensures 1 <= r <= 4
    ensures 1 <= n <= 4 ==> r == n
    ensures n < 1 ==> r == 1
    ensures n > 4 ==> r == 4
  {
    if n < 1 then 1 else if n > 4 then 4 else n
  }

  /** `(consumed_count, unresolved_pending)` */
  datatype Consumed = Consumed(count: nat, unresolved: bool)

  /**
   * The loop from `k` cards consumed on. `pendingAt(k)` is what the `k`-th
   * query for the pending card returns; `resumeFails(k, answers, loops)` says
   * whether the `k`-th resume turn, sent `{"answers": answers}` with a budget
   * of `loops`, timed out.
   */
  function Consume(k: nat, maxCards: int, pendingAt: nat -> Json, resumeFails: (nat, seq<Answer>, int) -> bool,
                   uploaded: seq<string>, loops: int): Consumed
    decreases if k < maxCards then maxCards - k else 0
  {
    if k < maxCards then
      var pending := Unwrap(pendingAt(k));
      if !NonEmptyDict(pending) then Consumed(k, false)
      else if V4Answers(pending, uploaded) == [] then Consumed(k, true)
      else if resumeFails(k, V4Answers(pending, uploaded), loops) then Consumed(k, true)
      else Consume(k + 1, maxCards, pendingAt, resumeFails, uploaded, loops)
    else Consumed(k, NonEmptyDict(Unwrap(pendingAt(k))))
  }

  /** At most `max_cards` cards are consumed, and the count never goes back. */
  lemma {:induction false} ConsumeBounded(k: nat, maxCards: int, pendingAt: nat -> Json, resumeFails: (nat, seq<Answer>, int) -> bool,
                                          uploaded: seq<string>, loops: int)
    ensures var c := Consume(k, maxCards, pendingAt, resumeFails, uploaded, loops);
      k <= c.count && (k <= maxCards ==> c.count <= maxCards)
    decreases if k < maxCards then maxCards - k else 0
  {
    if k < maxCards {
      ConsumeBounded(k + 1, maxCards, pendingAt, resumeFails, uploaded, loops);
    }
  }

  /** Card `j` was pending, had answers, and its resume turn went through. */
  predicate Resumed(j: nat, pendingAt: nat -> Json, resumeFails: (nat, seq<Answer>, int) -> bool, uploaded: seq<string>, loops: int)
  {
    NonEmptyDict(Unwrap(pendingAt(j)))
    && V4Answers(Unwrap(pendingAt(j)), uploaded) != []
    && !resumeFails(j, V4Answers(Unwrap(pendingAt(j)), uploaded), loops)
  }

  /**
   * What the returned pair means. Every card before the count was pending,
   * answered and resumed. The result is unresolved exactly when a card is
   * still pending at the count, and then the card budget ran out, the
   * answerer had nothing for that card, or its resume failed.
   */
  lemma {:induction false} ConsumeMeaning(k: nat, maxCards: int, pendingAt: nat -> Json, resumeFails: (nat, seq<Answer>, int) -> bool,
                                          uploaded: seq<string>, loops: int)
    ensures var c := Consume(k, maxCards, pendingAt, resumeFails, uploaded, loops);
      var pending := Unwrap(pendingAt(c.count));
      (c.unresolved <==> NonEmptyDict(pending))
      && (c.unresolved ==>
            maxCards <= c.count || V4Answers(pending, uploaded) == [] || resumeFails(c.count, V4Answers(pending, uploaded), loops))
      && (forall j :: k <= j < c.count ==> Resumed(j, pendingAt, resumeFails, uploaded, loops))
    decreases if k < maxCards then maxCards - k else 0
  {
    if k < maxCards {
      var pending := Unwrap(pendingAt(k));
      if NonEmptyDict(pending) && V4Answers(pending, uploaded) != [] && !resumeFails(k, V4Answers(pending, uploaded), loops) {
        ConsumeMeaning(k + 1, maxCards, pendingAt, resumeFails, uploaded, loops);
        assert Resumed(k, pendingAt, resumeFails, uploaded, loops);
      }
    }
  }

  /** A pending card the answerer has nothing for stops the loop as unresolved, without a resume. */
  lemma NoAnswersUnresolved(k: nat, maxCards: int, pendingAt: nat -> Json, resumeFails: (nat, seq<Answer>, int) -> bool,
                            uploaded: seq<string>, loops: int)
    requires k < maxCards && NonEmptyDict(Unwrap(pendingAt(k))) && V4Answers(Unwrap(pendingAt(k)), uploaded) == []
    ensures Consume(k, maxCards, pendingAt, resumeFails, uploaded, loops) == Consumed(k, true)
  {
  }

  /** `consume_pending_cards`; `budgets` lists the `max_loops` of each resume turn started. */
  method ConsumePendingCards(pendingAt: nat -> Json, resumeFails: (nat, seq<Answer>, int) -> bool, uploaded: seq<string>,
                             resumeMaxLoops: int, maxCards: int)
    returns (consumed: nat, unresolved: bool, budgets: seq<int>)
    ensures Consumed(consumed, unresolved) == Consume(0, maxCards, pendingAt, resumeFails, uploaded, ResumeLoops(resumeMaxLoops))
    ensures consumed <= |budgets| <= consumed + 1
    ensures forall i :: 0 <= i < |budgets| ==> budgets[i] == ResumeLoops(resumeMaxLoops)
  {
    ghost var loops := ResumeLoops(resumeMaxLoops);
    consumed := 0;
    unresolved := false;
    budgets := [];
    var done := false;
    while consumed < maxCards && !done
      invariant !done ==> Consume(0, maxCards, pendingAt, resumeFails, uploaded, loops) == Consume(consumed, maxCards, pendingAt, resumeFails, uploaded, loops)
      invariant done ==> Consume(0, maxCards, pendingAt, resumeFails, uploaded, loops) == Consumed(consumed, unresolved)
      invariant |budgets| == consumed || (done && |budgets| == consumed + 1)
      invariant forall i :: 0 <= i < |budgets| ==> budgets[i] == loops
      decreases maxCards - consumed + (if done then 0 else 1)
    {
      var pending := Unwrap(pendingAt(consumed));
      if !NonEmptyDict(pending) {
        unresolved := false;
        done := true;
      } else {
        var answers := V4Answers(pending, uploaded);
        if answers == [] {
          unresolved := true;
          done := true;
        } else {
          var resumeLoops := ResumeLoops(resumeMaxLoops);
          budgets := budgets + [resumeLoops];
          if resumeFails(consumed, answers, resumeLoops) {
            unresolved := true;
            done := true;
          } else {
            consumed := consumed + 1;
          }
        }
      }
    }
    if !done {
      unresolved := NonEmptyDict(Unwrap(pendingAt(consumed)));
    }
  }
}
