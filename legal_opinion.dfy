/**
 * run_legal_opinion_flow_debug.py: its card auto-answerer, which fills the
 * two case texts into `profile.facts` and `profile.background`, and its drive
 * loop, which alternates between answering the pending card and nudging the
 * session until the legal-opinion deliverable exists, an error event comes
 * back, or 60 iterations have run.
 *
 * The services are a `Service` that logs each call and answers the n-th call
 * with `reply(n, call)`.
 */
module LegalOpinion {
  import opened Json
  import opened Text
  import opened Cards
  import opened DebugAnswers

  /** `CASE_FACTS` and `CASE_BACKGROUND`, the two fixed case texts of the runner. */
  datatype CaseTexts = CaseTexts(facts: string, background: string)

  /** The text answer: the case facts, the case background, or `"已确认"`. */
  function OpinionText(fk: string, texts: CaseTexts): (r: string)
    ensures fk != "profile.facts" && fk != "profile.background" ==> r == Confirmed
  {
    if fk == "profile.facts" then texts.facts
    else if fk == "profile.background" then texts.background
    else Confirmed
  }

  /** `_auto_answer_card` on one question: the fixed values with the case texts, repaired when required. */
  function OpinionAnswerFor(q: Json, uploadedId: Option<string>, texts: CaseTexts): (r: Option<Answer>)
    ensures r.Some? <==> Answerable(q)
    ensures r.Some? ==> r.value.fieldKey == FieldKey(q)
    ensures r.Some? && Required(q) ==> !IsEmptyAnswer(r.value.value)
  {
    if !Answerable(q) then None
    else
      var fk := FieldKey(q);
      var it := InputType(q);
      Some(Answer(fk, Repair(it, Required(q), FixedValue(it, Required(q), Options(q), uploadedId, OpinionText(fk, texts)))))
  }

  function OpinionDecide(uploadedId: Option<string>, texts: CaseTexts): Json -> Option<Answer>
  {
    q => OpinionAnswerFor(q, uploadedId, texts)
  }

  function OpinionAnswers(card: Json, uploadedId: Option<string>, texts: CaseTexts): seq<Answer>
  {
    Collect(Questions(card), OpinionDecide(uploadedId, texts))
  }

  /** `_auto_answer_card`: `{"answers": [...]}`. */
  function OpinionAutoAnswerCard(card: Json, uploadedId: Option<string>, texts: CaseTexts): (r: Json)
    ensures Get(r, "answers").List? && |Get(r, "answers").items| <= |Questions(card)|
  {
    UserResponse(OpinionAnswers(card, uploadedId, texts))
  }

  /** One answer per question with a field key, in question order, and no required answer is empty. */
  lemma {:induction false} OpinionOnePerQuestion(card: Json, uploadedId: Option<string>, texts: CaseTexts)
    ensures Keys(OpinionAnswers(card, uploadedId, texts)) == AnswerableKeys(Questions(card))
    ensures forall q :: q in Questions(card) && Answerable(q) && Required(q) ==>
      exists a :: a in OpinionAnswers(card, uploadedId, texts) && a.fieldKey == FieldKey(q) && !IsEmptyAnswer(a.value)
  {
    var f := OpinionDecide(uploadedId, texts);
    CollectKeys(Questions(card), f);
    CollectComplete(Questions(card), f);
  }

  /** `profile.facts` and `profile.background`, when they are text questions, get the case texts (when not blank). */
  lemma OpinionCaseTexts(q: Json, uploadedId: Option<string>, texts: CaseTexts)
    requires Answerable(q) && (FieldKey(q) == "profile.facts" || FieldKey(q) == "profile.background")
    requires var it := InputType(q); !IsBoolType(it) && !IsSelectType(it) && !IsMultiType(it) && !IsFileType(it)
    requires !IsBlank(texts.facts) && !IsBlank(texts.background)
    ensures OpinionAnswerFor(q, uploadedId, texts).value.value
      == Str(if FieldKey(q) == "profile.facts" then texts.facts else texts.background)
  {
    FixedText(InputType(q), Required(q), Options(q), uploadedId, OpinionText(FieldKey(q), texts));
  }

  // ---------------------------------------------------------------------
  // The drive loop of `main`

  /** The calls the drive loop makes. */
  datatype DriveCall =
    | GetSession(sessionId: string)
    | ListDeliverables(matterId: string, outputKey: string)
    | GetPendingCard(sessionId: string)
    | Resume(sessionId: string, userResponse: Json)
    | Chat(sessionId: string, userQuery: string, attachments: seq<string>, maxLoops: int)

  /** The services behind the API client: the n-th call is answered with `reply(n, call)`. */
  class Service {
    const reply: (nat, DriveCall) -> Json
    var log: seq<DriveCall>

    constructor(reply: (nat, DriveCall) -> Json)
      ensures this.reply == reply && log == []
    {
      this.reply := reply;
      log := [];
    }

    method Send(c: DriveCall) returns (r: Json)
      modifies this`log
      ensures log == old(log) + [c]
      ensures r == reply(|old(log)|, c)
    {
      r := reply(|log|, c);
      log := log + [c];
    }
  }

  const MaxIterations: nat := 60
  const OutputKey: string := "legal_opinion"
  const NudgeText: string := "继续"
  const NudgeMaxLoops: int := 12

  /** An event the loop treats as an error: a dict whose `event` is `"error"`, partial or not. */
  predicate ErrorEvent(e: Json)
  {
    e.Obj? && Get(e, "event") == Str("error")
  }

  /** Index of the first error event, or `|events|`. */
  function FirstErrorIndex(events: seq<Json>): (i: nat)
    ensures i <= |events|
    ensures i < |events| ==> ErrorEvent(events[i])
    ensures forall j :: 0 <= j < i ==> !ErrorEvent(events[j])
  {
    if events == [] then 0
    else if ErrorEvent(events[0]) then 0
    else 1 + FirstErrorIndex(events[1..])
  }

  /** `next((e for e in (resp.get("events") or []) if isinstance(e, dict) and e.get("event") == "error"), None)` */
  function FirstErrorEvent(resp: Json): (r: Option<Json>)
    ensures r.None? <==> forall e :: e in ListOrEmpty(Get(resp, "events")) ==> !ErrorEvent(e)
    ensures r.Some? ==> ErrorEvent(r.value) && r.value in ListOrEmpty(Get(resp, "events"))
  {
    var events := ListOrEmpty(Get(resp, "events"));
    var i := FirstErrorIndex(events);
    if i < |events| then Some(events[i]) else None
  }

  /** A partial-stream error event (`{"event": "error", "data": {"partial": true}}`) stops the loop like any other. */
  lemma PartialErrorStops(before: seq<Json>, after: seq<Json>, data: Json)
    requires forall e :: e in before ==> !ErrorEvent(e)
    ensures var e := Obj([Field("event", Str("error")), Field("data", data)]);
      FirstErrorEvent(Obj([Field("events", List(before + [e] + after))])) == Some(e)
  {
    var e := Obj([Field("event", Str("error")), Field("data", data)]);
    var events := before + [e] + after;
    assert events[|before|] == e;
    forall j | 0 <= j < |before|
      ensures !ErrorEvent(events[j])
    {
      assert events[j] == before[j];
    }
    assert ErrorEvent(events[|before|]);
  }

  /** `(sess.get("data") or {}).get("matter_id")` */
  function MatterIdOf(sess: Json): Json
  {
    Get(Or(Get(sess, "data"), Obj([])), "matter_id")
  }

  /** `(dels.get("data") or {}).get("deliverables")` is truthy. */
  predicate DeliverableListed(dels: Json)
  {
    Truthy(Get(Or(Get(dels, "data"), Obj([])), "deliverables"))
  }

  /** How the drive loop ended. */
  datatype DriveEnd =
    | DeliverableReady(iteration: nat)
    | StoppedOnError(iteration: nat, error: Json)
    | OutOfIterations

  /** What one iteration of the drive loop does: the calls it makes, the matter id it read, whether the deliverable was listed, and the reply it tests for errors. */
  datatype Turn = Turn(calls: seq<DriveCall>, matterId: Json, ready: bool, resp: Json)

  /** The call that answers the pending card `card`, or nudges when there is none. */
  function Answering(sessionId: string, card: Json, texts: CaseTexts): DriveCall
  {
    if Truthy(card) then Resume(sessionId, OpinionAutoAnswerCard(card, None, texts))
    else Chat(sessionId, NudgeText, [], NudgeMaxLoops)
  }

  /** The first part of a turn: the calls it makes, the matter id it read and whether the deliverable is listed. */
  datatype Probe = Probe(calls: seq<DriveCall>, matterId: Json, ready: bool)

  /** The second part of a turn: the calls it makes and the reply it tests for errors. */
  datatype Reply = Reply(calls: seq<DriveCall>, resp: Json)

  /**
   * The first part of a turn whose first call is the service's n-th: read
   * the session and, with a matter id, list its legal-opinion deliverables;
   * ready when that listing shows one.
   */
  function ProbeAt(reply: (nat, DriveCall) -> Json, n: nat, sessionId: string): (p: Probe)
    ensures p.matterId == MatterIdOf(reply(n, GetSession(sessionId)))
    ensures |p.calls| == (if Truthy(p.matterId) then 2 else 1) && p.calls[0] == GetSession(sessionId)
  {
    var m := MatterIdOf(reply(n, GetSession(sessionId)));
    if Truthy(m) then
      var list := ListDeliverables(PyStr(m), OutputKey);
      Probe([GetSession(sessionId), list], m, DeliverableListed(reply(n + 1, list)))
    else Probe([GetSession(sessionId)], m, false)
  }

  /**
   * The second part of a turn whose first call is the service's n-th: fetch
   * the pending card and resume with its auto-answer, or nudge with `"继续"`
   * when there is no card.
   */
  function ReplyAt(reply: (nat, DriveCall) -> Json, n: nat, sessionId: string, texts: CaseTexts): (r: Reply)
    ensures |r.calls| == 2 && r.calls[0] == GetPendingCard(sessionId)
    ensures r.resp == reply(n + 1, r.calls[1])
  {
    var last := Answering(sessionId, Get(reply(n, GetPendingCard(sessionId)), "data"), texts);
    Reply([GetPendingCard(sessionId), last], reply(n + 1, last))
  }

  /**
   * One iteration of the drive loop whose first call is the service's n-th:
   * the probe, and unless it found the deliverable, the reply to the card.
   */
  function TurnAt(reply: (nat, DriveCall) -> Json, n: nat, sessionId: string, texts: CaseTexts): (t: Turn)
    ensures 2 <= |t.calls| <= 4 && t.calls[0] == GetSession(sessionId)
    ensures forall j :: 0 < j < |t.calls| ==> !t.calls[j].GetSession?
    ensures t.matterId == MatterIdOf(reply(n, GetSession(sessionId)))
  {
    var p := ProbeAt(reply, n, sessionId);
    if p.ready then Turn(p.calls, p.matterId, true, Null)
    else
      var r := ReplyAt(reply, n + |p.calls|, sessionId, texts);
      Turn(p.calls + r.calls, p.matterId, false, r.resp)
  }

  /** With a matter id the turn lists its deliverables next, and it is ready exactly when that listing shows one, after two calls. */
  lemma TurnListsDeliverable(reply: (nat, DriveCall) -> Json, n: nat, sessionId: string, texts: CaseTexts)
    ensures var t := TurnAt(reply, n, sessionId, texts);
      (Truthy(t.matterId) ==> t.calls[1] == ListDeliverables(PyStr(t.matterId), OutputKey))
      && (t.ready <==> Truthy(t.matterId) && DeliverableListed(reply(n + 1, t.calls[1])))
      && (t.ready ==> |t.calls| == 2)
  {
  }

  /**
   * A turn that is not ready fetches the pending card and then resumes with
   * the opinion auto-answer when the card is truthy, or nudges otherwise;
   * its reply is the service's answer to that last call.
   */
  lemma TurnAnswersCard(reply: (nat, DriveCall) -> Json, n: nat, sessionId: string, texts: CaseTexts)
    ensures var t := TurnAt(reply, n, sessionId, texts);
      var p := |t.calls| - 2;
      var card := Get(reply(n + p, GetPendingCard(sessionId)), "data");
      !t.ready ==>
        |t.calls| == (if Truthy(t.matterId) then 4 else 3)
        && t.calls[p] == GetPendingCard(sessionId)
        && t.calls[p + 1] == (if Truthy(card) then Resume(sessionId, OpinionAutoAnswerCard(card, None, texts))
                              else Chat(sessionId, NudgeText, [], NudgeMaxLoops))
        && t.resp == reply(n + p + 1, t.calls[p + 1])
  {
  }

  /**
   * One iteration of the drive loop up to the error test: it makes exactly
   * the calls `TurnAt` lists, in order, and returns its matter id, whether
   * the deliverable is ready and the reply to the resume or nudge.
   */
  method Iteration(service: Service, sessionId: string, texts: CaseTexts) returns (matterId: Json, ready: bool, resp: Json)
    modifies service`log
    ensures var t := TurnAt(service.reply, |old(service.log)|, sessionId, texts);
      service.log == old(service.log) + t.calls && matterId == t.matterId && ready == t.ready
      && (!ready ==> resp == t.resp)
  {
    ghost var p := ProbeAt(service.reply, |service.log|, sessionId);
    matterId, ready := ProbeDeliverable(service, sessionId);
    resp := Null;
    if !ready {
      resp := AnswerPending(service, sessionId, texts);
      ghost var r := ReplyAt(service.reply, |old(service.log)| + |p.calls|, sessionId, texts);
      assert service.log == old(service.log) + (p.calls + r.calls);
    }
  }

  /** The first part of an iteration: makes exactly the calls `ProbeAt` lists. */
  method ProbeDeliverable(service: Service, sessionId: string) returns (matterId: Json, ready: bool)
    modifies service`log
    ensures var p := ProbeAt(service.reply, |old(service.log)|, sessionId);
      service.log == old(service.log) + p.calls && matterId == p.matterId && ready == p.ready
  {
    var sess := service.Send(GetSession(sessionId));
    matterId := MatterIdOf(sess);
    ready := false;
    if Truthy(matterId) {
      var dels := service.Send(ListDeliverables(PyStr(matterId), OutputKey));
      ready := DeliverableListed(dels);
    }
  }

  /** The second part of an iteration: makes exactly the calls `ReplyAt` lists and returns the reply. */
  method AnswerPending(service: Service, sessionId: string, texts: CaseTexts) returns (resp: Json)
    modifies service`log
    ensures var r := ReplyAt(service.reply, |old(service.log)|, sessionId, texts);
      service.log == old(service.log) + r.calls && resp == r.resp
  {
    var pending := service.Send(GetPendingCard(sessionId));
    resp := service.Send(Answering(sessionId, Get(pending, "data"), texts));
  }

  /** The call of a turn whose reply the loop tests for errors: a resume or the nudge. */
  predicate AnswerCall(c: DriveCall, sessionId: string)
  {
    (c.Resume? && c.sessionId == sessionId) || c == Chat(sessionId, NudgeText, [], NudgeMaxLoops)
  }

  /**
   * Each reply in `turns` is the service's reply to the resume or nudge call
   * logged at the matching position of `at`, the positions rising and all
   * at or after `lo`.
   */
  ghost predicate Answered(log: seq<DriveCall>, reply: (nat, DriveCall) -> Json, turns: seq<Json>, at: seq<nat>, sessionId: string, lo: nat)
  {
    |at| == |turns|
    && (forall k :: 0 <= k < |turns| ==>
      lo <= at[k] < |log| && AnswerCall(log[at[k]], sessionId) && turns[k] == reply(at[k], log[at[k]]))
    && (forall k :: 0 <= k < |at| - 1 ==> at[k] < at[k + 1])
  }

  /** Appending calls to the log keeps every recorded reply where it was. */
  lemma AnsweredExtend(log: seq<DriveCall>, more: seq<DriveCall>, reply: (nat, DriveCall) -> Json, turns: seq<Json>, at: seq<nat>, sessionId: string, lo: nat)
    requires Answered(log, reply, turns, at, sessionId, lo)
    ensures Answered(log + more, reply, turns, at, sessionId, lo)
  {
    forall k | 0 <= k < |turns|
      ensures (log + more)[at[k]] == log[at[k]]
    {
    }
  }

  /** Recording the reply to a resume or nudge logged after every recorded one. */
  lemma AnsweredSnoc(log: seq<DriveCall>, reply: (nat, DriveCall) -> Json, turns: seq<Json>, at: seq<nat>, sessionId: string, lo: nat, n: nat)
    requires Answered(log, reply, turns, at, sessionId, lo)
    requires lo <= n < |log| && AnswerCall(log[n], sessionId)
    requires at != [] ==> at[|at| - 1] < n
    ensures Answered(log, reply, turns + [reply(n, log[n])], at + [n], sessionId, lo)
  {
    var turns', at' := turns + [reply(n, log[n])], at + [n];
    forall k | 0 <= k < |turns'|
      ensures lo <= at'[k] < |log| && AnswerCall(log[at'[k]], sessionId) && turns'[k] == reply(at'[k], log[at'[k]])
    {
      if k < |turns| {
        assert at'[k] == at[k] && turns'[k] == turns[k];
      }
    }
  }

  /** The call logged at `j` is a deliverable listing whose reply shows the deliverable. */
  ghost predicate ShowsDeliverable(log: seq<DriveCall>, reply: (nat, DriveCall) -> Json, j: nat)
  {
    j < |log| && log[j].ListDeliverables? && DeliverableListed(reply(j, log[j]))
  }

  /** No deliverable listing logged at a position in `lo..hi` showed the deliverable. */
  ghost predicate NoneReady(log: seq<DriveCall>, reply: (nat, DriveCall) -> Json, lo: nat, hi: nat)
  {
    forall j :: lo <= j < hi ==> !ShowsDeliverable(log, reply, j)
  }

  /** Two stretches without a ready listing, one after the other, make one. */
  lemma NoneReadyJoin(before: seq<DriveCall>, log: seq<DriveCall>, reply: (nat, DriveCall) -> Json, lo: nat, hi: nat)
    requires before <= log && |before| <= hi
    requires NoneReady(before, reply, lo, |before|) && NoneReady(log, reply, |before|, hi)
    ensures NoneReady(log, reply, lo, hi)
  {
    forall j | lo <= j < hi
      ensures !ShowsDeliverable(log, reply, j)
    {
      if j < |before| {
        assert log[j] == before[j];
        assert !ShowsDeliverable(before, reply, j);
      }
    }
  }

  /**
   * The only listing of a turn is its second call: a turn that is not ready
   * lists nothing that shows the deliverable, and a ready one lists nothing
   * before its last call.
   */
  lemma TurnListings(reply: (nat, DriveCall) -> Json, n: nat, sessionId: string, texts: CaseTexts)
    ensures var t := TurnAt(reply, n, sessionId, texts);
      forall j :: 0 <= j < |t.calls| && t.calls[j].ListDeliverables? && !(t.ready && j == |t.calls| - 1) ==>
        j == 1 && !DeliverableListed(reply(n + 1, t.calls[1]))
  {
    var t := TurnAt(reply, n, sessionId, texts);
    TurnListsDeliverable(reply, n, sessionId, texts);
    if !t.ready {
      TurnAnswersCard(reply, n, sessionId, texts);
    }
  }

  /** A turn shows the deliverable at no position but its last call, and there only when it is ready. */
  lemma TurnNoneReady(before: seq<DriveCall>, log: seq<DriveCall>, reply: (nat, DriveCall) -> Json, sessionId: string, texts: CaseTexts)
    requires log == before + TurnAt(reply, |before|, sessionId, texts).calls
    ensures NoneReady(log, reply, |before|, if TurnAt(reply, |before|, sessionId, texts).ready then |log| - 1 else |log|)
  {
    var t := TurnAt(reply, |before|, sessionId, texts);
    TurnListings(reply, |before|, sessionId, texts);
    forall j | |before| <= j < (if t.ready then |log| - 1 else |log|)
      ensures !ShowsDeliverable(log, reply, j)
    {
      assert log[j] == t.calls[j - |before|];
    }
  }

  /** A turn that lists the deliverable ends the log with that listing, and keeps the recorded replies. */
  lemma TurnReady(before: seq<DriveCall>, log: seq<DriveCall>, reply: (nat, DriveCall) -> Json, sessionId: string, texts: CaseTexts,
                  turns: seq<Json>, at: seq<nat>, lo: nat)
    requires Answered(before, reply, turns, at, sessionId, lo)
    requires TurnAt(reply, |before|, sessionId, texts).ready
    requires log == before + TurnAt(reply, |before|, sessionId, texts).calls
    ensures Answered(log, reply, turns, at, sessionId, lo)
    ensures log[|log| - 1].ListDeliverables? && DeliverableListed(reply(|log| - 1, log[|log| - 1]))
  {
    var t := TurnAt(reply, |before|, sessionId, texts);
    AnsweredExtend(before, t.calls, reply, turns, at, sessionId, lo);
    assert log[|before| + 1] == t.calls[1];
  }

  /** A turn that does not list the deliverable records its reply to the resume or nudge that ends it. */
  lemma TurnAnswered(before: seq<DriveCall>, log: seq<DriveCall>, reply: (nat, DriveCall) -> Json, sessionId: string, texts: CaseTexts,
                     turns: seq<Json>, at: seq<nat>, lo: nat, resp: Json)
    requires Answered(before, reply, turns, at, sessionId, lo) && lo <= |before|
    requires !TurnAt(reply, |before|, sessionId, texts).ready
    requires log == before + TurnAt(reply, |before|, sessionId, texts).calls
    requires resp == TurnAt(reply, |before|, sessionId, texts).resp
    ensures Answered(log, reply, turns + [resp], at + [|log| - 1], sessionId, lo)
  {
    var t := TurnAt(reply, |before|, sessionId, texts);
    AnsweredExtend(before, t.calls, reply, turns, at, sessionId, lo);
    var n := |log| - 1;
    assert log[n] == t.calls[|t.calls| - 1];
    TurnAnswersCard(reply, |before|, sessionId, texts);
    assert AnswerCall(log[n], sessionId);
    assert resp == reply(n, log[n]);
    AnsweredSnoc(log, reply, turns, at, sessionId, lo, n);
  }

  /**
   * `Iteration` as the drive loop sees it: the log only grows, and the reply
   * to the resume or nudge that ends an unfinished turn is recorded at the
   * position of that call, while a finished turn ends with the listing.
   */
  method TrackedIteration(service: Service, sessionId: string, texts: CaseTexts, ghost turns: seq<Json>, ghost at: seq<nat>, ghost lo: nat)
    returns (matterId: Json, ready: bool, resp: Json)
    requires Answered(service.log, service.reply, turns, at, sessionId, lo) && lo <= |service.log|
    requires NoneReady(service.log, service.reply, lo, |service.log|)
    modifies service`log
    ensures old(service.log) <= service.log
    ensures if ready then |service.log| == |old(service.log)| + 2 else |old(service.log)| + 3 <= |service.log| <= |old(service.log)| + 4
    ensures ready ==>
      Answered(service.log, service.reply, turns, at, sessionId, lo)
      && var n := |service.log| - 1;
      service.log[n].ListDeliverables? && DeliverableListed(service.reply(n, service.log[n]))
    ensures !ready ==> Answered(service.log, service.reply, turns + [resp], at + [|service.log| - 1], sessionId, lo)
    ensures ready ==> NoneReady(service.log, service.reply, lo, |service.log| - 1)
    ensures !ready ==> NoneReady(service.log, service.reply, lo, |service.log|)
    ensures service.log[|old(service.log)|] == GetSession(sessionId)
    ensures matterId == MatterIdOf(service.reply(|old(service.log)|, GetSession(sessionId)))
    ensures forall j :: |old(service.log)| < j < |service.log| ==> !service.log[j].GetSession?
  {
    matterId, ready, resp := Iteration(service, sessionId, texts);
    ghost var t := TurnAt(service.reply, |old(service.log)|, sessionId, texts);
    assert forall j :: |old(service.log)| <= j < |service.log| ==> service.log[j] == t.calls[j - |old(service.log)|];
    TurnNoneReady(old(service.log), service.log, service.reply, sessionId, texts);
    ghost var hi := if ready then |service.log| - 1 else |service.log|;
    NoneReadyJoin(old(service.log), service.log, service.reply, lo, hi);
    if ready {
      TurnReady(old(service.log), service.log, service.reply, sessionId, texts, turns, at, lo);
    } else {
      TurnAnswered(old(service.log), service.log, service.reply, sessionId, texts, turns, at, lo, resp);
    }
  }

  /**
   * The drive loop of `main`. Each iteration reads the session's matter id
   * and, once there is one, stops when the legal-opinion deliverable is
   * listed; otherwise it answers the pending card, or nudges with `"继续"`
   * when there is none, and stops at the first error event in that reply.
   * `turns` holds the resume or chat reply of each iteration that got that
   * far, and `at` the position in the service's log of the resume or nudge
   * call it answers; `matterId` is the last matter id read, from the reply
   * to the session read logged at `read`, the last one in the log.
   */
  method Drive(service: Service, sessionId: string, texts: CaseTexts)
    returns (end: DriveEnd, matterId: Json, ghost turns: seq<Json>, ghost at: seq<nat>, ghost read: nat)
    modifies service`log
    ensures |turns| <= MaxIterations
    ensures end.OutOfIterations? ==> |turns| == MaxIterations
    ensures end.DeliverableReady? ==> end.iteration == |turns|
    ensures end.StoppedOnError? ==>
      (end.iteration + 1 == |turns| && FirstErrorEvent(turns[end.iteration]) == Some(end.error))
    ensures forall k :: 0 <= k < |turns| && !(end.StoppedOnError? && k == end.iteration) ==> FirstErrorEvent(turns[k]).None?
    ensures |old(service.log)| + 3 * |turns| <= |service.log| <= |old(service.log)| + 4 * |turns| + 2
    ensures old(service.log) <= service.log
    ensures Answered(service.log, service.reply, turns, at, sessionId, |old(service.log)|)
    ensures end.DeliverableReady? ==>
      var n := |service.log| - 1;
      n >= 0 && service.log[n].ListDeliverables? && DeliverableListed(service.reply(n, service.log[n]))
    ensures end.DeliverableReady? ==> NoneReady(service.log, service.reply, |old(service.log)|, |service.log| - 1)
    ensures !end.DeliverableReady? ==> NoneReady(service.log, service.reply, |old(service.log)|, |service.log|)
    ensures |old(service.log)| <= read < |service.log| && service.log[read] == GetSession(sessionId)
    ensures matterId == MatterIdOf(service.reply(read, GetSession(sessionId)))
    ensures forall j :: read < j < |service.log| ==> !service.log[j].GetSession?
  {
    matterId := Null;
    turns := [];
    at := [];
    read := 0;
    var i: nat := 0;
    while i < MaxIterations
      invariant i <= MaxIterations && |turns| == i
      invariant forall k :: 0 <= k < i ==> FirstErrorEvent(turns[k]).None?
      invariant |old(service.log)| + 3 * i <= |service.log| <= |old(service.log)| + 4 * i
      invariant old(service.log) <= service.log
      invariant Answered(service.log, service.reply, turns, at, sessionId, |old(service.log)|)
      invariant i > 0 ==> |old(service.log)| <= read < |service.log| && service.log[read] == GetSession(sessionId)
      invariant i > 0 ==> matterId == MatterIdOf(service.reply(read, GetSession(sessionId)))
      invariant i > 0 ==> forall j :: read < j < |service.log| ==> !service.log[j].GetSession?
      invariant NoneReady(service.log, service.reply, |old(service.log)|, |service.log|)
    {
      var ready, resp;
      read := |service.log|;
      matterId, ready, resp := TrackedIteration(service, sessionId, texts, turns, at, |old(service.log)|);
      if ready {
        return DeliverableReady(i), matterId, turns, at, read;
      }
      turns := turns + [resp];
      at := at + [|service.log| - 1];
      var err := FirstErrorEvent(resp);
      if err.Some? {
        return StoppedOnError(i, err.value), matterId, turns, at, read;
      }
      i := i + 1;
    }
    end := OutOfIterations;
  }
}
