/**
 * The session-driven workflow runner (`_support/flow_runner.py`): the
 * canonical card auto-answerer, the card signature used for audit and
 * stuck detection, and `WorkbenchFlow`, which advances a consultation
 * session by answering its pending cards or nudging it with a chat message
 * until a goal holds.
 *
 * The backend services are a `Backend` object: a log of the calls made and a
 * fixed but arbitrary reply for the n-th call, so that every statement about
 * the flow holds whatever the services answer.
 */
module FlowRunner {
  import opened Json
  import opened Text
  import opened Cards
  import opened Utils

  /**
   * `_read_int_env`: the variable's integer value when it is set, parses and
   * is positive; the default otherwise.
   */
  function ReadIntEnv(raw: Option<string>, default: int): (r: int)
    ensures r == default || (raw.Some? && ParseInt(raw.value) == Some(r) && r > 0)
    ensures raw.Some? && ParseInt(raw.value).Some? && ParseInt(raw.value).value > 0 ==> r == ParseInt(raw.value).value
    ensures default > 0 ==> r > 0
  {
    if raw.None? then default
    else
      match ParseInt(raw.value)
      case None => default
      case Some(v) => if v > 0 then v else default
  }

  /** `_RESUME_MAX_LOOPS`: the resume loop budget, 80 unless the environment sets a positive one. */
  function ResumeMaxLoops(env: Option<string>): (r: int)
    ensures r > 0
    ensures env.None? ==> r == 80
  {
    ReadIntEnv(env, 80)
  }

  /** An SSE event that carries a card worth answering: a `card` event whose data is a non-empty dict. */
  predicate CardEvent(e: Json)
  {
    e.Obj? && Get(e, "event") == Str("card") && NonEmptyDict(Get(e, "data"))
  }

  /** Index of the last card event among the first `n` events, or -1. */
  function LastCardIndex(events: seq<Json>, n: nat): (i: int)
    requires n <= |events|
    ensures -1 <= i < n
    ensures i >= 0 ==> CardEvent(events[i])
    ensures forall j :: i < j < n ==> !CardEvent(events[j])
    decreases n
  {
    if n == 0 then -1
    else if CardEvent(events[n - 1]) then n - 1
    else LastCardIndex(events, n - 1)
  }

  /**
   * `extract_last_card_from_sse`: the data of the last `card` event whose data
   * is a non-empty dict; None when there is none or `events` is not a list.
   */
  function ExtractLastCardFromSse(sse: Json): (r: Option<Json>)
    requires sse.Obj?
    ensures r.Some? ==> NonEmptyDict(r.value)
    ensures r.None? <==> forall i :: 0 <= i < |ListOrEmpty(Get(sse, "events"))| ==> !CardEvent(ListOrEmpty(Get(sse, "events"))[i])
    ensures r.Some? ==> exists i :: (0 <= i < |ListOrEmpty(Get(sse, "events"))| && CardEvent(ListOrEmpty(Get(sse, "events"))[i])
      && r.value == Get(ListOrEmpty(Get(sse, "events"))[i], "data")
      && forall j :: i < j < |ListOrEmpty(Get(sse, "events"))| ==> !CardEvent(ListOrEmpty(Get(sse, "events"))[j]))
  {
    var events := ListOrEmpty(Get(sse, "events"));
    var i := LastCardIndex(events, |events|);
    if i >= 0 then Some(Get(events[i], "data")) else None
  }

  /** The multi-select choice: the first recommended option, else `_pick_recommended_or_first`. */
  function MultiPick(opts: seq<Json>): (r: Json)
    ensures r.List? && |r.items| <= 1
  {
    var k := FirstRecommended(opts);
    var picked := if k < |opts| then Get(opts[k], "value") else PickRecommendedOrFirst(List(opts));
    if picked != Null then List([picked]) else List([])
  }

  /** The explicit first-recommended scan before the fallback picks exactly what the fallback would. */
  lemma {:induction false} MultiPickIsPick(opts: seq<Json>)
    ensures MultiPick(opts) == (var p := PickRecommendedOrFirst(List(opts)); if p != Null then List([p]) else List([]))
  {
    var k := FirstRecommended(opts);
    if k < |opts| {
      PickPrefersRecommended(opts, k);
    }
  }

  /** The fixed texts used for the common profile slots. */
  function ProfileText(fk: string): Option<string>
  {
    if fk == "profile.summary" then Some("请根据已提交材料与事实生成案件摘要。")
    else if fk == "profile.facts" then Some("已提交事实陈述与材料。")
    else if fk == "profile.claims" then Some("请根据事实与材料整理诉讼请求/需求清单。")
    else None
  }

  /** The value chosen for a question that no override answers (None when there is none). */
  function DefaultValue(q: Json, uploaded: seq<string>, skillId: string): Json
  {
    DefaultFor(FieldKey(q), InputType(q), Required(q), Get(q, "default"), Options(q), uploaded, skillId)
  }

  /** `DefaultValue` on the question's field key, input type, required flag, default and options. */
  function DefaultFor(fk: string, it: string, req: bool, d: Json, options: seq<Json>, uploaded: seq<string>, skillId: string): Json
  {
    var hd := HasDefault(d);
    if IsBoolType(it) then (if hd then d else Bool(true))
    else if IsSelectType(it) then (if hd then d else PickRecommendedOrFirst(List(options)))
    else if IsMultiType(it) then (if hd then d else MultiPick(options))
    else if IsFileType(it) || fk == "attachment_file_ids" then
      if fk == "attachment_file_ids" then
        (if hd then d else if uploaded != [] then StrList(uploaded) else List([]))
      else if hd then d
      else if uploaded != [] && (req || skillId == "system:kickoff") then StrList(uploaded)
      else if req then List([])
      else Null
    else if ProfileText(fk).Some? then Str(ProfileText(fk).value)
    else if hd then d
    else if req then Str(Confirmed)
    else Null
  }

  /**
   * The answer `auto_answer_card` gives one question: none for a non-dict or a
   * blank field key; the resolved override when there is one; otherwise the
   * default value, left out when it is None and the question is optional.
   * `uploaded` is the already cleaned list of uploaded file ids.
   */
  function AnswerFor(q: Json, overrides: Json, uploaded: seq<string>, skillId: string): (r: Option<Answer>)
    ensures r.Some? ==> Answerable(q) && r.value.fieldKey == FieldKey(q)
    ensures Answerable(q) && Required(q) ==> r.Some?
    ensures r.Some? && r.value.value == Null ==> Required(q)
  {
    if !Answerable(q) then None
    else
      var fk := FieldKey(q);
      var ov := ResolveOverrideValue(fk, overrides);
      if ov != Null then Some(Answer(fk, ov))
      else
        var value := DefaultValue(q, uploaded, skillId);
        if value == Null && !Required(q) then None else Some(Answer(fk, value))
  }

  /** The per-question decision of `auto_answer_card` for one card. */
  function Decide(card: Json, overrides: Json, uploadedFileIds: seq<string>): Json -> Option<Answer>
  {
    var uploaded := CleanIds(uploadedFileIds);
    var skillId := Clean(Get(card, "skill_id"));
    q => AnswerFor(q, overrides, uploaded, skillId)
  }

  /** The answers of `auto_answer_card`, in question order. */
  function AutoAnswers(card: Json, overrides: Json, uploadedFileIds: seq<string>): seq<Answer>
    requires card.Obj?
  {
    Collect(Questions(card), Decide(card, overrides, uploadedFileIds))
  }

  /** `auto_answer_card`: the `user_response` sent with `/resume`. */
  function AutoAnswerCard(card: Json, overrides: Json, uploadedFileIds: seq<string>): (r: Json)
    requires card.Obj?
    ensures Get(r, "answers").List? && |Get(r, "answers").items| <= |Questions(card)|
  {
    UserResponse(AutoAnswers(card, overrides, uploadedFileIds))
  }

  /** Every answer belongs to an answerable question of the card, and a None answer only to a required one. */
  lemma {:induction false} AnswersComeFromQuestions(card: Json, overrides: Json, uploadedFileIds: seq<string>)
    requires card.Obj?
    ensures forall a :: a in AutoAnswers(card, overrides, uploadedFileIds) ==>
      exists q :: q in Questions(card) && Answerable(q) && FieldKey(q) == a.fieldKey && (a.value == Null ==> Required(q))
  {
    var f := Decide(card, overrides, uploadedFileIds);
    CollectSound(Questions(card), f);
  }

  /** Every required answerable question is answered (with None when nothing better is known). */
  lemma {:induction false} RequiredAlwaysAnswered(card: Json, overrides: Json, uploadedFileIds: seq<string>, q: Json)
    requires card.Obj? && q in Questions(card) && Answerable(q) && Required(q)
    ensures exists a :: a in AutoAnswers(card, overrides, uploadedFileIds) && a.fieldKey == FieldKey(q)
  {
    var f := Decide(card, overrides, uploadedFileIds);
    CollectComplete(Questions(card), f);
    assert f(q).value in AutoAnswers(card, overrides, uploadedFileIds);
  }

  /** A resolved override is sent unchanged, whatever the question's type, default or options. */
  lemma {:induction false} OverrideWins(card: Json, overrides: Json, uploadedFileIds: seq<string>, q: Json)
    requires card.Obj? && q in Questions(card) && Answerable(q)
    requires ResolveOverrideValue(FieldKey(q), overrides) != Null
    ensures Answer(FieldKey(q), ResolveOverrideValue(FieldKey(q), overrides)) in AutoAnswers(card, overrides, uploadedFileIds)
  {
    var f := Decide(card, overrides, uploadedFileIds);
    CollectComplete(Questions(card), f);
  }

  /**
   * `attachment_file_ids` is never left out: without an override, and unless
   * its type sends it down the boolean or select branches, it gets its
   * default or the uploaded ids (possibly none).
   */
  lemma {:induction false} AttachmentAlwaysSent(q: Json, overrides: Json, uploaded: seq<string>, skillId: string)
    requires Answerable(q) && FieldKey(q) == "attachment_file_ids"
    requires ResolveOverrideValue(FieldKey(q), overrides) == Null
    requires !IsBoolType(InputType(q)) && !IsSelectType(InputType(q)) && !IsMultiType(InputType(q))
    ensures AnswerFor(q, overrides, uploaded, skillId) == Some(Answer("attachment_file_ids",
      if HasDefault(Get(q, "default")) then Get(q, "default") else StrList(uploaded)))
  {
    if uploaded == [] {
      assert StrList(uploaded) == List([]);
    }
  }

  /** A usable default is never replaced by an empty value. */
  lemma {:induction false} DefaultValueNotEmpty(q: Json, uploaded: seq<string>, skillId: string)
    requires HasDefault(Get(q, "default"))
    ensures !IsEmptyAnswer(DefaultValue(q, uploaded, skillId))
  {
    DefaultForNotEmpty(FieldKey(q), InputType(q), Required(q), Get(q, "default"), Options(q), uploaded, skillId);
  }

  lemma {:induction false} DefaultForNotEmpty(fk: string, it: string, req: bool, d: Json, options: seq<Json>, uploaded: seq<string>, skillId: string)
    requires HasDefault(d)
    ensures !IsEmptyAnswer(DefaultFor(fk, it, req, d, options, uploaded, skillId))
  {
    HasDefaultIsNotEmpty(d);
    var v := DefaultFor(fk, it, req, d, options, uploaded, skillId);
    if IsBoolType(it) || IsSelectType(it) || IsMultiType(it) || IsFileType(it) || fk == "attachment_file_ids" {
      assert v == d;
    } else if ProfileText(fk).Some? {
      var t := ProfileText(fk).value;
      assert !IsSpace(t[0]);
      assert v == Str(t);
    } else {
      assert v == d;
    }
  }

  /**
   * With no overrides and a usable default on every answerable question,
   * every such question is answered and no answer is None, blank or an empty
   * list.
   */
  lemma {:induction false} DefaultsGiveFullAnswers(card: Json, uploadedFileIds: seq<string>)
    requires card.Obj?
    requires forall q :: q in Questions(card) && Answerable(q) ==> HasDefault(Get(q, "default"))
    ensures forall a :: a in AutoAnswers(card, Obj([]), uploadedFileIds) ==> !IsEmptyAnswer(a.value)
    ensures forall q :: q in Questions(card) && Answerable(q) ==>
      exists a :: a in AutoAnswers(card, Obj([]), uploadedFileIds) && a.fieldKey == FieldKey(q)
  {
    var f := Decide(card, Obj([]), uploadedFileIds);
    var uploaded := CleanIds(uploadedFileIds);
    var skillId := Clean(Get(card, "skill_id"));
    forall q | q in Questions(card) && Answerable(q)
      ensures f(q).Some? && !IsEmptyAnswer(f(q).value.value)
    {
      DefaultValueNotEmpty(q, uploaded, skillId);
      assert f(q) == Some(Answer(FieldKey(q), DefaultValue(q, uploaded, skillId)));
    }
    CollectSound(Questions(card), f);
    CollectComplete(Questions(card), f);
  }

  /** A required select question without a usable default or any valued option is answered with None: nothing repairs it. */
  lemma {:induction false} RequiredSelectWithoutOptionsSendsNone(q: Json, overrides: Json, uploaded: seq<string>, skillId: string)
    requires Answerable(q) && Required(q) && IsSelectType(InputType(q))
    requires !HasDefault(Get(q, "default")) && forall o :: o in Options(q) ==> !Valued(o)
    requires ResolveOverrideValue(FieldKey(q), overrides) == Null
    ensures AnswerFor(q, overrides, uploaded, skillId) == Some(Answer(FieldKey(q), Null))
  {
    assert PickRecommendedOrFirst(List(Options(q))) == Null;
  }

  /** The signature of a card before hashing: its skill, task and review kinds and its `fk|type` question list. */
  datatype CardSig = CardSig(skill: string, task: string, review: string, questions: seq<string>)

  /** `f"{fk}|{it}"` */
  function QuestionSig(fk: string, it: string): string
  {
    fk + "|" + it
  }

  /** The `fk|type` entries of the dict questions with a non-blank field key, in order. */
  function KeyedQuestionSigs(qs: seq<Json>): (r: seq<string>)
    ensures |r| <= |qs|
  {
    if qs == [] then []
    else
      (if qs[0].Obj? && FieldKey(qs[0]) != "" then [QuestionSig(FieldKey(qs[0]), InputType(qs[0]))] else [])
      + KeyedQuestionSigs(qs[1..])
  }

  /** `card_signature`, before the JSON rendering and the SHA-256 prefix. */
  function CardSignature(card: Json): (r: CardSig)
    ensures r.questions == KeyedQuestionSigs(Questions(card))
    ensures r.skill == Clean(Get(card, "skill_id"))
  {
    CardSig(Clean(Get(card, "skill_id")), Clean(Get(card, "task_key")), Clean(Get(card, "review_type")), KeyedQuestionSigs(Questions(card)))
  }

  /** A field key without `|` is recovered from its signature entry: such entries never collide. */
  lemma {:induction false} QuestionSigInjective(fk1: string, it1: string, fk2: string, it2: string)
    requires '|' !in fk1 && '|' !in fk2
    requires QuestionSig(fk1, it1) == QuestionSig(fk2, it2)
    ensures fk1 == fk2 && it1 == it2
  {
    var s := QuestionSig(fk1, it1);
    assert CharIndex(s, '|') == |fk1| by {
      CharIndexAfterPrefix(fk1, it1);
    }
    assert CharIndex(s, '|') == |fk2| by {
      CharIndexAfterPrefix(fk2, it2);
    }
    assert fk1 == s[..|fk1|] == fk2;
    assert it1 == s[|fk1| + 1..] == it2;
  }

  lemma {:induction false} CharIndexAfterPrefix(fk: string, it: string)
    requires '|' !in fk
    ensures CharIndex(fk + "|" + it, '|') == |fk|
  {
    if fk != [] {
      assert (fk + "|" + it)[1..] == fk[1..] + "|" + it;
      CharIndexAfterPrefix(fk[1..], it);
    }
  }

  /** With a `|` inside a field key two different questions give the same entry. */
  lemma {:induction false} QuestionSigAmbiguous()
    ensures QuestionSig("a|b", "c") == QuestionSig("a", "b|c")
  {
  }

  /** What the services answer to. */
  datatype Call =
    | SessionCall(sessionId: string)
    | PendingCardCall(sessionId: string)
    | ResumeCall(sessionId: string, userResponse: Json, pendingCard: Json, maxLoops: int)
    | ChatCall(sessionId: string, text: string, attachments: seq<string>, maxLoops: int)

  /**
   * The API client as the flow sees it: every call is logged and answered
   * with `reply(n, call)` for the n-th call; `hasUserMessage` is the verdict
   * of `assert_has_user_message` on a resume reply.
   */
  class Backend {
    const reply: (nat, Call) -> Json
    const hasUserMessage: Json -> bool
    var log: seq<Call>

    constructor(reply: (nat, Call) -> Json, hasUserMessage: Json -> bool)
      ensures this.reply == reply && this.hasUserMessage == hasUserMessage && log == []
    {
      this.reply := reply;
      this.hasUserMessage := hasUserMessage;
      log := [];
    }

    method Send(c: Call) returns (r: Json)
      modifies this`log
      ensures log == old(log) + [c]
      ensures r == reply(old(|log|), c)
    {
      r := reply(|log|, c);
      log := log + [c];
    }
  }

  /** What a goal passed to `run_until` may look at. */
  datatype FlowState = FlowState(matterId: Option<string>, seenCards: seq<Json>, seenSse: seq<Json>, lastSse: Option<Json>)

  datatype RunOutcome =
    | Reached
    | StepFailed(error: ErrorKind)
    | Exhausted(sessionId: string, matterId: Option<string>)

  /** The signature of each card, in order. */
  function Signatures(sign: Json -> CardSig, cards: seq<Json>): (r: seq<CardSig>)
    ensures |r| == |cards|
  {
    if cards == [] then [] else Signatures(sign, cards[..|cards| - 1]) + [sign(cards[|cards| - 1])]
  }

  /** Recording one more card appends exactly its signature. */
  lemma {:induction false} SignaturesSnoc(sign: Json -> CardSig, cards: seq<Json>, c: Json)
    ensures Signatures(sign, cards + [c]) == Signatures(sign, cards) + [sign(c)]
  {
    assert (cards + [c])[..|cards|] == cards;
  }

  lemma {:induction false} SignaturesAt(sign: Json -> CardSig, cards: seq<Json>, i: nat)
    requires i < |cards|
    ensures Signatures(sign, cards)[i] == sign(cards[i])
  {
    if i < |cards| - 1 {
      SignaturesAt(sign, cards[..|cards| - 1], i);
    }
  }

  /** `auto_answer_card` with the overrides and uploads fixed, as a flow applies it to each card. */
  function Answerer(overrides: Json, uploadedFileIds: seq<string>): (f: Json -> Json)
    ensures forall card: Json {:trigger AutoAnswerCard(card, overrides, uploadedFileIds)} :: card.Obj? ==> f(card) == AutoAnswerCard(card, overrides, uploadedFileIds)
  {
    (card: Json) => if card.Obj? then AutoAnswerCard(card, overrides, uploadedFileIds) else Null
  }

  class WorkbenchFlow {
    const client: Backend
    const sessionId: string
    const uploadedFileIds: seq<string>
    const overrides: Json
    const resumeMaxLoops: int
    /** `card_signature` and `auto_answer_card` (with this flow's overrides and uploads), fixed at construction. */
    const sign: Json -> CardSig
    const answer: Json -> Json
    var matterId: Option<string>
    var seenCards: seq<Json>
    var seenCardSignatures: seq<CardSig>
    var seenSse: seq<Json>
    var lastSse: Option<Json>

    /** The audit trail: one signature per answered card, the last SSE reply is the last one seen. */
    predicate Valid()
      reads this
    {
      SignaturesValid() && SseValid()
    }

    /** One signature per recorded card, in the same order. */
    predicate SignaturesValid()
      reads this`seenCards, this`seenCardSignatures
    {
      seenCardSignatures == Signatures(sign, seenCards)
    }

    /** `last_sse` is the most recent recorded SSE reply, and there is one exactly when some reply was recorded. */
    predicate SseValid()
      reads this`seenSse, this`lastSse
    {
      (lastSse.Some? <==> seenSse != [])
      && (lastSse.Some? ==> lastSse.value == seenSse[|seenSse| - 1])
    }

    function State(): FlowState
      reads this
    {
      FlowState(matterId, seenCards, seenSse, lastSse)
    }

    constructor(client: Backend, sessionId: string, uploadedFileIds: seq<string>, overrides: Json, resumeLoopsEnv: Option<string>)
      ensures Valid()
      ensures this.client == client && this.sessionId == sessionId
      ensures this.uploadedFileIds == uploadedFileIds && this.overrides == overrides
      ensures resumeMaxLoops == ResumeMaxLoops(resumeLoopsEnv)
      ensures sign == CardSignature
      ensures answer == Answerer(overrides, uploadedFileIds)
      ensures matterId.None? && seenCards == [] && seenSse == [] && lastSse.None?
    {
      this.client := client;
      this.sessionId := sessionId;
      this.uploadedFileIds := uploadedFileIds;
      this.overrides := overrides;
      resumeMaxLoops := ResumeMaxLoops(resumeLoopsEnv);
      sign := CardSignature;
      answer := Answerer(overrides, uploadedFileIds);
      matterId := None;
      seenCards := [];
      seenCardSignatures := [];
      seenSse := [];
      lastSse := None;
    }

    /** `refresh`: adopt the session's `matter_id` when it has one; a known matter id is never dropped. */
    method Refresh()
      requires Valid()
      modifies this`matterId, client`log
      ensures Valid()
      ensures client.log == old(client.log) + [SessionCall(sessionId)]
      ensures var sess := UnwrapApiResponse(client.reply(|old(client.log)|, SessionCall(sessionId)));
        matterId == if sess.Obj? && Get(sess, "matter_id") != Null then Some(Strip(PyStr(Get(sess, "matter_id")))) else old(matterId)
      ensures old(matterId).Some? ==> matterId.Some?
    {
      var resp := client.Send(SessionCall(sessionId));
      var sess := UnwrapApiResponse(resp);
      if sess.Obj? && Get(sess, "matter_id") != Null {
        matterId := Some(Strip(PyStr(Get(sess, "matter_id"))));
      }
    }

    /** `get_pending_card`: the unwrapped pending card when it is a non-empty dict. */
    method GetPendingCard() returns (card: Option<Json>)
      modifies client`log
      ensures client.log == old(client.log) + [PendingCardCall(sessionId)]
      ensures card == PendingAt(|old(client.log)|)
      ensures card.Some? ==> NonEmptyDict(card.value)
    {
      var resp := client.Send(PendingCardCall(sessionId));
      var c := UnwrapApiResponse(resp);
      card := if NonEmptyDict(c) then Some(c) else None;
    }

    /**
     * `resume_card`: record the card and its signature, answer it with
     * `auto_answer_card`, resume the session with that answer, and record a
     * dict reply as the last SSE. The kickoff card and any other card take
     * the same path.
     */
    method ResumeCard(card: Json) returns (r: Result<Json>)
      requires Valid() && card.Obj?
      modifies this`seenCards, this`seenCardSignatures, this`seenSse, this`lastSse, client`log
      ensures Valid()
      ensures seenCards == old(seenCards) + [card]
      ensures seenCardSignatures == old(seenCardSignatures) + [sign(card)]
      ensures var call := ResumeCall(sessionId, answer(card), card, resumeMaxLoops);
        var sse := client.reply(|old(client.log)|, call);
        && client.log == old(client.log) + [call]
        && (if !client.hasUserMessage(sse) then r == Err(AssertionError) else r == Ok(sse))
        && (client.hasUserMessage(sse) && sse.Obj? ==> seenSse == old(seenSse) + [sse] && lastSse == Some(sse))
        && (!client.hasUserMessage(sse) || !sse.Obj? ==> seenSse == old(seenSse) && lastSse == old(lastSse))
    {
      seenCards := seenCards + [card];
      seenCardSignatures := seenCardSignatures + [sign(card)];
      SignaturesSnoc(sign, old(seenCards), card);
      var userResponse := answer(card);
      var sse := client.Send(ResumeCall(sessionId, userResponse, card, resumeMaxLoops));
      if !client.hasUserMessage(sse) {
        return Err(AssertionError);
      }
      if sse.Obj? {
        lastSse := Some(sse);
        seenSse := seenSse + [sse];
      }
      r := Ok(sse);
    }

    /** `nudge`: send a chat message and record a dict reply as the last SSE. */
    method Nudge(text: string, attachments: seq<string>, maxLoops: int) returns (sse: Json)
      requires Valid()
      modifies this`seenSse, this`lastSse, client`log
      ensures Valid()
      ensures client.log == old(client.log) + [ChatCall(sessionId, text, attachments, maxLoops)]
      ensures sse == client.reply(|old(client.log)|, ChatCall(sessionId, text, attachments, maxLoops))
      ensures sse.Obj? ==> seenSse == old(seenSse) + [sse] && lastSse == Some(sse)
      ensures !sse.Obj? ==> seenSse == old(seenSse) && lastSse == old(lastSse)
    {
      sse := client.Send(ChatCall(sessionId, text, attachments, maxLoops));
      if sse.Obj? {
        lastSse := Some(sse);
        seenSse := seenSse + [sse];
      }
    }

    /**
     * `step`: refresh, then answer the pending card if there is one, or
     * nudge with the given text (no attachments, 12 loops) if there is not.
     * Exactly one card is recorded when a card was pending, none otherwise.
     */
    method Step(nudgeText: string) returns (r: Result<Json>)
      requires Valid()
      modifies this`matterId, this`seenCards, this`seenCardSignatures, this`seenSse, this`lastSse, client`log
      ensures Valid()
      ensures old(matterId).Some? ==> matterId.Some?
      ensures var sess := UnwrapApiResponse(client.reply(|old(client.log)|, SessionCall(sessionId)));
        matterId == if sess.Obj? && Get(sess, "matter_id") != Null then Some(Strip(PyStr(Get(sess, "matter_id")))) else old(matterId)
      ensures var card := PendingAt(|old(client.log)| + 1);
        client.log == old(client.log) + [SessionCall(sessionId), PendingCardCall(sessionId), StepCall(card, nudgeText)]
      ensures var card := PendingAt(|old(client.log)| + 1);
        seenCards == (if card.Some? then old(seenCards) + [card.value] else old(seenCards))
      ensures var card := PendingAt(|old(client.log)| + 1);
        var sse := client.reply(|old(client.log)| + 2, StepCall(card, nudgeText));
        && (if card.Some? && !client.hasUserMessage(sse) then r == Err(AssertionError) else r == Ok(sse))
        && (r.Ok? && sse.Obj? ==> seenSse == old(seenSse) + [sse] && lastSse == Some(sse))
        && (!(r.Ok? && sse.Obj?) ==> seenSse == old(seenSse) && lastSse == old(lastSse))
    {
      ghost var log0 := client.log;
      Refresh();
      ghost var log1 := client.log;
      ghost var m1 := matterId;
      var card := GetPendingCard();
      assert card == PendingAt(|log0| + 1);
      ghost var log2 := client.log;
      assert |log2| == |log0| + 2;
      r := Answer(card, nudgeText);
      assert matterId == m1;
      assert client.log == log2 + [StepCall(card, nudgeText)];
      assert log2 == log1 + [PendingCardCall(sessionId)];
      assert log1 == log0 + [SessionCall(sessionId)];
      assert client.log == log0 + [SessionCall(sessionId), PendingCardCall(sessionId), StepCall(card, nudgeText)];
    }

    /** The pending card the n-th call, a pending-card read, finds: the unwrapped reply when it is a non-empty dict. */
    function PendingAt(n: nat): Option<Json>
    {
      var c := UnwrapApiResponse(client.reply(n, PendingCardCall(sessionId)));
      if NonEmptyDict(c) then Some(c) else None
    }

    /** The call `step` makes for the card it read: resume a pending card, else nudge with no attachments and 12 loops. */
    function StepCall(card: Option<Json>, nudgeText: string): (call: Call)
      ensures card.Some? ==> call == ResumeCall(sessionId, answer(card.value), card.value, resumeMaxLoops)
      ensures card.None? ==> call == ChatCall(sessionId, nudgeText, [], 12)
    {
      match card
      case Some(c) => ResumeCall(sessionId, answer(c), c, resumeMaxLoops)
      case None => ChatCall(sessionId, nudgeText, [], 12)
    }

    /** The second half of `step`: resume the card read, or nudge when there was none. */
    method Answer(card: Option<Json>, nudgeText: string) returns (r: Result<Json>)
      requires Valid() && (card.Some? ==> card.value.Obj?)
      modifies this`seenCards, this`seenCardSignatures, this`seenSse, this`lastSse, client`log
      ensures Valid()
      ensures client.log == old(client.log) + [StepCall(card, nudgeText)]
      ensures seenCards == (if card.Some? then old(seenCards) + [card.value] else old(seenCards))
      ensures var sse := client.reply(|old(client.log)|, StepCall(card, nudgeText));
        && (if card.Some? && !client.hasUserMessage(sse) then r == Err(AssertionError) else r == Ok(sse))
        && (r.Ok? && sse.Obj? ==> seenSse == old(seenSse) + [sse] && lastSse == Some(sse))
        && (!(r.Ok? && sse.Obj?) ==> seenSse == old(seenSse) && lastSse == old(lastSse))
    {
      if card.Some? {
        r := ResumeCard(card.value);
      } else {
        var sse := Nudge(nudgeText, [], 12);
        r := Ok(sse);
      }
    }

    /**
     * The outcome of `step` from state `s` when `n` calls were made before
     * it: the state it leaves behind and what it returns. A known matter id
     * is kept, the card read is recorded, only a resume can fail, an `Ok`
     * carries the reply to the call made, and at most that reply is
     * recorded as the last SSE.
     */
    function StepFrom(s: FlowState, n: nat, nudgeText: string): (o: (FlowState, Result<Json>))
      ensures s.matterId.Some? ==> o.0.matterId.Some?
      ensures o.0.seenCards == s.seenCards + (if PendingAt(n + 1).Some? then [PendingAt(n + 1).value] else [])
      ensures o.1.Err? ==> PendingAt(n + 1).Some? && o.1 == Err(AssertionError)
      ensures o.1.Ok? ==> o.1.value == client.reply(n + 2, StepCall(PendingAt(n + 1), nudgeText))
      ensures o.0.seenSse == s.seenSse || (o.1.Ok? && o.0.seenSse == s.seenSse + [o.1.value] && o.0.lastSse == Some(o.1.value))
    {
      var sess := UnwrapApiResponse(client.reply(n, SessionCall(sessionId)));
      var mid := if sess.Obj? && Get(sess, "matter_id") != Null then Some(Strip(PyStr(Get(sess, "matter_id")))) else s.matterId;
      var card := PendingAt(n + 1);
      var sse := client.reply(n + 2, StepCall(card, nudgeText));
      var r: Result<Json> := if card.Some? && !client.hasUserMessage(sse) then Err(AssertionError) else Ok(sse);
      var cards := if card.Some? then s.seenCards + [card.value] else s.seenCards;
      if r.Ok? && sse.Obj? then (FlowState(mid, cards, s.seenSse + [sse], Some(sse)), r)
      else (FlowState(mid, cards, s.seenSse, s.lastSse), r)
    }

    /** `step` as `run_until` sees it: its three calls, and the state and result `StepFrom` gives. */
    method CountedStep(nudgeText: string) returns (r: Result<Json>)
      requires Valid()
      modifies this`matterId, this`seenCards, this`seenCardSignatures, this`seenSse, this`lastSse, client`log
      ensures Valid()
      ensures client.log == old(client.log) + [SessionCall(sessionId), PendingCardCall(sessionId), StepCall(PendingAt(|old(client.log)| + 1), nudgeText)]
      ensures (State(), r) == StepFrom(old(State()), |old(client.log)|, nudgeText)
    {
      ghost var s0 := State();
      ghost var n := |client.log|;
      r := Step(nudgeText);
      assert (State(), r) == StepFrom(s0, n, nudgeText);
    }

    /** The step taken from the k-th recorded state, when each step makes three calls and the first begins after `n`. */
    function StepAt(states: seq<FlowState>, n: nat, nudgeText: string, k: nat): (FlowState, Result<Json>)
      requires k < |states|
    {
      StepFrom(states[k], n + 3 * k, nudgeText)
    }

    /**
     * Each state after the first is the one the step from the state before
     * it left behind, the k-th step beginning after `n + 3k` calls; every
     * step succeeded, except the last when `failed`.
     */
    ghost predicate Ran(states: seq<FlowState>, n: nat, nudgeText: string, failed: bool)
    {
      forall k: nat {:trigger StepAt(states, n, nudgeText, k)} :: k < |states| - 1 ==>
        && StepAt(states, n, nudgeText, k).0 == states[k + 1]
        && (StepAt(states, n, nudgeText, k).1.Ok? <==> !(failed && k == |states| - 2))
    }

    /** Recording the state one more step left behind extends a run of successful steps. */
    lemma {:induction false} RanSnoc(states: seq<FlowState>, n: nat, nudgeText: string, next: FlowState, failed: bool)
      requires |states| > 0 && Ran(states, n, nudgeText, false)
      requires StepAt(states, n, nudgeText, |states| - 1).0 == next
      requires StepAt(states, n, nudgeText, |states| - 1).1.Ok? <==> !failed
      ensures Ran(states + [next], n, nudgeText, failed)
    {
      var all := states + [next];
      forall k: nat | k < |all| - 1
        ensures StepAt(all, n, nudgeText, k).0 == all[k + 1]
        ensures StepAt(all, n, nudgeText, k).1.Ok? <==> !(failed && k == |all| - 2)
      {
        assert all[k] == states[k];
        assert StepAt(all, n, nudgeText, k) == StepAt(states, n, nudgeText, k);
        if k < |states| - 1 {
          assert all[k + 1] == states[k + 1];
        }
      }
    }

    /** One step of `run_until`, recorded on the trail of states. */
    method Advance(nudgeText: string, ghost trail: seq<FlowState>, ghost n0: nat) returns (s: Result<Json>, ghost trail': seq<FlowState>)
      requires Valid() && |trail| > 0 && trail[|trail| - 1] == State()
      requires Ran(trail, n0, nudgeText, false) && |client.log| == n0 + 3 * (|trail| - 1)
      modifies this`matterId, this`seenCards, this`seenCardSignatures, this`seenSse, this`lastSse, client`log
      ensures Valid()
      ensures trail' == trail + [State()]
      ensures Ran(trail', n0, nudgeText, s.Err?)
      ensures |client.log| == n0 + 3 * (|trail'| - 1)
      ensures s.Err? ==> StepAt(trail', n0, nudgeText, |trail'| - 2).1 == s
      ensures old(matterId).Some? ==> matterId.Some?
    {
      ghost var here := State();
      ghost var n := |client.log|;
      s := CountedStep(nudgeText);
      StepAtLast(trail, n0, nudgeText, here, n);
      RanSnoc(trail, n0, nudgeText, State(), s.Err?);
      trail' := trail + [State()];
      StepAtSnoc(trail, n0, nudgeText, State());
    }

    /** The step from the last state of a trail is the step from that state after the trail's calls. */
    lemma {:induction false} StepAtLast(trail: seq<FlowState>, n0: nat, nudgeText: string, here: FlowState, n: nat)
      requires |trail| > 0 && trail[|trail| - 1] == here && n == n0 + 3 * (|trail| - 1)
      ensures StepAt(trail, n0, nudgeText, |trail| - 1) == StepFrom(here, n, nudgeText)
    {
    }

    /** Recording one more state does not change the steps taken before it. */
    lemma {:induction false} StepAtSnoc(trail: seq<FlowState>, n0: nat, nudgeText: string, next: FlowState)
      requires |trail| > 0
      ensures StepAt(trail + [next], n0, nudgeText, |trail| - 1) == StepAt(trail, n0, nudgeText, |trail| - 1)
    {
      assert (trail + [next])[|trail| - 1] == trail[|trail| - 1];
    }

    /**
     * `run_until`: before each of at most `maxSteps` steps, ask the goal;
     * stop as soon as it holds, otherwise take a step. The goal sees the
     * check's number and the flow's state. `trail` lists the states the
     * flow went through: the state on entry, then the state each step left
     * behind; the goal was asked about each of them but the one a failed
     * step or the last allowed step left behind.
     */
    method RunUntil(goal: (nat, FlowState) -> bool, maxSteps: int, nudgeText: string)
      returns (r: RunOutcome, ghost trail: seq<FlowState>)
      requires Valid()
      modifies this`matterId, this`seenCards, this`seenCardSignatures, this`seenSse, this`lastSse, client`log
      ensures Valid()
      ensures |trail| > 0 && trail[0] == old(State()) && trail[|trail| - 1] == State()
      ensures Ran(trail, |old(client.log)|, nudgeText, r.StepFailed?)
      ensures |client.log| == |old(client.log)| + 3 * (|trail| - 1)
      ensures Unmet(goal, trail)
      ensures r.Reached? ==> |trail| <= maxSteps && goal(|trail| - 1, trail[|trail| - 1])
      ensures r.StepFailed? ==> (2 <= |trail| <= maxSteps + 1
        && StepAt(trail, |old(client.log)|, nudgeText, |trail| - 2).1 == Err(r.error))
      ensures r.Exhausted? ==> |trail| - 1 == (if maxSteps < 0 then 0 else maxSteps) && r == Exhausted(sessionId, matterId)
      ensures old(matterId).Some? ==> matterId.Some?
    {
      trail := [State()];
      ghost var n0 := |client.log|;
      var steps: nat := if maxSteps < 0 then 0 else maxSteps;
      var i := 1;
      while i <= steps
        invariant Valid()
        invariant 1 <= i <= steps + 1 && |trail| == i
        invariant trail[0] == old(State()) && trail[|trail| - 1] == State()
        invariant Ran(trail, n0, nudgeText, false)
        invariant Unmet(goal, trail)
        invariant |client.log| == n0 + 3 * (|trail| - 1)
        invariant old(matterId).Some? ==> matterId.Some?
      {
        if goal(i - 1, State()) {
          return Reached, trail;
        }
        assert !goal(|trail| - 1, trail[|trail| - 1]);
        ghost var before := trail;
        var s;
        s, trail := Advance(nudgeText, trail, n0);
        UnmetSnoc(goal, before, State());
        if s.Err? {
          return StepFailed(s.error), trail;
        }
        i := i + 1;
      }
      r := Exhausted(sessionId, matterId);
    }
  }

  /** The goal failed on every state but the last of the trail. */
  ghost predicate Unmet(goal: (nat, FlowState) -> bool, trail: seq<FlowState>)
  {
    forall j: nat {:trigger GoalAt(goal, trail, j)} :: j < |trail| - 1 ==> !GoalAt(goal, trail, j)
  }

  /** Recording one more state after a failed check keeps `Unmet`. */
  lemma {:induction false} UnmetSnoc(goal: (nat, FlowState) -> bool, trail: seq<FlowState>, next: FlowState)
    requires |trail| > 0 && Unmet(goal, trail) && !goal(|trail| - 1, trail[|trail| - 1])
    ensures Unmet(goal, trail + [next])
  {
    var all := trail + [next];
    forall j: nat | j < |all| - 1
      ensures !GoalAt(goal, all, j)
    {
      assert all[j] == trail[j];
      assert GoalAt(goal, all, j) == GoalAt(goal, trail, j);
    }
  }

  /** The goal as asked at the j-th check, about the j-th state of the trail. */
  function GoalAt(goal: (nat, FlowState) -> bool, trail: seq<FlowState>, j: nat): bool
    requires j < |trail|
  {
    goal(j, trail[j])
  }

  /** A goal that holds at the k-th check of a trail on whose earlier states it failed is reached after exactly k steps. */
  lemma {:induction false} ReachedAtFirstTrue(goal: (nat, FlowState) -> bool, trail: seq<FlowState>, k: nat)
    requires k < |trail| && goal(k, trail[k])
    requires Unmet(goal, trail)
    ensures k == |trail| - 1
  {
    assert k < |trail| - 1 ==> !GoalAt(goal, trail, k);
  }
}
