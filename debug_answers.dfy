/**
 * The card auto-answerers of the debug runners: each runner carries its own
 * copy of `_auto_answer_card`, and the copies have drifted apart in how they
 * treat overrides, defaults, file fields and optional questions.
 *
 * - run_complex_traffic_accident_flow_debug.py: exact-key overrides (a None
 *   override is sent as it is), `preprocess_stop_ask` answered False, file
 *   fields get every uploaded id, optional None answers are left out.
 * - run_multi_documents_flow_debug.py: the one-level override resolution of
 *   the flow runner, a default-first heuristic, one answer per question.
 * - run_bus_passenger_injury_flow_debug.py: exact-key overrides and the same
 *   default-first heuristic, one answer per question.
 * - run_litigation_flow_debug.py and run_litigation_multi_docs_debug.py:
 *   fixed answers that ignore defaults, with at most one uploaded id; the
 *   second also picks the requested documents.
 *
 * The answerer of run_legal_opinion_flow_debug.py lives in LegalOpinion with
 * the runner's drive loop.
 */
module DebugAnswers {
  import opened Json
  import opened Text
  import opened Cards

  const AttachmentKey: string := "attachment_file_ids"

  /** `[first] if first is not None else []` for `first = _pick_recommended_or_first(options)`. */
  function FirstPickList(opts: seq<Json>): (r: Json)
    ensures r.List? && |r.items| <= 1
    ensures r.items == [] <==> forall i :: 0 <= i < |opts| ==> !Valued(opts[i])
    ensures r.items != [] ==> r.items == [PickRecommendedOrFirst(List(opts))]
  {
    var first := PickRecommendedOrFirst(List(opts));
    if first != Null then List([first]) else List([])
  }

  /** Whether a question falls through to the file branch: not boolean, select or multi-select, and a file type or the attachment key. */
  predicate FileBranch(fk: string, it: string)
  {
    !IsBoolType(it) && !IsSelectType(it) && !IsMultiType(it) && (IsFileType(it) || fk == AttachmentKey)
  }

  /**
   * The default-first value of the traffic-accident, multi-documents and
   * bus-passenger runners: a default that counts wins for booleans,
   * selects, multi-selects and text; without one a boolean is True, a
   * select takes the recommended-or-first value, a multi-select the list of
   * it, and text `"已确认"` when required and None otherwise. File fields
   * take `fileValue`, which each runner computes its own way.
   */
  function DefaultFirstValue(fk: string, it: string, req: bool, d: Json, opts: seq<Json>, fileValue: Json): (r: Json)
    ensures FileBranch(fk, it) ==> r == fileValue
    ensures !FileBranch(fk, it) && HasDefault(d) ==> r == d
    ensures !FileBranch(fk, it) && r == Null ==> !HasDefault(d) && (IsSelectType(it) || (!req && !IsBoolType(it) && !IsMultiType(it)))
  {
    if IsBoolType(it) then (if HasDefault(d) then d else Bool(true))
    else if IsSelectType(it) then (if HasDefault(d) then d else PickRecommendedOrFirst(List(opts)))
    else if IsMultiType(it) then (if HasDefault(d) then d else FirstPickList(opts))
    else if IsFileType(it) || fk == AttachmentKey then fileValue
    else if HasDefault(d) then d
    else if req then Str(Confirmed)
    else Null
  }

  /** A multi-select without a default that counts gets the recommended-or-first value as a one-item list, or an empty list. */
  lemma MultiWithoutDefault(fk: string, it: string, req: bool, d: Json, opts: seq<Json>, fileValue: Json)
    requires IsMultiType(it) && !HasDefault(d)
    ensures var p := PickRecommendedOrFirst(List(opts));
      DefaultFirstValue(fk, it, req, d, opts, fileValue) == if p != Null then List([p]) else List([])
  {
    assert !IsBoolType(it) && !IsSelectType(it);
  }

  // ---------------------------------------------------------------------
  // run_complex_traffic_accident_flow_debug.py

  const StopAskKey: string := "data.files.preprocess_stop_ask"

  /**
   * The answer of the traffic-accident runner for a question without an
   * override: file fields get every uploaded id, the value is repaired when
   * required, and an optional question whose value is None is left out.
   */
  function TrafficAnswerOf(fk: string, it: string, req: bool, d: Json, opts: seq<Json>, uploaded: seq<string>): (r: Option<Answer>)
    ensures r.Some? ==> r.value.fieldKey == fk
    ensures r.None? <==> !req && DefaultFirstValue(fk, it, req, d, opts, StrList(uploaded)) == Null
    ensures req ==> r.Some? && !IsEmptyAnswer(r.value.value)
    ensures r.Some? ==> r.value.value != Null
  {
    var value := Repair(it, req, DefaultFirstValue(fk, it, req, d, opts, StrList(uploaded)));
    if value == Null && !req then None else Some(Answer(fk, value))
  }

  /** `_auto_answer_card` of the traffic-accident runner on one question. */
  function TrafficAnswerFor(q: Json, overrides: Json, uploaded: seq<string>): (r: Option<Answer>)
    ensures r.Some? ==> Answerable(q) && r.value.fieldKey == FieldKey(q)
  {
    if !Answerable(q) then None
    else
      var fk := FieldKey(q);
      if Has(overrides, fk) then Some(Answer(fk, Get(overrides, fk)))
      else if fk == StopAskKey then Some(Answer(fk, Bool(false)))
      else TrafficAnswerOf(fk, InputType(q), Required(q), Get(q, "default"), Options(q), uploaded)
  }

  function TrafficDecide(overrides: Json, uploaded: seq<string>): Json -> Option<Answer>
  {
    q => TrafficAnswerFor(q, overrides, uploaded)
  }

  /** The answers of the traffic-accident runner, in question order. */
  function TrafficAnswers(card: Json, overrides: Json, uploaded: seq<string>): seq<Answer>
  {
    Collect(Questions(card), TrafficDecide(overrides, uploaded))
  }

  /** `_auto_answer_card` of the traffic-accident runner: `{"answers": [...]}`. */
  function TrafficAutoAnswerCard(card: Json, overrides: Json, uploaded: seq<string>): (r: Json)
    ensures Get(r, "answers").List? && |Get(r, "answers").items| <= |Questions(card)|
  {
    UserResponse(TrafficAnswers(card, overrides, uploaded))
  }

  /** A field key present in the overrides is answered with that override, unchanged, even when it is None. */
  lemma {:induction false} TrafficOverrideSent(card: Json, overrides: Json, uploaded: seq<string>, q: Json)
    requires q in Questions(card) && Answerable(q) && Has(overrides, FieldKey(q))
    ensures Answer(FieldKey(q), Get(overrides, FieldKey(q))) in TrafficAnswers(card, overrides, uploaded)
  {
    CollectComplete(Questions(card), TrafficDecide(overrides, uploaded));
  }

  /** Without an override, `data.files.preprocess_stop_ask` is answered False, whatever the question says. */
  lemma {:induction false} TrafficStopAskFalse(card: Json, overrides: Json, uploaded: seq<string>, q: Json)
    requires q in Questions(card) && FieldKey(q) == StopAskKey && q.Obj? && !Has(overrides, StopAskKey)
    ensures Answer(StopAskKey, Bool(false)) in TrafficAnswers(card, overrides, uploaded)
  {
    CollectComplete(Questions(card), TrafficDecide(overrides, uploaded));
  }

  /**
   * A file field gets the whole list of uploaded ids, required or not; a
   * required one without uploads is repaired to `"已确认"`, so it is sent as
   * text, and an optional one is sent as an empty list.
   */
  lemma TrafficFileField(fk: string, it: string, req: bool, d: Json, opts: seq<Json>, uploaded: seq<string>)
    requires FileBranch(fk, it)
    ensures TrafficAnswerOf(fk, it, req, d, opts, uploaded)
      == Some(Answer(fk, if req && uploaded == [] then Str(Confirmed) else StrList(uploaded)))
  {
    if uploaded == [] {
      assert StrList(uploaded).items == [];
    }
  }

  /**
   * The only answers that are None come from overrides: every other value
   * is repaired or, for an optional question, left out.
   */
  lemma {:induction false} TrafficNoneOnlyFromOverrides(card: Json, overrides: Json, uploaded: seq<string>)
    ensures forall a :: a in TrafficAnswers(card, overrides, uploaded) && a.value == Null ==>
      (Has(overrides, a.fieldKey) && Get(overrides, a.fieldKey) == Null)
  {
    var f := TrafficDecide(overrides, uploaded);
    CollectSound(Questions(card), f);
    forall a | a in TrafficAnswers(card, overrides, uploaded) && a.value == Null
      ensures Has(overrides, a.fieldKey) && Get(overrides, a.fieldKey) == Null
    {
      var q :| q in Questions(card) && f(q) == Some(a);
      assert TrafficAnswerFor(q, overrides, uploaded) == Some(a);
    }
  }

  /**
   * A required question without an override is always answered, with a
   * value that is not empty; an optional one is left out exactly when its
   * value is None.
   */
  lemma {:induction false} TrafficRequiredAnswered(card: Json, overrides: Json, uploaded: seq<string>, q: Json)
    requires q in Questions(card) && Answerable(q) && Required(q) && !Has(overrides, FieldKey(q))
    ensures exists a :: a in TrafficAnswers(card, overrides, uploaded) && a.fieldKey == FieldKey(q) && !IsEmptyAnswer(a.value)
  {
    var f := TrafficDecide(overrides, uploaded);
    CollectComplete(Questions(card), f);
    assert f(q).Some? && !IsEmptyAnswer(f(q).value.value);
  }

  // ---------------------------------------------------------------------
  // run_multi_documents_flow_debug.py and run_bus_passenger_injury_flow_debug.py

  /**
   * The file value of the multi-documents and bus-passenger runners: a
   * default that counts, else every uploaded id for `attachment_file_ids`,
   * else an empty list when optional, else only the first uploaded id.
   */
  function DocumentFileValue(fk: string, req: bool, d: Json, uploaded: seq<string>): (r: Json)
    ensures HasDefault(d) ==> r == d
    ensures !HasDefault(d) && fk == AttachmentKey ==> r == StrList(uploaded)
    ensures !HasDefault(d) && fk != AttachmentKey ==>
      (r.List? && |r.items| <= 1 && (r.items != [] <==> req && uploaded != [])
       && (r.items != [] ==> r.items[0] == Str(uploaded[0])))
  {
    if HasDefault(d) then d
    else if fk == AttachmentKey then StrList(uploaded)
    else if !req then List([])
    else StrList(uploaded[..if uploaded == [] then 0 else 1])
  }

  /** The repaired default-first answer, sent for every question: nothing is left out. */
  function DocumentAnswerOf(fk: string, it: string, req: bool, d: Json, opts: seq<Json>, uploaded: seq<string>): (r: Answer)
    ensures r.fieldKey == fk
    ensures req ==> !IsEmptyAnswer(r.value)
  {
    Answer(fk, Repair(it, req, DefaultFirstValue(fk, it, req, d, opts, DocumentFileValue(fk, req, d, uploaded))))
  }

  function DocumentAnswerFromQuestion(q: Json, uploaded: seq<string>): (r: Answer)
    ensures r.fieldKey == FieldKey(q)
  {
    DocumentAnswerOf(FieldKey(q), InputType(q), Required(q), Get(q, "default"), Options(q), uploaded)
  }

  /**
   * A non-attachment file field without a default gets an empty list when
   * optional and only the first uploaded id when required; a required one
   * without uploads is repaired to `"已确认"`.
   */
  lemma DocumentFileField(fk: string, it: string, req: bool, d: Json, opts: seq<Json>, uploaded: seq<string>)
    requires FileBranch(fk, it) && fk != AttachmentKey && !HasDefault(d)
    ensures DocumentAnswerOf(fk, it, req, d, opts, uploaded).value
      == if !req then List([]) else if uploaded == [] then Str(Confirmed) else List([Str(uploaded[0])])
  {
    var v := DocumentFileValue(fk, req, d, uploaded);
    if req && uploaded != [] {
      assert v.items == [Str(uploaded[0])];
    }
  }

  /** An optional text question without a default is answered None: unlike the flow runner, nothing is left out. */
  lemma DocumentOptionalNoneSent(fk: string, it: string, d: Json, opts: seq<Json>, uploaded: seq<string>)
    requires !IsBoolType(it) && !IsSelectType(it) && !IsMultiType(it) && !IsFileType(it) && fk != AttachmentKey
    requires !HasDefault(d)
    ensures DocumentAnswerOf(fk, it, false, d, opts, uploaded) == Answer(fk, Null)
  {
  }

  /** `_auto_answer_card` of the multi-documents runner on one question: a resolved override that is not None wins. */
  function MultiDocumentsAnswerFor(q: Json, overrides: Json, uploaded: seq<string>): (r: Option<Answer>)
    ensures r.Some? <==> Answerable(q)
    ensures r.Some? ==> r.value.fieldKey == FieldKey(q)
  {
    if !Answerable(q) then None
    else
      var ov := ResolveOverrideValue(FieldKey(q), overrides);
      if ov != Null then Some(Answer(FieldKey(q), ov))
      else Some(DocumentAnswerFromQuestion(q, uploaded))
  }

  function MultiDocumentsDecide(overrides: Json, uploaded: seq<string>): Json -> Option<Answer>
  {
    q => MultiDocumentsAnswerFor(q, overrides, uploaded)
  }

  function MultiDocumentsAnswers(card: Json, overrides: Json, uploaded: seq<string>): seq<Answer>
  {
    Collect(Questions(card), MultiDocumentsDecide(overrides, uploaded))
  }

  /** `_auto_answer_card` of the multi-documents runner: `{"answers": [...]}`. */
  function MultiDocumentsAutoAnswerCard(card: Json, overrides: Json, uploaded: seq<string>): (r: Json)
    ensures Get(r, "answers").List? && |Get(r, "answers").items| <= |Questions(card)|
  {
    UserResponse(MultiDocumentsAnswers(card, overrides, uploaded))
  }

  /** Exactly one answer per question with a field key, in question order. */
  lemma {:induction false} MultiDocumentsOnePerQuestion(card: Json, overrides: Json, uploaded: seq<string>)
    ensures Keys(MultiDocumentsAnswers(card, overrides, uploaded)) == AnswerableKeys(Questions(card))
  {
    CollectKeys(Questions(card), MultiDocumentsDecide(overrides, uploaded));
  }

  /**
   * An override that resolves to a value other than None, through the exact
   * key or one level of dotted nesting, is sent unchanged; otherwise the
   * heuristic answer is sent, so an override of None is ignored.
   */
  lemma {:induction false} MultiDocumentsOverride(card: Json, overrides: Json, uploaded: seq<string>, q: Json)
    requires q in Questions(card) && Answerable(q)
    ensures var ov := ResolveOverrideValue(FieldKey(q), overrides);
      (if ov != Null then Answer(FieldKey(q), ov) else DocumentAnswerFromQuestion(q, uploaded))
        in MultiDocumentsAnswers(card, overrides, uploaded)
  {
    CollectComplete(Questions(card), MultiDocumentsDecide(overrides, uploaded));
  }

  /** `_auto_answer_card` of the bus-passenger runner on one question: only an exact override key counts, even with a None value. */
  function BusPassengerAnswerFor(q: Json, overrides: Json, uploaded: seq<string>): (r: Option<Answer>)
    ensures r.Some? <==> Answerable(q)
    ensures r.Some? ==> r.value.fieldKey == FieldKey(q)
  {
    if !Answerable(q) then None
    else if Has(overrides, FieldKey(q)) then Some(Answer(FieldKey(q), Get(overrides, FieldKey(q))))
    else Some(DocumentAnswerFromQuestion(q, uploaded))
  }

  function BusPassengerDecide(overrides: Json, uploaded: seq<string>): Json -> Option<Answer>
  {
    q => BusPassengerAnswerFor(q, overrides, uploaded)
  }

  function BusPassengerAnswers(card: Json, overrides: Json, uploaded: seq<string>): seq<Answer>
  {
    Collect(Questions(card), BusPassengerDecide(overrides, uploaded))
  }

  /** `_auto_answer_card` of the bus-passenger runner: `{"answers": [...]}`. */
  function BusPassengerAutoAnswerCard(card: Json, overrides: Json, uploaded: seq<string>): (r: Json)
    ensures Get(r, "answers").List? && |Get(r, "answers").items| <= |Questions(card)|
  {
    UserResponse(BusPassengerAnswers(card, overrides, uploaded))
  }

  /** Exactly one answer per question with a field key, in question order. */
  lemma {:induction false} BusPassengerOnePerQuestion(card: Json, overrides: Json, uploaded: seq<string>)
    ensures Keys(BusPassengerAnswers(card, overrides, uploaded)) == AnswerableKeys(Questions(card))
  {
    CollectKeys(Questions(card), BusPassengerDecide(overrides, uploaded));
  }

  /**
   * An exact override key is sent with its value unchanged, even None; a
   * field key that is not itself a key of the overrides gets the heuristic
   * answer, so a dotted nested override never applies.
   */
  lemma {:induction false} BusPassengerOverride(card: Json, overrides: Json, uploaded: seq<string>, q: Json)
    requires q in Questions(card) && Answerable(q)
    ensures (if Has(overrides, FieldKey(q)) then Answer(FieldKey(q), Get(overrides, FieldKey(q)))
      else DocumentAnswerFromQuestion(q, uploaded)) in BusPassengerAnswers(card, overrides, uploaded)
  {
    CollectComplete(Questions(card), BusPassengerDecide(overrides, uploaded));
  }

  /**
   * Where the two runners differ: a nested override `{k: {sub: v}}`, such as
   * `{"profile.plaintiff": {"name": v}}`, answers the field `k + "." + sub`
   * with `v` in the multi-documents runner and is ignored by the
   * bus-passenger runner.
   */
  lemma NestedOverrideOnlyInMultiDocuments(q: Json, k: string, sub: string, v: Json, uploaded: seq<string>)
    requires Answerable(q) && k != "" && sub != "" && FieldKey(q) == k + "." + sub && v != Null
    ensures var overrides := Obj([Field(k, Obj([Field(sub, v)]))]);
      MultiDocumentsAnswerFor(q, overrides, uploaded) == Some(Answer(k + "." + sub, v))
      && BusPassengerAnswerFor(q, overrides, uploaded) == Some(DocumentAnswerFromQuestion(q, uploaded))
  {
    NestedOverrideResolves(k, sub, v);
    var overrides := Obj([Field(k, Obj([Field(sub, v)]))]);
    assert !Has(overrides, k + "." + sub) by {
      assert |overrides.fields[0].key| < |k + "." + sub|;
    }
  }

  // ---------------------------------------------------------------------
  // run_litigation_flow_debug.py and run_litigation_multi_docs_debug.py

  /** The case text both litigation runners send for `profile.facts`. */
  const LitigationFacts: string :=
    "张三起诉李四民间借贷纠纷，借款10万元到期不还。" + "证据：借条、转账记录、聊天记录。" + "诉求：返还本金10万元并支付利息。"

  /** The text answer of the litigation runners: the case text for `profile.facts`, `"已确认"` otherwise. */
  function LitigationText(fk: string): (r: string)
    ensures !IsBlank(r)
  {
    assert LitigationFacts[0] == '张';
    ConfirmedNotBlank();
    if fk == "profile.facts" then LitigationFacts else Confirmed
  }

  /** `[uploaded_file_id]` when the question is required and the id is not empty, else `[]`. */
  function SingleUpload(req: bool, uploadedId: Option<string>): (r: Json)
    ensures r.List? && |r.items| <= 1
    ensures r.items != [] <==> req && uploadedId.Some? && uploadedId.value != ""
    ensures r.items != [] ==> r.items == [Str(uploadedId.value)]
  {
    if req && uploadedId.Some? && uploadedId.value != "" then List([Str(uploadedId.value)]) else List([])
  }

  /**
   * The fixed value of the litigation and legal-opinion runners, which never
   * look at a default: a boolean is True, a select takes the
   * recommended-or-first value, a multi-select the list of it, a file field
   * at most the one uploaded id, and anything else the text `text`.
   */
  function FixedValue(it: string, req: bool, opts: seq<Json>, uploadedId: Option<string>, text: string): (r: Json)
    ensures IsBoolType(it) ==> r == Bool(true)
    ensures r == Null ==> IsSelectType(it)
    ensures !IsSelectType(it) && r.Str? ==> r.s == text
  {
    if IsBoolType(it) then Bool(true)
    else if IsSelectType(it) then PickRecommendedOrFirst(List(opts))
    else if IsMultiType(it) then FirstPickList(opts)
    else if IsFileType(it) then SingleUpload(req, uploadedId)
    else Str(text)
  }

  /** A file field is `[id]` when required with an id, `"已确认"` when required without one, and `[]` when optional. */
  lemma FixedFileField(it: string, req: bool, opts: seq<Json>, uploadedId: Option<string>, text: string)
    requires IsFileType(it)
    ensures Repair(it, req, FixedValue(it, req, opts, uploadedId, text))
      == if !req then List([])
         else if uploadedId.Some? && uploadedId.value != "" then List([Str(uploadedId.value)])
         else Str(Confirmed)
  {
    assert !IsBoolType(it) && !IsSelectType(it) && !IsMultiType(it);
  }

  /** A boolean is always True, whatever its default. */
  lemma FixedBoolean(it: string, req: bool, opts: seq<Json>, uploadedId: Option<string>, text: string)
    requires IsBoolType(it)
    ensures Repair(it, req, FixedValue(it, req, opts, uploadedId, text)) == Bool(true)
  {
  }

  /**
   * A select takes the recommended-or-first value; with no valued option it
   * is None when optional and `"已确认"` when required.
   */
  lemma FixedSelect(it: string, req: bool, opts: seq<Json>, uploadedId: Option<string>, text: string)
    requires IsSelectType(it)
    ensures var p := PickRecommendedOrFirst(List(opts));
      var r := Repair(it, req, FixedValue(it, req, opts, uploadedId, text));
      (!IsEmptyAnswer(p) ==> r == p) && (p == Null ==> r == if req then Str(Confirmed) else Null)
  {
    assert !IsBoolType(it);
  }

  /** A multi-select is the list of the recommended-or-first value, or an empty list (`"已确认"` when required). */
  lemma FixedMulti(it: string, req: bool, opts: seq<Json>, uploadedId: Option<string>, text: string)
    requires IsMultiType(it)
    ensures var p := PickRecommendedOrFirst(List(opts));
      Repair(it, req, FixedValue(it, req, opts, uploadedId, text))
        == if p != Null then List([p]) else if req then Str(Confirmed) else List([])
  {
    assert !IsBoolType(it) && !IsSelectType(it);
  }

  /** A text question gets `text` when it is not blank, required or not. */
  lemma FixedText(it: string, req: bool, opts: seq<Json>, uploadedId: Option<string>, text: string)
    requires !IsBoolType(it) && !IsSelectType(it) && !IsMultiType(it) && !IsFileType(it) && !IsBlank(text)
    ensures Repair(it, req, FixedValue(it, req, opts, uploadedId, text)) == Str(text)
  {
  }

  /** `_auto_answer_card` of run_litigation_flow_debug.py on one question. */
  function LitigationAnswerFor(q: Json, uploadedId: Option<string>): (r: Option<Answer>)
    ensures r.Some? <==> Answerable(q)
    ensures r.Some? ==> r.value.fieldKey == FieldKey(q)
    ensures r.Some? && Required(q) ==> !IsEmptyAnswer(r.value.value)
  {
    if !Answerable(q) then None
    else
      var fk := FieldKey(q);
      var it := InputType(q);
      Some(Answer(fk, Repair(it, Required(q), FixedValue(it, Required(q), Options(q), uploadedId, LitigationText(fk)))))
  }

  function LitigationDecide(uploadedId: Option<string>): Json -> Option<Answer>
  {
    q => LitigationAnswerFor(q, uploadedId)
  }

  function LitigationAnswers(card: Json, uploadedId: Option<string>): seq<Answer>
  {
    Collect(Questions(card), LitigationDecide(uploadedId))
  }

  /** `_auto_answer_card` of run_litigation_flow_debug.py: `{"answers": [...]}`. */
  function LitigationAutoAnswerCard(card: Json, uploadedId: Option<string>): (r: Json)
    ensures Get(r, "answers").List? && |Get(r, "answers").items| <= |Questions(card)|
  {
    UserResponse(LitigationAnswers(card, uploadedId))
  }

  /** One answer per question with a field key, in question order, and no required answer is empty. */
  lemma {:induction false} LitigationOnePerQuestion(card: Json, uploadedId: Option<string>)
    ensures Keys(LitigationAnswers(card, uploadedId)) == AnswerableKeys(Questions(card))
    ensures forall q :: q in Questions(card) && Answerable(q) && Required(q) ==>
      exists a :: a in LitigationAnswers(card, uploadedId) && a.fieldKey == FieldKey(q) && !IsEmptyAnswer(a.value)
  {
    var f := LitigationDecide(uploadedId);
    CollectKeys(Questions(card), f);
    CollectComplete(Questions(card), f);
  }

  /** `profile.facts`, when it is a text question, is answered with the case text. */
  lemma LitigationFactsAnswer(q: Json, uploadedId: Option<string>)
    requires Answerable(q) && FieldKey(q) == "profile.facts"
    requires var it := InputType(q); !IsBoolType(it) && !IsSelectType(it) && !IsMultiType(it) && !IsFileType(it)
    ensures LitigationAnswerFor(q, uploadedId) == Some(Answer("profile.facts", Str(LitigationFacts)))
  {
  }

  // run_litigation_multi_docs_debug.py

  /** No item occurs twice. */
  predicate NoDup(s: seq<string>)
  {
    forall i, j :: 0 <= i < j < |s| ==> s[i] != s[j]
  }

  /** Appends, in order, each item that `keep` accepts and that is not there yet. */
  function AppendNew(acc: seq<string>, xs: seq<string>, keep: string -> bool): (r: seq<string>)
    ensures acc <= r
    ensures forall s :: s in r <==> s in acc || (s in xs && keep(s))
    ensures NoDup(acc) ==> NoDup(r)
    decreases |xs|
  {
    if xs == [] then acc
    else AppendNew(if keep(xs[0]) && xs[0] !in acc then acc + [xs[0]] else acc, xs[1..], keep)
  }

  /** Items that are all accepted, distinct and new are appended as they are, in their order. */
  lemma {:induction false} AppendNewDistinct(acc: seq<string>, xs: seq<string>, keep: string -> bool)
    requires NoDup(xs) && forall i :: 0 <= i < |xs| ==> keep(xs[i]) && xs[i] !in acc
    ensures AppendNew(acc, xs, keep) == acc + xs
    decreases |xs|
  {
    if xs != [] {
      var acc' := acc + [xs[0]];
      AppendNewTail(acc, xs, keep);
      AppendNewDistinct(acc', xs[1..], keep);
      assert acc' + xs[1..] == acc + xs;
    }
  }

  /** The first item of distinct, accepted, new items is appended, and the rest stay distinct, accepted and new. */
  lemma AppendNewTail(acc: seq<string>, xs: seq<string>, keep: string -> bool)
    requires xs != [] && NoDup(xs) && forall i :: 0 <= i < |xs| ==> keep(xs[i]) && xs[i] !in acc
    ensures AppendNew(acc, xs, keep) == AppendNew(acc + [xs[0]], xs[1..], keep)
    ensures NoDup(xs[1..]) && forall i :: 0 <= i < |xs[1..]| ==> keep(xs[1..][i]) && xs[1..][i] !in acc + [xs[0]]
  {
    assert keep(xs[0]) && xs[0] !in acc;
    forall i | 0 <= i < |xs[1..]|
      ensures keep(xs[1..][i]) && xs[1..][i] !in acc + [xs[0]]
    {
      assert xs[1..][i] == xs[i + 1] && xs[i + 1] != xs[0];
    }
  }

  /** The position of the first occurrence of `x` in `xs`. */
  function FirstIndex(xs: seq<string>, x: string): (i: nat)
    requires x in xs
    ensures i < |xs| && xs[i] == x
  {
    if xs[0] == x then 0 else 1 + FirstIndex(xs[1..], x)
  }

  /** No occurrence of `x` comes before `FirstIndex(xs, x)`. */
  lemma {:induction false} FirstIndexIsFirst(xs: seq<string>, x: string, k: nat)
    requires x in xs && k < FirstIndex(xs, x)
    ensures xs[k] != x
    decreases |xs|
  {
    if k > 0 {
      FirstIndexIsFirst(xs[1..], x, k - 1);
    }
  }

  /** The items of `r` come in the order of their first occurrences in `xs`. */
  ghost predicate InFirstOccurrenceOrder(r: seq<string>, xs: seq<string>)
  {
    (forall k :: 0 <= k < |r| ==> r[k] in xs)
    && forall i, j :: 0 <= i < j < |r| ==> FirstIndex(xs, r[i]) < FirstIndex(xs, r[j])
  }

  /** Appending one item to `xs` moves no first occurrence, and a new item first occurs at the end. */
  lemma {:induction false} FirstIndexSnoc(xs: seq<string>, x: string, y: string)
    requires y in xs + [x]
    ensures y in xs ==> FirstIndex(xs + [x], y) == FirstIndex(xs, y)
    ensures y !in xs ==> FirstIndex(xs + [x], y) == |xs|
    decreases |xs|
  {
    if xs != [] && xs[0] != y {
      assert (xs + [x])[1..] == xs[1..] + [x];
      FirstIndexSnoc(xs[1..], x, y);
    }
  }

  /** One more scanned item keeps the accumulated items in first-occurrence order. */
  lemma {:induction false} AppendNewOrderStep(seen: seq<string>, acc: seq<string>, x: string, keep: string -> bool)
    requires forall s :: s in acc <==> s in seen && keep(s)
    requires InFirstOccurrenceOrder(acc, seen)
    ensures var acc' := if keep(x) && x !in acc then acc + [x] else acc;
      (forall s :: s in acc' <==> s in seen + [x] && keep(s)) && InFirstOccurrenceOrder(acc', seen + [x])
  {
    var seen' := seen + [x];
    forall k | 0 <= k < |acc| ensures acc[k] in seen && FirstIndex(seen', acc[k]) == FirstIndex(seen, acc[k]) {
      FirstIndexSnoc(seen, x, acc[k]);
    }
    if keep(x) && x !in acc {
      var acc' := acc + [x];
      FirstIndexSnoc(seen, x, x);
      forall i, j | 0 <= i < j < |acc'| ensures FirstIndex(seen', acc'[i]) < FirstIndex(seen', acc'[j]) {
        if j == |acc| {
          assert acc'[i] == acc[i];
        } else {
          assert acc'[i] == acc[i] && acc'[j] == acc[j];
        }
      }
    }
  }

  /**
   * Scanning `xs` after `seen` keeps the accumulated items in first-occurrence
   * order in `seen + xs`, as long as `acc` holds exactly the accepted items of
   * `seen` in that order.
   */
  lemma {:induction false} AppendNewOrder(seen: seq<string>, acc: seq<string>, xs: seq<string>, keep: string -> bool)
    requires forall s :: s in acc <==> s in seen && keep(s)
    requires InFirstOccurrenceOrder(acc, seen)
    ensures InFirstOccurrenceOrder(AppendNew(acc, xs, keep), seen + xs)
    decreases |xs|
  {
    if xs == [] {
      assert seen + xs == seen;
    } else {
      var acc' := if keep(xs[0]) && xs[0] !in acc then acc + [xs[0]] else acc;
      var seen', rest := seen + [xs[0]], xs[1..];
      assert seen' + rest == seen + xs;
      assert AppendNew(acc, xs, keep) == AppendNew(acc', rest, keep);
      AppendNewOrderStep(seen, acc, xs[0], keep);
      AppendNewOrder(seen', acc', rest, keep);
    }
  }

  /** What `AppendNew` keeps from scratch comes in the order of the first occurrences in its input. */
  lemma AppendNewInOrder(xs: seq<string>, keep: string -> bool)
    ensures InFirstOccurrenceOrder(AppendNew([], xs, keep), xs)
  {
    AppendNewOrder([], [], xs, keep);
    assert [] + xs == xs;
  }

  function StripAll(xs: seq<string>): (r: seq<string>)
    ensures |r| == |xs| && forall k :: 0 <= k < |xs| ==> r[k] == Strip(xs[k])
  {
    seq(|xs|, k requires 0 <= k < |xs| => Strip(xs[k]))
  }

  /** `_split_csv`: the stripped comma-separated items that are not empty, each once, in first-occurrence order. */
  function SplitCsv(v: string): (r: seq<string>)
    ensures NoDup(r)
    ensures forall s :: s in r <==> s != "" && exists k :: 0 <= k < |Split(v, ',')| && Strip(Split(v, ',')[k]) == s
  {
    AppendNew([], StripAll(Split(v, ',')), s => s != "")
  }

  /** Distinct, stripped, non-empty items without commas survive a join and `_split_csv` unchanged. */
  lemma {:induction false} SplitCsvOfJoin(items: seq<string>)
    requires items != [] && NoDup(items)
    requires forall k :: 0 <= k < |items| ==> items[k] != "" && Strip(items[k]) == items[k] && ',' !in items[k]
    ensures SplitCsv(Join([','], items)) == items
  {
    SplitOfJoin(items, ',');
    assert StripAll(items) == items;
    AppendNewDistinct([], items, s => s != "");
  }

  /** `_split_csv` keeps its items in the order of their first occurrences among the stripped pieces. */
  lemma SplitCsvOrder(v: string)
    ensures InFirstOccurrenceOrder(SplitCsv(v), StripAll(Split(v, ',')))
  {
    AppendNewInOrder(StripAll(Split(v, ',')), s => s != "");
  }

  const SelectedDocumentsKey: string := "profile.decisions.selected_documents"

  /** `{str(o.get("value") or "").strip() for o in opts if isinstance(o, dict)}` */
  function OfferedValues(opts: seq<Json>): set<string>
  {
    set o | o in opts && o.Obj? :: Clean(Get(o, "value"))
  }

  /** `str(x).strip()` of the text or integer items of a list (a bool counts as an integer), when not blank. */
  function DefaultKeys(items: seq<Json>): (r: seq<string>)
    ensures |r| <= |items|
    ensures forall k :: 0 <= k < |r| ==> r[k] != ""
  {
    if items == [] then []
    else
      var x := items[0];
      var s := Strip(PyStr(x));
      (if (x.Str? || x.Int? || x.Bool?) && s != "" then [s] else []) + DefaultKeys(items[1..])
  }

  function Offered(opts: seq<Json>): string -> bool
  {
    k => k in OfferedValues(opts)
  }

  /** The requested keys that are option values, in requested order and each once. */
  function RequestedOffered(opts: seq<Json>, selected: seq<string>): (r: seq<string>)
    ensures NoDup(r)
    ensures forall k :: k in r <==> k in selected && k in OfferedValues(opts)
  {
    AppendNew([], selected, Offered(opts))
  }

  /**
   * The answer to `profile.decisions.selected_documents`: the requested
   * keys that are option values; when none is, the keys of a non-empty list
   * default; else an empty list.
   */
  function SelectedDocuments(opts: seq<Json>, d: Json, selected: seq<string>): (r: Json)
    ensures r.List?
  {
    var allowed := RequestedOffered(opts, selected);
    if allowed != [] then StrList(allowed)
    else if d.List? && d.items != [] then StrList(DefaultKeys(d.items))
    else List([])
  }

  /**
   * The offered requested keys come in requested order: every key is
   * requested, and a key before another was first requested before it.
   */
  lemma RequestedOfferedOrder(opts: seq<Json>, selected: seq<string>)
    ensures InFirstOccurrenceOrder(RequestedOffered(opts, selected), selected)
  {
    AppendNewInOrder(selected, Offered(opts));
  }

  /** When some requested key is offered, the default is ignored and the answer lists the offered requested keys. */
  lemma SelectedDocumentsOffered(opts: seq<Json>, d: Json, selected: seq<string>, k: string)
    requires k in selected && k in OfferedValues(opts)
    ensures SelectedDocuments(opts, d, selected) == StrList(RequestedOffered(opts, selected))
  {
    assert k in RequestedOffered(opts, selected);
  }

  /** Requested keys that are all offered and distinct are answered as they are, in their order. */
  lemma SelectedDocumentsAllOffered(opts: seq<Json>, d: Json, selected: seq<string>)
    requires selected != [] && NoDup(selected) && forall s :: s in selected ==> s in OfferedValues(opts)
    ensures SelectedDocuments(opts, d, selected) == StrList(selected)
  {
    AppendNewDistinct([], selected, Offered(opts));
    assert RequestedOffered(opts, selected) == selected;
  }

  /** The value of the multi-docs runner, before repair. */
  function MultiDocsValue(fk: string, it: string, req: bool, d: Json, opts: seq<Json>, uploadedId: Option<string>, selected: seq<string>): (r: Json)
    ensures !IsMultiType(it) ==> r == FixedValue(it, req, opts, uploadedId, LitigationText(fk))
  {
    if fk == SelectedDocumentsKey && IsMultiType(it) then SelectedDocuments(opts, d, selected)
    else if IsMultiType(it) then
      (if d.List? && d.items != [] then StrList(DefaultKeys(d.items)) else FirstPickList(opts))
    else FixedValue(it, req, opts, uploadedId, LitigationText(fk))
  }

  /** `_auto_answer_card` of run_litigation_multi_docs_debug.py on one question. */
  function MultiDocsAnswerFor(q: Json, uploadedId: Option<string>, selected: seq<string>): (r: Option<Answer>)
    ensures r.Some? <==> Answerable(q)
    ensures r.Some? ==> r.value.fieldKey == FieldKey(q)
    ensures r.Some? && Required(q) ==> !IsEmptyAnswer(r.value.value)
  {
    if !Answerable(q) then None
    else
      var fk := FieldKey(q);
      var it := InputType(q);
      Some(Answer(fk, Repair(it, Required(q), MultiDocsValue(fk, it, Required(q), Get(q, "default"), Options(q), uploadedId, selected))))
  }

  function MultiDocsDecide(uploadedId: Option<string>, selected: seq<string>): Json -> Option<Answer>
  {
    q => MultiDocsAnswerFor(q, uploadedId, selected)
  }

  function MultiDocsAnswers(card: Json, uploadedId: Option<string>, selected: seq<string>): seq<Answer>
  {
    Collect(Questions(card), MultiDocsDecide(uploadedId, selected))
  }

  /** `_auto_answer_card` of run_litigation_multi_docs_debug.py: `{"answers": [...]}`. */
  function MultiDocsAutoAnswerCard(card: Json, uploadedId: Option<string>, selected: seq<string>): (r: Json)
    ensures Get(r, "answers").List? && |Get(r, "answers").items| <= |Questions(card)|
  {
    UserResponse(MultiDocsAnswers(card, uploadedId, selected))
  }

  /** One answer per question with a field key, in question order. */
  lemma {:induction false} MultiDocsOnePerQuestion(card: Json, uploadedId: Option<string>, selected: seq<string>)
    ensures Keys(MultiDocsAnswers(card, uploadedId, selected)) == AnswerableKeys(Questions(card))
  {
    CollectKeys(Questions(card), MultiDocsDecide(uploadedId, selected));
  }

  /** A boolean is answered True whatever its default says. */
  lemma MultiDocsBooleanTrue(q: Json, uploadedId: Option<string>, selected: seq<string>)
    requires Answerable(q) && IsBoolType(InputType(q))
    ensures MultiDocsAnswerFor(q, uploadedId, selected) == Some(Answer(FieldKey(q), Bool(true)))
  {
    var it := InputType(q);
    assert !IsMultiType(it);
    assert FixedValue(it, Required(q), Options(q), uploadedId, LitigationText(FieldKey(q))) == Bool(true);
  }
}
