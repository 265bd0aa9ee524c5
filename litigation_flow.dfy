/**
 * The helpers of the litigation end-to-end test (`tests/test_litigation_flow.py`):
 * its own card auto-answerer, which repairs required answers and omits empty
 * ones; the override merge that layers a nested dot-path override map over
 * those answers; the SSE extractors; the card signature; and the stuck-card
 * guard of the loop that drives the session to the cause-of-action card.
 */
module LitigationFlow {
  import opened Json
  import opened Text
  import opened Cards
  import FlowRunner
  import Utils

  /** `any(k in text for k in keys)` */
  predicate MentionsAny(text: string, keys: seq<string>)
  {
    keys != [] && (Contains(text, keys[0]) || MentionsAny(text, keys[1..]))
  }

  /** The reply to a `profile.facts.*` follow-up, chosen by the words of the question. */
  function FollowUpAnswer(qtext: string): string
  {
    if MentionsAny(qtext, ["误工", "工资", "月薪", "收入", "流水"]) then "暂无误工证明/工资流水，后续可补充；目前月薪约8000元，误工约1个月。"
    else if MentionsAny(qtext, ["索赔", "协商", "沟通", "回应"]) then "已向对方提出口头索赔/反映，暂未收到明确回复。"
    else if MentionsAny(qtext, ["费用", "发票", "单据", "凭证"]) then "费用单据目前部分缺失，后续可补充。"
    else "待补充"
  }

  /** `{"name": name}` */
  function Party(name: string): Json
  {
    Obj([Field("name", Str(name))])
  }

  /** The case-like value the answerer gives a known profile text slot; None for any other text field. */
  function ProfileValue(fk: string, qtext: string): Json
  {
    if fk == "profile.summary" then Str("借款日期：2025-01-01；约定还款日期：2025-06-01。")
    else if fk == "profile.facts" then Str("借条、转账记录、聊天记录已提供/可继续补充。")
    else if fk == "profile.claims" then List([Str("返还借款本金10万元"), Str("支付逾期利息（按年利率4%暂计）")])
    else if fk == "profile.plaintiff" then Party("张三")
    else if fk == "profile.defendant" then Party("李四")
    else if fk == "profile.applicant" then Party("张三")
    else if fk == "profile.respondent" then Party("李四")
    else if fk == "profile.appellant" then Party("张三")
    else if fk == "profile.appellee" then Party("李四")
    else if fk == "profile.target_entity" then Str("某某公司")
    else if fk == "profile.dd_scope" then List([Str("工商与主体"), Str("重大合同"), Str("诉讼仲裁与行政")])
    else if fk == "profile.opinion_topic" then Str("民间借贷纠纷：起诉要点与证据要求")
    else if StartsWith(fk, "profile.facts.") then Str(FollowUpAnswer(qtext))
    else Null
  }

  /** Every entry of the profile table is a value the answerer would send. */
  lemma ProfileValueNotEmpty(fk: string, qtext: string)
    requires ProfileValue(fk, qtext) != Null
    ensures !IsEmptyAnswer(ProfileValue(fk, qtext))
  {
    var v := ProfileValue(fk, qtext);
    if v.List? || v.Obj? {
    } else if fk == "profile.summary" || fk == "profile.facts" {
      assert v.s != [] && !IsSpace(v.s[0]);
    } else if fk == "profile.target_entity" || fk == "profile.opinion_topic" {
      assert v.s != [] && !IsSpace(v.s[0]);
    } else {
      FollowUpNotBlank(qtext);
    }
  }

  /** Every follow-up reply is non-blank text. */
  lemma FollowUpNotBlank(qtext: string)
    ensures FollowUpAnswer(qtext) != [] && !IsSpace(FollowUpAnswer(qtext)[0])
  {
  }

  /** The values of the recommended options that carry one, in option order. */
  function RecommendedValues(opts: seq<Json>): (r: seq<Json>)
    ensures |r| <= |opts|
  {
    if opts == [] then []
    else (if RecommendedValued(opts[0]) then [Get(opts[0], "value")] else []) + RecommendedValues(opts[1..])
  }

  /** Exactly the values of the recommended valued options are collected. */
  lemma {:induction false} RecommendedValuesMembers(opts: seq<Json>, v: Json)
    ensures v in RecommendedValues(opts) <==>
      exists i :: 0 <= i < |opts| && RecommendedValued(opts[i]) && Get(opts[i], "value") == v
  {
    if opts != [] {
      RecommendedValuesMembers(opts[1..], v);
      if v in RecommendedValues(opts) && !(RecommendedValued(opts[0]) && Get(opts[0], "value") == v) {
        var i :| 0 <= i < |opts[1..]| && RecommendedValued(opts[1..][i]) && Get(opts[1..][i], "value") == v;
        assert opts[i + 1] == opts[1..][i];
      }
      if exists i :: 0 <= i < |opts| && RecommendedValued(opts[i]) && Get(opts[i], "value") == v {
        var i :| 0 <= i < |opts| && RecommendedValued(opts[i]) && Get(opts[i], "value") == v;
        if i > 0 {
          assert opts[1..][i - 1] == opts[i];
        }
      }
    }
  }

  /** Nothing is collected exactly when no option is recommended with a value. */
  lemma {:induction false} RecommendedValuesEmpty(opts: seq<Json>)
    ensures RecommendedValues(opts) == [] <==> forall i :: 0 <= i < |opts| ==> !RecommendedValued(opts[i])
  {
    if opts != [] {
      RecommendedValuesEmpty(opts[1..]);
      if RecommendedValues(opts) == [] {
        forall i | 0 <= i < |opts| ensures !RecommendedValued(opts[i]) {
          if i > 0 {
            assert opts[i] == opts[1..][i - 1];
          }
        }
      } else if !RecommendedValued(opts[0]) {
        var i :| 0 <= i < |opts[1..]| && RecommendedValued(opts[1..][i]);
        assert opts[i + 1] == opts[1..][i];
      }
    }
  }

  /** The first collected value is the one `_pick_recommended_or_first` chooses. */
  lemma {:induction false} RecommendedValuesHead(opts: seq<Json>)
    requires RecommendedValues(opts) != []
    ensures RecommendedValues(opts)[0] == PickRecommendedOrFirst(List(opts))
  {
    if RecommendedValued(opts[0]) {
      PickPrefersRecommended(opts, 0);
    } else {
      assert RecommendedValues(opts) == RecommendedValues(opts[1..]);
      RecommendedValuesHead(opts[1..]);
      var k := FirstRecommended(opts[1..]);
      RecommendedValuesEmpty(opts[1..]);
      assert k < |opts[1..]|;
      PickPrefersRecommended(opts[1..], k);
      forall j | 0 <= j < k + 1 ensures !RecommendedValued(opts[j]) {
        if j > 0 {
          assert opts[j] == opts[1..][j - 1];
        }
      }
      PickPrefersRecommended(opts, k + 1);
    }
  }

  /**
   * The multi-select choice without a default: every recommended value in
   * option order; if there is none, the picked option as a one-item list, or
   * an empty list.
   */
  function MultiValue(opts: seq<Json>): (r: Json)
    ensures r.List?
  {
    var rec := RecommendedValues(opts);
    if rec != [] then List(rec)
    else
      var first := PickRecommendedOrFirst(List(opts));
      if first != Null then List([first]) else List([])
  }

  /**
   * The canonical answerer sends only the first recommended value; this one
   * sends all of them, starting with that same value, and the two agree
   * whenever at most one option is recommended.
   */
  lemma {:induction false} MultiValueExtendsMultiPick(opts: seq<Json>)
    ensures MultiValue(opts).items == [] <==> FlowRunner.MultiPick(opts).items == []
    ensures MultiValue(opts).items != [] ==> FlowRunner.MultiPick(opts).items == [MultiValue(opts).items[0]]
    ensures |RecommendedValues(opts)| <= 1 ==> MultiValue(opts) == FlowRunner.MultiPick(opts)
  {
    FlowRunner.MultiPickIsPick(opts);
    var rec := RecommendedValues(opts);
    if rec != [] {
      RecommendedValuesHead(opts);
      RecommendedValuesMembers(opts, rec[0]);
    }
  }

  /** A field answered with uploaded file ids. */
  predicate IsFileField(fk: string, it: string)
  {
    IsFileType(it) || fk == "attachment_file_ids"
  }

  /** A question that takes the text branch: none of boolean, select, multi-select or file. */
  predicate IsTextField(fk: string, it: string)
  {
    !IsBoolType(it) && !IsSelectType(it) && !IsMultiType(it) && !IsFileField(fk, it)
  }

  /**
   * The value chosen before the required repair, from the question's field
   * key, input type, required flag, default, options and stripped question
   * text, the cleaned uploaded ids and the card's skill.
   */
  function ValueFor(fk: string, it: string, req: bool, d: Json, opts: seq<Json>, qtext: string, uploaded: seq<string>, skillId: string): Json
  {
    var hd := HasDefault(d);
    if IsBoolType(it) then (if hd then d else Bool(true))
    else if IsSelectType(it) then (if hd then d else PickRecommendedOrFirst(List(opts)))
    else if IsMultiType(it) then (if hd then d else MultiValue(opts))
    else if IsFileField(fk, it) then
      if hd then d
      else if uploaded != [] && (fk == "attachment_file_ids" || req || skillId == "system:kickoff") then StrList(uploaded)
      else Null
    else
      var value := ProfileValue(fk, qtext);
      if hd then d else if value != Null then value else Str(Confirmed)
  }

  /**
   * The required repair: a required question whose value is None, blank or an
   * empty list gets the uploaded ids (file fields), True (booleans) or the
   * placeholder text; any other value is kept.
   */
  function Repair(value: Json, fk: string, it: string, req: bool, uploaded: seq<string>): (r: Json)
    ensures !(req && IsEmptyAnswer(value)) ==> r == value
  {
    if req && IsEmptyAnswer(value) then
      if IsFileField(fk, it) then (if uploaded != [] then StrList(uploaded) else List([]))
      else if IsBoolType(it) then Bool(true)
      else Str(Confirmed)
    else value
  }

  /** The repair leaves nothing empty for a required field that is not a file field. */
  lemma RepairFillsRequired(value: Json, fk: string, it: string, uploaded: seq<string>)
    requires !IsFileField(fk, it)
    ensures !IsEmptyAnswer(Repair(value, fk, it, true, uploaded))
  {
    assert !IsSpace(Confirmed[0]);
  }

  /** The answer for one answerable question: its repaired value, left out when that is None, blank or empty. */
  function AnswerOf(fk: string, it: string, req: bool, d: Json, opts: seq<Json>, qtext: string, uploaded: seq<string>, skillId: string): (r: Option<Answer>)
    ensures r.Some? ==> r.value.fieldKey == fk && !IsEmptyAnswer(r.value.value)
  {
    var value := Repair(ValueFor(fk, it, req, d, opts, qtext, uploaded, skillId), fk, it, req, uploaded);
    if IsEmptyAnswer(value) then None else Some(Answer(fk, value))
  }

  /** `_auto_answer_card` on one question; `uploaded` is the cleaned list of uploaded ids. */
  function LitigationAnswerFor(q: Json, uploaded: seq<string>, skillId: string): (r: Option<Answer>)
    ensures r.Some? ==> Answerable(q) && r.value.fieldKey == FieldKey(q) && !IsEmptyAnswer(r.value.value)
  {
    if !Answerable(q) then None
    else AnswerOf(FieldKey(q), InputType(q), Required(q), Get(q, "default"), Options(q), Clean(Get(q, "question")), uploaded, skillId)
  }

  /** The per-question decision of `_auto_answer_card` for one card. */
  function LitigationDecide(card: Json, uploadedFileIds: seq<string>): Json -> Option<Answer>
  {
    var uploaded := CleanIds(uploadedFileIds);
    var skillId := Clean(Get(card, "skill_id"));
    q => LitigationAnswerFor(q, uploaded, skillId)
  }

  /** The answers of `_auto_answer_card`, in question order. */
  function LitigationAnswers(card: Json, uploadedFileIds: seq<string>): seq<Answer>
    requires card.Obj?
  {
    Collect(Questions(card), LitigationDecide(card, uploadedFileIds))
  }

  /** `_auto_answer_card`: the `user_response` sent with `/resume`. */
  function LitigationAutoAnswerCard(card: Json, uploadedFileIds: seq<string>): (r: Json)
    requires card.Obj?
    ensures Get(r, "answers").List? && |Get(r, "answers").items| <= |Questions(card)|
  {
    UserResponse(LitigationAnswers(card, uploadedFileIds))
  }

  /**
   * No answer is None, blank or an empty list, and each belongs to an
   * answerable question of the card.
   */
  lemma {:induction false} NoEmptyAnswers(card: Json, uploadedFileIds: seq<string>)
    requires card.Obj?
    ensures forall a :: a in LitigationAnswers(card, uploadedFileIds) ==>
      !IsEmptyAnswer(a.value) && exists q :: q in Questions(card) && Answerable(q) && FieldKey(q) == a.fieldKey
  {
    CollectSound(Questions(card), LitigationDecide(card, uploadedFileIds));
  }

  /** A required question that is not a file field is always answered, with a value that is not empty. */
  lemma {:induction false} RequiredNonFileAnswered(card: Json, uploadedFileIds: seq<string>, q: Json)
    requires card.Obj? && q in Questions(card) && Answerable(q) && Required(q)
    requires !IsFileField(FieldKey(q), InputType(q))
    ensures exists a :: a in LitigationAnswers(card, uploadedFileIds) && a.fieldKey == FieldKey(q) && !IsEmptyAnswer(a.value)
  {
    var f := LitigationDecide(card, uploadedFileIds);
    var uploaded := CleanIds(uploadedFileIds);
    var skillId := Clean(Get(card, "skill_id"));
    var fk, it, d := FieldKey(q), InputType(q), Get(q, "default");
    RepairFillsRequired(ValueFor(fk, it, true, d, Options(q), Clean(Get(q, "question")), uploaded, skillId), fk, it, uploaded);
    assert f(q).Some?;
    CollectComplete(Questions(card), f);
  }

  /**
   * A file field without a usable default and without uploaded ids is left
   * out, even when it is required: the repair gives it an empty list, which
   * is then dropped.
   */
  lemma FileFieldWithoutUploadsDropped(fk: string, it: string, req: bool, d: Json, opts: seq<Json>, qtext: string, skillId: string)
    requires IsFileField(fk, it) && !IsBoolType(it) && !IsSelectType(it) && !IsMultiType(it)
    requires !HasDefault(d)
    ensures AnswerOf(fk, it, req, d, opts, qtext, [], skillId) == None
  {
  }

  /**
   * With uploaded ids, a file field without a default gets them all when it
   * is `attachment_file_ids`, required, or on the kickoff card; otherwise it
   * is left out.
   */
  lemma FileFieldWithUploads(fk: string, it: string, req: bool, d: Json, opts: seq<Json>, qtext: string, uploaded: seq<string>, skillId: string)
    requires IsFileField(fk, it) && !IsBoolType(it) && !IsSelectType(it) && !IsMultiType(it)
    requires !HasDefault(d) && uploaded != []
    ensures fk == "attachment_file_ids" || req || skillId == "system:kickoff" ==>
      AnswerOf(fk, it, req, d, opts, qtext, uploaded, skillId) == Some(Answer(fk, StrList(uploaded)))
    ensures !(fk == "attachment_file_ids" || req || skillId == "system:kickoff") ==>
      AnswerOf(fk, it, req, d, opts, qtext, uploaded, skillId) == None
  {
    assert StrList(uploaded).items[0] == Str(uploaded[0]);
  }

  /**
   * A text question is always answered, even when optional: its default if
   * usable, else the profile table's value, else the placeholder.
   */
  lemma TextAlwaysAnswered(fk: string, it: string, req: bool, d: Json, opts: seq<Json>, qtext: string, uploaded: seq<string>, skillId: string)
    requires IsTextField(fk, it)
    ensures AnswerOf(fk, it, req, d, opts, qtext, uploaded, skillId) == Some(Answer(fk,
      if HasDefault(d) then d else if ProfileValue(fk, qtext) != Null then ProfileValue(fk, qtext) else Str(Confirmed)))
  {
    if HasDefault(d) {
      HasDefaultIsNotEmpty(d);
    } else if ProfileValue(fk, qtext) != Null {
      ProfileValueNotEmpty(fk, qtext);
    } else {
      assert !IsSpace(Confirmed[0]);
    }
  }

  /**
   * A multi-select without a default sends all recommended values when there
   * are any, else the picked option; with neither it is left out when
   * optional and answered with the placeholder when required.
   */
  lemma MultiSelectAnswer(fk: string, it: string, req: bool, d: Json, opts: seq<Json>, qtext: string, uploaded: seq<string>, skillId: string)
    requires IsMultiType(it) && !HasDefault(d) && fk != "attachment_file_ids"
    ensures RecommendedValues(opts) != [] ==> AnswerOf(fk, it, req, d, opts, qtext, uploaded, skillId) == Some(Answer(fk, List(RecommendedValues(opts))))
    ensures RecommendedValues(opts) == [] && PickRecommendedOrFirst(List(opts)) != Null ==>
      AnswerOf(fk, it, req, d, opts, qtext, uploaded, skillId) == Some(Answer(fk, List([PickRecommendedOrFirst(List(opts))])))
    ensures RecommendedValues(opts) == [] && PickRecommendedOrFirst(List(opts)) == Null ==>
      AnswerOf(fk, it, req, d, opts, qtext, uploaded, skillId) == (if req then Some(Answer(fk, Str(Confirmed))) else None)
  {
    assert !IsBoolType(it) && !IsSelectType(it);
    assert ValueFor(fk, it, req, d, opts, qtext, uploaded, skillId) == MultiValue(opts);
    assert !IsSpace(Confirmed[0]);
  }

  /**
   * Where the canonical answerer sends None for a required select with no
   * valued option, this one repairs it to the placeholder text.
   */
  lemma RequiredSelectWithoutOptionsRepaired(fk: string, it: string, d: Json, opts: seq<Json>, qtext: string, uploaded: seq<string>, skillId: string)
    requires IsSelectType(it) && !HasDefault(d) && fk != "attachment_file_ids"
    requires forall o :: o in opts ==> !Valued(o)
    ensures AnswerOf(fk, it, true, d, opts, qtext, uploaded, skillId) == Some(Answer(fk, Str(Confirmed)))
  {
    assert PickRecommendedOrFirst(List(opts)) == Null;
    assert !IsSpace(Confirmed[0]);
  }

  // ---------------------------------------------------------------------
  // `_auto_answer_card_with_overrides`

  /** Follows `parts` through nested dicts; None as soon as a value is not a dict or lacks the next part. */
  function Walk(cur: Json, parts: seq<string>): Option<Json>
  {
    if parts == [] then Some(cur)
    else if cur.Obj? && Has(cur, parts[0]) then Walk(Get(cur, parts[0]), parts[1..])
    else None
  }

  /** Walking a path in two pieces is walking the first, then the second from where it ends. */
  lemma {:induction false} WalkAppend(cur: Json, p: seq<string>, q: seq<string>)
    ensures Walk(cur, p + q) == (match Walk(cur, p) case Some(v) => Walk(v, q) case None => None)
  {
    if p != [] {
      assert (p + q)[0] == p[0];
      assert (p + q)[1..] == p[1..] + q;
      if cur.Obj? && Has(cur, p[0]) {
        WalkAppend(Get(cur, p[0]), p[1..], q);
      }
    } else {
      assert p + q == q;
    }
  }

  /** A dict-valued override under a non-empty key `k` such that the field key starts with `k + "."`. */
  predicate PathCandidate(fk: string, f: Field)
  {
    f.key != "" && f.val.Obj? && StartsWith(fk, f.key + ".")
  }

  /** The dot-separated segments of the field key after the candidate's `k + "."`. */
  function PathOf(fk: string, f: Field): seq<string>
    requires PathCandidate(fk, f)
  {
    Split(fk[|f.key| + 1..], '.')
  }

  /** A candidate override through whose nested dicts every segment of the rest of the field key can be walked. */
  predicate PathHit(fk: string, f: Field)
  {
    PathCandidate(fk, f) && Walk(f.val, PathOf(fk, f)).Some?
  }

  /**
   * Where the first override that is a path hit leads; a candidate whose walk
   * misses a segment is passed over for the next override.
   */
  function FirstPathHit(fk: string, fs: seq<Field>): Option<Json>
  {
    if fs == [] then None
    else if PathHit(fk, fs[0]) then Walk(fs[0].val, PathOf(fk, fs[0]))
    else FirstPathHit(fk, fs[1..])
  }

  /** The first path hit is the lowest-indexed override that is a path hit, and there is none exactly when no override is one. */
  lemma {:induction false} FirstPathHitSpec(fk: string, fs: seq<Field>)
    ensures FirstPathHit(fk, fs).None? <==> forall i :: 0 <= i < |fs| ==> !PathHit(fk, fs[i])
    ensures FirstPathHit(fk, fs).Some? ==>
      exists i :: (0 <= i < |fs| && PathHit(fk, fs[i]) && FirstPathHit(fk, fs) == Walk(fs[i].val, PathOf(fk, fs[i]))
        && forall j :: 0 <= j < i ==> !PathHit(fk, fs[j]))
  {
    if fs != [] && !PathHit(fk, fs[0]) {
      FirstPathHitSpec(fk, fs[1..]);
      assert forall i :: 1 <= i < |fs| ==> fs[i] == fs[1..][i - 1];
      if FirstPathHit(fk, fs[1..]).Some? {
        var i :| 0 <= i < |fs[1..]| && PathHit(fk, fs[1..][i]) && FirstPathHit(fk, fs[1..]) == Walk(fs[1..][i].val, PathOf(fk, fs[1..][i]))
          && forall j :: 0 <= j < i ==> !PathHit(fk, fs[1..][j]);
        assert forall j :: 0 <= j < i + 1 ==> !PathHit(fk, fs[j]) by {
          forall j | 0 <= j < i + 1 ensures !PathHit(fk, fs[j]) {
            if j > 0 {
              assert fs[j] == fs[1..][j - 1];
            }
          }
        }
        assert PathHit(fk, fs[i + 1]) && FirstPathHit(fk, fs) == Walk(fs[i + 1].val, PathOf(fk, fs[i + 1]));
      }
    } else if fs != [] {
      assert PathHit(fk, fs[0]) && FirstPathHit(fk, fs) == Walk(fs[0].val, PathOf(fk, fs[0]));
    }
  }

  /**
   * `_resolve_override_value` of the litigation test: the override stored
   * under the field key itself; else where the first path hit leads (None
   * included); else None.
   */
  function NestedResolve(fk: string, overrides: Json): (r: Json)
    ensures !NonEmptyDict(overrides) ==> r == Null
    ensures NonEmptyDict(overrides) && Has(overrides, fk) ==> r == Get(overrides, fk)
    ensures NonEmptyDict(overrides) && !Has(overrides, fk) && FirstPathHit(fk, overrides.fields).Some? ==> r == FirstPathHit(fk, overrides.fields).value
    ensures NonEmptyDict(overrides) && !Has(overrides, fk) && FirstPathHit(fk, overrides.fields).None? ==> r == Null
  {
    if !NonEmptyDict(overrides) then Null
    else if Has(overrides, fk) then Get(overrides, fk)
    else
      match FirstPathHit(fk, overrides.fields)
      case Some(v) => v
      case None => Null
  }

  /** For a one-segment suffix the path walk is the one-level lookup of the canonical resolver. */
  lemma OneSegmentHit(fk: string, f: Field)
    requires PathCandidate(fk, f)
    requires fk[|f.key| + 1..] != [] && '.' !in fk[|f.key| + 1..]
    ensures PathHit(fk, f) <==> NestedHit(fk, f)
    ensures PathHit(fk, f) ==> Walk(f.val, PathOf(fk, f)) == Some(Get(f.val, fk[|f.key| + 1..]))
  {
    var sub := fk[|f.key| + 1..];
    SplitNoSeparator(sub, '.');
    assert PathOf(fk, f) == [sub];
    assert [sub][1..] == [];
    assert |fk| > |f.key| + 1;
    if f.val.Obj? && Has(f.val, sub) {
      assert Walk(Get(f.val, sub), []) == Some(Get(f.val, sub));
      assert Walk(f.val, [sub]) == Walk(Get(f.val, sub), []);
    } else {
      assert Walk(f.val, [sub]) == None;
    }
  }

  /** When every candidate suffix is one non-empty segment, both resolvers pick the same override. */
  lemma {:induction false} FirstHitsAgree(fk: string, fs: seq<Field>)
    requires forall i :: 0 <= i < |fs| && PathCandidate(fk, fs[i]) ==>
      fk[|fs[i].key| + 1..] != [] && '.' !in fk[|fs[i].key| + 1..]
    ensures FirstPathHit(fk, fs) ==
      (var i := FirstNestedHit(fk, fs); if i < |fs| then Some(Get(fs[i].val, fk[|fs[i].key| + 1..])) else None)
  {
    if fs != [] {
      if PathCandidate(fk, fs[0]) {
        OneSegmentHit(fk, fs[0]);
      } else {
        assert !NestedHit(fk, fs[0]);
      }
      if !PathHit(fk, fs[0]) {
        forall i | 0 <= i < |fs[1..]| && PathCandidate(fk, fs[1..][i])
          ensures fk[|fs[1..][i].key| + 1..] != [] && '.' !in fk[|fs[1..][i].key| + 1..]
        {
          assert fs[1..][i] == fs[i + 1];
        }
        FirstHitsAgree(fk, fs[1..]);
      }
    }
  }

  /**
   * The nested resolver extends the canonical one: when no candidate's
   * suffix is empty or has a further dot, the two give the same override.
   */
  lemma NestedResolveAgreesOneLevel(fk: string, overrides: Json)
    requires overrides.Obj?
    requires forall i :: 0 <= i < |overrides.fields| && PathCandidate(fk, overrides.fields[i]) ==>
      fk[|overrides.fields[i].key| + 1..] != [] && '.' !in fk[|overrides.fields[i].key| + 1..]
    ensures NestedResolve(fk, overrides) == ResolveOverrideValue(fk, overrides)
  {
    FirstHitsAgree(fk, overrides.fields);
  }

  /** A path two levels deep is reachable only by the nested resolver. */
  lemma DeepPathOnlyNested(k: string, a: string, b: string, v: Json)
    requires k != "" && '.' !in k && '.' !in a && '.' !in b
    ensures var fk := k + "." + a + "." + b;
      var ov := Obj([Field(k, Obj([Field(a, Obj([Field(b, v)]))]))]);
      NestedResolve(fk, ov) == v && ResolveOverrideValue(fk, ov) == Null
  {
    var fk := k + "." + a + "." + b;
    var inner := Obj([Field(a, Obj([Field(b, v)]))]);
    var f := Field(k, inner);
    var ov := Obj([f]);
    assert fk == (k + ".") + (a + "." + b);
    assert fk[..|k| + 1] == k + "." && fk[|k| + 1..] == a + "." + b;
    assert !Has(ov, fk) by {
      assert |fk| > |k|;
    }
    assert !Has(inner, a + "." + b) by {
      assert |a + "." + b| > |a|;
    }
    SplitNoSeparator(b, '.');
    SplitAt(a, b);
    assert PathOf(fk, f) == [a, b];
    var mid := Obj([Field(b, v)]);
    assert Walk(v, []) == Some(v);
    assert Walk(mid, [b]) == Walk(v, []) by {
      assert [b][1..] == [];
    }
    assert Walk(inner, [a, b]) == Walk(mid, [b]) by {
      assert [a, b][1..] == [b];
    }
    assert PathHit(fk, f);
    assert FirstNestedHit(fk, [f]) == 1;
  }

  /** An override key holding a dot is reachable only by the one-level resolver. */
  lemma DottedKeyOnlyOneLevel(k: string, a: string, b: string, v: Json)
    requires k != "" && '.' !in k && '.' !in a
    ensures var fk := k + "." + a + "." + b;
      var ov := Obj([Field(k, Obj([Field(a + "." + b, v)]))]);
      NestedResolve(fk, ov) == Null && ResolveOverrideValue(fk, ov) == v
  {
    var fk := k + "." + a + "." + b;
    var inner := Obj([Field(a + "." + b, v)]);
    var f := Field(k, inner);
    var ov := Obj([f]);
    assert fk == (k + ".") + (a + "." + b);
    assert fk[..|k| + 1] == k + "." && fk[|k| + 1..] == a + "." + b;
    assert !Has(ov, fk) by {
      assert |fk| > |k|;
    }
    assert !Has(inner, a) by {
      assert |a + "." + b| > |a|;
    }
    SplitAt(a, b);
    assert PathOf(fk, f)[0] == a;
    assert !PathHit(fk, f);
    assert [f][1..] == [];
    assert FirstPathHit(fk, [f]) == None;
    assert NestedResolve(fk, ov) == Null;
    assert NestedHit(fk, f);
    assert FirstNestedHit(fk, [f]) == 0;
    assert ResolveOverrideValue(fk, ov) == v;
  }

  /** Splitting `a + "." + b` where `a` has no dot gives `a` followed by the pieces of `b`. */
  lemma {:induction false} SplitAt(a: string, b: string)
    requires '.' !in a
    ensures Split(a + "." + b, '.') == [a] + Split(b, '.')
  {
    if a == [] {
      assert a + "." + b == "." + b;
      assert ("." + b)[1..] == b;
    } else {
      assert (a + "." + b)[1..] == a[1..] + "." + b;
      assert '.' !in a[1..];
      SplitAt(a[1..], b);
      assert [a[0]] + a[1..] == a;
    }
  }

  predicate IsTextType(it: string) { it == "text" || it == "textarea" || it == "string" }

  /** `[str(x).strip() for x in xs if str(x).strip()]` */
  function NonBlankTexts(xs: seq<Json>): (r: seq<string>)
    ensures |r| <= |xs|
    ensures forall k :: 0 <= k < |r| ==> r[k] != [] && !IsSpace(r[k][0])
  {
    if xs == [] then []
    else
      var t := Strip(PyStr(xs[0]));
      (if t != [] then [t] else []) + NonBlankTexts(xs[1..])
  }

  /** Nothing survives exactly when every item's text is blank. */
  lemma {:induction false} NonBlankTextsEmpty(xs: seq<Json>)
    ensures NonBlankTexts(xs) == [] <==> forall k :: 0 <= k < |xs| ==> IsBlank(PyStr(xs[k]))
  {
    if xs != [] {
      StripEmpty(PyStr(xs[0]));
      NonBlankTextsEmpty(xs[1..]);
      assert forall k :: 1 <= k < |xs| ==> xs[k] == xs[1..][k - 1];
    }
  }

  /**
   * `_coerce_value_for_question`: for a text, textarea or string question a
   * list becomes its non-blank item texts joined by newlines and a dict its
   * JSON text (`dumps`); any other value, or any value for another type, is
   * kept.
   */
  function Coerce(value: Json, it: string, dumps: Json -> string): (r: Json)
    ensures !IsTextType(it) || !(value.List? || value.Obj?) ==> r == value
    ensures IsTextType(it) && (value.List? || value.Obj?) ==> r.Str?
  {
    if IsTextType(it) && value.List? then Str(Join("\n", NonBlankTexts(value.items)))
    else if IsTextType(it) && value.Obj? then Str(dumps(value))
    else value
  }

  /** A list coerced for a text question is blank exactly when every item's text is blank. */
  lemma CoercedListBlank(xs: seq<Json>, it: string, dumps: Json -> string)
    requires IsTextType(it)
    ensures IsEmptyAnswer(Coerce(List(xs), it, dumps)) <==> forall k :: 0 <= k < |xs| ==> IsBlank(PyStr(xs[k]))
  {
    NonBlankTextsEmpty(xs);
    var parts := NonBlankTexts(xs);
    if parts != [] {
      assert Join("\n", parts)[0] == parts[0][0];
    }
  }

  /**
   * The override a question contributes to the merge: resolved, coerced to
   * the question's type, and dropped when None, blank or an empty list.
   */
  function OverrideFor(q: Json, overrides: Json, dumps: Json -> string): (r: Option<Json>)
    ensures r.Some? ==> Answerable(q) && !IsEmptyAnswer(r.value)
  {
    if !Answerable(q) then None
    else
      var ov := NestedResolve(FieldKey(q), overrides);
      if ov == Null then None
      else
        var c := Coerce(ov, InputType(q), dumps);
        if IsEmptyAnswer(c) then None else Some(c)
  }

  /** `by_fk` over the base answers: field key to value, a later answer replacing an earlier one. */
  function IndexAnswers(answers: seq<Answer>): map<string, Json>
  {
    if answers == [] then map[]
    else
      var last := answers[|answers| - 1];
      IndexAnswers(answers[..|answers| - 1])[last.fieldKey := last.value]
  }

  /** A key is indexed exactly when some answer has it, and then with the value of an answer that has it. */
  lemma {:induction false} IndexAnswersSpec(answers: seq<Answer>, fk: string)
    ensures fk in IndexAnswers(answers) <==> exists a :: a in answers && a.fieldKey == fk
    ensures fk in IndexAnswers(answers) ==> Answer(fk, IndexAnswers(answers)[fk]) in answers
  {
    if answers != [] {
      var init := answers[..|answers| - 1];
      IndexAnswersSpec(init, fk);
      assert answers == init + [answers[|answers| - 1]];
    }
  }

  /** The last question of `qs` with field key `fk` that contributes an override, and that override. */
  function LastOverride(qs: seq<Json>, fk: string, overrides: Json, dumps: Json -> string): (r: Option<Json>)
    ensures r.Some? ==> !IsEmptyAnswer(r.value) && exists q :: q in qs && Answerable(q) && FieldKey(q) == fk
  {
    if qs == [] then None
    else
      var q := qs[|qs| - 1];
      if FieldKey(q) == fk && OverrideFor(q, overrides, dumps).Some? then OverrideFor(q, overrides, dumps)
      else
        var r := LastOverride(qs[..|qs| - 1], fk, overrides, dumps);
        assert forall x :: x in qs[..|qs| - 1] ==> x in qs;
        r
  }

  /** `by_fk` after the override pass over the questions `qs`. */
  function ApplyOverrides(m: map<string, Json>, qs: seq<Json>, overrides: Json, dumps: Json -> string): map<string, Json>
  {
    if qs == [] then m
    else
      var before := ApplyOverrides(m, qs[..|qs| - 1], overrides, dumps);
      var q := qs[|qs| - 1];
      match OverrideFor(q, overrides, dumps)
      case Some(v) => before[FieldKey(q) := v]
      case None => before
  }

  /** One more question extends the override pass by that question's override. */
  lemma ApplyOverridesSnoc(m: map<string, Json>, qs: seq<Json>, j: nat, overrides: Json, dumps: Json -> string)
    requires j < |qs|
    ensures ApplyOverrides(m, qs[..j + 1], overrides, dumps) ==
      (var before := ApplyOverrides(m, qs[..j], overrides, dumps);
       match OverrideFor(qs[j], overrides, dumps) case Some(v) => before[FieldKey(qs[j]) := v] case None => before)
  {
    assert qs[..j + 1][..j] == qs[..j];
  }

  /** One step of the override pass, stated as an `if`. */
  lemma ApplyOverridesStep(m: map<string, Json>, qs: seq<Json>, overrides: Json, dumps: Json -> string)
    requires qs != []
    ensures var before := ApplyOverrides(m, qs[..|qs| - 1], overrides, dumps);
      var q := qs[|qs| - 1];
      var o := OverrideFor(q, overrides, dumps);
      ApplyOverrides(m, qs, overrides, dumps) == (if o.Some? then before[FieldKey(q) := o.value] else before)
  {
  }

  /** A key is present after the override pass when it was before or some question overrode it. */
  lemma {:induction false} ApplyOverridesKeys(m: map<string, Json>, qs: seq<Json>, overrides: Json, dumps: Json -> string, fk: string)
    ensures fk in ApplyOverrides(m, qs, overrides, dumps) <==> fk in m || LastOverride(qs, fk, overrides, dumps).Some?
  {
    if qs != [] {
      var init := qs[..|qs| - 1];
      var q := qs[|qs| - 1];
      ApplyOverridesKeys(m, init, overrides, dumps, fk);
      ApplyOverridesStep(m, qs, overrides, dumps);
      if FieldKey(q) == fk && OverrideFor(q, overrides, dumps).Some? {
        assert LastOverride(qs, fk, overrides, dumps).Some?;
      } else {
        assert LastOverride(qs, fk, overrides, dumps) == LastOverride(init, fk, overrides, dumps);
      }
    }
  }

  /** A key overridden by a question holds the last such override after the pass. */
  lemma {:induction false} ApplyOverridesLast(m: map<string, Json>, qs: seq<Json>, overrides: Json, dumps: Json -> string, fk: string)
    requires LastOverride(qs, fk, overrides, dumps).Some?
    ensures fk in ApplyOverrides(m, qs, overrides, dumps)
    ensures ApplyOverrides(m, qs, overrides, dumps)[fk] == LastOverride(qs, fk, overrides, dumps).value
  {
    var init := qs[..|qs| - 1];
    var q := qs[|qs| - 1];
    ApplyOverridesStep(m, qs, overrides, dumps);
    if !(FieldKey(q) == fk && OverrideFor(q, overrides, dumps).Some?) {
      assert LastOverride(qs, fk, overrides, dumps) == LastOverride(init, fk, overrides, dumps);
      ApplyOverridesLast(m, init, overrides, dumps, fk);
    }
  }

  /** A key no question overrides keeps its base value. */
  lemma {:induction false} ApplyOverridesKeep(m: map<string, Json>, qs: seq<Json>, overrides: Json, dumps: Json -> string, fk: string)
    requires LastOverride(qs, fk, overrides, dumps).None? && fk in m
    ensures fk in ApplyOverrides(m, qs, overrides, dumps)
    ensures ApplyOverrides(m, qs, overrides, dumps)[fk] == m[fk]
  {
    if qs != [] {
      var init := qs[..|qs| - 1];
      var q := qs[|qs| - 1];
      ApplyOverridesStep(m, qs, overrides, dumps);
      assert LastOverride(qs, fk, overrides, dumps) == LastOverride(init, fk, overrides, dumps);
      ApplyOverridesKeep(m, init, overrides, dumps, fk);
    }
  }

  /**
   * After the override pass a key holds the last override given to it by a
   * question, and otherwise its base value.
   */
  lemma ApplyOverridesAt(m: map<string, Json>, qs: seq<Json>, overrides: Json, dumps: Json -> string, fk: string)
    ensures fk in ApplyOverrides(m, qs, overrides, dumps) <==> fk in m || LastOverride(qs, fk, overrides, dumps).Some?
    ensures LastOverride(qs, fk, overrides, dumps).Some? ==>
      ApplyOverrides(m, qs, overrides, dumps)[fk] == LastOverride(qs, fk, overrides, dumps).value
    ensures LastOverride(qs, fk, overrides, dumps).None? && fk in m ==>
      ApplyOverrides(m, qs, overrides, dumps)[fk] == m[fk]
  {
    ApplyOverridesKeys(m, qs, overrides, dumps, fk);
    if LastOverride(qs, fk, overrides, dumps).Some? {
      ApplyOverridesLast(m, qs, overrides, dumps, fk);
    } else if fk in m {
      ApplyOverridesKeep(m, qs, overrides, dumps, fk);
    }
  }

  /** `question_fks`: the field keys of the answerable questions, in order, repeats kept. */
  function QuestionKeys(qs: seq<Json>): (r: seq<string>)
    ensures forall k :: k in r <==> exists q :: q in qs && Answerable(q) && FieldKey(q) == k
  {
    if qs == [] then []
    else
      var q := qs[|qs| - 1];
      var r := QuestionKeys(qs[..|qs| - 1]) + (if Answerable(q) then [FieldKey(q)] else []);
      assert qs == qs[..|qs| - 1] + [q];
      r
  }

  /** One more question lists its field key when it is answerable. */
  lemma QuestionKeysSnoc(qs: seq<Json>, j: nat)
    requires j < |qs|
    ensures QuestionKeys(qs[..j + 1]) == QuestionKeys(qs[..j]) + (if Answerable(qs[j]) then [FieldKey(qs[j])] else [])
  {
    assert qs[..j + 1][..j] == qs[..j];
  }

  /** The rebuilt answer list: an answer for each listed key the map holds, in list order. */
  function Rebuild(fks: seq<string>, m: map<string, Json>): (r: seq<Answer>)
    ensures |r| <= |fks|
  {
    if fks == [] then []
    else Rebuild(fks[..|fks| - 1], m) + (var k := fks[|fks| - 1]; if k in m then [Answer(k, m[k])] else [])
  }

  /**
   * The rebuilt list holds exactly the listed keys the map has, each with its
   * value from the map; when the map has them all, one answer per key in the
   * same order.
   */
  lemma {:induction false} RebuildSpec(fks: seq<string>, m: map<string, Json>)
    ensures forall a :: a in Rebuild(fks, m) ==> a.fieldKey in fks && a.fieldKey in m && a.value == m[a.fieldKey]
    ensures forall k :: k in fks && k in m ==> Answer(k, m[k]) in Rebuild(fks, m)
    ensures (forall k :: k in fks ==> k in m) ==>
      |Rebuild(fks, m)| == |fks| && forall i :: 0 <= i < |fks| ==> Rebuild(fks, m)[i].fieldKey == fks[i]
  {
    if fks != [] {
      var init := fks[..|fks| - 1];
      RebuildSpec(init, m);
      assert fks == init + [fks[|fks| - 1]];
    }
  }

  /** The answers `_auto_answer_card_with_overrides` sends: the base answers with the overrides merged in, rebuilt in question order. */
  function MergedAnswers(card: Json, overrides: Json, uploadedFileIds: seq<string>, dumps: Json -> string): seq<Answer>
    requires card.Obj?
  {
    var qs := Questions(card);
    Rebuild(QuestionKeys(qs), ApplyOverrides(IndexAnswers(LitigationAnswers(card, uploadedFileIds)), qs, overrides, dumps))
  }

  /**
   * Every key of the merged map is the field key of a question, so the pass
   * that appends base answers missing from `question_fks` appends nothing.
   */
  lemma NoExtraAnswers(card: Json, overrides: Json, uploadedFileIds: seq<string>, dumps: Json -> string, fk: string)
    requires card.Obj?
    requires fk in ApplyOverrides(IndexAnswers(LitigationAnswers(card, uploadedFileIds)), Questions(card), overrides, dumps)
    ensures fk in QuestionKeys(Questions(card))
  {
    var base := LitigationAnswers(card, uploadedFileIds);
    ApplyOverridesAt(IndexAnswers(base), Questions(card), overrides, dumps, fk);
    IndexAnswersSpec(base, fk);
    NoEmptyAnswers(card, uploadedFileIds);
  }

  /** A field key with a usable override is answered with the last such override, wherever it appears. */
  lemma OverrideWinsMerged(card: Json, overrides: Json, uploadedFileIds: seq<string>, dumps: Json -> string, fk: string)
    requires card.Obj?
    requires LastOverride(Questions(card), fk, overrides, dumps).Some?
    ensures Answer(fk, LastOverride(Questions(card), fk, overrides, dumps).value) in MergedAnswers(card, overrides, uploadedFileIds, dumps)
    ensures forall a :: a in MergedAnswers(card, overrides, uploadedFileIds, dumps) && a.fieldKey == fk ==>
      a.value == LastOverride(Questions(card), fk, overrides, dumps).value
  {
    var base := LitigationAnswers(card, uploadedFileIds);
    ApplyOverridesAt(IndexAnswers(base), Questions(card), overrides, dumps, fk);
    RebuildSpec(QuestionKeys(Questions(card)), ApplyOverrides(IndexAnswers(base), Questions(card), overrides, dumps));
  }

  /**
   * A field key without a usable override (none, or one that coerces to an
   * empty value) keeps its base answer: the merge sends the base value, and
   * sends the key exactly when the base did.
   */
  lemma EmptyOverrideKeepsBase(card: Json, overrides: Json, uploadedFileIds: seq<string>, dumps: Json -> string, fk: string)
    requires card.Obj?
    requires LastOverride(Questions(card), fk, overrides, dumps).None?
    ensures (exists a :: a in MergedAnswers(card, overrides, uploadedFileIds, dumps) && a.fieldKey == fk) <==>
      (exists a :: a in LitigationAnswers(card, uploadedFileIds) && a.fieldKey == fk)
    ensures forall a :: a in MergedAnswers(card, overrides, uploadedFileIds, dumps) && a.fieldKey == fk ==>
      a in LitigationAnswers(card, uploadedFileIds)
  {
    var base := LitigationAnswers(card, uploadedFileIds);
    var m := ApplyOverrides(IndexAnswers(base), Questions(card), overrides, dumps);
    RebuildSpec(QuestionKeys(Questions(card)), m);
    ApplyOverridesAt(IndexAnswers(base), Questions(card), overrides, dumps, fk);
    IndexAnswersSpec(base, fk);
    if exists a :: a in base && a.fieldKey == fk {
      NoExtraAnswers(card, overrides, uploadedFileIds, dumps, fk);
    }
  }

  /** No merged answer is None, blank or an empty list. */
  lemma MergedNotEmpty(card: Json, overrides: Json, uploadedFileIds: seq<string>, dumps: Json -> string)
    requires card.Obj?
    ensures forall a :: a in MergedAnswers(card, overrides, uploadedFileIds, dumps) ==> !IsEmptyAnswer(a.value)
  {
    var base := LitigationAnswers(card, uploadedFileIds);
    NoEmptyAnswers(card, uploadedFileIds);
    RebuildSpec(QuestionKeys(Questions(card)), ApplyOverrides(IndexAnswers(base), Questions(card), overrides, dumps));
    forall a | a in MergedAnswers(card, overrides, uploadedFileIds, dumps) ensures !IsEmptyAnswer(a.value) {
      ApplyOverridesAt(IndexAnswers(base), Questions(card), overrides, dumps, a.fieldKey);
      IndexAnswersSpec(base, a.fieldKey);
    }
  }

  /** The first loop of `_auto_answer_card_with_overrides`: index the base answers by field key. */
  method IndexBaseAnswers(base: seq<Answer>) returns (byFk: map<string, Json>)
    ensures byFk == IndexAnswers(base)
  {
    byFk := map[];
    for i := 0 to |base|
      invariant byFk == IndexAnswers(base[..i])
    {
      assert base[..i + 1][..i] == base[..i];
      byFk := byFk[base[i].fieldKey := base[i].value];
    }
    assert base[..|base|] == base;
  }

  /**
   * The second loop: collect `question_fks` and let each answerable
   * question's usable override replace or add its entry.
   */
  method MergeOverrides(m: map<string, Json>, qs: seq<Json>, overrides: Json, dumps: Json -> string)
    returns (questionFks: seq<string>, byFk: map<string, Json>)
    ensures questionFks == QuestionKeys(qs)
    ensures byFk == ApplyOverrides(m, qs, overrides, dumps)
  {
    questionFks := [];
    byFk := m;
    for j := 0 to |qs|
      invariant questionFks == QuestionKeys(qs[..j])
      invariant byFk == ApplyOverrides(m, qs[..j], overrides, dumps)
    {
      var q := qs[j];
      ApplyOverridesSnoc(m, qs, j, overrides, dumps);
      QuestionKeysSnoc(qs, j);
      if Answerable(q) {
        var fk := FieldKey(q);
        questionFks := questionFks + [fk];
        var ov := NestedResolve(fk, overrides);
        if ov != Null {
          ov := Coerce(ov, InputType(q), dumps);
          if !IsEmptyAnswer(ov) {
            // Both the in-place update of a base answer and a new entry leave `fk` mapped to `ov`.
            byFk := byFk[fk := ov];
          }
        }
      }
    }
    assert qs[..|qs|] == qs;
  }

  /** The third loop: list the entries of the listed keys in order. */
  method RebuildAnswers(questionFks: seq<string>, byFk: map<string, Json>) returns (out: seq<Answer>)
    ensures out == Rebuild(questionFks, byFk)
  {
    out := [];
    for k := 0 to |questionFks|
      invariant out == Rebuild(questionFks[..k], byFk)
    {
      assert questionFks[..k + 1][..k] == questionFks[..k];
      if questionFks[k] in byFk {
        out := out + [Answer(questionFks[k], byFk[questionFks[k]])];
      }
    }
    assert questionFks[..|questionFks|] == questionFks;
  }

  /**
   * `_auto_answer_card_with_overrides`: index the base answers by field key,
   * let each question's usable override replace or add its entry, then list
   * the entries in question order.
   */
  method AutoAnswerCardWithOverrides(card: Json, overrides: Json, uploadedFileIds: seq<string>, dumps: Json -> string) returns (r: Json)
    requires card.Obj?
    ensures r == UserResponse(MergedAnswers(card, overrides, uploadedFileIds, dumps))
  {
    var base := LitigationAnswers(card, uploadedFileIds);
    var byFk := IndexBaseAnswers(base);
    var questionFks, merged := MergeOverrides(byFk, Questions(card), overrides, dumps);
    var out := RebuildAnswers(questionFks, merged);
    r := UserResponse(out);
  }

  // ---------------------------------------------------------------------
  // SSE extractors and the card signature

  /** A `task_start` event with dict data. */
  predicate TaskStartEvent(e: Json)
  {
    e.Obj? && Get(e, "event") == Str("task_start") && Get(e, "data").Obj?
  }

  /** `_extract_sse_nodes`: the stripped non-blank `node` of each `task_start` event with dict data, in order. */
  function ExtractSseNodes(events: seq<Json>): (r: seq<string>)
    ensures |r| <= |events|
    ensures forall k :: 0 <= k < |r| ==> r[k] != [] && !IsSpace(r[k][0])
  {
    if events == [] then [] else NodeOf(events[0]) + ExtractSseNodes(events[1..])
  }

  /** The node one event contributes: none, or its stripped non-blank `node` when it is a `task_start` with dict data. */
  function NodeOf(e: Json): (r: seq<string>)
    ensures |r| <= 1
    ensures forall k :: 0 <= k < |r| ==> r[k] != [] && !IsSpace(r[k][0])
  {
    var node := if TaskStartEvent(e) then Clean(Get(Get(e, "data"), "node")) else "";
    if node != [] then [node] else []
  }

  /** Every node comes from a `task_start` event of the list. */
  lemma {:induction false} ExtractSseNodesSound(events: seq<Json>, n: string)
    requires n in ExtractSseNodes(events)
    ensures exists e :: e in events && TaskStartEvent(e) && Clean(Get(Get(e, "data"), "node")) == n
  {
    var e := events[0];
    if !(TaskStartEvent(e) && Clean(Get(Get(e, "data"), "node")) == n) {
      ExtractSseNodesSound(events[1..], n);
      var x :| x in events[1..] && TaskStartEvent(x) && Clean(Get(Get(x, "data"), "node")) == n;
      assert x in events;
    }
  }

  /** The nodes of two runs of events are the nodes of the first followed by those of the second. */
  lemma {:induction false} ExtractSseNodesAppend(a: seq<Json>, b: seq<Json>)
    ensures ExtractSseNodes(a + b) == ExtractSseNodes(a) + ExtractSseNodes(b)
  {
    if a != [] {
      assert (a + b)[0] == a[0];
      assert (a + b)[1..] == a[1..] + b;
      assert ExtractSseNodes(a + b) == NodeOf(a[0]) + ExtractSseNodes(a[1..] + b);
      ExtractSseNodesAppend(a[1..], b);
    } else {
      assert a + b == b;
    }
  }

  /** The data of the last card event in `events`, scanning from the end. */
  function LastCardIn(events: seq<Json>): (r: Option<Json>)
  {
    if events == [] then None
    else if FlowRunner.CardEvent(events[|events| - 1]) then Some(Get(events[|events| - 1], "data"))
    else LastCardIn(events[..|events| - 1])
  }

  /** `_extract_last_sse_card`: None for anything but a dict; else the data of its last non-empty card event. */
  function ExtractLastSseCard(sse: Json): (r: Option<Json>)
    ensures !sse.Obj? ==> r.None?
  {
    if sse.Obj? then LastCardIn(ListOrEmpty(Get(sse, "events"))) else None
  }

  lemma {:induction false} LastCardInIndex(events: seq<Json>, n: nat)
    requires n <= |events|
    ensures LastCardIn(events[..n]) ==
      (var i := FlowRunner.LastCardIndex(events, n); if i >= 0 then Some(Get(events[i], "data")) else None)
  {
    if n > 0 {
      assert events[..n][..n - 1] == events[..n - 1];
      LastCardInIndex(events, n - 1);
    }
  }

  /** On a dict the test's extractor and the runner's `extract_last_card_from_sse` agree. */
  lemma ExtractLastSseCardAgrees(sse: Json)
    requires sse.Obj?
    ensures ExtractLastSseCard(sse) == FlowRunner.ExtractLastCardFromSse(sse)
  {
    var events := ListOrEmpty(Get(sse, "events"));
    LastCardInIndex(events, |events|);
    assert events[..|events|] == events;
  }

  /** `_question_sig` of every dict question, in order; blank field keys included. */
  function AllQuestionSigs(qs: seq<Json>): (r: seq<string>)
    ensures |r| <= |qs|
  {
    if qs == [] then []
    else (if qs[0].Obj? then [FlowRunner.QuestionSig(FieldKey(qs[0]), InputType(qs[0]))] else []) + AllQuestionSigs(qs[1..])
  }

  /** `_card_sig`, before the JSON rendering and the SHA-256 digest. */
  function LitigationCardSig(card: Json): (r: FlowRunner.CardSig)
    ensures r.questions == AllQuestionSigs(Questions(card))
    ensures r.skill == Clean(Get(card, "skill_id")) && r.task == Clean(Get(card, "task_key")) && r.review == Clean(Get(card, "review_type"))
  {
    FlowRunner.CardSig(Clean(Get(card, "skill_id")), Clean(Get(card, "task_key")), Clean(Get(card, "review_type")), AllQuestionSigs(Questions(card)))
  }

  /** Without blank field keys among the dict questions, the test and the runner list the same question entries. */
  lemma {:induction false} SigsAgreeWhenKeyed(qs: seq<Json>)
    requires forall i :: 0 <= i < |qs| && qs[i].Obj? ==> FieldKey(qs[i]) != ""
    ensures AllQuestionSigs(qs) == FlowRunner.KeyedQuestionSigs(qs)
  {
    if qs != [] {
      assert forall i :: 0 <= i < |qs[1..]| ==> qs[1..][i] == qs[i + 1];
      SigsAgreeWhenKeyed(qs[1..]);
    }
  }

  /**
   * A dict question with a blank field key changes the test's signature but
   * not the runner's: the test lists an entry for it, the runner skips it.
   */
  lemma BlankKeyQuestionCounts(q: Json, qs: seq<Json>)
    requires q.Obj? && FieldKey(q) == ""
    ensures FlowRunner.KeyedQuestionSigs([q] + qs) == FlowRunner.KeyedQuestionSigs(qs)
    ensures AllQuestionSigs([q] + qs) == [FlowRunner.QuestionSig("", InputType(q))] + AllQuestionSigs(qs)
  {
    assert ([q] + qs)[0] == q;
    assert ([q] + qs)[1..] == qs;
  }

  // ---------------------------------------------------------------------
  // The drive-to-cause loop and its stuck-card guard

  /** The card the loop is after: the cause-of-action selection. */
  predicate IsCauseCard(card: Json)
  {
    Clean(Get(card, "skill_id")) == "cause-recommendation" && Clean(Get(card, "review_type")) == "select"
  }

  /** The field key of the question a cause card must carry. */
  const CauseFieldKey: string := "profile.cause_of_action_code"

  /** The cause of action the quality baseline expects first for a bus passenger injured in transit. */
  const ExpectedCause: string := "transport_contract"

  /** A dict question asking for the cause of action. */
  predicate IsCauseQuestion(q: Json)
  {
    q.Obj? && FieldKey(q) == CauseFieldKey
  }

  /** The cleaned `value` of the first option of `q`, or None when `q` has no option list or an empty one. */
  function TopOptionValue(q: Json): Option<string>
  {
    var options := ListOrEmpty(Get(q, "options"));
    if options == [] then None
    else Some(Clean(Get(if options[0].Obj? then options[0] else Obj([]), "value")))
  }

  /**
   * The quality baseline on the cause card: its first dict question for
   * `profile.cause_of_action_code` has options, and the first of them is
   * `transport_contract`; any other card fails with AssertionError.
   */
  function CauseCardCheck(card: Json): (r: Check)
    ensures r.Fail? ==> r.error == AssertionError
    ensures (forall q :: q in Questions(card) ==> !IsCauseQuestion(q)) ==> r.Fail?
    ensures forall i ::
      (0 <= i < |Questions(card)| && IsCauseQuestion(Questions(card)[i])
       && forall j :: 0 <= j < i ==> !IsCauseQuestion(Questions(card)[j]))
      ==> (r.Pass? <==> TopOptionValue(Questions(card)[i]) == Some(ExpectedCause))
  {
    var qs := Questions(card);
    var i := Utils.FirstWhere(qs, IsCauseQuestion);
    if i == |qs| then
      assert forall j :: 0 <= j < |qs| ==> !IsCauseQuestion(qs[j]);
      Fail(AssertionError)
    else if TopOptionValue(qs[i]) == Some(ExpectedCause) then Pass
    else Fail(AssertionError)
  }

  /** The signatures a card adds to `clarify_question_sigs`: its non-empty question signatures when its review type is `clarify`. */
  function ClarifySigsOf(card: Json): set<string>
  {
    if Clean(Get(card, "review_type")) == "clarify" then set s | s in AllQuestionSigs(Questions(card)) && s != "" else {}
  }

  /** The union of what `added` gives for each card: `clarify_question_sigs` after the cards when `added` is `ClarifySigsOf`. */
  function Collected(added: Json -> set<string>, cards: seq<Json>): set<string>
  {
    if cards == [] then {} else Collected(added, cards[..|cards| - 1]) + added(cards[|cards| - 1])
  }

  /** `ListsClarify(card, s)`: `card` is a clarify card listing `s` for one of its dict questions. */
  predicate ListsClarify(card: Json, s: string)
  {
    Clean(Get(card, "review_type")) == "clarify" && s in AllQuestionSigs(Questions(card))
  }

  /** A card adds exactly the signatures it lists as a clarify card. */
  lemma ClarifySigsOfLists(card: Json, s: string)
    ensures s in ClarifySigsOf(card) <==> ListsClarify(card, s)
  {
    QuestionSigsNonEmpty(Questions(card), s);
  }

  /** The cards up to `n + 1` add what card `n` adds to what those up to `n` collected. */
  lemma CollectedSnoc(added: Json -> set<string>, cards: seq<Json>, n: nat)
    requires n < |cards|
    ensures Collected(added, cards[..n + 1]) == Collected(added, cards[..n]) + added(cards[n])
  {
    assert cards[..n + 1][..n] == cards[..n];
  }

  /** Everything a card adds is collected. */
  lemma {:induction false} CollectedHas(added: Json -> set<string>, cards: seq<Json>, k: nat, s: string)
    requires k < |cards| && s in added(cards[k])
    ensures s in Collected(added, cards)
  {
    var n := |cards| - 1;
    if k < n {
      assert cards[..n][k] == cards[k];
      CollectedHas(added, cards[..n], k, s);
    }
  }

  /** Everything collected was added by some card, the `k`-th. */
  lemma {:induction false} CollectedSource(added: Json -> set<string>, cards: seq<Json>, s: string) returns (k: nat)
    requires s in Collected(added, cards)
    ensures k < |cards| && s in added(cards[k])
  {
    var n := |cards| - 1;
    if s in added(cards[n]) {
      k := n;
    } else {
      k := CollectedSource(added, cards[..n], s);
      assert cards[..n][k] == cards[k];
    }
  }

  /** Every question signature holds the separator, so none is empty and the `if qsig` filter keeps them all. */
  lemma {:induction false} QuestionSigsNonEmpty(qs: seq<Json>, s: string)
    ensures s in AllQuestionSigs(qs) ==> s != ""
  {
    if qs != [] {
      QuestionSigsNonEmpty(qs[1..], s);
      if qs[0].Obj? {
        assert |FlowRunner.QuestionSig(FieldKey(qs[0]), InputType(qs[0]))| > 0;
      }
    }
  }

  /** How the loop ends. */
  datatype DriveOutcome =
    | CauseReached(card: Json)
    | CauseRejected(card: Json)
    | Repeated(sig: FlowRunner.CardSig)
    | NoCauseCard

  /** The most clarify questions the baseline allows before the cause card. */
  const ClarifyBudget: nat := 3

  /**
   * The asserts after the loop: the cause card was reached (a repeated or
   * rejected card has raised already) and at most 3 clarify questions were
   * collected before it.
   */
  function DriveVerdict(outcome: DriveOutcome, clarify: set<string>): (r: Result<Json>)
    ensures r.Ok? <==> outcome.CauseReached? && |clarify| <= ClarifyBudget
    ensures r.Ok? ==> r.value == outcome.card
    ensures r.Err? ==> r.error == AssertionError
  {
    if outcome.CauseReached? && |clarify| <= ClarifyBudget then Ok(outcome.card) else Err(AssertionError)
  }

  /** How often `s` occurs in `sigs`. */
  function Occurrences(sigs: seq<FlowRunner.CardSig>, s: FlowRunner.CardSig): nat
  {
    if sigs == [] then 0
    else Occurrences(sigs[..|sigs| - 1], s) + (if sigs[|sigs| - 1] == s then 1 else 0)
  }

  /** `counts` holds how often each signature occurs in `sigs`, and nothing else. */
  ghost predicate Tallies(counts: map<FlowRunner.CardSig, nat>, sigs: seq<FlowRunner.CardSig>)
  {
    forall s :: (s in counts ==> counts[s] == Occurrences(sigs, s) > 0) && (s !in counts ==> Occurrences(sigs, s) == 0)
  }

  /** Counting one more signature: `counts[sig] = counts.get(sig, 0) + 1`. */
  lemma TalliesSnoc(counts: map<FlowRunner.CardSig, nat>, sigs: seq<FlowRunner.CardSig>, sig: FlowRunner.CardSig)
    requires Tallies(counts, sigs)
    ensures Tallies(counts[sig := (if sig in counts then counts[sig] else 0) + 1], sigs + [sig])
  {
    assert (sigs + [sig])[..|sigs|] == sigs;
  }

  /** A list holding the signature of each card, in order, is their `Signatures`. */
  lemma {:induction false} SignaturesOf(sign: Json -> FlowRunner.CardSig, cards: seq<Json>, sigs: seq<FlowRunner.CardSig>)
    requires |sigs| == |cards| && forall i :: 0 <= i < |cards| ==> sigs[i] == sign(cards[i])
    ensures sigs == FlowRunner.Signatures(sign, cards)
  {
    if cards != [] {
      var n := |cards| - 1;
      SignaturesOf(sign, cards[..n], sigs[..n]);
      assert sigs == sigs[..n] + [sigs[n]];
    }
  }

  /** The loop's iteration budget. */
  const DriveBudget: nat := 30

  /**
   * The loop of the litigation test over the pending cards it meets, in
   * order, for a card signature `sign`, a test `isCause` for the card it is
   * after, the baseline `check` on that card and the clarify signatures
   * `added` by each card: count each card's signature and fail once a
   * signature has been seen more than 3 times; collect what the card adds;
   * at the cause card, check it and stop; give up when the cards or the
   * iteration budget run out. `counts` is `card_sig_counts` and `clarify`
   * is `clarify_question_sigs` when the loop ends. `LitigationDriveToCause`
   * is this loop with the test's own functions.
   */
  method DriveToCause(cards: seq<Json>, sign: Json -> FlowRunner.CardSig, isCause: Json -> bool,
                      check: Json -> Check, added: Json -> set<string>)
    returns (outcome: DriveOutcome, counts: map<FlowRunner.CardSig, nat>, clarify: set<string>, handled: nat,
             ghost sigs: seq<FlowRunner.CardSig>)
    ensures handled <= |cards| && handled <= DriveBudget
    ensures |sigs| == handled && (forall i :: 0 <= i < handled ==> sigs[i] == sign(cards[i]))
    ensures Tallies(counts, sigs)
    ensures outcome.Repeated? ==> handled > 0 && outcome.sig == sign(cards[handled - 1])
    ensures outcome.Repeated? ==> outcome.sig in counts && counts[outcome.sig] == 4
    ensures outcome.Repeated? ==> forall s :: s in counts && s != outcome.sig ==> counts[s] <= 3
    ensures !outcome.Repeated? ==> forall s :: s in counts ==> counts[s] <= 3
    ensures outcome.CauseReached? || outcome.CauseRejected? ==>
      handled > 0 && outcome.card == cards[handled - 1] && isCause(outcome.card)
    ensures outcome.CauseReached? ==> check(outcome.card).Pass?
    ensures outcome.CauseRejected? ==> check(outcome.card).Fail?
    ensures forall k :: 0 <= k < handled - 1 ==> !isCause(cards[k])
    ensures outcome.NoCauseCard? ==> (handled == |cards| || handled == DriveBudget) && forall k :: 0 <= k < handled ==> !isCause(cards[k])
    ensures !outcome.Repeated? ==> clarify == Collected(added, cards[..handled])
    ensures outcome.Repeated? ==> clarify == Collected(added, cards[..handled - 1])
  {
    counts := map[];
    clarify := {};
    handled := 0;
    sigs := [];
    while handled < |cards| && handled < DriveBudget
      invariant handled <= |cards| && handled <= DriveBudget
      invariant |sigs| == handled && forall i :: 0 <= i < handled ==> sigs[i] == sign(cards[i])
      invariant Tallies(counts, sigs)
      invariant forall s :: s in counts ==> counts[s] <= 3
      invariant forall k :: 0 <= k < handled ==> !isCause(cards[k])
      invariant clarify == Collected(added, cards[..handled])
      decreases |cards| - handled
    {
      var card := cards[handled];
      var sig := sign(card);
      var repeated;
      counts, repeated := CountSig(counts, sigs, sig);
      sigs := sigs + [sig];
      CollectedSnoc(added, cards, handled);
      ghost var before := cards[..handled];
      handled := handled + 1;
      assert forall i :: 0 <= i < handled ==> sigs[i] == sign(cards[i]);
      assert forall k :: 0 <= k < handled - 1 ==> !isCause(cards[k]);
      if repeated {
        assert cards[..handled - 1] == before;
        return Repeated(sig), counts, clarify, handled, sigs;
      }
      clarify := clarify + added(card);
      assert clarify == Collected(added, cards[..handled]);
      if isCause(card) {
        outcome := if check(card).Pass? then CauseReached(card) else CauseRejected(card);
        return;
      }
    }
    outcome := NoCauseCard;
  }

  /**
   * One card's tally: `card_sig_counts[sig] = card_sig_counts.get(sig, 0) + 1`,
   * and whether that sighting is one too many.
   */
  method CountSig(counts: map<FlowRunner.CardSig, nat>, ghost sigs: seq<FlowRunner.CardSig>, sig: FlowRunner.CardSig)
    returns (counts': map<FlowRunner.CardSig, nat>, repeated: bool)
    requires Tallies(counts, sigs) && forall s :: s in counts ==> counts[s] <= 3
    ensures Tallies(counts', sigs + [sig])
    ensures repeated <==> counts'[sig] > 3
    ensures repeated ==> sig in counts' && counts'[sig] == 4 && forall s :: s in counts' && s != sig ==> counts'[s] <= 3
    ensures !repeated ==> forall s :: s in counts' ==> counts'[s] <= 3
  {
    TalliesSnoc(counts, sigs, sig);
    var seen := if sig in counts then counts[sig] else 0;
    counts' := counts[sig := seen + 1];
    repeated := counts'[sig] > 3;
  }

  /**
   * The litigation test's loop: `DriveToCause` with `_card_sig`, the
   * cause-recommendation select card, the baseline on its options and the
   * clarify question signatures.
   */
  method LitigationDriveToCause(cards: seq<Json>)
    returns (outcome: DriveOutcome, counts: map<FlowRunner.CardSig, nat>, clarify: set<string>, handled: nat,
             ghost sigs: seq<FlowRunner.CardSig>)
    ensures handled <= |cards| && handled <= DriveBudget
    ensures |sigs| == handled && (forall i :: 0 <= i < handled ==> sigs[i] == LitigationCardSig(cards[i]))
    ensures Tallies(counts, sigs)
    ensures outcome.Repeated? ==> outcome.sig in counts && counts[outcome.sig] == 4
    ensures !outcome.Repeated? ==> forall s :: s in counts ==> counts[s] <= 3
    ensures outcome.CauseReached? || outcome.CauseRejected? ==>
      handled > 0 && outcome.card == cards[handled - 1] && IsCauseCard(outcome.card)
    ensures outcome.CauseReached? ==> CauseCardCheck(outcome.card).Pass?
    ensures outcome.CauseRejected? ==> CauseCardCheck(outcome.card).Fail?
    ensures forall k :: 0 <= k < handled - 1 ==> !IsCauseCard(cards[k])
    ensures outcome.NoCauseCard? ==> (handled == |cards| || handled == DriveBudget) && forall k :: 0 <= k < handled ==> !IsCauseCard(cards[k])
    ensures !outcome.Repeated? ==> clarify == Collected(ClarifySigsOf, cards[..handled])
    ensures outcome.Repeated? ==> clarify == Collected(ClarifySigsOf, cards[..handled - 1])
  {
    outcome, counts, clarify, handled, sigs := DriveToCause(cards, LitigationCardSig, IsCauseCard, CauseCardCheck, ClarifySigsOf);
  }
}
