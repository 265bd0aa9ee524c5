/**
 * What every card auto-answerer in the harness shares: how a question of a
 * pending card is read (its field key, input type, required flag, default and
 * options), how an option is picked, how a dotted override is resolved, and
 * how the per-question answers are collected into `{"answers": [...]}`.
 *
 * Each auto-answer variant decides, per question, whether to answer and
 * with what (`Json -> Option<Answer>`); `Collect` walks the questions in
 * order, so facts about the per-question decision lift to the whole list.
 */
module Cards {
  import opened Json
  import opened Text

  /** The placeholder answer `"已确认"` ("confirmed"). */
  const Confirmed: string := "已确认"

  /** One entry of `user_response.answers`. */
  datatype Answer = Answer(fieldKey: string, value: Json)

  function AnswerJson(a: Answer): Json
  {
    Obj([Field("field_key", Str(a.fieldKey)), Field("value", a.value)])
  }

  /** `{"answers": answers}` */
  function UserResponse(answers: seq<Answer>): (r: Json)
    ensures r.Obj? && Get(r, "answers").List? && |Get(r, "answers").items| == |answers|
  {
    Obj([Field("answers", List(seq(|answers|, k requires 0 <= k < |answers| => AnswerJson(answers[k]))))])
  }

  /** `card.get("questions")` when it is a list, else no questions. */
  function Questions(card: Json): seq<Json>
  {
    ListOrEmpty(Get(card, "questions"))
  }

  /** `str(q.get("field_key") or "").strip()` */
  function FieldKey(q: Json): string
  {
    Clean(Get(q, "field_key"))
  }

  /** `str(q.get("input_type") or q.get("question_type") or "").strip().lower()` */
  function InputType(q: Json): string
  {
    Lower(Clean(Or(Get(q, "input_type"), Get(q, "question_type"))))
  }

  /** `bool(q.get("required"))` */
  predicate Required(q: Json)
  {
    Truthy(Get(q, "required"))
  }

  /** `q.get("options")` when it is a list, else no options. */
  function Options(q: Json): seq<Json>
  {
    ListOrEmpty(Get(q, "options"))
  }

  /** A question the answerers consider at all: a dict with a non-blank field key. */
  predicate Answerable(q: Json)
  {
    q.Obj? && FieldKey(q) != ""
  }

  /** A default that counts: not None, not blank text, not an empty list or dict. */
  predicate HasDefault(d: Json)
  {
    d != Null && !(d.Str? && IsBlank(d.s)) && !(d.List? && d.items == []) && !(d.Obj? && d.fields == [])
  }

  predicate IsBoolType(it: string) { it == "boolean" || it == "bool" }
  predicate IsSelectType(it: string) { it == "select" || it == "single_select" || it == "single_choice" }
  predicate IsMultiType(it: string) { it == "multi_select" || it == "multiple_select" }
  predicate IsFileType(it: string) { it == "file_ids" || it == "file_id" }

  /** The value the answerers would not send for a required question: None, blank text, an empty list. */
  predicate IsEmptyAnswer(v: Json)
  {
    v.Null? || (v.Str? && IsBlank(v.s)) || (v.List? && v.items == [])
  }

  /**
   * The required-field repair most answerers apply last: a required question
   * whose value is None, blank text or an empty list is answered True when it
   * is boolean and `"已确认"` otherwise; any other value is kept.
   */
  function Repair(it: string, req: bool, v: Json): (r: Json)
    ensures req ==> !IsEmptyAnswer(r)
    ensures !(req && IsEmptyAnswer(v)) ==> r == v
    ensures r != v ==> r == Bool(true) || r == Str(Confirmed)
  {
    assert !IsSpace(Confirmed[0]);
    if req && IsEmptyAnswer(v) then (if IsBoolType(it) then Bool(true) else Str(Confirmed)) else v
  }

  lemma ConfirmedNotBlank()
    ensures !IsBlank(Confirmed)
  {
    assert !IsSpace(Confirmed[0]);
  }

  lemma HasDefaultIsNotEmpty(d: Json)
    requires HasDefault(d)
    ensures !IsEmptyAnswer(d)
  {
  }

  /** An option that carries a value. */
  predicate Valued(opt: Json)
  {
    opt.Obj? && Get(opt, "value") != Null
  }

  /** An option marked `recommended is True` that carries a value. */
  predicate RecommendedValued(opt: Json)
  {
    Valued(opt) && Get(opt, "recommended") == Bool(true)
  }

  /** Index of the first recommended valued option, or `|opts|`. */
  function FirstRecommended(opts: seq<Json>): (i: nat)
    ensures i <= |opts|
    ensures i < |opts| ==> RecommendedValued(opts[i])
    ensures forall j :: 0 <= j < i ==> !RecommendedValued(opts[j])
  {
    if opts == [] then 0
    else if RecommendedValued(opts[0]) then 0
    else 1 + FirstRecommended(opts[1..])
  }

  /** Index of the first valued option, or `|opts|`. */
  function FirstValued(opts: seq<Json>): (i: nat)
    ensures i <= |opts|
    ensures i < |opts| ==> Valued(opts[i])
    ensures forall j :: 0 <= j < i ==> !Valued(opts[j])
  {
    if opts == [] then 0
    else if Valued(opts[0]) then 0
    else 1 + FirstValued(opts[1..])
  }

  /**
   * `_pick_recommended_or_first`: the value of the first recommended option,
   * else the value of the first option that has one, else None.
   */
  function PickRecommendedOrFirst(options: Json): (r: Json)
    ensures r == Null <==> !options.List? || forall i :: 0 <= i < |options.items| ==> !Valued(options.items[i])
    ensures r != Null ==> exists i :: 0 <= i < |options.items| && Valued(options.items[i]) && Get(options.items[i], "value") == r
  {
    if !options.List? || options.items == [] then Null
    else
      var opts := options.items;
      var k := FirstRecommended(opts);
      if k < |opts| then Get(opts[k], "value")
      else
        var j := FirstValued(opts);
        if j < |opts| then Get(opts[j], "value") else Null
  }

  /** A recommended option wins over every option before it that is not recommended. */
  lemma PickPrefersRecommended(opts: seq<Json>, i: nat)
    requires i < |opts| && RecommendedValued(opts[i])
    requires forall j :: 0 <= j < i ==> !RecommendedValued(opts[j])
    ensures PickRecommendedOrFirst(List(opts)) == Get(opts[i], "value")
  {
    assert FirstRecommended(opts) == i by {
      var k := FirstRecommended(opts);
      assert k <= i;
      assert !(k < i);
    }
  }

  /** Without a recommended option, the first option that has a value is picked. */
  lemma PickFallsBackToFirstValued(opts: seq<Json>, i: nat)
    requires forall j :: 0 <= j < |opts| ==> !RecommendedValued(opts[j])
    requires i < |opts| && Valued(opts[i])
    requires forall j :: 0 <= j < i ==> !Valued(opts[j])
    ensures PickRecommendedOrFirst(List(opts)) == Get(opts[i], "value")
  {
    assert FirstRecommended(opts) == |opts|;
    assert FirstValued(opts) == i by {
      var k := FirstValued(opts);
      assert k <= i;
      assert !(k < i);
    }
  }

  /** The field that satisfies a dotted field key one level down: `overrides[k][sub]` for `fk == k + "." + sub`. */
  predicate NestedHit(fk: string, f: Field)
  {
    f.key != "" && f.val.Obj? && StartsWith(fk, f.key + ".") && |fk| > |f.key| + 1
    && Has(f.val, fk[|f.key| + 1..])
  }

  function FirstNestedHit(fk: string, fs: seq<Field>): (i: nat)
    ensures i <= |fs|
    ensures i < |fs| ==> NestedHit(fk, fs[i])
    ensures forall j :: 0 <= j < i ==> !NestedHit(fk, fs[j])
  {
    if fs == [] then 0
    else if NestedHit(fk, fs[0]) then 0
    else 1 + FirstNestedHit(fk, fs[1..])
  }

  /**
   * `_resolve_override_value`: the override stored under the field key
   * itself; else, for the first dict-valued override `k` with
   * `fk == k + "." + sub` and `sub` a key of that dict, `overrides[k][sub]`;
   * else None. A None stored under the matching key is returned as None.
   */
  function ResolveOverrideValue(fk: string, overrides: Json): (r: Json)
    ensures !NonEmptyDict(overrides) ==> r == Null
    ensures NonEmptyDict(overrides) && Has(overrides, fk) ==> r == Get(overrides, fk)
    ensures r != Null && !Has(overrides, fk) ==>
      exists i :: 0 <= i < |overrides.fields| && NestedHit(fk, overrides.fields[i])
        && r == Get(overrides.fields[i].val, fk[|overrides.fields[i].key| + 1..])
        && forall j :: 0 <= j < i ==> !NestedHit(fk, overrides.fields[j])
    ensures NonEmptyDict(overrides) && !Has(overrides, fk) ==>
      forall i :: (0 <= i < |overrides.fields| && NestedHit(fk, overrides.fields[i])
        && forall j :: 0 <= j < i ==> !NestedHit(fk, overrides.fields[j]))
        ==> r == Get(overrides.fields[i].val, fk[|overrides.fields[i].key| + 1..])
    ensures NonEmptyDict(overrides) && !Has(overrides, fk) ==>
      (forall i :: 0 <= i < |overrides.fields| ==> !NestedHit(fk, overrides.fields[i])) ==> r == Null
  {
    if !NonEmptyDict(overrides) then Null
    else if Has(overrides, fk) then Get(overrides, fk)
    else
      var fs := overrides.fields;
      var i := FirstNestedHit(fk, fs);
      if i < |fs| then Get(fs[i].val, fk[|fs[i].key| + 1..]) else Null
  }

  /**
   * A one-level nested override: `{k: {sub: v}}` answers the field `k + "." + sub`
   * with `v`, whatever the two names are.
   */
  lemma NestedOverrideResolves(k: string, sub: string, v: Json)
    requires k != "" && sub != ""
    ensures ResolveOverrideValue(k + "." + sub, Obj([Field(k, Obj([Field(sub, v)]))])) == v
  {
    var fk := k + "." + sub;
    var f := Field(k, Obj([Field(sub, v)]));
    assert fk[..|k| + 1] == k + ".";
    assert fk[|f.key| + 1..] == sub;
    assert StartsWith(fk, f.key + ".");
    assert NestedHit(fk, f);
    assert FirstNestedHit(fk, [f]) == 0;
    assert !Has(Obj([f]), fk) by {
      assert |f.key| != |fk|;
    }
  }

  /** A list of ids as a JSON list of strings. */
  function StrList(ids: seq<string>): (r: Json)
    ensures r.List? && |r.items| == |ids|
    ensures forall k :: 0 <= k < |ids| ==> r.items[k] == Str(ids[k])
  {
    List(seq(|ids|, k requires 0 <= k < |ids| => Str(ids[k])))
  }

  /** The answers a per-question decision gives for a list of questions, in question order. */
  function Collect(qs: seq<Json>, f: Json -> Option<Answer>): (r: seq<Answer>)
    ensures |r| <= |qs|
  {
    if qs == [] then []
    else (if f(qs[0]).Some? then [f(qs[0]).value] else []) + Collect(qs[1..], f)
  }

  lemma {:induction false} CollectAppend(a: seq<Json>, b: seq<Json>, f: Json -> Option<Answer>)
    ensures Collect(a + b, f) == Collect(a, f) + Collect(b, f)
  {
    if a == [] {
      assert a + b == b;
    } else {
      var h := if f(a[0]).Some? then [f(a[0]).value] else [];
      assert (a + b)[0] == a[0];
      assert (a + b)[1..] == a[1..] + b;
      calc {
        Collect(a + b, f);
        h + Collect(a[1..] + b, f);
        { CollectAppend(a[1..], b, f); }
        h + (Collect(a[1..], f) + Collect(b, f));
        (h + Collect(a[1..], f)) + Collect(b, f);
      }
    }
  }

  /** Every answer is the decision about some question: nothing is invented. */
  lemma {:induction false} CollectSound(qs: seq<Json>, f: Json -> Option<Answer>)
    ensures forall a :: a in Collect(qs, f) ==> exists q :: q in qs && f(q) == Some(a)
  {
    if qs != [] {
      CollectSound(qs[1..], f);
      forall a | a in Collect(qs, f) ensures exists q :: q in qs && f(q) == Some(a) {
        if a in Collect(qs[1..], f) {
          var q :| q in qs[1..] && f(q) == Some(a);
          assert q in qs;
        } else {
          assert f(qs[0]) == Some(a);
        }
      }
    }
  }

  /** Every question with a decision contributes exactly that answer: nothing is dropped. */
  lemma {:induction false} CollectComplete(qs: seq<Json>, f: Json -> Option<Answer>)
    ensures forall q :: q in qs && f(q).Some? ==> f(q).value in Collect(qs, f)
  {
    if qs != [] {
      CollectComplete(qs[1..], f);
    }
  }

  /** When every question gets a decision, there is one answer per question, at the same position. */
  lemma {:induction false} CollectTotal(qs: seq<Json>, f: Json -> Option<Answer>)
    requires forall q :: q in qs ==> f(q).Some?
    ensures |Collect(qs, f)| == |qs|
    ensures forall k :: 0 <= k < |qs| ==> Collect(qs, f)[k] == f(qs[k]).value
  {
    if qs != [] {
      CollectTotal(qs[1..], f);
    }
  }

  /** A property every decision has is a property of every answer. */
  lemma {:induction false} CollectAll(qs: seq<Json>, f: Json -> Option<Answer>, p: Answer -> bool)
    requires forall q :: q in qs && f(q).Some? ==> p(f(q).value)
    ensures forall a :: a in Collect(qs, f) ==> p(a)
  {
    CollectSound(qs, f);
  }

  /** The number of answers is the number of questions with a decision. */
  function Decided(qs: seq<Json>, f: Json -> Option<Answer>): nat
  {
    if qs == [] then 0 else (if f(qs[0]).Some? then 1 else 0) + Decided(qs[1..], f)
  }

  lemma {:induction false} CollectCount(qs: seq<Json>, f: Json -> Option<Answer>)
    ensures |Collect(qs, f)| == Decided(qs, f)
  {
    if qs != [] {
      CollectCount(qs[1..], f);
    }
  }

  /** The field keys of a list of answers, in order. */
  function Keys(answers: seq<Answer>): (r: seq<string>)
    ensures |r| == |answers|
    ensures forall k :: 0 <= k < |answers| ==> r[k] == answers[k].fieldKey
  {
    seq(|answers|, k requires 0 <= k < |answers| => answers[k].fieldKey)
  }

  /** The field keys of the questions the answerers consider, in question order. */
  function AnswerableKeys(qs: seq<Json>): (r: seq<string>)
    ensures |r| <= |qs|
  {
    if qs == [] then []
    else (if Answerable(qs[0]) then [FieldKey(qs[0])] else []) + AnswerableKeys(qs[1..])
  }

  /**
   * A decision that answers exactly the questions with a field key, each
   * under its own key, gives one answer per such question in question order.
   */
  lemma {:induction false} CollectKeys(qs: seq<Json>, f: Json -> Option<Answer>)
    requires forall q :: q in qs ==> (f(q).Some? <==> Answerable(q))
    requires forall q :: q in qs && f(q).Some? ==> f(q).value.fieldKey == FieldKey(q)
    ensures Keys(Collect(qs, f)) == AnswerableKeys(qs)
  {
    if qs != [] {
      CollectKeys(qs[1..], f);
      var h := if f(qs[0]).Some? then [f(qs[0]).value] else [];
      KeysAppend(h, Collect(qs[1..], f));
    }
  }

  lemma KeysAppend(a: seq<Answer>, b: seq<Answer>)
    ensures Keys(a + b) == Keys(a) + Keys(b)
  {
  }
}
