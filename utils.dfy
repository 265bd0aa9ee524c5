/** Small helpers shared by the workbench support modules (`_support/utils.py`). */
module Utils {
  import opened Json
  import opened Text

  /**
   * `unwrap_api_response`: a response envelope — a dict that carries a `code`
   * key — is replaced by its `data` (None when absent); anything else is
   * returned as it is.
   */
  function UnwrapApiResponse(resp: Json): (r: Json)
    ensures Has(resp, "code") ==> r == Get(resp, "data")
    ensures !Has(resp, "code") ==> r == resp
  {
    if resp.Obj? && Has(resp, "code") then Get(resp, "data") else resp
  }

  /** An envelope `{"code": c, "data": d, ...}` unwraps to `d`, whatever else it holds. */
  lemma {:induction false} UnwrapEnvelope(c: Json, d: Json, rest: seq<Field>)
    ensures UnwrapApiResponse(Obj([Field("code", c), Field("data", d)] + rest)) == d
  {
    var fs := [Field("code", c), Field("data", d)] + rest;
    assert FieldIndex(fs, "code") == 0;
    assert FieldIndex(fs[1..], "data") == 0;
    assert FieldIndex(fs, "data") == 1;
  }

  /** A list, a string or a dict without `code` passes through untouched. */
  lemma UnwrapPassThrough(resp: Json)
    requires !resp.Obj? || !Has(resp, "code")
    ensures UnwrapApiResponse(resp) == resp
  {
  }

  /** `coerce_str`: the text of any value except None, which becomes "". */
  function CoerceStr(v: Json): (r: string)
    ensures v.Null? <==> r == "" && !v.Str?
    ensures v.Str? ==> r == v.s
  {
    if v.Null? then "" else PyStr(v)
  }

  /** `trim`: the stripped text of a truthy value, or None when that text is empty. */
  function Trim(v: Json): (r: Option<string>)
    ensures r.Some? ==> r.value != [] && !IsSpace(r.value[0]) && !IsSpace(r.value[|r.value| - 1])
    ensures r.None? <==> IsBlank(StrOr(v))
    ensures r.Some? ==> r.value == Strip(StrOr(v))
  {
    StripEmpty(StrOr(v));
    var s := Clean(v);
    if s == [] then None else Some(s)
  }

  /** `str(d.get(a) or d.get(b) or "").strip()`: the first truthy of two aliased fields, cleaned. */
  function Aliased(d: Json, a: string, b: string): (r: string)
    ensures Truthy(Get(d, a)) ==> r == Clean(Get(d, a))
    ensures !Truthy(Get(d, a)) ==> r == Clean(Get(d, b))
  {
    Clean(Or(Get(d, a), Get(d, b)))
  }

  /**
   * `unwrap_phase_timeline`, `unwrap_timeline` and `unwrap_canvas`: the
   * unwrapped response when it is a dict, else AssertionError.
   */
  function UnwrapDict(resp: Json): (r: Result<Json>)
    ensures r.Ok? <==> UnwrapApiResponse(resp).Obj?
    ensures r.Ok? ==> r.value == UnwrapApiResponse(resp) && r.value.Obj?
    ensures r.Err? ==> r.error == AssertionError
  {
    var data := UnwrapApiResponse(resp);
    if data.Obj? then Ok(data) else Err(AssertionError)
  }

  /** An envelope whose `data` is not a dict (a list, a string, None) is refused. */
  lemma UnwrapDictRefusesNonDict(c: Json, d: Json, rest: seq<Field>)
    requires !d.Obj?
    ensures UnwrapDict(Obj([Field("code", c), Field("data", d)] + rest)) == Err(AssertionError)
  {
    UnwrapEnvelope(c, d, rest);
  }

  /**
   * The index of the first item satisfying `p`, or `|xs|`: the loop
   * `for x in xs: if p(x): return x` of the helpers that search a list.
   */
  function FirstWhere<T>(xs: seq<T>, p: T -> bool): (i: nat)
    ensures i <= |xs|
    ensures i < |xs| ==> p(xs[i])
    ensures forall j :: 0 <= j < i ==> !p(xs[j])
  {
    if xs == [] then 0
    else if p(xs[0]) then 0
    else 1 + FirstWhere(xs[1..], p)
  }

  /** The first item satisfying `p` is found whatever follows it. */
  lemma {:induction false} FirstWhereAt<T>(before: seq<T>, x: T, after: seq<T>, p: T -> bool)
    requires forall y :: y in before ==> !p(y)
    requires p(x)
    ensures FirstWhere(before + [x] + after, p) == |before|
  {
    var xs := before + [x] + after;
    if before != [] {
      assert xs[1..] == before[1..] + [x] + after;
      FirstWhereAt(before[1..], x, after, p);
    }
  }

  /** The index of the first item whose `key` is `want`, or `|xs|`. */
  function FirstMatch(xs: seq<Json>, key: Json -> string, want: string): (i: nat)
    ensures i <= |xs|
    ensures i < |xs| ==> key(xs[i]) == want
    ensures forall j :: 0 <= j < i ==> key(xs[j]) != want
  {
    FirstWhere(xs, x => key(x) == want)
  }

  /** The first match is found whatever follows it. */
  lemma FirstMatchAt(before: seq<Json>, x: Json, after: seq<Json>, key: Json -> string, want: string)
    requires forall y :: y in before ==> key(y) != want
    requires key(x) == want
    ensures FirstMatch(before + [x] + after, key, want) == |before|
  {
    FirstWhereAt(before, x, after, y => key(y) == want);
  }

  /** `{str(x).strip() for x in xs if str(x).strip()}`: the stripped non-blank values. */
  function StrippedSet(xs: seq<string>): (r: set<string>)
    ensures forall w :: w in r <==> w != "" && exists x :: x in xs && Strip(x) == w
  {
    set x | x in xs && Strip(x) != "" :: Strip(x)
  }
}
