/**
 * `_support/memory.py`: the case facts the memory service returns, their
 * entity keys, and the assertions the tests make on a fact's content.
 */
module Memory {
  import opened Json
  import opened Text
  import opened Utils

  /**
   * The result filtering of `list_case_facts`: the dict items of the
   * unwrapped payload when it is a list, else those of the raw response when
   * that is a list, else none. The second fallback never adds anything: a
   * list has no `code`, so it unwraps to itself and the first branch takes it.
   */
  function CaseFacts(resp: Json): (r: seq<Json>)
    ensures r == Dicts(ListOrEmpty(UnwrapApiResponse(resp)))
    ensures forall f :: f in r ==> f.Obj?
  {
    var data := UnwrapApiResponse(resp);
    if data.List? then Dicts(data.items)
    else if resp.List? then
      // a list unwraps to itself, so this fallback is unreachable
      assert false; []
    else []
  }

  /** The cleaned `entity_key` of a fact; blank for anything that is not a dict. */
  function EntityKeyOf(f: Json): string
  {
    Clean(Get(f, "entity_key"))
  }

  /** `entity_keys`: the non-blank cleaned entity keys of the dict facts. */
  function EntityKeys(facts: seq<Json>): (r: set<string>)
    ensures forall k :: k in r <==> k != "" && exists f :: f in facts && f.Obj? && EntityKeyOf(f) == k
  {
    set f | f in facts && f.Obj? && EntityKeyOf(f) != "" :: EntityKeyOf(f)
  }

  /** `find_fact`: ValueError for a blank key; otherwise the first dict fact with that exact key, or None. */
  function FindFact(facts: seq<Json>, entityKey: string): (r: Result<Option<Json>>)
    ensures r.Err? <==> Strip(entityKey) == ""
    ensures r.Err? ==> r.error == ValueError
    ensures r.Ok? ==> (r.value.None? <==> Strip(entityKey) !in EntityKeys(facts))
    ensures r.Ok? && r.value.Some? ==>
      (r.value.value in facts && r.value.value.Obj? && EntityKeyOf(r.value.value) == Strip(entityKey))
  {
    var want := Strip(entityKey);
    if want == "" then Err(ValueError)
    else
      var i := FirstMatch(facts, EntityKeyOf, want);
      if i == |facts| then Ok(None)
      else
        assert facts[i] in facts && facts[i].Obj?;
        Ok(Some(facts[i]))
  }

  /** A later fact with the same key is never found. */
  lemma FindFactFirst(before: seq<Json>, f: Json, after: seq<Json>, entityKey: string)
    requires Strip(entityKey) != "" && EntityKeyOf(f) == Strip(entityKey)
    requires forall g :: g in before ==> EntityKeyOf(g) != Strip(entityKey)
    ensures FindFact(before + [f] + after, entityKey) == Ok(Some(f))
  {
    FirstMatchAt(before, f, after, EntityKeyOf, Strip(entityKey));
  }

  /** `str(f.get("content") or "")` */
  function Content(f: Json): string
  {
    StrOr(Get(f, "content"))
  }

  /**
   * `assert_fact_content_contains`: the ValueError of `find_fact` for a
   * blank key; AssertionError when no fact has the key or when the first
   * one lacks a non-blank fragment.
   */
  function AssertFactContentContains(facts: seq<Json>, entityKey: string, mustInclude: seq<string>): (r: Check)
    ensures Strip(entityKey) == "" ==> r == Fail(ValueError)
    ensures Strip(entityKey) != "" && Strip(entityKey) !in EntityKeys(facts) ==> r == Fail(AssertionError)
    ensures r.Pass? ==> exists f :: f in facts && f.Obj? && EntityKeyOf(f) == Strip(entityKey) && ContainsAll(Content(f), mustInclude)
    ensures r.Fail? && Strip(entityKey) != "" ==> r.error == AssertionError
  {
    match FindFact(facts, entityKey)
    case Err(e) => Fail(e)
    case Ok(None) => Fail(AssertionError)
    case Ok(Some(f)) =>
      if ContainsAll(Content(f), mustInclude) then Pass else Fail(AssertionError)
  }

  /** The first fact with the key decides, whatever later facts with the same key hold. */
  lemma FactContentFirstDecides(before: seq<Json>, f: Json, after: seq<Json>, entityKey: string, mustInclude: seq<string>)
    requires Strip(entityKey) != "" && EntityKeyOf(f) == Strip(entityKey)
    requires forall g :: g in before ==> EntityKeyOf(g) != Strip(entityKey)
    ensures AssertFactContentContains(before + [f] + after, entityKey, mustInclude).Pass? <==> ContainsAll(Content(f), mustInclude)
  {
    FindFactFirst(before, f, after, entityKey);
  }

  /**
   * The first cleaned key that satisfies `p` comes from a candidate before
   * which no non-blank candidate, stripped, satisfies `p`.
   */
  lemma {:induction false} FirstPassingCandidate(cands: seq<string>, p: string -> bool)
    ensures var keys := CleanIds(cands);
      FirstWhere(keys, p) < |keys| ==>
        exists j :: 0 <= j < |cands| && Strip(cands[j]) == keys[FirstWhere(keys, p)]
          && forall k :: 0 <= k < j && Strip(cands[k]) != "" ==> !p(Strip(cands[k]))
  {
    var keys := CleanIds(cands);
    if FirstWhere(keys, p) < |keys| {
      var j := FirstPassingIndex(cands, p);
    }
  }

  /** The index of the candidate that yields the first cleaned key satisfying `p`. */
  lemma {:induction false} FirstPassingIndex(cands: seq<string>, p: string -> bool) returns (j: nat)
    requires FirstWhere(CleanIds(cands), p) < |CleanIds(cands)|
    ensures j < |cands| && Strip(cands[j]) == CleanIds(cands)[FirstWhere(CleanIds(cands), p)]
    ensures forall k :: 0 <= k < j && Strip(cands[k]) != "" ==> !p(Strip(cands[k]))
  {
    var s := Strip(cands[0]);
    var rest := CleanIds(cands[1..]);
    var keys := CleanIds(cands);
    if s != [] && p(s) {
      assert keys == [s] + rest;
      assert FirstWhere(keys, p) == 0;
      j := 0;
    } else {
      if s != [] {
        assert keys == [s] + rest;
        assert keys[1..] == rest;
      } else {
        assert keys == rest;
      }
      assert FirstWhere(keys, p) == (if s != [] then 1 else 0) + FirstWhere(rest, p);
      var j' := FirstPassingIndex(cands[1..], p);
      j := j' + 1;
      assert Strip(cands[j]) == Strip(cands[1..][j']);
      forall k | 0 <= k < j && Strip(cands[k]) != ""
        ensures !p(Strip(cands[k]))
      {
        if k > 0 {
          assert cands[k] == cands[1..][k - 1];
        }
      }
    }
  }

  /** The candidate keys whose fact passes the content check. */
  function Passing(facts: seq<Json>, mustInclude: seq<string>): string -> bool
  {
    k => AssertFactContentContains(facts, k, mustInclude).Pass?
  }

  /**
   * `assert_any_fact_content_contains`: ValueError when every candidate is
   * blank; otherwise the first cleaned candidate, in order, whose fact
   * passes the content check, or AssertionError when none does.
   */
  function AssertAnyFactContentContains(facts: seq<Json>, candidates: seq<string>, mustInclude: seq<string>): (r: Result<string>)
    ensures r == Err(ValueError) <==> forall c :: c in candidates ==> Strip(c) == ""
    ensures r.Err? ==> r.error in {ValueError, AssertionError}
    ensures r.Ok? ==> ((exists c :: c in candidates && Strip(c) == r.value)
      && AssertFactContentContains(facts, r.value, mustInclude).Pass?)
    ensures r == Err(AssertionError) ==>
      forall c :: c in candidates && Strip(c) != "" ==> AssertFactContentContains(facts, Strip(c), mustInclude).Fail?
    ensures r.Ok? ==>
      exists j :: 0 <= j < |candidates| && Strip(candidates[j]) == r.value
        && forall k :: 0 <= k < j && Strip(candidates[k]) != "" ==> !AssertFactContentContains(facts, Strip(candidates[k]), mustInclude).Pass?
  {
    var keys := CleanIds(candidates);
    if keys == [] then
      BlankCandidates(candidates);
      Err(ValueError)
    else
      assert keys[0] in keys;
      CleanIdsMember(candidates, keys[0]);
      var i := FirstWhere(keys, Passing(facts, mustInclude));
      if i < |keys| then
        FirstPassingFact(facts, candidates, mustInclude);
        Ok(keys[i])
      else
        NonBlankCandidates(candidates);
        Err(AssertionError)
  }

  /** No cleaned key means every candidate is blank. */
  lemma BlankCandidates(candidates: seq<string>)
    requires CleanIds(candidates) == []
    ensures forall c :: c in candidates ==> Strip(c) == ""
  {
    forall c | c in candidates
      ensures Strip(c) == ""
    {
      CleanIdsMember(candidates, Strip(c));
    }
  }

  /** Every non-blank candidate, stripped, is a cleaned key. */
  lemma NonBlankCandidates(candidates: seq<string>)
    ensures forall c :: c in candidates && Strip(c) != "" ==> Strip(c) in CleanIds(candidates)
  {
    forall c | c in candidates && Strip(c) != ""
      ensures Strip(c) in CleanIds(candidates)
    {
      CleanIdsMember(candidates, Strip(c));
    }
  }

  /** The first passing key is the stripped form of a candidate before which no non-blank candidate passes. */
  lemma FirstPassingFact(facts: seq<Json>, candidates: seq<string>, mustInclude: seq<string>)
    requires FirstWhere(CleanIds(candidates), Passing(facts, mustInclude)) < |CleanIds(candidates)|
    ensures var keys := CleanIds(candidates);
      exists j :: 0 <= j < |candidates| && Strip(candidates[j]) == keys[FirstWhere(keys, Passing(facts, mustInclude))]
        && forall k :: 0 <= k < j && Strip(candidates[k]) != "" ==> !AssertFactContentContains(facts, Strip(candidates[k]), mustInclude).Pass?
  {
    FirstPassingCandidate(candidates, Passing(facts, mustInclude));
  }

  /** A key is only returned when no earlier candidate's fact passes. */
  lemma {:induction false} AnyFactFirstCandidate(facts: seq<Json>, first: string, rest: seq<string>, mustInclude: seq<string>)
    requires Strip(first) != ""
    requires AssertFactContentContains(facts, Strip(first), mustInclude).Pass?
    ensures AssertAnyFactContentContains(facts, [first] + rest, mustInclude) == Ok(Strip(first))
  {
    var cs := [first] + rest;
    assert cs[0] == first && cs[1..] == rest;
    var keys := CleanIds(cs);
    assert keys == [Strip(first)] + CleanIds(rest);
    assert Passing(facts, mustInclude)(keys[0]);
    assert FirstWhere(keys, Passing(facts, mustInclude)) == 0;
  }
}
