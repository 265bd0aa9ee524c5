/**
 * `_support/timeline.py`: the round-summary timeline of a session or a
 * matter (`{rounds: [{content: {produced_output_keys, retrieval_traces}}]}`)
 * and the assertions the flow tests make on it.
 */
module Timeline {
  import opened Json
  import opened Text
  import opened Utils

  /** `rounds`: the dict items of the `rounds` list. */
  function Rounds(tl: Json): seq<Json>
  {
    DictItemsAt(tl, "rounds")
  }

  /** The non-empty dict `content` of each round, in order. */
  function Contents(rs: seq<Json>): (r: seq<Json>)
    ensures forall c :: c in r <==> NonEmptyDict(c) && exists x :: x in rs && Get(x, "content") == c
  {
    if rs == [] then []
    else
      var c := Get(rs[0], "content");
      assert forall x :: x in rs <==> x == rs[0] || x in rs[1..];
      (if NonEmptyDict(c) then [c] else []) + Contents(rs[1..])
  }

  /** `round_contents` */
  function RoundContents(tl: Json): seq<Json>
  {
    Contents(Rounds(tl))
  }

  /** The contents of a prefix of the rounds are a prefix of the contents. */
  lemma {:induction false} ContentsAppend(a: seq<Json>, b: seq<Json>)
    ensures Contents(a + b) == Contents(a) + Contents(b)
  {
    if a == [] {
      assert a + b == b;
    } else {
      assert (a + b)[1..] == a[1..] + b;
      ContentsAppend(a[1..], b);
    }
  }

  /** `produced_output_keys`: the non-blank cleaned keys listed by any round content. */
  function ProducedOutputKeys(tl: Json): (r: set<string>)
    ensures forall k :: k in r <==> k != "" && exists c, x :: c in RoundContents(tl) && x in ListOrEmpty(Get(c, "produced_output_keys")) && Clean(x) == k
  {
    set c, x | c in RoundContents(tl) && x in ListOrEmpty(Get(c, "produced_output_keys")) && Clean(x) != "" :: Clean(x)
  }

  /** The non-blank cleaned snippets of the dict hits of one dict retrieval trace. */
  function HitSnippets(t: Json): (r: set<string>)
    ensures forall s :: s in r <==> s != "" && exists h :: h in DictItemsAt(t, "hits") && Clean(Get(h, "snippet")) == s
  {
    set h | h in DictItemsAt(t, "hits") && Clean(Get(h, "snippet")) != "" :: Clean(Get(h, "snippet"))
  }

  /**
   * `retrieval_snippets`: the non-blank cleaned `snippet` of every dict hit
   * of every dict retrieval trace of every round content.
   */
  function RetrievalSnippets(tl: Json): (r: set<string>)
    ensures forall s :: s in r <==> exists c, t :: c in RoundContents(tl) && t in DictItemsAt(c, "retrieval_traces") && s in HitSnippets(t)
  {
    set c, t, s | c in RoundContents(tl) && t in DictItemsAt(c, "retrieval_traces") && s in HitSnippets(t) :: s
  }

  /** `assert_timeline_has_output_keys`: every non-blank wanted key (stripped) was produced by some round. */
  function AssertTimelineHasOutputKeys(tl: Json, mustInclude: seq<string>): (r: Check)
    ensures r.Pass? <==> forall x :: x in mustInclude && Strip(x) != "" ==> Strip(x) in ProducedOutputKeys(tl)
    ensures r.Fail? ==> r.error == AssertionError
  {
    if StrippedSet(mustInclude) <= ProducedOutputKeys(tl) then
      assert forall x :: x in mustInclude && Strip(x) != "" ==> Strip(x) in StrippedSet(mustInclude);
      Pass
    else
      Fail(AssertionError)
  }

  /** `assert_timeline_retrieval_includes`: ValueError for a blank fragment, else some snippet contains it. */
  function AssertTimelineRetrievalIncludes(tl: Json, snippetContains: string): (r: Check)
    ensures Strip(snippetContains) == "" ==> r == Fail(ValueError)
    ensures Strip(snippetContains) != "" ==>
      (r.Pass? <==> exists s :: s in RetrievalSnippets(tl) && Contains(s, Strip(snippetContains)))
    ensures r.Fail? && Strip(snippetContains) != "" ==> r.error == AssertionError
  {
    var needle := Strip(snippetContains);
    if needle == "" then Fail(ValueError)
    else if exists s :: s in RetrievalSnippets(tl) && Contains(s, needle) then Pass
    else Fail(AssertionError)
  }

  /** Later rounds never take away a produced key: a passing key check still passes once more rounds arrive. */
  lemma OutputKeysGrow(rs: seq<Json>, more: seq<Json>, mustInclude: seq<string>)
    requires AssertTimelineHasOutputKeys(Obj([Field("rounds", List(rs))]), mustInclude).Pass?
    ensures AssertTimelineHasOutputKeys(Obj([Field("rounds", List(rs + more))]), mustInclude).Pass?
  {
    var t1 := Obj([Field("rounds", List(rs))]);
    var t2 := Obj([Field("rounds", List(rs + more))]);
    assert Get(t1, "rounds") == List(rs);
    assert Get(t2, "rounds") == List(rs + more);
    DictsAppend(rs, more);
    ContentsAppend(Dicts(rs), Dicts(more));
    assert forall c :: c in RoundContents(t1) ==> c in RoundContents(t2);
    assert ProducedOutputKeys(t1) <= ProducedOutputKeys(t2);
  }
}
