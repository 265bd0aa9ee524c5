/**
 * `_support/phase_timeline.py`: reading the phase timeline of a matter
 * (its phases with their status and the deliverables produced so far) and
 * the assertions the flow tests make on it.
 */
module PhaseTimeline {
  import opened Json
  import opened Text
  import opened Utils

  /** `phases`: the dict items of the `phases` list. */
  function Phases(tl: Json): seq<Json>
  {
    DictItemsAt(tl, "phases")
  }

  /** The cleaned `id` of a phase. */
  function PhaseId(p: Json): string
  {
    Clean(Get(p, "id"))
  }

  /** The non-blank cleaned ids of a list of phases, in order. */
  function NonBlankIds(ps: seq<Json>): (r: seq<string>)
    ensures forall s :: s in r <==> s != "" && exists p :: p in ps && PhaseId(p) == s
  {
    if ps == [] then []
    else
      var rest := NonBlankIds(ps[1..]);
      assert forall p :: p in ps <==> p == ps[0] || p in ps[1..];
      (if PhaseId(ps[0]) != "" then [PhaseId(ps[0])] else []) + rest
  }

  /** `phase_ids`: the non-blank cleaned ids of the dict phases, in order. */
  function PhaseIds(tl: Json): seq<string>
  {
    NonBlankIds(Phases(tl))
  }

  /** `phase_status`: the first phase with the wanted id decides; a blank status reads as None. */
  function PhaseStatus(tl: Json, phaseId: string): (r: Option<string>)
    ensures r.Some? ==> r.value != "" && !IsSpace(r.value[0])
    ensures r.Some? ==> exists p :: p in Phases(tl) && PhaseId(p) == Strip(phaseId) && Clean(Get(p, "status")) == r.value
    ensures (forall p :: p in Phases(tl) ==> PhaseId(p) != Strip(phaseId)) ==> r.None?
  {
    var ps := Phases(tl);
    var i := FirstMatch(ps, PhaseId, Strip(phaseId));
    if i == |ps| then None
    else
      var s := Clean(Get(ps[i], "status"));
      if s == "" then None else Some(s)
  }

  /** A phase listed after an earlier one with the same id is never read. */
  lemma {:induction false} PhaseStatusFirstDecides(tl: Json, before: seq<Json>, p: Json, after: seq<Json>, phaseId: string)
    requires Get(tl, "phases") == List(before + [p] + after)
    requires p.Obj? && PhaseId(p) == Strip(phaseId)
    requires forall q :: q in before && q.Obj? ==> PhaseId(q) != Strip(phaseId)
    ensures var s := Clean(Get(p, "status"));
      PhaseStatus(tl, phaseId) == (if s == "" then None else Some(s))
  {
    DictsAppend(before + [p], after);
    DictsAppend(before, [p]);
    assert Dicts([p]) == [p];
    FirstMatchAt(Dicts(before), p, Dicts(after), PhaseId, Strip(phaseId));
  }

  /** `deliverables`: the dict items of the `deliverables` list. */
  function Deliverables(tl: Json): seq<Json>
  {
    DictItemsAt(tl, "deliverables")
  }

  /** The output key of a deliverable, `outputKey` or else `output_key`. */
  function OutputKeyOf(d: Json): string
  {
    Aliased(d, "outputKey", "output_key")
  }

  /** `deliverable_output_keys`: the non-blank output keys of the dict deliverables. */
  function DeliverableOutputKeys(tl: Json): (r: set<string>)
    ensures forall k :: k in r <==> k != "" && exists d :: d in ListOrEmpty(Get(tl, "deliverables")) && d.Obj? && OutputKeyOf(d) == k
  {
    set d | d in Deliverables(tl) && OutputKeyOf(d) != "" :: OutputKeyOf(d)
  }

  /** `assert_has_phases`: every non-blank wanted id (stripped) is among the phase ids. */
  function AssertHasPhases(tl: Json, mustInclude: seq<string>): (r: Check)
    ensures r.Pass? <==> forall x :: x in mustInclude && Strip(x) != "" ==> Strip(x) in PhaseIds(tl)
    ensures r.Fail? ==> r.error == AssertionError
  {
    var have := set s | s in PhaseIds(tl);
    if StrippedSet(mustInclude) <= have then
      assert forall x :: x in mustInclude && Strip(x) != "" ==> Strip(x) in StrippedSet(mustInclude);
      Pass
    else
      assert exists x :: x in mustInclude && Strip(x) != "" && Strip(x) !in PhaseIds(tl);
      Fail(AssertionError)
  }

  /** `assert_phase_status_in`: the phase has a non-blank status equal to one of the stripped allowed values. */
  function AssertPhaseStatusIn(tl: Json, phaseId: string, allowed: seq<string>): (r: Check)
    ensures r.Pass? <==> PhaseStatus(tl, phaseId).Some? && exists a :: a in allowed && Strip(a) == PhaseStatus(tl, phaseId).value
    ensures r.Fail? ==> r.error == AssertionError
  {
    var got := PhaseStatus(tl, phaseId);
    if got.Some? && got.value in StrippedSet(allowed) then Pass else Fail(AssertionError)
  }

  /** A phase missing from the timeline fails whatever is allowed. */
  lemma MissingPhaseFails(tl: Json, phaseId: string, allowed: seq<string>)
    requires forall p :: p in Phases(tl) ==> PhaseId(p) != Strip(phaseId)
    ensures AssertPhaseStatusIn(tl, phaseId, allowed) == Fail(AssertionError)
  {
  }

  /** The checks on the deliverable with the wanted key: a non-blank file id, and a status that is blank, completed or done. */
  function CheckDeliverable(d: Json): (r: Check)
    ensures r.Pass? <==> (Aliased(d, "fileId", "file_id") != ""
      && Clean(Get(d, "status")) in {"", "completed", "done"})
    ensures r.Fail? ==> r.error == AssertionError
  {
    if Aliased(d, "fileId", "file_id") == "" then Fail(AssertionError)
    else
      var st := Clean(Get(d, "status"));
      if st != "" && st !in {"completed", "done"} then Fail(AssertionError)
      else Pass
  }

  /**
   * `assert_has_deliverable`: ValueError for a blank key; otherwise the
   * first deliverable with that key decides, and no such deliverable fails.
   */
  function AssertHasDeliverable(tl: Json, outputKey: string): (r: Check)
    ensures Strip(outputKey) == "" ==> r == Fail(ValueError)
    ensures Strip(outputKey) != "" && Strip(outputKey) !in DeliverableOutputKeys(tl) ==> r == Fail(AssertionError)
    ensures r.Pass? ==> exists d :: d in Deliverables(tl) && OutputKeyOf(d) == Strip(outputKey) && CheckDeliverable(d).Pass?
    ensures r.Fail? && Strip(outputKey) != "" ==> r.error == AssertionError
  {
    var want := Strip(outputKey);
    if want == "" then Fail(ValueError)
    else
      var ds := Deliverables(tl);
      var i := FirstMatch(ds, OutputKeyOf, want);
      if i == |ds| then Fail(AssertionError)
      else
        assert ds[i] in ds;
        CheckDeliverable(ds[i])
  }

  /** The first deliverable with the key decides: a later complete duplicate does not rescue an incomplete first one. */
  lemma {:induction false} DeliverableFirstDecides(tl: Json, before: seq<Json>, d: Json, after: seq<Json>, outputKey: string)
    requires Get(tl, "deliverables") == List(before + [d] + after)
    requires Strip(outputKey) != ""
    requires d.Obj? && OutputKeyOf(d) == Strip(outputKey)
    requires forall q :: q in before && q.Obj? ==> OutputKeyOf(q) != Strip(outputKey)
    ensures AssertHasDeliverable(tl, outputKey) == CheckDeliverable(d)
  {
    DictsAppend(before + [d], after);
    DictsAppend(before, [d]);
    assert Dicts([d]) == [d];
    FirstMatchAt(Dicts(before), d, Dicts(after), OutputKeyOf, Strip(outputKey));
  }
}
