/** `_support/canvas.py`: the canvas of a consultation session, its profile and its evidence files. */
module Canvas {
  import opened Json
  import opened Text
  import opened Utils

  /** `canvas_profile`: the `profile` of the canvas when it is a dict, else an empty dict. */
  function CanvasProfile(canvas: Json): (r: Json)
    ensures r.Obj?
    ensures Get(canvas, "profile").Obj? ==> r == Get(canvas, "profile")
    ensures !Get(canvas, "profile").Obj? ==> r == Obj([])
  {
    var p := Get(canvas, "profile");
    if p.Obj? then p else Obj([])
  }

  /** The cleaned `file_id` of an evidence item. */
  function FileIdOf(it: Json): string
  {
    Clean(Get(it, "file_id"))
  }

  /** `canvas_evidence_file_ids`: the non-blank cleaned file ids of the dict items of `evidence_list`. */
  function CanvasEvidenceFileIds(canvas: Json): (r: set<string>)
    ensures forall f :: f in r <==> f != "" && exists it :: it in ListOrEmpty(Get(canvas, "evidence_list")) && it.Obj? && FileIdOf(it) == f
  {
    set it | it in ListOrEmpty(Get(canvas, "evidence_list")) && it.Obj? && FileIdOf(it) != "" :: FileIdOf(it)
  }

  /** An evidence item's file id is found whatever whitespace surrounds it, and whatever other items hold. */
  lemma UploadedEvidenceListed(items: seq<Json>, fileId: string, rest: seq<Field>)
    requires Strip(fileId) != ""
    requires Obj([Field("file_id", Str(fileId))] + rest) in items
    ensures Strip(fileId) in CanvasEvidenceFileIds(Obj([Field("evidence_list", List(items))]))
  {
    var it := Obj([Field("file_id", Str(fileId))] + rest);
    assert FieldIndex(it.fields, "file_id") == 0;
    assert FileIdOf(it) == Strip(fileId);
    assert Get(Obj([Field("evidence_list", List(items))]), "evidence_list") == List(items);
  }
}
