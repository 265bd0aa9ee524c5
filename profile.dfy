/**
 * `_support/profile.py`: the parties of a workflow profile, normalised to
 * role and name, and the assertions the tests make on the profile.
 */
module Profile {
  import opened Json
  import opened Text
  import opened Utils

  /** One normalised party, `{"role": ..., "name": ...}`. */
  datatype Party = Party(role: string, name: string)

  /** The party a dict item describes: role from `role` or `party_type`, name from `name` or `entity_name`. */
  function PartyOf(it: Json): Party
  {
    Party(Aliased(it, "role", "party_type"), Aliased(it, "name", "entity_name"))
  }

  /** An item with both a non-blank role and a non-blank name. */
  predicate Usable(it: Json)
  {
    it.Obj? && PartyOf(it).role != "" && PartyOf(it).name != ""
  }

  /** The parties of the usable dict items of a list, in order. */
  function PartiesFrom(items: seq<Json>): (r: seq<Party>)
    ensures forall p :: p in r <==> exists it :: it in items && Usable(it) && PartyOf(it) == p
    ensures r == [] <==> forall it :: it in items ==> !Usable(it)
  {
    if items == [] then []
    else
      assert forall it :: it in items <==> it == items[0] || it in items[1..];
      (if Usable(items[0]) then [PartyOf(items[0])] else []) + PartiesFrom(items[1..])
  }

  /** The fallback party for a top-level `plaintiff` or `defendant` string, when it is not blank. */
  function Fallback(profile: Json, role: string): (r: seq<Party>)
    ensures r != [] <==> Get(profile, role).Str? && Strip(Get(profile, role).s) != ""
    ensures r != [] ==> r == [Party(role, Strip(Get(profile, role).s))]
  {
    var v := Get(profile, role);
    if v.Str? && Strip(v.s) != "" then [Party(role, Strip(v.s))] else []
  }

  /**
   * `normalize_parties`: the usable items of the `parties` list; only when
   * there is none, the older top-level `plaintiff` and `defendant` strings.
   */
  function NormalizeParties(profile: Json): (r: seq<Party>)
    ensures forall p :: p in r ==> p.role != "" && p.name != ""
    ensures (exists it :: it in ListOrEmpty(Get(profile, "parties")) && Usable(it)) ==>
      (forall p :: p in r <==> exists it :: it in ListOrEmpty(Get(profile, "parties")) && Usable(it) && PartyOf(it) == p)
    ensures (forall it :: it in ListOrEmpty(Get(profile, "parties")) ==> !Usable(it)) ==>
      r == Fallback(profile, "plaintiff") + Fallback(profile, "defendant")
  {
    var raw := ListOrEmpty(Get(profile, "parties"));
    var out := PartiesFrom(raw);
    if out == [] && profile.Obj? then
      Fallback(profile, "plaintiff") + Fallback(profile, "defendant")
    else
      out
  }

  /**
   * `assert_service_type`: `(profile or {}).get` raises AttributeError on a
   * truthy non-dict before anything is compared; otherwise a blank expected
   * value always passes and a non-blank one must equal the cleaned
   * `service_type_id`.
   */
  function AssertServiceType(profile: Json, expected: string): (r: Check)
    ensures Truthy(profile) && !profile.Obj? ==> r == Fail(AttributeError)
    ensures profile.Obj? || !Truthy(profile) ==>
      (r.Pass? <==> Strip(expected) == "" || Clean(Get(profile, "service_type_id")) == Strip(expected))
    ensures r.Fail? && (profile.Obj? || !Truthy(profile)) ==> r.error == AssertionError
  {
    var want := Strip(expected);
    var p := Or(profile, Obj([]));
    if !p.Obj? then Fail(AttributeError)
    else
      var got := Clean(Get(p, "service_type_id"));
      if want != "" && got != want then Fail(AssertionError) else Pass
  }

  /**
   * `assert_has_party`: ValueError for a blank role or fragment; otherwise
   * some normalised party has exactly the stripped role and a name holding
   * the stripped fragment.
   */
  function AssertHasParty(profile: Json, role: string, nameContains: string): (r: Check)
    ensures Strip(role) == "" || Strip(nameContains) == "" ==> r == Fail(ValueError)
    ensures Strip(role) != "" && Strip(nameContains) != "" ==>
      (r.Pass? <==> exists p :: p in NormalizeParties(profile) && p.role == Strip(role) && Contains(p.name, Strip(nameContains)))
    ensures r.Fail? && Strip(role) != "" && Strip(nameContains) != "" ==> r.error == AssertionError
  {
    var rl := Strip(role);
    var n := Strip(nameContains);
    if rl == "" || n == "" then Fail(ValueError)
    else if exists p :: p in NormalizeParties(profile) && p.role == rl && Contains(p.name, n) then Pass
    else Fail(AssertionError)
  }

  /** An older profile that names its plaintiff only at the top level still has that plaintiff. */
  lemma TopLevelPlaintiffFound(name: string, rest: seq<Field>)
    requires Strip(name) != ""
    requires forall f :: f in rest ==> f.key != "plaintiff" && f.key != "parties"
    ensures AssertHasParty(Obj([Field("plaintiff", Str(name))] + rest), "plaintiff", name).Pass?
  {
    var profile := Obj([Field("plaintiff", Str(name))] + rest);
    assert FieldIndex(profile.fields, "plaintiff") == 0;
    assert Get(profile, "plaintiff") == Str(name);
    assert forall i :: 0 <= i < |rest| ==> rest[i].key != "parties";
    GetTail(profile.fields, "parties");
    assert profile.fields[1..] == rest;
    assert Get(profile, "parties") == Null;
    StripOfUnspaced(Strip(name));
    assert Strip("plaintiff") == "plaintiff";
    ContainsInfix([], Strip(name), []);
    assert [] + Strip(name) + [] == Strip(name);
    assert Party("plaintiff", Strip(name)) in NormalizeParties(profile);
  }

  /** A usable `parties` entry hides the top-level strings: they are read only when no entry is usable. */
  lemma PartiesListWins(it: Json, plaintiff: string)
    requires Usable(it)
    ensures NormalizeParties(Obj([Field("parties", List([it])), Field("plaintiff", Str(plaintiff))])) == [PartyOf(it)]
  {
    PairGet("parties", List([it]), "plaintiff", Str(plaintiff));
    assert PartiesFrom([it]) == [PartyOf(it)] by {
      assert [it][1..] == [];
    }
  }
}
