/**
 * The post-run quality checker of `scripts/e2e_quality_check.py`.
 *
 * A `QualityChecker` loads the expectations of one scenario, resolves the
 * matter of a chat session and then runs eight checks in a fixed order
 * (memory retrieval, memory storage, knowledge hits, matter records, skills
 * executed, trace expectations, phase gates, document quality). Each check
 * reads one section of the expectations, walks its items and counts how many
 * are met; the database, the HTTP client, the document download and the
 * regular-expression engine are parameters of the model.
 *
 * Python's own semantics are modelled where the checks depend on them:
 * `for x in v` over a list, a string or a dict, `x in container`, `len`,
 * `int()`, `str.split(">=")[1]`, and the exceptions these raise. An
 * exception inside a check's `try` becomes the warning `CheckFailed` and
 * ends the check's loop; one raised outside it escapes the check (`Err`).
 */
module QualityCheck {
  import opened Json
  import opened Text
  import opened Utils

  // ---------------------------------------------------------------------------
  // Python semantics the checks rely on
  // ---------------------------------------------------------------------------

  /**
   * The values `for x in v` visits: the items of a list, the one-character
   * strings of a string, the keys of a dict; None where Python raises
   * TypeError (None, booleans and integers are not iterable).
   */
  function Iterate(v: Json): (r: Option<seq<Json>>)
    ensures r.None? <==> (v.Null? || v.Bool? || v.Int?)
    ensures v.List? ==> r == Some(v.items)
    ensures v.Str? ==> r.Some? && |r.value| == |v.s|
    ensures v.Obj? ==> r.Some? && |r.value| == |v.fields|
    ensures r.Some? ==> (|r.value| == 0 <==> !Truthy(v))
  {
    match v
    case List(xs) => Some(xs)
    case Str(s) => Some(seq(|s|, i requires 0 <= i < |s| => Str([s[i]])))
    case Obj(fs) => Some(seq(|fs|, i requires 0 <= i < |fs| => Str(fs[i].key)))
    case _ => None
  }

  /**
   * `x in container`: substring for strings (TypeError unless `x` is a
   * string), membership for lists, key membership for dicts (TypeError for
   * an unhashable list or dict); TypeError for any other container.
   */
  function PyIn(x: Json, container: Json): (r: Option<bool>)
    ensures container.List? ==> r == Some(x in container.items)
    ensures container.Str? && x.Str? ==> r == Some(Contains(container.s, x.s))
    ensures container.Str? && !x.Str? ==> r.None?
    ensures container.Obj? && x.Str? ==> r == Some(Has(container, x.s))
    ensures (container.Null? || container.Bool? || container.Int?) ==> r.None?
  {
    match container
    case List(xs) => Some(x in xs)
    case Str(s) => if x.Str? then Some(Contains(s, x.s)) else None
    case Obj(_) =>
      if x.Str? then Some(Has(container, x.s))
      else if x.List? || x.Obj? then None
      else Some(false)
    case _ => None
  }

  /** `all(x in container for x in xs)`: stops at the first miss; None when a test raises first. */
  function AllIn(xs: seq<Json>, container: Json): (r: Option<bool>)
  {
    if xs == [] then Some(true)
    else
      match PyIn(xs[0], container)
      case None => None
      case Some(b) => if b then AllIn(xs[1..], container) else Some(false)
  }

  /** With only well-typed tests, `all(...)` is the conjunction of the memberships. */
  lemma {:induction false} AllInTotal(xs: seq<Json>, container: Json)
    requires forall i :: 0 <= i < |xs| ==> PyIn(xs[i], container).Some?
    ensures AllIn(xs, container) == Some(forall i :: 0 <= i < |xs| ==> PyIn(xs[i], container) == Some(true))
    decreases |xs|
  {
    if xs != [] {
      AllInTotal(xs[1..], container);
      if PyIn(xs[0], container) == Some(true) {
        assert forall i :: 1 <= i < |xs| ==> xs[i] == xs[1..][i - 1];
      }
    }
  }

  /** Every keyword of a list of strings is a substring: `all(k in content for k in must_include)`. */
  lemma AllKeywordsIn(kws: seq<Json>, content: string)
    requires forall i :: 0 <= i < |kws| ==> kws[i].Str?
    ensures AllIn(kws, Str(content)) == Some(forall i :: 0 <= i < |kws| ==> Contains(content, kws[i].s))
  {
    AllInTotal(kws, Str(content));
  }

  /** Every test of `[k for k in xs if k not in content]` is well typed. */
  predicate AllDefined(xs: seq<Json>, container: Json)
  {
    forall i :: 0 <= i < |xs| ==> PyIn(xs[i], container).Some?
  }

  /**
   * `exp.get(a, {}).get(b, default)`; None where Python raises
   * AttributeError because `exp` or its section is not a dict.
   */
  function Section(exp: Json, a: string, b: string, default: Json): (r: Option<Json>)
    ensures r.Some? <==> exp.Obj? && GetOr(exp, a, Obj([])).Obj?
    ensures r.Some? && !Has(exp, a) ==> r.value == default
    ensures r.Some? && Has(exp, a) ==> r.value == GetOr(Get(exp, a), b, default)
  {
    if !exp.Obj? then None
    else
      var inner := GetOr(exp, a, Obj([]));
      if !inner.Obj? then None else Some(GetOr(inner, b, default))
  }

  /** `int(v)` on a value read from the client: integers, booleans and integer text. */
  function IntOf(v: Json): (r: Option<int>)
    ensures v.Int? ==> r == Some(v.i)
    ensures v.Str? ==> r == ParseInt(v.s)
    ensures (v.Null? || v.List? || v.Obj?) ==> r.None?
  {
    match v
    case Int(i) => Some(i)
    case Bool(b) => Some(if b then 1 else 0)
    case Str(s) => ParseInt(s)
    case _ => None
  }

  // ---------------------------------------------------------------------------
  // Check results and the per-item tally
  // ---------------------------------------------------------------------------

  /** Why a detail line was written; the message text itself is not modelled. */
  datatype NoteKind = NoItems | FormatNotApplicable

  /**
   * One `details` line: a met item (`✓`), an unmet one (`✗`), an item whose
   * subject was not found (`✗ … 未找到`), or a fixed note.
   */
  datatype Detail = Hit(subject: Json) | Miss(subject: Json) | Absent(subject: Json) | Note(note: NoteKind)

  /** One `warnings` line. */
  datatype Warning =
    | CheckFailed
    | UnknownTable(table: Json)
    | KnowledgeSkipped
    | NoDeliverables
    | NoFileId
    | DownloadFailed

  /** `CheckResult`. */
  datatype CheckResult = CheckResult(
    name: string, passed: bool, total: int, success: int,
    details: seq<Detail>, warnings: seq<Warning>)

  /** The outcome of one expectation item inside a check's loop. */
  datatype Verdict =
    | Met(subject: Json)
    | Unmet(subject: Json)
    | NotFound(subject: Json)
    | Skipped(warning: Warning)
    | Raised

  /** The locals of a check's loop: `success`, `details`, `warnings`, and whether an exception ended it. */
  datatype Tally = Tally(success: nat, details: seq<Detail>, warnings: seq<Warning>, raised: bool)

  const Fresh: Tally := Tally(0, [], [], false)

  /** The loop when its setup raised before the first item: only the warning. */
  const SetupFailed: Tally := Tally(0, [], [CheckFailed], true)

  /** One item's effect on the loop's locals. */
  function Step(t: Tally, v: Verdict): (r: Tally)
    requires !t.raised
    ensures r.success == t.success + (if v.Met? then 1 else 0)
    ensures r.raised <==> v.Raised?
  {
    match v
    case Met(s) => t.(success := t.success + 1, details := t.details + [Hit(s)])
    case Unmet(s) => t.(details := t.details + [Miss(s)])
    case NotFound(s) => t.(details := t.details + [Absent(s)])
    case Skipped(w) => t.(warnings := t.warnings + [w])
    case Raised => t.(warnings := t.warnings + [CheckFailed], raised := true)
  }

  /** The loop over `items` from the start: items after the first raise are never judged. */
  function RunItems(items: seq<Json>, judge: Json -> Verdict): (r: Tally)
    decreases |items|
  {
    if items == [] then Fresh
    else
      var t := RunItems(items[..|items| - 1], judge);
      if t.raised then t else Step(t, judge(items[|items| - 1]))
  }

  /** Once an item raised, later items change nothing. */
  lemma {:induction false} RaisedStays(items: seq<Json>, k: nat, judge: Json -> Verdict)
    requires k <= |items|
    requires RunItems(items[..k], judge).raised
    ensures RunItems(items, judge) == RunItems(items[..k], judge)
    decreases |items| - k
  {
    if k < |items| {
      assert items[..k + 1][..k] == items[..k];
      assert RunItems(items[..k + 1], judge) == RunItems(items[..k], judge);
      RaisedStays(items, k + 1, judge);
    } else {
      assert items[..k] == items;
    }
  }

  /**
   * The loop's counts: `success` is the number of met items, at most their
   * number; it reaches it exactly when every item is met; the loop raised
   * exactly when some item raised before any earlier one did.
   */
  lemma {:induction false} RunItemsCounts(items: seq<Json>, judge: Json -> Verdict)
    ensures RunItems(items, judge).success <= |items|
    ensures RunItems(items, judge).success == |items| <==> forall i :: 0 <= i < |items| ==> judge(items[i]).Met?
    ensures RunItems(items, judge).raised <==> exists i :: 0 <= i < |items| && judge(items[i]).Raised?
    decreases |items|
  {
    if items != [] {
      var p := items[..|items| - 1];
      RunItemsCounts(p, judge);
      assert forall i :: 0 <= i < |p| ==> p[i] == items[i];
      if RunItems(p, judge).raised {
        var i :| 0 <= i < |p| && judge(p[i]).Raised?;
        assert !judge(items[i]).Met?;
      }
    }
  }

  /** The loop of a `check_*` method: judges the items in order and stops at the first raise. */
  method Gather(items: seq<Json>, judge: Json -> Verdict) returns (t: Tally)
    ensures t == RunItems(items, judge)
  {
    t := Fresh;
    var i := 0;
    while i < |items| && !t.raised
      invariant 0 <= i <= |items|
      invariant t == RunItems(items[..i], judge)
    {
      assert items[..i + 1][..i] == items[..i];
      t := Step(t, judge(items[i]));
      i := i + 1;
    }
    if i == |items| {
      assert items[..i] == items;
    } else {
      RaisedStays(items, i, judge);
    }
  }

  /** The result of a check whose section has no items. */
  function NoItemsResult(name: string): CheckResult
  {
    CheckResult(name, true, 0, 0, [Note(NoItems)], [])
  }

  /**
   * The common shape of seven checks: read the section (an AttributeError
   * escapes), return the no-items result for a falsy section, take
   * `total = len(section)` (a TypeError escapes), then run the loop when the
   * setup inside the `try` succeeded, and report `passed = success == total`.
   */
  function CheckOver(name: string, section: Option<Json>, ready: bool, judge: Json -> Verdict): (r: Result<CheckResult>)
  {
    match section
    case None => Err(AttributeError)
    case Some(v) =>
      if !Truthy(v) then Ok(NoItemsResult(name))
      else
        match Iterate(v)
        case None => Err(TypeError)
        case Some(items) =>
          var t := if ready then RunItems(items, judge) else SetupFailed;
          Ok(CheckResult(name, t.success == |items|, |items|, t.success, t.details, t.warnings))
  }

  /** A section that is missing, empty or otherwise falsy gives a passing check with total 0 and one note. */
  lemma CheckOverNoItems(name: string, v: Json, ready: bool, judge: Json -> Verdict)
    requires !Truthy(v)
    ensures CheckOver(name, Some(v), ready, judge) == Ok(CheckResult(name, true, 0, 0, [Note(NoItems)], []))
  {
  }

  /** The exceptions a check lets escape: a non-dict section, or a section `len()` rejects. */
  lemma CheckOverEscapes(name: string, section: Option<Json>, ready: bool, judge: Json -> Verdict)
    ensures CheckOver(name, section, ready, judge).Err? <==>
      section.None? || (Truthy(section.value) && (section.value.Int? || section.value.Bool?))
  {
  }

  /**
   * Every check reports `passed == (success == total)` with
   * `0 <= success <= total`; a check with items passes exactly when its
   * setup succeeded and every item was met.
   */
  lemma CheckOverPassed(name: string, section: Option<Json>, ready: bool, judge: Json -> Verdict)
    ensures var r := CheckOver(name, section, ready, judge);
      r.Ok? ==> 0 <= r.value.success <= r.value.total && r.value.passed == (r.value.success == r.value.total)
    ensures var r := CheckOver(name, section, ready, judge);
      r.Ok? && r.value.total > 0 ==>
        (r.value.passed <==> ready && forall x :: x in Iterate(section.value).value ==> judge(x).Met?)
  {
    var r := CheckOver(name, section, ready, judge);
    if section.Some? && Truthy(section.value) && Iterate(section.value).Some? {
      var items := Iterate(section.value).value;
      RunItemsCounts(items, judge);
      if ready && !(forall x :: x in items ==> judge(x).Met?) {
        var x :| x in items && !judge(x).Met?;
        var i :| 0 <= i < |items| && items[i] == x;
      }
    }
  }

  /** A setup failure inside the `try` (no context, a failed fetch) makes a check with items fail with one warning. */
  lemma CheckOverSetupFailed(name: string, v: Json, judge: Json -> Verdict)
    requires Truthy(v) && Iterate(v).Some?
    ensures CheckOver(name, Some(v), false, judge)
      == Ok(CheckResult(name, false, |Iterate(v).value|, 0, [], [CheckFailed]))
  {
  }

  // ---------------------------------------------------------------------------
  // First-match lookups
  // ---------------------------------------------------------------------------

  /** The outcome of `for x in xs: if x.get(...) matches: ...; break`. */
  datatype Scan = Found(item: Json) | Missing | Crashed

  /**
   * The first item that matches decides; an item that is not a dict raises
   * AttributeError on `.get` before any later item is looked at.
   */
  function FirstMatch(xs: seq<Json>, matches: Json -> bool): (r: Scan)
    decreases |xs|
  {
    if xs == [] then Missing
    else if !xs[0].Obj? then Crashed
    else if matches(xs[0]) then Found(xs[0])
    else FirstMatch(xs[1..], matches)
  }

  /** The test `x.get(k) == v`. */
  function FieldIs(k: string, v: Json): (m: Json -> bool)
    ensures forall x :: m(x) <==> Get(x, k) == v
  {
    x => Get(x, k) == v
  }

  /**
   * `FirstMatch` finds the item at index `i` exactly when the items before it
   * are dicts that do not match and it is a dict that does.
   */
  lemma {:induction false} FirstMatchAt(xs: seq<Json>, matches: Json -> bool, i: nat)
    requires i < |xs| && xs[i].Obj? && matches(xs[i])
    requires forall j :: 0 <= j < i ==> xs[j].Obj? && !matches(xs[j])
    ensures FirstMatch(xs, matches) == Found(xs[i])
    decreases i
  {
    if i > 0 {
      FirstMatchAt(xs[1..], matches, i - 1);
    }
  }

  /** Nothing is found when every item is a dict that does not match. */
  lemma {:induction false} FirstMatchMissing(xs: seq<Json>, matches: Json -> bool)
    ensures FirstMatch(xs, matches) == Missing <==> forall j :: 0 <= j < |xs| ==> xs[j].Obj? && !matches(xs[j])
    decreases |xs|
  {
    if xs != [] {
      FirstMatchMissing(xs[1..], matches);
      assert forall j :: 1 <= j < |xs| ==> xs[j] == xs[1..][j - 1];
    }
  }

  // ---------------------------------------------------------------------------
  // Checks 1 and 2: memory retrieval and storage
  // ---------------------------------------------------------------------------

  /**
   * One `memory.retrieval` item: the first fact with an equal `entity_key`
   * decides; it is met iff every `must_include` keyword is a substring of
   * the fact's content. When a keyword is missing, the `missing` list walks
   * all keywords again and raises on any that is not a string.
   */
  function RetrievalVerdict(check: Json, facts: seq<Json>): (r: Verdict)
    ensures r.Met? || r.Unmet? || r.NotFound? ==> r.subject == Get(check, "entity_key")
    ensures !check.Obj? ==> r.Raised?
  {
    if !check.Obj? then Raised
    else
      var key := Get(check, "entity_key");
      match FirstMatch(facts, FieldIs("entity_key", key))
      case Crashed => Raised
      case Missing => NotFound(key)
      case Found(fact) => RetrievalOfFact(check, fact)
  }

  /** The keyword test of a retrieval item against the fact that decides it. */
  function RetrievalOfFact(check: Json, fact: Json): (r: Verdict)
    ensures r.Met? || r.Unmet? ==> r.subject == Get(check, "entity_key")
    ensures r.Met? || r.Unmet? || r.Raised?
  {
    var key := Get(check, "entity_key");
    var content := Str(StrOr(Get(fact, "content")));
    match Iterate(GetOr(check, "must_include", List([])))
    case None => Raised
    case Some(kws) =>
      match AllIn(kws, content)
      case None => Raised
      case Some(all) =>
        if all then Met(key)
        else if AllDefined(kws, content) then Unmet(key)
        else Raised
  }

  /**
   * With dict facts (as `list_case_facts` returns) and a list of string
   * keywords, the first fact whose `entity_key` equals the item's decides:
   * the item is met iff every keyword occurs in that fact's content.
   */
  lemma RetrievalFirstFactDecides(check: Json, facts: seq<Json>, i: nat)
    requires check.Obj? && GetOr(check, "must_include", List([])).List?
    requires forall k :: k in GetOr(check, "must_include", List([])).items ==> k.Str?
    requires i < |facts| && facts[i].Obj? && Get(facts[i], "entity_key") == Get(check, "entity_key")
    requires forall j :: 0 <= j < i ==> facts[j].Obj? && Get(facts[j], "entity_key") != Get(check, "entity_key")
    ensures var kws := GetOr(check, "must_include", List([])).items;
      var content := StrOr(Get(facts[i], "content"));
      RetrievalVerdict(check, facts) ==
        if forall n :: 0 <= n < |kws| ==> Contains(content, kws[n].s)
        then Met(Get(check, "entity_key")) else Unmet(Get(check, "entity_key"))
  {
    var key := Get(check, "entity_key");
    FirstMatchAt(facts, FieldIs("entity_key", key), i);
    assert RetrievalVerdict(check, facts) == RetrievalOfFact(check, facts[i]);
    RetrievalKeywords(check, facts[i]);
  }

  /** Against one fact, a list of string keywords is met iff each is a substring of the content. */
  lemma RetrievalKeywords(check: Json, fact: Json)
    requires GetOr(check, "must_include", List([])).List?
    requires forall k :: k in GetOr(check, "must_include", List([])).items ==> k.Str?
    ensures var kws := GetOr(check, "must_include", List([])).items;
      RetrievalOfFact(check, fact) ==
        if forall n :: 0 <= n < |kws| ==> Contains(StrOr(Get(fact, "content")), kws[n].s)
        then Met(Get(check, "entity_key")) else Unmet(Get(check, "entity_key"))
  {
    var kws := GetOr(check, "must_include", List([])).items;
    var content := StrOr(Get(fact, "content"));
    AllKeywordsIn(kws, content);
    assert AllDefined(kws, Str(content));
  }

  /** An item whose `entity_key` no fact carries is reported as not found. */
  lemma RetrievalNotFound(check: Json, facts: seq<Json>)
    requires check.Obj?
    requires forall j :: 0 <= j < |facts| ==> facts[j].Obj? && Get(facts[j], "entity_key") != Get(check, "entity_key")
    ensures RetrievalVerdict(check, facts) == NotFound(Get(check, "entity_key"))
  {
    var key := Get(check, "entity_key");
    FirstMatchMissing(facts, FieldIs("entity_key", key));
  }

  /**
   * One `memory.storage` item: the first fact with an equal `entity_key`
   * decides; it is met iff the scope matches (or none is expected) and the
   * expected fragment is in the content (or none is expected).
   */
  function StorageVerdict(check: Json, facts: seq<Json>): (r: Verdict)
    ensures r.Met? || r.Unmet? || r.NotFound? ==> r.subject == Get(check, "entity_key")
    ensures !check.Obj? ==> r.Raised?
  {
    if !check.Obj? then Raised
    else
      var key := Get(check, "entity_key");
      match FirstMatch(facts, FieldIs("entity_key", key))
      case Crashed => Raised
      case Missing => NotFound(key)
      case Found(fact) => StorageOfFact(check, fact)
  }

  /** The scope and content test of a storage item against the fact that decides it. */
  function StorageOfFact(check: Json, fact: Json): (r: Verdict)
    ensures r.Met? || r.Unmet? ==> r.subject == Get(check, "entity_key")
    ensures r.Met? || r.Unmet? || r.Raised?
  {
    var key := Get(check, "entity_key");
    var scope := Get(check, "scope");
    var expected := Get(check, "expected_value_contains");
    var scopeOk := !Truthy(scope) || Get(fact, "scope") == scope;
    var contentOk := if !Truthy(expected) then Some(true) else PyIn(expected, Str(StrOr(Get(fact, "content"))));
    match contentOk
    case None => Raised
    case Some(ok) => if scopeOk && ok then Met(key) else Unmet(key)
  }

  /**
   * With an expected scope and a string fragment, the first fact with the
   * key is met iff it has that scope and its content holds the fragment.
   */
  lemma StorageFirstFactDecides(check: Json, facts: seq<Json>, i: nat)
    requires check.Obj? && Truthy(Get(check, "scope"))
    requires Get(check, "expected_value_contains").Str? && Truthy(Get(check, "expected_value_contains"))
    requires i < |facts| && facts[i].Obj? && Get(facts[i], "entity_key") == Get(check, "entity_key")
    requires forall j :: 0 <= j < i ==> facts[j].Obj? && Get(facts[j], "entity_key") != Get(check, "entity_key")
    ensures StorageVerdict(check, facts).Met? <==>
      Get(facts[i], "scope") == Get(check, "scope") &&
      Contains(StrOr(Get(facts[i], "content")), Get(check, "expected_value_contains").s)
    ensures !StorageVerdict(check, facts).Raised?
  {
    var key := Get(check, "entity_key");
    FirstMatchAt(facts, FieldIs("entity_key", key), i);
    assert StorageVerdict(check, facts) == StorageOfFact(check, facts[i]);
    StorageOfFactMeaning(check, facts[i]);
  }

  /** Against one fact, an item with a scope and a string fragment is met iff both match. */
  lemma StorageOfFactMeaning(check: Json, fact: Json)
    requires Truthy(Get(check, "scope"))
    requires Get(check, "expected_value_contains").Str? && Truthy(Get(check, "expected_value_contains"))
    ensures StorageOfFact(check, fact).Met? <==>
      Get(fact, "scope") == Get(check, "scope") &&
      Contains(StrOr(Get(fact, "content")), Get(check, "expected_value_contains").s)
    ensures !StorageOfFact(check, fact).Raised?
  {
  }

  // ---------------------------------------------------------------------------
  // Check 4: matter records
  // ---------------------------------------------------------------------------

  /** A counting query: the SQL text and its positional parameters. */
  datatype Query = Query(sql: string, params: seq<Json>)

  /** How a records item's query is built: a query, an unknown table, or an AttributeError on `conditions.get`. */
  datatype Plan = Planned(query: Query) | UnknownTableName | PlanRaised

  /**
   * The query of one `matter.records` item for the matter `matterId`. Only
   * the tables that take conditions read them, so only those raise when
   * `conditions` is not a dict.
   */
  function QueryOf(table: Json, conditions: Json, matterId: int): (r: Plan)
    ensures r.Planned? ==> |r.query.params| >= 1 && r.query.params[0] == Int(matterId)
    ensures r.UnknownTableName? <==> !KnownTable(table)
  {
    if table == Str("matters") then
      if !conditions.Obj? then PlanRaised
      else
        var st := Get(conditions, "service_type");
        if Truthy(st) then Planned(Query(MattersSql + ServiceTypeSql, [Int(matterId), st]))
        else Planned(Query(MattersSql, [Int(matterId)]))
    else if table == Str("matter_tasks") then
      Planned(Query(TasksSql, [Int(matterId)]))
    else if table == Str("matter_evidence_list_items") then
      Planned(Query(EvidenceSql, [Int(matterId)]))
    else if table == Str("matter_deliverables") then
      if !conditions.Obj? then PlanRaised
      else
        var key := Get(conditions, "output_key");
        if Truthy(key) then Planned(Query(DeliverablesSql + OutputKeySql, [Int(matterId), Str(PyStr(key))]))
        else Planned(Query(DeliverablesSql, [Int(matterId)]))
    else if table == Str("matter_parties") then
      if !conditions.Obj? then PlanRaised
      else
        var roles := Get(conditions, "roles");
        if roles.List? && roles.items != [] then
          Planned(Query(PartiesSql + RolesSql, [Int(matterId), List(Texts(roles.items))]))
        else Planned(Query(PartiesSql, [Int(matterId)]))
    else UnknownTableName
  }

  /** The five tables the records check can count. */
  predicate KnownTable(table: Json)
  {
    table == Str("matters") || table == Str("matter_tasks") || table == Str("matter_evidence_list_items") ||
    table == Str("matter_deliverables") || table == Str("matter_parties")
  }

  const MattersSql: string := "SELECT COUNT(1) FROM matters WHERE id = %s"
  const ServiceTypeSql: string := " AND service_type = %s"
  const TasksSql: string := "SELECT COUNT(1) FROM matter_tasks WHERE matter_id = %s"
  const EvidenceSql: string := "SELECT COUNT(1) FROM matter_evidence_list_items WHERE matter_id = %s"
  const DeliverablesSql: string := "SELECT COUNT(1) FROM matter_deliverables WHERE matter_id = %s"
  const OutputKeySql: string := " AND output_key = %s"
  const PartiesSql: string := "SELECT COUNT(1) FROM matter_parties WHERE matter_id = %s"
  const RolesSql: string := " AND role = ANY(%s)"

  /** `[str(x) for x in xs]` */
  function Texts(xs: seq<Json>): (r: seq<Json>)
    ensures |r| == |xs|
    ensures forall i :: 0 <= i < |xs| ==> r[i] == Str(PyStr(xs[i]))
  {
    seq(|xs|, i requires 0 <= i < |xs| => Str(PyStr(xs[i])))
  }

  /** `matters` adds `service_type`, as given, when it is truthy. */
  lemma MattersParams(conditions: Json, matterId: int)
    requires conditions.Obj?
    ensures var st := Get(conditions, "service_type");
      QueryOf(Str("matters"), conditions, matterId).Planned? &&
      QueryOf(Str("matters"), conditions, matterId).query.params == [Int(matterId)] + (if Truthy(st) then [st] else [])
  {
  }

  /** `matter_deliverables` adds `output_key`, as text, when it is truthy. */
  lemma DeliverablesParams(conditions: Json, matterId: int)
    requires conditions.Obj?
    ensures var key := Get(conditions, "output_key");
      QueryOf(Str("matter_deliverables"), conditions, matterId).Planned? &&
      QueryOf(Str("matter_deliverables"), conditions, matterId).query.params
        == [Int(matterId)] + (if Truthy(key) then [Str(PyStr(key))] else [])
  {
  }

  /** `matter_parties` adds the roles, each as text, when they are a non-empty list. */
  lemma PartiesParams(conditions: Json, matterId: int)
    requires conditions.Obj?
    ensures var roles := Get(conditions, "roles");
      QueryOf(Str("matter_parties"), conditions, matterId).Planned? &&
      QueryOf(Str("matter_parties"), conditions, matterId).query.params
        == [Int(matterId)] + (if roles.List? && roles.items != [] then [List(Texts(roles.items))] else [])
  {
  }

  /** The two tables without conditions query by the matter id alone and never read `conditions`. */
  lemma PlainTableParams(table: Json, conditions: Json, matterId: int)
    requires table == Str("matter_tasks") || table == Str("matter_evidence_list_items")
    ensures QueryOf(table, conditions, matterId).Planned?
    ensures QueryOf(table, conditions, matterId).query.params == [Int(matterId)]
  {
  }

  /** The first piece of `s.split(sep)`: the text before the first occurrence of `sep`. */
  function BeforeFirst(s: string, sep: string): (r: string)
    ensures StartsWith(s, r)
  {
    FindSpec(s, sep);
    match Find(s, sep)
    case None => s
    case Some(j) => s[..j]
  }

  /**
   * `int(expected.split(">=")[1].strip())` for a text that starts with
   * `">="`: the number between the leading `>=` and the next one; None for
   * the ValueError `int()` raises.
   */
  function MinCount(expected: string): (r: Option<int>)
    requires StartsWith(expected, ">=")
  {
    ParseInt(Strip(BeforeFirst(expected[2..], ">=")))
  }

  /**
   * Whether `actual` rows meet a `count` expectation: an integer (a boolean
   * is one in Python) asks for equality, a `">=N"` text for at least `N`,
   * anything else for at least one row; None when `N` is not an integer.
   */
  function RecordExpectation(expected: Json, actual: int): (r: Option<bool>)
    ensures expected.Int? ==> r == Some(actual == expected.i)
    ensures !expected.Int? && !expected.Bool? && !(expected.Str? && StartsWith(expected.s, ">=")) ==> r == Some(actual > 0)
  {
    match expected
    case Int(n) => Some(actual == n)
    case Bool(b) => Some(actual == if b then 1 else 0)
    case Str(s) =>
      if StartsWith(s, ">=") then
        match MinCount(s)
        case None => None
        case Some(m) => Some(actual >= m)
      else Some(actual > 0)
    case _ => Some(actual > 0)
  }

  /** A text with no `>` has no `>=` in it. */
  lemma FindNoSeparator(d: string)
    requires forall i :: 0 <= i < |d| ==> d[i] != '>'
    ensures Find(d, ">=") == None
  {
    forall j: nat
      ensures !OccursAt(d, ">=", j)
    {
      if j + 2 <= |d| {
        assert d[j..j + 2][0] == d[j];
      }
    }
    FindNone(d, ">=");
  }

  /** The number in `">=N"` for a natural number `N` is read back as `N`. */
  lemma MinCountOf(n: nat)
    ensures MinCount(">=" + NatToString(n)) == Some(n)
  {
    var d := NatToString(n);
    assert (">=" + d)[2..] == d;
    assert BeforeFirst(d, ">=") == d by {
      FindNoSeparator(d);
    }
    assert Strip(d) == d by {
      StripOfUnspaced(d);
    }
    assert ParseInt(d) == Some(n) by {
      NatToStringValue(n);
      ParseDigits(d);
    }
  }

  /** `">=N"` for a natural number `N` asks for at least `N` rows. */
  lemma AtLeastExpectation(n: nat, actual: int)
    ensures RecordExpectation(Str(">=" + NatToString(n)), actual) == Some(actual >= n)
  {
    MinCountOf(n);
  }

  /** A boolean expectation counts as 1 or 0, as `isinstance(True, int)` holds in Python. */
  lemma BoolExpectation(b: bool, actual: int)
    ensures RecordExpectation(Bool(b), actual) == Some(actual == if b then 1 else 0)
  {
  }

  /** The row counter: the database answers a query with a count, or raises (None). */
  type Counter = Query -> Option<int>

  /**
   * One `matter.records` item: an unknown table only adds a warning; a known
   * one is met when the rows counted by its query meet the expectation.
   */
  function RecordVerdict(check: Json, matterId: int, count: Counter): (r: Verdict)
    ensures r.Met? || r.Unmet? ==> r.subject == Get(check, "table")
    ensures r.Skipped? <==> check.Obj? && QueryOf(Get(check, "table"), GetOr(check, "conditions", Obj([])), matterId).UnknownTableName?
    ensures r.Skipped? ==> r.warning == UnknownTable(Get(check, "table"))
    ensures !r.NotFound?
  {
    if !check.Obj? then Raised
    else
      var table := Get(check, "table");
      match QueryOf(table, GetOr(check, "conditions", Obj([])), matterId)
      case UnknownTableName => Skipped(UnknownTable(table))
      case PlanRaised => Raised
      case Planned(q) =>
        match count(q)
        case None => Raised
        case Some(actual) =>
          match RecordExpectation(Get(check, "count"), actual)
          case None => Raised
          case Some(ok) => if ok then Met(table) else Unmet(table)
  }

  /** The setup of the records check: a non-blank matter id that `int()` accepts. */
  function RecordsMatterId(matterId: Option<string>): (r: Option<int>)
    ensures r.Some? ==> matterId.Some? && matterId.value != "" && ParseInt(matterId.value) == r
  {
    if matterId.None? || matterId.value == "" then None else ParseInt(matterId.value)
  }

  // ---------------------------------------------------------------------------
  // Checks 5 and 6: skills executed and trace expectations
  // ---------------------------------------------------------------------------

  /** A trace runs `skill` when its node id is the skill id itself or `skill:` followed by it. */
  predicate RunsSkill(trace: Json, skill: Json)
  {
    var node := StrOr(Get(trace, "node_id"));
    Str(node) == skill || node == "skill:" + PyStr(skill)
  }

  /** The test `RunsSkill(t, skill)` as a value. */
  function Runs(skill: Json): (m: Json -> bool)
    ensures forall t :: m(t) <==> RunsSkill(t, skill)
  {
    t => RunsSkill(t, skill)
  }

  /** The status a skills item expects: `completed` unless it names one. */
  function ExpectedStatus(check: Json): (r: Json)
    ensures !Has(check, "status") ==> r == Str("completed")
    ensures Has(check, "status") ==> r == Get(check, "status")
  {
    GetOr(check, "status", Str("completed"))
  }

  /**
   * One `skills.executed` item: the first trace that runs the skill decides;
   * it is met iff that trace's status text equals the expected status.
   * `traces` is None when the traces value cannot be iterated.
   */
  function SkillVerdict(check: Json, traces: Option<seq<Json>>): (r: Verdict)
    ensures r.Met? || r.Unmet? || r.NotFound? ==> r.subject == Get(check, "skill_id")
    ensures !r.Skipped?
  {
    if !check.Obj? then Raised
    else
      var skill := Get(check, "skill_id");
      match traces
      case None => Raised
      case Some(ts) =>
        match FirstMatch(ts, Runs(skill))
        case Crashed => Raised
        case Missing => NotFound(skill)
        case Found(t) => if Str(StrOr(Get(t, "status"))) == ExpectedStatus(check) then Met(skill) else Unmet(skill)
  }

  /**
   * With dict traces, the first trace that runs the skill decides: the item
   * is met iff its status is the expected one, `completed` by default.
   */
  lemma SkillFirstTraceDecides(check: Json, ts: seq<Json>, i: nat)
    requires check.Obj?
    requires i < |ts| && ts[i].Obj? && RunsSkill(ts[i], Get(check, "skill_id"))
    requires forall j :: 0 <= j < i ==> ts[j].Obj? && !RunsSkill(ts[j], Get(check, "skill_id"))
    ensures SkillVerdict(check, Some(ts)).Met? <==> Str(StrOr(Get(ts[i], "status"))) == ExpectedStatus(check)
    ensures SkillVerdict(check, Some(ts)).Met? || SkillVerdict(check, Some(ts)).Unmet?
  {
    var skill := Get(check, "skill_id");
    FirstMatchAt(ts, Runs(skill), i);
  }

  /**
   * `sum(1 for t in traces if span in str(t.get("node_id") or ""))`; None
   * when a trace is not a dict or `span` is not a string.
   */
  function SpanCount(ts: seq<Json>, span: Json): (r: Option<nat>)
    ensures r.Some? ==> r.value <= |ts|
    decreases |ts|
  {
    if ts == [] then Some(0)
    else if !ts[0].Obj? then None
    else
      match PyIn(span, Str(StrOr(Get(ts[0], "node_id"))))
      case None => None
      case Some(hit) =>
        match SpanCount(ts[1..], span)
        case None => None
        case Some(n) => Some(n + if hit then 1 else 0)
  }

  /** A count expectation on spans: `">=N"` asks for at least `N`, anything else (an integer too) for at least one. */
  function TraceExpectation(expected: Json, actual: nat): (r: Option<bool>)
    ensures !(expected.Str? && StartsWith(expected.s, ">=")) ==> r == Some(actual > 0)
  {
    if expected.Str? && StartsWith(expected.s, ">=") then
      match MinCount(expected.s)
      case None => None
      case Some(m) => Some(actual >= m)
    else Some(actual > 0)
  }

  /** Unlike the records check, an integer span count is not compared: `count: 3` is met by a single span. */
  lemma TraceIntegerCountIgnored(k: int)
    ensures TraceExpectation(Int(k), 1) == Some(true)
    ensures RecordExpectation(Int(k), 1) == Some(k == 1)
  {
  }

  /** One `trace.expectations` item: met when the number of traces whose node id contains the span meets the count. */
  function TraceVerdict(check: Json, traces: Option<seq<Json>>): (r: Verdict)
    ensures r.Met? || r.Unmet? ==> r.subject == Get(check, "span_name")
    ensures r.Met? || r.Unmet? || r.Raised?
  {
    if !check.Obj? then Raised
    else
      var span := Get(check, "span_name");
      match traces
      case None => Raised
      case Some(ts) =>
        match SpanCount(ts, span)
        case None => Raised
        case Some(n) =>
          match TraceExpectation(Get(check, "count"), n)
          case None => Raised
          case Some(ok) => if ok then Met(span) else Unmet(span)
  }

  // ---------------------------------------------------------------------------
  // Check 7: phase gates
  // ---------------------------------------------------------------------------

  /**
   * One `phase_gates.checkpoints` item: the first phase with an equal
   * `phase_id` decides; it is met iff its status equals the expected one and
   * every required output is in its `outputs` (both tests are evaluated).
   */
  function PhaseVerdict(check: Json, phases: Option<seq<Json>>): (r: Verdict)
    ensures r.Met? || r.Unmet? || r.NotFound? ==> r.subject == Get(check, "phase")
    ensures !r.Skipped?
  {
    if !check.Obj? then Raised
    else
      var id := Get(check, "phase");
      match phases
      case None => Raised
      case Some(ps) =>
        match FirstMatch(ps, FieldIs("phase_id", id))
        case Crashed => Raised
        case Missing => NotFound(id)
        case Found(p) => PhaseOfMatch(check, p)
  }

  /** The status and outputs test of a checkpoint against the phase that decides it. */
  function PhaseOfMatch(check: Json, phase: Json): (r: Verdict)
    ensures r.Met? || r.Unmet? ==> r.subject == Get(check, "phase")
    ensures r.Met? || r.Unmet? || r.Raised?
  {
    var id := Get(check, "phase");
    var statusOk := Get(phase, "status") == Get(check, "status");
    match Iterate(GetOr(check, "required_outputs", List([])))
    case None => Raised
    case Some(required) =>
      match AllIn(required, GetOr(phase, "outputs", List([])))
      case None => Raised
      case Some(outputsOk) => if statusOk && outputsOk then Met(id) else Unmet(id)
  }

  /** With list outputs, a checkpoint is met iff the status is equal and every required output is listed. */
  lemma PhaseOutputsListed(check: Json, phase: Json)
    requires GetOr(check, "required_outputs", List([])).List?
    requires GetOr(phase, "outputs", List([])).List?
    ensures var required := GetOr(check, "required_outputs", List([])).items;
      var outputs := GetOr(phase, "outputs", List([])).items;
      PhaseOfMatch(check, phase).Met? <==>
        Get(phase, "status") == Get(check, "status") && forall n :: 0 <= n < |required| ==> required[n] in outputs
  {
    var required := GetOr(check, "required_outputs", List([])).items;
    var outputs := GetOr(phase, "outputs", List([]));
    assert forall n :: 0 <= n < |required| ==> PyIn(required[n], outputs) == Some(required[n] in outputs.items);
    AllInTotal(required, outputs);
    assert Iterate(GetOr(check, "required_outputs", List([]))) == Some(required);
  }

  /**
   * The items of `data.get(key, [])` for a fetched response, after
   * `unwrap_api_response`: None for the raised fetch or a non-dict body
   * (the `try` catches both); Some(None) when the value cannot be iterated.
   */
  function Listing(resp: Option<Json>, key: string): (r: Option<Option<seq<Json>>>)
    ensures resp.None? ==> r.None?
  {
    match resp
    case None => None
    case Some(raw) =>
      var data := UnwrapApiResponse(raw);
      if !data.Obj? then None else Some(Iterate(GetOr(data, key, List([]))))
  }

  /** The setup every matter-based check shares: a non-blank matter id. */
  predicate HasMatter(matterId: Option<string>)
  {
    matterId.Some? && matterId.value != ""
  }

  // ---------------------------------------------------------------------------
  // Check 8: document quality
  // ---------------------------------------------------------------------------

  /** The locals of the document check: `total` grows before each test, so a test that raises is counted. */
  datatype DocTally = DocTally(total: nat, success: nat, details: seq<Detail>, raised: bool)

  /** One content test: `outcome` is whether it passed, None when it raised. */
  function ProbeStep(t: DocTally, x: Json, outcome: Option<bool>): (r: DocTally)
    requires !t.raised
    ensures r.total == t.total + 1
    ensures r.success == t.success + (if outcome == Some(true) then 1 else 0)
    ensures r.raised <==> outcome.None?
  {
    match outcome
    case None => t.(total := t.total + 1, raised := true)
    case Some(ok) =>
      if ok then t.(total := t.total + 1, success := t.success + 1, details := t.details + [Hit(x)])
      else t.(total := t.total + 1, details := t.details + [Miss(x)])
  }

  /** A loop of content tests continuing from `t0`; items after a raise are never probed. */
  function Probes(t0: DocTally, items: seq<Json>, probe: Json -> Option<bool>): (r: DocTally)
    requires !t0.raised
    decreases |items|
  {
    if items == [] then t0
    else
      var t := Probes(t0, items[..|items| - 1], probe);
      if t.raised then t else ProbeStep(t, items[|items| - 1], probe(items[|items| - 1]))
  }

  lemma {:induction false} ProbesRaisedStays(t0: DocTally, items: seq<Json>, k: nat, probe: Json -> Option<bool>)
    requires !t0.raised && k <= |items|
    requires Probes(t0, items[..k], probe).raised
    ensures Probes(t0, items, probe) == Probes(t0, items[..k], probe)
    decreases |items| - k
  {
    if k < |items| {
      assert items[..k + 1][..k] == items[..k];
      assert Probes(t0, items[..k + 1], probe) == Probes(t0, items[..k], probe);
      ProbesRaisedStays(t0, items, k + 1, probe);
    } else {
      assert items[..k] == items;
    }
  }

  /**
   * A run of content tests counts every test it reaches; when none raises
   * it reaches all of them, and each test adds to `success` exactly when it
   * passes.
   */
  lemma {:induction false} ProbesCounts(t0: DocTally, items: seq<Json>, probe: Json -> Option<bool>)
    requires !t0.raised && t0.success <= t0.total
    ensures var t := Probes(t0, items, probe);
      t0.success <= t.success <= t.total <= t0.total + |items| && t.success - t0.success <= t.total - t0.total
    ensures var t := Probes(t0, items, probe);
      t.raised <==> exists i :: 0 <= i < |items| && probe(items[i]).None?
    ensures var t := Probes(t0, items, probe);
      !t.raised ==>
        (t.total == t0.total + |items| &&
         (t.success - t0.success == |items| <==> forall i :: 0 <= i < |items| ==> probe(items[i]) == Some(true)))
    decreases |items|
  {
    if items != [] {
      var p := items[..|items| - 1];
      ProbesCounts(t0, p, probe);
      assert forall i :: 0 <= i < |p| ==> p[i] == items[i];
    }
  }

  /** The content tests of the document check, continuing from `t0`. */
  method ProbeAll(t0: DocTally, items: seq<Json>, probe: Json -> Option<bool>) returns (t: DocTally)
    requires !t0.raised
    ensures t == Probes(t0, items, probe)
  {
    t := t0;
    var i := 0;
    while i < |items| && !t.raised
      invariant 0 <= i <= |items|
      invariant t == Probes(t0, items[..i], probe)
    {
      assert items[..i + 1][..i] == items[..i];
      t := ProbeStep(t, items[i], probe(items[i]));
      i := i + 1;
    }
    if i == |items| {
      assert items[..i] == items;
    } else {
      ProbesRaisedStays(t0, items, i, probe);
    }
  }

  /** The regular-expression engine: `re.search(pattern, text)` finds a match, or raises (None). */
  type Searcher = (Json, string) -> Option<bool>

  /** A `must_not_include` pattern passes when the search finds nothing. */
  function Absence(found: Option<bool>): (r: Option<bool>)
    ensures r.None? <==> found.None?
    ensures r.Some? ==> r.value == !found.value
  {
    match found
    case None => None
    case Some(b) => Some(!b)
  }

  /**
   * The content tests of a downloaded document: every `must_include`
   * keyword, then every `must_not_include` pattern. A non-dict `content`
   * section or a value that cannot be iterated raises inside the `try`.
   */
  function ContentTally(content: Json, text: string, search: Searcher): (r: DocTally)
  {
    if !content.Obj? then DocTally(0, 0, [], true)
    else
      match Iterate(GetOr(content, "must_include", List([])))
      case None => DocTally(0, 0, [], true)
      case Some(kws) =>
        var t := Probes(DocTally(0, 0, [], false), kws, k => PyIn(k, Str(text)));
        if t.raised then t
        else
          match Iterate(GetOr(content, "must_not_include", List([])))
          case None => t.(raised := true)
          case Some(pats) => Probes(t, pats, p => Absence(search(p, text)))
  }

  /**
   * With a list of string keywords, a list of patterns and a search that
   * never raises, every keyword and pattern is one test, and all pass iff
   * every keyword is in the text and no pattern matches it.
   */
  lemma ContentTallyMeaning(content: Json, text: string, search: Searcher)
    requires content.Obj?
    requires GetOr(content, "must_include", List([])).List?
    requires GetOr(content, "must_not_include", List([])).List?
    requires forall k :: k in GetOr(content, "must_include", List([])).items ==> k.Str?
    requires forall p :: p in GetOr(content, "must_not_include", List([])).items ==> search(p, text).Some?
    ensures var kws := GetOr(content, "must_include", List([])).items;
      var pats := GetOr(content, "must_not_include", List([])).items;
      var t := ContentTally(content, text, search);
      !t.raised && t.total == |kws| + |pats| &&
      (t.success == t.total <==>
        (forall i :: 0 <= i < |kws| ==> Contains(text, kws[i].s)) &&
        (forall i :: 0 <= i < |pats| ==> search(pats[i], text) == Some(false)))
  {
    var kws := GetOr(content, "must_include", List([])).items;
    var pats := GetOr(content, "must_not_include", List([])).items;
    var t0 := DocTally(0, 0, [], false);
    var kw: Json -> Option<bool> := k => PyIn(k, Str(text));
    var pat: Json -> Option<bool> := p => Absence(search(p, text));
    forall i | 0 <= i < |kws|
      ensures kw(kws[i]).Some?
    {
      assert kws[i] in kws;
    }
    ProbesCounts(t0, kws, kw);
    var t1 := Probes(t0, kws, kw);
    forall i | 0 <= i < |pats|
      ensures pat(pats[i]).Some?
    {
      assert pats[i] in pats;
    }
    ProbesCounts(t1, pats, pat);
    var t2 := Probes(t1, pats, pat);
    assert ContentTally(content, text, search) == t2;
    forall i | 0 <= i < |kws|
      ensures kw(kws[i]) == Some(true) <==> Contains(text, kws[i].s)
    {
      assert kws[i] in kws;
    }
  }

  /** The document check's result: with no test run it passes, whatever stopped it. */
  function DocResult(name: string, t: DocTally): (r: CheckResult)
    ensures r.passed <==> t.total == 0 || t.success == t.total
    ensures r.warnings == if t.raised then [CheckFailed] else []
  {
    CheckResult(name, if t.total > 0 then t.success == t.total else true, t.total, t.success, t.details,
      if t.raised then [CheckFailed] else [])
  }

  /** The document fetch: downloads a file id and extracts its text, or raises (None). */
  type Downloader = Json -> Option<string>

  /**
   * The `try` block of the document check: fetch the deliverables, take the
   * first one's `file_id`, download it and run the content tests. An empty
   * listing, a missing file id or a failed download fail the check outright.
   */
  function DocumentBody(name: string, doc: Json, matterId: Option<string>, deliverables: Option<Json>,
                        download: Downloader, search: Searcher): (r: CheckResult)
  {
    var crashed := DocResult(name, DocTally(0, 0, [], true));
    if !HasMatter(matterId) || deliverables.None? then crashed
    else
      var data := UnwrapApiResponse(deliverables.value);
      if !data.Obj? then crashed
      else
        var dels := GetOr(data, "deliverables", List([]));
        if !Truthy(dels) then CheckResult(name, false, 0, 0, [], [NoDeliverables])
        else if !dels.List? || !dels.items[0].Obj? then crashed
        else
          var fileId := Get(dels.items[0], "file_id");
          if !Truthy(fileId) then CheckResult(name, false, 0, 0, [], [NoFileId])
          else
            match download(fileId)
            case None => CheckResult(name, false, 0, 0, [], [DownloadFailed])
            case Some(text) => DocResult(name, ContentTally(GetOr(doc, "content", Obj([])), text, search))
  }

  // ---------------------------------------------------------------------------
  // The eight checks
  // ---------------------------------------------------------------------------

  const RetrievalName: string := "记忆提取"
  const StorageName: string := "记忆存储"
  const KnowledgeName: string := "知识库命中"
  const RecordsName: string := "Matter 记录"
  const SkillsName: string := "技能执行"
  const TraceName: string := "Trace 验证"
  const PhasesName: string := "阶段门控"
  const DocumentName: string := "文书质量"

  /** The facts `list_case_facts` returned, or none when it raised. */
  function FactsOr(facts: Option<seq<Json>>): seq<Json>
  {
    if facts.Some? then facts.value else []
  }

  /** The iterable items of a listing, when the fetch and its body were usable. */
  function ItemsOr(l: Option<Option<seq<Json>>>): Option<seq<Json>>
  {
    if l.Some? then l.value else None
  }

  function RetrievalSpec(exp: Json, matterId: Option<string>, userId: Option<int>, facts: Option<seq<Json>>): Result<CheckResult>
  {
    CheckOver(RetrievalName, Section(exp, "memory", "retrieval", List([])),
      userId.Some? && HasMatter(matterId) && facts.Some?, c => RetrievalVerdict(c, FactsOr(facts)))
  }

  function StorageSpec(exp: Json, matterId: Option<string>, userId: Option<int>, facts: Option<seq<Json>>): Result<CheckResult>
  {
    CheckOver(StorageName, Section(exp, "memory", "storage", List([])),
      userId.Some? && HasMatter(matterId) && facts.Some?, c => StorageVerdict(c, FactsOr(facts)))
  }

  /** The knowledge-hits check does no lookup: it passes with success 0 and a warning. */
  function KnowledgeSpec(exp: Json): (r: Result<CheckResult>)
  {
    match Section(exp, "knowledge", "hits", List([]))
    case None => Err(AttributeError)
    case Some(v) =>
      if !Truthy(v) then Ok(NoItemsResult(KnowledgeName))
      else
        match Iterate(v)
        case None => Err(TypeError)
        case Some(items) => Ok(CheckResult(KnowledgeName, true, |items|, 0, [], [KnowledgeSkipped]))
  }

  /** Whatever its items, the knowledge-hits check passes without a single success. */
  lemma KnowledgeAlwaysPasses(exp: Json)
    ensures var r := KnowledgeSpec(exp);
      r.Ok? ==> r.value.passed && r.value.success == 0 && (r.value.total > 0 ==> r.value.warnings == [KnowledgeSkipped])
  {
  }

  function RecordsSpec(exp: Json, matterId: Option<string>, count: Counter): Result<CheckResult>
  {
    var id := RecordsMatterId(matterId);
    CheckOver(RecordsName, Section(exp, "matter", "records", List([])),
      id.Some?, c => RecordVerdict(c, if id.Some? then id.value else 0, count))
  }

  /** A records item naming an unknown table only warns and is never met, so that check cannot pass. */
  lemma UnknownTableFails(exp: Json, matterId: Option<string>, count: Counter, i: nat)
    requires var s := Section(exp, "matter", "records", List([]));
      s.Some? && s.value.List? && i < |s.value.items| && s.value.items[i].Obj?
    requires var s := Section(exp, "matter", "records", List([])).value;
      QueryOf(Get(s.items[i], "table"), GetOr(s.items[i], "conditions", Obj([])), 0).UnknownTableName?
    ensures RecordsSpec(exp, matterId, count).Ok? && !RecordsSpec(exp, matterId, count).value.passed
  {
    var s := Section(exp, "matter", "records", List([])).value;
    var id := RecordsMatterId(matterId);
    var m := if id.Some? then id.value else 0;
    var judge := c => RecordVerdict(c, m, count);
    assert s.items[i] in s.items;
    assert judge(s.items[i]).Skipped?;
    CheckOverPassed(RecordsName, Some(s), id.Some?, judge);
  }

  function SkillsSpec(exp: Json, matterId: Option<string>, traces: Option<Json>): Result<CheckResult>
  {
    var l := Listing(traces, "traces");
    CheckOver(SkillsName, Section(exp, "skills", "executed", List([])),
      HasMatter(matterId) && l.Some?, c => SkillVerdict(c, ItemsOr(l)))
  }

  function TraceSpec(exp: Json, matterId: Option<string>, traces: Option<Json>): Result<CheckResult>
  {
    var l := Listing(traces, "traces");
    CheckOver(TraceName, Section(exp, "trace", "expectations", List([])),
      HasMatter(matterId) && l.Some?, c => TraceVerdict(c, ItemsOr(l)))
  }

  function PhasesSpec(exp: Json, matterId: Option<string>, timeline: Option<Json>): Result<CheckResult>
  {
    var l := Listing(timeline, "phases");
    CheckOver(PhasesName, Section(exp, "phase_gates", "checkpoints", List([])),
      HasMatter(matterId) && l.Some?, c => PhaseVerdict(c, ItemsOr(l)))
  }

  /**
   * The document check: no items, or a format marked not applicable, pass
   * with total 0; otherwise the `try` block decides. Reading the section or
   * its `format` from a non-dict raises outside the `try`.
   */
  function DocumentSpec(exp: Json, matterId: Option<string>, deliverables: Option<Json>,
                        download: Downloader, search: Searcher): (r: Result<CheckResult>)
  {
    match Section(exp, "document", "quality", Obj([]))
    case None => Err(AttributeError)
    case Some(doc) =>
      if !Truthy(doc) then Ok(NoItemsResult(DocumentName))
      else if !doc.Obj? || !GetOr(doc, "format", Obj([])).Obj? then Err(AttributeError)
      else if Truthy(Get(GetOr(doc, "format", Obj([])), "not_applicable")) then
        Ok(CheckResult(DocumentName, true, 0, 0, [Note(FormatNotApplicable)], []))
      else Ok(DocumentBody(DocumentName, doc, matterId, deliverables, download, search))
  }

  /**
   * When the `try` block raises before any content test — here because the
   * session has no matter — the document check reports passed with total 0,
   * unlike the other seven checks, which fail on a setup error.
   */
  lemma DocumentSetupFailurePasses(exp: Json, deliverables: Option<Json>, download: Downloader, search: Searcher)
    requires var s := Section(exp, "document", "quality", Obj([]));
      s.Some? && NonEmptyDict(s.value) && GetOr(s.value, "format", Obj([])).Obj? &&
      !Truthy(Get(GetOr(s.value, "format", Obj([])), "not_applicable"))
    ensures DocumentSpec(exp, None, deliverables, download, search)
      == Ok(CheckResult(DocumentName, true, 0, 0, [], [CheckFailed]))
  {
  }

  /** An empty deliverables listing, a first deliverable without a file id, or a failed download fail the document check. */
  lemma DocumentFetchFailures(name: string, doc: Json, matterId: Option<string>, raw: Json, download: Downloader, search: Searcher)
    requires HasMatter(matterId) && UnwrapApiResponse(raw).Obj?
    ensures var dels := GetOr(UnwrapApiResponse(raw), "deliverables", List([]));
      !Truthy(dels) ==>
        DocumentBody(name, doc, matterId, Some(raw), download, search) == CheckResult(name, false, 0, 0, [], [NoDeliverables])
    ensures var dels := GetOr(UnwrapApiResponse(raw), "deliverables", List([]));
      dels.List? && dels.items != [] && dels.items[0].Obj? && !Truthy(Get(dels.items[0], "file_id")) ==>
        DocumentBody(name, doc, matterId, Some(raw), download, search) == CheckResult(name, false, 0, 0, [], [NoFileId])
    ensures var dels := GetOr(UnwrapApiResponse(raw), "deliverables", List([]));
      dels.List? && dels.items != [] && dels.items[0].Obj? && Truthy(Get(dels.items[0], "file_id")) &&
      download(Get(dels.items[0], "file_id")).None? ==>
        DocumentBody(name, doc, matterId, Some(raw), download, search) == CheckResult(name, false, 0, 0, [], [DownloadFailed])
  {
  }

  /**
   * Every result the document check reports keeps `success <= total`, and
   * it passes exactly when no test ran or every test passed, or the check
   * was skipped as not applicable.
   */
  lemma DocumentCounts(exp: Json, matterId: Option<string>, deliverables: Option<Json>, download: Downloader, search: Searcher)
    ensures var r := DocumentSpec(exp, matterId, deliverables, download, search);
      r.Ok? ==> 0 <= r.value.success <= r.value.total
    ensures var r := DocumentSpec(exp, matterId, deliverables, download, search);
      r.Ok? && r.value.total > 0 ==> (r.value.passed <==> r.value.success == r.value.total)
  {
    var s := Section(exp, "document", "quality", Obj([]));
    if s.Some? && Truthy(s.value) && s.value.Obj? {
      BodyCounts(DocumentName, s.value, matterId, deliverables, download, search);
      var fmt := GetOr(s.value, "format", Obj([]));
      if fmt.Obj? && !Truthy(Get(fmt, "not_applicable")) {
        assert DocumentSpec(exp, matterId, deliverables, download, search)
          == Ok(DocumentBody(DocumentName, s.value, matterId, deliverables, download, search));
      }
    }
  }

  lemma BodyCounts(name: string, doc: Json, matterId: Option<string>, deliverables: Option<Json>,
                   download: Downloader, search: Searcher)
    ensures var r := DocumentBody(name, doc, matterId, deliverables, download, search);
      0 <= r.success <= r.total && (r.total > 0 ==> (r.passed <==> r.success == r.total))
  {
    if HasMatter(matterId) && deliverables.Some? {
      var data := UnwrapApiResponse(deliverables.value);
      if data.Obj? {
        var dels := GetOr(data, "deliverables", List([]));
        if Truthy(dels) && dels.List? && dels.items[0].Obj? {
          var fileId := Get(dels.items[0], "file_id");
          if Truthy(fileId) && download(fileId).Some? {
            ContentCounts(GetOr(doc, "content", Obj([])), download(fileId).value, search);
          }
        }
      }
    }
  }

  lemma ContentCounts(content: Json, text: string, search: Searcher)
    ensures var t := ContentTally(content, text, search); t.success <= t.total
  {
    if content.Obj? && Iterate(GetOr(content, "must_include", List([]))).Some? {
      var kws := Iterate(GetOr(content, "must_include", List([]))).value;
      var t0 := DocTally(0, 0, [], false);
      ProbesCounts(t0, kws, k => PyIn(k, Str(text)));
      var t := Probes(t0, kws, k => PyIn(k, Str(text)));
      if !t.raised && Iterate(GetOr(content, "must_not_include", List([]))).Some? {
        ProbesCounts(t, Iterate(GetOr(content, "must_not_include", List([]))).value, p => Absence(search(p, text)));
      }
    }
  }

  /** A check of the common shape, run with its loop. */
  method RunCheck(name: string, section: Option<Json>, ready: bool, judge: Json -> Verdict) returns (r: Result<CheckResult>)
    ensures r == CheckOver(name, section, ready, judge)
  {
    if section.None? {
      return Err(AttributeError);
    }
    var v := section.value;
    if !Truthy(v) {
      return Ok(NoItemsResult(name));
    }
    var items := Iterate(v);
    if items.None? {
      return Err(TypeError);
    }
    var t := SetupFailed;
    if ready {
      t := Gather(items.value, judge);
    }
    r := Ok(CheckResult(name, t.success == |items.value|, |items.value|, t.success, t.details, t.warnings));
  }

  // ---------------------------------------------------------------------------
  // Loading the expectations and the test context
  // ---------------------------------------------------------------------------

  const YamlOpen: string := "```yaml\n"
  const YamlClose: string := "\n```"

  /**
   * The text of the first fenced `yaml` block of a scenario README: after
   * the first opening fence, up to the first closing fence after it; None
   * when there is no complete block (the ValueError of the loader).
   */
  function YamlBlock(readme: string): (r: Option<string>)
  {
    FindSpec(readme, YamlOpen);
    match Find(readme, YamlOpen)
    case None => None
    case Some(i) =>
      var rest := readme[i + |YamlOpen|..];
      FindSpec(rest, YamlClose);
      match Find(rest, YamlClose)
      case None => None
      case Some(j) => Some(rest[..j])
  }

  /** A README that opens with a block whose body has no backtick yields exactly that body. */
  lemma YamlBlockOf(body: string, tail: string)
    requires forall i :: 0 <= i < |body| ==> body[i] != '`'
    ensures YamlBlock(YamlOpen + body + YamlClose + tail) == Some(body)
  {
    var readme := YamlOpen + body + YamlClose + tail;
    assert readme[..|YamlOpen|] == YamlOpen;
    assert OccursAt(readme, YamlOpen, 0);
    var rest := readme[|YamlOpen|..];
    assert rest == body + YamlClose + tail;
    assert rest[|body|..|body| + |YamlClose|] == YamlClose;
    forall j | 0 <= j < |body|
      ensures !OccursAt(rest, YamlClose, j)
    {
      assert rest[j + 1] != '`' by {
        if j + 1 < |body| {
          assert rest[j + 1] == body[j + 1];
        } else {
          assert rest[j + 1] == YamlClose[0];
        }
      }
      assert YamlClose[1] == '`';
      if j + |YamlClose| <= |rest| {
        assert rest[j..j + |YamlClose|][1] == rest[j + 1];
      }
    }
    FindFirst(rest, YamlClose, |body|);
    assert Find(readme, YamlOpen) == Some(0);
    assert rest[..|body|] == body;
  }

  /** What `get_test_context` leaves behind: its outcome and the three context fields. */
  datatype Context = Context(outcome: Check, matterId: Option<string>, userId: Option<int>, organizationId: Json)

  /**
   * `get_test_context`: the session's `matter_id` text is stored first, then
   * checked to be non-blank; the client's user id must be truthy and
   * accepted by `int()`; only then are the user and organization stored.
   * Every failure becomes a RuntimeError, and what was stored stays stored.
   */
  function ContextSpec(session: Option<Json>, clientUserId: Json, clientOrgId: Json,
                       matterId: Option<string>, userId: Option<int>, organizationId: Json): (r: Context)
  {
    var failed := Context(Fail(RuntimeError), matterId, userId, organizationId);
    if session.None? || !UnwrapApiResponse(session.value).Obj? then failed
    else
      var id := Clean(Get(UnwrapApiResponse(session.value), "matter_id"));
      if id == "" then failed.(matterId := Some(id))
      else if !Truthy(clientUserId) || IntOf(clientUserId).None? then failed.(matterId := Some(id))
      else Context(Pass, Some(id), Some(IntOf(clientUserId).value), clientOrgId)
  }

  /**
   * A context that was resolved is ready for every check: a non-blank matter
   * id and a user id. A blank matter id is still stored when resolution fails.
   */
  lemma ContextReady(session: Option<Json>, clientUserId: Json, clientOrgId: Json,
                     matterId: Option<string>, userId: Option<int>, organizationId: Json)
    ensures var c := ContextSpec(session, clientUserId, clientOrgId, matterId, userId, organizationId);
      c.outcome.Pass? ==> HasMatter(c.matterId) && c.userId.Some? && Some(c.userId.value) == IntOf(clientUserId)
    ensures var c := ContextSpec(session, clientUserId, clientOrgId, matterId, userId, organizationId);
      c.outcome.Fail? ==> c.outcome.error == RuntimeError && c.userId == userId && c.organizationId == organizationId
    ensures var c := ContextSpec(session, clientUserId, clientOrgId, matterId, userId, organizationId);
      session.Some? && UnwrapApiResponse(session.value).Obj? ==>
        c.matterId == Some(Clean(Get(UnwrapApiResponse(session.value), "matter_id")))
  {
    if session.Some? && UnwrapApiResponse(session.value).Obj? {
      var id := Clean(Get(UnwrapApiResponse(session.value), "matter_id"));
      if id != "" && Truthy(clientUserId) && IntOf(clientUserId).Some? {
        assert ContextSpec(session, clientUserId, clientOrgId, matterId, userId, organizationId)
          == Context(Pass, Some(id), Some(IntOf(clientUserId).value), clientOrgId);
      }
    }
  }

  /**
   * Everything the eight checks fetch, as the services answered it; None for
   * a fetch that raised. Each check fetches on its own, so the two memory
   * checks and the two trace checks each have their own answer.
   */
  datatype Fetched = Fetched(
    retrievalFacts: Option<seq<Json>>,
    storageFacts: Option<seq<Json>>,
    count: Counter,
    skillTraces: Option<Json>,
    traceTraces: Option<Json>,
    phaseTimeline: Option<Json>,
    deliverables: Option<Json>,
    download: Downloader,
    search: Searcher)

  /** The check at position `i` of `run_all_checks`. */
  function CheckSpec(i: nat, exp: Json, matterId: Option<string>, userId: Option<int>, f: Fetched): Result<CheckResult>
    requires i < 8
  {
    if i == 0 then RetrievalSpec(exp, matterId, userId, f.retrievalFacts)
    else if i == 1 then StorageSpec(exp, matterId, userId, f.storageFacts)
    else if i == 2 then KnowledgeSpec(exp)
    else if i == 3 then RecordsSpec(exp, matterId, f.count)
    else if i == 4 then SkillsSpec(exp, matterId, f.skillTraces)
    else if i == 5 then TraceSpec(exp, matterId, f.traceTraces)
    else if i == 6 then PhasesSpec(exp, matterId, f.phaseTimeline)
    else DocumentSpec(exp, matterId, f.deliverables, f.download, f.search)
  }

  /** The results of the eight checks, in the order `run_all_checks` runs them. */
  function AllChecks(exp: Json, matterId: Option<string>, userId: Option<int>, f: Fetched): (r: seq<Result<CheckResult>>)
    ensures |r| == 8
  {
    seq(8, i requires 0 <= i < 8 => CheckSpec(i, exp, matterId, userId, f))
  }

  /** The number of leading checks that returned a result. */
  function Completed(rs: seq<Result<CheckResult>>): (n: nat)
    ensures n <= |rs|
    ensures forall i :: 0 <= i < n ==> rs[i].Ok?
    ensures n < |rs| ==> rs[n].Err?
  {
    if rs == [] || rs[0].Err? then 0 else 1 + Completed(rs[1..])
  }

  /** The results of the first `n` checks. */
  function Results(rs: seq<Result<CheckResult>>, n: nat): (r: seq<CheckResult>)
    requires n <= |rs| && forall i :: 0 <= i < n ==> rs[i].Ok?
    ensures |r| == n && forall i :: 0 <= i < n ==> r[i] == rs[i].value
  {
    seq(n, i requires 0 <= i < n && i < |rs| && rs[i].Ok? => rs[i].value)
  }

  /** The quality checker of one scenario and session. */
  class QualityChecker {
    var scenarioName: string
    var sessionId: string
    var expectations: Json
    var matterId: Option<string>
    var userId: Option<int>
    var organizationId: Json
    var results: seq<CheckResult>

    constructor(scenarioName: string, sessionId: string)
      ensures this.scenarioName == scenarioName && this.sessionId == sessionId
      ensures expectations == Obj([]) && matterId.None? && userId.None? && organizationId == Null
      ensures results == []
    {
      this.scenarioName := scenarioName;
      this.sessionId := sessionId;
      expectations := Obj([]);
      matterId := None;
      userId := None;
      organizationId := Null;
      results := [];
    }

    /**
     * `load_expectations`: a missing README raises FileNotFoundError, one
     * without a fenced `yaml` block ValueError; otherwise the block's parse
     * becomes the expectations.
     */
    method LoadExpectations(readme: Option<string>, parse: string -> Json) returns (c: Check)
      modifies this
      ensures readme.None? ==> c == Fail(FileNotFoundError) && expectations == old(expectations)
      ensures readme.Some? && YamlBlock(readme.value).None? ==> c == Fail(ValueError) && expectations == old(expectations)
      ensures readme.Some? && YamlBlock(readme.value).Some? ==> c == Pass && expectations == parse(YamlBlock(readme.value).value)
      ensures scenarioName == old(scenarioName) && sessionId == old(sessionId) && matterId == old(matterId)
      ensures userId == old(userId) && organizationId == old(organizationId) && results == old(results)
    {
      if readme.None? {
        return Fail(FileNotFoundError);
      }
      var block := YamlBlock(readme.value);
      if block.None? {
        return Fail(ValueError);
      }
      expectations := parse(block.value);
      c := Pass;
    }

    /** `get_test_context`, with the session response and the logged-in client's ids as inputs. */
    method GetTestContext(session: Option<Json>, clientUserId: Json, clientOrgId: Json) returns (c: Check)
      modifies this
      ensures Context(c, matterId, userId, organizationId)
        == ContextSpec(session, clientUserId, clientOrgId, old(matterId), old(userId), old(organizationId))
      ensures scenarioName == old(scenarioName) && sessionId == old(sessionId)
      ensures expectations == old(expectations) && results == old(results)
    {
      if session.None? {
        return Fail(RuntimeError);
      }
      var data := UnwrapApiResponse(session.value);
      if !data.Obj? {
        return Fail(RuntimeError);
      }
      var id := Clean(Get(data, "matter_id"));
      matterId := Some(id);
      if id == "" {
        return Fail(RuntimeError);
      }
      if !Truthy(clientUserId) || IntOf(clientUserId).None? {
        return Fail(RuntimeError);
      }
      userId := Some(IntOf(clientUserId).value);
      organizationId := clientOrgId;
      c := Pass;
    }

    method CheckMemoryRetrieval(facts: Option<seq<Json>>) returns (r: Result<CheckResult>)
      ensures r == RetrievalSpec(expectations, matterId, userId, facts)
    {
      r := RunCheck(RetrievalName, Section(expectations, "memory", "retrieval", List([])),
        userId.Some? && HasMatter(matterId) && facts.Some?, c => RetrievalVerdict(c, FactsOr(facts)));
    }

    method CheckMemoryStorage(facts: Option<seq<Json>>) returns (r: Result<CheckResult>)
      ensures r == StorageSpec(expectations, matterId, userId, facts)
    {
      r := RunCheck(StorageName, Section(expectations, "memory", "storage", List([])),
        userId.Some? && HasMatter(matterId) && facts.Some?, c => StorageVerdict(c, FactsOr(facts)));
    }

    method CheckKnowledgeHits() returns (r: Result<CheckResult>)
      ensures r == KnowledgeSpec(expectations)
    {
      r := KnowledgeSpec(expectations);
    }

    method CheckMatterRecords(count: Counter) returns (r: Result<CheckResult>)
      ensures r == RecordsSpec(expectations, matterId, count)
    {
      var id := RecordsMatterId(matterId);
      var m := if id.Some? then id.value else 0;
      r := RunCheck(RecordsName, Section(expectations, "matter", "records", List([])),
        id.Some?, c => RecordVerdict(c, m, count));
    }

    method CheckSkillsExecuted(traces: Option<Json>) returns (r: Result<CheckResult>)
      ensures r == SkillsSpec(expectations, matterId, traces)
    {
      var l := Listing(traces, "traces");
      r := RunCheck(SkillsName, Section(expectations, "skills", "executed", List([])),
        HasMatter(matterId) && l.Some?, c => SkillVerdict(c, ItemsOr(l)));
    }

    method CheckTraceExpectations(traces: Option<Json>) returns (r: Result<CheckResult>)
      ensures r == TraceSpec(expectations, matterId, traces)
    {
      var l := Listing(traces, "traces");
      r := RunCheck(TraceName, Section(expectations, "trace", "expectations", List([])),
        HasMatter(matterId) && l.Some?, c => TraceVerdict(c, ItemsOr(l)));
    }

    method CheckPhaseGates(timeline: Option<Json>) returns (r: Result<CheckResult>)
      ensures r == PhasesSpec(expectations, matterId, timeline)
    {
      var l := Listing(timeline, "phases");
      r := RunCheck(PhasesName, Section(expectations, "phase_gates", "checkpoints", List([])),
        HasMatter(matterId) && l.Some?, c => PhaseVerdict(c, ItemsOr(l)));
    }

    /** `check_document_quality`: its two content loops run through `ProbeAll`. */
    method CheckDocumentQuality(deliverables: Option<Json>, download: Downloader, search: Searcher) returns (r: Result<CheckResult>)
      ensures r == DocumentSpec(expectations, matterId, deliverables, download, search)
    {
      var section := Section(expectations, "document", "quality", Obj([]));
      if section.None? {
        return Err(AttributeError);
      }
      var doc := section.value;
      if !Truthy(doc) {
        return Ok(NoItemsResult(DocumentName));
      }
      if !doc.Obj? || !GetOr(doc, "format", Obj([])).Obj? {
        return Err(AttributeError);
      }
      if Truthy(Get(GetOr(doc, "format", Obj([])), "not_applicable")) {
        return Ok(CheckResult(DocumentName, true, 0, 0, [Note(FormatNotApplicable)], []));
      }
      var body := DocumentBody(DocumentName, doc, matterId, deliverables, download, search);
      var crashed := DocResult(DocumentName, DocTally(0, 0, [], true));
      if !HasMatter(matterId) || deliverables.None? {
        return Ok(crashed);
      }
      var data := UnwrapApiResponse(deliverables.value);
      if !data.Obj? {
        return Ok(crashed);
      }
      var dels := GetOr(data, "deliverables", List([]));
      if !Truthy(dels) {
        return Ok(CheckResult(DocumentName, false, 0, 0, [], [NoDeliverables]));
      }
      if !dels.List? || !dels.items[0].Obj? {
        return Ok(crashed);
      }
      var fileId := Get(dels.items[0], "file_id");
      if !Truthy(fileId) {
        return Ok(CheckResult(DocumentName, false, 0, 0, [], [NoFileId]));
      }
      var text := download(fileId);
      if text.None? {
        return Ok(CheckResult(DocumentName, false, 0, 0, [], [DownloadFailed]));
      }
      var t := ContentRun(GetOr(doc, "content", Obj([])), text.value, search);
      r := Ok(DocResult(DocumentName, t));
      assert r == Ok(body);
    }

    /** The check at position `i` of `run_all_checks`. */
    method CheckAt(i: nat, f: Fetched) returns (r: Result<CheckResult>)
      requires i < 8
      ensures r == CheckSpec(i, expectations, matterId, userId, f)
    {
      if i == 0 {
        r := CheckMemoryRetrieval(f.retrievalFacts);
      } else if i == 1 {
        r := CheckMemoryStorage(f.storageFacts);
      } else if i == 2 {
        r := CheckKnowledgeHits();
      } else if i == 3 {
        r := CheckMatterRecords(f.count);
      } else if i == 4 {
        r := CheckSkillsExecuted(f.skillTraces);
      } else if i == 5 {
        r := CheckTraceExpectations(f.traceTraces);
      } else if i == 6 {
        r := CheckPhaseGates(f.phaseTimeline);
      } else {
        r := CheckDocumentQuality(f.deliverables, f.download, f.search);
      }
    }

    /**
     * `run_all_checks`: runs the eight checks in order and appends each
     * result; an exception that escapes a check ends the run with the
     * results so far recorded.
     */
    method RunAllChecks(f: Fetched) returns (c: Check)
      modifies this`results
      ensures var rs := AllChecks(expectations, matterId, userId, f);
        results == old(results) + Results(rs, Completed(rs)) &&
        c == (if Completed(rs) == 8 then Pass else Fail(rs[Completed(rs)].error))
      ensures scenarioName == old(scenarioName) && sessionId == old(sessionId) && expectations == old(expectations)
      ensures matterId == old(matterId) && userId == old(userId) && organizationId == old(organizationId)
    {
      ghost var rs := AllChecks(expectations, matterId, userId, f);
      var i := 0;
      while i < 8
        invariant 0 <= i <= Completed(rs)
        invariant results == old(results) + Results(rs, i)
      {
        var r := CheckAt(i, f);
        assert r == rs[i];
        if r.Err? {
          CompletedAt(rs, i);
          return Fail(r.error);
        }
        results := results + [r.value];
        assert Results(rs, i + 1) == Results(rs, i) + [r.value];
        i := i + 1;
      }
      c := Pass;
    }
  }

  /** The first check that raised is where the completed ones end. */
  lemma CompletedAt(rs: seq<Result<CheckResult>>, i: nat)
    requires i <= Completed(rs) && i < |rs| && rs[i].Err?
    ensures Completed(rs) == i
  {
  }

  /** The content loops of the document check. */
  method ContentRun(content: Json, text: string, search: Searcher) returns (t: DocTally)
    ensures t == ContentTally(content, text, search)
  {
    if !content.Obj? {
      return DocTally(0, 0, [], true);
    }
    var kws := Iterate(GetOr(content, "must_include", List([])));
    if kws.None? {
      return DocTally(0, 0, [], true);
    }
    t := ProbeAll(DocTally(0, 0, [], false), kws.value, k => PyIn(k, Str(text)));
    if t.raised {
      return;
    }
    var pats := Iterate(GetOr(content, "must_not_include", List([])));
    if pats.None? {
      return t.(raised := true);
    }
    t := ProbeAll(t, pats.value, p => Absence(search(p, text)));
  }
}
