/**
 * JSON values as the harness sees them after `response.json()`, together with
 * the handful of Python semantics the harness relies on: truthiness, `or`,
 * `dict.get`, `dict[key]`, `isinstance(x, dict)` and iteration.
 *
 * An object keeps its fields in insertion order, as a Python dict does; keys
 * are strings because every dict in the harness comes from JSON.
 */
module Json {

  datatype Option<T> = None | Some(value: T)

  /** The Python exceptions the harness raises or lets escape. */
  datatype ErrorKind = AssertionError | ValueError | KeyError | TypeError | AttributeError | RuntimeError | FileNotFoundError | OverflowError | HttpStatusError(status: int) | TransportError

  datatype Result<T> = Ok(value: T) | Err(error: ErrorKind)

  /** The outcome of an `assert_*` helper: it returns, or it raises. */
  datatype Check = Pass | Fail(error: ErrorKind)

  datatype Json =
    | Null
    | Bool(b: bool)
    | Int(i: int)
    | Str(s: string)
    | List(items: seq<Json>)
    | Obj(fields: seq<Field>)

  datatype Field = Field(key: string, val: Json)

  /** Python truthiness of a JSON value. */
  predicate Truthy(v: Json)
  {
    match v
    case Null => false
    case Bool(b) => b
    case Int(i) => i != 0
    case Str(s) => s != ""
    case List(xs) => xs != []
    case Obj(fs) => fs != []
  }

  /** `a or b` */
  function Or(a: Json, b: Json): (r: Json)
    ensures Truthy(a) ==> r == a
    ensures !Truthy(a) ==> r == b
  {
    if Truthy(a) then a else b
  }

  /** `isinstance(v, dict) and v` — a non-empty object. */
  predicate NonEmptyDict(v: Json)
  {
    v.Obj? && v.fields != []
  }

  /** Position of the first field named `k`, or `|fs|` when there is none. */
  function FieldIndex(fs: seq<Field>, k: string): (i: nat)
    ensures i <= |fs|
    ensures i < |fs| ==> fs[i].key == k
    ensures forall j :: 0 <= j < i ==> fs[j].key != k
  {
    if fs == [] then 0
    else if fs[0].key == k then 0
    else 1 + FieldIndex(fs[1..], k)
  }

  /** `k in d` for a dict `d`. */
  predicate Has(v: Json, k: string)
  {
    v.Obj? && FieldIndex(v.fields, k) < |v.fields|
  }

  /**
   * `d.get(k)` for a dict `d`: the value stored under `k`, or `None`.
   * Callers only apply it to values they know to be dicts; on anything else
   * it yields `None` as `(x or {}).get(k)` would for a falsy `x`.
   */
  function Get(v: Json, k: string): (r: Json)
    ensures !Has(v, k) ==> r == Null
    ensures Has(v, k) ==> exists i :: 0 <= i < |v.fields| && v.fields[i] == Field(k, r)
  {
    if !v.Obj? then Null
    else
      var i := FieldIndex(v.fields, k);
      if i < |v.fields| then v.fields[i].val else Null
  }

  /** `d.get(k, default)`: the default only when the key is absent. */
  function GetOr(v: Json, k: string, default: Json): (r: Json)
    ensures Has(v, k) ==> r == Get(v, k)
    ensures !Has(v, k) ==> r == default
  {
    if Has(v, k) then Get(v, k) else default
  }

  /** `d[k]`: a KeyError when the key is missing, a TypeError on a non-dict. */
  function Index(v: Json, k: string): (r: Result<Json>)
    ensures r.Ok? <==> Has(v, k)
    ensures r.Ok? ==> r.value == Get(v, k)
  {
    if !v.Obj? then Err(TypeError)
    else if Has(v, k) then Ok(Get(v, k))
    else Err(KeyError)
  }

  /** The dict items of a list: `[x for x in xs if isinstance(x, dict)]`. */
  function Dicts(xs: seq<Json>): (r: seq<Json>)
    ensures |r| <= |xs|
    ensures forall x :: x in r ==> x.Obj? && x in xs
    ensures forall x :: x in xs && x.Obj? ==> x in r
  {
    if xs == [] then []
    else (if xs[0].Obj? then [xs[0]] else []) + Dicts(xs[1..])
  }

  /** The items of `v` if it is a list, else the empty list. */
  function ListOrEmpty(v: Json): (r: seq<Json>)
    ensures v.List? ==> r == v.items
    ensures !v.List? ==> r == []
  {
    if v.List? then v.items else []
  }

  /** The dict items of `d.get(k)` when that is a list — the most common shape of the helpers. */
  function DictItemsAt(d: Json, k: string): (r: seq<Json>)
    ensures forall x :: x in r <==> Get(d, k).List? && x in Get(d, k).items && x.Obj?
  {
    Dicts(ListOrEmpty(Get(d, k)))
  }

  /** A list of dicts keeps all of its items. */
  lemma {:induction false} DictsOfDicts(xs: seq<Json>)
    requires forall i :: 0 <= i < |xs| ==> xs[i].Obj?
    ensures Dicts(xs) == xs
  {
    if xs != [] {
      DictsOfDicts(xs[1..]);
    }
  }

  lemma {:induction false} DictsAppend(a: seq<Json>, b: seq<Json>)
    ensures Dicts(a + b) == Dicts(a) + Dicts(b)
  {
    if a == [] {
      assert a + b == b;
    } else {
      assert (a + b)[1..] == a[1..] + b;
      DictsAppend(a[1..], b);
    }
  }

  /** `d[k] = v` on a dict's fields: an existing key keeps its place and takes the new value, a new key goes last. */
  function Put(fs: seq<Field>, k: string, v: Json): (r: seq<Field>)
    ensures forall f :: f in r ==> f == Field(k, v) || f in fs
    ensures Field(k, v) in r
  {
    if fs == [] then [Field(k, v)]
    else if fs[0].key == k then [Field(k, v)] + fs[1..]
    else [fs[0]] + Put(fs[1..], k, v)
  }

  /** A lookup past a first field with another key continues in the rest. */
  lemma GetTail(fs: seq<Field>, k: string)
    requires fs != [] && fs[0].key != k
    ensures Get(Obj(fs), k) == Get(Obj(fs[1..]), k)
  {
    assert FieldIndex(fs, k) == 1 + FieldIndex(fs[1..], k);
  }

  /** After `d[k] = v`, `d.get(k)` is `v` and every other key reads as before. */
  lemma {:induction false} PutGetAt(fs: seq<Field>, k: string, v: Json, k2: string)
    ensures Get(Obj(Put(fs, k, v)), k2) == if k2 == k then v else Get(Obj(fs), k2)
  {
    var r := Put(fs, k, v);
    if k2 == k {
      if fs != [] && fs[0].key != k {
        assert r[1..] == Put(fs[1..], k, v);
        GetTail(r, k2);
        PutGetAt(fs[1..], k, v, k2);
      }
    } else if fs == [] {
      GetTail(r, k2);
    } else if fs[0].key == k {
      assert r[1..] == fs[1..];
      GetTail(r, k2);
      GetTail(fs, k2);
    } else if fs[0].key != k2 {
      assert r[1..] == Put(fs[1..], k, v);
      GetTail(r, k2);
      GetTail(fs, k2);
      PutGetAt(fs[1..], k, v, k2);
    }
  }

  lemma PutGet(fs: seq<Field>, k: string, v: Json)
    ensures forall k2 :: Get(Obj(Put(fs, k, v)), k2) == if k2 == k then v else Get(Obj(fs), k2)
  {
    forall k2 ensures Get(Obj(Put(fs, k, v)), k2) == if k2 == k then v else Get(Obj(fs), k2) {
      PutGetAt(fs, k, v, k2);
    }
  }

  /** `d[k] = v` only when `cond` holds. */
  function PutIf(fs: seq<Field>, cond: bool, k: string, v: Json): (r: seq<Field>)
    ensures forall f :: f in r ==> (cond && f == Field(k, v)) || f in fs
  {
    if cond then Put(fs, k, v) else fs
  }

  lemma PutIfGetAt(fs: seq<Field>, cond: bool, k: string, v: Json, k2: string)
    ensures Get(Obj(PutIf(fs, cond, k, v)), k2) == if cond && k2 == k then v else Get(Obj(fs), k2)
  {
    if cond {
      PutGetAt(fs, k, v, k2);
    }
  }

  lemma PutIfGet(fs: seq<Field>, cond: bool, k: string, v: Json)
    ensures forall k2 :: Get(Obj(PutIf(fs, cond, k, v)), k2) == if cond && k2 == k then v else Get(Obj(fs), k2)
  {
    PutGet(fs, k, v);
  }

  /** A loop that raises AssertionError at the first item failing `ok` and otherwise returns. */
  function CheckEach(xs: seq<Json>, ok: Json -> bool): (r: Check)
    ensures r.Pass? <==> forall i :: 0 <= i < |xs| ==> ok(xs[i])
    ensures r.Fail? ==> r.error == AssertionError
  {
    if xs == [] then Pass
    else if !ok(xs[0]) then Fail(AssertionError)
    else CheckEach(xs[1..], ok)
  }

  /** Two checks in a row: the first one to raise decides. */
  function Then(a: Check, b: Check): (r: Check)
    ensures r.Pass? <==> a.Pass? && b.Pass?
    ensures r.Fail? ==> r == (if a.Fail? then a else b)
  {
    if a.Fail? then a else b
  }

  /** The two fields of a two-field dict read back. */
  lemma PairGet(k1: string, v1: Json, k2: string, v2: Json)
    requires k1 != k2
    ensures Get(Obj([Field(k1, v1), Field(k2, v2)]), k1) == v1
    ensures Get(Obj([Field(k1, v1), Field(k2, v2)]), k2) == v2
  {
    var fs := [Field(k1, v1), Field(k2, v2)];
    assert FieldIndex(fs[1..], k2) == 0;
  }
}
