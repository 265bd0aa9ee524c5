/**
 * Python `str` semantics used by the harness: `strip()`, `lower()`,
 * `startswith`, the substring test `a in b`, `split` on one character,
 * `join`, `int()` on text and `str()` of a JSON value.
 */
module Text {
  import opened Json

  /** Python's whitespace characters, as `str.strip()` and `str.isspace()` use them. */
  predicate IsSpace(c: char)
  {
    ('\t' <= c <= '\r') || ('\U{1c}' <= c <= ' ') || c == '\U{85}' || c == '\U{a0}'
    || c == '\U{1680}' || ('\U{2000}' <= c <= '\U{200a}') || c == '\U{2028}' || c == '\U{2029}'
    || c == '\U{202f}' || c == '\U{205f}' || c == '\U{3000}'
  }

  /** A string that `strip()` empties. */
  predicate IsBlank(s: string)
  {
    forall i :: 0 <= i < |s| ==> IsSpace(s[i])
  }

  function TrimStart(s: string): (r: string)
    ensures |r| <= |s|
  {
    if s != [] && IsSpace(s[0]) then TrimStart(s[1..]) else s
  }

  /** `lstrip()` removes a blank prefix and stops at the first non-space character. */
  lemma {:induction false} TrimStartFacts(s: string)
    ensures var r := TrimStart(s);
      r == s[|s| - |r|..] && (r == [] || !IsSpace(r[0])) && IsBlank(s[..|s| - |r|])
  {
    if s != [] && IsSpace(s[0]) {
      TrimStartFacts(s[1..]);
      var r := TrimStart(s);
      assert s[..|s| - |r|] == [s[0]] + s[1..][..|s| - 1 - |r|];
    } else {
      assert s[..0] == [];
    }
  }

  function TrimEnd(s: string): (r: string)
    ensures |r| <= |s|
  {
    if s != [] && IsSpace(s[|s| - 1]) then TrimEnd(s[..|s| - 1]) else s
  }

  /** `rstrip()` removes a blank suffix and stops at the last non-space character. */
  lemma {:induction false} TrimEndFacts(s: string)
    ensures var r := TrimEnd(s);
      r == s[..|r|] && (r == [] || !IsSpace(r[|r| - 1])) && IsBlank(s[|r|..])
      && (s != [] && !IsSpace(s[0]) ==> r != [])
  {
    if s != [] && IsSpace(s[|s| - 1]) {
      var t := s[..|s| - 1];
      TrimEndFacts(t);
      var r := TrimEnd(s);
      assert s[|r|..] == t[|r|..] + [s[|s| - 1]];
      assert s[..|r|] == t[..|r|];
      if s != [] && !IsSpace(s[0]) {
        assert t != [] && t[0] == s[0];
      }
    } else {
      assert s[|s|..] == [];
    }
  }

  /** `s.strip()` */
  function Strip(s: string): (r: string)
    ensures |r| <= |s|
    ensures r == [] || (!IsSpace(r[0]) && !IsSpace(r[|r| - 1]))
  {
    TrimStartFacts(s);
    TrimEndFacts(TrimStart(s));
    TrimEnd(TrimStart(s))
  }

  /** `strip()` empties exactly the blank strings. */
  lemma {:induction false} StripEmpty(s: string)
    ensures Strip(s) == [] <==> IsBlank(s)
  {
    var t := TrimStart(s);
    TrimStartFacts(s);
    TrimEndFacts(t);
    if t == [] {
      assert s[..|s|] == s;
    } else {
      assert !IsSpace(s[|s| - |t|]);
    }
  }

  lemma {:induction false} StripIdempotent(s: string)
    ensures Strip(Strip(s)) == Strip(s)
  {
    var r := Strip(s);
    assert TrimStart(r) == r;
    assert TrimEnd(r) == r;
  }

  lemma {:induction false} StripOfUnspaced(s: string)
    requires s == [] || (!IsSpace(s[0]) && !IsSpace(s[|s| - 1]))
    ensures Strip(s) == s
  {
  }

  function LowerChar(c: char): char
  {
    if 'A' <= c <= 'Z' then (c as int + 32) as char else c
  }

  function UpperChar(c: char): char
  {
    if 'a' <= c <= 'z' then (c as int - 32) as char else c
  }

  /** `s.lower()` on the ASCII letters; other characters are kept. */
  function Lower(s: string): (r: string)
    ensures |r| == |s|
    ensures forall i :: 0 <= i < |s| ==> r[i] == LowerChar(s[i])
  {
    seq(|s|, i requires 0 <= i < |s| => LowerChar(s[i]))
  }

  /** `s.upper()` on the ASCII letters; other characters are kept. */
  function Upper(s: string): (r: string)
    ensures |r| == |s|
    ensures forall i :: 0 <= i < |s| ==> r[i] == UpperChar(s[i])
  {
    seq(|s|, i requires 0 <= i < |s| => UpperChar(s[i]))
  }

  /** `s.startswith(p)` */
  predicate StartsWith(s: string, p: string)
  {
    |p| <= |s| && s[..|p|] == p
  }

  /** `needle in hay` for strings. */
  predicate Contains(hay: string, needle: string)
  {
    StartsWith(hay, needle) || (hay != [] && Contains(hay[1..], needle))
  }

  /** A string contains whatever is spliced into it. */
  lemma {:induction false} ContainsInfix(before: string, p: string, after: string)
    ensures Contains(before + p + after, p)
  {
    if before == [] {
      assert (before + p + after)[..|p|] == p;
    } else {
      ContainsInfix(before[1..], p, after);
      assert (before + p + after)[1..] == before[1..] + p + after;
    }
  }

  /** Every non-blank fragment, stripped, occurs in the text. */
  predicate ContainsAll(text: string, mustInclude: seq<string>)
  {
    forall n :: n in mustInclude && Strip(n) != "" ==> Contains(text, Strip(n))
  }

  /** `needle` occurs in `text` at index `j`. */
  predicate OccursAt(text: string, needle: string, j: nat)
  {
    j + |needle| <= |text| && text[j..j + |needle|] == needle
  }

  /** `text.find(needle)`: the first index at which `needle` occurs, or None for -1. */
  function Find(text: string, needle: string): (r: Option<nat>)
    decreases |text|
  {
    if OccursAt(text, needle, 0) then Some(0)
    else if text == [] then None
    else
      match Find(text[1..], needle)
      case None => None
      case Some(i) => Some(i + 1)
  }

  /** Dropping the first character moves every occurrence one place to the left. */
  lemma ShiftOccurs(text: string, needle: string)
    requires text != []
    ensures forall j :: 0 <= j < |text| ==> (OccursAt(text[1..], needle, j) <==> OccursAt(text, needle, j + 1))
  {
    forall j | 0 <= j < |text| ensures OccursAt(text[1..], needle, j) <==> OccursAt(text, needle, j + 1) {
      if j + |needle| <= |text[1..]| {
        assert text[1..][j..j + |needle|] == text[j + 1..j + 1 + |needle|];
      }
    }
  }

  /** `find` gives the lowest index at which the needle occurs, and None only when it occurs nowhere. */
  lemma {:induction false} FindSpec(text: string, needle: string)
    ensures Find(text, needle).Some? ==> OccursAt(text, needle, Find(text, needle).value)
    ensures Find(text, needle).Some? ==> forall j :: 0 <= j < Find(text, needle).value ==> !OccursAt(text, needle, j)
    ensures Find(text, needle).None? <==> forall j :: 0 <= j <= |text| ==> !OccursAt(text, needle, j)
    decreases |text|
  {
    if !OccursAt(text, needle, 0) && text != [] {
      FindSpec(text[1..], needle);
      ShiftOccurs(text, needle);
      if Find(text, needle).None? {
        forall j | 0 <= j <= |text| ensures !OccursAt(text, needle, j) {
          if j > 0 {
            assert !OccursAt(text[1..], needle, j - 1);
          }
        }
      } else {
        var i := Find(text[1..], needle).value;
        forall j | 0 <= j < i + 1 ensures !OccursAt(text, needle, j) {
          if j > 0 {
            assert !OccursAt(text[1..], needle, j - 1);
          }
        }
      }
    }
  }

  /** The first occurrence is the lowest index at which the needle occurs. */
  lemma FindFirst(text: string, needle: string, i: nat)
    requires OccursAt(text, needle, i)
    requires forall j :: 0 <= j < i ==> !OccursAt(text, needle, j)
    ensures Find(text, needle) == Some(i)
  {
    FindSpec(text, needle);
  }

  /** A needle that occurs nowhere is not found. */
  lemma FindNone(text: string, needle: string)
    requires forall j :: 0 <= j <= |text| ==> !OccursAt(text, needle, j)
    ensures Find(text, needle).None?
  {
    FindSpec(text, needle);
  }

  /** `needle in hay` holds exactly when `find` reports a position. */
  lemma {:induction false} ContainsFind(hay: string, needle: string)
    ensures Contains(hay, needle) <==> Find(hay, needle).Some?
    decreases |hay|
  {
    assert StartsWith(hay, needle) <==> OccursAt(hay, needle, 0) by {
      if |needle| <= |hay| {
        assert hay[0..|needle|] == hay[..|needle|];
      }
    }
    if hay != [] {
      ContainsFind(hay[1..], needle);
    }
  }

  /** Position of the first occurrence of `c` in `s`, or `|s|`. */
  function CharIndex(s: string, c: char): (i: nat)
    ensures i <= |s|
    ensures i < |s| ==> s[i] == c
    ensures c !in s[..i]
  {
    if s == [] then 0
    else if s[0] == c then 0
    else 1 + CharIndex(s[1..], c)
  }

  /** `sep.join(parts)` */
  function Join(sep: string, parts: seq<string>): (r: string)
  {
    if parts == [] then ""
    else if |parts| == 1 then parts[0]
    else parts[0] + sep + Join(sep, parts[1..])
  }

  /** Each part sits in the joined text between some prefix and some suffix. */
  lemma {:induction false} JoinSplice(sep: string, parts: seq<string>, i: nat) returns (before: string, after: string)
    requires i < |parts|
    ensures Join(sep, parts) == before + parts[i] + after
  {
    if |parts| == 1 {
      before, after := "", "";
    } else if i == 0 {
      before, after := "", sep + Join(sep, parts[1..]);
    } else {
      var b, a := JoinSplice(sep, parts[1..], i - 1);
      before, after := parts[0] + sep + b, a;
    }
  }

  /** `sep.join(parts)` contains every one of the parts. */
  lemma JoinContainsPart(sep: string, parts: seq<string>, i: nat)
    requires i < |parts|
    ensures Contains(Join(sep, parts), parts[i])
  {
    var before, after := JoinSplice(sep, parts, i);
    ContainsInfix(before, parts[i], after);
  }

  /** `s.split(c)` for a one-character separator. */
  function Split(s: string, c: char): (r: seq<string>)
    ensures |r| >= 1
    ensures forall k :: 0 <= k < |r| ==> c !in r[k]
  {
    if s == [] then [""]
    else if s[0] == c then [""] + Split(s[1..], c)
    else
      var rest := Split(s[1..], c);
      [[s[0]] + rest[0]] + rest[1..]
  }

  /** Splitting on a character and joining the pieces back with it gives the text back. */
  lemma {:induction false} SplitJoin(s: string, c: char)
    ensures Join([c], Split(s, c)) == s
  {
    if s == [] {
    } else if s[0] == c {
      SplitJoin(s[1..], c);
      var rest := Split(s[1..], c);
      assert Split(s, c) == [""] + rest;
      assert Join([c], [""] + rest) == [c] + Join([c], rest);
    } else {
      SplitJoin(s[1..], c);
      var rest := Split(s[1..], c);
      var r := [[s[0]] + rest[0]] + rest[1..];
      assert Split(s, c) == r;
      if |rest| == 1 {
        assert Join([c], r) == [s[0]] + rest[0];
      } else {
        assert Join([c], rest) == rest[0] + [c] + Join([c], rest[1..]);
        assert r[1..] == rest[1..];
        assert Join([c], r) == [s[0]] + rest[0] + [c] + Join([c], rest[1..]);
      }
    }
  }

  /** A text without the separator is split into itself alone. */
  lemma {:induction false} SplitNoSeparator(s: string, c: char)
    requires c !in s
    ensures Split(s, c) == [s]
  {
    if s != [] {
      assert c !in s[1..];
      SplitNoSeparator(s[1..], c);
      assert [s[0]] + s[1..] == s;
    }
  }

  /** A piece without the separator, then the separator, splits off as the first piece. */
  lemma {:induction false} SplitAfterPiece(a: string, c: char, b: string)
    requires c !in a
    ensures Split(a + [c] + b, c) == [a] + Split(b, c)
  {
    if a == [] {
      assert a + [c] + b == [c] + b;
      assert ([c] + b)[1..] == b;
    } else {
      var s := a + [c] + b;
      assert s[0] == a[0] && s[1..] == a[1..] + [c] + b;
      assert c !in a[1..];
      SplitAfterPiece(a[1..], c, b);
      assert [a[0]] + a[1..] == a;
    }
  }

  /** Joining pieces that do not contain the separator and splitting again gives the pieces back. */
  lemma {:induction false} SplitOfJoin(parts: seq<string>, c: char)
    requires parts != []
    requires forall k :: 0 <= k < |parts| ==> c !in parts[k]
    ensures Split(Join([c], parts), c) == parts
  {
    if |parts| == 1 {
      SplitNoSeparator(parts[0], c);
    } else {
      SplitOfJoin(parts[1..], c);
      assert Join([c], parts) == parts[0] + [c] + Join([c], parts[1..]);
      SplitAfterPiece(parts[0], c, Join([c], parts[1..]));
      assert [parts[0]] + parts[1..] == parts;
    }
  }

  /** The piece after the last separator: `s.split(c)[-1]`. */
  function LastPiece(s: string, c: char): (r: string)
    ensures c !in r
    ensures |r| <= |s| && s[|s| - |r|..] == r
    ensures |r| < |s| ==> s[|s| - |r| - 1] == c
  {
    var ps := Split(s, c);
    LastPieceIsSuffix(s, c);
    ps[|ps| - 1]
  }

  lemma {:induction false} LastPieceIsSuffix(s: string, c: char)
    ensures var ps := Split(s, c); var last := ps[|ps| - 1];
      |last| <= |s| && s[|s| - |last|..] == last && (|last| < |s| ==> s[|s| - |last| - 1] == c)
      && (|ps| > 1 ==> |last| < |s|)
  {
    if s == [] {
    } else if s[0] == c {
      LastPieceIsSuffix(s[1..], c);
      assert Split(s, c) == [""] + Split(s[1..], c);
    } else {
      LastPieceIsSuffix(s[1..], c);
      var rest := Split(s[1..], c);
      var r := [[s[0]] + rest[0]] + rest[1..];
      assert Split(s, c) == r;
      if |rest| == 1 {
        SplitJoin(s[1..], c);
        assert rest[0] == s[1..];
        assert r[|r| - 1] == s;
      } else {
        assert r[|r| - 1] == rest[|rest| - 1];
        assert s[1..][|s| - 1 - |rest[|rest| - 1]| - 1] == c;
      }
    }
  }

  function DigitChar(d: nat): char
    requires d < 10
  {
    ('0' as int + d) as char
  }

  /** Decimal text of a natural number. */
  function NatToString(n: nat): (r: string)
    ensures |r| >= 1
    ensures forall i :: 0 <= i < |r| ==> '0' <= r[i] <= '9'
    decreases n
  {
    if n < 10 then [DigitChar(n)] else NatToString(n / 10) + [DigitChar(n % 10)]
  }

  /** `str(i)` for an integer. */
  function IntToString(i: int): (r: string)
    ensures |r| >= 1
  {
    if i < 0 then "-" + NatToString(-i) else NatToString(i)
  }

  predicate AllDigits(s: string)
  {
    forall i :: 0 <= i < |s| ==> '0' <= s[i] <= '9'
  }

  /** The value of a run of ASCII digits. */
  function DigitsValue(s: string): (v: nat)
    requires AllDigits(s)
  {
    if s == [] then 0 else DigitsValue(s[..|s| - 1]) * 10 + (s[|s| - 1] as int - '0' as int)
  }

  /** The integer text `int()` accepts after stripping: an optional sign, then one or more digits. */
  function ParseIntCore(t: string): (r: Option<int>)
  {
    if |t| >= 2 && (t[0] == '-' || t[0] == '+') && AllDigits(t[1..]) then
      var v: int := DigitsValue(t[1..]);
      Some(if t[0] == '-' then -v else v)
    else if |t| >= 1 && AllDigits(t) then Some(DigitsValue(t))
    else None
  }

  /** `int(s)` on text: surrounding whitespace is ignored; None stands for the ValueError. */
  function ParseInt(s: string): (r: Option<int>)
    ensures r.Some? ==> Strip(s) != []
  {
    ParseIntCore(Strip(s))
  }

  lemma {:induction false} NatToStringValue(n: nat)
    ensures DigitsValue(NatToString(n)) == n
    decreases n
  {
    if n >= 10 {
      NatToStringValue(n / 10);
      var s := NatToString(n / 10) + [DigitChar(n % 10)];
      assert s[..|s| - 1] == NatToString(n / 10);
    }
  }

  /** `int()` reads a run of digits as its decimal value. */
  lemma ParseDigits(d: string)
    requires |d| >= 1 && AllDigits(d)
    ensures ParseInt(d) == Some(DigitsValue(d))
  {
    assert !IsSpace(d[0]) && !IsSpace(d[|d| - 1]);
    StripOfUnspaced(d);
  }

  /** A minus sign before text that ends in a non-space character is not stripped. */
  lemma StripSigned(d: string)
    requires |d| >= 1 && !IsSpace(d[|d| - 1])
    ensures Strip("-" + d) == "-" + d
  {
    var t := "-" + d;
    assert t[|t| - 1] == d[|d| - 1];
    StripOfUnspaced(t);
  }

  lemma NegativeCore(d: string)
    requires |d| >= 1 && AllDigits(d)
    ensures ParseIntCore("-" + d) == Some(-(DigitsValue(d) as int))
  {
    assert ("-" + d)[1..] == d;
  }

  /** `int()` reads a minus sign followed by a run of digits as the negated decimal value. */
  lemma ParseNegDigits(d: string)
    requires |d| >= 1 && AllDigits(d)
    ensures ParseInt("-" + d) == Some(-(DigitsValue(d) as int))
  {
    StripSigned(d);
    NegativeCore(d);
  }

  /** `int(str(i)) == i` for a negative `i`. */
  lemma NegRoundTrip(i: int)
    requires i < 0
    ensures ParseInt(IntToString(i)) == Some(i)
  {
    var n: nat := -i;
    var d := NatToString(n);
    assert IntToString(i) == "-" + d;
    NatToStringValue(n);
    ParseNegDigits(d);
  }

  /** `int(str(i)) == i`. */
  lemma IntRoundTrip(i: int)
    ensures ParseInt(IntToString(i)) == Some(i)
  {
    if i < 0 {
      NegRoundTrip(i);
    } else {
      NatToStringValue(i);
      ParseDigits(NatToString(i));
    }
  }

  /** `repr()` of a JSON value as Python prints it (quotes inside strings are not escaped). */
  function Repr(v: Json): string
    decreases v
  {
    match v
    case Null => "None"
    case Bool(b) => if b then "True" else "False"
    case Int(i) => IntToString(i)
    case Str(s) => "'" + s + "'"
    case List(xs) => "[" + ReprItems(xs) + "]"
    case Obj(fs) => "{" + ReprFields(fs) + "}"
  }

  function ReprItems(xs: seq<Json>): string
    decreases xs
  {
    if xs == [] then "" else Repr(xs[0]) + (if |xs| > 1 then ", " else "") + ReprItems(xs[1..])
  }

  function ReprFields(fs: seq<Field>): string
    decreases fs
  {
    if fs == [] then ""
    else "'" + fs[0].key + "': " + Repr(fs[0].val) + (if |fs| > 1 then ", " else "") + ReprFields(fs[1..])
  }

  /** `str(v)` */
  function PyStr(v: Json): (r: string)
    ensures v.Str? ==> r == v.s
    ensures v.Null? ==> r == "None"
    ensures v.Bool? ==> r == (if v.b then "True" else "False")
  {
    if v.Str? then v.s else Repr(v)
  }

  /** `str(v or "")`: the text of a truthy value, else the empty string. */
  function StrOr(v: Json): (r: string)
    ensures !Truthy(v) ==> r == ""
    ensures v.Str? ==> r == v.s
  {
    if Truthy(v) then PyStr(v) else ""
  }

  /** `str(v or "").strip()`, the harness's usual way of reading a text field. */
  function Clean(v: Json): (r: string)
    ensures r == [] || (!IsSpace(r[0]) && !IsSpace(r[|r| - 1]))
    ensures v.Str? ==> r == Strip(v.s)
  {
    Strip(StrOr(v))
  }

  /** `[str(x).strip() for x in ids if str(x).strip()]`: the stripped non-blank strings, in order. */
  function CleanIds(ids: seq<string>): (r: seq<string>)
    ensures |r| <= |ids|
    ensures forall k :: 0 <= k < |r| ==> r[k] != [] && Strip(r[k]) == r[k]
  {
    if ids == [] then []
    else
      var s := Strip(ids[0]);
      StripIdempotent(ids[0]);
      (if s != [] then [s] else []) + CleanIds(ids[1..])
  }

  /** A string is kept exactly when it is the non-blank stripped form of an input. */
  lemma {:induction false} CleanIdsMember(ids: seq<string>, s: string)
    ensures s in CleanIds(ids) <==> s != [] && exists k :: 0 <= k < |ids| && Strip(ids[k]) == s
  {
    if ids != [] {
      CleanIdsMember(ids[1..], s);
      if s != [] && exists k :: 0 <= k < |ids| && Strip(ids[k]) == s {
        var k :| 0 <= k < |ids| && Strip(ids[k]) == s;
        if k > 0 {
          assert ids[1..][k - 1] == ids[k];
        }
      }
      if exists k :: 0 <= k < |ids[1..]| && Strip(ids[1..][k]) == s {
        var k :| 0 <= k < |ids[1..]| && Strip(ids[1..][k]) == s;
        assert ids[k + 1] == ids[1..][k];
      }
    }
  }
}
