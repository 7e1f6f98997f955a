/**
 * Python's rendering of the values the tools print: decimal integers (`str(int)`),
 * `str(bool)`, the repr of a list of integers, and `sep.join(parts)`.
 * Each renderer comes with a parser, and a lemma that parsing undoes rendering.
 */
module Text {
  import opened Wrappers

  predicate IsDigit(c: char) { '0' <= c <= '9' }

  predicate AllDigits(s: string) { forall k :: 0 <= k < |s| ==> IsDigit(s[k]) }

  function Digit(d: nat): (c: char)
    requires d < 10
    ensures IsDigit(c) && c as int - '0' as int == d
  {
    ('0' as int + d) as char
  }

  /** Decimal digits of `n`, most significant first, without leading zeros. */
  function NatToString(n: nat): (s: string)
    ensures |s| > 0 && AllDigits(s)
    ensures s[0] == '0' ==> n == 0
  {
    if n < 10 then [Digit(n)] else NatToString(n / 10) + [Digit(n % 10)]
  }

  /** `str(i)` for a Python int: a minus sign for negative values, then the digits. */
  function IntToString(i: int): (s: string)
    ensures |s| > 0
    ensures s[0] == '-' <==> i < 0
  {
    if i < 0 then "-" + NatToString(-i) else NatToString(i)
  }

  /** `str(b)` for a Python bool. */
  function BoolToString(b: bool): (s: string)
    ensures s == "True" || s == "False"
    ensures (s == "True") == b
  {
    if b then "True" else "False"
  }

  function DigitsValue(s: string): nat
    requires AllDigits(s)
  {
    if s == [] then 0 else DigitsValue(s[..|s| - 1]) * 10 + (s[|s| - 1] as int - '0' as int)
  }

  /** Reads a non-empty string of decimal digits. */
  function ParseNat(s: string): (r: Option<nat>)
    ensures r.Some? <==> s != [] && AllDigits(s)
  {
    if s != [] && AllDigits(s) then Some(DigitsValue(s)) else None
  }

  /** Reads an optional minus sign followed by decimal digits. */
  function ParseInt(s: string): Option<int>
  {
    if |s| > 0 && s[0] == '-' then
      match ParseNat(s[1..])
      case Some(n) => var v: int := n; Some(-v)
      case None => None
    else
      match ParseNat(s)
      case Some(n) => Some(n)
      case None => None
  }

  lemma {:induction false} DigitsValueOfNatToString(n: nat)
    ensures DigitsValue(NatToString(n)) == n
  {
    if n >= 10 {
      var s := NatToString(n);
      DigitsValueOfNatToString(n / 10);
      assert s[..|s| - 1] == NatToString(n / 10);
    }
  }

  lemma ParseNatOfNatToString(n: nat)
    ensures ParseNat(NatToString(n)) == Some(n)
  {
    DigitsValueOfNatToString(n);
  }

  /** Parsing undoes `str(int)`. */
  lemma ParseIntOfIntToString(i: int)
    ensures ParseInt(IntToString(i)) == Some(i)
  {
    if i < 0 {
      ParseNatOfNatToString(-i);
      assert IntToString(i)[1..] == NatToString(-i);
    } else {
      ParseNatOfNatToString(i);
    }
  }

  /** Distinct integers print differently. */
  lemma IntToStringInjective(a: int, b: int)
    requires IntToString(a) == IntToString(b)
    ensures a == b
  {
    ParseIntOfIntToString(a);
    ParseIntOfIntToString(b);
  }

  /** The characters of `str(i)` are a sign and digits only. */
  lemma IntToStringChars(i: int)
    ensures forall k :: 0 <= k < |IntToString(i)| ==> IsDigit(IntToString(i)[k]) || IntToString(i)[k] == '-'
  {
  }

  /** `sep.join(parts)`: the parts with `sep` between neighbours. */
  function Join(sep: string, parts: seq<string>): string
  {
    if |parts| == 0 then "" else if |parts| == 1 then parts[0] else parts[0] + sep + Join(sep, parts[1..])
  }

  /** `s.split(c)` for a one-character separator. */
  function Split(s: string, c: char): (parts: seq<string>)
    ensures |parts| > 0
  {
    if s == [] then [""]
    else
      var rest := Split(s[1..], c);
      if s[0] == c then [""] + rest else [[s[0]] + rest[0]] + rest[1..]
  }

  lemma {:induction false} SplitWithout(p: string, c: char)
    requires c !in p
    ensures Split(p, c) == [p]
  {
    if p != [] {
      SplitWithout(p[1..], c);
      assert [p[0]] + p[1..] == p;
    }
  }

  lemma {:induction false} SplitAt(p: string, t: string, c: char)
    requires c !in p
    ensures Split(p + [c] + t, c) == [p] + Split(t, c)
  {
    if p == [] {
      assert p + [c] + t == [c] + t;
      assert ([c] + t)[1..] == t;
    } else {
      var s := p + [c] + t;
      assert s[1..] == p[1..] + [c] + t;
      SplitAt(p[1..], t, c);
      assert [p[0]] + p[1..] == p;
    }
  }

  predicate FreeOf(parts: seq<string>, c: char)
  {
    forall k :: 0 <= k < |parts| ==> c !in parts[k]
  }

  /** Splitting on the separator recovers the joined parts, when no part contains it. */
  lemma {:induction false} SplitJoin(parts: seq<string>, c: char)
    requires |parts| > 0 && FreeOf(parts, c)
    ensures Split(Join([c], parts), c) == parts
  {
    if |parts| == 1 {
      SplitWithout(parts[0], c);
    } else {
      SplitJoin(parts[1..], c);
      SplitAt(parts[0], Join([c], parts[1..]), c);
      assert [parts[0]] + parts[1..] == parts;
    }
  }

  /** The decimal strings of a list of integers. */
  function IntStrings(xs: seq<int>): (r: seq<string>)
    ensures |r| == |xs|
    ensures forall k :: 0 <= k < |xs| ==> r[k] == IntToString(xs[k])
  {
    if xs == [] then [] else [IntToString(xs[0])] + IntStrings(xs[1..])
  }

  /** `repr(xs)` for a Python list of ints, e.g. `[1, 3, 5]`. */
  function PyIntList(xs: seq<int>): string
  {
    "[" + Join(", ", IntStrings(xs)) + "]"
  }

  /** Reads the items of a list between its brackets, split at the commas. */
  function ParseItems(pieces: seq<string>, first: bool): Option<seq<int>>
  {
    if pieces == [] then Some([])
    else
      var item := if first then pieces[0] else if |pieces[0]| > 0 && pieces[0][0] == ' ' then pieces[0][1..] else "!";
      match ParseInt(item)
      case None => None
      case Some(x) =>
        match ParseItems(pieces[1..], false)
        case None => None
        case Some(rest) => Some([x] + rest)
  }

  /** Reads back the repr of a list of ints. */
  function ParseIntList(s: string): Option<seq<int>>
  {
    if |s| >= 2 && s[0] == '[' && s[|s| - 1] == ']' then
      var inner := s[1..|s| - 1];
      if inner == "" then Some([]) else ParseItems(Split(inner, ','), true)
    else None
  }

  /** Each item after the first, with the space that follows its comma. */
  function Spaced(ps: seq<string>): (r: seq<string>)
    ensures |r| == |ps|
  {
    if ps == [] then [] else [" " + ps[0]] + Spaced(ps[1..])
  }

  lemma {:induction false} JoinCommaSpace(ps: seq<string>)
    requires |ps| > 0
    ensures Join(", ", ps) == Join(",", [ps[0]] + Spaced(ps[1..]))
  {
    if |ps| > 1 {
      JoinCommaSpace(ps[1..]);
      var tail := ps[1..];
      assert [tail[0]] + Spaced(tail[1..]) == [tail[0]] + Spaced(ps[2..]);
      assert Spaced(tail) == [" " + tail[0]] + Spaced(tail[1..]);
      var q := [ps[0]] + Spaced(tail);
      assert q[1..] == Spaced(tail);
      assert Join(",", Spaced(tail)) == " " + Join(",", [tail[0]] + Spaced(tail[1..])) by {
        JoinSpacedHead(tail);
      }
    }
  }

  lemma {:induction false} JoinSpacedHead(ps: seq<string>)
    requires |ps| > 0
    ensures Join(",", Spaced(ps)) == " " + Join(",", [ps[0]] + Spaced(ps[1..]))
  {
    var r := Spaced(ps);
    var q := [ps[0]] + Spaced(ps[1..]);
    assert r == [" " + ps[0]] + Spaced(ps[1..]);
    if |ps| > 1 {
      assert r[1..] == Spaced(ps[1..]) == q[1..];
      var j := Join(",", Spaced(ps[1..]));
      assert Join(",", r) == (" " + ps[0]) + "," + j;
      assert Join(",", q) == ps[0] + "," + j;
      assert (" " + ps[0]) + "," + j == " " + (ps[0] + "," + j);
    } else {
      assert r == [" " + ps[0]];
      assert q == [ps[0]];
    }
  }

  lemma {:induction false} SpacedFree(ps: seq<string>, c: char)
    requires FreeOf(ps, c) && c != ' '
    ensures FreeOf(Spaced(ps), c)
  {
    if ps != [] {
      SpacedFree(ps[1..], c);
    }
  }

  lemma {:induction false} ParseItemsSpaced(xs: seq<int>)
    ensures ParseItems(Spaced(IntStrings(xs)), false) == Some(xs)
  {
    if xs != [] {
      var ps := Spaced(IntStrings(xs));
      assert IntStrings(xs)[1..] == IntStrings(xs[1..]);
      assert ps[0] == " " + IntToString(xs[0]);
      assert ps[0][1..] == IntToString(xs[0]);
      assert ps[1..] == Spaced(IntStrings(xs[1..]));
      ParseIntOfIntToString(xs[0]);
      ParseItemsSpaced(xs[1..]);
      assert [xs[0]] + xs[1..] == xs;
    }
  }

  lemma IntStringsFreeOfComma(xs: seq<int>)
    ensures FreeOf(IntStrings(xs), ',')
  {
    forall k | 0 <= k < |xs| ensures ',' !in IntStrings(xs)[k] {
      IntToStringChars(xs[k]);
    }
  }

  /** Parsing undoes the repr of an int list. */
  lemma ParseIntListOfPyIntList(xs: seq<int>)
    ensures ParseIntList(PyIntList(xs)) == Some(xs)
  {
    var s := PyIntList(xs);
    var inner := Join(", ", IntStrings(xs));
    assert s[1..|s| - 1] == inner;
    if xs != [] {
      var ps := IntStrings(xs);
      var pieces := [ps[0]] + Spaced(ps[1..]);
      JoinCommaSpace(ps);
      IntStringsFreeOfComma(xs);
      assert ps[1..] == IntStrings(xs[1..]);
      assert FreeOf(ps[1..], ',');
      SpacedFree(ps[1..], ',');
      assert FreeOf(pieces, ',');
      SplitJoin(pieces, ',');
      assert inner != "" by {
        assert |Join(",", pieces)| >= |pieces[0]| > 0 by { JoinLength(",", pieces); }
      }
      ParseIntOfIntToString(xs[0]);
      ParseItemsSpaced(xs[1..]);
      assert pieces[1..] == Spaced(IntStrings(xs[1..]));
      assert [xs[0]] + xs[1..] == xs;
    }
  }

  lemma JoinLength(sep: string, parts: seq<string>)
    requires |parts| > 0
    ensures |Join(sep, parts)| >= |parts[0]|
  {
  }
}
