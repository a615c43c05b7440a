/** The small string conversions the builder relies on: ASCII case folding
    (alias keys, `Boolean.valueOf`), comma splitting with the JDK's rule for
    trailing empty pieces (`stringSetValueOf`), decimal 32-bit integer parsing
    (`integerValueOf`) and the simple name of a qualified class name. */
module Text {
  import opened Failures

  function LowerChar(c: char): char {
    if 'A' <= c <= 'Z' then (c as int + 32) as char else c
  }

  /** Lower-cases the ASCII letters of `s` and leaves every other character alone. */
  function Lower(s: string): (r: string)
    ensures |r| == |s|
    ensures forall i :: 0 <= i < |s| ==> r[i] == LowerChar(s[i])
  {
    seq(|s|, i requires 0 <= i < |s| => LowerChar(s[i]))
  }

  /** `Boolean.valueOf(s)`: true exactly when `s` spells "true" in any letter case. */
  predicate IsTrueIgnoringCase(s: string) {
    Lower(s) == "true"
  }

  /** The value of the `booleanValueOf(value, default)` helper: the default for
      null, otherwise whether the text is "true" compared letter by letter
      without regard to case. */
  function BooleanValueOf(value: Option<string>, default: bool): (b: bool)
    ensures value.None? ==> b == default
    ensures value.Some? ==>
              (b <==> |value.value| == 4 && forall i :: 0 <= i < 4 ==> LowerChar(value.value[i]) == "true"[i])
  {
    match value
    case None => default
    case Some(s) => IsTrueIgnoringCase(s)
  }

  // ---------------------------------------------------------------------
  // Splitting on commas

  /** The comma-separated pieces of `s`, empty pieces included. */
  function Pieces(s: string): (r: seq<string>)
    ensures |r| >= 1
  {
    if s == [] then [""]
    else
      var rest := Pieces(s[1..]);
      if s[0] == ',' then [""] + rest else [[s[0]] + rest[0]] + rest[1..]
  }

  /** The inverse of `Pieces`: the pieces glued back with commas. */
  function Join(ps: seq<string>): string
    requires |ps| >= 1
  {
    if |ps| == 1 then ps[0] else ps[0] + "," + Join(ps[1..])
  }

  predicate CommaFree(s: string) {
    forall i :: 0 <= i < |s| ==> s[i] != ','
  }

  /** Gluing pieces back with commas restores the string. */
  lemma {:induction false} JoinPieces(s: string)
    ensures Join(Pieces(s)) == s
  {
    if s != [] {
      JoinPieces(s[1..]);
      var rest := Pieces(s[1..]);
      if s[0] == ',' {
        assert Pieces(s) == [""] + rest;
      } else {
        JoinExtendsFirst(s[0], rest);
      }
      assert s == [s[0]] + s[1..];
    }
  }

  lemma JoinExtendsFirst(c: char, ps: seq<string>)
    requires |ps| >= 1
    ensures Join([[c] + ps[0]] + ps[1..]) == [c] + Join(ps)
  {
    var qs := [[c] + ps[0]] + ps[1..];
    assert qs[0] == [c] + ps[0];
    if |ps| > 1 {
      assert qs[1..] == ps[1..];
      ConcatAssoc([c], ps[0], Join(ps[1..]));
    }
  }

  lemma ConcatAssoc(x: string, y: string, t: string)
    ensures (x + y) + "," + t == x + (y + "," + t)
  {
  }

  /** No piece contains a comma. */
  lemma {:induction false} PiecesCommaFree(s: string)
    ensures forall p :: p in Pieces(s) ==> CommaFree(p)
  {
    if s != [] {
      PiecesCommaFree(s[1..]);
      var rest := Pieces(s[1..]);
      if s[0] != ',' {
        assert rest[0] in rest;
        assert forall p :: p in Pieces(s) ==> p == [s[0]] + rest[0] || p in rest;
      }
    }
  }

  lemma {:induction false} PiecesOfJoin(ps: seq<string>)
    requires |ps| >= 1
    requires forall p :: p in ps ==> CommaFree(p)
    ensures Pieces(Join(ps)) == ps
  {
    if |ps| == 1 {
      PiecesOfCommaFree(ps[0]);
    } else {
      PiecesOfJoin(ps[1..]);
      PiecesPrefix(ps[0], Join(ps[1..]));
      assert ps == [ps[0]] + ps[1..];
    }
  }

  lemma {:induction false} PiecesOfCommaFree(s: string)
    requires CommaFree(s)
    ensures Pieces(s) == [s]
  {
    if s != [] {
      PiecesOfCommaFree(s[1..]);
      assert [s[0]] + s[1..] == s;
    }
  }

  /** Splitting `a + "," + b` for a comma-free `a` gives `a` followed by the pieces of `b`. */
  lemma {:induction false} PiecesPrefix(a: string, b: string)
    requires CommaFree(a)
    ensures Pieces(a + "," + b) == [a] + Pieces(b)
  {
    if a == [] {
      assert a + "," + b == [','] + b;
      assert ([','] + b)[1..] == b;
    } else {
      PiecesPrefix(a[1..], b);
      assert (a + "," + b)[1..] == a[1..] + "," + b;
      assert [a[0]] + a[1..] == a;
    }
  }

  /** Drops the empty strings at the end of `ps`. */
  function DropTrailingEmpty(ps: seq<string>): (r: seq<string>)
    ensures |r| <= |ps| && r == ps[..|r|]
    ensures r == [] || r[|r| - 1] != ""
    ensures forall k :: |r| <= k < |ps| ==> ps[k] == ""
  {
    if ps == [] then []
    else if ps[|ps| - 1] == "" then DropTrailingEmpty(ps[..|ps| - 1])
    else ps
  }

  /** `s.split(",")` of the JDK: a string without a comma is its own single piece;
      otherwise the pieces lose their trailing empty strings. */
  function JavaSplit(s: string): (r: seq<string>)
    ensures forall p :: p in r ==> CommaFree(p)
  {
    PiecesCommaFree(s);
    if CommaFree(s) then [s] else DropTrailingEmpty(Pieces(s))
  }

  /** Splitting a comma-joined list of comma-free names whose last name is not
      empty gives the list back. */
  lemma SplitOfJoin(ps: seq<string>)
    requires |ps| >= 1 && ps[|ps| - 1] != ""
    requires forall p :: p in ps ==> CommaFree(p)
    ensures JavaSplit(Join(ps)) == ps
  {
    if |ps| >= 2 {
      PiecesOfJoin(ps);
      assert Join(ps)[|ps[0]|] == ',';
    } else {
      assert ps[0] in ps;
    }
  }

  /** The value of `stringSetValueOf(value, default)`: the comma-separated names
      of the value, or of the default when the value is null. */
  function StringSetValueOf(value: Option<string>, default: string): (r: set<string>)
    ensures forall p :: p in r ==> CommaFree(p)
    ensures CommaFree(value.GetOr(default)) ==> r == {value.GetOr(default)}
  {
    set p | p in JavaSplit(value.GetOr(default))
  }

  // ---------------------------------------------------------------------
  // Integers

  predicate IsDigit(c: char) {
    '0' <= c <= '9'
  }

  predicate AllDigits(s: string) {
    forall i :: 0 <= i < |s| ==> IsDigit(s[i])
  }

  function DigitsValue(s: string): nat
    requires AllDigits(s)
  {
    if s == [] then 0 else DigitsValue(s[..|s| - 1]) * 10 + (s[|s| - 1] as int - '0' as int)
  }

  const MinInt: int := -0x8000_0000
  const MaxInt: int := 0x7FFF_FFFF

  /** `s` without its leading sign, if it has one. */
  function Unsigned(s: string): (r: string)
    ensures |r| <= |s| && r == s[|s| - |r|..]
  {
    if |s| > 0 && (s[0] == '-' || s[0] == '+') then s[1..] else s
  }

  /** The value a signed digit string spells: its digits' value, negated after a minus. */
  function Signed(s: string): int
    requires AllDigits(Unsigned(s))
  {
    if |s| > 0 && s[0] == '-' then 0 - DigitsValue(Unsigned(s)) as int else DigitsValue(Unsigned(s))
  }

  /** `Integer.valueOf(s)` on ASCII input: an optional sign, at least one digit,
      and a value that fits in 32 bits; anything else has no value. */
  function ParseInt(s: string): (r: Option<int>)
    ensures r.Some? ==> MinInt <= r.value <= MaxInt
    ensures r.Some? ==> Unsigned(s) != [] && AllDigits(Unsigned(s))
    ensures r.Some? ==> DigitsValue(Unsigned(s)) == (if s[0] == '-' then -r.value else r.value)
    ensures Unsigned(s) == [] || !AllDigits(Unsigned(s)) ==> r.None?
    ensures Unsigned(s) != [] && AllDigits(Unsigned(s)) ==>
              r == (if MinInt <= Signed(s) <= MaxInt then Some(Signed(s)) else None)
  {
    var negative := |s| > 0 && s[0] == '-';
    var digits := Unsigned(s);
    if digits == [] || !AllDigits(digits) then None
    else
      var v: int := if negative then 0 - DigitsValue(digits) as int else DigitsValue(digits);
      if MinInt <= v <= MaxInt then Some(v) else None
  }

  /** The decimal spelling of `n`, the reference for `ParseInt`. */
  function Decimal(n: nat): (r: string)
    ensures |r| >= 1 && AllDigits(r)
  {
    var d := ['0' + (n % 10) as char];
    if n < 10 then d else Decimal(n / 10) + d
  }

  lemma {:induction false} DigitsValueOfDecimal(n: nat)
    ensures DigitsValue(Decimal(n)) == n
  {
    var d := ['0' + (n % 10) as char];
    if n >= 10 {
      DigitsValueOfDecimal(n / 10);
      var s := Decimal(n / 10) + d;
      assert s[..|s| - 1] == Decimal(n / 10);
    }
  }

  /** Parsing the decimal spelling of a number gives it back, with either sign,
      exactly when the signed value fits in 32 bits; beyond that there is no value. */
  lemma ParseDecimal(n: nat)
    ensures n <= MaxInt ==> ParseInt(Decimal(n)) == Some(n) && ParseInt("+" + Decimal(n)) == Some(n)
    ensures n > MaxInt ==> ParseInt(Decimal(n)).None? && ParseInt("+" + Decimal(n)).None?
    ensures n <= -MinInt ==> ParseInt("-" + Decimal(n)) == Some(-(n as int))
    ensures n > -MinInt ==> ParseInt("-" + Decimal(n)).None?
  {
    DigitsValueOfDecimal(n);
    var d := Decimal(n);
    assert ParseInt(d) == (if n <= MaxInt then Some(n as int) else None) by {
      assert IsDigit(d[0]);
      ParseSigned(d, n);
    }
    assert ParseInt("+" + d) == (if n <= MaxInt then Some(n as int) else None) by {
      assert ("+" + d)[1..] == d;
      ParseSigned("+" + d, n);
    }
    assert ParseInt("-" + d) == (if n <= -MinInt then Some(-(n as int)) else None) by {
      assert ("-" + d)[1..] == d;
      ParseSigned("-" + d, n);
    }
  }

  /** Leading zeros and a plus sign are accepted, and minus zero is zero. */
  lemma ParseIntExamples()
    ensures ParseInt("007") == Some(7)
    ensures ParseInt("+0042") == Some(42)
    ensures ParseInt("-00") == Some(0)
  {
    assert ParseInt("007") == Some(7) by {
      assert "007"[..2] == "00" && "00"[..1] == "0" && "0"[..0] == "";
      assert DigitsValue("007") == 7;
    }
    assert ParseInt("+0042") == Some(42) by {
      assert "+0042"[1..] == "0042";
      assert "0042"[..3] == "004" && "004"[..2] == "00" && "00"[..1] == "0" && "0"[..0] == "";
      assert DigitsValue("0042") == 42;
    }
    assert ParseInt("-00") == Some(0) by {
      assert "-00"[1..] == "00";
      assert "00"[..1] == "0" && "0"[..0] == "";
      assert DigitsValue("00") == 0;
    }
  }

  lemma ParseSigned(s: string, n: nat)
    requires Unsigned(s) == Decimal(n) && DigitsValue(Decimal(n)) == n
    ensures |s| > 0 && s[0] == '-' ==> ParseInt(s) == (if n <= -MinInt then Some(-(n as int)) else None)
    ensures !(|s| > 0 && s[0] == '-') ==> ParseInt(s) == (if n <= MaxInt then Some(n as int) else None)
  {
  }

  // ---------------------------------------------------------------------
  // Class names

  /** The part of a qualified class name after its last dot. */
  function SimpleName(qualified: string): (r: string)
    ensures '.' !in r
    ensures |r| <= |qualified| && r == qualified[|qualified| - |r|..]
  {
    if qualified == [] || qualified[|qualified| - 1] == '.' then []
    else SimpleName(qualified[..|qualified| - 1]) + [qualified[|qualified| - 1]]
  }

  /** The simple name is the whole last segment: either the name has no dot at
      all, or the character just before the simple name is a dot. */
  lemma {:induction false} SimpleNameIsLastSegment(qualified: string)
    ensures var r := SimpleName(qualified);
      |r| == |qualified| || qualified[|qualified| - |r| - 1] == '.'
  {
    if qualified != [] && qualified[|qualified| - 1] != '.' {
      SimpleNameIsLastSegment(qualified[..|qualified| - 1]);
    }
  }
}
