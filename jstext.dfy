/**
 * The JavaScript built-ins on strings that the client relies on: white
 * space as Number and parseInt skip it, writing an integer as text,
 * String.prototype.indexOf / includes / replace with a string pattern, and
 * parseInt without a radix argument.
 */
module JsText {
  import opened Primitives

  /** The white space and line terminators JavaScript trims. */
  predicate IsJsSpace(c: char) {
    c == ' ' || c == '\t' || c == '\n' || c == '\r' || c == '\U{000B}' || c == '\U{000C}'
    || c == '\U{00A0}' || c == '\U{1680}' || ('\U{2000}' <= c <= '\U{200A}')
    || c == '\U{2028}' || c == '\U{2029}' || c == '\U{202F}' || c == '\U{205F}'
    || c == '\U{3000}' || c == '\U{FEFF}'
  }

  /** Every character of s is white space. */
  predicate AllSpace(s: string) {
    forall i :: 0 <= i < |s| ==> IsJsSpace(s[i])
  }

  /** The string without its leading white space. */
  function TrimStart(s: string): (t: string)
    ensures |t| <= |s| && t == s[|s| - |t|..]
    ensures t == [] || !IsJsSpace(t[0])
    ensures AllSpace(s[..|s| - |t|])
  {
    if s != [] && IsJsSpace(s[0]) then TrimStart(s[1..]) else s
  }

  /** The string without its trailing white space. */
  function TrimEnd(s: string): (t: string)
    ensures |t| <= |s| && t == s[..|t|]
    ensures t == [] || !IsJsSpace(t[|t| - 1])
    ensures AllSpace(s[|t|..])
  {
    if s != [] && IsJsSpace(s[|s| - 1]) then TrimEnd(s[..|s| - 1]) else s
  }

  // ---------------------------------------------------------------------
  // Numbers as text
  // ---------------------------------------------------------------------

  function DigitChar(d: nat): (c: char)
    requires d < 10
    ensures '0' <= c <= '9' && c as int - '0' as int == d
  {
    "0123456789"[d]
  }

  /** The decimal text of a natural number, without leading zeros. */
  function NatText(n: nat): (s: string)
    ensures |s| >= 1
    ensures forall i :: 0 <= i < |s| ==> '0' <= s[i] <= '9'
  {
    if n < 10 then [DigitChar(n)] else NatText(n / 10) + [DigitChar(n % 10)]
  }

  /** String(n) for an integer n. */
  function IntText(n: int): (s: string)
    ensures |s| >= 1
  {
    if n < 0 then "-" + NatText(-n) else NatText(n)
  }

  /** The value of a character as a digit in the given radix, None when it is not one. */
  function DigitValue(c: char, radix: nat): (r: Option<nat>)
    ensures r.Some? ==> r.value < radix
  {
    var v: int :=
      if '0' <= c <= '9' then c as int - '0' as int
      else if 'a' <= c <= 'z' then c as int - 'a' as int + 10
      else if 'A' <= c <= 'Z' then c as int - 'A' as int + 10
      else 36;
    if v < radix then Some(v) else None
  }

  /** The longest prefix made of digits in the radix. */
  function DigitRun(s: string, radix: nat): (r: string)
    ensures |r| <= |s| && r == s[..|r|]
    ensures |r| < |s| ==> DigitValue(s[|r|], radix).None?
    ensures forall i :: 0 <= i < |r| ==> DigitValue(r[i], radix).Some?
  {
    if s != [] && DigitValue(s[0], radix).Some? then [s[0]] + DigitRun(s[1..], radix) else []
  }

  /** The number a run of digits denotes, most significant first. */
  function RunValue(ds: string, radix: nat): int {
    if ds == [] then 0
    else
      var last := DigitValue(ds[|ds| - 1], radix);
      RunValue(ds[..|ds| - 1], radix) * radix + (if last.Some? then last.value else 0)
  }

  /**
   * parseInt(s) with no radix: skip white space, take one sign, read "0x"
   * or "0X" as hexadecimal, then the longest run of digits; None stands for
   * NaN, when there is no digit.
   */
  function ParseInt(s: string): (r: Option<int>)
    ensures r.None? <==> DigitRun(ParseBody(s), ParseRadix(s)) == []
  {
    var run := DigitRun(ParseBody(s), ParseRadix(s));
    if run == [] then None
    else if Negative(s) then Some(-RunValue(run, ParseRadix(s)))
    else Some(RunValue(run, ParseRadix(s)))
  }

  /** The first character after the white space is a minus sign. */
  predicate Negative(s: string) {
    var t := TrimStart(s);
    t != [] && t[0] == '-'
  }

  /** What parseInt reads after the white space and the sign. */
  function Unsigned(s: string): string {
    var t := TrimStart(s);
    if t != [] && (t[0] == '-' || t[0] == '+') then t[1..] else t
  }

  function ParseRadix(s: string): nat {
    var u := Unsigned(s);
    if |u| >= 2 && u[0] == '0' && (u[1] == 'x' || u[1] == 'X') then 16 else 10
  }

  function ParseBody(s: string): string {
    var u := Unsigned(s);
    if ParseRadix(s) == 16 then u[2..] else u
  }

  /** A run of decimal digits is read whole. */
  lemma {:induction false} DigitsRunWhole(s: string)
    requires forall i :: 0 <= i < |s| ==> '0' <= s[i] <= '9'
    ensures DigitRun(s, 10) == s
    decreases |s|
  {
    if s != [] {
      DigitsRunWhole(s[1..]);
    }
  }

  /** The decimal text of n denotes n. */
  lemma {:induction false} NatTextValue(n: nat)
    ensures RunValue(NatText(n), 10) == n
    decreases n
  {
    if n >= 10 {
      var s := NatText(n);
      assert s[..|s| - 1] == NatText(n / 10);
      NatTextValue(n / 10);
    }
  }

  /** A string with no leading white space is its own TrimStart. */
  lemma TrimStartNoSpace(s: string)
    requires s != [] && !IsJsSpace(s[0])
    ensures TrimStart(s) == s
  {
  }

  /** What follows an optional minus sign in front of decimal digits. */
  lemma SignedDigitsParts(s: string, digits: string, negative: bool)
    requires digits != [] && forall i :: 0 <= i < |digits| ==> '0' <= digits[i] <= '9'
    requires s == (if negative then "-" + digits else digits)
    ensures Unsigned(s) == digits && Negative(s) == negative
  {
    if negative {
      assert s[0] == '-';
      assert s[1..] == digits;
    } else {
      assert '0' <= s[0] <= '9';
    }
    TrimStartNoSpace(s);
  }

  /** Decimal digits after the sign are read in radix 10, all of them. */
  lemma DecimalBody(s: string)
    requires Unsigned(s) != [] && forall i :: 0 <= i < |Unsigned(s)| ==> '0' <= Unsigned(s)[i] <= '9'
    ensures ParseRadix(s) == 10 && DigitRun(ParseBody(s), ParseRadix(s)) == Unsigned(s)
  {
    var u := Unsigned(s);
    assert |u| >= 2 ==> '0' <= u[1] <= '9';
    DigitsRunWhole(u);
  }

  /** parseInt of a string whose unsigned part is decimal digits. */
  lemma ParseDecimal(s: string)
    requires Unsigned(s) != [] && forall i :: 0 <= i < |Unsigned(s)| ==> '0' <= Unsigned(s)[i] <= '9'
    ensures ParseInt(s) == Some(if Negative(s) then -RunValue(Unsigned(s), 10) else RunValue(Unsigned(s), 10))
  {
    DecimalBody(s);
    ParseRun(s, Unsigned(s));
  }

  /** parseInt reads back what String wrote: the round trip of an integer through text. */
  lemma ParseIntText(n: int)
    ensures ParseInt(IntText(n)) == Some(n)
  {
    var m: nat := if n < 0 then -n else n;
    NatTextValue(m);
    SignedDigitsParts(IntText(n), NatText(m), n < 0);
    ParseDecimal(IntText(n));
  }

  /** A run of decimal digits followed by a non-digit is read up to that character. */
  lemma {:induction false} DigitRunStops(ds: string, rest: string)
    requires forall i :: 0 <= i < |ds| ==> '0' <= ds[i] <= '9'
    requires rest != [] && DigitValue(rest[0], 10).None?
    ensures DigitRun(ds + rest, 10) == ds
    decreases |ds|
  {
    if ds == [] {
      assert ds + rest == rest;
    } else {
      assert (ds + rest)[1..] == ds[1..] + rest;
      DigitRunStops(ds[1..], rest);
    }
  }

  /** What follows an optional minus sign in front of decimal digits and more text. */
  lemma SignedDigitsThen(s: string, digits: string, rest: string, negative: bool)
    requires digits != [] && forall i :: 0 <= i < |digits| ==> '0' <= digits[i] <= '9'
    requires s == (if negative then "-" + digits else digits) + rest
    ensures Unsigned(s) == digits + rest && Negative(s) == negative
  {
    if negative {
      assert s[0] == '-';
      assert s[1..] == digits + rest;
    } else {
      assert s[0] == digits[0];
    }
    TrimStartNoSpace(s);
  }

  /** Decimal digits and then a character other than x are read in radix 10. */
  lemma DecimalThen(s: string, digits: string, rest: string)
    requires digits != [] && forall i :: 0 <= i < |digits| ==> '0' <= digits[i] <= '9'
    requires rest != [] && rest[0] != 'x' && rest[0] != 'X'
    requires Unsigned(s) == digits + rest
    ensures ParseRadix(s) == 10 && ParseBody(s) == digits + rest
  {
    var u := digits + rest;
    if |digits| >= 2 { assert u[1] == digits[1]; } else { assert u[1] == rest[0]; }
  }

  /** parseInt of signed decimal digits followed by a character that ends the run. */
  lemma ParseDigitsThen(s: string, digits: string, rest: string, negative: bool)
    requires digits != [] && forall i :: 0 <= i < |digits| ==> '0' <= digits[i] <= '9'
    requires rest != [] && !('0' <= rest[0] <= '9') && rest[0] != 'x' && rest[0] != 'X'
    requires s == (if negative then "-" + digits else digits) + rest
    ensures ParseInt(s) == Some(if negative then -RunValue(digits, 10) else RunValue(digits, 10))
  {
    SignedDigitsThen(s, digits, rest, negative);
    DecimalThen(s, digits, rest);
    DigitRunStops(digits, rest);
    ParseRun(s, digits);
  }

  /** parseInt of a decimal text is the value of its run of digits, negated after a minus. */
  lemma ParseRun(s: string, digits: string)
    requires digits != [] && ParseRadix(s) == 10 && DigitRun(ParseBody(s), ParseRadix(s)) == digits
    ensures ParseInt(s) == Some(if Negative(s) then -RunValue(digits, 10) else RunValue(digits, 10))
  {
  }

  /**
   * parseInt reads String(n) back from the front of a longer text, when
   * the text goes on with a character that is neither a digit nor an x.
   */
  lemma TextThenSuffix(n: int, rest: string)
    requires rest != [] && !('0' <= rest[0] <= '9') && rest[0] != 'x' && rest[0] != 'X'
    ensures ParseInt(IntText(n) + rest) == Some(n)
  {
    var m: nat := if n < 0 then -n else n;
    NatTextValue(m);
    ParseDigitsThen(IntText(n) + rest, NatText(m), rest, n < 0);
  }

  // ---------------------------------------------------------------------
  // Searching
  // ---------------------------------------------------------------------

  /** The pattern occurs in s at position k. */
  predicate MatchAt(s: string, p: string, k: int) {
    0 <= k && k + |p| <= |s| && s[k..k + |p|] == p
  }

  /** s.indexOf(p): the first position where p occurs, None for -1. */
  function IndexOf(s: string, p: string): (r: Option<nat>)
    ensures r.Some? ==> MatchAt(s, p, r.value)
    decreases |s|
  {
    if |s| < |p| then None
    else if s[..|p|] == p then Some(0)
    else match IndexOf(s[1..], p)
      case None => None
      case Some(k) =>
        assert s[1..][k..k + |p|] == s[k + 1..k + 1 + |p|];
        Some(k + 1)
  }

  /** indexOf finds the first occurrence, and finds none only when there is none. */
  lemma {:induction false} IndexOfFirst(s: string, p: string)
    ensures IndexOf(s, p).Some? ==> forall j :: 0 <= j < IndexOf(s, p).value ==> !MatchAt(s, p, j)
    ensures IndexOf(s, p).None? ==> forall j :: !MatchAt(s, p, j)
    decreases |s|
  {
    if |s| < |p| {
    } else if s[..|p|] == p {
    } else {
      IndexOfFirst(s[1..], p);
      forall j | MatchAt(s, p, j) && (IndexOf(s, p).None? || j < IndexOf(s, p).value)
        ensures false
      {
        assert j != 0;
        assert s[1..][j - 1..j - 1 + |p|] == s[j..j + |p|];
        assert MatchAt(s[1..], p, j - 1);
      }
    }
  }

  /** s.includes(p). */
  predicate Includes(s: string, p: string) {
    IndexOf(s, p).Some?
  }

  /** includes holds exactly when the pattern occurs somewhere. */
  lemma IncludesIff(s: string, p: string)
    ensures Includes(s, p) <==> exists k :: MatchAt(s, p, k)
  {
    IndexOfFirst(s, p);
  }

  /** s.replace(p, replacement) with a string pattern: only the first occurrence is replaced. */
  function ReplaceFirst(s: string, p: string, replacement: string): (r: string)
    ensures IndexOf(s, p).None? ==> r == s
    ensures IndexOf(s, p).Some? ==>
      var k := IndexOf(s, p).value;
      && |r| == |s| - |p| + |replacement|
      && r[..k] == s[..k] && r[k..k + |replacement|] == replacement && r[k + |replacement|..] == s[k + |p|..]
  {
    match IndexOf(s, p)
    case None => s
    case Some(k) => s[..k] + replacement + s[k + |p|..]
  }

  /** A string that starts with the pattern loses exactly that prefix. */
  lemma ReplacePrefix(p: string, rest: string)
    ensures ReplaceFirst(p + rest, p, "") == rest
  {
    assert (p + rest)[..|p|] == p;
    assert (p + rest)[|p|..] == rest;
  }
}
