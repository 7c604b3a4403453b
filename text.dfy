/**
 * The pieces of Swift string interpolation the log lines are built from:
 * decimal rendering of integers and `String(repeating: "  ", count: n)`,
 * together with the parsers that read them back.
 */
module Text {

  predicate IsDigit(c: char) { '0' <= c <= '9' }

  predicate IsSpace(c: char) { c == ' ' }

  predicate AllDigits(s: string) { forall i :: 0 <= i < |s| ==> IsDigit(s[i]) }

  function DigitValue(c: char): (d: nat)
    requires IsDigit(c)
    ensures d < 10
  {
    c as int - '0' as int
  }

  function DigitChar(d: nat): (c: char)
    requires d < 10
    ensures IsDigit(c) && DigitValue(c) == d
  {
    ('0' as int + d) as char
  }

  /** Decimal text of `n` as `"\(n)"` prints it: digits only, no leading zero. */
  function NatToString(n: nat): (s: string)
    ensures 1 <= |s| && AllDigits(s)
    ensures s[0] == '0' <==> n == 0
  {
    if n < 10 then [DigitChar(n)] else NatToString(n / 10) + [DigitChar(n % 10)]
  }

  /** Reads a string of decimal digits back as a number (the empty string reads as 0). */
  function ParseNat(s: string): nat
    requires AllDigits(s)
  {
    if s == [] then 0 else 10 * ParseNat(s[..|s| - 1]) + DigitValue(s[|s| - 1])
  }

  lemma {:induction false} ParseNatOfNatToString(n: nat)
    ensures ParseNat(NatToString(n)) == n
  {
    if n >= 10 {
      var s := NatToString(n);
      assert s[..|s| - 1] == NatToString(n / 10);
      ParseNatOfNatToString(n / 10);
    }
  }

  /** Decimal text of an `Int` as `"\(i)"` prints it: a minus sign before negative values. */
  function IntToString(i: int): (s: string)
    ensures 1 <= |s|
  {
    if i < 0 then "-" + NatToString(-i) else NatToString(i)
  }

  predicate IsIntText(s: string) {
    AllDigits(s) || (1 <= |s| && s[0] == '-' && AllDigits(s[1..]))
  }

  function ParseInt(s: string): int
    requires IsIntText(s)
  {
    if 1 <= |s| && s[0] == '-' then -(ParseNat(s[1..]) as int) else ParseNat(s)
  }

  lemma ParseIntOfIntToString(i: int)
    ensures IsIntText(IntToString(i)) && ParseInt(IntToString(i)) == i
  {
    if i < 0 {
      var s := IntToString(i);
      assert s[1..] == NatToString(-i);
      ParseNatOfNatToString(-i);
    } else {
      ParseNatOfNatToString(i);
    }
  }

  /** `String(repeating: "  ", count: level)`: two spaces per level. */
  function Indent(level: nat): (s: string)
    ensures |s| == 2 * level
    ensures forall i :: 0 <= i < |s| ==> s[i] == ' '
  {
    if level == 0 then "" else "  " + Indent(level - 1)
  }

  /** The end of the longest run of characters satisfying `p` that starts at `from`. */
  function Span(s: string, from: nat, p: char -> bool): (end: nat)
    requires from <= |s|
    ensures from <= end <= |s|
    ensures forall j :: from <= j < end ==> p(s[j])
    ensures end < |s| ==> !p(s[end])
    decreases |s| - from
  {
    if from == |s| || !p(s[from]) then from else Span(s, from + 1, p)
  }

  /** A run is determined by where it starts: any end meeting Span's contract is Span's. */
  lemma SpanIs(s: string, from: nat, p: char -> bool, end: nat)
    requires from <= end <= |s|
    requires forall j :: from <= j < end ==> p(s[j])
    requires end < |s| ==> !p(s[end])
    ensures Span(s, from, p) == end
  {
  }
}
