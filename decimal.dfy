/** Unsigned decimal numerals: Go's strconv.Itoa, `%d`, and the digit check of strconv.ParseUint. */
module Decimal {
  import opened Base

  predicate IsDigits(ds: seq<int>)
  {
    forall i :: 0 <= i < |ds| ==> 0 <= ds[i] < 10
  }

  /** The number denoted by a most-significant-first digit sequence. */
  function Value(ds: seq<int>): nat
    requires IsDigits(ds)
    decreases |ds|
  {
    if ds == [] then 0 else Value(ds[..|ds| - 1]) * 10 + ds[|ds| - 1]
  }

  /** The shortest digit sequence of `n`: one digit for 0, otherwise no leading zero. */
  function Digits(n: nat): (ds: seq<int>)
    ensures 1 <= |ds| && IsDigits(ds)
    ensures |ds| > 1 ==> ds[0] != 0
    ensures Value(ds) == n
    decreases n
  {
    if n < 10 then [n]
    else
      var front := Digits(n / 10);
      var ds := front + [n % 10];
      assert ds[..|ds| - 1] == front;
      ds
  }

  predicate IsDigitChar(c: char)
  {
    '0' as int <= c as int <= '9' as int
  }

  /** A nonempty string made only of the ASCII digits 0-9. */
  predicate IsNumeral(s: string)
  {
    |s| >= 1 && forall i :: 0 <= i < |s| ==> IsDigitChar(s[i])
  }

  function DigitValues(s: string): (ds: seq<int>)
    requires forall i :: 0 <= i < |s| ==> IsDigitChar(s[i])
    ensures |ds| == |s| && IsDigits(ds)
  {
    var ds := seq(|s|, i requires 0 <= i < |s| => s[i] as int - '0' as int);
    assert forall i :: 0 <= i < |s| ==> IsDigitChar(s[i]) && ds[i] == s[i] as int - '0' as int;
    ds
  }

  /** Decimal text of `n`, as strconv.Itoa and `%d` print it. */
  function Format(n: nat): (s: string)
    ensures IsNumeral(s)
    ensures |s| > 1 ==> s[0] != '0'
  {
    var ds := Digits(n);
    seq(|ds|, i requires 0 <= i < |ds| => ('0' as int + ds[i]) as char)
  }

  /** The digits Format prints denote `n`. */
  lemma FormatValue(n: nat)
    ensures Value(DigitValues(Format(n))) == n
  {
    assert DigitValues(Format(n)) == Digits(n);
  }

  /** Decimal text of `n` as ASCII bytes. */
  function FormatBytes(n: nat): (b: seq<byte>)
    ensures |b| == |Format(n)|
    ensures forall i :: 0 <= i < |b| ==> b[i] == Format(n)[i] as int
  {
    var s := Format(n);
    seq(|s|, i requires 0 <= i < |s| => s[i] as int)
  }

  /** The value of a decimal numeral with any number of leading zeros; None for anything else. */
  function Parse(s: string): (r: Option<nat>)
    ensures r.Some? <==> IsNumeral(s)
    ensures r.Some? ==> r.value == Value(DigitValues(s))
  {
    if IsNumeral(s) then Some(Value(DigitValues(s))) else None
  }

  /** Parsing what Format prints gives the number back. */
  lemma ParseFormat(n: nat)
    ensures Parse(Format(n)) == Some(n)
  {
    FormatValue(n);
  }

  /** Leading zeros do not change the value of a numeral. */
  lemma {:induction false} LeadingZero(s: string)
    requires IsNumeral(s)
    ensures IsNumeral("0" + s) && Value(DigitValues("0" + s)) == Value(DigitValues(s))
  {
    var t := "0" + s;
    assert DigitValues(t) == [0] + DigitValues(s);
    ZeroPrefix(DigitValues(s));
  }

  lemma {:induction false} ZeroPrefix(ds: seq<int>)
    requires IsDigits(ds)
    ensures IsDigits([0] + ds) && Value([0] + ds) == Value(ds)
    decreases |ds|
  {
    if ds != [] {
      var front := ds[..|ds| - 1];
      assert ([0] + ds)[..|ds|] == [0] + front;
      ZeroPrefix(front);
    }
  }
}
