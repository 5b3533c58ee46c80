/** Base-10 rendering and reading of integers, as strconv does it. Strings are byte strings. */
module Decimal {
  import opened Wrappers

  predicate IsDigit(c: char) {
    '0' <= c <= '9'
  }

  predicate AllDigits(s: string) {
    forall i :: 0 <= i < |s| ==> IsDigit(s[i])
  }

  function DigitChar(d: nat): (c: char)
    requires d < 10
    ensures IsDigit(c) && DigitValue(c) == d
  {
    '0' + d as char
  }

  function DigitValue(c: char): nat
    requires IsDigit(c)
  {
    (c - '0') as int
  }

  /** strconv.Itoa for a length. */
  function Itoa(n: nat): (s: string)
    ensures s != [] && AllDigits(s)
  {
    if n < 10 then [DigitChar(n)] else Itoa(n / 10) + [DigitChar(n % 10)]
  }

  function Value(s: string): nat
    requires AllDigits(s)
  {
    if s == [] then 0 else 10 * Value(s[..|s| - 1]) + DigitValue(s[|s| - 1])
  }

  lemma {:induction false} ValueOfItoa(n: nat)
    ensures Value(Itoa(n)) == n
  {
    if n >= 10 {
      ValueOfItoa(n / 10);
      assert Itoa(n)[..|Itoa(n)| - 1] == Itoa(n / 10);
    }
  }

  /** Positional notation, one digit at a time. */
  lemma ValueOfAppend(s: string, c: char)
    requires AllDigits(s) && '0' <= c <= '9'
    ensures AllDigits(s + [c]) && Value(s + [c]) == 10 * Value(s) + (c as int - 48)
    ensures Value([]) == 0
  {
    assert (s + [c])[..|s|] == s;
  }

  /** No leading zeros. */
  lemma {:induction false} ItoaIsCanonical(n: nat)
    ensures Itoa(n)[0] == '0' ==> Itoa(n) == "0" && n == 0
  {
    if n >= 10 {
      ItoaIsCanonical(n / 10);
      assert Itoa(n)[0] == Itoa(n / 10)[0];
    }
  }

  const MinInt64: int := -0x8000_0000_0000_0000
  const MaxInt64: int := 0x7fff_ffff_ffff_ffff

  predicate IsInt64(i: int) {
    MinInt64 <= i <= MaxInt64
  }

  /** strconv.FormatInt(i, 10). */
  function FormatInt(i: int): string {
    if i < 0 then "-" + Itoa(-i) else Itoa(i)
  }

  /** strconv.ParseInt(s, 10, 64): an optional sign, then digits, within range. */
  function ParseInt(s: string): Option<int> {
    var digits := if s != [] && (s[0] == '-' || s[0] == '+') then s[1..] else s;
    if digits == [] || !AllDigits(digits) then None else
      var v: int := Value(digits);
      var i := if s[0] == '-' then -v else v;
      if IsInt64(i) then Some(i) else None
  }

  /** Canonical: a minus sign for negative numbers only, no plus sign, no leading zeros. */
  lemma FormatIsCanonical(i: int)
    ensures var s := FormatInt(i);
            && s != [] && s[0] != '+' && (s[0] == '-' <==> i < 0)
            && (s[0] == '0' ==> s == "0") && (i < 0 ==> |s| > 1 && s[1] != '0')
  {
    ItoaIsCanonical(if i < 0 then -i else i);
  }

  /** What is read: an optional sign and at least one digit, if the number fits in 64 bits. */
  lemma ParsesSignedDigits(sign: string, digits: string)
    requires (sign == "" || sign == "+" || sign == "-") && digits != []
    requires forall k :: 0 <= k < |digits| ==> '0' <= digits[k] <= '9'
    ensures AllDigits(digits)
    ensures var v: int := Value(digits);
            var i := if sign == "-" then -v else v;
            ParseInt(sign + digits) == if -9223372036854775808 <= i <= 9223372036854775807 then Some(i) else None
  {
    if sign == "" {
      assert sign + digits == digits;
      ParsesDigits(digits);
    } else {
      assert (sign + digits)[1..] == digits;
    }
  }

  lemma ParsesDigits(digits: string)
    requires digits != [] && AllDigits(digits)
    ensures ParseInt(digits) == if IsInt64(Value(digits)) then Some(Value(digits)) else None
  {
    assert IsDigit(digits[0]);
  }

  /** Nothing else is. */
  lemma ParsesNothingElse(s: string) returns (sign: string, digits: string)
    requires ParseInt(s).Some?
    ensures sign == "" || sign == "+" || sign == "-"
    ensures s == sign + digits && digits != [] && forall k :: 0 <= k < |digits| ==> '0' <= digits[k] <= '9'
  {
    if s[0] == '-' || s[0] == '+' {
      sign, digits := s[..1], s[1..];
    } else {
      sign, digits := "", s;
    }
  }

  lemma ParseFormat(i: int)
    requires IsInt64(i)
    ensures ParseInt(FormatInt(i)) == Some(i)
  {
    ValueOfItoa(if i < 0 then -i else i);
    if i < 0 {
      assert FormatInt(i)[1..] == Itoa(-i);
    }
  }

  /** A decimal length ends at the first colon, so it can be read back off the front of any string. */
  lemma LengthHeader(a: nat, b: nat, x: string, y: string)
    requires Itoa(a) + ":" + x == Itoa(b) + ":" + y
    ensures a == b && x == y
  {
    var p, q := Itoa(a), Itoa(b);
    var whole := p + ":" + x;
    assert whole == q + ":" + y;
    assert whole[|p|] == ':' && whole[|q|] == ':';
    assert p == whole[..|p|] == q;
    assert x == whole[|p| + 1..] == y;
    ValueOfItoa(a);
    ValueOfItoa(b);
  }
}
