/** Decimal text of integers: strconv.FormatInt(n, 10) and strconv.ParseInt(s, 10, 64). */
module Decimal {
  import opened Options

  const INT64_MIN: int := -0x8000_0000_0000_0000
  const INT64_MAX: int := 0x7fff_ffff_ffff_ffff

  predicate IsInt64(n: int) {
    INT64_MIN <= n <= INT64_MAX
  }

  predicate IsDigit(c: char) {
    '0' <= c <= '9'
  }

  predicate AllDigits(s: string) {
    forall i | 0 <= i < |s| :: IsDigit(s[i])
  }

  function DigitChar(d: nat): (c: char)
    requires d < 10
    ensures IsDigit(c) && DigitValue(c) == d
  {
    '0' + d as char
  }

  function DigitValue(c: char): (d: nat)
    requires IsDigit(c)
    ensures d < 10
  {
    c as int - '0' as int
  }

  function FormatNat(n: nat): (s: string)
    ensures s != [] && AllDigits(s)
  {
    if n < 10 then [DigitChar(n)] else FormatNat(n / 10) + [DigitChar(n % 10)]
  }

  function FormatInt(n: int): string {
    if n < 0 then "-" + FormatNat(-n) else FormatNat(n)
  }

  function NatValue(digits: string): nat
    requires AllDigits(digits)
  {
    if digits == [] then 0
    else 10 * NatValue(digits[..|digits| - 1]) + DigitValue(digits[|digits| - 1])
  }

  /** A sign is optional, at least one digit is needed, and the value must fit 64 bits. */
  function ParseInt64(s: string): Option<int> {
    if s == [] then None
    else
      var digits := if s[0] == '+' || s[0] == '-' then s[1..] else s;
      if digits == [] || !AllDigits(digits) then None
      else
        var magnitude: int := NatValue(digits);
        var n := if s[0] == '-' then -magnitude else magnitude;
        if IsInt64(n) then Some(n) else None
  }

  lemma {:induction false} NatValueOfFormat(n: nat)
    ensures NatValue(FormatNat(n)) == n
  {
    if n < 10 {
    } else {
      NatValueOfFormat(n / 10);
      var s := FormatNat(n);
      assert s[..|s| - 1] == FormatNat(n / 10);
    }
  }

  lemma ParseOfDigits(digits: string, negative: bool)
    requires digits != [] && AllDigits(digits)
    ensures var magnitude: int := NatValue(digits);
            var n := if negative then -magnitude else magnitude;
            ParseInt64(if negative then "-" + digits else digits) == if IsInt64(n) then Some(n) else None
  {
    if negative {
      assert ("-" + digits)[1..] == digits;
    } else {
      assert IsDigit(digits[0]);
    }
  }

  /** What FormatInt prints, ParseInt64 reads back. */
  lemma ParseOfFormat(n: int)
    requires IsInt64(n)
    ensures ParseInt64(FormatInt(n)) == Some(n)
  {
    var magnitude := if n < 0 then -n else n;
    NatValueOfFormat(magnitude);
    ParseOfDigits(FormatNat(magnitude), n < 0);
  }

  function Pow10(n: nat): (p: nat)
    ensures p > 0
  {
    if n == 0 then 1 else 10 * Pow10(n - 1)
  }

  lemma Regroup(a: nat, p: nat, b: nat)
    ensures 10 * (a * p + b) == a * (10 * p) + 10 * b
  {
  }

  /** The place value of decimal digits. */
  lemma {:induction false} NatValueConcat(a: string, b: string)
    requires AllDigits(a) && AllDigits(b)
    ensures AllDigits(a + b) && NatValue(a + b) == NatValue(a) * Pow10(|b|) + NatValue(b)
  {
    if b == "" {
      assert a + b == a;
    } else {
      var init, whole := b[..|b| - 1], a + b;
      assert whole[..|whole| - 1] == a + init && whole[|whole| - 1] == b[|b| - 1];
      NatValueConcat(a, init);
      Regroup(NatValue(a), Pow10(|init|), NatValue(init));
    }
  }

  /** A plus sign makes no difference, and nothing but an optional sign and digits is read. */
  lemma ParseAcceptsOnly(s: string)
    ensures s != "" && AllDigits(s) ==> ParseInt64("+" + s) == ParseInt64(s)
    ensures s in {"", "+", "-"} ==> ParseInt64(s) == None
    ensures (exists i | 0 <= i < |s| :: !IsDigit(s[i]) && (i > 0 || (s[0] != '+' && s[0] != '-')))
            ==> ParseInt64(s) == None
  {
    assert ("+" + s)[1..] == s;
    if i :| 0 <= i < |s| && !IsDigit(s[i]) && (i > 0 || (s[0] != '+' && s[0] != '-')) {
      if s[0] == '+' || s[0] == '-' {
        assert s[1..][i - 1] == s[i];
      }
    }
  }
}
