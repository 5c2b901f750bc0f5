/** Strings as `seq<char>`: the prefix test and the decimal integer parsing that the
    experiment driver and the attention modes rely on. */
module Text {

  datatype Option<T> = None | Some(value: T)

  /** Java's 32-bit `int` range. */
  const INT_MIN: int := -0x8000_0000
  const INT_MAX: int := 0x7fff_ffff

  /** `String.startsWith`. */
  predicate StartsWith(s: string, prefix: string)
  {
    |prefix| <= |s| && s[..|prefix|] == prefix
  }

  /** A string that differs from a prefix at some position within both does not start with it. */
  lemma NotStartsWith(s: string, prefix: string, i: nat)
    requires i < |prefix| && i < |s| && s[i] != prefix[i]
    ensures !StartsWith(s, prefix)
  {
    if |prefix| <= |s| {
      assert s[..|prefix|][i] != prefix[i];
    }
  }

  predicate IsDigit(c: char)
  {
    '0' <= c <= '9'
  }

  predicate AllDigits(s: string)
  {
    forall i :: 0 <= i < |s| ==> IsDigit(s[i])
  }

  /** The value of a string of decimal digits, read most significant digit first. */
  function DigitsValue(s: string): nat
    requires AllDigits(s)
  {
    if |s| == 0 then 0
    else DigitsValue(s[..|s| - 1]) * 10 + (s[|s| - 1] as int - '0' as int)
  }

  /** `Integer.parseInt(s)` in radix 10: an optional sign followed by at least one digit, with a
      value that fits in 32 bits. `None` stands for the NumberFormatException Java throws. */
  function ParseInt(s: string): (r: Option<int>)
    ensures r.Some? ==> INT_MIN <= r.value <= INT_MAX
    ensures |s| == 0 ==> r == None
  {
    if |s| == 0 then None
    else
      var negative := s[0] == '-';
      var digits := if s[0] == '-' || s[0] == '+' then s[1..] else s;
      if |digits| == 0 || !AllDigits(digits) then None
      else
        var v: int := if negative then 0 - (DigitsValue(digits) as int) else DigitsValue(digits);
        if INT_MIN <= v <= INT_MAX then Some(v) else None
  }

  /** The decimal digits of n, without sign or leading zeros. */
  function ShowNat(n: nat): (s: string)
    ensures |s| > 0 && AllDigits(s)
    ensures n < 10 ==> |s| == 1
    ensures n >= 10 ==> |s| == |ShowNat(n / 10)| + 1
  {
    var d := ['0' + (n % 10) as char];
    if n < 10 then d else ShowNat(n / 10) + d
  }

  /** Reading back the digits ShowNat writes gives n again. */
  lemma {:induction false} DigitsValueShowNat(n: nat)
    ensures DigitsValue(ShowNat(n)) == n
  {
    var s := ShowNat(n);
    if n >= 10 {
      DigitsValueShowNat(n / 10);
      assert s[..|s| - 1] == ShowNat(n / 10);
    }
  }

  /** Integer.parseInt reads back every non-negative int that ShowNat writes. */
  lemma ParseShowNat(n: nat)
    requires n <= INT_MAX
    ensures ParseInt(ShowNat(n)) == Some(n)
  {
    DigitsValueShowNat(n);
  }

  /** Numbers from 100 to 999 take exactly three digits. */
  lemma {:induction false} ShowNatThreeDigits(n: nat)
    requires 100 <= n <= 999
    ensures |ShowNat(n)| == 3
  {
    assert |ShowNat(n / 100)| == 1;
    assert |ShowNat(n / 10)| == 2;
  }

  /** A leading '-' negates, a leading '+' is accepted, and a lone sign is rejected. */
  lemma SignedParse(n: nat)
    requires n <= INT_MAX
    ensures ParseInt("-" + ShowNat(n)) == Some(-(n as int))
    ensures ParseInt("+" + ShowNat(n)) == Some(n)
    ensures ParseInt("-") == None && ParseInt("+") == None
  {
    DigitsValueShowNat(n);
    assert ("-" + ShowNat(n))[1..] == ShowNat(n);
    assert ("+" + ShowNat(n))[1..] == ShowNat(n);
  }
}
