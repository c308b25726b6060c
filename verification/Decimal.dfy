/** Decimal text: `std::to_string` of an unsigned integer and the chat client's `parse_uint64`
    (src/GaudereChat.cpp). */
module Decimal {
  import opened Base

  const UINT64_DIGITS := 20

  predicate Digit(c: char) {
    '0' <= c <= '9'
  }

  predicate AllDigits(s: string) {
    forall i :: 0 <= i < |s| ==> Digit(s[i])
  }

  function DigitValue(c: char): nat
    requires Digit(c)
  {
    c as int - '0' as int
  }

  function DigitChar(d: nat): char
    requires d < 10
  {
    ('0' as int + d) as char
  }

  /** The number a digit string denotes. */
  function Value(s: string): nat
    requires AllDigits(s)
  {
    if s == "" then 0 else 10 * Value(s[..|s| - 1]) + DigitValue(s[|s| - 1])
  }

  /** `std::to_string`. */
  function Dec(n: nat): (s: string)
    ensures s != "" && AllDigits(s)
  {
    if n < 10 then [DigitChar(n)] else Dec(n / 10) + [DigitChar(n % 10)]
  }

  lemma {:induction false} ValueOfDec(n: nat)
    ensures Value(Dec(n)) == n
  {
    if n >= 10 {
      var s := Dec(n);
      assert s[..|s| - 1] == Dec(n / 10) && s[|s| - 1] == DigitChar(n % 10);
      ValueOfDec(n / 10);
    } else {
      assert Dec(n)[..0] == "";
    }
  }

  lemma DecIsInjective(m: nat, n: nat)
    requires Dec(m) == Dec(n)
    ensures m == n
  {
    ValueOfDec(m);
    ValueOfDec(n);
  }

  lemma {:induction false} ValueGrows(s: string, k: nat)
    requires AllDigits(s) && k <= |s|
    ensures Value(s[..k]) <= Value(s)
    decreases |s| - k
  {
    if k == |s| {
      assert s[..k] == s;
    } else {
      assert s[..k + 1][..k] == s[..k];
      ValueGrows(s, k + 1);
    }
  }

  function Pow10(n: nat): nat {
    if n == 0 then 1 else 10 * Pow10(n - 1)
  }

  lemma {:induction false} DecLength(n: nat, k: nat)
    requires k >= 1 && n < Pow10(k)
    ensures |Dec(n)| <= k
  {
    if n >= 10 {
      DecLength(n / 10, k - 1);
    }
  }

  /** `parse_uint64`: exactly the digit strings of 1 to 20 characters whose value fits an unsigned 64-bit word. */
  method ParseUint64(value: string) returns (r: Option<U64>)
    ensures r.Some? <==> 0 < |value| <= UINT64_DIGITS && AllDigits(value) && Value(value) <= UINT64_MAX
    ensures r.Some? ==> r.value == Value(value)
  {
    if value == "" || |value| > UINT64_DIGITS {
      return None;
    }
    var out: U64 := 0;
    var i := 0;
    while i < |value|
      invariant 0 <= i <= |value|
      invariant AllDigits(value[..i]) && out == Value(value[..i])
    {
      var c := value[i];
      if !Digit(c) {
        return None;
      }
      var digit := DigitValue(c);
      assert value[..i + 1][..i] == value[..i];
      assert AllDigits(value[..i + 1]) && Value(value[..i + 1]) == 10 * out + digit;
      if out > (UINT64_MAX - digit) / 10 {
        if AllDigits(value) {
          ValueGrows(value, i + 1);
        }
        return None;
      }
      out := out * 10 + digit;
      i := i + 1;
    }
    assert value[..|value|] == value;
    return Some(out);
  }

  /** Every 64-bit number survives printing and parsing. */
  lemma PrintedNumbersParse(n: U64)
    ensures 0 < |Dec(n)| <= UINT64_DIGITS && AllDigits(Dec(n)) && Value(Dec(n)) == n <= UINT64_MAX
  {
    ValueOfDec(n);
    assert Pow10(20) == 100_000_000_000_000_000_000 by {
      assert Pow10(5) == 100_000;
      assert Pow10(10) == 10_000_000_000;
      assert Pow10(15) == 1_000_000_000_000_000;
    }
    DecLength(n, 20);
  }
}
