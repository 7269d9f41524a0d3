/** Rendering of unsigned numbers as text: base 16 as C++ stream `std::hex`
    formatting writes an address (lower-case digits, no prefix, "0" for zero),
    and base 10 as Python's `str` writes an integer. Both are shown injective
    by parsing the text back. */
module Numerals {

  /** Bases the probes use. */
  type Base = b: nat | b == 10 || b == 16 witness 10

  const DigitChars: string := "0123456789abcdef"

  /** Lower-case digit characters of base 16 and below. */
  predicate IsDigit(c: char) {
    '0' <= c <= '9' || 'a' <= c <= 'f'
  }

  /** The character for digit `d` (lower case for 10..15). */
  function DigitChar(d: nat): (c: char)
    requires d < 16
    ensures IsDigit(c) && DigitValue(c) == d
  {
    DigitChars[d]
  }

  /** The value of a digit character, the inverse of DigitChar. */
  function DigitValue(c: char): nat {
    if '0' <= c <= '9' then (c as int - '0' as int) as nat
    else if 'a' <= c <= 'f' then (c as int - 'a' as int + 10) as nat
    else 0
  }

  /** Digits of `n` in base `b`, most significant first, with no leading zero. */
  function ToBase(n: nat, b: Base): (s: string)
    ensures |s| >= 1
    ensures forall i :: 0 <= i < |s| ==> IsDigit(s[i])
    ensures forall i :: 0 <= i < |s| ==> DigitValue(s[i]) < b
    ensures |s| > 1 ==> s[0] != '0'
    ensures s == "0" <==> n == 0
    decreases n
  {
    if n < b then [DigitChar(n)] else ToBase(n / b, b) + [DigitChar(n % b)]
  }

  /** Reads a digit string in base `b` (most significant digit first). */
  function FromBase(s: string, b: Base): nat
    decreases |s|
  {
    if s == [] then 0 else FromBase(s[..|s| - 1], b) * b + DigitValue(s[|s| - 1])
  }

  lemma DigitRoundTrip(d: nat)
    requires d < 16
    ensures DigitValue(DigitChar(d)) == d
  {
  }

  /** Parsing the rendering gives the number back. */
  lemma {:induction false} RoundTrip(n: nat, b: Base)
    ensures FromBase(ToBase(n, b), b) == n
    decreases n
  {
    var s := ToBase(n, b);
    if n < b {
      DigitRoundTrip(n);
      assert s[..|s| - 1] == [];
    } else {
      RoundTrip(n / b, b);
      DigitRoundTrip(n % b);
      assert s[..|s| - 1] == ToBase(n / b, b);
    }
  }

  /** Distinct numbers have distinct renderings. */
  lemma Injective(m: nat, n: nat, b: Base)
    requires ToBase(m, b) == ToBase(n, b)
    ensures m == n
  {
    RoundTrip(m, b);
    RoundTrip(n, b);
  }

  /** An address as `std::hex` writes it. */
  function Hex(n: nat): (s: string)
    ensures |s| >= 1 && '&' !in s
    ensures s == "0" <==> n == 0
  {
    ToBase(n, 16)
  }

  /** A natural number as Python's `str` writes it. */
  function Dec(n: nat): (s: string)
    ensures |s| >= 1 && '-' !in s
    ensures s == "0" <==> n == 0
  {
    ToBase(n, 10)
  }

  /** Distinct naturals have distinct decimal renderings. */
  lemma DecInjective(m: nat, n: nat)
    requires Dec(m) == Dec(n)
    ensures m == n
  {
    assert ToBase(m, 10) == ToBase(n, 10);
    Injective(m, n, 10);
  }

  /** An integer as Python's `str` writes it: a minus sign before a negative. */
  function IntToString(i: int): (s: string)
    ensures i < 0 <==> (|s| > 0 && s[0] == '-')
  {
    if i < 0 then "-" + Dec(-i) else Dec(i)
  }

  /** Distinct integers have distinct renderings: the sign shows in the
      first character and the digits are injective. */
  lemma IntToStringInjective(i: int, j: int)
    requires IntToString(i) == IntToString(j)
    ensures i == j
  {
    var s := IntToString(i);
    if i < 0 && j < 0 {
      assert Dec(-i) == s[1..] == Dec(-j);
      DecInjective(-i, -j);
    } else if i >= 0 && j >= 0 {
      DecInjective(i, j);
    }
  }
}
