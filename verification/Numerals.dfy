/** Numerals in base 10 and 16: what the printers write and the parsers read. */
module Numerals {

  datatype Parsed = NoData | InvalidData | Value(v: int)

  const DIGITS := "0123456789abcdef"

  function Digit(d: nat): char
    requires d < 16
  {
    DIGITS[d]
  }

  predicate IsBase(base: nat) { base == 10 || base == 16 }

  /** Quotient and remainder; the base is a constant in either case. */
  function Quot(base: nat, n: nat): (q: nat)
    requires IsBase(base)
    ensures n > 0 ==> q < n
    ensures q == 0 <==> n < base
  {
    if base == 10 then n / 10 else n / 16
  }

  function Rem(base: nat, n: nat): (d: nat)
    requires IsBase(base)
    ensures d < base
    ensures n < base ==> d == n
  {
    if base == 10 then n % 10 else n % 16
  }

  lemma QuotRem(base: nat, n: nat)
    requires IsBase(base)
    ensures n == Quot(base, n) * base + Rem(base, n)
  {
  }

  /** Lower case, without leading zeros. */
  function Numeral(base: nat, n: nat): (s: string)
    requires IsBase(base)
    ensures s != ""
    decreases n
  {
    (if n < base then "" else Numeral(base, Quot(base, n))) + [Digit(Rem(base, n))]
  }

  /** The digits of m are produced from the last one on: `rest` is there, those of n are to come. */
  predicate Pending(base: nat, n: nat, rest: string, m: nat)
    requires IsBase(base)
  {
    (if n == 0 then rest else Numeral(base, n) + rest) == Numeral(base, m)
  }

  lemma PendingStart(base: nat, m: nat, rest: string)
    requires IsBase(base) && rest == if m == 0 then "0" else ""
    ensures Pending(base, m, rest, m)
  {
  }

  lemma PendingDone(base: nat, rest: string, m: nat)
    requires IsBase(base) && Pending(base, 0, rest, m)
    ensures rest == Numeral(base, m)
  {
  }

  lemma NumeralStep(base: nat, n: nat)
    requires IsBase(base)
    ensures Numeral(base, n) == (if n < base then "" else Numeral(base, Quot(base, n))) + [Digit(Rem(base, n))]
    ensures n < base <==> Quot(base, n) == 0
  {
  }

  lemma MoveDigit(a: string, d: char, rest: string)
    ensures (a + [d]) + rest == a + ([d] + rest)
    ensures a == "" ==> (a + [d]) + rest == [d] + rest
    ensures |rest| < |(a + [d]) + rest|
  {
  }

  lemma PendingNext(base: nat, n: nat, rest: string, m: nat)
    requires IsBase(base) && n > 0 && Pending(base, n, rest, m)
    ensures |rest| < |Numeral(base, m)| && Pending(base, Quot(base, n), [Digit(Rem(base, n))] + rest, m)
  {
    NumeralStep(base, n);
    hide Numeral, Digit, Quot, Rem;
    MoveDigit(if n < base then "" else Numeral(base, Quot(base, n)), Digit(Rem(base, n)), rest);
  }

  /** The value of a digit; -1 for anything else. Base 16 takes both cases. */
  function DigitValue(base: nat, c: char): (d: int)
    requires IsBase(base)
    ensures -1 <= d < base
  {
    if '0' <= c <= '9' then c as int - '0' as int
    else if base == 16 && 'a' <= c <= 'f' then c as int - 'a' as int + 10
    else if base == 16 && 'A' <= c <= 'F' then c as int - 'A' as int + 10
    else -1
  }

  predicate AllDigits(base: nat, s: string)
    requires IsBase(base)
  {
    forall i :: 0 <= i < |s| ==> DigitValue(base, s[i]) >= 0
  }

  /** The number that a string of digits denotes. */
  function Denoted(base: nat, s: string): (v: nat)
    requires IsBase(base) && AllDigits(base, s)
  {
    if s == "" then 0
    else
      assert AllDigits(base, s[..|s| - 1]);
      Denoted(base, s[..|s| - 1]) * base + DigitValue(base, s[|s| - 1])
  }

  lemma DigitRound(base: nat, d: nat)
    requires IsBase(base) && d < base
    ensures DigitValue(base, Digit(d)) == d
  {
  }

  /** A numeral denotes its number. */
  lemma {:induction false} NumeralDenotes(base: nat, n: nat)
    requires IsBase(base)
    ensures AllDigits(base, Numeral(base, n)) && Denoted(base, Numeral(base, n)) == n
    decreases n
  {
    var s := if n < base then "" else Numeral(base, Quot(base, n));
    NumeralStep(base, n);
    if n >= base {
      NumeralDenotes(base, Quot(base, n));
    }
    DigitRound(base, Rem(base, n));
    QuotRem(base, n);
    hide Numeral, Digit, Quot, Rem;
    DenotedNext(base, s, Digit(Rem(base, n)));
  }

  lemma DenotedNext(base: nat, s: string, c: char)
    requires IsBase(base) && AllDigits(base, s) && DigitValue(base, c) >= 0
    ensures AllDigits(base, s + [c]) && Denoted(base, s + [c]) == Denoted(base, s) * base + DigitValue(base, c)
  {
    assert (s + [c])[..|s|] == s;
  }

  function Power(base: nat, k: nat): nat {
    if k == 0 then 1 else base * Power(base, k - 1)
  }

  lemma Regroup(x: nat, y: nat, z: nat)
    ensures x * (y * z) == (x * y) * z
  {
  }

  lemma {:induction false} PowerSum(base: nat, a: nat, b: nat)
    ensures Power(base, a + b) == Power(base, a) * Power(base, b)
  {
    if a > 0 {
      PowerSum(base, a - 1, b);
      Regroup(base, Power(base, a - 1), Power(base, b));
    }
  }

  /** Nineteen decimal digits are enough below 2^63, and sixteen hexadecimal ones below 2^64. */
  lemma WordPowers()
    ensures Power(10, 19) > 0x8000_0000_0000_0000 && Power(16, 16) == 0x1_0000_0000_0000_0000
  {
    assert Power(10, 2) == 100 && Power(10, 3) == 1000;
    PowerSum(10, 2, 2);
    PowerSum(10, 4, 4);
    PowerSum(10, 8, 8);
    PowerSum(10, 16, 3);
    assert Power(16, 2) == 256;
    PowerSum(16, 2, 2);
    PowerSum(16, 4, 4);
    PowerSum(16, 8, 8);
  }

  /** Numbers below base^k have at most k digits. */
  lemma {:induction false} NumeralFits(base: nat, n: nat, k: nat)
    requires IsBase(base) && k >= 1 && n < Power(base, k)
    ensures |Numeral(base, n)| <= k
    decreases k
  {
    if n >= base {
      assert k > 1;
      QuotRem(base, n);
      assert Quot(base, n) < Power(base, k - 1);
      NumeralFits(base, Quot(base, n), k - 1);
    }
  }

  lemma {:induction false} DenotedBound(base: nat, s: string)
    requires IsBase(base) && AllDigits(base, s)
    ensures Denoted(base, s) < Power(base, |s|)
  {
    if s != "" {
      var a := s[..|s| - 1];
      assert AllDigits(base, a);
      DenotedBound(base, a);
      assert Denoted(base, a) * base + base <= Power(base, |a|) * base;
    }
  }

  /** Leaving out the last digit does not make a number larger. */
  lemma OneDigitMore(base: nat, t: string)
    requires IsBase(base) && t != "" && AllDigits(base, t)
    ensures AllDigits(base, t[..|t| - 1]) && Denoted(base, t[..|t| - 1]) <= Denoted(base, t)
  {
  }

  /** A longer string of digits denotes no smaller number. */
  lemma {:induction false} PrefixSmaller(base: nat, s: string, i: nat)
    requires IsBase(base) && AllDigits(base, s) && i <= |s|
    ensures AllDigits(base, s[..i]) && Denoted(base, s[..i]) <= Denoted(base, s)
    decreases |s| - i
  {
    if i == |s| {
      assert s[..i] == s;
    } else {
      var t := s[..i + 1];
      PrefixSmaller(base, s, i + 1);
      assert t[..|t| - 1] == s[..i];
      OneDigitMore(base, t);
    }
  }

  /** The decimal notation of an integer. */
  function Decimal(n: int): string {
    if n < 0 then "-" + Numeral(10, -n) else Numeral(10, n)
  }

  /** What the decimal parser makes of a string. */
  function Atoi(s: string): Parsed {
    if s == "" then NoData
    else if s[0] == '-' then
      if |s| < 2 || !AllDigits(10, s[1..]) then InvalidData else Value(-(Denoted(10, s[1..]) as int))
    else if AllDigits(10, s) then Value(Denoted(10, s))
    else InvalidData
  }

  function Hextoi(s: string): Parsed {
    if s == "" then NoData else if AllDigits(16, s) then Value(Denoted(16, s)) else InvalidData
  }

  // Signed words of 64 bits

  const LEAST: int := -0x8000_0000_0000_0000

  predicate IsWord(n: int) { LEAST <= n < 0x8000_0000_0000_0000 }

  /** The signed word with the last 64 bits of n. */
  function Wrap(n: int): (w: int)
    ensures IsWord(w)
    ensures IsWord(n) ==> w == n
  {
    (n - LEAST) % 0x1_0000_0000_0000_0000 + LEAST
  }

  /** A multiple of 2^64 is lost. */
  lemma WrapOff(n: int, k: int)
    ensures Wrap(n + k * 0x1_0000_0000_0000_0000) == Wrap(n)
  {
    var q := (n - LEAST) / 0x1_0000_0000_0000_0000;
    var q' := (n + k * 0x1_0000_0000_0000_0000 - LEAST) / 0x1_0000_0000_0000_0000;
    assert (q + k - q') * 0x1_0000_0000_0000_0000
        == (n + k * 0x1_0000_0000_0000_0000 - LEAST) % 0x1_0000_0000_0000_0000
         - (n - LEAST) % 0x1_0000_0000_0000_0000;
  }

  /** One more digit behind a wrapped value gives what it gives behind the value itself. */
  lemma WrapNext(base: nat, n: int, d: int)
    requires IsBase(base)
    ensures Wrap(Wrap(n) * base + d) == Wrap(n * base + d)
  {
    var k := (n - LEAST) / 0x1_0000_0000_0000_0000;
    assert Wrap(n) == n - k * 0x1_0000_0000_0000_0000;
    WrapOff(n * base + d, -k * base);
  }

  lemma LeastNegated()
    ensures Wrap(-LEAST) == LEAST
  {
  }

  lemma WrapNegated(n: int)
    ensures Wrap(-Wrap(n)) == Wrap(-n)
  {
    var k := (n - LEAST) / 0x1_0000_0000_0000_0000;
    assert Wrap(n) == n - k * 0x1_0000_0000_0000_0000;
    WrapOff(-n, k);
  }

  /** A parsed number, held in a signed word. */
  function AsWord(p: Parsed): Parsed {
    if p.Value? then Value(Wrap(p.v)) else p
  }

  /** What printing a digit below zero writes: the character as far below '0'. */
  function Below(c: char): char {
    if '0' <= c <= '9' then ('0' as int + '0' as int - c as int) as char else c
  }

  function AllBelow(s: string): (t: string)
    ensures |t| == |s| && forall i :: 0 <= i < |s| ==> t[i] == Below(s[i])
  {
    seq(|s|, i requires 0 <= i < |s| => Below(s[i]))
  }

  /** What add_number writes: the least word has no positive counterpart, and its digits are not digits. */
  function Written(n: int): string {
    if n == LEAST then "-" + AllBelow(Numeral(10, -LEAST)) else Decimal(n)
  }

  /** Every word but the least is read back as it was written. */
  lemma WrittenIff(n: int)
    requires IsWord(n)
    ensures AsWord(Atoi(Written(n))) == Value(n) <==> n != LEAST
    ensures n == LEAST ==> Atoi(Written(n)) == InvalidData
  {
    if n == LEAST {
      var s := Written(n);
      LeastEight();
      assert s[1..] == AllBelow(Numeral(10, -LEAST));
      var last := |s[1..]| - 1;
      assert DigitValue(10, s[1..][last]) < 0;
    } else {
      AtoiDecimal(n);
    }
  }

  lemma LeastEight()
    ensures |Numeral(10, -LEAST)| > 0 && Numeral(10, -LEAST)[|Numeral(10, -LEAST)| - 1] == '8'
  {
    NumeralStep(10, -LEAST);
    hide Numeral;
    assert Rem(10, -LEAST) == 8;
  }

  /** A word of 64 bits, written in hexadecimal, is read as the signed word of the same bits. */
  lemma HexBits(n: nat)
    requires n < 0x1_0000_0000_0000_0000
    ensures AsWord(Hextoi(Numeral(16, n))) == Value(if n < -LEAST then n else n - 0x1_0000_0000_0000_0000)
  {
    HextoiNumeral(n);
    hide Numeral, Hextoi;
    WrapOff(n - 0x1_0000_0000_0000_0000, 1);
  }

  /** The decimal parser inverts the decimal printer. */
  lemma AtoiDecimal(n: int)
    ensures Atoi(Decimal(n)) == Value(n)
  {
    var m: nat := if n < 0 then -n else n;
    NumeralDenotes(10, m);
    AtoiDigits(Numeral(10, m), n < 0);
    hide Numeral, Denoted, Atoi;
  }

  lemma AtoiDigits(s: string, negative: bool)
    requires s != "" && AllDigits(10, s)
    ensures if negative then Atoi("-" + s) == Value(-(Denoted(10, s) as int)) else Atoi(s) == Value(Denoted(10, s))
  {
    hide Denoted;
    assert ("-" + s)[1..] == s;
    assert DigitValue(10, s[0]) >= 0;
  }

  /** The hexadecimal parser inverts the hexadecimal printer. */
  lemma HextoiNumeral(n: nat)
    ensures Hextoi(Numeral(16, n)) == Value(n)
  {
    NumeralDenotes(16, n);
  }
}
