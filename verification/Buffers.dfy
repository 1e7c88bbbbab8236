/** The growable byte buffer, the numbers printed into it, and the parsers that read them back. */
module Buffers {
  import opened Numerals

  /** Bytes are characters below 256; comparisons see them as signed. */
  function Signed(c: char): int {
    if c as int < 128 then c as int else c as int - 256
  }

  // Capacities

  /** The sizes a buffer may have: 16 doubling up to 4096, then multiples of 4096. */
  predicate Rung(cap: nat) {
    cap in {16, 32, 64, 128, 256, 512, 1024, 2048} || (cap > 0 && cap % 4096 == 0)
  }

  /** _get_cap: the least rung that is not below the request. */
  method GetCap(size: nat) returns (cap: nat)
    ensures Rung(cap) && size <= cap
    ensures forall r: nat :: Rung(r) && size <= r ==> cap <= r
  {
    cap := 16;
    var step := 16;
    while cap < size
      invariant Rung(cap)
      invariant step == (if cap < 4096 then cap else 4096)
      invariant forall r: nat :: Rung(r) && size <= r ==> cap <= r
      decreases size - cap
    {
      NextRung(cap);
      cap := cap + step;
      if step < 4096 { step := step * 2; }
    }
  }

  lemma NextRung(cap: nat)
    requires Rung(cap)
    ensures var next := cap + if cap < 4096 then cap else 4096;
      Rung(next) && forall r: nat :: Rung(r) && cap < r ==> next <= r
  {
  }

  /** memmove into an array: the bytes land at `at`, behind what is already there. */
  method CopyIn(to: array<char>, at: nat, data: string)
    requires at + |data| <= to.Length
    modifies to
    ensures to[..at + |data|] == old(to[..at]) + data
  {
    var i := 0;
    while i < |data|
      invariant i <= |data| && to[..at + i] == old(to[..at]) + data[..i]
    {
      to[at + i] := data[i];
      i := i + 1;
    }
    assert data[..i] == data;
  }

  /** A reference to bytes, possibly none at all. */
  datatype Slice = Null | Slice(data: string)

  class Buffer {
    var ptr: array?<char>
    var size: nat
    var cap: nat

    ghost predicate Valid()
      reads this, ptr
    {
      size <= cap && (ptr == null ==> cap == 0) && (ptr != null ==> ptr.Length == cap && Rung(cap))
    }

    ghost function Contents(): string
      requires Valid()
      reads this, ptr
    {
      if ptr == null then "" else ptr[..size]
    }

    constructor ()
      ensures Valid() && Contents() == "" && ptr == null
    {
      ptr, size, cap := null, 0, 0;
    }

    /** resize: room for `capacity` bytes; the contents stay. */
    method Resize(capacity: nat)
      requires Valid()
      modifies this
      ensures Valid() && ptr != null && capacity <= cap && size == old(size) && Contents() == old(Contents())
      ensures old(ptr) != null && capacity <= old(cap) ==> ptr == old(ptr)
      ensures ptr == old(ptr) || fresh(ptr)
      ensures ptr != old(ptr) ==> forall r: nat :: Rung(r) && capacity <= r ==> cap <= r
    {
      if ptr == null {
        cap := GetCap(capacity);
        ptr := new char[cap];
      } else if capacity > cap {
        cap := GetCap(capacity);
        var p := new char[cap];
        CopyIn(p, 0, ptr[..size]);
        ptr := p;
      }
    }

    /** Appends bytes; appending nothing-at-all throws and changes nothing. */
    method Add(s: Slice) returns (ok: bool)
      requires Valid()
      modifies this, ptr
      ensures Valid() && ok == s.Slice?
      ensures Contents() == if ok then old(Contents()) + s.data else old(Contents())
      ensures ptr == old(ptr) || fresh(ptr)
      ensures !ok || (old(ptr) != null && old(size) + |s.data| <= old(cap)) ==> ptr == old(ptr)
    {
      if s.Null? { return false; }
      Resize(size + |s.data|);
      hide Rung;
      CopyIn(ptr, size, s.data);
      size := size + |s.data|;
      ok := true;
    }

    /** remove_left: drops the first n bytes, all of them if there are fewer. */
    method RemoveLeft(n: int)
      requires Valid()
      modifies this, ptr
      ensures Valid() && ptr == old(ptr) && cap == old(cap)
      ensures Contents() == if n <= 0 then old(Contents()) else if old(size) <= n then "" else old(Contents())[n..]
    {
      if n <= 0 { return; }
      if size <= n {
        size := 0;
      } else {
        size := size - n;
        ghost var was := old(ptr[..size]);
        var i := 0;
        while i < size
          invariant i <= size && ptr == old(ptr) && size == old(size) - n && cap == old(cap) && Valid()
          invariant forall k :: 0 <= k < i ==> ptr[k] == was[n + k]
          invariant forall k :: i <= k < old(size) ==> ptr[k] == was[k]
        {
          ptr[i] := ptr[n + i];
          i := i + 1;
        }
        assert ptr[..size] == was[n..];
      }
    }

    /** move: takes over the contents of another buffer, which keeps this one's storage and is left empty. */
    method Move(other: Buffer)
      requires Valid() && other.Valid()
      modifies this, other
      ensures Valid() && other.Valid() && other.Contents() == ""
      ensures other != this ==> Contents() == old(other.Contents()) && ptr == old(other.ptr) && other.ptr == old(ptr)
    {
      cap, other.cap := other.cap, cap;
      ptr, other.ptr := other.ptr, ptr;
      size := other.size;
      other.size := 0;
    }

    /** add_number: the scratch area of 20 bytes is enough. */
    method AddNumber(number: int)
      requires Valid() && IsWord(number)
      modifies this, ptr
      ensures Valid() && Contents() == old(Contents()) + Written(number)
      ensures ptr == old(ptr) || fresh(ptr)
    {
      Resize(size + 20);
      var digits := PrintNumber(number);
      var ok := Add(Slice.Slice(digits));
    }

    /** add_hex: the scratch area of 16 bytes is enough. */
    method AddHex(number: nat)
      requires Valid() && number < 0x1_0000_0000_0000_0000
      modifies this, ptr
      ensures Valid() && Contents() == old(Contents()) + Numeral(16, number)
      ensures ptr == old(ptr) || fresh(ptr)
    {
      if number == 0 {
        var zero := Add(Slice.Slice("0"));
        return;
      }
      var digits := PrintHex(number);
      var ok := Add(Slice.Slice(digits));
    }
  }

  /** Division as in C, towards zero. */
  function Shorter(base: nat, n: int): (q: int)
    requires IsBase(base)
    ensures -n <= q <= n || n <= q <= -n
    ensures n != 0 ==> -n < q < n || n < q < -n
  {
    if n < 0 then -(Quot(base, -n) as int) else Quot(base, n)
  }

  /** The character for the last digit; that of a negative number is below '0'. */
  function LastDigit(base: nat, n: int): char
    requires IsBase(base)
  {
    if n < 0 then Below(Digit(Rem(base, -n))) else Digit(Rem(base, n))
  }

  function Size(n: int): nat { if n < 0 then -n else n }

  function Shown(negative: bool, s: string): string {
    if negative then AllBelow(s) else s
  }

  lemma ShownNext(negative: bool, c: char, rest: string)
    ensures Shown(negative, [c] + rest) == [if negative then Below(c) else c] + Shown(negative, rest)
  {
    assert AllBelow([c] + rest) == [Below(c)] + AllBelow(rest);
  }

  /** The digit loop of both printers: fills the scratch area from its end; i is the last free position. */
  method FillDigits(r: array<char>, base: nat, number: int) returns (i: int)
    requires IsBase(base) && number != 0 && |Numeral(base, Size(number))| <= r.Length
    modifies r
    ensures i == r.Length - 1 - |Numeral(base, Size(number))|
    ensures r[i + 1..] == Shown(number < 0, Numeral(base, Size(number)))
  {
    hide Numeral, Pending, Digit, Quot, Rem, Below, AllBelow, Shown;
    var n := number;
    i := r.Length - 1;
    ghost var rest := "";
    PendingStart(base, Size(number), rest);
    ShownEmpty(number < 0);
    while n != 0
      invariant n == 0 || (n < 0) == (number < 0)
      invariant r.Length - 1 - |Numeral(base, Size(number))| <= i < r.Length && |rest| == r.Length - 1 - i
      invariant Pending(base, Size(n), rest, Size(number)) && r[i + 1..] == Shown(number < 0, rest)
      decreases Size(n)
    {
      PendingNext(base, Size(n), rest, Size(number));
      ShownNext(number < 0, Digit(Rem(base, Size(n))), rest);
      ghost var filled := r[i + 1..];
      r[i] := LastDigit(base, n);
      assert r[i..] == [LastDigit(base, n)] + filled;
      rest := [Digit(Rem(base, Size(n)))] + rest;
      i := i - 1;
      n := Shorter(base, n);
    }
    PendingDone(base, rest, Size(number));
  }

  lemma ShownEmpty(negative: bool)
    ensures Shown(negative, "") == ""
  {
  }

  /** add_number works in a scratch area of 20 bytes; the negation of the least word is the least word again. */
  method PrintNumber(number: int) returns (digits: string)
    requires IsWord(number)
    ensures digits == Written(number)
  {
    hide Numeral, AllBelow, Wrap, Below;
    ZeroNumeral();
    LeastNegated();
    var s, i, n, negative := new char[20], 19, number, false;
    if n == 0 {
      s[i] := '0';
      i := i - 1;
    } else {
      if n < 0 {
        n := Wrap(-n);
        negative := true;
      }
      NineteenDigits(Size(n));
      i := FillDigits(s, 10, n);
    }
    if negative {
      ghost var rest := s[i + 1..];
      s[i] := '-';
      assert s[i..] == "-" + rest;
      i := i - 1;
    }
    digits := s[i + 1..];
  }

  /** add_hex works in a scratch area of 16 bytes. */
  method PrintHex(number: nat) returns (digits: string)
    requires 0 < number < 0x1_0000_0000_0000_0000
    ensures digits == Numeral(16, number)
  {
    var r := new char[16];
    SixteenDigits(number);
    var i := FillDigits(r, 16, number);
    digits := r[i + 1..];
  }

  lemma ZeroNumeral()
    ensures Numeral(10, 0) == "0"
  {
  }

  lemma NineteenDigits(m: nat)
    requires m <= 0x8000_0000_0000_0000
    ensures |Numeral(10, m)| <= 19
  {
    WordPowers();
    NumeralFits(10, m, 19);
  }

  lemma SixteenDigits(m: nat)
    requires m < 0x1_0000_0000_0000_0000
    ensures |Numeral(16, m)| <= 16
  {
    WordPowers();
    NumeralFits(16, m, 16);
  }

  // Parsers

  /** atoi, read from the left into a signed word. */
  method ParseDecimal(s: string) returns (r: Parsed)
    ensures r == AsWord(Atoi(s))
  {
    hide Denoted, Wrap;
    if |s| == 0 { return NoData; }
    var negative := s[0] == '-';
    if negative && |s| < 2 { return InvalidData; }
    var start := if negative then 1 else 0;
    var value, p := 0, start;
    assert s[start..start] == "";
    EmptyDenotes(10);
    while p < |s|
      invariant start <= p <= |s| && AllDigits(10, s[start..p]) && value == Wrap(Denoted(10, s[start..p]))
    {
      var a := DigitValue(10, s[p]);
      if a < 0 {
        assert s[start..][p - start] == s[p];
        return InvalidData;
      }
      assert s[start..p + 1] == s[start..p] + [s[p]];
      DenotedNext(10, s[start..p], s[p]);
      WrapNext(10, Denoted(10, s[start..p]), a);
      value := Wrap(value * 10 + a);
      p := p + 1;
    }
    assert s[start..p] == s[start..] && (start == 0 ==> s[0..] == s);
    WrapNegated(Denoted(10, s[start..p]));
    return Value(if negative then Wrap(-value) else value);
  }

  /** hextoi, read from the left into a signed word. */
  method ParseHex(s: string) returns (r: Parsed)
    ensures r == AsWord(Hextoi(s))
  {
    hide Denoted, Wrap;
    if |s| == 0 { return NoData; }
    var value, p := 0, 0;
    assert s[..0] == "";
    EmptyDenotes(16);
    while p < |s|
      invariant p <= |s| && AllDigits(16, s[..p]) && value == Wrap(Denoted(16, s[..p]))
    {
      var a := DigitValue(16, s[p]);
      if a < 0 { return InvalidData; }
      assert s[..p + 1] == s[..p] + [s[p]];
      DenotedNext(16, s[..p], s[p]);
      WrapNext(16, Denoted(16, s[..p]), a);
      value := Wrap(value * 16 + a);
      p := p + 1;
    }
    assert s[..p] == s;
    return Value(value);
  }

  lemma EmptyDenotes(base: nat)
    requires IsBase(base)
    ensures Denoted(base, "") == 0
  {
  }

  /** While a number below 2^63 is parsed, no intermediate value leaves that range. */
  lemma ParsingStaysInRange(base: nat, s: string, i: nat)
    requires IsBase(base) && AllDigits(base, s) && Denoted(base, s) < 0x8000_0000_0000_0000 && i <= |s|
    ensures AllDigits(base, s[..i]) && Denoted(base, s[..i]) < 0x8000_0000_0000_0000
  {
    PrefixSmaller(base, s, i);
  }

  // Comparison

  /** Dictionary order on signed bytes. */
  predicate Before(a: string, b: string) {
    if a == "" then b != ""
    else b != "" && (Signed(a[0]) < Signed(b[0]) || (Signed(a[0]) == Signed(b[0]) && Before(a[1..], b[1..])))
  }

  predicate Bytes(s: string) {
    forall i :: 0 <= i < |s| ==> s[i] as int < 256
  }

  lemma {:induction false} BeforeAfterPrefix(a: string, b: string, i: nat)
    requires i <= |a| && i <= |b| && a[..i] == b[..i]
    ensures Before(a, b) == Before(a[i..], b[i..])
  {
    if i > 0 {
      assert a[0] == a[..i][0] && b[0] == b[..i][0];
      assert a[1..][..i - 1] == a[..i][1..] && b[1..][..i - 1] == b[..i][1..];
      BeforeAfterPrefix(a[1..], b[1..], i - 1);
      assert a[1..][i - 1..] == a[i..] && b[1..][i - 1..] == b[i..];
    } else {
      assert a[0..] == a && b[0..] == b;
    }
  }

  /** compare: negative, zero or positive as a is before b, equal to it, or after it. */
  method Compare(a: string, b: string) returns (d: int)
    requires Bytes(a) && Bytes(b)
    ensures d < 0 <==> Before(a, b)
    ensures d == 0 <==> a == b
    ensures d > 0 <==> Before(b, a)
  {
    hide Before;
    var i := 0;
    while i < |a|
      invariant i <= |a| && i <= |b| && a[..i] == b[..i]
    {
      BeforeAfterPrefix(a, b, i);
      BeforeAfterPrefix(b, a, i);
      DecidedAt(a, b, i);
      if i >= |b| { return 1; }
      d := Signed(a[i]) - Signed(b[i]);
      if d != 0 { return d; }
      assert a[..i + 1] == a[..i] + [a[i]] && b[..i + 1] == b[..i] + [b[i]];
      i := i + 1;
    }
    BeforeAfterPrefix(a, b, i);
    BeforeAfterPrefix(b, a, i);
    DecidedAt(a, b, i);
    if i < |b| { return -1; }
    assert a[..i] == a && b[..i] == b;
    d := 0;
  }

  lemma DecidedAt(a: string, b: string, i: nat)
    requires i <= |a| && i <= |b| && Bytes(a) && Bytes(b)
    ensures i == |a| ==> !Before(b[i..], a[i..]) && Before(a[i..], b[i..]) == (i < |b|)
    ensures i == |b| ==> !Before(a[i..], b[i..]) && Before(b[i..], a[i..]) == (i < |a|)
    ensures i < |a| && i < |b| && Signed(a[i]) != Signed(b[i]) ==>
              && Before(a[i..], b[i..]) == (Signed(a[i]) < Signed(b[i]))
              && Before(b[i..], a[i..]) == (Signed(b[i]) < Signed(a[i]))
    ensures i < |a| && i < |b| && Signed(a[i]) == Signed(b[i]) ==> a[i] == b[i]
  {
  }

  /** The order is total: of two strings, one is before the other or they are equal. */
  lemma {:induction false} BeforeIsTotal(a: string, b: string)
    requires Bytes(a) && Bytes(b)
    ensures Before(a, b) || Before(b, a) || a == b
    ensures !(Before(a, b) && Before(b, a)) && !Before(a, a)
    decreases |a|
  {
    if a != "" && b != "" {
      BeforeIsTotal(a[1..], b[1..]);
      assert a == [a[0]] + a[1..] && b == [b[0]] + b[1..];
    }
    if a != "" {
      BeforeIsTotal(a[1..], a[1..]);
    }
  }

  lemma {:induction false} BeforeIsTransitive(a: string, b: string, c: string)
    requires Before(a, b) && Before(b, c)
    ensures Before(a, c)
    decreases |a|
  {
    if a != "" && Signed(a[0]) == Signed(b[0]) == Signed(c[0]) {
      BeforeIsTransitive(a[1..], b[1..], c[1..]);
    }
  }
}
