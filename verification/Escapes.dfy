/** Escaping and unescaping of JSON strings, as functions and in place. */
module Escapes {
  import opened Numerals
  import opened Buffers

  /** A backslash goes before every quote; nothing else changes. */
  function Escaped(s: string): string {
    if s == "" then "" else (if s[0] == '"' then ['\\', '"'] else [s[0]]) + Escaped(s[1..])
  }

  function Quotes(s: string): nat {
    if s == "" then 0 else (if s[0] == '"' then 1 else 0) + Quotes(s[1..])
  }

  /** The one to three bytes of a character number below 2^16. */
  function Utf8(code: nat): (s: string)
    requires code < 0x1_0000
    ensures 1 <= |s| <= 3
  {
    if code <= 0x7f then [code as char]
    else if code <= 0x7ff then [(0xc0 + code / 0x40) as char, (0x80 + code % 0x40) as char]
    else [(0xe0 + code / 0x1000) as char, (0x80 + code / 0x40 % 0x40) as char, (0x80 + code % 0x40) as char]
  }

  datatype Decoded = Accepted(s: string) | Rejected

  function Ahead(front: string, rest: Decoded): Decoded {
    if rest.Accepted? then Accepted(front + rest.s) else Rejected
  }

  /** The character that a one-letter escape stands for; most stand for themselves. */
  function Plainly(c: char): char {
    if c == 'b' then 8 as char
    else if c == 't' then '\t'
    else if c == 'n' then '\n'
    else if c == 'f' then 12 as char
    else if c == 'r' then '\r'
    else c
  }

  /** What unescape makes of a string: a lone backslash at the end is dropped, as is that of a short \u escape. */
  function Unescaped(s: string): Decoded
    decreases |s|
  {
    if s == "" then Accepted("")
    else if s[0] != '\\' then Ahead([s[0]], Unescaped(s[1..]))
    else if |s| == 1 then Accepted("")
    else if s[1] == 'u' && |s| >= 6 then
      match Hextoi(s[2..6])
      case Value(code) => HexBound(s[2..6]); Ahead(Utf8(code), Unescaped(s[6..]))
      case _ => Rejected
    else Ahead([Plainly(s[1])], Unescaped(s[2..]))
  }

  lemma HexBound(s: string)
    requires |s| == 4 && Hextoi(s).Value?
    ensures 0 <= Hextoi(s).v < 0x1_0000
  {
    DenotedBound(16, s);
    assert Power(16, 2) == 0x100;
    PowerSum(16, 2, 2);
  }

  // UTF-8

  predicate Continues(c: char) { 0x80 <= c as int < 0xc0 }

  predicate Surrogate(code: int) { 0xd800 <= code < 0xe000 }

  /** s is the encoding of a character number by section 3 of RFC 3629: right length, and no surrogate. */
  predicate EncodesCharacter(s: string, code: int) {
    match |s|
    case 1 => s[0] as int < 0x80 && code == s[0] as int
    case 2 =>
      && 0xc0 <= s[0] as int < 0xe0 && Continues(s[1])
      && code == (s[0] as int - 0xc0) * 0x40 + (s[1] as int - 0x80) && 0x80 <= code
    case 3 =>
      && 0xe0 <= s[0] as int < 0xf0 && Continues(s[1]) && Continues(s[2])
      && code == (s[0] as int - 0xe0) * 0x1000 + (s[1] as int - 0x80) * 0x40 + (s[2] as int - 0x80)
      && 0x800 <= code && !Surrogate(code)
    case _ => false
  }

  /** The bytes of an escape are the standard encoding of its character exactly when it is no surrogate. */
  lemma Utf8IsStandard(code: nat)
    requires code < 0x1_0000
    ensures EncodesCharacter(Utf8(code), code) <==> !Surrogate(code)
  {
    ThreeParts(code);
  }

  lemma ThreeParts(code: nat)
    requires code < 0x1_0000
    ensures code == code / 0x1000 * 0x1000 + code / 0x40 % 0x40 * 0x40 + code % 0x40
    ensures code / 0x1000 < 0x10
  {
  }

  // Escaping, then unescaping

  /** Every backslash stands directly before a quote. */
  predicate Quotable(s: string) {
    forall i :: 0 <= i < |s| && s[i] == '\\' ==> i + 1 < |s| && s[i + 1] == '"'
  }

  lemma {:induction false} EscapedAppend(a: string, b: string)
    ensures Escaped(a + b) == Escaped(a) + Escaped(b)
  {
    if a == "" {
      assert a + b == b;
    } else {
      assert (a + b)[1..] == a[1..] + b;
      EscapedAppend(a[1..], b);
    }
  }

  lemma EscapedStep(s: string)
    requires s != ""
    ensures Escaped(s) == (if s[0] == '"' then ['\\', '"'] else [s[0]]) + Escaped(s[1..])
  {
  }

  /** How unescaping reads what was made of a character that is no backslash. */
  lemma ReadsBack(c: char, e: string)
    requires c != '\\'
    ensures Unescaped(Escaped([c]) + e) == Ahead([c], Unescaped(e))
  {
    var f := Escaped([c]) + e;
    assert [c][1..] == "" && Escaped([c]) == if c == '"' then ['\\', '"'] else [c];
    assert f[|Escaped([c])|..] == e;
  }

  lemma AheadTwice(a: string, b: string, d: Decoded)
    ensures Ahead(a, Ahead(b, d)) == Ahead(a + b, d)
  {
    if d.Accepted? {
      assert a + (b + d.s) == (a + b) + d.s;
    }
  }

  lemma TwoBackslashes(e: string)
    ensures Unescaped(['\\', '\\'] + e) == Ahead(['\\'], Unescaped(e))
  {
    assert (['\\', '\\'] + e)[2..] == e;
  }

  lemma PlainQuote(e: string)
    ensures Unescaped(['"'] + e) == Ahead(['"'], Unescaped(e))
  {
    assert (['"'] + e)[1..] == e;
  }

  lemma EscapedPair(u: string)
    ensures Escaped(['\\', '"'] + u) == ['\\', '\\'] + (['"'] + Escaped(u))
  {
    var s := ['\\', '"'] + u;
    EscapedStep(s);
    EscapedStep(s[1..]);
    assert s[1..][1..] == u;
  }

  /** A backslash before a quote comes out as it went in. */
  lemma BackslashQuote(u: string)
    ensures Unescaped(Escaped(['\\', '"'] + u)) == Ahead(['\\', '"'], Unescaped(Escaped(u)))
  {
    EscapedPair(u);
    hide Escaped, Unescaped, Ahead;
    TwoBackslashes(['"'] + Escaped(u));
    PlainQuote(Escaped(u));
    AheadTwice(['\\'], ['"'], Unescaped(Escaped(u)));
    assert ['\\'] + ['"'] == ['\\', '"'];
  }

  /** Where every backslash precedes a quote, unescaping undoes escaping. */
  lemma {:induction false} QuotableRound(s: string)
    requires Quotable(s)
    ensures Unescaped(Escaped(s)) == Accepted(s)
    decreases |s|
  {
    if s == "" {
    } else if s[0] == '\\' {
      var u := s[2..];
      assert s == ['\\', '"'] + u;
      QuotableTail(s, 2);
      QuotableRound(u);
      BackslashQuote(u);
    } else {
      QuotableTail(s, 1);
      QuotableRound(s[1..]);
      assert s == [s[0]] + s[1..];
      EscapedAppend([s[0]], s[1..]);
      ReadsBack(s[0], Escaped(s[1..]));
    }
  }

  lemma QuotableTail(s: string, i: nat)
    requires i <= |s|
    ensures Quotable(s) ==> Quotable(s[i..])
    ensures Quotable(s[i..]) && (forall k :: 0 <= k < i && s[k] == '\\' ==> k + 1 < |s| && s[k + 1] == '"') ==>
      Quotable(s)
  {
    forall k | 0 <= k < |s| - i ensures s[i..][k] == s[i + k] {
    }
    if Quotable(s[i..]) {
      forall k | i <= k < |s| && s[k] == '\\' ensures k + 1 < |s| && s[k + 1] == '"' {
        assert s[i..][k - i] == '\\';
      }
    }
  }

  /** Where escaping produced only digits, it changed nothing. */
  lemma {:induction false} DigitsUntouched(u: string, k: nat)
    requires k <= |Escaped(u)| && AllDigits(16, Escaped(u)[..k])
    ensures k <= |u| && Escaped(u)[k..] == Escaped(u[k..])
  {
    var e := Escaped(u);
    if k > 0 {
      assert DigitValue(16, e[..k][0]) >= 0;
      assert u[0] != '"' && e == [u[0]] + Escaped(u[1..]);
      assert e[1..][..k - 1] == e[..k][1..];
      DigitsUntouched(u[1..], k - 1);
      assert u[1..][k - 1..] == u[k..] && e[1..][k - 1..] == e[k..];
    } else {
      assert e[0..] == e && u[0..] == u;
    }
  }

  /** Unescaping what was escaped never gains, and loses something at a backslash that precedes no quote. */
  lemma {:induction false} OthersShrink(s: string)
    ensures var d := Unescaped(Escaped(s));
      d.Accepted? ==> |d.s| <= |s| && (!Quotable(s) ==> |d.s| < |s|)
    decreases |s|
  {
    if s == "" {
    } else if s[0] != '\\' {
      OthersShrink(s[1..]);
      QuotableTail(s, 1);
      assert s == [s[0]] + s[1..];
      EscapedAppend([s[0]], s[1..]);
      ReadsBack(s[0], Escaped(s[1..]));
    } else if |s| > 1 && s[1] == '"' {
      OthersShrink(s[2..]);
      QuotableTail(s, 2);
      assert s == ['\\', '"'] + s[2..];
      BackslashQuote(s[2..]);
    } else {
      LoneBackslash(s);
    }
  }

  lemma {:induction false} LoneBackslash(s: string)
    requires s != "" && s[0] == '\\' && (|s| > 1 ==> s[1] != '"')
    ensures var d := Unescaped(Escaped(s)); d.Accepted? ==> |d.s| < |s|
    decreases |s|, 0
  {
    var e := Escaped(s);
    if |s| > 1 {
      var u := s[2..];
      EscapedStep(s);
      EscapedStep(s[1..]);
      assert s[1..][1..] == u;
      assert e == [s[0], s[1]] + Escaped(u);
      assert e[2..] == Escaped(u);
      OthersShrink(u);
      if s[1] == 'u' && |e| >= 6 && Hextoi(e[2..6]).Value? {
        assert e[2..6] == Escaped(u)[..4] && e[6..] == Escaped(u)[4..];
        DigitsUntouched(u, 4);
        OthersShrink(u[4..]);
      }
    }
  }

  /** Escaping is undone by unescaping exactly when every backslash stands directly before a quote. */
  lemma UnescapeEscapeIff(s: string)
    ensures Unescaped(Escaped(s)) == Accepted(s) <==> Quotable(s)
  {
    OthersShrink(s);
    if Quotable(s) {
      QuotableRound(s);
    }
  }

  // In place

  lemma {:induction false} QuotesAppend(a: string, b: string)
    ensures Quotes(a + b) == Quotes(a) + Quotes(b)
  {
    if a == "" {
      assert a + b == b;
    } else {
      assert (a + b)[1..] == a[1..] + b;
      QuotesAppend(a[1..], b);
    }
  }

  lemma {:induction false} EscapedLength(s: string)
    ensures |Escaped(s)| == |s| + Quotes(s)
    ensures Quotes(s) == 0 ==> Escaped(s) == s
  {
    if s != "" {
      EscapedLength(s[1..]);
    }
  }

  /** The last character of a stretch decides how its count and its escaped form end. */
  lemma LastCharacter(s: string, i: nat, j: nat)
    requires i <= j < |s|
    ensures Quotes(s[i..j + 1]) == Quotes(s[i..j]) + if s[j] == '"' then 1 else 0
    ensures Escaped(s[j..]) == (if s[j] == '"' then ['\\', '"'] else [s[j]]) + Escaped(s[j + 1..])
  {
    assert s[i..j + 1] == s[i..j] + [s[j]];
    QuotesAppend(s[i..j], [s[j]]);
    assert [s[j]][1..] == "" && Quotes([s[j]]) == if s[j] == '"' then 1 else 0;
    assert s[j..][1..] == s[j + 1..];
  }

  /** escape: grows the text by its quotes but not the storage, which must be large enough already. */
  method Escape(b: Buffer, start: nat) returns (fits: bool)
    requires b.Valid() && start <= b.size
    modifies b, b.ptr
    ensures b.ptr == old(b.ptr) && b.cap == old(b.cap)
    ensures var quotes := Quotes(old(b.Contents())[start..]); fits <==> quotes == 0 || old(b.size) + quotes <= b.cap
    ensures fits ==> b.Valid() && b.Contents() == old(b.Contents())[..start] + Escaped(old(b.Contents())[start..])
  {
    hide Escaped, Quotes, QuotesIn, Rung;
    ghost var was := b.Contents();
    var col := CountQuotes(b, start);
    Unquoted(was, start);
    if col == 0 { return true; }
    b.size := b.size + col;
    if b.size > b.cap { return false; }
    SpreadQuotes(b.ptr, start, b.size, col, was);
    return true;
  }

  lemma Unquoted(was: string, start: nat)
    requires start <= |was|
    ensures QuotesIn(was, start, |was|) == Quotes(was[start..])
    ensures Quotes(was[start..]) == 0 ==> was == was[..start] + Escaped(was[start..])
  {
    EscapedLength(was[start..]);
    hide Escaped, Quotes;
    assert was[start..|was|] == was[start..];
    assert was[..start] + was[start..] == was;
  }

  lemma SixteenQuotes()
    ensures var s := seq(16, _ => '"'); Quotes(s) > 0
  {
    var s := seq(16, _ => '"');
    assert s[0] == '"';
  }

  /** The failing input: a storage of 16 that holds as many quotes. */
  method FullStorage() returns (b: Buffer, fits: bool)
    ensures b.cap == 16 && !fits
  {
    hide Quotes, Escaped;
    b := new Buffer();
    b.Resize(16);
    assert Rung(16);
    var s := seq(16, _ => '"');
    var ok := b.Add(Slice.Slice(s));
    assert b.Contents()[0..] == s;
    SixteenQuotes();
    fits := Escape(b, 0);
  }

  method CountQuotes(b: Buffer, start: nat) returns (col: nat)
    requires b.Valid() && start <= b.size
    ensures col == Quotes(b.Contents()[start..])
    ensures col > 0 ==> b.ptr != null
  {
    ghost var was := b.Contents();
    col := 0;
    var i := start;
    assert was[start..start] == "";
    while i < b.size
      invariant start <= i <= b.size && col == Quotes(was[start..i])
    {
      LastCharacter(was, start, i);
      if b.ptr[i] == '"' { col := col + 1; }
      i := i + 1;
    }
    assert was[start..i] == was[start..];
  }

  /** The quotes between two positions. */
  ghost function QuotesIn(s: string, i: nat, j: nat): nat
    requires i <= j <= |s|
  {
    Quotes(s[i..j])
  }

  /** From position i + 1 on, the array holds the escaped form of what came from j on; up to j nothing moved. */
  predicate Spread(p: string, i: int, size: nat, was: string, j: nat) {
    && j <= |was| && -1 <= i < size <= |p| && j <= i + 1
    && p[..j] == was[..j] && p[i + 1..size] == Escaped(was[j..])
  }

  /** Moves the characters up from the last one on, putting backslashes before quotes, until all are placed. */
  method SpreadQuotes(p: array<char>, start: nat, size: nat, quotes: nat, ghost was: string)
    requires |was| + quotes == size <= p.Length && start <= |was| && p[..|was|] == was
    requires quotes == QuotesIn(was, start, |was|) && quotes > 0
    modifies p
    ensures p[..size] == was[..start] + Escaped(was[start..])
  {
    hide Escaped, QuotesIn, Spread;
    var i, col := size - 1, quotes;
    ghost var j := |was|;
    SpreadStart(p[..], size, was);
    while i >= start
      invariant start <= j <= |was| && i == j - 1 + col < size && col == QuotesIn(was, start, j) && col > 0
      invariant Spread(p[..], i, size, was, j)
    {
      HasQuote(was, start, j);
      j := j - 1;
      ghost var held := p[..];
      PlaceOne(held, i, size, was, j, start);
      var a := p[i - col];
      p[i] := a;
      assert p[..] == held[i := was[j]];
      if a == '"' {
        i := i - 1;
        p[i] := '\\';
        assert p[..] == held[i + 1 := '"'][i := '\\'];
        col := col - 1;
        if col == 0 { break; }
      }
      i := i - 1;
    }
    SpreadDone(p[..], i - 1, size, was, j, start);
    assert p[..size] == p[..][..size];
  }

  /** Placing one more character, with a backslash before it if it is a quote. */
  lemma PlaceOne(p: string, i: nat, size: nat, was: string, j: nat, start: nat)
    requires Spread(p, i, size, was, j + 1) && start <= j < |was| && j < i
    ensures p[j] == was[j] && i < |p|
    ensures was[j] != '"' ==> Spread(p[i := was[j]], i - 1, size, was, j)
    ensures was[j] == '"' ==> Spread(p[i := '"'][i - 1 := '\\'], i - 2, size, was, j)
    ensures QuotesIn(was, start, j + 1) == QuotesIn(was, start, j) + if was[j] == '"' then 1 else 0
  {
    LastCharacter(was, start, j);
    hide Escaped, Quotes;
    assert p[..j + 1][j] == was[..j + 1][j];
    var q := if was[j] == '"' then p[i := '"'][i - 1 := '\\'] else p[i := was[j]];
    assert q[..j] == p[..j + 1][..j] && was[..j + 1][..j] == was[..j];
    if was[j] == '"' {
      assert q[i - 1..size] == ['\\', '"'] + p[i + 1..size];
    } else {
      assert q[i..size] == [was[j]] + p[i + 1..size];
    }
  }

  lemma SpreadStart(p: string, size: nat, was: string)
    requires |was| < size <= |p| && p[..|was|] == was
    ensures Spread(p, size - 1, size, was, |was|)
  {
  }

  /** What is left in front holds no quote and is in place. */
  lemma SpreadDone(p: string, i: int, size: nat, was: string, j: nat, start: nat)
    requires Spread(p, i, size, was, j) && j == i + 1 && start <= j && QuotesIn(was, start, j) == 0
    ensures p[..size] == was[..start] + Escaped(was[start..])
  {
    var middle, tail := was[start..j], was[j..];
    EscapedLength(middle);
    assert was[start..] == middle + tail;
    EscapedAppend(middle, tail);
    hide Escaped, Quotes, QuotesIn;
    Halves(p, j, size);
    Halves(was, start, j);
    Associate(was[..start], middle, Escaped(tail));
  }

  lemma Halves(s: string, i: nat, j: nat)
    requires i <= j <= |s|
    ensures s[..j] == s[..i] + s[i..j]
  {
  }

  lemma Associate(a: string, b: string, c: string)
    ensures (a + b) + c == a + (b + c)
  {
  }

  lemma HasQuote(s: string, i: nat, j: nat)
    requires i <= j <= |s| && QuotesIn(s, i, j) > 0
    ensures i < j
  {
  }

  /** How far unescape has come: `out` is written, and reading goes on at i, or at the backslash before it. */
  predicate Decoding(total: Decoded, out: string, was: string, i: nat, prefix: bool) {
    && i <= |was|
    && (prefix ==> i > 0 && was[i - 1] == '\\')
    && total == Ahead(out, Unescaped(was[if prefix then i - 1 else i..]))
  }

  /** unescape, in place: the write position never passes the read position. */
  method Unescape(b: Buffer, start: nat) returns (ok: bool)
    requires b.Valid() && start <= b.size
    modifies b, b.ptr
    ensures b.Valid() && (b.ptr == old(b.ptr) || fresh(b.ptr))
    ensures var d := Unescaped(old(b.Contents())[start..]);
      ok == d.Accepted? && (ok ==> b.Contents() == old(b.Contents())[..start] + d.s)
  {
    if b.ptr == null {
      b.Resize(0);
      return true;
    }
    ghost var was := b.Contents();
    var n;
    ok, n := UnescapeIn(b.ptr, start, b.size, was);
    if ok {
      b.Resize(0);
      b.size := n;
    }
  }

  /** What is written so far, and what is still to be read. */
  predicate Held(p: string, n: nat, i: nat, size: nat, was: string, out: string) {
    && n <= i <= size <= |p| && size == |was|
    && p[..n] == out && p[i..size] == was[i..]
  }

  method UnescapeIn(p: array<char>, start: nat, size: nat, ghost was: string) returns (ok: bool, n: nat)
    requires start <= size <= p.Length && was == p[..size]
    modifies p
    ensures var d := Unescaped(was[start..]);
      ok == d.Accepted? && (ok ==> n <= size && p[..n] == was[..start] + d.s)
  {
    hide Unescaped, Decoding, Ahead, Utf8, Held, Plainly;
    n := start;
    var prefix, i := false, start;
    ghost var total, out := Ahead(was[..start], Unescaped(was[start..])), was[..start];
    HeldStarts(p[..], start, size, was);
    DecodingStarts(was, start);
    while i < size
      invariant n <= i <= size && (prefix ==> n < i)
      invariant Decoding(total, out, was, i, prefix) && Held(p[..], n, i, size, was, out)
    {
      HeldNext(p[..], n, i, size, was, out);
      var a := p[i];
      if prefix {
        var taken;
        taken, a, n, i, out := AfterBackslash(p, n, i, size, was, total, out);
        if !taken {
          RejectedEnds(total, was, start);
          return false, n;
        }
        prefix := false;
      } else if a == '\\' {
        StartEscape(total, out, was, i);
        HeldSkip(p[..], n, i, size, was, out);
        prefix := true;
        i := i + 1;
        continue;
      } else {
        Ordinary(total, out, was, i);
      }
      WriteOne(p, n, a, i, size, was, out);
      out := out + [a];
      n := n + 1;
      i := i + 1;
    }
    DecodingEnds(total, out, was, i, prefix);
    HeldEnds(p[..], n, i, size, was, out, start);
    ok := true;
  }

  /** The character behind a backslash, or the last byte of an escape, and where it goes. */
  method AfterBackslash(p: array<char>, n: nat, i: nat, size: nat, ghost was: string, ghost total: Decoded,
                        ghost out: string) returns (ok: bool, a: char, n': nat, i': nat, ghost out': string)
    requires Held(p[..], n, i, size, was, out) && n < i < size <= p.Length
    requires Decoding(total, out, was, i, true) && p[i] == was[i] && size == |was|
    modifies p
    ensures !ok ==> total == Rejected
    ensures ok ==> n' <= i' < size && i <= i'
    ensures ok ==> Held(p[..], n', i', size, was, out') && Decoding(total, out' + [a], was, i' + 1, false)
  {
    hide Unescaped, Decoding, Ahead, Utf8, Held;
    ok, a, n', i', out' := true, p[i], n, i, out;
    if a == 'u' && i + 4 < size {
      var width;
      ghost var front;
      ok, a, width, front := TakeHex(p, n, i, size, was, total, out);
      if ok {
        n', i', out' := n + width - 1, i + 4, out + front;
      }
    } else {
      OneLetter(total, out, was, i);
      a := Plainly(a);
    }
  }

  /** The four digits of an escape and all but the last byte of what they stand for. */
  method TakeHex(p: array<char>, n: nat, i: nat, size: nat, ghost was: string, ghost total: Decoded, ghost out: string)
    returns (ok: bool, last: char, width: nat, ghost front: string)
    requires Held(p[..], n, i, size, was, out) && n < i && i + 4 < size <= p.Length
    requires Decoding(total, out, was, i, true) && was[i] == 'u'
    modifies p
    ensures !ok ==> total == Rejected
    ensures ok ==>
              && 1 <= width <= 3
              && Held(p[..], n + width - 1, i + 4, size, was, out + front)
              && Decoding(total, (out + front) + [last], was, i + 5, false)
  {
    hide Unescaped, Decoding, Ahead, Utf8, Held;
    HeldHex(p[..], n, i, size, was, out);
    HexEscape(total, out, was, i);
    front := "";
    var code := ParseHex(p[i + 1..i + 5]);
    if !code.Value? { return false, 'u', 0, front; }
    last := WriteFront(p, n, code.v, i, size, was, out);
    front := Utf8(code.v)[..|Utf8(code.v)| - 1];
    assert out + Utf8(code.v) == (out + front) + [last];
    ok, width := true, Width(code.v);
  }

  function Width(code: nat): nat {
    if code <= 0x7f then 1 else if code <= 0x7ff then 2 else 3
  }

  /** All bytes of the encoding but the last are written; the last one is handed back. */
  method WriteFront(p: array<char>, n: nat, code: nat, i: nat, size: nat, ghost was: string, ghost out: string)
    returns (last: char)
    requires code < 0x1_0000 && Held(p[..], n, i, size, was, out) && n < i && i + 4 < size
    modifies p
    ensures |Utf8(code)| == Width(code) && last == Utf8(code)[|Utf8(code)| - 1]
    ensures Held(p[..], n + Width(code) - 1, i + 4, size, was, out + Utf8(code)[..|Utf8(code)| - 1])
  {
    ghost var was_ := p[..];
    HeldTail(was_, n, i, size, was, out);
    if code <= 0x7f {
      last := code as char;
    } else if code <= 0x7ff {
      p[n] := (0xc0 + code / 0x40) as char;
      last := (0x80 + code % 0x40) as char;
    } else {
      p[n] := (0xe0 + code / 0x1000) as char;
      p[n + 1] := (0x80 + code / 0x40 % 0x40) as char;
      last := (0x80 + code % 0x40) as char;
    }
    HeldFrom(was_, p[..], n, i, size, was, out, Utf8(code)[..|Utf8(code)| - 1]);
  }

  method WriteOne(p: array<char>, n: nat, a: char, i: nat, size: nat, ghost was: string, ghost out: string)
    requires Held(p[..], n, i, size, was, out) && n <= i < size <= p.Length
    modifies p
    ensures Held(p[..], n + 1, i + 1, size, was, out + [a])
  {
    HeldTail(p[..], n, i, size, was, out);
    ghost var held := p[..];
    p[n] := a;
    assert p[i + 1..size] == held[i + 1..size];
    assert p[..n + 1] == held[..n] + [a];
  }

  lemma HeldTail(p: string, n: nat, i: nat, size: nat, was: string, out: string)
    requires Held(p, n, i, size, was, out)
    ensures forall k :: i <= k <= size ==> p[k..size] == was[k..]
    ensures forall k :: i <= k < size ==> p[k] == was[k]
  {
    forall k | i <= k <= size ensures p[k..size] == was[k..] {
      assert p[k..size] == p[i..size][k - i..] && was[k..] == was[i..][k - i..];
    }
    forall k | i <= k < size ensures p[k] == was[k] {
      assert p[i..size][k - i] == was[i..][k - i];
    }
  }

  /** A few bytes written at n, before the read position. */
  lemma HeldFrom(p: string, q: string, n: nat, i: nat, size: nat, was: string, out: string, front: string)
    requires Held(p, n, i, size, was, out) && i + 4 < size && n + |front| <= i + 4 && |q| == |p|
    requires q[..n] == p[..n] && q[n..n + |front|] == front && q[i + 4..size] == was[i + 4..]
    ensures Held(q, n + |front|, i + 4, size, was, out + front)
  {
    assert q[..n + |front|] == q[..n] + q[n..n + |front|];
  }

  lemma HeldStarts(p: string, start: nat, size: nat, was: string)
    requires start <= size <= |p| && was == p[..size]
    ensures Held(p, start, start, size, was, was[..start])
  {
  }

  lemma HeldNext(p: string, n: nat, i: nat, size: nat, was: string, out: string)
    requires Held(p, n, i, size, was, out) && i < size
    ensures |was| == size && p[i] == was[i]
  {
    HeldTail(p, n, i, size, was, out);
  }

  lemma HeldHex(p: string, n: nat, i: nat, size: nat, was: string, out: string)
    requires Held(p, n, i, size, was, out) && i + 4 < size
    ensures |was| == size && p[i + 1..i + 5] == was[i + 1..i + 5]
  {
    HeldTail(p, n, i, size, was, out);
  }

  lemma HeldSkip(p: string, n: nat, i: nat, size: nat, was: string, out: string)
    requires Held(p, n, i, size, was, out) && i < size
    ensures Held(p, n, i + 1, size, was, out)
  {
    HeldTail(p, n, i, size, was, out);
  }

  lemma HeldEnds(p: string, n: nat, i: nat, size: nat, was: string, out: string, start: nat)
    requires Held(p, n, i, size, was, out) && start <= size
    requires Ahead(was[..start], Unescaped(was[start..])) == Accepted(out)
    ensures var d := Unescaped(was[start..]); d.Accepted? && p[..n] == was[..start] + d.s
  {
  }

  lemma RejectedEnds(total: Decoded, was: string, start: nat)
    requires start <= |was| && total == Ahead(was[..start], Unescaped(was[start..])) && total == Rejected
    ensures Unescaped(was[start..]) == Rejected
  {
  }

  lemma DecodingStarts(was: string, start: nat)
    requires start <= |was|
    ensures Decoding(Ahead(was[..start], Unescaped(was[start..])), was[..start], was, start, false)
  {
    hide Unescaped;
  }

  lemma DecodingEnds(total: Decoded, out: string, was: string, i: nat, prefix: bool)
    requires Decoding(total, out, was, i, prefix) && i == |was|
    ensures total == Accepted(out)
  {
    var rest := was[if prefix then i - 1 else i..];
    assert rest == if prefix then ['\\'] else "";
  }

  lemma Ordinary(total: Decoded, out: string, was: string, i: nat)
    requires Decoding(total, out, was, i, false) && i < |was| && was[i] != '\\'
    ensures Decoding(total, out + [was[i]], was, i + 1, false)
  {
    assert was[i..][1..] == was[i + 1..];
    AheadTwice(out, [was[i]], Unescaped(was[i + 1..]));
  }

  lemma StartEscape(total: Decoded, out: string, was: string, i: nat)
    requires Decoding(total, out, was, i, false) && i < |was| && was[i] == '\\'
    ensures Decoding(total, out, was, i + 1, true)
  {
  }

  lemma OneLetter(total: Decoded, out: string, was: string, i: nat)
    requires Decoding(total, out, was, i, true) && i < |was| && !(was[i] == 'u' && i + 4 < |was|)
    ensures Decoding(total, out + [Plainly(was[i])], was, i + 1, false)
  {
    var s := was[i - 1..];
    assert s[1] == was[i] && s[2..] == was[i + 1..];
    AheadTwice(out, [Plainly(was[i])], Unescaped(was[i + 1..]));
  }

  lemma HexEscape(total: Decoded, out: string, was: string, i: nat)
    requires Decoding(total, out, was, i, true) && i + 4 < |was| && was[i] == 'u'
    ensures var code := Hextoi(was[i + 1..i + 5]);
      if code.Value? then 0 <= code.v < 0x1_0000 && Decoding(total, out + Utf8(code.v), was, i + 5, false)
      else total == Rejected
  {
    var s := was[i - 1..];
    assert s[1] == was[i] && s[2..6] == was[i + 1..i + 5] && s[6..] == was[i + 5..];
    var code := Hextoi(was[i + 1..i + 5]);
    HextoiData(was[i + 1..i + 5]);
    if code.Value? {
      HexBound(was[i + 1..i + 5]);
      hide Unescaped, Utf8;
      AheadTwice(out, Utf8(code.v), Unescaped(was[i + 5..]));
    }
  }

  lemma HextoiData(s: string)
    requires s != ""
    ensures Hextoi(s) != NoData
  {
  }
}
