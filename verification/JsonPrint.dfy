/** Printed objects, and what scanning makes of them. */
module JsonPrint {
  import opened JsonScan
  import opened Escapes

  // Where a piece of text stands

  predicate Sits(d: string, i: nat, t: string) {
    i + |t| <= |d| && d[i..i + |t|] == t
  }

  lemma SitsBoth(d: string, i: nat, a: string, b: string)
    requires Sits(d, i, a + b)
    ensures Sits(d, i, a) && Sits(d, i + |a|, b)
  {
    var t := d[i..i + |a + b|];
    assert t[..|a|] == a && t[|a|..] == b;
    assert d[i..i + |a|] == t[..|a|] && d[i + |a|..i + |a| + |b|] == t[|a|..];
  }

  lemma SitsAt(d: string, i: nat, t: string, k: nat)
    requires Sits(d, i, t) && k < |t|
    ensures d[i + k] == t[k]
  {
    assert d[i..i + |t|][k] == t[k];
  }

  predicate Blanks(s: string) {
    forall k :: 0 <= k < |s| ==> Blank(s[k])
  }

  lemma {:induction false} SkipBlanks(d: string, i: nat, pad: string)
    requires Sits(d, i, pad) && Blanks(pad) && i + |pad| < |d| && !Blank(d[i + |pad|])
    ensures Skip(d, i) == i + |pad|
    decreases |pad|
  {
    if pad != "" {
      SitsAt(d, i, pad, 0);
      assert pad == [pad[0]] + pad[1..];
      SitsBoth(d, i, [pad[0]], pad[1..]);
      SkipBlanks(d, i + 1, pad[1..]);
    }
  }

  // Strings

  /** The inside of a quoted string: quotes only behind backslashes. */
  predicate Inner(s: string) {
    forall k :: 0 <= k < |s| && s[k] == '"' ==> k > 0 && s[k - 1] == '\\'
  }

  /** An escaped backslash at the end makes the closing quote look escaped. */
  predicate OpenEnded(s: string) {
    s != "" && s[|s| - 1] == '\\'
  }

  predicate Raw(s: string) {
    Inner(s) && !OpenEnded(s)
  }

  function Quote(raw: string): string { ['"'] + raw + ['"'] }

  lemma {:induction false} StringEndIs(d: string, i: nat, k: nat)
    requires 1 <= i <= k < |d| && d[k] == '"' && d[k - 1] != '\\'
    requires forall j :: i <= j < k && d[j] == '"' ==> d[j - 1] == '\\'
    ensures StringEnd(d, i) == k
    decreases k - i
  {
    if i < k {
      StringEndIs(d, i + 1, k);
    }
  }

  lemma QuoteSits(d: string, i: nat, raw: string)
    requires Sits(d, i, Quote(raw))
    ensures d[i] == '"' && Sits(d, i + 1, raw) && d[i + 1 + |raw|] == '"'
  {
    SitsBoth(d, i, ['"'] + raw, ['"']);
    SitsBoth(d, i, ['"'], raw);
    SitsAt(d, i, ['"'], 0);
    SitsAt(d, i + 1 + |raw|, ['"'], 0);
  }

  lemma StringRead(d: string, i: nat, raw: string)
    requires Sits(d, i, Quote(raw)) && Raw(raw)
    ensures StringAt(d, i) == Got(raw, i + |Quote(raw)|)
  {
    QuoteSits(d, i, raw);
    var k := i + 1 + |raw|;
    forall j | i + 1 <= j < k ensures d[j] == raw[j - i - 1] {
      SitsAt(d, i + 1, raw, j - i - 1);
    }
    forall j | i + 1 <= j < k && d[j] == '"' ensures d[j - 1] == '\\' {
      assert raw[j - i - 1] == '"';
    }
    StringEndIs(d, i + 1, k);
  }

  lemma {:induction false} StringEndPasses(d: string, i: nat, k: nat)
    requires 1 <= i <= k < |d| && forall j :: i <= j <= k && d[j] == '"' ==> d[j - 1] == '\\'
    ensures StringEnd(d, i) > k
    decreases k - i
  {
    if i < k {
      StringEndPasses(d, i + 1, k);
    }
  }

  /** An open-ended string is read beyond its closing quote, or not at all. */
  lemma StringMisread(d: string, i: nat, raw: string)
    requires Sits(d, i, Quote(raw)) && Inner(raw) && OpenEnded(raw)
    ensures i < |d| && (StringAt(d, i).Got? ==> StringAt(d, i).slice != raw)
  {
    QuoteSits(d, i, raw);
    var k := i + 1 + |raw|;
    forall j | i + 1 <= j < k ensures d[j] == raw[j - i - 1] {
      SitsAt(d, i + 1, raw, j - i - 1);
    }
    forall j | i + 1 <= j <= k && d[j] == '"' ensures d[j - 1] == '\\' {
      if j < k {
        assert raw[j - i - 1] == '"';
      }
    }
    StringEndPasses(d, i + 1, k);
  }

  // Nested values

  /** Pieces of text between brackets and strings, strings, and bracketed groups of either kind. */
  datatype Node = Plain(text: string) | Quoted(raw: string) | Group(curly: bool, parts: seq<Node>)

  predicate Unbracketed(s: string) {
    forall k :: 0 <= k < |s| ==> s[k] !in {'{', '}', '[', ']', '"'}
  }

  predicate Good(n: Node) {
    match n
    case Plain(text) => Unbracketed(text)
    case Quoted(raw) => Raw(raw)
    case Group(_, parts) => AllGood(parts)
  }

  predicate AllGood(ns: seq<Node>) {
    ns == [] || (Good(ns[0]) && AllGood(ns[1..]))
  }

  function Open(curly: bool): string { if curly then "{" else "[" }

  function Close(curly: bool): string { if curly then "}" else "]" }

  function Text(n: Node): string {
    match n
    case Plain(text) => text
    case Quoted(raw) => Quote(raw)
    case Group(curly, parts) => Open(curly) + (Texts(parts) + Close(curly))
  }

  function Texts(ns: seq<Node>): string {
    if ns == [] then "" else Text(ns[0]) + Texts(ns[1..])
  }

  lemma {:induction false} PlainSkips(d: string, i: nat, level: int, text: string)
    requires Sits(d, i, text) && Unbracketed(text)
    ensures GroupEnd(d, i, level) == GroupEnd(d, i + |text|, level)
    decreases |text|
  {
    if text != "" {
      SitsAt(d, i, text, 0);
      assert text == [text[0]] + text[1..];
      SitsBoth(d, i, [text[0]], text[1..]);
      PlainSkips(d, i + 1, level, text[1..]);
    }
  }

  lemma QuotedSkips(d: string, i: nat, level: int, raw: string)
    requires Sits(d, i, Quote(raw)) && Raw(raw)
    ensures GroupEnd(d, i, level) == GroupEnd(d, i + |Quote(raw)|, level)
  {
    QuoteSits(d, i, raw);
    StringRead(d, i, raw);
  }

  /** Inside a group, a whole part leaves the level as it was. */
  lemma {:induction false} NodeSkips(d: string, i: nat, level: int, n: Node)
    requires Sits(d, i, Text(n)) && Good(n) && level >= 1
    ensures GroupEnd(d, i, level) == GroupEnd(d, i + |Text(n)|, level)
    decreases n
  {
    hide GroupEnd, Sits, Quote, Open, Close;
    match n
    case Plain(text) => PlainSkips(d, i, level, text);
    case Quoted(raw) => QuotedSkips(d, i, level, raw);
    case Group(curly, parts) =>
      Brackets(d, i, curly, Texts(parts));
      OpensInner(d, i, level);
      NodesSkip(d, i + 1, level + 1, parts);
      BracketLengths(curly);
      ClosesInner(d, i + 1 + |Texts(parts)|, level + 1);
  }

  lemma {:induction false} NodesSkip(d: string, i: nat, level: int, ns: seq<Node>)
    requires Sits(d, i, Texts(ns)) && AllGood(ns) && level >= 1
    ensures GroupEnd(d, i, level) == GroupEnd(d, i + |Texts(ns)|, level)
    decreases ns
  {
    hide GroupEnd, Sits;
    if ns != [] {
      SitsBoth(d, i, Text(ns[0]), Texts(ns[1..]));
      NodeSkips(d, i, level, ns[0]);
      NodesSkip(d, i + |Text(ns[0])|, level, ns[1..]);
    }
  }

  lemma Brackets(d: string, i: nat, curly: bool, inner: string)
    requires Sits(d, i, Open(curly) + (inner + Close(curly)))
    ensures Sits(d, i + 1, inner) && i + 1 + |inner| < |d|
    ensures d[i] == (if curly then '{' else '[') && d[i + 1 + |inner|] == (if curly then '}' else ']')
  {
    SitsBoth(d, i, Open(curly), inner + Close(curly));
    SitsBoth(d, i + 1, inner, Close(curly));
    SitsAt(d, i, Open(curly), 0);
    SitsAt(d, i + 1 + |inner|, Close(curly), 0);
  }

  lemma BracketLengths(curly: bool)
    ensures |Open(curly)| == 1 && |Close(curly)| == 1
  {
  }

  lemma OpensInner(d: string, i: nat, level: int)
    requires i < |d| && (d[i] == '{' || d[i] == '[')
    ensures GroupEnd(d, i, level) == GroupEnd(d, i + 1, level + 1)
  {
  }

  lemma ClosesInner(d: string, i: nat, level: int)
    requires i < |d| && (d[i] == '}' || d[i] == ']') && level > 1
    ensures GroupEnd(d, i, level) == GroupEnd(d, i + 1, level - 1)
  {
  }

  lemma GroupRead(d: string, i: nat, curly: bool, parts: seq<Node>)
    requires Sits(d, i, Text(Group(curly, parts))) && AllGood(parts)
    ensures GroupAt(d, i) == Got(Text(Group(curly, parts)), i + |Text(Group(curly, parts))|)
  {
    hide AllGood, Texts, Sits, GroupEnd, GroupAt, Open, Close;
    var t := Text(Group(curly, parts));
    Brackets(d, i, curly, Texts(parts));
    BracketLengths(curly);
    OpensInner(d, i, 0);
    NodesSkip(d, i + 1, 1, parts);
    EndsOuter(d, i, i + 1 + |Texts(parts)|, t);
  }

  /** The bracket that closes the outermost level ends the group. */
  lemma EndsOuter(d: string, i: nat, k: nat, t: string)
    requires i < k < |d| && (d[k] == '}' || d[k] == ']') && GroupEnd(d, i, 0) == GroupEnd(d, k, 1)
    requires Sits(d, i, t) && i + |t| == k + 1
    ensures GroupAt(d, i) == Got(t, k + 1)
  {
    assert GroupEnd(d, k, 1) == Got("", k + 1);
  }

  // Values

  datatype Value = Digits(s: string) | Literal(s: string) | Str(raw: string) | Nested(curly: bool, parts: seq<Node>)

  predicate GoodValue(v: Value) {
    match v
    case Digits(s) => s != "" && forall k :: 0 <= k < |s| ==> IsDigit(s[k])
    case Literal(s) => Word(s)
    case Str(raw) => Inner(raw)
    case Nested(_, parts) => AllGood(parts)
  }

  function ValueText(v: Value): string {
    match v
    case Digits(s) => s
    case Literal(s) => s
    case Str(raw) => Quote(raw)
    case Nested(curly, parts) => Text(Group(curly, parts))
  }

  /** The slice that a scan yields: strings without their quotes, all else as it is written. */
  function ValueSlice(v: Value): string {
    if v.Str? then v.raw else ValueText(v)
  }

  lemma {:induction false} DigitsRead(d: string, start: nat, i: nat, s: string)
    requires start <= i && Sits(d, i, s) && (forall k :: 0 <= k < |s| ==> IsDigit(s[k]))
    requires i + |s| < |d| && Stops(d[i + |s|])
    ensures LiteralFrom(d, start, i, true) == Got(d[start..i + |s|], i + |s|)
    decreases |s|
  {
    if s != "" {
      SitsAt(d, i, s, 0);
      assert s == [s[0]] + s[1..];
      SitsBoth(d, i, [s[0]], s[1..]);
      DigitsRead(d, start, i + 1, s[1..]);
    }
  }

  lemma {:induction false} WordFrom(d: string, start: nat, i: nat, s: string)
    requires start < i <= start + |s| < |d| && Sits(d, start, s) && Word(s) && Stops(d[start + |s|])
    ensures LiteralFrom(d, start, i, false) == Got(s, start + |s|)
    decreases |s| - (i - start)
  {
    if i < start + |s| {
      SitsAt(d, start, s, i - start);
      assert !Stops(s[i - start]) && |s| <= 5;
      WordFrom(d, start, i + 1, s);
    }
  }

  lemma WordRead(d: string, i: nat, s: string)
    requires Sits(d, i, s) && Word(s) && i + |s| < |d| && Stops(d[i + |s|])
    ensures LiteralFrom(d, i, i, true) == Got(s, i + |s|)
    ensures d[i] != '"' && d[i] != '{' && d[i] != '['
  {
    SitsAt(d, i, s, 0);
    WordFrom(d, i, i + 1, s);
  }

  predicate IsLiteral(v: Value) { v.Digits? || v.Literal? }

  predicate OpenValue(v: Value) { v.Str? && OpenEnded(v.raw) }

  /** A value is read back whatever follows it; a literal must be followed by something that ends it. */
  lemma ValueRead(d: string, i: nat, v: Value)
    requires Sits(d, i, ValueText(v)) && GoodValue(v) && i + |ValueText(v)| < |d|
    requires IsLiteral(v) ==> Stops(d[i + |ValueText(v)|])
    requires !OpenValue(v)
    ensures ValueAt(d, i) == Got(ValueSlice(v), i + |ValueText(v)|)
  {
    match v
    case Digits(s) =>
      DigitsRead(d, i, i, s);
      if s != "" {
        SitsAt(d, i, s, 0);
      }
    case Literal(s) => WordRead(d, i, s);
    case Str(raw) =>
      QuoteSits(d, i, raw);
      StringRead(d, i, raw);
    case Nested(curly, parts) =>
      Brackets(d, i, curly, Texts(parts));
      GroupRead(d, i, curly, parts);
  }

  /** Once a tab has been read there is no way to end the literal. */
  lemma {:induction false} NeverEnds(d: string, start: nat, i: nat, k: nat)
    requires start <= k < i <= |d| && d[k] == '\t'
    ensures LiteralFrom(d, start, i, false) == Bad
    decreases |d| - i
  {
    if i < |d| {
      if Stops(d[i]) {
        assert d[start..i][k - start] == '\t';
      } else {
        NeverEnds(d, start, i + 1, k);
      }
    }
  }

  lemma {:induction false} TabBreaks(d: string, start: nat, i: nat, number: bool, j: nat)
    requires start <= i <= j < |d| && d[j] == '\t' && forall k :: i <= k < j ==> !Stops(d[k])
    ensures LiteralFrom(d, start, i, number) == Bad
    decreases j - i
  {
    if i < j {
      TabBreaks(d, start, i + 1, number && IsDigit(d[i]), j);
    } else {
      NeverEnds(d, start, i + 1, i);
    }
  }

  /** A literal with a tab behind it is not read at all. */
  lemma TabbedRead(d: string, i: nat, v: Value)
    requires Sits(d, i, ValueText(v)) && GoodValue(v) && IsLiteral(v)
    requires i + |ValueText(v)| < |d| && d[i + |ValueText(v)|] == '\t'
    ensures i < |d| && ValueAt(d, i) == Bad
  {
    var s := ValueText(v);
    forall k | i <= k < i + |s| ensures !Stops(d[k]) && d[k] !in {'"', '{', '['} {
      SitsAt(d, i, s, k - i);
    }
    TabBreaks(d, i, i, true, i + |s|);
  }

  // Members and objects

  /** A member with the blanks around its parts. */
  datatype Entry = Entry(before: string, key: string, mid: string, colon: string, value: Value, after: string)

  predicate GoodEntry(e: Entry) {
    && Blanks(e.before) && Blanks(e.mid) && Blanks(e.colon) && Blanks(e.after)
    && Inner(e.key) && GoodValue(e.value)
  }

  /** A number or literal with a tab right behind it: tabs are blanks, but do not end literals. */
  predicate Tabbed(e: Entry) {
    IsLiteral(e.value) && e.after != "" && e.after[0] == '\t'
  }

  /** The key or the string that is the value ends in a backslash. */
  predicate Unclosed(e: Entry) {
    OpenEnded(e.key) || OpenValue(e.value)
  }

  predicate NoTabs(es: seq<Entry>) {
    forall k :: 0 <= k < |es| ==> !Tabbed(es[k])
  }

  predicate AllClosed(es: seq<Entry>) {
    forall k :: 0 <= k < |es| ==> !Unclosed(es[k])
  }

  function Keyed(e: Entry): string { e.before + (Quote(e.key) + (e.mid + (":" + (e.colon + ValueText(e.value))))) }

  /** What follows a value: more members or the closing brace. */
  function Rest(es: seq<Entry>): string
    decreases es, 1
  {
    if es == [] then "}" else "," + Chained(es)
  }

  function Chained(es: seq<Entry>): string
    requires es != []
    decreases es, 0
  {
    Keyed(es[0]) + (es[0].after + Rest(es[1..]))
  }

  function Printed(lead: string, es: seq<Entry>, gap: string): string {
    lead + ("{" + (if es == [] then gap + "}" else Chained(es)))
  }

  predicate AllGoodEntries(es: seq<Entry>) {
    forall k :: 0 <= k < |es| ==> GoodEntry(es[k])
  }

  function Pairs(es: seq<Entry>): seq<(string, string)> {
    if es == [] then [] else [(es[0].key, ValueSlice(es[0].value))] + Pairs(es[1..])
  }

  lemma RestBegins(es: seq<Entry>)
    ensures Rest(es) != "" && (Rest(es)[0] == '}' || Rest(es)[0] == ',')
    ensures es == [] ==> Rest(es) == "}"
    ensures es != [] ==> Rest(es)[0] == ','
  {
  }

  /** What stands behind a value ends it. */
  lemma AfterStops(d: string, i: nat, after: string, es: seq<Entry>, literal: bool)
    requires Sits(d, i, after + Rest(es)) && Blanks(after) && (literal && after != "" ==> after[0] != '\t')
    ensures i < |d| && (literal ==> Stops(d[i]))
    ensures i + |after| < |d| && d[i + |after|] == Rest(es)[0] && Skip(d, i) == i + |after|
  {
    RestBegins(es);
    SitsBoth(d, i, after, Rest(es));
    SitsAt(d, i + |after|, Rest(es), 0);
    SkipBlanks(d, i, after);
    if after != "" {
      SitsAt(d, i, after, 0);
    }
  }

  lemma KeyedParts(d: string, i: nat, e: Entry)
    requires Sits(d, i, Keyed(e))
    ensures var k := i + |e.before|; var m := k + |Quote(e.key)|; var c := m + |e.mid|; var v := c + 1 + |e.colon|;
      && Sits(d, i, e.before) && Sits(d, k, Quote(e.key)) && Sits(d, m, e.mid) && Sits(d, c, ":")
      && Sits(d, c + 1, e.colon) && Sits(d, v, ValueText(e.value)) && i + |Keyed(e)| == v + |ValueText(e.value)|
  {
    hide Sits, Quote;
    var t4 := e.colon + ValueText(e.value);
    var t3 := ":" + t4;
    var t2 := e.mid + t3;
    var t1 := Quote(e.key) + t2;
    SitsBoth(d, i, e.before, t1);
    var k := i + |e.before|;
    SitsBoth(d, k, Quote(e.key), t2);
    var m := k + |Quote(e.key)|;
    SitsBoth(d, m, e.mid, t3);
    SitsBoth(d, m + |e.mid|, ":", t4);
    SitsBoth(d, m + |e.mid| + 1, e.colon, ValueText(e.value));
  }

  /** The first character of a value is not blank. */
  lemma ValueBegins(d: string, i: nat, v: Value)
    requires Sits(d, i, ValueText(v)) && GoodValue(v)
    ensures i < |d| && !Blank(d[i])
  {
    SitsAt(d, i, ValueText(v), 0);
  }

  /** The pieces of a member, at positions that add up. */
  predicate Pieces(d: string, e: Entry, i: nat, k: nat, m: nat, c: nat, v: nat, j: nat) {
    && k == i + |e.before| && m == k + |Quote(e.key)| && c == m + |e.mid| && v == c + 1 + |e.colon|
    && j == v + |ValueText(e.value)|
    && Sits(d, i, e.before) && Sits(d, k, Quote(e.key)) && Sits(d, m, e.mid) && Sits(d, c, ":")
    && Sits(d, c + 1, e.colon) && Sits(d, v, ValueText(e.value))
  }

  lemma KeyRead(d: string, e: Entry, i: nat, k: nat, m: nat, c: nat, v: nat, j: nat)
    requires Pieces(d, e, i, k, m, c, v, j) && GoodEntry(e) && !OpenEnded(e.key)
    ensures k < |d| && d[k] == '"' && Skip(d, i) == k && StringAt(d, k) == Got(e.key, m)
    ensures c < |d| && d[c] == ':' && Skip(d, m) == c
  {
    hide ValueText, GoodValue, Inner, OpenEnded;
    QuoteSits(d, k, e.key);
    StringRead(d, k, e.key);
    SitsAt(d, c, ":", 0);
    hide Quote;
    SkipBlanks(d, i, e.before);
    SkipBlanks(d, m, e.mid);
  }

  lemma EntryValueRead(d: string, e: Entry, i: nat, k: nat, m: nat, c: nat, v: nat, j: nat)
    requires Pieces(d, e, i, k, m, c, v, j) && GoodEntry(e) && j < |d| && (IsLiteral(e.value) ==> Stops(d[j]))
    requires !OpenValue(e.value)
    ensures v < |d| && Skip(d, c + 1) == v && ValueAt(d, v) == Got(ValueSlice(e.value), j)
  {
    hide Quote, Inner, OpenEnded, GoodValue, ValueText, ValueSlice, Skip, ValueAt;
    ValueBegins(d, v, e.value);
    SkipBlanks(d, c + 1, e.colon);
    ValueRead(d, v, e.value);
  }

  /** What scanning does at these positions. */
  lemma MemberFrom(d: string, i: nat, key: string, value: string, k: nat, m: nat, c: nat, v: nat, j: nat)
    requires i <= |d| && Skip(d, i) == k && StringAt(d, k) == Got(key, m)
    requires m <= |d| && Skip(d, m) == c < |d| && d[c] == ':'
    requires Skip(d, c + 1) == v < |d| && ValueAt(d, v) == Got(value, j)
    ensures MemberAt(d, i) == Member(key, value, j)
  {
    hide Skip, StringAt, ValueAt;
  }

  /** A value that cannot be read spoils its member. */
  lemma MemberFails(d: string, i: nat, key: string, k: nat, m: nat, c: nat, v: nat)
    requires i <= |d| && Skip(d, i) == k && StringAt(d, k) == Got(key, m)
    requires m <= |d| && Skip(d, m) == c < |d| && d[c] == ':'
    requires Skip(d, c + 1) == v < |d| && ValueAt(d, v) == Bad
    ensures MemberAt(d, i) == Invalid
  {
    hide Skip, StringAt, ValueAt;
  }

  lemma TabbedValue(d: string, e: Entry, i: nat, k: nat, m: nat, c: nat, v: nat, j: nat)
    requires Pieces(d, e, i, k, m, c, v, j) && GoodEntry(e) && Tabbed(e) && Sits(d, j, e.after)
    ensures v < |d| && Skip(d, c + 1) == v && ValueAt(d, v) == Bad
  {
    hide Quote, Inner, OpenEnded, GoodValue, ValueText, ValueSlice, Skip, ValueAt;
    SitsAt(d, j, e.after, 0);
    ValueBegins(d, v, e.value);
    SkipBlanks(d, c + 1, e.colon);
    TabbedRead(d, v, e.value);
  }

  /** A member whose value is followed by a tab that it cannot bear is not read. */
  lemma TabbedMember(d: string, i: nat, e: Entry, es: seq<Entry>)
    requires Sits(d, i, Keyed(e) + (e.after + Rest(es))) && GoodEntry(e) && Tabbed(e) && !Unclosed(e)
    ensures i <= |d| && MemberAt(d, i) == Invalid
    ensures Skip(d, i) == i + |e.before| < |d| && d[i + |e.before|] == '"'
  {
    hide Sits, Blanks;
    hide Rest, Inner, OpenEnded, GoodValue, Skip, StringAt, ValueAt, MemberAt, Keyed, Quote, ValueText, ValueSlice;
    hide Tabbed;
    SitsBoth(d, i, Keyed(e), e.after + Rest(es));
    KeyedParts(d, i, e);
    var k := i + |e.before|;
    var m := k + |Quote(e.key)|;
    var c := m + |e.mid|;
    var v := c + 1 + |e.colon|;
    var j := i + |Keyed(e)|;
    SitsBoth(d, j, e.after, Rest(es));
    assert Pieces(d, e, i, k, m, c, v, j);
    KeyRead(d, e, i, k, m, c, v, j);
    TabbedValue(d, e, i, k, m, c, v, j);
    MemberFails(d, i, e.key, k, m, c, v);
  }

  /** A member is read back whatever stands before it that is blank. */
  lemma MemberRead(d: string, i: nat, e: Entry, es: seq<Entry>)
    requires Sits(d, i, Keyed(e) + (e.after + Rest(es))) && GoodEntry(e) && !Tabbed(e) && !Unclosed(e)
    ensures i <= |d| && MemberAt(d, i) == Member(e.key, ValueSlice(e.value), i + |Keyed(e)|)
    ensures Sits(d, i + |Keyed(e)|, e.after + Rest(es))
    ensures Skip(d, i) == i + |e.before| < |d| && d[i + |e.before|] == '"'
  {
    hide Sits, Blanks;
    hide Rest, Inner, OpenEnded, GoodValue, Skip, StringAt, ValueAt, MemberAt, Keyed, Quote, ValueText, ValueSlice;
    SitsBoth(d, i, Keyed(e), e.after + Rest(es));
    KeyedParts(d, i, e);
    var k := i + |e.before|;
    var m := k + |Quote(e.key)|;
    var c := m + |e.mid|;
    var v := c + 1 + |e.colon|;
    var j := i + |Keyed(e)|;
    AfterStops(d, j, e.after, es, IsLiteral(e.value));
    assert Pieces(d, e, i, k, m, c, v, j);
    KeyRead(d, e, i, k, m, c, v, j);
    EntryValueRead(d, e, i, k, m, c, v, j);
    MemberFrom(d, i, e.key, ValueSlice(e.value), k, m, c, v, j);
  }

  lemma UnclosedKey(d: string, e: Entry, i: nat, k: nat, m: nat, c: nat, v: nat, j: nat)
    requires Pieces(d, e, i, k, m, c, v, j) && GoodEntry(e)
    ensures k < |d| && d[k] == '"' && Skip(d, i) == k
    ensures OpenEnded(e.key) ==> StringAt(d, k).Got? ==> StringAt(d, k).slice != e.key
  {
    hide ValueText, GoodValue, Inner, OpenEnded, StringAt;
    QuoteSits(d, k, e.key);
    if OpenEnded(e.key) {
      StringMisread(d, k, e.key);
    }
    hide Quote;
    SkipBlanks(d, i, e.before);
  }

  lemma UnclosedValue(d: string, e: Entry, i: nat, k: nat, m: nat, c: nat, v: nat, j: nat)
    requires Pieces(d, e, i, k, m, c, v, j) && GoodEntry(e) && OpenValue(e.value)
    ensures v < |d| && Skip(d, c + 1) == v && (ValueAt(d, v).Got? ==> ValueAt(d, v).slice != ValueSlice(e.value))
  {
    hide Quote, Inner, OpenEnded, Skip, StringAt;
    ValueBegins(d, v, e.value);
    SkipBlanks(d, c + 1, e.colon);
    StringMisread(d, v, e.value.raw);
    QuoteSits(d, v, e.value.raw);
  }

  /** A key that is read otherwise makes another member, or none. */
  lemma OtherKey(d: string, i: nat, key: string, k: nat)
    requires i <= |d| && Skip(d, i) == k && k < |d| && (StringAt(d, k).Got? ==> StringAt(d, k).slice != key)
    ensures MemberAt(d, i).Member? ==> MemberAt(d, i).key != key
  {
    hide Skip, StringAt, ValueAt;
  }

  lemma OtherValue(d: string, i: nat, key: string, value: string, k: nat, m: nat, c: nat, v: nat)
    requires i <= |d| && Skip(d, i) == k && StringAt(d, k) == Got(key, m)
    requires m <= |d| && Skip(d, m) == c < |d| && d[c] == ':'
    requires Skip(d, c + 1) == v < |d| && (ValueAt(d, v).Got? ==> ValueAt(d, v).slice != value)
    ensures MemberAt(d, i).Member? ==> MemberAt(d, i).value != value
  {
    hide Skip, StringAt, ValueAt;
  }

  /** A member with an open-ended key or string is not read as what it is. */
  lemma UnclosedMember(d: string, i: nat, e: Entry, es: seq<Entry>)
    requires Sits(d, i, Keyed(e) + (e.after + Rest(es))) && GoodEntry(e) && Unclosed(e)
    ensures i <= |d|
    ensures var r := MemberAt(d, i); r.Member? ==> (r.key, r.value) != (e.key, ValueSlice(e.value))
    ensures Skip(d, i) == i + |e.before| < |d| && d[i + |e.before|] == '"'
  {
    hide Sits, Blanks;
    hide Rest, Inner, OpenEnded, GoodValue, Skip, StringAt, ValueAt, MemberAt, Keyed, Quote, ValueText, ValueSlice;
    SitsBoth(d, i, Keyed(e), e.after + Rest(es));
    KeyedParts(d, i, e);
    var k := i + |e.before|;
    var m := k + |Quote(e.key)|;
    var c := m + |e.mid|;
    var v := c + 1 + |e.colon|;
    var j := i + |Keyed(e)|;
    assert Pieces(d, e, i, k, m, c, v, j);
    UnclosedKey(d, e, i, k, m, c, v, j);
    if OpenEnded(e.key) {
      OtherKey(d, i, e.key, k);
    } else {
      KeyRead(d, e, i, k, m, c, v, j);
      UnclosedValue(d, e, i, k, m, c, v, j);
      OtherValue(d, i, e.key, ValueSlice(e.value), k, m, c, v);
    }
  }

  // Repeated scans

  datatype All = All(pairs: seq<(string, string)>) | Broken

  function Prefixed(pairs: seq<(string, string)>, rest: All): All {
    match rest
    case Broken => Broken
    case All(more) => All(pairs + more)
  }

  /** What a reader gets who scans until there is nothing more. */
  function ReadAll(d: string, i: nat, first: bool): All
    requires i <= |d|
    decreases |d| - i
  {
    match ScanAt(d, i, first)
    case End(_) => All([])
    case Invalid => Broken
    case Member(k, v, next) => Prefixed([(k, v)], ReadAll(d, next, false))
  }

  /** How reading on continues when a scan finds a member. */
  lemma ReadMember(d: string, i: nat, first: bool, e: Entry, next: nat, es: seq<Entry>)
    requires i <= |d| && ScanAt(d, i, first) == Member(e.key, ValueSlice(e.value), next) && next <= |d|
    requires Expected(es, ReadAll(d, next, false)) && !Tabbed(e) && !Unclosed(e)
    ensures Expected([e] + es, ReadAll(d, i, first))
  {
    hide ScanAt, ValueSlice, Tabbed, Unclosed, ReadAll, NoTabs, AllClosed;
    ReadOn(d, i, first);
    FirstOf(e, es);
    assert ([e] + es)[1..] == es;
    OnePair((e.key, ValueSlice(e.value)), ReadAll(d, next, false), Pairs(es));
  }

  lemma OnePair(p: (string, string), rest: All, pairs: seq<(string, string)>)
    ensures Prefixed([p], rest) == All([p] + pairs) <==> rest == All(pairs)
  {
    if rest.All? {
      assert ([p] + rest.pairs)[1..] == rest.pairs && ([p] + pairs)[1..] == pairs;
    }
  }

  /** When the first member is read as something else, or not at all, so is the whole. */
  lemma MisreadMember(d: string, i: nat, first: bool, es: seq<Entry>)
    requires i <= |d| && es != [] && (Tabbed(es[0]) || Unclosed(es[0])) && !ScanAt(d, i, first).End?
    requires ScanAt(d, i, first).Member? ==>
      Unclosed(es[0]) && (ScanAt(d, i, first).key, ScanAt(d, i, first).value) != (es[0].key, ValueSlice(es[0].value))
    ensures Expected(es, ReadAll(d, i, first))
  {
    hide ScanAt, ValueSlice, Tabbed, Unclosed, ReadAll;
    ReadOn(d, i, first);
    assert Pairs(es)[0] == (es[0].key, ValueSlice(es[0].value));
  }

  lemma ReadOn(d: string, i: nat, first: bool)
    requires i <= |d|
    ensures ScanAt(d, i, first).Invalid? ==> ReadAll(d, i, first) == Broken
    ensures ScanAt(d, i, first).Member? ==>
      var r := ScanAt(d, i, first);
      r.next <= |d| && ReadAll(d, i, first) == Prefixed([(r.key, r.value)], ReadAll(d, r.next, false))
  {
    hide ScanAt;
  }

  lemma FirstOf(e: Entry, es: seq<Entry>)
    ensures NoTabs([e] + es) <==> !Tabbed(e) && NoTabs(es)
    ensures AllClosed([e] + es) <==> !Unclosed(e) && AllClosed(es)
  {
    hide Tabbed, Unclosed;
    assert ([e] + es)[0] == e;
    assert forall k :: 0 <= k < |es| ==> ([e] + es)[k + 1] == es[k];
  }

  /**
   What scanning a printed object yields: its pairs exactly if no tab stands behind a literal and no key
   or string ends in a backslash; and an error if there are only tabs.
   */
  predicate Expected(es: seq<Entry>, r: All) {
    && (r == All(Pairs(es)) <==> NoTabs(es) && AllClosed(es))
    && (AllClosed(es) && !NoTabs(es) ==> r == Broken)
  }

  lemma NextScan(d: string, i: nat, k: nat)
    requires i <= |d| && Skip(d, i) == k < |d|
    ensures d[k] == ',' ==> ScanAt(d, i, false) == MemberAt(d, k + 1)
    ensures d[k] == '}' ==> ReadAll(d, i, false) == All([])
  {
    hide Skip, MemberAt;
  }

  lemma {:induction false} RestRead(d: string, i: nat, after: string, es: seq<Entry>)
    requires Sits(d, i, after + Rest(es)) && Blanks(after) && AllGoodEntries(es)
    ensures i <= |d| && Expected(es, ReadAll(d, i, false))
    decreases |es|
  {
    hide GoodEntry, Sits, Keyed, Blanks, Skip, ScanAt, ReadAll, MemberAt, ValueSlice, Tabbed, Unclosed;
    AfterStops(d, i, after, es, false);
    RestBegins(es);
    var k := i + |after|;
    NextScan(d, i, k);
    if es != [] {
      SitsBoth(d, i, after, Rest(es));
      SitsBoth(d, k, ",", Chained(es));
      if Unclosed(es[0]) {
        UnclosedMember(d, k + 1, es[0], es[1..]);
        MisreadMember(d, i, false, es);
      } else if Tabbed(es[0]) {
        TabbedMember(d, k + 1, es[0], es[1..]);
        MisreadMember(d, i, false, es);
      } else {
        MemberRead(d, k + 1, es[0], es[1..]);
        var j := k + 1 + |Keyed(es[0])|;
        assert GoodEntry(es[0]) && Blanks(es[0].after) by { AfterBlanks(es[0]); }
        RestRead(d, j, es[0].after, es[1..]);
        hide Rest, Expected;
        assert es == [es[0]] + es[1..];
        ReadMember(d, i, false, es[0], j, es[1..]);
      }
    }
  }

  lemma AfterBlanks(e: Entry)
    requires GoodEntry(e)
    ensures Blanks(e.after)
  {
  }

  /**
   Scanning a printed object yields its members as raw slices, in order, and then no more, exactly
   when no number or literal is followed by a tab and no key or string ends in a backslash; if tabs are
   all that is wrong, it ends in an error.
   */
  lemma ScanInvertsPrint(d: string, lead: string, es: seq<Entry>, gap: string)
    requires Printed(lead, es, gap) <= d && Blanks(lead) && Blanks(gap) && AllGoodEntries(es)
    ensures ReadAll(d, 0, true) == All(Pairs(es)) <==> NoTabs(es) && AllClosed(es)
    ensures AllClosed(es) && !NoTabs(es) ==> ReadAll(d, 0, true) == Broken
  {
    var inner := if es == [] then gap + "}" else Chained(es);
    var k := |lead|;
    assert Sits(d, 0, lead + ("{" + inner));
    hide Rest, GoodEntry, ReadAll, AllGoodEntries;
    SitsBoth(d, 0, lead, "{" + inner);
    SitsBoth(d, k, "{", inner);
    SitsAt(d, k, "{", 0);
    SkipBlanks(d, 0, lead);
    if es == [] {
      SitsBoth(d, k + 1, gap, "}");
      SitsAt(d, k + 1 + |gap|, "}", 0);
      SkipBlanks(d, k + 1, gap);
      EmptyRead(d, k);
    } else {
      FirstRead(d, k, es);
    }
  }

  lemma EmptyRead(d: string, k: nat)
    requires k < |d| && Skip(d, 0) == k && d[k] == '{' && Skip(d, k + 1) < |d| && d[Skip(d, k + 1)] == '}'
    ensures ReadAll(d, 0, true) == All([])
  {
    hide Skip;
  }

  lemma FirstScan(d: string, k: nat)
    requires k < |d| && Skip(d, 0) == k && d[k] == '{' && Skip(d, k + 1) < |d| && d[Skip(d, k + 1)] == '"'
    ensures ScanAt(d, 0, true) == MemberAt(d, k + 1)
  {
    SkipTwice(d, k + 1);
    hide Skip, MemberAt;
    SameMember(d, k + 1, Skip(d, k + 1));
  }

  /** Blanks before the key make no difference. */
  lemma SameMember(d: string, i: nat, j: nat)
    requires i <= |d| && j <= |d| && Skip(d, i) == Skip(d, j)
    ensures MemberAt(d, i) == MemberAt(d, j)
  {
    hide Skip, StringAt, ValueAt;
  }

  lemma FirstRead(d: string, k: nat, es: seq<Entry>)
    requires es != [] && k < |d| && d[k] == '{' && Sits(d, k + 1, Chained(es)) && AllGoodEntries(es)
    requires Skip(d, 0) == k
    ensures Expected(es, ReadAll(d, 0, true))
  {
    hide GoodEntry, Sits, Keyed, Rest, Blanks, Skip, ScanAt, ReadAll, MemberAt, ValueSlice, Tabbed, Unclosed;
    if Unclosed(es[0]) {
      UnclosedMember(d, k + 1, es[0], es[1..]);
      FirstScan(d, k);
      MisreadMember(d, 0, true, es);
    } else if Tabbed(es[0]) {
      TabbedMember(d, k + 1, es[0], es[1..]);
      FirstScan(d, k);
      MisreadMember(d, 0, true, es);
    } else {
      MemberRead(d, k + 1, es[0], es[1..]);
      AfterBlanks(es[0]);
      var j := k + 1 + |Keyed(es[0])|;
      RestRead(d, j, es[0].after, es[1..]);
      FirstScan(d, k);
      hide Expected;
      assert es == [es[0]] + es[1..];
      ReadMember(d, 0, true, es[0], j, es[1..]);
    }
  }

  /** One member `"a":1`, with this behind it. */
  function OneDigit(after: string): Entry {
    Entry("", "a", "", "", Digits("1"), after)
  }

  lemma OneDigitText(after: string)
    ensures Printed("", [OneDigit(after)], "") == "{\"a\":1" + after + "}"
    ensures Pairs([OneDigit(after)]) == [("a", "1")]
  {
    var e := OneDigit(after);
    assert [e][1..] == [] && [e][0] == e;
    assert Quote("a") == "\"a\"";
    assert Keyed(e) == "\"a\":1";
    hide Keyed;
    assert Chained([e]) == Keyed(e) + (after + "}");
  }

  lemma OneDigitGood(after: string)
    requires Blanks(after)
    ensures AllGoodEntries([OneDigit(after)]) && AllClosed([OneDigit(after)])
    ensures Tabbed(OneDigit(after)) <==> after != "" && after[0] == '\t'
  {
    assert GoodEntry(OneDigit(after));
  }

  lemma OneDigitRead(after: string)
    requires Blanks(after)
    ensures ReadAll("{\"a\":1" + after + "}", 0, true)
         == if after != "" && after[0] == '\t' then Broken else All([("a", "1")])
  {
    OneDigitText(after);
    OneDigitGood(after);
    hide Printed, ReadAll, Pairs, Tabbed, AllGoodEntries, OneDigit, AllClosed;
    assert [OneDigit(after)][0] == OneDigit(after);
    ScanInvertsPrint("{\"a\":1" + after + "}", "", [OneDigit(after)], "");
  }

  /** The failing input: JSON allows the tab, the scanner does not. */
  lemma TabFails()
    ensures ReadAll("{\"a\":1\t}", 0, true) == Broken
    ensures ReadAll("{\"a\":1 \t}", 0, true) == All([("a", "1")])
  {
    hide ReadAll;
    OneDigitRead("\t");
    OneDigitRead(" \t");
    assert "{\"a\":1" + "\t" + "}" == "{\"a\":1\t}";
    assert "{\"a\":1" + " \t" + "}" == "{\"a\":1 \t}";
  }

  /** One member `"a":"\\"`, whose value is an escaped backslash. */
  const BACKSLASH := Entry("", "a", "", "", Str("\\\\"), "")

  lemma BackslashText()
    ensures Printed("", [BACKSLASH], "") == "{\"a\":\"\\\\\"}" && Pairs([BACKSLASH]) == [("a", "\\\\")]
    ensures AllGoodEntries([BACKSLASH]) && !AllClosed([BACKSLASH])
  {
    var e := BACKSLASH;
    assert [e][1..] == [] && [e][0] == e;
    assert GoodEntry(e) && Unclosed(e);
    assert Quote("a") == "\"a\"" && Quote("\\\\") == "\"\\\\\"";
    assert Keyed(e) == "\"a\":\"\\\\\"";
    hide Keyed;
    assert Chained([e]) == Keyed(e) + ("" + "}");
  }

  /** The other failing input: a value that is one escaped backslash. */
  lemma BackslashFails()
    ensures ReadAll("{\"a\":\"\\\\\"}", 0, true) != All([("a", "\\\\")])
  {
    BackslashText();
    hide Printed, ReadAll, Pairs, AllGoodEntries, AllClosed;
    ScanInvertsPrint("{\"a\":\"\\\\\"}", "", [BACKSLASH], "");
  }

  /** The loop in which the scanner is used: scan until there is nothing more. */
  method Members(d: string) returns (r: All)
    ensures r == ReadAll(d, 0, true)
  {
    var json := new Json(d);
    var pairs: seq<(string, string)> := [];
    AheadNone(ReadAll(d, 0, true));
    hide ScanAt, Prefixed;
    while true
      invariant fresh(json) && json.Valid() && json.data == d && json.status <= 1
      invariant ReadAll(d, 0, true) == Prefixed(pairs, ReadAll(d, json.index, json.status == 0))
      decreases |d| - json.index
    {
      ghost var rest := ReadAll(d, json.index, json.status == 0);
      var code := json.Scan();
      if code == 0 {
        AheadEnd(pairs);
        return All(pairs);
      }
      if code != 1 {
        AheadEnd(pairs);
        return Broken;
      }
      AheadMore(pairs, (json.key, json.value), ReadAll(d, json.index, false));
      pairs := pairs + [(json.key, json.value)];
    }
  }

  lemma AheadNone(rest: All)
    ensures Prefixed([], rest) == rest
  {
    if rest.All? {
      assert [] + rest.pairs == rest.pairs;
    }
  }

  lemma AheadEnd(pairs: seq<(string, string)>)
    ensures Prefixed(pairs, All([])) == All(pairs) && Prefixed(pairs, Broken) == Broken
  {
  }

  lemma AheadMore(pairs: seq<(string, string)>, p: (string, string), rest: All)
    ensures Prefixed(pairs, Prefixed([p], rest)) == Prefixed(pairs + [p], rest)
  {
    if rest.All? {
      assert pairs + ([p] + rest.pairs) == (pairs + [p]) + rest.pairs;
    }
  }

  lemma {:induction false} SkipTwice(d: string, i: nat)
    requires i <= |d|
    ensures Skip(d, Skip(d, i)) == Skip(d, i)
    decreases |d| - i
  {
    if i < |d| && Blank(d[i]) {
      SkipTwice(d, i + 1);
    }
  }

  // Quoting

  lemma {:induction false} EscapedQuotes(s: string)
    ensures var e := Escaped(s);
      && (forall k :: 0 <= k < |e| && e[k] == '"' ==> k > 0 && e[k - 1] == '\\')
      && (s == "" <==> e == "") && (s != "" ==> e[|e| - 1] == s[|s| - 1])
  {
    if s != "" {
      EscapedQuotes(s[1..]);
      var front := if s[0] == '"' then ['\\', '"'] else [s[0]];
      assert Escaped(s) == front + Escaped(s[1..]);
    }
  }

  /** When the only candidate for a closing quote is escaped, there is none. */
  lemma {:induction false} NoStringEnd(d: string, i: nat)
    requires 1 <= i <= |d| && forall j :: i <= j < |d| && d[j] == '"' ==> d[j - 1] == '\\'
    ensures StringEnd(d, i) == |d|
    decreases |d| - i
  {
    if i < |d| {
      NoStringEnd(d, i + 1);
    }
  }

  /** Reading back an escaped string between quotes finds it, unless its last backslash hides the closing quote. */
  lemma QuotedIsFound(s: string)
    ensures StringAt(Quote(Escaped(s)), 0)
         == if s != "" && s[|s| - 1] == '\\' then Bad else Got(Escaped(s), |Escaped(s)| + 2)
  {
    var e := Escaped(s);
    EscapedQuotes(s);
    hide Escaped;
    var d := Quote(e);
    if s != "" && s[|s| - 1] == '\\' {
      forall j | 1 <= j < |d| && d[j] == '"' ensures d[j - 1] == '\\' {
        assert j <= |e| ==> d[j] == e[j - 1];
        assert d[j - 1] == e[j - 2];
      }
      NoStringEnd(d, 1);
    } else {
      assert Sits(d, 0, Quote(e));
      StringRead(d, 0, e);
    }
  }

  /** What a client gets back that quotes a string, has it scanned, and decodes the value. */
  function QuotedAndRead(s: string): Decoded {
    match StringAt(Quote(Escaped(s)), 0)
    case Bad => Rejected
    case Got(slice, _) => Unescaped(slice)
  }

  /** Quoting, reading and decoding return the original exactly when each of its backslashes precedes a quote. */
  lemma QuotingRoundTripIff(s: string)
    ensures QuotedAndRead(s) == Accepted(s) <==> Quotable(s)
  {
    QuotedIsFound(s);
    UnescapeEscapeIff(s);
    if s != "" && s[|s| - 1] == '\\' {
      assert !Quotable(s);
    }
    hide Escaped, Unescaped, StringAt;
  }

  /** So they do for every string without backslashes, whatever quotes it contains or ends in. */
  lemma PlainStringsRoundTrip(s: string)
    requires '\\' !in s
    ensures QuotedAndRead(s) == Accepted(s)
  {
    QuotingRoundTripIff(s);
  }
}
