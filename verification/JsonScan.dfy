/** The pull scanner for the members of a JSON object, as functions of text and position, and as a class. */
module JsonScan {

  /** What is read and where reading goes on, or a position that holds no such thing. */
  datatype Read = Got(slice: string, next: nat) | Bad

  datatype Scan = Member(key: string, value: string, next: nat) | End(next: nat) | Invalid

  predicate Blank(c: char) { c == ' ' || c == '\n' || c == '\r' || c == '\t' }

  predicate IsDigit(c: char) { '0' <= c <= '9' }

  /** What ends a literal; a tab does not, and neither does a closing bracket. */
  predicate Stops(c: char) { c == ' ' || c == ',' || c == '}' || c == '\n' || c == '\r' }

  /** The first position from i on that is not blank, or the end. */
  function Skip(d: string, i: nat): (k: nat)
    requires i <= |d|
    ensures i <= k <= |d|
    ensures k < |d| ==> !Blank(d[k])
    decreases |d| - i
  {
    if i < |d| && Blank(d[i]) then Skip(d, i + 1) else i
  }

  /** The next quote that no backslash precedes, or the end. */
  function StringEnd(d: string, i: nat): (k: nat)
    requires 1 <= i <= |d|
    ensures i <= k <= |d|
    decreases |d| - i
  {
    if i == |d| || (d[i] == '"' && d[i - 1] != '\\') then i else StringEnd(d, i + 1)
  }

  function StringAt(d: string, i: nat): (r: Read)
    requires i <= |d|
    ensures r.Got? ==> i < r.next <= |d|
  {
    if i == |d| || d[i] != '"' then Bad
    else
      var k := StringEnd(d, i + 1);
      if k == |d| then Bad else Got(d[i + 1..k], k + 1)
  }

  predicate Word(s: string) { s == "null" || s == "true" || s == "false" }

  /** A literal that began at `start` is read on at i; anything but a number has at most five characters. */
  function LiteralFrom(d: string, start: nat, i: nat, number: bool): (r: Read)
    requires start <= i <= |d|
    ensures r.Got? ==> i <= r.next <= |d|
    decreases |d| - i
  {
    if i == |d| then Bad
    else if Stops(d[i]) then (if number || Word(d[start..i]) then Got(d[start..i], i) else Bad)
    else if !(number && IsDigit(d[i])) && i + 1 - start > 5 then Bad
    else LiteralFrom(d, start, i + 1, number && IsDigit(d[i]))
  }

  /** Just behind the bracket that closes the level; strings are passed over as a whole. */
  function GroupEnd(d: string, i: nat, level: int): (r: Read)
    requires i <= |d|
    ensures r.Got? ==> i < r.next <= |d|
    decreases |d| - i
  {
    if i == |d| then Bad
    else if d[i] == '{' || d[i] == '[' then GroupEnd(d, i + 1, level + 1)
    else if d[i] == '}' || d[i] == ']' then (if level == 1 then Got("", i + 1) else GroupEnd(d, i + 1, level - 1))
    else if d[i] == '"' then
      match StringAt(d, i)
      case Bad => Bad
      case Got(_, next) => GroupEnd(d, next, level)
    else GroupEnd(d, i + 1, level)
  }

  function GroupAt(d: string, i: nat): (r: Read)
    requires i <= |d|
    ensures r.Got? ==> i < r.next <= |d|
  {
    var r := GroupEnd(d, i, 0);
    if r.Bad? then Bad else Got(d[i..r.next], r.next)
  }

  function ValueAt(d: string, i: nat): (r: Read)
    requires i < |d|
    ensures r.Got? ==> i <= r.next <= |d|
  {
    if d[i] == '"' then StringAt(d, i)
    else if d[i] == '{' || d[i] == '[' then GroupAt(d, i)
    else LiteralFrom(d, i, i, true)
  }

  /** A member from its key on; blanks may come first. */
  function MemberAt(d: string, i: nat): (r: Scan)
    requires i <= |d|
    ensures !r.End? && (r.Member? ==> i < r.next <= |d|)
  {
    var k := Skip(d, i);
    var key := StringAt(d, k);
    if key.Bad? then Invalid
    else
      var c := Skip(d, key.next);
      if c == |d| || d[c] != ':' then Invalid
      else
        var v := Skip(d, c + 1);
        if v == |d| then Invalid
        else
          match ValueAt(d, v)
          case Bad => Invalid
          case Got(value, next) => Member(key.slice, value, next)
  }

  /** One scan: the first one expects an opening brace, the others a comma, and all may find the closing brace. */
  function ScanAt(d: string, i: nat, first: bool): (r: Scan)
    requires i <= |d|
    ensures r.Member? ==> i < r.next <= |d|
    ensures r.End? ==> r.next <= |d|
  {
    if d == "" then End(i)
    else
      var k := Skip(d, i);
      if k == |d| then Invalid
      else if first then
        if d[k] != '{' then Invalid
        else
          var m := Skip(d, k + 1);
          if m == |d| then Invalid
          else if d[m] == '}' then End(m + 1)
          else MemberAt(d, m)
      else if d[k] == '}' then End(k + 1)
      else if d[k] != ',' then Invalid
      else MemberAt(d, k + 1)
  }

  class Json {
    var data: string
    var index: nat
    var status: nat
    var key: string
    var value: string

    predicate Valid()
      reads this
    {
      index <= |data|
    }

    constructor (data: string)
      ensures Valid() && this.data == data && index == 0 && status == 0 && key == "" && value == ""
    {
      new;
      Load(data);
    }

    method Load(data: string)
      modifies this
      ensures Valid() && this.data == data && index == 0 && status == 0 && key == "" && value == ""
    {
      this.data := data;
      index, status, key, value := 0, 0, "", "";
    }

    /** Blanks; it is an error when nothing else follows. */
    method Strip() returns (ok: bool)
      requires Valid()
      modifies `index
      ensures Valid() && index == Skip(data, old(index)) && ok == (index < |data|)
    {
      while index < |data|
        invariant Valid() && Skip(data, index) == Skip(data, old(index))
        decreases |data| - index
      {
        if !Blank(data[index]) { return true; }
        index := index + 1;
      }
      ok := false;
    }

    method Next() returns (ok: bool, c: char)
      requires Valid()
      modifies `index
      ensures Valid() && ok == (old(index) < |data|)
      ensures ok ==> c == data[old(index)] && index == old(index) + 1
      ensures !ok ==> index == old(index)
    {
      if index >= |data| { return false, ' '; }
      c := data[index];
      index := index + 1;
      ok := true;
    }

    method ReadString() returns (ok: bool, slice: string)
      requires Valid()
      modifies `index
      ensures Valid()
      ensures var r := StringAt(data, old(index));
        ok == r.Got? && (ok ==> slice == r.slice && index == r.next)
    {
      slice := "";
      var c;
      ok, c := Next();
      if !ok || c != '"' { return false, ""; }
      var start := index;
      while index < |data|
        invariant Valid() && start <= index && start == old(index) + 1
        invariant StringEnd(data, index) == StringEnd(data, start)
        decreases |data| - index
      {
        if data[index] == '"' && data[index - 1] != '\\' {
          index := index + 1;
          return true, data[start..index - 1];
        }
        index := index + 1;
      }
      ok := false;
    }

    method ReadValue() returns (ok: bool, slice: string)
      requires Valid()
      modifies `index
      ensures Valid()
      ensures var r := LiteralFrom(data, old(index), old(index), true);
        ok == r.Got? && (ok ==> slice == r.slice && index == r.next)
    {
      slice := "";
      var start, number := index, true;
      while true
        invariant Valid() && start <= index && start == old(index)
        invariant LiteralFrom(data, start, index, number) == LiteralFrom(data, start, start, true)
        decreases |data| - index
      {
        var a;
        ok, a := Next();
        if !ok { return; }
        if Stops(a) { break; }
        if !IsDigit(a) { number := false; }
        if !number && index - start > 5 { return false, ""; }
      }
      index := index - 1;
      slice := data[start..index];
      ok := number || Word(slice);
    }

    method ReadObject() returns (ok: bool, slice: string)
      requires Valid()
      modifies `index
      ensures Valid()
      ensures var r := GroupAt(data, old(index));
        ok == r.Got? && (ok ==> slice == r.slice && index == r.next)
    {
      slice := "";
      var level: int, start := 0, index;
      while true
        invariant Valid() && start <= index && start == old(index)
        invariant GroupEnd(data, index, level) == GroupEnd(data, start, 0)
        decreases |data| - index
      {
        var a;
        ok, a := Next();
        if !ok { return; }
        if a == '{' || a == '[' {
          level := level + 1;
        } else if a == '}' || a == ']' {
          level := level - 1;
          if level == 0 { return true, data[start..index]; }
        } else if a == '"' {
          index := index - 1;
          var s;
          ok, s := ReadString();
          if !ok { return; }
        }
      }
    }

    /** scan: 1 a member was read, 0 there are no more, -1 the text is not what it should be. */
    method Scan() returns (r: int)
      requires Valid()
      modifies this
      ensures Valid() && data == old(data)
      ensures match ScanAt(data, old(index), old(status) == 0)
        case Member(k, v, next) => r == 1 && key == k && value == v && index == next && status == 1
        case End(next) => r == 0 && index == next && key == old(key) && value == old(value) && status == old(status)
        case Invalid => r == -1
      requires status <= 1
    {
      hide Skip, MemberAt;
      if data == "" { return 0; }
      var ok := Strip();
      if !ok { return -1; }
      var a;
      if status == 0 {
        ok, a := Next();
        if a != '{' { return -1; }
        ok := Strip();
        if !ok { return -1; }
        ok, a := Next();
        if a == '}' { return 0; }
        index := index - 1;
      } else {
        ok, a := Next();
        if a == '}' { return 0; }
        if a != ',' { return -1; }
      }
      ok := ScanMember();
      if !ok { return -1; }
      status := 1;
      r := 1;
    }

    /** The part of scan from the key on. */
    method ScanMember() returns (ok: bool)
      requires Valid()
      modifies `index, `key, `value
      ensures Valid()
      ensures match MemberAt(data, old(index))
        case Member(k, v, next) => ok && key == k && value == v && index == next
        case _ => !ok
    {
      hide Skip, StringAt, ValueAt;
      var a, k, v;
      ok := Strip();
      if !ok { return false; }
      ok, k := ReadString();
      if !ok { return false; }
      ok := Strip();
      if !ok { return false; }
      ok, a := Next();
      if a != ':' { return false; }
      ok := Strip();
      if !ok { return false; }
      ok, v := ReadAny();
      if !ok { return false; }
      key, value := k, v;
    }

    /** The value: which kind it is shows at its first character. */
    method ReadAny() returns (ok: bool, slice: string)
      requires Valid() && index < |data|
      modifies `index
      ensures Valid()
      ensures var r := ValueAt(data, old(index));
        ok == r.Got? && (ok ==> slice == r.slice && index == r.next)
    {
      hide StringAt, GroupAt, LiteralFrom;
      var a;
      ok, a := Next();
      index := index - 1;
      if a == '"' {
        ok, slice := ReadString();
      } else if a == '{' || a == '[' {
        ok, slice := ReadObject();
      } else {
        ok, slice := ReadValue();
      }
    }
  }
}
