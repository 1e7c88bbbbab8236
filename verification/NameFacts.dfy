/** What lookup and registration in the table of names mean. */
module NameFacts {
  import opened Names

  predicate Registered(wild: map<string, nat>, name: string, i: nat)
    requires i <= |name|
  {
    name[..i] in wild
  }

  /** LongestPrefix is the value of the longest registered prefix, and 0 exactly when there is none. */
  lemma {:induction false} LongestPrefixIs(wild: map<string, nat>, name: string, i: nat) returns (k: int)
    requires i <= |name|
    ensures -1 <= k <= i
    ensures forall j :: k < j <= i ==> !Registered(wild, name, j)
    ensures k >= 0 ==> Registered(wild, name, k) && LongestPrefix(wild, name, i) == wild[name[..k]]
    ensures k < 0 ==> LongestPrefix(wild, name, i) == 0
  {
    if Registered(wild, name, i) {
      k := i;
    } else if i == 0 {
      k := -1;
    } else {
      k := LongestPrefixIs(wild, name, i - 1);
    }
  }

  /** The names that an entry speaks for. */
  predicate Matches(entry: string, name: string) {
    if IsWild(entry) then entry[..StarAt(entry)] <= name else entry == name
  }

  lemma {:induction false} OtherPrefixes(wild: map<string, nat>, key: string, value: nat, name: string, i: nat)
    requires i <= |name| && forall j :: 0 <= j <= i ==> name[..j] != key
    ensures LongestPrefix(Put(wild, key, value), name, i) == LongestPrefix(wild, name, i)
  {
    assert name[..i] != key;
    if name[..i] !in wild && i > 0 {
      OtherPrefixes(wild, key, value, name, i - 1);
    }
  }

  /** Registering or forgetting an entry changes the answer only for names that the entry matches. */
  lemma OnlyMatchesChange(n: Names, entry: string, value: nat, name: string)
    requires !Matches(entry, name)
    ensures Lookup(Register(n, entry, value), name) == Lookup(n, name)
  {
    if IsWild(entry) {
      var key := entry[..StarAt(entry)];
      forall j | 0 <= j <= |name| ensures name[..j] != key {
        assert name[..j] <= name;
      }
      OtherPrefixes(n.wild, key, value, name, |name|);
    }
  }

  /** A registered entry answers for itself: an exact name at once, a prefix unless something closer is known. */
  lemma RegisteredAnswers(n: Names, entry: string, value: nat, name: string)
    requires value != 0 && Matches(entry, name)
    ensures !IsWild(entry) ==> Lookup(Register(n, entry, value), name) == value
    ensures IsWild(entry) && name == entry[..StarAt(entry)] && name !in n.exact ==>
            Lookup(Register(n, entry, value), name) == value
  {
    assert name[..|name|] == name;
  }

  lemma {:induction false} PrefixPositive(wild: map<string, nat>, name: string, i: nat, k: nat)
    requires k <= i <= |name| && name[..k] in wild && (forall s :: s in wild ==> wild[s] != 0)
    ensures LongestPrefix(wild, name, i) != 0
  {
    if name[..i] !in wild {
      PrefixPositive(wild, name, i - 1, k);
    }
  }

  /** An entry that is in the table is found under its own name, star and all. */
  lemma StoredIsFound(n: Names, entry: string)
    requires Positive(n)
    requires if IsWild(entry) then entry[..StarAt(entry)] in n.wild else entry in n.exact
    ensures Lookup(n, entry) != 0
  {
    if IsWild(entry) {
      PrefixPositive(n.wild, entry, |entry|, StarAt(entry));
    }
  }

  /** What a name occupies in the table of names: everything from its first star on is ignored. */
  datatype Entry = Exact(key: string) | Wild(key: string)

  function EntryOf(name: string): Entry {
    if IsWild(name) then Wild(name[..StarAt(name)]) else Exact(name)
  }

  function ValueAt(n: Names, e: Entry): nat {
    match e
    case Exact(key) => if key in n.exact then n.exact[key] else 0
    case Wild(key) => if key in n.wild then n.wild[key] else 0
  }

  lemma RegisterValue(n: Names, name: string, value: nat, e: Entry)
    ensures ValueAt(Register(n, name, value), e) == if e == EntryOf(name) then value else ValueAt(n, e)
  {
  }

  /** A name that resolves to nothing has no entry of its own. */
  lemma UnknownHasNoEntry(n: Names, name: string)
    requires Positive(n) && Lookup(n, name) == 0
    ensures ValueAt(n, EntryOf(name)) == 0
  {
    if ValueAt(n, EntryOf(name)) != 0 {
      StoredIsFound(n, name);
    }
  }

  /** Whatever a name resolves to is the value of some entry. */
  lemma {:induction false} PrefixHasEntry(n: Names, name: string, i: nat) returns (e: Entry)
    requires i <= |name|
    ensures ValueAt(n, e) == LongestPrefix(n.wild, name, i)
  {
    if name[..i] in n.wild || i == 0 {
      e := Wild(name[..i]);
    } else {
      e := PrefixHasEntry(n, name, i - 1);
    }
  }

  lemma LookupHasEntry(n: Names, name: string) returns (e: Entry)
    ensures ValueAt(n, e) == Lookup(n, name)
  {
    if name in n.exact {
      e := Exact(name);
    } else {
      e := PrefixHasEntry(n, name, |name|);
    }
  }

  /** Stars are never stored. */
  predicate StarFree(n: Names) {
    (forall s :: s in n.exact ==> '*' !in s) && (forall s :: s in n.wild ==> '*' !in s)
  }

  lemma {:induction false} PlainPrefixes(wild: map<string, nat>, name: string, i: nat, j: nat)
    requires i <= j <= |name| && i < |name| && name[i] == '*' && forall s :: s in wild ==> '*' !in s
    ensures LongestPrefix(wild, name, j) == LongestPrefix(wild, name, i)
  {
    if i < j {
      assert name[..j][i] == '*';
      PlainPrefixes(wild, name, i, j - 1);
    }
  }

  /** A name that resolved to nothing resolves to its own value once it is registered. */
  lemma NewIsFound(n: Names, name: string, value: nat)
    requires StarFree(n) && Lookup(n, name) == 0 && Positive(n) && value != 0
    ensures Lookup(Register(n, name, value), name) == value
  {
    var i := StarAt(name);
    if IsWild(name) {
      var m := Register(n, name, value);
      assert name[i] == '*' && name !in n.exact;
      PlainPrefixes(m.wild, name, i, |name|);
    }
  }
}
