/**
 The queue-name table as a plain pair of maps: exact names, and prefixes that were
 registered with a trailing '*'. This is what the trie of the mapper stands for.
 A value of 0 means "no queue".
 */
module Names {

  datatype Names = Names(exact: map<string, nat>, wild: map<string, nat>)

  const NO_NAMES := Names(map[], map[])

  /** Position of the first '*', or the length of the name when there is none. */
  function StarAt(name: string): (i: nat)
    ensures i <= |name| && '*' !in name[..i]
    ensures i < |name| ==> name[i] == '*'
  {
    if name == [] then 0
    else if name[0] == '*' then 0
    else
      var r := StarAt(name[1..]);
      assert name[..1 + r] == [name[0]] + name[1..][..r];
      1 + r
  }

  predicate IsWild(name: string) { StarAt(name) < |name| }

  function Put(m: map<string, nat>, key: string, value: nat): (r: map<string, nat>) {
    if value == 0 then m - {key} else m[key := value]
  }

  /** Registration: everything from the first '*' on is ignored, and what precedes it is a prefix. */
  function Register(n: Names, name: string, value: nat): (r: Names) {
    if IsWild(name) then n.(wild := Put(n.wild, name[..StarAt(name)], value))
    else n.(exact := Put(n.exact, name, value))
  }

  /** The value of the longest registered prefix of name[..i], 0 if there is none. */
  function LongestPrefix(wild: map<string, nat>, name: string, i: nat): (v: nat)
    requires i <= |name|
  {
    if name[..i] in wild then wild[name[..i]]
    else if i == 0 then 0
    else LongestPrefix(wild, name, i - 1)
  }

  /** The queue a name resolves to. */
  function Lookup(n: Names, name: string): (v: nat) {
    if name in n.exact then n.exact[name] else LongestPrefix(n.wild, name, |name|)
  }

  /** No registered name carries the value 0. */
  predicate Positive(n: Names) {
    && (forall k :: k in n.exact ==> n.exact[k] != 0)
    && (forall k :: k in n.wild ==> n.wild[k] != 0)
  }
}
