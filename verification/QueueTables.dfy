/**
 The table of queues beside the mapper. A queue occupies one slot; the mapper stores the slot
 number, counted from 1, under the name the queue was created with.
 */
module QueueTables {
  import opened Names
  import opened NameFacts
  import opened Tries
  import opened Mappers

  /** An occupied slot is stored under the entry of its name. */
  predicate SlotKnown(n: Names, slots: seq<string>, used: set<nat>, i: nat)
  {
    i in used ==> i < |slots| && ValueAt(n, EntryOf(slots[i])) == i + 1
  }

  /** A stored value is the number of an occupied slot whose name has this entry. */
  predicate EntryKnown(n: Names, slots: seq<string>, used: set<nat>, e: Entry) {
    var v := ValueAt(n, e);
    v != 0 ==> v - 1 in used && v - 1 < |slots| && EntryOf(slots[v - 1]) == e
  }

  /** Occupied slots and stored values are in one-to-one agreement. */
  ghost predicate InStep(n: Names, slots: seq<string>, used: set<nat>) {
    && Positive(n)
    && (forall i :: SlotKnown(n, slots, used, i))
    && (forall e :: EntryKnown(n, slots, used, e))
  }

  /** Filling a free slot under a name that has no entry. */
  lemma FillKeeps(n: Names, slots: seq<string>, used: set<nat>, i: nat, name: string, slots': seq<string>)
    requires InStep(n, slots, used) && i !in used && ValueAt(n, EntryOf(name)) == 0
    requires |slots| <= |slots'| && i < |slots'| && slots'[i] == name
    requires forall j :: 0 <= j < |slots| && j != i ==> slots'[j] == slots[j]
    ensures InStep(Register(n, name, i + 1), slots', used + {i})
  {
    var m := Register(n, name, i + 1);
    forall j: nat ensures SlotKnown(m, slots', used + {i}, j) {
      assert SlotKnown(n, slots, used, j);
      if j in used {
        RegisterValue(n, name, i + 1, EntryOf(slots[j]));
      }
      RegisterValue(n, name, i + 1, EntryOf(name));
    }
    forall e ensures EntryKnown(m, slots', used + {i}, e) {
      assert EntryKnown(n, slots, used, e);
      RegisterValue(n, name, i + 1, e);
    }
  }

  /** Emptying the slot that an entry names. */
  lemma EmptyKeeps(n: Names, slots: seq<string>, used: set<nat>, name: string)
    requires InStep(n, slots, used)
    ensures var v := ValueAt(n, EntryOf(name));
      InStep(Register(n, name, 0), slots, if v == 0 then used else used - {v - 1})
  {
    var v, e0 := ValueAt(n, EntryOf(name)), EntryOf(name);
    var left := if v == 0 then used else used - {v - 1};
    var m := Register(n, name, 0);
    assert EntryKnown(n, slots, used, e0);
    forall j: nat ensures SlotKnown(m, slots, left, j) {
      assert SlotKnown(n, slots, used, j);
      if j in left {
        RegisterValue(n, name, 0, EntryOf(slots[j]));
      }
    }
    forall e ensures EntryKnown(m, slots, left, e) {
      assert EntryKnown(n, slots, used, e);
      RegisterValue(n, name, 0, e);
    }
  }

  class QueueLine {
    const name: string

    constructor (name: string)
      ensures this.name == name
    {
      this.name := name;
    }
  }

  function NamesOf(list: seq<QueueLine?>): (r: seq<string>)
    ensures |r| == |list| && forall i :: 0 <= i < |list| && list[i] != null ==> r[i] == list[i].name
  {
    seq(|list|, i requires 0 <= i < |list| => if list[i] == null then "" else list[i].name)
  }

  function Used(list: seq<QueueLine?>): set<nat> {
    set i: nat | i < |list| && list[i] != null
  }

  /** The table with a new queue in slot i. */
  function NewIn(list: seq<QueueLine?>, i: nat, ql: QueueLine): seq<QueueLine?> {
    if i < |list| then list[i := ql] else list + [ql]
  }

  /** Slot i is the first free one, or the next one to come. */
  predicate FirstFree(list: seq<QueueLine?>, i: nat) {
    && i <= |list|
    && (i < |list| ==> list[i] == null)
    && (forall j :: 0 <= j < i ==> list[j] != null)
  }

  lemma InStepPositive(n: Names, slots: seq<string>, used: set<nat>)
    requires InStep(n, slots, used)
    ensures Positive(n)
  {
  }

  lemma FillSlot(n: Names, list: seq<QueueLine?>, i: nat, ql: QueueLine)
    requires InStep(n, NamesOf(list), Used(list)) && FirstFree(list, i) && ValueAt(n, EntryOf(ql.name)) == 0
    ensures InStep(Register(n, ql.name, i + 1), NamesOf(NewIn(list, i, ql)), Used(NewIn(list, i, ql)))
    ensures i in Used(NewIn(list, i, ql)) && NamesOf(NewIn(list, i, ql))[i] == ql.name
  {
    hide InStep;
    var next := NewIn(list, i, ql);
    assert Used(next) == Used(list) + {i};
    FillKeeps(n, NamesOf(list), Used(list), i, ql.name, NamesOf(next));
  }

  lemma EntryIsLive(n: Names, list: seq<QueueLine?>, e: Entry)
    requires InStep(n, NamesOf(list), Used(list))
    ensures ValueAt(n, e) != 0 ==> ValueAt(n, e) <= |list| && list[ValueAt(n, e) - 1] != null
  {
    assert EntryKnown(n, NamesOf(list), Used(list), e);
  }

  lemma SameSlots(n: Names, slots: seq<string>, slots': seq<string>, used: set<nat>)
    requires InStep(n, slots, used) && |slots| == |slots'|
    requires forall i :: i in used && i < |slots| ==> slots'[i] == slots[i]
    ensures InStep(n, slots', used)
  {
    forall i ensures SlotKnown(n, slots', used, i) {
      assert SlotKnown(n, slots, used, i);
    }
    forall e ensures EntryKnown(n, slots', used, e) {
      assert EntryKnown(n, slots, used, e);
    }
  }

  /** A queue whose name was not stored has no entry. */
  lemma NamelessSlot(n: Names, slots: seq<string>, used: set<nat>, i: nat)
    requires i in used && i < |slots| && ValueAt(n, EntryOf(slots[i])) == 0
    ensures !InStep(n, slots, used)
  {
    assert !SlotKnown(n, slots, used, i);
  }

  lemma NothingStored()
    ensures InStep(NO_NAMES, NamesOf([]), Used([]))
  {
    forall e ensures EntryKnown(NO_NAMES, NamesOf([]), Used([]), e) {
      assert ValueAt(NO_NAMES, e) == 0;
    }
  }

  class QueueTable {
    const mapper: Mapper
    var list: seq<QueueLine?>

    ghost predicate Valid()
      reads this, mapper, mapper.abuf, mapper.buf
    {
      mapper.Valid() && !mapper.locked && InStep(mapper.View(), NamesOf(list), Used(list))
    }

    constructor ()
      ensures Valid() && list == [] && mapper.size == 1 && fresh(mapper) && fresh(mapper.abuf)
    {
      hide InStep, Mapper.Valid, Mapper.View;
      NothingStored();
      mapper := new Mapper();
      list := [];
    }

    /** The queue that a name resolves to, if any. */
    ghost function Resolved(key: string): (ql: QueueLine?)
      reads this, mapper, mapper.abuf
    {
      var v := Lookup(mapper.View(), key);
      if v == 0 || v > |list| then null else list[v - 1]
    }

    /** A known name resolves to a queue. */
    lemma KnownIsLive(key: string)
      requires Valid() && Lookup(mapper.View(), key) != 0
      ensures Lookup(mapper.View(), key) <= |list| && Resolved(key) != null
    {
      hide Mapper.Valid, Mapper.View, Lookup, LongestPrefix;
      var n := mapper.View();
      var e := LookupHasEntry(n, key);
      assert EntryKnown(n, NamesOf(list), Used(list), e);
    }

    /**
     get_queue: with `create`, an unknown name gets a new queue in the first free slot. On a throw this
     queue stays there without an entry, and the mapper stays locked.
     */
    method GetQueue(key: string, create: bool) returns (ql: QueueLine?, thrown: bool)
      requires Valid() && mapper.size + |key| <= MAX_NODE
      modifies this, mapper, mapper.abuf
      ensures thrown <==> create && old(Resolved(key)) == null && !Addable(key)
      ensures !thrown ==> Valid() && ql == Resolved(key)
      ensures !thrown && (!create || old(Resolved(key)) != null) ==>
                ql == old(Resolved(key)) && list == old(list) && mapper.View() == old(mapper.View())
      ensures create && old(Resolved(key)) == null ==>
                && fresh(ql) && ql.name == key
                && (exists i: nat ::
                      FirstFree(old(list), i) && list == NewIn(old(list), i, ql)
                      && mapper.View()
                      == if thrown then old(mapper.View()) else Register(old(mapper.View()), key, i + 1))
      ensures thrown ==> mapper.locked && ValueAt(mapper.View(), EntryOf(key)) == 0
      ensures thrown ==> !InStep(mapper.View(), NamesOf(list), Used(list))
    {
      hide InStep, Lookup, Mapper.Valid, Mapper.View, Register, Addable, ValueAt, EntryOf, StarFree;
      ghost var n := mapper.View();
      assert InStep(n, NamesOf(list), Used(list));
      thrown := false;
      var v := mapper.Find(key);
      if v != 0 {
        KnownIsLive(key);
        return list[v - 1], false;
      }
      if !create { return null, false; }
      mapper.ViewStarFree();
      ql := new QueueLine(key);
      var i := 0;
      while i < |list| && list[i] != null
        invariant i <= |list| && forall j :: 0 <= j < i ==> list[j] != null
      {
        i := i + 1;
      }
      UnknownHasNoEntry(n, key) by { InStepPositive(n, NamesOf(list), Used(list)); }
      FillSlot(n, list, i, ql);
      if i < |list| {
        list := list[i := ql];
      } else {
        list := list + [ql];
      }
      assert list == NewIn(old(list), i, ql);
      var ok := mapper.Add(key, i + 1);
      thrown := !ok;
      if ok {
        NewIsFound(n, key, i + 1) by { InStepPositive(n, NamesOf(old(list)), Used(old(list))); }
      } else {
        NamelessSlot(n, NamesOf(list), Used(list), i);
      }
    }

    /** The table part of delete_queue: the entry of this name goes, and its queue leaves its slot. */
    method DeleteQueue(key: string)
      requires Valid()
      modifies this, mapper.abuf
      ensures Valid() && mapper.View() == Register(old(mapper.View()), key, 0)
      ensures var v := ValueAt(old(mapper.View()), EntryOf(key));
        if v == 0 then list == old(list)
        else v <= |old(list)| && old(list)[v - 1] != null && list == old(list)[v - 1 := null]
    {
      hide InStep, Mapper.Valid, Mapper.View, Register, ValueAt, EntryOf;
      ghost var n := mapper.View();
      ghost var was := list;
      EmptyKeeps(n, NamesOf(list), Used(list), key);
      EntryIsLive(n, list, EntryOf(key));
      var v := mapper.Del(key);
      if v == 0 { return; }
      list := list[v - 1 := null];
      assert Used(list) == Used(was) - {v - 1};
      SameSlots(mapper.View(), NamesOf(was), NamesOf(list), Used(list));
    }
  }

  lemma TabIsNotAddable()
    ensures !Addable("a\tb")
  {
    var name := "a\tb";
    assert StarAt(name[3..]) == 0 && name[2..][1..] == name[3..] && name[1..][1..] == name[2..];
    assert StarAt(name) == 3 && !Storable(name[1]);
  }

  /** The failing input: a tab in a name leaves a queue in its slot that no name leads to. */
  method TabThrows() returns (t: QueueTable, thrown: bool)
    ensures thrown && |t.list| == 1 && t.list[0] != null && t.list[0].name == "a\tb"
    ensures t.mapper.locked && ValueAt(t.mapper.View(), EntryOf("a\tb")) == 0
  {
    hide InStep, Addable, ValueAt, EntryOf, Mapper.Valid, Mapper.View, Lookup, Register;
    TabIsNotAddable();
    t := new QueueTable();
    var ql;
    ql, thrown := t.GetQueue("a\tb", true);
  }
}
