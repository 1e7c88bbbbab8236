/**
 The intrusive lists that tell which connections are workers of which queue. An item knows
 its list and its connection, and the connection knows its item, so it can be taken out of
 the middle of whatever list it is in.
 */
module WorkerLists {
  import opened Deques

  /** The fields of a connection that its item touches. */
  class Peer {
    var link: int
    var workerItem: WorkerItem?

    constructor ()
      ensures link == 0 && workerItem == null
    {
      link, workerItem := 0, null;
    }
  }

  /** Item k of a list of items, null beyond its ends. */
  function ItemAt(items: seq<WorkerItem>, k: int): (x: WorkerItem?) {
    if 0 <= k < |items| then items[k] else null
  }

  lemma ItemIs(items: seq<WorkerItem>, j: int)
    ensures if 0 <= j < |items| then ItemAt(items, j) == items[j] else ItemAt(items, j) == null
  {
  }

  lemma RemovedAt(items: seq<WorkerItem>, k: nat, j: int)
    requires k < |items|
    ensures |RemoveAt(items, k)| == |items| - 1
    ensures ItemAt(RemoveAt(items, k), j) == if j < k then ItemAt(items, j) else ItemAt(items, j + 1)
  {
  }

  lemma RemovedOwn(items: seq<WorkerItem>, k: nat, list: WorkerList)
    requires k < |items| && (forall i :: 0 <= i < |items| ==> items[i].list == list)
    requires forall i, j :: 0 <= i < j < |items| ==> items[i] != items[j]
    ensures var r := RemoveAt(items, k);
      && (forall i :: 0 <= i < |r| ==> r[i].list == list)
      && (forall i, j :: 0 <= i < j < |r| ==> r[i] != r[j])
  {
  }

  /** Once its neighbours pass it by, the other items are linked as a list without item k. */
  lemma Unhooked(was: seq<WorkerItem>, k: nat, j: nat)
    requires k < |was| && j < |was| - 1
    requires var i := if j < k then j else j + 1; was[i].Passes(was, k, i)
    ensures |RemoveAt(was, k)| == |was| - 1 && RemoveAt(was, k)[j].LinkedAt(RemoveAt(was, k), j)
  {
    RemovedAt(was, k, j);
    RemovedAt(was, k, j - 1);
    RemovedAt(was, k, j + 1);
  }

  function Peers(items: seq<WorkerItem>): (r: seq<Peer>)
    ensures |r| == |items| && forall k :: 0 <= k < |items| ==> r[k] == items[k].conn
  {
    seq(|items|, k requires 0 <= k < |items| => items[k].conn)
  }

  class WorkerItem {
    const list: WorkerList
    const conn: Peer
    var prev: WorkerItem?
    var next: WorkerItem?

    constructor (list: WorkerList, conn: Peer)
      modifies conn
      ensures this.list == list && this.conn == conn && prev == null && next == null
      ensures conn.link == old(conn.link) + 1 && conn.workerItem == old(conn.workerItem)
    {
      this.list, this.conn := list, conn;
      prev, next := null, null;
      new;
      conn.link := conn.link + 1;
    }

    /** The neighbours this item must have at position k. */
    ghost predicate LinkedAt(items: seq<WorkerItem>, k: int)
      reads this
    {
      prev == ItemAt(items, k - 1) && next == ItemAt(items, k + 1)
    }

    /** The neighbours it has at position i when the item at k is passed by. */
    ghost predicate Passes(items: seq<WorkerItem>, k: int, i: int)
      reads this
    {
      && prev == ItemAt(items, if i == k + 1 then k - 1 else i - 1)
      && next == ItemAt(items, if i == k - 1 then k + 1 else i + 1)
    }

    /** Makes the neighbours point at each other. */
    method Unhook(ghost k: nat)
      requires ChainOf(list, list.head, list.items) && k < |list.items| && list.items[k] == this
      modifies list`head, list.items
      ensures list.head == ItemAt(list.items, if k == 0 then 1 else 0)
      ensures forall i :: 0 <= i < |list.items| && i != k ==> list.items[i].Passes(list.items, k, i)
    {
      hide ItemAt;
      ghost var items := list.items;
      assert LinkedAt(items, k);
      ItemIs(items, 0);
      ItemIs(items, k - 1);
      ItemIs(items, k + 1);
      if this == list.head {
        list.head := next;
        if list.head != null { list.head.prev := null; }
      } else {
        if prev != null { prev.next := next; }
        if next != null { next.prev := prev; }
      }
      forall i | 0 <= i < |items| && i != k ensures items[i].Passes(items, k, i) {
        assert old(items[i].LinkedAt(items, i));
        assert i != k - 1 && k > 0 ==> items[i] != items[k - 1];
        assert i != k + 1 && k + 1 < |items| ==> items[i] != items[k + 1];
      }
    }

    method Bypass(ghost k: nat)
      requires ChainOf(list, list.head, list.items) && k < |list.items| && list.items[k] == this
      modifies list`head, list.items
      ensures ChainOf(list, list.head, RemoveAt(list.items, k))
    {
      Unhook(k);
      RemovedChained(list, k);
    }

    method Detach(ghost k: nat)
      requires list.Chained() && k < |list.items| && list.items[k] == this
      modifies list, list.repr
      ensures list.Chained() && list.items == RemoveAt(old(list.items), k) && list.repr == old(list.repr) - {this}
    {
      hide ChainOf, RemoveAt;
      ghost var left := RemoveAt(list.items, k);
      ChainFacts(list);
      RemovedRepr(list.repr, list.items, k);
      Bypass(k);
      list.items := left;
      assert ChainOf(list, list.head, left);
      list.repr := list.repr - {this};
    }

    /** Takes this item out of its list, wherever it is, and lets go of its connection. */
    method Pop(ghost k: nat)
      requires list.Chained() && k < |list.items| && list.items[k] == this
      modifies list, list.repr, conn
      ensures list.Chained() && list.items == RemoveAt(old(list.items), k) && list.repr == old(list.repr) - {this}
      ensures conn.workerItem == null && conn.link == old(conn.link) - 1
    {
      hide ChainOf, RemoveAt;
      Detach(k);
      conn.link := conn.link - 1;
      conn.workerItem := null;
    }
  }

  /** The chain of the list once item k is passed by. */
  lemma RemovedChained(list: WorkerList, k: nat)
    requires k < |list.items| && forall i :: 0 <= i < |list.items| ==> list.items[i].list == list
    requires forall i, j :: 0 <= i < j < |list.items| ==> list.items[i] != list.items[j]
    requires list.head == ItemAt(list.items, if k == 0 then 1 else 0)
    requires forall i :: 0 <= i < |list.items| && i != k ==> list.items[i].Passes(list.items, k, i)
    ensures ChainOf(list, list.head, RemoveAt(list.items, k))
  {
    var was := list.items;
    RemovedAt(was, k, 0);
    RemovedOwn(was, k, list);
    forall j | 0 <= j < |was| - 1 ensures RemoveAt(was, k)[j].LinkedAt(RemoveAt(was, k), j) {
      Unhooked(was, k, j);
    }
    hide RemoveAt, ItemAt;
  }

  /** These items, linked to each other in this order, are what the list consists of. */
  ghost predicate ChainOf(list: WorkerList, head: WorkerItem?, items: seq<WorkerItem>)
    reads items
  {
    && head == ItemAt(items, 0)
    && (forall k :: 0 <= k < |items| ==> items[k].list == list)
    && (forall j, k :: 0 <= j < k < |items| ==> items[j] != items[k])
    && (forall k :: 0 <= k < |items| ==> items[k].LinkedAt(items, k))
  }

  class WorkerList {
    var head: WorkerItem?
    ghost var items: seq<WorkerItem>
    ghost var repr: set<WorkerItem>

    /** The pointers spell out `items`. */
    ghost predicate Chained()
      reads this, repr
    {
      Covers(repr, items) && ChainOf(this, head, items)
    }

    /** The connections in the list, from its head on. */
    ghost function Contents(): seq<Peer>
      reads this
    {
      Peers(items)
    }

    constructor ()
      ensures Chained() && Contents() == []
    {
      head, items, repr := null, [], {};
    }

    /** Puts a new item for the connection in front. */
    method Push(conn: Peer) returns (n: WorkerItem)
      requires Chained()
      modifies this, repr, conn
      ensures Chained() && fresh(n) && n.conn == conn && n.list == this
      ensures items == [n] + old(items) && repr == old(repr) + {n}
      ensures conn.link == old(conn.link) + 1 && conn.workerItem == old(conn.workerItem)
    {
      n := new WorkerItem(this, conn);
      if head != null {
        assert items[0].LinkedAt(items, 0);
        n.next := head;
        head.prev := n;
        head := n;
      } else {
        head := n;
      }
      items, repr := [n] + items, repr + {n};
    }
  }

  /** The set has exactly the elements of the sequence. */
  predicate Covers(repr: set<WorkerItem>, items: seq<WorkerItem>) {
    (forall x :: x in repr ==> x in items) && (forall x :: x in items ==> x in repr)
  }

  lemma ChainFacts(list: WorkerList)
    requires list.Chained()
    ensures Covers(list.repr, list.items)
    ensures forall i, j :: 0 <= i < j < |list.items| ==> list.items[i] != list.items[j]
  {
  }

  lemma RemovedRepr(repr: set<WorkerItem>, items: seq<WorkerItem>, k: nat)
    requires k < |items| && (forall i, j :: 0 <= i < j < |items| ==> items[i] != items[j]) && Covers(repr, items)
    ensures Covers(repr - {items[k]}, RemoveAt(items, k))
  {
    RemovedMembers(items, k);
  }

  lemma RemovedMembers(items: seq<WorkerItem>, k: nat)
    requires k < |items| && forall i, j :: 0 <= i < j < |items| ==> items[i] != items[j]
    ensures forall y :: y in RemoveAt(items, k) <==> y in items && y != items[k]
  {
    forall y | y in items && y != items[k] ensures y in RemoveAt(items, k) {
      var i :| 0 <= i < |items| && items[i] == y;
      assert RemoveAt(items, k)[if i < k then i else i - 1] == y;
    }
  }

  /** What each list holds, and which item each connection has. */
  type Lists = map<WorkerList, seq<WorkerItem>>
  type Owners = map<Peer, WorkerItem?>
  type Links = map<Peer, int>

  function Unlinked(links: Links, p: Peer): Links {
    if p in links then links[p := links[p] - 1] else links
  }

  /** The lists once item x has left the one it names. */
  function LeftBy(lists: Lists, x: WorkerItem): Lists {
    if x.list in lists then lists[x.list := Without(lists[x.list], x)] else lists
  }

  predicate Mine(lists: Lists, owners: Owners, l: WorkerList, x: WorkerItem)
    requires l in lists
  {
    x in lists[l] ==> x.list == l && x.conn in owners && owners[x.conn] == x
  }

  predicate Placed(lists: Lists, owners: Owners, p: Peer)
    requires p in owners
  {
    owners[p] != null ==> owners[p].conn == p && owners[p].list in lists && owners[p] in lists[owners[p].list]
  }

  /** Items and connections point at each other, across all lists. */
  ghost predicate Mutual(lists: Lists, owners: Owners) {
    && (forall l, x :: l in lists && x in lists[l] ==> Mine(lists, owners, l, x))
    && (forall p :: p in owners ==> Placed(lists, owners, p))
  }

  lemma PushMutual(lists: Lists, owners: Owners, m: WorkerList, n: WorkerItem)
    requires Mutual(lists, owners) && m in lists && n.list == m
    requires n.conn in owners && owners[n.conn] == null
    ensures Mutual(lists[m := [n] + lists[m]], owners[n.conn := n])
  {
    var lists', owners' := lists[m := [n] + lists[m]], owners[n.conn := n];
    forall l, x | l in lists' && x in lists'[l] ensures Mine(lists', owners', l, x) {
      assert x != n || l != m ==> x in lists[l] ==> Mine(lists, owners, l, x);
      assert x == n ==> n !in lists[l] || Mine(lists, owners, l, n);
    }
    forall p | p in owners' ensures Placed(lists', owners', p) {
      assert Placed(lists, owners, p);
    }
  }

  lemma PopMutual(lists: Lists, owners: Owners, m: WorkerList, k: nat)
    requires Mutual(lists, owners) && m in lists && k < |lists[m]|
    requires forall i, j :: 0 <= i < j < |lists[m]| ==> lists[m][i] != lists[m][j]
    ensures Mutual(lists[m := RemoveAt(lists[m], k)], owners[lists[m][k].conn := null])
  {
    var gone := lists[m][k];
    var lists', owners' := lists[m := RemoveAt(lists[m], k)], owners[gone.conn := null];
    RemovedMembers(lists[m], k);
    hide RemoveAt;
    assert Mine(lists, owners, m, gone);
    forall l, x | l in lists' && x in lists'[l] ensures Mine(lists', owners', l, x) {
      assert x in lists[l] && Mine(lists, owners, l, x);
    }
    forall p | p in owners' ensures Placed(lists', owners', p) {
      assert p in owners && Placed(lists, owners, p);
    }
  }

  predicate IsIn(x: WorkerItem?, items: seq<WorkerItem>) {
    x != null && x in items
  }

  /** The connections once these items are gone. */
  ghost function Freed(owners: Owners, items: seq<WorkerItem>): Owners {
    map p | p in owners :: if IsIn(owners[p], items) then null else owners[p]
  }

  /** Each of them has one link less. */
  ghost function Dropped(links: Links, owners: Owners, items: seq<WorkerItem>): Links {
    map p | p in links :: if p in owners && IsIn(owners[p], items) then links[p] - 1 else links[p]
  }

  lemma DroppedNone(links: Links, owners: Owners, items: seq<WorkerItem>)
    requires items == []
    ensures Dropped(links, owners, items) == links
  {
  }

  lemma FreedNext(lists: Lists, owners: Owners, m: WorkerList, k: nat)
    requires Mutual(lists, owners) && m in lists && k < |lists[m]|
    ensures var p, was := lists[m][k].conn, lists[m];
      && p in owners && owners[p] == was[k]
      && Freed(owners, was[..k + 1]) == Freed(owners, was[..k])[p := null]
      && forall o :: o in owners ==> IsIn(owners[o], was[..k + 1]) == (IsIn(owners[o], was[..k]) || o == p)
  {
    var x, was := lists[m][k], lists[m];
    assert Mine(lists, owners, m, x);
    assert was[..k + 1] == was[..k] + [x];
    forall o | o in owners ensures IsIn(owners[o], was[..k + 1]) == (IsIn(owners[o], was[..k]) || o == x.conn) {
      assert Placed(lists, owners, o);
    }
  }

  lemma DroppedNext(lists: Lists, owners: Owners, links: Links, m: WorkerList, k: nat)
    requires Mutual(lists, owners) && m in lists && k < |lists[m]| && links.Keys == owners.Keys
    requires forall i, j :: 0 <= i < j < |lists[m]| ==> lists[m][i] != lists[m][j]
    ensures Dropped(links, owners, lists[m][..k + 1])
         == Unlinked(Dropped(links, owners, lists[m][..k]), lists[m][k].conn)
    ensures lists[m][k].conn in owners
  {
    FreedNext(lists, owners, m, k);
    hide Mutual, IsIn;
    assert !IsIn(owners[lists[m][k].conn], lists[m][..k]) by { NotYet(lists[m], k); }
  }

  lemma NotYet(items: seq<WorkerItem>, k: nat)
    requires k < |items| && forall i, j :: 0 <= i < j < |items| ==> items[i] != items[j]
    ensures !IsIn(items[k], items[..k])
  {
  }

  lemma LeftNext(lists: Lists, owners: Owners, m: WorkerList, k: nat)
    requires Mutual(lists, owners) && m in lists && k < |lists[m]|
    requires forall i, j :: 0 <= i < j < |lists[m][k..]| ==> lists[m][k..][i] != lists[m][k..][j]
    ensures LeftBy(lists[m := lists[m][k..]], lists[m][k]) == lists[m := lists[m][k + 1..]]
  {
    var rest := lists[m][k..];
    assert Mine(lists, owners, m, rest[0]);
    WithoutIsRemoveAt(rest, 0);
    assert RemoveAt(rest, 0) == lists[m][k + 1..];
  }

  /** The lists of all queues, and the connections that may be in them. */
  class Roster {
    var lists: seq<WorkerList>
    ghost var peers: set<Peer>
    ghost var nodes: set<WorkerItem>

    ghost function ListMap(): Lists
      reads this, lists
    {
      map l | l in lists :: l.items
    }

    ghost function OwnerMap(): Owners
      reads this, peers
    {
      map p | p in peers :: p.workerItem
    }

    ghost function LinkMap(): Links
      reads this, peers
    {
      map p | p in peers :: p.link
    }

    ghost predicate ListOk(l: WorkerList)
      reads this, l, nodes
    {
      l.repr <= nodes && l.Chained() && (forall x :: x in l.repr ==> x.list == l)
    }

    ghost predicate Valid()
      reads this, lists, peers, nodes
    {
      && (forall j, k :: 0 <= j < k < |lists| ==> lists[j] != lists[k])
      && (forall l :: l in lists ==> ListOk(l))
      && Mutual(ListMap(), OwnerMap())
    }

    constructor ()
      ensures Valid() && lists == [] && peers == {}
    {
      lists, peers, nodes := [], {}, {};
    }

    /** A new worker of queue q goes to the front of its list. */
    method Enlist(q: nat, p: Peer)
      requires Valid() && q < |lists| && p in peers && p.workerItem == null
      modifies `nodes, lists[q], lists[q].repr, p
      ensures Valid() && p.workerItem != null && p.workerItem.list == lists[q]
      ensures lists[q].Contents() == [p] + old(lists[q].Contents())
      ensures ListMap() == old(ListMap())[lists[q] := lists[q].items]
      ensures OwnerMap() == old(OwnerMap())[p := p.workerItem]
      ensures p.link == old(p.link) + 1
    {
      hide Mutual, ChainOf, WorkerList.Chained, Roster.ListOk;
      var m := lists[q];
      ghost var ls, os := ListMap(), OwnerMap();
      Place(m, p);
      PushMutual(ls, os, m, p.workerItem);
      assert ListMap() == ls[m := m.items];
      assert OwnerMap() == os[p := p.workerItem];
    }

    method Place(m: WorkerList, p: Peer)
      requires Valid() && m in lists && p in peers && p.workerItem == null
      modifies `nodes, m, m.repr, p
      ensures p.workerItem != null && p.workerItem.list == m && p.workerItem.conn == p
      ensures m.items == [p.workerItem] + old(m.items) && p.link == old(p.link) + 1
      ensures forall l :: l in lists ==> ListOk(l)
    {
      hide Mutual, ChainOf;
      assert ListOk(m);
      var n := m.Push(p);
      p.workerItem := n;
      nodes := nodes + {n};
      forall l | l in lists && l != m ensures ListOk(l) {
        assert old(ListOk(l));
      }
    }

    /** A connection leaves the list it is in, if any. */
    method Leave(p: Peer)
      requires Valid() && p in peers
      modifies p
      modifies if p.workerItem == null then {} else {p.workerItem.list}
      modifies if p.workerItem == null then {} else p.workerItem.list.repr
      ensures Valid() && OwnerMap() == old(OwnerMap())[p := null]
      ensures var x := old(p.workerItem);
        if x == null then ListMap() == old(ListMap()) && LinkMap() == old(LinkMap())
        else
          && x.list in lists && LinkMap() == Unlinked(old(LinkMap()), p)
          && ListMap() == LeftBy(old(ListMap()), x)
    {
      hide ChainOf, WorkerList.Chained, Roster.ListOk, Without;
      if p.workerItem == null {
        assert OwnerMap() == old(OwnerMap())[p := null];
      } else {
        assert Placed(ListMap(), OwnerMap(), p);
        hide Mutual;
        Remove(p.workerItem.list, p.workerItem);
      }
    }

    lemma IndexOf(m: WorkerList, x: WorkerItem) returns (k: nat)
      requires Valid() && m in lists && x in m.items
      ensures k < |m.items| && m.items[k] == x && x.list == m
      ensures forall i, j :: 0 <= i < j < |m.items| ==> m.items[i] != m.items[j]
    {
      k :| 0 <= k < |m.items| && m.items[k] == x;
      assert ListOk(m);
    }

    lemma OwnerKnown(m: WorkerList, x: WorkerItem)
      requires Valid() && m in lists && x in m.items
      ensures x.conn in peers && x.conn.workerItem == x
    {
      assert Mine(ListMap(), OwnerMap(), m, x);
    }

    /** Takes item x out of list m. */
    method Remove(m: WorkerList, x: WorkerItem)
      requires Valid() && m in lists && x in m.items
      modifies m, m.repr, x.conn
      ensures Valid() && OwnerMap() == old(OwnerMap())[x.conn := null]
      ensures ListMap() == LeftBy(old(ListMap()), x) && m.repr <= old(m.repr)
      ensures LinkMap() == Unlinked(old(LinkMap()), x.conn)
    {
      hide ChainOf, WorkerList.Chained, Roster.ListOk, RemoveAt, Without, Mutual, LeftBy;
      hide Roster.ListMap, Roster.OwnerMap, Roster.LinkMap;
      ghost var k := IndexOf(m, x);
      LeavesMutual(m, x, k);
      TakeOut(m, x, k);
    }

    /** What the lists and owners are once item k of list m has left. */
    lemma LeavesMutual(m: WorkerList, x: WorkerItem, k: nat)
      requires Valid() && m in lists && k < |m.items| && m.items[k] == x && x.list == m
      requires forall i, j :: 0 <= i < j < |m.items| ==> m.items[i] != m.items[j]
      ensures x.conn in peers
      ensures Mutual(ListMap()[m := RemoveAt(m.items, k)], OwnerMap()[x.conn := null])
      ensures LeftBy(ListMap(), x) == ListMap()[m := RemoveAt(m.items, k)]
    {
      OwnerKnown(m, x);
      hide Mutual, Mine, RemoveAt, Without;
      PopMutual(ListMap(), OwnerMap(), m, k);
      WithoutIsRemoveAt(m.items, k);
    }

    method TakeOut(m: WorkerList, x: WorkerItem, ghost k: nat)
      requires Valid() && m in lists && k < |m.items| && m.items[k] == x && x.list == m && x.conn in peers
      modifies m, m.repr, x.conn
      ensures ListMap() == old(ListMap())[m := RemoveAt(old(m.items), k)]
      ensures OwnerMap() == old(OwnerMap())[x.conn := null]
      ensures LinkMap() == Unlinked(old(LinkMap()), x.conn)
      ensures forall l :: l in lists ==> ListOk(l)
      ensures m.repr <= old(m.repr)
    {
      hide ChainOf, WorkerList.Chained, Roster.ListOk, RemoveAt, Without, Mutual;
      Take(m, x, k);
    }

    method Take(m: WorkerList, x: WorkerItem, ghost k: nat)
      requires Valid() && m in lists && k < |m.items| && m.items[k] == x && x.list == m
      modifies m, m.repr, x.conn
      ensures m.items == RemoveAt(old(m.items), k) && m.repr <= old(m.repr)
      ensures x.conn.workerItem == null && x.conn.link == old(x.conn.link) - 1
      ensures forall l :: l in lists ==> ListOk(l)
    {
      hide Mutual, ChainOf, RemoveAt, WorkerList.Chained;
      assert ListOk(m);
      x.Pop(k);
      forall l | l in lists && l != m ensures ListOk(l) {
        assert old(ListOk(l));
      }
    }

    /** The first k of these items have left list m. */
    ghost predicate ClearedTo(m: WorkerList, ls: Lists, os: Owners, k: nat)
      requires m in ls && k <= |ls[m]|
      reads this, lists, peers
    {
      ListMap() == ls[m := ls[m][k..]] && OwnerMap() == Freed(os, ls[m][..k])
    }

    /** The list of a queue that goes away lets go of all its connections. */
    method Clear(m: WorkerList)
      requires Valid() && m in lists
      modifies m, m.repr, peers
      ensures Valid() && m.head == null && ListMap() == old(ListMap())[m := []]
      ensures OwnerMap() == Freed(old(OwnerMap()), old(m.items))
      ensures LinkMap() == Dropped(old(LinkMap()), old(OwnerMap()), old(m.items))
    {
      ghost var ls, os, links, k := ListMap(), OwnerMap(), LinkMap(), 0;
      ClearStarts(m);
      HeadIsFirst(m);
      DroppedNone(links, os, ls[m][..0]);
      hide ChainOf, Mutual, Freed, Dropped, Roster.ListMap, Roster.OwnerMap, Roster.LinkMap, Roster.Valid;
      hide Roster.ClearedTo;
      while m.head != null
        invariant k <= |ls[m]| && Valid() && m.repr <= old(m.repr)
        invariant ClearedTo(m, ls, os, k)
        invariant LinkMap() == Dropped(links, os, ls[m][..k])
        decreases |ls[m]| - k
      {
        NotCleared(m, ls, os, k);
        DroppedNext(ls, os, links, m, k);
        ClearNext(m, ls, os, k);
        k := k + 1;
      }
      AllCleared(m, ls, os, k);
    }

    lemma ClearStarts(m: WorkerList)
      requires Valid() && m in lists
      ensures var ls, os := ListMap(), OwnerMap();
        && m in ls && ls[m] == m.items && os.Keys == peers == LinkMap().Keys && Mutual(ls, os)
        && ls[m][..0] == [] && ClearedTo(m, ls, os, 0)
    {
      hide Mutual;
      assert ListMap()[m][..0] == [] && Freed(OwnerMap(), []) == OwnerMap();
      assert ListMap()[m][0..] == ListMap()[m];
    }

    lemma NotCleared(m: WorkerList, ls: Lists, os: Owners, k: nat)
      requires Valid() && m in lists && m in ls && k <= |ls[m]| && ClearedTo(m, ls, os, k) && m.head != null
      ensures k < |ls[m]| && m.items == ls[m][k..]
    {
      HeadIsFirst(m);
      Listed(m);
    }

    lemma AllCleared(m: WorkerList, ls: Lists, os: Owners, k: nat)
      requires Valid() && m in lists && m in ls && k <= |ls[m]| && ClearedTo(m, ls, os, k) && m.head == null
      ensures k == |ls[m]| && ls[m][..k] == ls[m] && ListMap() == ls[m := []] && OwnerMap() == Freed(os, ls[m])
    {
      HeadIsFirst(m);
      Listed(m);
      assert |ls[m][k..]| == 0;
    }

    method ClearNext(m: WorkerList, ghost ls: Lists, ghost os: Owners, ghost k: nat)
      requires Valid() && m in lists && Mutual(ls, os) && m in ls && k < |ls[m]|
      requires m.items == ls[m][k..] && ClearedTo(m, ls, os, k)
      modifies m, m.repr, ls[m][k].conn
      ensures Valid() && m.items == ls[m][k + 1..] && m.repr <= old(m.repr) && ClearedTo(m, ls, os, k + 1)
      ensures LinkMap() == Unlinked(old(LinkMap()), ls[m][k].conn)
    {
      HeadIsFirst(m);
      FreedNext(ls, os, m, k);
      LeftNext(ls, os, m, k);
      hide ChainOf, Mutual, Freed, LeftBy, Roster.ListMap, Roster.OwnerMap, Roster.LinkMap, Roster.ListOk, Unlinked;
      Remove(m, m.head);
      Listed(m);
    }

    lemma Listed(m: WorkerList)
      requires m in lists
      ensures m in ListMap() && ListMap()[m] == m.items
    {
    }

    lemma HeadIsFirst(m: WorkerList)
      requires Valid() && m in lists
      ensures if m.head == null then m.items == [] else m.items != [] && m.items[0] == m.head && m.head in m.items
      ensures forall i, j :: 0 <= i < j < |m.items| ==> m.items[i] != m.items[j]
    {
      assert ListOk(m);
    }
  }
}
