/** The service manager's registry: a linked list of services, one per length of name. */
module Services {
  import opened Wrappers

  type Handle = nat

  const MAX_NAME: nat := 127

  /** What one element of the list holds; handle 0 stands for none. */
  datatype Entry = Entry(ptr: Handle, len: nat, name: seq<nat>)

  /** The registry's history: successful adds, entries that were cleared, deaths that were reported, and handles
      that the driver dropped, and their death links with them. */
  datatype Event = Added(len: nat, ptr: Handle) | Cleared(len: nat) | Reported(ptr: Handle) | Dropped(ptr: Handle)

  /** What an event says was last registered for `len`, if it is about names of that length. */
  function Says(e: Event, len: nat): Option<Handle> {
    match e
    case Added(n, ptr) => if n == len then Some(ptr) else None
    case Cleared(n) => if n == len then Some(0) else None
    case Reported(_) => None
    case Dropped(_) => None
  }

  /** The event ends the death link of `h`. */
  predicate Ends(e: Event, h: Handle) {
    e == Reported(h) || e == Dropped(h)
  }

  /** What was last registered for names of length `len` and not cleared since; 0 for nothing. */
  function Last(log: seq<Event>, len: nat): Handle {
    if log == [] then 0
    else var says := Says(log[|log| - 1], len);
         if says.Some? then says.value else Last(log[..|log| - 1], len)
  }

  lemma LastMore(log: seq<Event>, e: Event, len: nat)
    ensures Last(log + [e], len) == if Says(e, len).Some? then Says(e, len).value else Last(log, len)
  {
    assert (log + [e])[..|log|] == log;
  }

  /** The length of the names for whose entry the death of `h` is to be reported: the first it was added for since
      its last link ended. While one report is due, the driver grants no other. */
  function DueFor(log: seq<Event>, h: Handle): Option<nat> {
    if log == [] then None
    else var e, due := log[|log| - 1], DueFor(log[..|log| - 1], h);
         if e.Added? && e.ptr == h && due.None? then Some(e.len) else if Ends(e, h) then None else due
  }

  lemma DueMore(log: seq<Event>, e: Event, h: Handle)
    ensures DueFor(log + [e], h) ==
              if e.Added? && e.ptr == h && DueFor(log, h).None? then Some(e.len) else if Ends(e, h) then None else DueFor(log, h)
  {
    assert (log + [e])[..|log|] == log;
  }

  // ---- the list as a value ----

  ghost predicate OnePerLength(table: seq<Entry>) {
    forall i, j :: 0 <= i < j < |table| ==> table[i].len != table[j].len
  }

  function One(h: Handle): multiset<Handle> {
    if h == 0 then multiset{} else multiset{h}
  }

  /** The handles the list holds, each as often as it is held. */
  function HeldBy(table: seq<Entry>): multiset<Handle> {
    if table == [] then multiset{} else One(table[0].ptr) + HeldBy(table[1..])
  }

  lemma {:induction false} HeldUpdate(table: seq<Entry>, i: nat, ptr: Handle)
    requires i < |table|
    ensures HeldBy(table[i := table[i].(ptr := ptr)]) + One(table[i].ptr) == HeldBy(table) + One(ptr)
  {
    var t := table[i := table[i].(ptr := ptr)];
    hide One;
    if i == 0 {
      assert t[1..] == table[1..];
    } else {
      assert t[1..] == table[1..][i - 1 := table[1..][i - 1].(ptr := ptr)];
      HeldUpdate(table[1..], i - 1, ptr);
      Shuffled(One(table[0].ptr), HeldBy(t[1..]), One(table[i].ptr), HeldBy(table[1..]), One(ptr));
    }
  }

  lemma Shuffled(a: multiset<Handle>, b: multiset<Handle>, c: multiset<Handle>, d: multiset<Handle>, e: multiset<Handle>)
    requires b + c == d + e
    ensures (a + b) + c == (a + d) + e
  {
    forall h: Handle ensures ((a + b) + c)[h] == ((a + d) + e)[h] {
      assert (b + c)[h] == (d + e)[h];
    }
  }

  lemma Moved(r: multiset<Handle>, one: multiset<Handle>, b: multiset<Handle>, d: multiset<Handle>)
    requires b + one == d + multiset{}
    ensures (r + one) + b == r + d
  {
    forall h: Handle ensures ((r + one) + b)[h] == (r + d)[h] {
      assert (b + one)[h] == (d + multiset{})[h];
    }
  }

  /** The list holds what the history says, and every handle was acquired as often, beyond its releases, as it
      is held. */
  ghost predicate Balanced(table: seq<Entry>, log: seq<Event>, acquired: multiset<Handle>, released: multiset<Handle>) {
    && OnePerLength(table)
    && (forall i :: 0 <= i < |table| ==> table[i].ptr == Last(log, table[i].len))
    && (forall len: nat :: Last(log, len) != 0 ==> exists i :: 0 <= i < |table| && table[i].len == len)
    && acquired == released + HeldBy(table)
  }

  /** The number of entries that hold handle `h`. */
  function Holding(table: seq<Entry>, h: Handle): nat {
    if table == [] then 0 else (if table[0].ptr == h then 1 else 0) + Holding(table[1..], h)
  }

  lemma {:induction false} CountHeld(table: seq<Entry>, h: Handle)
    requires h != 0
    ensures HeldBy(table)[h] == Holding(table, h)
  {
    if table != [] {
      CountHeld(table[1..], h);
    }
  }

  /** Acquires and releases differ by the number of entries that hold the handle. */
  lemma Balance(table: seq<Entry>, log: seq<Event>, acquired: multiset<Handle>, released: multiset<Handle>, h: Handle)
    requires Balanced(table, log, acquired, released) && h != 0
    ensures acquired[h] - released[h] == Holding(table, h)
  {
    CountHeld(table, h);
  }

  lemma {:induction false} HoldingSome(table: seq<Entry>, h: Handle)
    ensures Holding(table, h) == 0 <==> forall i :: 0 <= i < |table| ==> table[i].ptr != h
  {
    if table != [] {
      HoldingSome(table[1..], h);
      assert forall i :: 0 < i < |table| ==> table[i] == table[1..][i - 1];
      assert forall i :: 0 <= i < |table| - 1 ==> table[1..][i] == table[i + 1];
    }
  }

  /** The registry has released a handle as often as it acquired it exactly if no name leads to it. */
  lemma NotHeld(table: seq<Entry>, log: seq<Event>, acquired: multiset<Handle>, released: multiset<Handle>, h: Handle)
    requires Balanced(table, log, acquired, released) && h != 0
    ensures acquired[h] <= released[h] <==> forall len: nat :: Last(log, len) != h
  {
    hide Last, HeldBy, Holding;
    Balance(table, log, acquired, released, h);
    HoldingSome(table, h);
    if forall i :: 0 <= i < |table| ==> table[i].ptr != h {
      forall len: nat ensures Last(log, len) != h {
        if Last(log, len) != 0 {
          var i :| 0 <= i < |table| && table[i].len == len;
        }
      }
    } else {
      var i :| 0 <= i < |table| && table[i].ptr == h;
      assert Last(log, table[i].len) == h;
    }
  }

  /** Changing an entry's handle and recording it keeps the list to its history. */
  lemma RecordedKeeps(table: seq<Entry>, log: seq<Event>, i: nat, ptr: Handle, e: Event)
    requires i < |table| && OnePerLength(table)
    requires forall k :: 0 <= k < |table| ==> table[k].ptr == Last(log, table[k].len)
    requires forall len: nat :: Last(log, len) != 0 ==> exists k :: 0 <= k < |table| && table[k].len == len
    requires Says(e, table[i].len) == Some(ptr) && forall len: nat :: len != table[i].len ==> Says(e, len).None?
    ensures var t := table[i := table[i].(ptr := ptr)];
            && OnePerLength(t)
            && (forall k :: 0 <= k < |t| ==> t[k].ptr == Last(log + [e], t[k].len))
            && (forall len: nat :: Last(log + [e], len) != 0 ==> exists k :: 0 <= k < |t| && t[k].len == len)
  {
    hide Last, Says;
    var t := table[i := table[i].(ptr := ptr)];
    forall len: nat ensures Last(log + [e], len) == if len == table[i].len then ptr else Last(log, len) {
      LastMore(log, e, len);
    }
    forall len: nat | Last(log + [e], len) != 0 ensures exists k :: 0 <= k < |t| && t[k].len == len {
      if len == table[i].len {
        assert t[i].len == len;
      } else {
        var k :| 0 <= k < |table| && table[k].len == len;
        assert t[k].len == len;
      }
    }
  }

  // ---- the steps on the list ----

  lemma ClearedKeeps(table: seq<Entry>, log: seq<Event>, acquired: multiset<Handle>, released: multiset<Handle>, i: nat)
    requires Balanced(table, log, acquired, released) && i < |table|
    ensures Balanced(table[i := table[i].(ptr := 0)], log + [Cleared(table[i].len)], acquired, released + One(table[i].ptr))
  {
    RecordedKeeps(table, log, i, 0, Cleared(table[i].len));
    HeldUpdate(table, i, 0);
    var t := table[i := table[i].(ptr := 0)];
    hide Last, HeldBy, OnePerLength;
    Moved(released, One(table[i].ptr), HeldBy(t), HeldBy(table));
  }

  /** That a link ends changes nothing in the list. */
  lemma EndedKeeps(table: seq<Entry>, log: seq<Event>, acquired: multiset<Handle>, released: multiset<Handle>, e: Event, h: Handle)
    requires Balanced(table, log, acquired, released) && Ends(e, h)
    ensures Balanced(table, log + [e], acquired, released)
  {
    forall len: nat ensures Last(log + [e], len) == Last(log, len) {
      LastMore(log, e, len);
    }
    hide Last;
  }

  lemma FilledKeeps(table: seq<Entry>, log: seq<Event>, acquired: multiset<Handle>, released: multiset<Handle>, i: nat, ptr: Handle)
    requires Balanced(table, log, acquired, released) && i < |table| && table[i].ptr == 0 && ptr != 0
    ensures Balanced(table[i := table[i].(ptr := ptr)], log + [Added(table[i].len, ptr)], acquired + multiset{ptr}, released)
  {
    RecordedKeeps(table, log, i, ptr, Added(table[i].len, ptr));
    HeldUpdate(table, i, ptr);
    var t := table[i := table[i].(ptr := ptr)];
    hide Last, HeldBy, OnePerLength;
    assert HeldBy(t) == HeldBy(t) + One(0) == HeldBy(table) + multiset{ptr};
    Shuffled(released, HeldBy(table), multiset{ptr}, HeldBy(t), multiset{});
  }

  lemma PrependedKeeps(table: seq<Entry>, log: seq<Event>, acquired: multiset<Handle>, released: multiset<Handle>, x: Entry)
    requires Balanced(table, log, acquired, released) && x.ptr != 0
    requires forall i :: 0 <= i < |table| ==> table[i].len != x.len
    ensures Balanced([x] + table, log + [Added(x.len, x.ptr)], acquired + multiset{x.ptr}, released)
  {
    var e, t := Added(x.len, x.ptr), [x] + table;
    forall len: nat ensures Last(log + [e], len) == if e.len == len then e.ptr else Last(log, len) {
      LastMore(log, e, len);
    }
    assert t[1..] == table;
    hide Last;
    forall len: nat | Last(log + [e], len) != 0 ensures exists i :: 0 <= i < |t| && t[i].len == len {
      if len == x.len {
        assert t[0].len == len;
      } else {
        var i :| 0 <= i < |table| && table[i].len == len;
        assert t[i + 1].len == len;
      }
    }
  }

  /** No other name leads to the handle that names of length `len` lead to, and no message to the registry that
      the driver still holds carries it: the driver drops it when the registry releases it. */
  ghost predicate LastHold(log: seq<Event>, len: nat, carried: set<Handle>) {
    && Last(log, len) != 0 && Last(log, len) !in carried
    && forall other: nat :: other != len ==> Last(log, other) != Last(log, len)
  }

  /** No death but that of `ptr` is to be reported for the entry for `len`. */
  ghost predicate OnlyDue(log: seq<Event>, len: nat, ptr: Handle) {
    forall h: Handle :: DueFor(log, h) == Some(len) ==> h == ptr
  }

  /** Nor will any but that of `ptr` be once the entry is cleared. */
  ghost predicate OnlyDueLeft(log: seq<Event>, len: nat, ptr: Handle, carried: set<Handle>) {
    forall h: Handle :: DueFor(log, h) == Some(len) ==> h == ptr || (h == Last(log, len) && LastHold(log, len, carried))
  }

  lemma OnlyDueAfter(log: seq<Event>, len: nat, ptr: Handle, carried: set<Handle>)
    ensures OnlyDue(AddLog(log, len, ptr, carried), len, ptr) <==> OnlyDueLeft(log, len, ptr, carried)
  {
    DueAfter(log, len, ptr, carried);
    hide Last, LastHold, DueFor, AddLog;
    var after := AddLog(log, len, ptr, carried);
    if OnlyDue(after, len, ptr) {
      forall h: Handle | DueFor(log, h) == Some(len) ensures h == ptr || (h == Last(log, len) && LastHold(log, len, carried)) {
        assert h != ptr ==> DueFor(after, h) == if h == Last(log, len) && LastHold(log, len, carried) then None else DueFor(log, h);
      }
    }
    if OnlyDueLeft(log, len, ptr, carried) {
      forall h: Handle | DueFor(after, h) == Some(len) ensures h == ptr {
        assert h != ptr ==> DueFor(after, h) == if h == Last(log, len) && LastHold(log, len, carried) then None else DueFor(log, h);
      }
    }
  }

  lemma NoHold(log: seq<Event>, len: nat, carried: set<Handle>)
    requires Last(log, len) == 0 || Last(log, len) in carried
    ensures !LastHold(log, len, carried)
  {
  }

  /** What clearing an entry leaves in the history. */
  ghost function ClearLog(log: seq<Event>, len: nat, carried: set<Handle>): seq<Event> {
    log + [Cleared(len)] + if LastHold(log, len, carried) then [Dropped(Last(log, len))] else []
  }

  /** What a successful add leaves in the history. */
  ghost function AddLog(log: seq<Event>, len: nat, ptr: Handle, carried: set<Handle>): seq<Event> {
    (if Last(log, len) != 0 then ClearLog(log, len, carried) else log) + [Added(len, ptr)]
  }

  lemma ClearedLast(log: seq<Event>, len: nat, carried: set<Handle>, other: nat)
    ensures Last(ClearLog(log, len, carried), other) == if other == len then 0 else Last(log, other)
  {
    hide LastHold;
    LastMore(log, Cleared(len), other);
    LastMore(log + [Cleared(len)], Dropped(Last(log, len)), other);
    assert log + [Cleared(len)] + [] == log + [Cleared(len)];
  }

  lemma AddedLast(log: seq<Event>, len: nat, ptr: Handle, carried: set<Handle>)
    ensures forall other: nat :: Last(AddLog(log, len, ptr, carried), other) == if other == len then ptr else Last(log, other)
  {
    hide ClearLog;
    forall other: nat
      ensures Last(AddLog(log, len, ptr, carried), other) == if other == len then ptr else Last(log, other)
    {
      ClearedLast(log, len, carried, other);
      LastMore(if Last(log, len) != 0 then ClearLog(log, len, carried) else log, Added(len, ptr), other);
    }
  }

  /** Clearing an entry ends no link but that of the handle it held, and that one only with the last hold. */
  lemma DueCleared(log: seq<Event>, len: nat, carried: set<Handle>, h: Handle)
    ensures DueFor(ClearLog(log, len, carried), h) == if h == Last(log, len) && LastHold(log, len, carried) then None else DueFor(log, h)
  {
    hide LastHold, Last;
    DueMore(log, Cleared(len), h);
    DueMore(log + [Cleared(len)], Dropped(Last(log, len)), h);
    assert log + [Cleared(len)] + [] == log + [Cleared(len)];
  }

  /** An add changes what is due for no handle but its own and one the driver drops. */
  lemma DueAfter(log: seq<Event>, len: nat, ptr: Handle, carried: set<Handle>)
    ensures forall h: Handle :: h != ptr ==>
              DueFor(AddLog(log, len, ptr, carried), h) == if h == Last(log, len) && LastHold(log, len, carried) then None else DueFor(log, h)
  {
    hide ClearLog, Last;
    forall h: Handle | h != ptr
      ensures DueFor(AddLog(log, len, ptr, carried), h) == if h == Last(log, len) && LastHold(log, len, carried) then None else DueFor(log, h)
    {
      DueCleared(log, len, carried, h);
      DueMore(if Last(log, len) != 0 then ClearLog(log, len, carried) else log, Added(len, ptr), h);
    }
  }

  lemma NothingLast(len: nat)
    ensures Last([], len) == 0
  {
  }

  // ---- the list as it is kept ----

  class SvcInfo {
    var next: SvcInfo?
    var ptr: Handle
    const len: nat
    const name: seq<nat>

    constructor (ptr: Handle, len: nat, name: seq<nat>, next: SvcInfo?)
      ensures this.ptr == ptr && this.len == len && this.name == name && this.next == next
    {
      this.ptr, this.len, this.name, this.next := ptr, len, name, next;
    }
  }

  ghost predicate Mirrors(si: SvcInfo, x: Entry)
    reads si`ptr
  {
    x == Entry(si.ptr, si.len, si.name)
  }

  /** The pointers of the list follow `nodes`, and no node is on it twice. */
  ghost predicate Chained(head: SvcInfo?, nodes: seq<SvcInfo>)
    reads nodes`next
  {
    && (forall i, j :: 0 <= i < j < |nodes| ==> nodes[i] != nodes[j])
    && (forall i: nat :: i < |nodes| ==> nodes[i].next == NodeFrom(nodes, i + 1))
    && head == NodeFrom(nodes, 0)
  }

  ghost predicate Mirrored(nodes: seq<SvcInfo>, table: seq<Entry>)
    reads nodes`ptr
  {
    |table| == |nodes| && forall i :: 0 <= i < |nodes| ==> Mirrors(nodes[i], table[i])
  }

  lemma ChainedOn(si: SvcInfo, nodes: seq<SvcInfo>)
    requires Chained(si.next, nodes) && si !in nodes
    ensures Chained(si, [si] + nodes)
  {
    var more := [si] + nodes;
    forall i: nat | i < |more| ensures more[i].next == NodeFrom(more, i + 1) {
      assert i > 0 ==> more[i] == nodes[i - 1];
    }
    forall i, j | 0 <= i < j < |more| ensures more[i] != more[j] {
      assert more[j] == nodes[j - 1];
      assert i > 0 ==> more[i] == nodes[i - 1];
    }
  }

  lemma MirroredOn(si: SvcInfo, x: Entry, nodes: seq<SvcInfo>, table: seq<Entry>)
    requires Mirrored(nodes, table) && Mirrors(si, x)
    ensures Mirrored([si] + nodes, [x] + table)
  {
    var more, all := [si] + nodes, [x] + table;
    forall i | 0 <= i < |more| ensures Mirrors(more[i], all[i]) {
      assert i > 0 ==> more[i] == nodes[i - 1] && all[i] == table[i - 1];
    }
  }

  lemma MirroredLengths(nodes: seq<SvcInfo>, table: seq<Entry>, len: nat)
    requires Mirrored(nodes, table) && forall i :: 0 <= i < |nodes| ==> nodes[i].len != len
    ensures forall i :: 0 <= i < |table| ==> table[i].len != len
  {
    forall i | 0 <= i < |table| ensures table[i].len != len {
      assert Mirrors(nodes[i], table[i]);
    }
  }

  /** The list pointer at position `i`. */
  function NodeFrom(nodes: seq<SvcInfo>, i: nat): SvcInfo? {
    if i < |nodes| then nodes[i] else null
  }

  /** A link is open for a handle exactly while its death is to be reported, and to the entry for the length. */
  ghost predicate LinksOk(links: map<Handle, SvcInfo>, nodes: seq<SvcInfo>, log: seq<Event>) {
    forall h: Handle :: LinkOk(links, nodes, log, h)
  }

  ghost predicate LinkOk(links: map<Handle, SvcInfo>, nodes: seq<SvcInfo>, log: seq<Event>, h: Handle) {
    if h in links then links[h] in nodes && DueFor(log, h) == Some(links[h].len) else DueFor(log, h).None?
  }

  /** `binder_link_to_death`: the driver opens no second link for a handle. */
  function Linked(links: map<Handle, SvcInfo>, h: Handle, si: SvcInfo): map<Handle, SvcInfo> {
    if h in links then links else links[h := si]
  }

  /** The links that clearing the entry for `len` leaves. */
  ghost function LinksLeft(links: map<Handle, SvcInfo>, log: seq<Event>, len: nat, carried: set<Handle>): map<Handle, SvcInfo> {
    if LastHold(log, len, carried) then links - {Last(log, len)} else links
  }

  lemma LinksMore(links: map<Handle, SvcInfo>, nodes: seq<SvcInfo>, log: seq<Event>, ptr: Handle, si: SvcInfo)
    requires LinksOk(links, nodes, log) && si in nodes
    ensures LinksOk(Linked(links, ptr, si), nodes, log + [Added(si.len, ptr)])
  {
    forall h: Handle ensures LinkOk(Linked(links, ptr, si), nodes, log + [Added(si.len, ptr)], h) {
      assert LinkOk(links, nodes, log, h);
      DueMore(log, Added(si.len, ptr), h);
    }
  }

  lemma LinksCleared(links: map<Handle, SvcInfo>, nodes: seq<SvcInfo>, log: seq<Event>, len: nat)
    requires LinksOk(links, nodes, log)
    ensures LinksOk(links, nodes, log + [Cleared(len)])
  {
    forall h: Handle ensures LinkOk(links, nodes, log + [Cleared(len)], h) {
      assert LinkOk(links, nodes, log, h);
      DueMore(log, Cleared(len), h);
    }
  }

  lemma LinksEnded(links: map<Handle, SvcInfo>, nodes: seq<SvcInfo>, log: seq<Event>, e: Event, ended: Handle)
    requires LinksOk(links, nodes, log) && Ends(e, ended)
    ensures LinksOk(links - {ended}, nodes, log + [e])
  {
    forall h: Handle ensures LinkOk(links - {ended}, nodes, log + [e], h) {
      assert LinkOk(links, nodes, log, h);
      DueMore(log, e, h);
    }
  }

  lemma LinksPrepended(links: map<Handle, SvcInfo>, nodes: seq<SvcInfo>, log: seq<Event>, ptr: Handle, si: SvcInfo)
    requires LinksOk(links, nodes, log)
    ensures LinksOk(Linked(links, ptr, si), [si] + nodes, log + [Added(si.len, ptr)])
  {
    forall h: Handle ensures LinkOk(links, [si] + nodes, log, h) {
      assert LinkOk(links, nodes, log, h);
    }
    LinksMore(links, [si] + nodes, log, ptr, si);
  }

  class ServiceManager {
    var svclist: SvcInfo?
    ghost var nodes: seq<SvcInfo>
    ghost var table: seq<Entry>
    ghost var log: seq<Event>
    ghost var acquired: multiset<Handle>
    ghost var released: multiset<Handle>
    /** The open death links: the handles whose death is to be reported, and the entries it is reported for. */
    ghost var links: map<Handle, SvcInfo>

    ghost predicate Valid()
      reads this, nodes
    {
      && Chained(svclist, nodes) && Mirrored(nodes, table) && Balanced(table, log, acquired, released)
      && LinksOk(links, nodes, log)
    }

    /** A death to be reported for an entry for names of length `len` releases no handle but the one that died. */
    ghost predicate LinksTrue(len: nat)
      reads this, nodes
    {
      forall h :: h in links && links[h] in nodes && links[h].len == len ==> links[h].ptr == 0 || links[h].ptr == h
    }

    constructor ()
      ensures Valid() && nodes == [] && log == [] && acquired == multiset{} && released == multiset{}
    {
      svclist, nodes, table, log, acquired, released, links := null, [], [], [], multiset{}, multiset{}, map[];
    }

    /** `find_svc` looks at the length only. */
    method FindSvc(len: nat) returns (si: SvcInfo?)
      requires Valid()
      ensures si == null ==> forall i :: 0 <= i < |nodes| ==> nodes[i].len != len
      ensures si != null ==> si in nodes && si.len == len
    {
      si := svclist;
      ghost var i: nat := 0;
      while si != null
        invariant 0 <= i <= |nodes| && si == NodeFrom(nodes, i)
        invariant forall k :: 0 <= k < i ==> nodes[k].len != len
        decreases |nodes| - i
      {
        if si.len == len {
          return;
        }
        si := si.next;
        i := i + 1;
      }
    }

    /** `do_find_service`: the last handle added under a name of this length, unless it was cleared since. */
    method DoFindService(s16: seq<nat>, len: nat) returns (ptr: Handle)
      requires Valid()
      ensures ptr == Last(log, len)
    {
      var si := FindSvc(len);
      ptr := if si != null then si.ptr else 0;
      TableAt();
    }

    lemma TableAt()
      requires Valid()
      ensures forall i :: 0 <= i < |nodes| ==> nodes[i].ptr == Last(log, nodes[i].len)
      ensures forall len: nat :: Last(log, len) != 0 ==> exists i :: 0 <= i < |nodes| && nodes[i].len == len
    {
      forall i | 0 <= i < |nodes| ensures nodes[i].ptr == Last(log, nodes[i].len) {
        assert Mirrors(nodes[i], table[i]);
      }
      forall len: nat | Last(log, len) != 0 ensures exists i :: 0 <= i < |nodes| && nodes[i].len == len {
        var i :| 0 <= i < |table| && table[i].len == len;
        assert Mirrors(nodes[i], table[i]);
      }
    }

    /** The position of a node. */
    lemma Place(si: SvcInfo) returns (i: nat)
      requires Valid() && si in nodes
      ensures i < |nodes| && i < |table| && nodes[i] == si && table[i] == Entry(si.ptr, si.len, si.name)
      ensures forall k :: 0 <= k < |nodes| && k != i ==> nodes[k] != si
    {
      i :| 0 <= i < |nodes| && nodes[i] == si;
      assert Mirrors(nodes[i], table[i]);
      forall k | 0 <= k < |nodes| && k != i ensures nodes[k] != si {
        if k < i {
          assert nodes[k] != nodes[i];
        }
      }
    }

    /** `svcinfo_death`: the entry's handle, whichever it is now, is released. The driver drops the handle, and its
        death link with it, when it was the last hold on it; `carried` are the handles in messages it still holds. */
    method SvcinfoDeath(si: SvcInfo, ghost carried: set<Handle>)
      requires Valid() && si in nodes
      modifies si`ptr, `log, `released, `table, `links
      ensures Valid() && si.ptr == 0 && log == ClearLog(old(log), si.len, carried)
      ensures released == old(released) + One(old(si.ptr))
      ensures links == LinksLeft(old(links), old(log), si.len, carried)
      ensures old(si.ptr) != 0 ==> (LastHold(old(log), si.len, carried) <==>
                                      old(si.ptr) !in carried && acquired[old(si.ptr)] <= released[old(si.ptr)])
    {
      hide LastHold, Balanced, Chained, Mirrored, LinksOk, Last;
      ghost var h := si.ptr;
      HoldsLast(si);
      Release(si);
      if h != 0 {
        ClearedHold(old(log), si.len, h, carried);
      } else {
        NoHold(old(log), si.len, carried);
      }
      if LastHold(old(log), si.len, carried) {
        Unlink(Dropped(h), h);
      }
    }

    /** A death is reported on its link, whatever has been registered over it since, and the link is spent. A
        handle other than the one that died is released exactly if the entry holds one. */
    method Died(handle: Handle, si: SvcInfo, ghost carried: set<Handle>)
      requires Valid() && handle in links && links[handle] == si && si in nodes
      modifies si`ptr, `log, `released, `table, `links
      ensures Valid() && handle !in links && links.Keys <= old(links).Keys && DoFind(si.len) == 0 && si.ptr == 0
      ensures released == old(released) + One(old(si.ptr)) && log == ClearLog(old(log) + [Reported(handle)], si.len, carried)
      ensures (exists g :: g != handle && released[g] > old(released)[g]) <==> old(si.ptr) != 0 && old(si.ptr) != handle
    {
      hide LastHold, ClearLog, Balanced, Chained, Mirrored, LinksOk, Last;
      Unlink(Reported(handle), handle);
      SvcinfoDeath(si, carried);
      ClearedLast(old(log) + [Reported(handle)], si.len, carried, si.len);
      if old(si.ptr) != 0 && old(si.ptr) != handle {
        assert released[old(si.ptr)] > old(released)[old(si.ptr)];
      }
    }

    /** The driver frees the last message that carries handle `h`: it drops a handle the registry does not hold. */
    ghost method MessageFreed(h: Handle)
      requires Valid() && h != 0
      modifies `log, `links
      ensures Valid() && (exists len: nat :: Last(log, len) == h) == (acquired[h] > released[h])
      ensures acquired[h] > released[h] ==> links == old(links) && log == old(log)
      ensures acquired[h] <= released[h] ==> links == old(links) - {h} && log == old(log) + [Dropped(h)]
    {
      hide Chained, Mirrored, LinksOk, Last, HeldBy;
      if acquired[h] <= released[h] {
        Unlink(Dropped(h), h);
      }
      NotHeld(table, log, acquired, released, h);
    }

    /** The driver reports a death, or drops a handle: it does no second time what it did. */
    ghost method Unlink(e: Event, handle: Handle)
      requires Valid() && Ends(e, handle)
      modifies `log, `links
      ensures Valid() && links == old(links) - {handle} && log == old(log) + [e]
    {
      hide Balanced, Chained, Mirrored, LinksOk;
      EndedKeeps(table, log, acquired, released, e, handle);
      LinksEnded(links, nodes, log, e, handle);
      links := links - {handle};
      log := log + [e];
    }

    /** The entry is emptied and what it held is released. */
    method Release(si: SvcInfo)
      requires Valid() && si in nodes
      modifies si`ptr, `log, `released, `table
      ensures Valid() && si.ptr == 0 && log == old(log) + [Cleared(si.len)]
      ensures released == old(released) + One(old(si.ptr))
    {
      hide Balanced, Chained, LinksOk;
      ghost var i := Place(si);
      LinksCleared(links, nodes, log, si.len);
      ClearedKeeps(table, log, acquired, released, i);
      released := released + One(si.ptr);
      log := log + [Cleared(si.len)];
      if si.ptr != 0 {
        si.ptr := 0;
      }
      table := table[i := table[i].(ptr := 0)];
    }

    /** After a release, the driver's count and the history agree on whether it was the last hold. */
    lemma ClearedHold(was: seq<Event>, len: nat, h: Handle, carried: set<Handle>)
      requires Valid() && log == was + [Cleared(len)] && h == Last(was, len) && h != 0
      ensures LastHold(was, len, carried) <==> h !in carried && acquired[h] <= released[h]
    {
      hide Balanced, Chained, Mirrored, LinksOk, Last, HeldBy;
      NotHeld(table, log, acquired, released, h);
      forall other: nat ensures Last(log, other) == if other == len then 0 else Last(was, other) {
        LastMore(was, Cleared(len), other);
      }
      if acquired[h] <= released[h] {
        forall other: nat | other != len ensures Last(was, other) != h {
          assert Last(log, other) != h;
        }
      } else {
        var other: nat :| Last(log, other) == h;
        assert other != len && Last(was, other) == h;
      }
    }

    ghost function DoFind(len: nat): Handle
      reads this
    {
      Last(log, len)
    }

    /** The entry the death of `handle` is to be reported for. */
    method LinkedEntry(len: nat, ghost handle: Handle) returns (si: SvcInfo)
      requires Valid() && DueFor(log, handle) == Some(len)
      ensures si in nodes && si.len == len && handle in links && links[handle] == si
    {
      var found := FindSvc(len);
      assert LinkOk(links, nodes, log, handle);
      assert found != null;
      si := found;
      OneOfLength(si, links[handle]);
    }

    lemma OneOfLength(a: SvcInfo, b: SvcInfo)
      requires Valid() && a in nodes && b in nodes && a.len == b.len
      ensures a == b
    {
      hide LinksOk, Chained;
      var i := Place(a);
      var j := Place(b);
      assert table[i].len == table[j].len;
    }

    lemma HoldsLast(si: SvcInfo)
      requires Valid() && si in nodes
      ensures si.ptr == Last(log, si.len)
    {
      hide LinksOk, Chained;
      var i := Place(si);
    }

    /** After an add, deaths are true to their links exactly if no other handle's is still due for the length. */
    lemma LinksTrueIs(si: SvcInfo)
      requires Valid() && si in nodes && si.ptr != 0
      ensures LinksTrue(si.len) <==> OnlyDue(log, si.len, si.ptr)
    {
      hide Balanced, Chained, Mirrored, DueFor;
      if LinksTrue(si.len) {
        forall h: Handle | DueFor(log, h) == Some(si.len) ensures h == si.ptr {
          assert LinkOk(links, nodes, log, h);
          OneOfLength(si, links[h]);
        }
      }
      if OnlyDue(log, si.len, si.ptr) {
        forall h | h in links && links[h] in nodes && links[h].len == si.len ensures links[h].ptr == 0 || links[h].ptr == h {
          assert LinkOk(links, nodes, log, h);
          OneOfLength(si, links[h]);
        }
      }
    }

    /** `do_add_service`; `oom` if no entry could be had. Among the messages the driver still holds is this one,
        which carries `ptr`. */
    method DoAddService(s16: seq<nat>, len: nat, ptr: Handle, oom: bool, ghost carried: set<Handle>) returns (ok: bool)
      requires Valid() && (0 < len <= MAX_NAME ==> len < |s16|) && ptr in carried
      modifies this, nodes
      ensures Valid()
      ensures !ok ==> log == old(log) && acquired == old(acquired) && released == old(released) && nodes == old(nodes) && links == old(links)
      ensures ok ==> Last(log, len) == ptr && acquired == old(acquired) + multiset{ptr}
      ensures ok ==> forall other: nat :: other != len ==> Last(log, other) == Last(old(log), other)
      ensures ok ==> released == old(released) + One(Last(old(log), len))
      ensures ok ==> exists si :: si in nodes && si.len == len && links == Linked(LinksLeft(old(links), old(log), len, carried), ptr, si)
      ensures ok ==> (LinksTrue(len) <==> OnlyDueLeft(old(log), len, ptr, carried))
      ensures ok ==> log == AddLog(old(log), len, ptr, carried)
      ensures forall x :: x in nodes && x !in old(nodes) ==> fresh(x)
      ensures ok <==> ptr != 0 && 0 < len <= MAX_NAME && !(oom && forall i :: 0 <= i < |old(nodes)| ==> old(nodes)[i].len != len)
    {
      hide Balanced, Chained, Mirrored, Mirrors, Last, LastHold, One, LinksOk, LinksTrue, AddLog, OnlyDue, OnlyDueLeft;
      if ptr == 0 || len == 0 || len > MAX_NAME {
        return false;
      }
      var si := Enter(s16, len, ptr, oom, carried);
      if si == null {
        return false;
      }
      var entry: SvcInfo := si;
      assert entry.len == len;
      HoldsLast(entry);
      OnlyDueAfter(old(log), len, ptr, carried);
      LinksTrueIs(entry);
      return true;
    }

    /** The entry that holds `ptr` from now on: one with a name of this length, or a new one. */
    method Enter(s16: seq<nat>, len: nat, ptr: Handle, oom: bool, ghost carried: set<Handle>) returns (si: SvcInfo?)
      requires Valid() && ptr != 0 && len < |s16|
      modifies this, nodes
      ensures Valid()
      ensures si == null <==> oom && forall i :: 0 <= i < |old(nodes)| ==> old(nodes)[i].len != len
      ensures si == null ==> log == old(log) && acquired == old(acquired) && released == old(released) && nodes == old(nodes) && links == old(links)
      ensures si != null ==> si in nodes && si.len == len && acquired == old(acquired) + multiset{ptr}
      ensures si != null ==> released == old(released) + One(Last(old(log), len))
      ensures si != null ==> links == Linked(LinksLeft(old(links), old(log), len, carried), ptr, si)
      ensures si != null ==> forall other: nat :: Last(log, other) == if other == len then ptr else Last(old(log), other)
      ensures si != null ==> log == AddLog(old(log), len, ptr, carried)
      ensures forall x :: x in nodes && x !in old(nodes) ==> fresh(x)
    {
      hide Balanced, Chained, Mirrored, Mirrors, Last, LastHold, LinksOk, ClearLog;
      TableAt();
      AddedLast(log, len, ptr, carried);
      si := FindSvc(len);
      if si != null {
        HoldsLast(si);
        Override(si, ptr, carried);
      } else if !oom {
        NoHold(log, len, carried);
        si := Prepend(s16, len, ptr);
      }
    }

    /** An entry found takes the new handle; the one it held, if any, is released first. */
    method Override(si: SvcInfo, ptr: Handle, ghost carried: set<Handle>)
      requires Valid() && si in nodes && ptr != 0
      modifies si`ptr, `log, `acquired, `released, `table, `links
      ensures Valid() && si.ptr == ptr && acquired == old(acquired) + multiset{ptr} && released == old(released) + One(old(si.ptr))
      ensures links == Linked(LinksLeft(old(links), old(log), si.len, carried), ptr, si)
      ensures log == AddLog(old(log), si.len, ptr, carried)
    {
      hide Balanced, Chained, Mirrored, Last, LastHold, LinksOk, ClearLog;
      HoldsLast(si);
      if si.ptr != 0 {
        SvcinfoDeath(si, carried);
      } else {
        NoHold(log, si.len, carried);
      }
      Fill(si, ptr);
    }

    /** An empty entry takes handle `ptr`, which is acquired and linked to. */
    method Fill(si: SvcInfo, ptr: Handle)
      requires Valid() && si in nodes && si.ptr == 0 && ptr != 0
      modifies si`ptr, `log, `acquired, `table, `links
      ensures Valid() && si.ptr == ptr && log == old(log) + [Added(si.len, ptr)] && acquired == old(acquired) + multiset{ptr}
      ensures links == Linked(old(links), ptr, si)
    {
      hide Balanced, Chained, LinksOk;
      ghost var i := Place(si);
      LinksMore(links, nodes, log, ptr, si);
      links := Linked(links, ptr, si);
      FilledKeeps(table, log, acquired, released, i, ptr);
      si.ptr := ptr;
      acquired := acquired + multiset{ptr};
      log := log + [Added(si.len, ptr)];
      table := table[i := table[i].(ptr := ptr)];
    }

    /** A new entry goes to the head of the list. */
    method Prepend(s16: seq<nat>, len: nat, ptr: Handle) returns (si: SvcInfo)
      requires Valid() && ptr != 0 && len < |s16| && forall i :: 0 <= i < |nodes| ==> nodes[i].len != len
      modifies this
      ensures Valid() && fresh(si) && si in nodes && si.len == len && si.name == s16[..len]
      ensures nodes == [si] + old(nodes) && released == old(released) && links == Linked(old(links), ptr, si)
      ensures log == old(log) + [Added(len, ptr)] && acquired == old(acquired) + multiset{ptr}
    {
      hide Balanced, Chained, Mirrored, LinksOk, Mirrors, AddLog, Last;
      ghost var was := nodes;
      ghost var x := Entry(ptr, len, s16[..len]);
      MirroredLengths(nodes, table, len);
      PrependedKeeps(table, log, acquired, released, x);
      si := new SvcInfo(ptr, len, s16[..len], svclist);
      ChainedOn(si, was);
      MirroredOn(si, x, was, table);
      svclist := si;
      LinksPrepended(links, nodes, log, ptr, si);
      nodes := [si] + nodes;
      links := Linked(links, ptr, si);
      acquired := acquired + multiset{ptr};
      log := log + [Added(len, ptr)];
      table := [x] + table;
    }

    /** The listing branch of `svcmgr_handler`: the `n`-th entry, the newest first. */
    method ListService(n: nat) returns (name: Option<seq<nat>>)
      requires Valid()
      ensures name == if n < |nodes| then Some(nodes[n].name) else None
    {
      var si := svclist;
      var left := n;
      ghost var i: nat := 0;
      while left > 0 && si != null
        invariant 0 <= left && i <= |nodes| && left + i == n && si == NodeFrom(nodes, i)
        decreases |nodes| - i
      {
        left := left - 1;
        si := si.next;
        i := i + 1;
      }
      assert n < |nodes| ==> i == n;
      name := if si != null then Some(si.name) else None;
    }
  }

  lemma OneLast(h: Handle, carried: set<Handle>)
    requires h != 0 && h !in carried
    ensures Last([Added(1, h)], 1) == h && LastHold([Added(1, h)], 1, carried)
  {
    hide Last;
    assert [] + [Added(1, h)] == [Added(1, h)];
    forall len: nat ensures Last([Added(1, h)], len) == if len == 1 then h else 0 {
      LastMore([], Added(1, h), len);
      NothingLast(len);
    }
  }

  lemma OneDue(h: Handle)
    ensures forall g: Handle :: DueFor([Added(1, h)], g) == if g == h then Some(1) else None
  {
    assert [] + [Added(1, h)] == [Added(1, h)];
    forall g: Handle ensures DueFor([Added(1, h)], g) == if g == h then Some(1) else None {
      DueMore([], Added(1, h), g);
    }
  }

  lemma TwoLast(h: Handle, carried: set<Handle>)
    requires h != 0
    ensures var log := [Added(1, h), Added(2, h)]; Last(log, 1) == h && !LastHold(log, 1, carried) && DueFor(log, h) == Some(1)
  {
    var log := [Added(1, h), Added(2, h)];
    assert log == [] + [Added(1, h)] + [Added(2, h)];
    LastMore([], Added(1, h), 1);
    LastMore([Added(1, h)], Added(2, h), 1);
    LastMore([Added(1, h)], Added(2, h), 2);
    DueMore([], Added(1, h), h);
    DueMore([Added(1, h)], Added(2, h), h);
  }

  method OneAdd(s16: seq<nat>, first: Handle) returns (m: ServiceManager)
    requires |s16| > 2 && first != 0
    ensures fresh(m) && m.Valid() && fresh(m.nodes)
    ensures m.acquired == multiset{first} && m.released == multiset{} && m.log == [Added(1, first)]
  {
    hide Balanced, Chained, Mirrored, LinksOk, HeldBy, LastHold, ServiceManager.Valid, ServiceManager.LinksTrue;
    m := new ServiceManager();
    NothingLast(1);
    hide Last;
    var _ := m.DoAddService(s16, 1, first, false, {first});
    forall i | 0 <= i < |m.nodes| ensures fresh(m.nodes[i]) {
      assert m.nodes[i] in m.nodes;
    }
  }

  /** A second service under the length of the first: the driver drops the first one's handle and its link. */
  method Overridden(s16: seq<nat>, first: Handle, second: Handle) returns (m: ServiceManager)
    requires |s16| > 2 && first != 0 && second != 0 && first != second
    ensures fresh(m) && m.Valid() && m.LinksTrue(1) && first !in m.links && m.DoFind(1) == second
    ensures m.log == [Added(1, first), Cleared(1), Dropped(first), Added(1, second)]
  {
    hide Balanced, Chained, Mirrored, LinksOk, HeldBy, ServiceManager.Valid, ServiceManager.LinksTrue;
    m := OneAdd(s16, first);
    OneLast(first, {second});
    OneDue(first);
    hide Last, LastHold, DueFor;
    var _ := m.DoAddService(s16, 1, second, false, {second});
  }

  method TwoNames(s16: seq<nat>, first: Handle) returns (m: ServiceManager)
    requires |s16| > 2 && first != 0
    ensures fresh(m) && m.Valid() && fresh(m.nodes)
    ensures m.acquired == multiset{first, first} && m.released == multiset{} && m.log == [Added(1, first), Added(2, first)]
  {
    hide Balanced, Chained, Mirrored, LinksOk, HeldBy, LastHold, ServiceManager.Valid, ServiceManager.LinksTrue;
    m := OneAdd(s16, first);
    LastMore([], Added(1, first), 2);
    NothingLast(2);
    hide Last;
    var _ := m.DoAddService(s16, 2, first, false, {first});
    forall i | 0 <= i < |m.nodes| ensures fresh(m.nodes[i]) {
      assert m.nodes[i] in m.nodes;
    }
  }

  /** A service under two lengths, and a second service over one of them: when the first one dies, it is reported
      for the entry that holds the second, which did not die, is released and can no longer be found. */
  method StaleDeath(s16: seq<nat>, first: Handle, second: Handle) returns (m: ServiceManager)
    requires |s16| > 2 && first != 0 && second != 0 && first != second
    ensures fresh(m) && m.Valid() && m.DoFind(1) == 0
    ensures m.acquired == multiset{first, first, second} && m.released == multiset{first, second}
  {
    hide Balanced, Chained, Mirrored, LinksOk, HeldBy, ServiceManager.Valid, ServiceManager.LinksTrue;
    m := TwoNames(s16, first);
    TwoLast(first, {second});
    hide Last, LastHold, DueFor, AddLog;
    DueAfter(m.log, 1, second, {second});
    var _ := m.DoAddService(s16, 1, second, false, {second});
    var si := m.LinkedEntry(1, first);
    m.HoldsLast(si);
    m.Died(first, si, {});
  }
}
