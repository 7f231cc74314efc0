/** The marshaller of user space: words, strings and references go into a buffer one after the other, and
    come out again. */
module Bio {
  import opened Wrappers
  import opened Words

  /** Memory is seen in 16-bit units; a word is two of them, the low one first. */
  type Half = x: nat | x < 0x1_0000

  /** The largest number of bytes of a string. */
  const MAX_BIO_SIZE: nat := 0x4000_0000

  const NULL_LENGTH: nat := 0xffff_ffff

  const OBJECT_SIZE: nat := 16

  const TYPE_HANDLE: nat := 0x7368_2a85

  const TYPE_BINDER: nat := 0x7362_2a85

  const OBJECT_FLAGS: nat := 0x17f

  /** Sizes are rounded up to words, in 32-bit arithmetic. */
  function Round4(size: nat): nat {
    Wrap(size + 3) - Wrap(size + 3) % 4
  }

  lemma Round4Is(size: nat)
    requires size + 3 < MODULUS
    ensures size <= Round4(size) < size + 4 && Round4(size) % 4 == 0
  {
  }

  /** Where the next item goes, the bytes left, and whether something went wrong. */
  datatype Cursor = Cursor(pos: nat, avail: nat, overflow: bool)

  function Alloc(c: Cursor, size: nat): (Cursor, Option<nat>) {
    if Round4(size) > c.avail then (c.(overflow := true), None)
    else (c.(pos := c.pos + Round4(size), avail := c.avail - Round4(size)), Some(c.pos))
  }

  function Get(c: Cursor, size: nat): (Cursor, Option<nat>) {
    if c.avail < Round4(size) then (c.(avail := 0, overflow := true), None)
    else (c.(pos := c.pos + Round4(size), avail := c.avail - Round4(size)), Some(c.pos))
  }

  // ---- words in memory ----

  function Low(n: Word): Half {
    n % 0x1_0000
  }

  function High(n: Word): Half {
    n / 0x1_0000
  }

  predicate WordAt(mem: seq<Half>, pos: nat, n: Word) {
    pos % 4 == 0 && pos / 2 + 1 < |mem| && mem[pos / 2] == Low(n) && mem[pos / 2 + 1] == High(n)
  }

  function ReadWord(mem: seq<Half>, pos: nat): Word {
    if pos / 2 + 1 < |mem| then (mem[pos / 2] as int) + (mem[pos / 2 + 1] as int) * 0x1_0000 else 0
  }

  lemma WordBack(mem: seq<Half>, pos: nat, n: Word)
    requires WordAt(mem, pos, n)
    ensures ReadWord(mem, pos) == n
  {
  }

  // ---- items ----

  /** What can be put: a word, a string without zeros, the absence of a string, a reference, the null
      reference, an object of the sender's own. */
  datatype Item = Number(n: Word) | Text(units: seq<Half>) | NoText | Reference(ptr: Word) | Null | Own(ptr: Word)

  predicate Puttable(x: Item) {
    match x
    case Number(_) => true
    case Text(units) => |units| < MAX_BIO_SIZE / 2 && forall i :: 0 <= i < |units| ==> units[i] != 0
    case NoText => true
    case Reference(ptr) => ptr != 0
    case Null => true
    case Own(_) => true
  }

  function TextSize(length: nat): nat {
    Round4(Wrap(Wrap(length + 1) * 2))
  }

  function Size(x: Item): nat {
    match x
    case Number(_) => 4
    case Text(units) => 4 + TextSize(|units|)
    case NoText => 4
    case Reference(_) => OBJECT_SIZE
    case Null => OBJECT_SIZE
    case Own(_) => OBJECT_SIZE
  }

  /** Item `x` is in memory at `pos`, which is among the offsets exactly if the item is an object that is not
      null. */
  predicate ItemAt(mem: seq<Half>, offs: seq<nat>, x: Item, pos: nat) {
    (pos in offs <==> x.Reference? || x.Own?) &&
    match x
    case Number(n) => WordAt(mem, pos, n)
    case Text(units) =>
      && |units| < MAX_BIO_SIZE / 2 && WordAt(mem, pos, |units|)
      && pos / 2 + 2 + |units| < |mem|
      && mem[pos / 2 + 2..pos / 2 + 2 + |units|] == units && mem[pos / 2 + 2 + |units|] == 0
    case NoText => WordAt(mem, pos, NULL_LENGTH)
    case Reference(ptr) => ptr != 0 && ObjectAt(mem, pos, TYPE_HANDLE, ptr)
    case Null => ObjectAt(mem, pos, TYPE_HANDLE, 0)
    case Own(ptr) => ObjectAt(mem, pos, TYPE_BINDER, ptr)
  }

  predicate ObjectAt(mem: seq<Half>, pos: nat, kind: Word, ptr: Word) {
    WordAt(mem, pos, kind) && WordAt(mem, pos + 4, OBJECT_FLAGS) && WordAt(mem, pos + 8, ptr) && WordAt(mem, pos + 12, 0)
  }

  /** The items lie one after the other from `pos` to `end`. */
  predicate LaidOut(mem: seq<Half>, offs: seq<nat>, items: seq<Item>, pos: nat, end: nat)
    decreases |items|
  {
    if items == [] then pos == end
    else ItemAt(mem, offs, items[0], pos) && LaidOut(mem, offs, items[1..], pos + Size(items[0]), end)
  }

  lemma SizeWhole(x: Item)
    requires Puttable(x)
    ensures Size(x) % 4 == 0 && Size(x) > 0
    ensures x.Text? ==> 2 * (|x.units| + 1) <= TextSize(|x.units|)
  {
    hide TextSize;
    if x.Text? {
      TextSizeIs(|x.units|);
      PlusFour(TextSize(|x.units|));
    }
  }

  lemma PlusFour(n: nat)
    requires n % 4 == 0
    ensures (4 + n) % 4 == 0
  {
  }

  lemma TextSizeIs(length: nat)
    requires length < MAX_BIO_SIZE / 2
    ensures TextSize(length) == Round4((length + 1) * 2)
    ensures TextSize(length) % 4 == 0 && (length + 1) * 2 <= TextSize(length)
  {
    assert Wrap(length + 1) == length + 1;
    assert Wrap((length + 1) * 2) == (length + 1) * 2;
    Round4Is((length + 1) * 2);
  }

  /** Offsets may be added, but only from `end` on. */
  ghost predicate OffsetsMore(offs: seq<nat>, offs': seq<nat>, end: nat) {
    (forall o :: o in offs ==> o in offs') && (forall o :: o in offs' ==> o in offs || o >= end)
  }

  /** What lies before `end` stays when memory changes behind it and offsets from there on are added. */
  lemma {:induction false} LaidOutFrame(mem: seq<Half>, offs: seq<nat>, mem': seq<Half>, offs': seq<nat>, items: seq<Item>, pos: nat,
                                        end: nat)
    requires LaidOut(mem, offs, items, pos, end) && pos % 4 == 0 && end / 2 <= |mem'|
    requires forall x :: x in items ==> Puttable(x)
    requires forall i :: 0 <= i < end / 2 && i < |mem| ==> mem'[i] == mem[i]
    requires OffsetsMore(offs, offs', end)
    ensures pos <= end && LaidOut(mem', offs', items, pos, end)
  {
    hide ItemAt, Puttable, Size;
    if items != [] {
      assert items[0] in items;
      SizeWhole(items[0]);
      LaidOutFrame(mem, offs, mem', offs', items[1..], pos + Size(items[0]), end);
      ItemFrame(mem, offs, mem', offs', items[0], pos, end);
    }
  }

  lemma ItemFrame(mem: seq<Half>, offs: seq<nat>, mem': seq<Half>, offs': seq<nat>, x: Item, pos: nat, end: nat)
    requires ItemAt(mem, offs, x, pos) && Puttable(x) && pos % 4 == 0 && pos + Size(x) <= end && end / 2 <= |mem'|
    requires forall i :: 0 <= i < end / 2 && i < |mem| ==> mem'[i] == mem[i]
    requires OffsetsMore(offs, offs', end)
    ensures ItemAt(mem', offs', x, pos)
  {
    SizeWhole(x);
    if x.Text? {
      assert pos / 2 + 2 + |x.units| < end / 2;
    }
  }

  lemma {:induction false} LaidOutMore(mem: seq<Half>, offs: seq<nat>, items: seq<Item>, pos: nat, end: nat, x: Item)
    requires LaidOut(mem, offs, items, pos, end) && ItemAt(mem, offs, x, end)
    ensures LaidOut(mem, offs, items + [x], pos, end + Size(x))
  {
    if items == [] {
      assert items + [x] == [x];
      assert LaidOut(mem, offs, [], pos + Size(x), end + Size(x));
    } else {
      assert (items + [x])[1..] == items[1..] + [x];
      LaidOutMore(mem, offs, items[1..], pos + Size(items[0]), end, x);
    }
  }

  /** One more item behind the others. */
  lemma Appended(was: seq<Half>, offs: seq<nat>, mem: seq<Half>, offs': seq<nat>, items: seq<Item>, before: nat, x: Item, end: nat)
    requires LaidOut(was, offs, items, 0, before) && (forall y :: y in items ==> Puttable(y)) && before / 2 <= |mem|
    requires |was| == |mem| && forall i :: 0 <= i < before / 2 ==> mem[i] == was[i]
    requires OffsetsMore(offs, offs', before)
    requires ItemAt(mem, offs', x, before) && end == before + Size(x)
    ensures LaidOut(mem, offs', items + [x], 0, end)
  {
    hide LaidOut, ItemAt, Puttable, Size;
    LaidOutFrame(was, offs, mem, offs', items, 0, before);
    LaidOutMore(mem, offs', items, 0, before, x);
  }

  // ---- reading ----

  /** What a read hands out: a word, a length with the place of the text, or a reference, 0 if there is none. */
  datatype Got = GotNumber(n: Word) | GotText(length: Word, place: Option<nat>) | GotReference(ptr: Word)

  function GetNumber(mem: seq<Half>, c: Cursor): (Cursor, Word) {
    var (c', at) := Get(c, 4);
    (c', if at.Some? then ReadWord(mem, at.value) else 0)
  }

  function GetText(mem: seq<Half>, c: Cursor): (Cursor, Word, Option<nat>) {
    var (c1, length) := GetNumber(mem, c);
    var (c2, at) := Get(c1, Wrap(Wrap(length + 1) * 2));
    (c2, length, at)
  }

  function GetObject(offs: seq<nat>, c: Cursor): (Cursor, Option<nat>) {
    if c.pos in offs then Get(c, OBJECT_SIZE) else (c.(avail := 0, overflow := true), None)
  }

  function GetReference(mem: seq<Half>, offs: seq<nat>, c: Cursor): (Cursor, Word) {
    var (c', at) := GetObject(offs, c);
    (c', if at.Some? && ReadWord(mem, at.value) == TYPE_HANDLE then ReadWord(mem, at.value + 8) else 0)
  }

  /** The read that goes with item `x`. */
  function Read(mem: seq<Half>, offs: seq<nat>, c: Cursor, x: Item): (Cursor, Got) {
    match x
    case Number(_) => var (c', n) := GetNumber(mem, c); (c', GotNumber(n))
    case Text(_) => var (c', length, at) := GetText(mem, c); (c', GotText(length, at))
    case NoText => var (c', length, at) := GetText(mem, c); (c', GotText(length, at))
    case Reference(_) => var (c', ptr) := GetReference(mem, offs, c); (c', GotReference(ptr))
    case Null => var (c', ptr) := GetReference(mem, offs, c); (c', GotReference(ptr))
    case Own(_) => var (c', ptr) := GetReference(mem, offs, c); (c', GotReference(ptr))
  }

  /** What was read is what was put; an object of the sender's own is no reference until the driver made it one. */
  predicate Returned(mem: seq<Half>, x: Item, got: Got) {
    match x
    case Number(n) => got == GotNumber(n)
    case Text(units) =>
      && got.GotText? && got.length == |units| && got.place.Some?
      && got.place.value / 2 + |units| < |mem|
      && mem[got.place.value / 2..got.place.value / 2 + |units|] == units && mem[got.place.value / 2 + |units|] == 0
    case NoText => got.GotText? && got.length == NULL_LENGTH
    case Reference(ptr) => got == GotReference(ptr)
    case Null => got == GotReference(0)
    case Own(_) => got == GotReference(0)
  }

  function ReadAll(mem: seq<Half>, offs: seq<nat>, c: Cursor, items: seq<Item>): (Cursor, seq<Got>)
    decreases |items|
  {
    if items == [] then (c, [])
    else
      var (c1, got) := Read(mem, offs, c, items[0]);
      var (c2, rest) := ReadAll(mem, offs, c1, items[1..]);
      (c2, [got] + rest)
  }

  lemma ReadBack(mem: seq<Half>, offs: seq<nat>, c: Cursor, x: Item)
    requires Puttable(x) && x != Null && ItemAt(mem, offs, x, c.pos) && c.avail >= Size(x) && c.pos % 4 == 0
    ensures var (c', got) := Read(mem, offs, c, x);
            c' == c.(pos := c.pos + Size(x), avail := c.avail - Size(x)) && Returned(mem, x, got)
  {
    hide WordAt, ReadWord, Get, TextSize;
    match x
    case Number(n) =>
      WordBack(mem, c.pos, n);
      GetRoom(c, 4);
    case Text(units) => ReadText(mem, offs, c, units);
    case NoText => ReadNoText(mem, c);
    case Reference(ptr) => ReadObject(mem, offs, c, TYPE_HANDLE, ptr);
    case Own(ptr) => ReadObject(mem, offs, c, TYPE_BINDER, ptr);
  }

  lemma GetRoom(c: Cursor, size: nat)
    requires (size == 4 || size == OBJECT_SIZE) && c.avail >= size
    ensures Get(c, size) == (c.(pos := c.pos + size, avail := c.avail - size), Some(c.pos))
  {
    Round4Is(size);
  }

  lemma ReadNoText(mem: seq<Half>, c: Cursor)
    requires WordAt(mem, c.pos, NULL_LENGTH) && c.avail >= 4
    ensures GetText(mem, c).0 == c.(pos := c.pos + 4, avail := c.avail - 4) && GetText(mem, c).1 == NULL_LENGTH
  {
    WordBack(mem, c.pos, NULL_LENGTH);
    GetRoom(c, 4);
    hide WordAt, ReadWord;
  }

  lemma ReadObject(mem: seq<Half>, offs: seq<nat>, c: Cursor, kind: Word, ptr: Word)
    requires ObjectAt(mem, c.pos, kind, ptr) && c.pos in offs && c.avail >= OBJECT_SIZE
    ensures GetReference(mem, offs, c) ==
              (c.(pos := c.pos + OBJECT_SIZE, avail := c.avail - OBJECT_SIZE), if kind == TYPE_HANDLE then ptr else 0)
  {
    WordBack(mem, c.pos, kind);
    WordBack(mem, c.pos + 8, ptr);
    GetRoom(c, OBJECT_SIZE);
    hide WordAt, ReadWord, Get;
  }

  lemma ReadText(mem: seq<Half>, offs: seq<nat>, c: Cursor, units: seq<Half>)
    requires Puttable(Text(units)) && ItemAt(mem, offs, Text(units), c.pos) && c.avail >= Size(Text(units)) && c.pos % 4 == 0
    ensures var (c', length, at) := GetText(mem, c);
            && c' == c.(pos := c.pos + Size(Text(units)), avail := c.avail - Size(Text(units)))
            && length == |units| && at == Some(c.pos + 4)
  {
    WordBack(mem, c.pos, |units|);
    hide WordAt, ReadWord;
    GetRoom(c, 4);
  }

  /** Whatever was put comes back, item by item, and nothing is left over. */
  lemma {:induction false} RoundTrip(mem: seq<Half>, offs: seq<nat>, c: Cursor, items: seq<Item>, end: nat)
    requires LaidOut(mem, offs, items, c.pos, end) && c.pos % 4 == 0 && c.pos <= end && c.avail == end - c.pos && !c.overflow
    requires end / 2 <= |mem|
    requires (forall x :: x in items ==> Puttable(x)) && Null !in items
    ensures var (c', got) := ReadAll(mem, offs, c, items);
            c' == Cursor(end, 0, false) && |got| == |items| && forall i :: 0 <= i < |items| ==> Returned(mem, items[i], got[i])
    decreases |items|
  {
    hide ItemAt, Puttable, Size, Read, Returned;
    if items != [] {
      var x, rest := items[0], items[1..];
      assert x in items && forall y :: y in rest ==> y in items;
      SizeWhole(x);
      LaidOutFrame(mem, offs, mem, offs, rest, c.pos + Size(x), end);
      ReadBack(mem, offs, c, x);
      RoundTrip(mem, offs, Read(mem, offs, c, x).0, rest, end);
      hide LaidOut;
    }
  }

  // ---- a read that failed ----

  /** After a failed read nothing that takes space can be read. */
  lemma FailedStays(c: Cursor, size: nat, later: nat)
    requires Get(c, size).1.None?
    ensures Get(Get(c, size).0, later).1.Some? <==> Round4(later) == 0
    ensures Get(Get(c, size).0, later).0.avail == 0 && Get(Get(c, size).0, later).0.overflow
  {
  }

  /** Once nothing is left, every read of an item fails and hands out nothing. */
  lemma NothingLeft(mem: seq<Half>, offs: seq<nat>, c: Cursor, x: Item)
    requires c.avail == 0
    ensures var (c', got) := Read(mem, offs, c, x);
            && c' == c.(overflow := true)
            && (got == GotNumber(0) || got == GotText(0, None) || got == GotReference(0))
  {
  }

  lemma NullFails(mem: seq<Half>, offs: seq<nat>, c: Cursor)
    requires ItemAt(mem, offs, Null, c.pos)
    ensures Read(mem, offs, c, Null).0 == c.(avail := 0, overflow := true)
  {
  }

  /** A failure is never forgotten. */
  lemma {:induction false} OverflowStays(mem: seq<Half>, offs: seq<nat>, c: Cursor, items: seq<Item>)
    requires c.overflow
    ensures ReadAll(mem, offs, c, items).0.overflow
    decreases |items|
  {
    if items != [] {
      ReadSticky(mem, offs, c, items[0]);
      OverflowStays(mem, offs, Read(mem, offs, c, items[0]).0, items[1..]);
    }
  }

  lemma ReadSticky(mem: seq<Half>, offs: seq<nat>, c: Cursor, x: Item)
    requires c.overflow
    ensures Read(mem, offs, c, x).0.overflow
  {
  }

  /** If a null reference is among the items, reading them all fails. */
  lemma {:induction false} NullLost(mem: seq<Half>, offs: seq<nat>, c: Cursor, items: seq<Item>, end: nat)
    requires LaidOut(mem, offs, items, c.pos, end) && c.pos % 4 == 0 && c.avail == end - c.pos && c.pos <= end && end / 2 <= |mem|
    requires (forall x :: x in items ==> Puttable(x)) && Null in items
    ensures ReadAll(mem, offs, c, items).0.overflow
    decreases |items|
  {
    hide ItemAt, Puttable, Size, Read;
    var x, rest := items[0], items[1..];
    assert items == [x] + rest;
    if x == Null {
      NullFails(mem, offs, c);
      OverflowStays(mem, offs, Read(mem, offs, c, x).0, rest);
    } else {
      assert x in items && forall y :: y in rest ==> y in items;
      SizeWhole(x);
      LaidOutFrame(mem, offs, mem, offs, rest, c.pos + Size(x), end);
      ReadBack(mem, offs, c, x);
      NullLost(mem, offs, Read(mem, offs, c, x).0, rest, end);
    }
  }

  // ---- the room for offsets ----

  /** `bio_init`: the bytes set aside for offsets, and those left for data, if the buffer is large enough. */
  function Split(maxData: Word, maxOffs: Word): Option<(nat, nat)> {
    var n := Wrap(maxOffs * 4);
    if n > maxData then None else Some((n, maxData - n))
  }

  /** The bytes set aside hold all the offsets exactly when their number is below 2^30: beyond that the
      product wraps around. */
  lemma SplitExact(maxData: Word, maxOffs: Word)
    requires Split(maxData, maxOffs).Some?
    ensures 4 * maxOffs <= Split(maxData, maxOffs).value.0 <==> maxOffs < 0x4000_0000
  {
  }

  /** At 2^30 offsets none of the bytes they need is set aside, whatever the buffer's size. */
  lemma NoRoomAtLimit(maxData: Word)
    ensures Split(maxData, 0x4000_0000) == Some((0, maxData))
  {
  }

  class Writer {
    const mem: array<Half>
    const offsets: array<nat>
    ghost const room: nat
    var pos: nat
    var avail: nat
    var used: nat
    var offsAvail: nat
    var overflow: bool
    /** What was put so far. */
    ghost var items: seq<Item>

    ghost predicate Shape()
      reads `pos, `avail, `used, `offsAvail, offsets
    {
      && (mem as object) != (offsets as object) && pos % 4 == 0 && pos + avail == room && room / 2 <= mem.Length
      && used + offsAvail <= offsets.Length && forall o :: o in offsets[..used] ==> o < pos
    }

    ghost predicate Valid()
      reads this, mem, offsets
    {
      && Shape()
      && (forall x :: x in items ==> Puttable(x))
      && (!overflow ==> LaidOut(mem[..], offsets[..used], items, 0, pos))
    }

    /** `bio_init`. The caller asks for fewer than 2^30 offsets. */
    constructor (maxData: Word, maxOffs: Word)
      requires maxOffs < 0x4000_0000
      ensures Valid() && items == [] && fresh(mem) && fresh(offsets)
      ensures overflow == Split(maxData, maxOffs).None?
      ensures !overflow ==> avail == Split(maxData, maxOffs).value.1 && offsAvail == maxOffs && pos == 0
    {
      var n := Wrap(maxOffs * 4);
      var left := if n > maxData then 0 else maxData - n;
      var count := if n > maxData then 0 else maxOffs;
      mem := new Half[left / 2](_ => 0);
      offsets := new nat[count](_ => 0);
      room, pos, avail, used, offsAvail := left, 0, left, 0, count;
      overflow := n > maxData;
      items := [];
      new;
      assert LaidOut(mem[..], offsets[..used], [], 0, 0);
    }

    /** `bio_alloc`. What is used and what is left always add up to the whole. */
    method BioAlloc(size: nat) returns (ptr: Option<nat>)
      requires Shape()
      modifies `pos, `avail, `overflow
      ensures Shape()
      ensures (Cursor(pos, avail, overflow), ptr) == Alloc(old(Cursor(pos, avail, overflow)), size)
    {
      var rounded := Round4(size);
      if rounded > avail {
        overflow := true;
        return None;
      }
      ptr := Some(pos);
      pos := pos + rounded;
      avail := avail - rounded;
    }

    method WriteWord(at: nat, n: Word)
      requires at % 4 == 0 && at / 2 + 2 <= mem.Length
      modifies mem
      ensures WordAt(mem[..], at, n)
      ensures forall i :: 0 <= i < mem.Length && i != at / 2 && i != at / 2 + 1 ==> mem[i] == old(mem[i])
    {
      hide Low, High, WordAt;
      var i := at / 2;
      mem[i] := Low(n);
      mem[i + 1] := High(n);
      WordIs(mem[..], at, i, n);
    }

    /** `bio_put_uint32`. */
    method PutNumber(n: Word)
      requires Valid()
      modifies this, mem
      ensures Valid() && items == old(items) + [Number(n)]
      ensures overflow == (old(overflow) || old(avail) < 4)
      ensures !overflow ==> avail == old(avail) - 4
    {
      hide LaidOut, Puttable, WordAt;
      PuttableKinds(n);
      ghost var before, was := pos, mem[..];
      var ptr := BioAlloc(4);
      if ptr.Some? {
        WriteWord(ptr.value, n);
        if !overflow {
          Appended(was, offsets[..used], mem[..], offsets[..used], items, before, Number(n), pos);
        }
      }
      items := items + [Number(n)];
    }

    /** `bio_alloc_obj`: room for an object, whose place is noted among the offsets. */
    method AllocObject() returns (ptr: Option<nat>)
      requires Shape()
      modifies `pos, `avail, `used, `offsAvail, `overflow, offsets
      ensures Shape()
      ensures ptr.Some? <==> old(avail) >= OBJECT_SIZE && old(offsAvail) > 0
      ensures ptr.Some? ==>
                && ptr.value == old(pos) && pos == old(pos) + OBJECT_SIZE && overflow == old(overflow)
                && offsets[..used] == old(offsets[..used]) + [old(pos)]
      ensures ptr.None? ==> overflow
    {
      var obj := BioAlloc(OBJECT_SIZE);
      if obj.Some? && offsAvail > 0 {
        offsAvail := offsAvail - 1;
        offsets[used] := obj.value;
        used := used + 1;
        assert offsets[..used] == old(offsets[..used]) + [obj.value];
        return obj;
      }
      overflow := true;
      return None;
    }

    method WriteObject(at: nat, kind: Word, ptr: Word)
      requires at % 4 == 0 && at / 2 + 8 <= mem.Length
      modifies mem
      ensures ObjectAt(mem[..], at, kind, ptr)
      ensures forall i :: 0 <= i < mem.Length && (i < at / 2 || i >= at / 2 + 8) ==> mem[i] == old(mem[i])
    {
      WriteWord(at, kind);
      WriteWord(at + 4, OBJECT_FLAGS);
      WriteWord(at + 8, ptr);
      WriteWord(at + 12, 0);
    }

    /** What `bio_put_obj` and `bio_put_ref` share. */
    method PutObjectOf(kind: Word, ptr: Word, ghost x: Item)
      requires Valid() && ((x == Own(ptr) && kind == TYPE_BINDER) || (x == Reference(ptr) && kind == TYPE_HANDLE && ptr != 0))
      modifies this, mem, offsets
      ensures Valid() && items == old(items) + [x]
      ensures overflow == (old(overflow) || old(avail) < OBJECT_SIZE || old(offsAvail) == 0)
      ensures !overflow ==> avail == old(avail) - OBJECT_SIZE
    {
      hide LaidOut;
      ghost var before, was, offs := pos, mem[..], offsets[..used];
      var obj := AllocObject();
      if obj.Some? {
        WriteObject(obj.value, kind, ptr);
        if !overflow {
          Appended(was, offs, mem[..], offsets[..used], items, before, x, pos);
        }
      }
      items := items + [x];
    }

    /** `bio_put_obj`. */
    method PutObject(ptr: Word)
      requires Valid()
      modifies this, mem, offsets
      ensures Valid() && items == old(items) + [Own(ptr)]
      ensures overflow == (old(overflow) || old(avail) < OBJECT_SIZE || old(offsAvail) == 0)
      ensures !overflow ==> avail == old(avail) - OBJECT_SIZE
    {
      PutObjectOf(TYPE_BINDER, ptr, Own(ptr));
    }

    /** `bio_put_ref`: a null reference takes its room, but its place is noted nowhere. */
    method PutReference(ptr: Word)
      requires Valid()
      modifies this, mem, offsets
      ensures Valid()
      ensures items == old(items) + [if ptr == 0 then Null else Reference(ptr)]
      ensures overflow == (old(overflow) || old(avail) < OBJECT_SIZE || (ptr != 0 && old(offsAvail) == 0))
      ensures !overflow ==> avail == old(avail) - OBJECT_SIZE
    {
      if ptr != 0 {
        PutObjectOf(TYPE_HANDLE, ptr, Reference(ptr));
        return;
      }
      hide LaidOut;
      ghost var before, was := pos, mem[..];
      var obj := BioAlloc(OBJECT_SIZE);
      if obj.Some? {
        WriteObject(obj.value, TYPE_HANDLE, ptr);
        if !overflow {
          Appended(was, offsets[..used], mem[..], offsets[..used], items, before, Null, pos);
        }
      }
      items := items + [Null];
    }

    /** The loop that finds the end of a string. */
    method Length(str: seq<Half>) returns (len: nat)
      requires 0 in str
      ensures len < |str| && str[len] == 0 && forall i :: 0 <= i < len ==> str[i] != 0
    {
      len := 0;
      while str[len] != 0
        invariant len < |str| && forall i :: 0 <= i < len ==> str[i] != 0
        invariant exists k :: len <= k < |str| && str[k] == 0
        decreases |str| - len
      {
        len := len + 1;
      }
    }

    /** The copying loop of `bio_put_string16` and `bio_put_string16_x`, terminator included. */
    method CopyUnits(at: nat, str: seq<Half>, len: nat)
      requires len < |str| && at / 2 + len < mem.Length
      modifies mem
      ensures mem[at / 2..at / 2 + len + 1] == str[..len + 1]
      ensures forall i :: 0 <= i < mem.Length && (i < at / 2 || i > at / 2 + len) ==> mem[i] == old(mem[i])
    {
      var i := 0;
      while i <= len
        invariant 0 <= i <= len + 1
        invariant forall k :: 0 <= k < i ==> mem[at / 2 + k] == str[k]
        invariant forall k :: 0 <= k < mem.Length && (k < at / 2 || k >= at / 2 + i) ==> mem[k] == old(mem[k])
      {
        mem[at / 2 + i] := str[i];
        i := i + 1;
      }
    }

    /** `bio_put_string16`, and, for units below 256, `bio_put_string16_x`: a string that is absent or too long
        is put as absent. */
    method PutText(str: Option<seq<Half>>)
      requires Valid() && (str.Some? ==> 0 in str.value)
      modifies this, mem
      ensures Valid()
      ensures exists x :: items == old(items) + [x] && Stands(str, x) && (overflow <==> old(overflow) || old(avail) < Size(x))
    {
      if str.None? {
        PutAbsent();
        return;
      }
      var len := Length(str.value);
      if len >= MAX_BIO_SIZE / 2 {
        PutAbsent();
        return;
      }
      PutUnits(str.value, len);
      assert Stands(str, Text(str.value[..len]));
    }

    method PutAbsent()
      requires Valid()
      modifies this, mem
      ensures Valid() && items == old(items) + [NoText]
      ensures overflow == (old(overflow) || old(avail) < 4)
    {
      var before := pos;
      ghost var was, had, laid := mem[..], items, !overflow;
      PutNumber(NULL_LENGTH);
      items := had + [NoText];
      if !overflow {
        AbsentOrNumber(mem[..], offsets[..used], had, 0, pos);
      }
    }

    /** Room for the units and their terminator, and the copy. */
    method PutBody(str: seq<Half>, len: nat) returns (ptr: Option<nat>)
      requires Shape() && len < |str| && len < MAX_BIO_SIZE / 2
      modifies `pos, `avail, `overflow, mem
      ensures Shape() && (overflow <==> old(overflow) || old(avail) < Round4((len + 1) * 2))
      ensures ptr.Some? <==> old(avail) >= Round4((len + 1) * 2)
      ensures ptr.Some? ==>
                && ptr.value == old(pos) && pos == old(pos) + Round4((len + 1) * 2)
                && ptr.value / 2 + len < mem.Length && mem[ptr.value / 2..ptr.value / 2 + len + 1] == str[..len + 1]
                && forall i :: 0 <= i < ptr.value / 2 ==> mem[i] == old(mem[i])
      ensures ptr.None? ==> pos == old(pos) && mem[..] == old(mem[..])
    {
      var size := (len + 1) * 2;
      Round4Is(size);
      hide Round4;
      ptr := BioAlloc(size);
      if ptr.Some? {
        HalvesFit(ptr.value, len, room);
        CopyUnits(ptr.value, str, len);
      }
    }

    method PutUnits(str: seq<Half>, len: nat)
      requires Valid() && len < |str| && len < MAX_BIO_SIZE / 2 && str[len] == 0
      requires forall i :: 0 <= i < len ==> str[i] != 0
      modifies this, mem
      ensures Valid() && items == old(items) + [Text(str[..len])]
      ensures overflow == (old(overflow) || old(avail) < Size(Text(str[..len])))
    {
      hide LaidOut, WordAt, Round4, TextSize, ItemAt, Puttable;
      ghost var x := Text(str[..len]);
      TextRoom(str[..len]);
      FourIsFour();
      ghost var before, was := pos, mem[..];
      var first := BioAlloc(4);
      if first.Some? {
        WriteWord(first.value, len);
      }
      ghost var afterWord := mem[..];
      var ptr := PutBody(str, len);
      if first.Some? && ptr.Some? && !overflow {
        WordStays(afterWord, mem[..], before, len);
        UnitsAt(mem[..], offsets[..used], str, len, before);
        Appended(was, offsets[..used], mem[..], offsets[..used], items, before, x, pos);
      }
      items := items + [x];
    }

    /** What was put without overflow comes back from the bytes and offsets that are sent, and is used up,
        exactly if no null reference was put; otherwise the reader fails. */
    lemma ComesBack()
      requires Valid() && !overflow
      ensures var (c, got) := ReadAll(mem[..], offsets[..used], Cursor(0, pos, false), items);
              && (c.overflow <==> Null in items)
              && (Null !in items <==>
                    c == Cursor(pos, 0, false) && |got| == |items|
                    && forall i :: 0 <= i < |items| ==> Returned(mem[..], items[i], got[i]))
    {
      if Null in items {
        NullLost(mem[..], offsets[..used], Cursor(0, pos, false), items, pos);
      } else {
        RoundTrip(mem[..], offsets[..used], Cursor(0, pos, false), items, pos);
      }
    }
  }

  /** A null reference and then a word are put without overflow; the word is not read back. */
  method NullThenWord(n: Word) returns (w: Writer)
    requires n != 0
    ensures fresh(w) && w.Valid() && !w.overflow && w.items == [Null, Number(n)]
    ensures var (c, got) := ReadAll(w.mem[..], w.offsets[..w.used], Cursor(0, w.pos, false), w.items);
            c.overflow && |got| == 2 && got[1] == GotNumber(0)
  {
    assert Split(64, 1) == Some((4, 60));
    w := new Writer(64, 1);
    w.PutReference(0);
    assert w.items == [Null] && !w.overflow;
    w.PutNumber(n);
    assert w.items == [Null, Number(n)] && !w.overflow;
    NullTwo(w.mem[..], w.offsets[..w.used], w.pos, n);
  }

  lemma NullTwo(mem: seq<Half>, offs: seq<nat>, end: nat, n: Word)
    requires LaidOut(mem, offs, [Null, Number(n)], 0, end)
    ensures var (c, got) := ReadAll(mem, offs, Cursor(0, end, false), [Null, Number(n)]);
            c.overflow && |got| == 2 && got[1] == GotNumber(0)
  {
    var items, c := [Null, Number(n)], Cursor(0, end, false);
    assert items[1..] == [Number(n)] && [Number(n)][1..] == [];
    NullFails(mem, offs, c);
    var c1 := Read(mem, offs, c, Null).0;
    FourIsFour();
    assert Read(mem, offs, c1, Number(n)) == (c1, GotNumber(0));
    assert ReadAll(mem, offs, c1, [Number(n)]) == (c1, [GotNumber(0)] + []);
  }

  lemma HalvesFit(pos: nat, len: nat, room: nat)
    requires pos % 4 == 0 && pos + (len + 1) * 2 <= room
    ensures pos / 2 + len + 1 <= room / 2
  {
    HalfOfWords(pos);
    HalfOf(room);
  }

  lemma HalfOf(x: nat)
    ensures 2 * (x / 2) <= x <= 2 * (x / 2) + 1
  {
  }

  lemma HalfOfWords(x: nat)
    requires x % 4 == 0
    ensures x == 2 * (x / 2)
  {
    var k, h := x / 4, x / 2;
    assert x == 4 * k;
    HalfOf(x);
    assert h == 2 * k;
  }

  lemma WordIs(mem: seq<Half>, at: nat, i: nat, n: Word)
    requires at % 4 == 0 && i == at / 2 && i + 1 < |mem| && mem[i] == Low(n) && mem[i + 1] == High(n)
    ensures WordAt(mem, at, n)
  {
    hide Low, High;
  }

  lemma PuttableKinds(n: Word)
    ensures Puttable(Number(n)) && Puttable(NoText)
  {
  }

  lemma TextRoom(units: seq<Half>)
    requires |units| < MAX_BIO_SIZE / 2 && forall i :: 0 <= i < |units| ==> units[i] != 0
    ensures Puttable(Text(units)) && Size(Text(units)) == 4 + Round4((|units| + 1) * 2)
    ensures Round4((|units| + 1) * 2) % 4 == 0 && (|units| + 1) * 2 <= Round4((|units| + 1) * 2)
  {
    TextSizeIs(|units|);
    hide TextSize, Round4;
  }

  lemma FourIsFour()
    ensures Round4(4) == 4
  {
  }

  lemma WordStays(a: seq<Half>, b: seq<Half>, pos: nat, n: Word)
    requires WordAt(a, pos, n) && |b| == |a| && b[pos / 2] == a[pos / 2] && b[pos / 2 + 1] == a[pos / 2 + 1]
    ensures WordAt(b, pos, n)
  {
  }

  /** What a string argument stands for. */
  ghost predicate Stands(str: Option<seq<Half>>, x: Item) {
    match x
    case Text(units) => str.Some? && |units| < |str.value| && units == str.value[..|units|] && str.value[|units|] == 0
                        && |units| < MAX_BIO_SIZE / 2 && 0 !in units
    case NoText => str.Some? ==> forall k :: 0 <= k < |str.value| && k < MAX_BIO_SIZE / 2 ==> str.value[k] != 0
    case _ => false
  }

  lemma {:induction false} AbsentOrNumber(mem: seq<Half>, offs: seq<nat>, items: seq<Item>, pos: nat, end: nat)
    requires LaidOut(mem, offs, items + [Number(NULL_LENGTH)], pos, end)
    ensures LaidOut(mem, offs, items + [NoText], pos, end)
    decreases |items|
  {
    if items == [] {
      assert (items + [Number(NULL_LENGTH)])[1..] == [] && (items + [NoText])[1..] == [];
    } else {
      assert (items + [Number(NULL_LENGTH)])[1..] == items[1..] + [Number(NULL_LENGTH)];
      assert (items + [NoText])[1..] == items[1..] + [NoText];
      AbsentOrNumber(mem, offs, items[1..], pos + Size(items[0]), end);
    }
  }

  lemma UnitsAt(mem: seq<Half>, offs: seq<nat>, str: seq<Half>, len: nat, pos: nat)
    requires len < |str| && str[len] == 0 && len < MAX_BIO_SIZE / 2 && pos % 4 == 0 && pos !in offs
    requires WordAt(mem, pos, len) && pos / 2 + 2 + len < |mem|
    requires mem[pos / 2 + 2..pos / 2 + 2 + len + 1] == str[..len + 1]
    ensures ItemAt(mem, offs, Text(str[..len]), pos)
  {
    assert mem[pos / 2 + 2..pos / 2 + 2 + len] == mem[pos / 2 + 2..pos / 2 + 2 + len + 1][..len] == str[..len];
    assert mem[pos / 2 + 2 + len] == mem[pos / 2 + 2..pos / 2 + 2 + len + 1][len];
  }

  class Reader {
    const mem: seq<Half>
    const offs: seq<nat>
    var pos: nat
    var avail: nat
    var overflow: bool

    ghost function At(): Cursor
      reads this
    {
      Cursor(pos, avail, overflow)
    }

    /** `bio_init_from_txn`. */
    constructor (mem: seq<Half>, offs: seq<nat>, size: nat)
      ensures this.mem == mem && this.offs == offs && At() == Cursor(0, size, false)
    {
      this.mem, this.offs := mem, offs;
      pos, avail, overflow := 0, size, false;
    }

    method BioGet(size: nat) returns (ptr: Option<nat>)
      modifies this
      ensures (At(), ptr) == Get(old(At()), size)
    {
      var rounded := Round4(size);
      if avail < rounded {
        avail := 0;
        overflow := true;
        return None;
      }
      ptr := Some(pos);
      pos := pos + rounded;
      avail := avail - rounded;
    }

    method GetUint32() returns (n: Word)
      modifies this
      ensures (At(), n) == GetNumber(mem, old(At()))
    {
      var ptr := BioGet(4);
      n := if ptr.Some? then ReadWord(mem, ptr.value) else 0;
    }

    method GetString16() returns (length: Word, place: Option<nat>)
      modifies this
      ensures (At(), length, place) == GetText(mem, old(At()))
    {
      length := GetUint32();
      place := BioGet(Wrap(Wrap(length + 1) * 2));
    }

    /** The search of `_bio_get_obj` for the place it is at. */
    method GetObj() returns (obj: Option<nat>)
      modifies this
      ensures (At(), obj) == GetObject(offs, old(At()))
    {
      var n := 0;
      while n < |offs|
        invariant 0 <= n <= |offs| && pos !in offs[..n] && At() == old(At())
      {
        if offs[n] == pos {
          obj := BioGet(OBJECT_SIZE);
          return;
        }
        n := n + 1;
      }
      avail := 0;
      overflow := true;
      return None;
    }

    method GetRef() returns (ptr: Word)
      modifies this
      ensures (At(), ptr) == GetReference(mem, offs, old(At()))
    {
      var obj := GetObj();
      ptr := if obj.Some? && ReadWord(mem, obj.value) == TYPE_HANDLE then ReadWord(mem, obj.value + 8) else 0;
    }
  }
}
