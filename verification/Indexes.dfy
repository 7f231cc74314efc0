/** The trees over the free and the allocated buffers: what they hold, in which order, and how an
    allocation and a release change what they must hold. */
module Indexes {
  import opened Words
  import opened Layout
  import opened Trees
  import opened Wrappers

  predicate HasFree(bs: seq<Block>, a: nat) {
    Free(a) in bs
  }

  predicate HasUsed(bs: seq<Block>, a: nat) {
    exists b :: b in bs && b.Used? && b.addr == a
  }

  ghost predicate IndexesFree(o: seq<nat>, bs: seq<Block>) {
    forall a :: multiset(o)[a] == if HasFree(bs, a) then 1 else 0
  }

  ghost predicate IndexesUsed(o: seq<nat>, bs: seq<Block>) {
    forall a :: multiset(o)[a] == if HasUsed(bs, a) then 1 else 0
  }

  function Sizes(bs: seq<Block>, region: nat): nat -> int {
    (a: nat) => SizeOf(bs, region, a)
  }

  lemma AtIndex(bs: seq<Block>, a: nat, k: nat)
    requires Ordered(bs) && k < |bs| && bs[k].addr == a
    ensures Has(bs, a) && Index(bs, a) == k
  {
  }

  /** Two blocks of one list never share an address. */
  lemma SameBlock(bs: seq<Block>, b: Block, c: Block)
    requires Ordered(bs) && b in bs && c in bs && b.addr == c.addr
    ensures b == c
  {
    var j, k :| 0 <= j < |bs| && bs[j] == b && 0 <= k < |bs| && bs[k] == c;
    AtIndex(bs, b.addr, j);
    AtIndex(bs, c.addr, k);
  }

  /** Whether an address is free or used is settled by the one block that has it. */
  lemma OneKind(bs: seq<Block>, x: nat)
    requires Ordered(bs)
    ensures HasFree(bs, x) ==> Has(bs, x) && bs[Index(bs, x)] == Free(x) && !HasUsed(bs, x)
    ensures HasUsed(bs, x) ==> Has(bs, x) && bs[Index(bs, x)].Used?
  {
    if HasFree(bs, x) {
      var k :| 0 <= k < |bs| && bs[k] == Free(x);
      AtIndex(bs, x, k);
      if b :| b in bs && b.Used? && b.addr == x {
        SameBlock(bs, b, Free(x));
      }
    }
    if b :| b in bs && b.Used? && b.addr == x {
      var k :| 0 <= k < |bs| && bs[k] == b;
      AtIndex(bs, x, k);
    }
  }

  /** `a` is a least free block among those of at least `size`. */
  ghost predicate IsBestFit(bs: seq<Block>, region: nat, size: nat, a: nat) {
    && HasFree(bs, a) && size <= SizeOf(bs, region, a)
    && forall b :: HasFree(bs, b) && size <= SizeOf(bs, region, b) ==> SizeOf(bs, region, a) <= SizeOf(bs, region, b)
  }

  lemma IndexedFree(o: seq<nat>, bs: seq<Block>, a: nat)
    requires IndexesFree(o, bs)
    ensures a in o <==> HasFree(bs, a)
  {
    assert a in multiset(o) <==> a in o;
  }

  lemma IndexedUsed(o: seq<nat>, bs: seq<Block>, a: nat)
    requires IndexesUsed(o, bs)
    ensures a in o <==> HasUsed(bs, a)
  {
    assert a in multiset(o) <==> a in o;
  }

  /** What the descent finds is a best fit, and it finds one when there is one. */
  lemma DescentFindsBestFit(t: Tree, bs: seq<Block>, region: nat, size: nat)
    requires IndexesFree(InOrder(t), bs) && Sorted(InOrder(t), Sizes(bs, region))
    ensures var found := Best(t, Sizes(bs, region), size, None);
            if found.Some? then IsBestFit(bs, region, size, found.value)
            else forall a :: HasFree(bs, a) ==> SizeOf(bs, region, a) < size
  {
    BestIsLeast(t, Sizes(bs, region), size, None);
    forall a ensures a in InOrder(t) <==> HasFree(bs, a) {
      IndexedFree(InOrder(t), bs, a);
    }
  }

  // ---- what the list operations change ----

  lemma SortedFrame(o: seq<nat>, bs: seq<Block>, bs': seq<Block>, region: nat)
    requires Sorted(o, Sizes(bs, region))
    requires forall x :: x in o ==> SizeOf(bs', region, x) == SizeOf(bs, region, x)
    ensures Sorted(o, Sizes(bs', region))
  {
    forall x, y | 0 <= x < y < |o| ensures Sizes(bs', region)(o[x]) <= Sizes(bs', region)(o[y]) {
      assert o[x] in o && o[y] in o;
      assert Sizes(bs, region)(o[x]) <= Sizes(bs, region)(o[y]);
    }
  }

  /** A block that sits in both lists, before the same next header, has the same size. */
  lemma SameSize(bs: seq<Block>, bs': seq<Block>, region: nat, k: nat, k': nat)
    requires Ordered(bs) && Ordered(bs') && k < |bs| && k' < |bs'|
    requires bs[k].addr == bs'[k'].addr && End(bs, region, k) == End(bs', region, k')
    ensures SizeOf(bs, region, bs[k].addr) == SizeOf(bs', region, bs[k].addr)
  {
    AtIndex(bs, bs[k].addr, k);
    AtIndex(bs', bs[k].addr, k');
  }

  /** `after` is `bs` with free block `i` in use, possibly followed by one new free block. */
  ghost predicate Grown(bs: seq<Block>, i: nat, after: seq<Block>) {
    && i < |bs| <= |after| <= |bs| + 1
    && after[..i] == bs[..i] && after[i + 1 + |after| - |bs|..] == bs[i + 1..]
    && bs[i].Free? && after[i].Used? && after[i].addr == bs[i].addr
    && (|after| > |bs| ==> after[i + 1].Free?)
  }

  lemma AllocGrows(bs: seq<Block>, region: nat, i: nat, dataSize: nat, offsetsSize: nat, async: bool)
    requires Fits(bs, region, i, dataSize, offsetsSize)
    ensures Grown(bs, i, AllocAt(bs, region, i, dataSize, offsetsSize, async))
  {
    AllocShape(bs, region, i, dataSize, offsetsSize, async);
  }

  /** An allocation moves block `i` from the free to the used ones and may add one free block. */
  lemma GrowIndexes(bs: seq<Block>, i: nat, after: seq<Block>, x: nat)
    requires Ordered(bs) && Ordered(after) && Grown(bs, i, after)
    ensures HasFree(after, x) <==> (HasFree(bs, x) && x != bs[i].addr) || (|after| > |bs| && x == after[i + 1].addr)
    ensures HasUsed(after, x) <==> HasUsed(bs, x) || x == bs[i].addr
    ensures |after| > |bs| ==> !HasFree(bs, after[i + 1].addr)
  {
    var m := after[i..i + 1 + |after| - |bs|];
    assert bs == bs[..i] + [bs[i]] + bs[i + 1..];
    assert after == bs[..i] + m + bs[i + 1..];
    ReplacedIndexes(bs[..i], bs[i], m, bs[i + 1..], x);
  }

  lemma ReplacedIndexes(a: seq<Block>, b: Block, m: seq<Block>, c: seq<Block>, x: nat)
    requires Ordered(a + [b] + c) && Ordered(a + m + c)
    requires 1 <= |m| <= 2 && b.Free? && m[0].Used? && m[0].addr == b.addr && (|m| == 2 ==> m[1].Free?)
    ensures HasFree(a + m + c, x) <==> (HasFree(a + [b] + c, x) && x != b.addr) || (|m| == 2 && x == m[1].addr)
    ensures HasUsed(a + m + c, x) <==> HasUsed(a + [b] + c, x) || x == b.addr
    ensures |m| == 2 ==> !HasFree(a + [b] + c, m[1].addr)
  {
    Swapped(a, [b], m, c);
    OneInEach(a, m, c, b.addr, 0);
    if |m| == 2 {
      OneInEach(a, m, c, m[1].addr, 1);
      assert Ordered(m) by { assert forall k :: 0 <= k < |m| ==> (a + m + c)[|a| + k] == m[k]; }
    }
    assert forall u :: u in m ==> u == m[0] || (|m| == 2 && u == m[1]);
    assert m[0] in m && (|m| == 2 ==> m[1] in m);
  }

  /** Replacing a middle part changes membership by that part only. */
  lemma Swapped(a: seq<Block>, m: seq<Block>, m': seq<Block>, c: seq<Block>)
    ensures forall b :: b in a + m' + c <==> b in m' || b in a || b in c
    ensures forall b :: b in a + m + c <==> b in m || b in a || b in c
  {
  }

  /** The address of a block in the middle part occurs in no other part. */
  lemma OneInEach(a: seq<Block>, m: seq<Block>, c: seq<Block>, x: nat, j: nat)
    requires Ordered(a + m + c) && j < |m| && m[j].addr == x
    ensures forall b :: b in a || b in c ==> b.addr != x
  {
    var whole := a + m + c;
    assert whole[|a| + j] == m[j];
    forall b | b in a || b in c ensures b.addr != x {
      if b in a {
        var k :| 0 <= k < |a| && a[k] == b;
        assert whole[k].addr + HEADER <= whole[|a| + j].addr;
      } else {
        var k :| 0 <= k < |c| && c[k] == b;
        assert whole[|a| + |m| + k] == b;
        assert whole[|a| + j].addr + HEADER <= whole[|a| + |m| + k].addr;
      }
    }
  }

  lemma GrowSizes(bs: seq<Block>, region: nat, i: nat, after: seq<Block>, x: nat)
    requires Ordered(bs) && Ordered(after) && Grown(bs, i, after) && HasFree(bs, x) && x != bs[i].addr
    ensures SizeOf(after, region, x) == SizeOf(bs, region, x)
  {
    OneKind(bs, x);
    var k := Index(bs, x);
    var k' := if k < i then k else k + |after| - |bs|;
    Moved(bs, i, after, k);
    if k + 1 < |bs| && k + 1 != i {
      Moved(bs, i, after, k + 1);
    }
    SameSize(bs, after, region, k, k');
  }

  /** Where block `k` of `bs` sits in `after`, which differs at position `i` only. */
  lemma Moved(bs: seq<Block>, i: nat, after: seq<Block>, k: nat)
    requires i < |bs| <= |after| && k < |bs| && k != i
    requires after[..i] == bs[..i] && after[i + 1 + |after| - |bs|..] == bs[i + 1..]
    ensures after[if k < i then k else k + |after| - |bs|] == bs[k]
  {
    if k < i {
      assert after[..i][k] == bs[..i][k];
    } else {
      assert after[i + 1 + |after| - |bs|..][k - i - 1] == bs[i + 1..][k - i - 1];
    }
  }

  /** Marking a block free moves its address from one index to the other. */
  lemma MarkIndexes(bs: seq<Block>, i: nat, x: nat)
    requires Ordered(bs) && i < |bs| && bs[i].Used?
    ensures HasFree(MarkFree(bs, i), x) <==> HasFree(bs, x) || x == bs[i].addr
    ensures HasUsed(MarkFree(bs, i), x) <==> HasUsed(bs, x) && x != bs[i].addr
  {
    var a, m, c := bs[..i], [Free(bs[i].addr)], bs[i + 1..];
    assert bs == a + [bs[i]] + c && MarkFree(bs, i) == a + m + c;
    Swapped(a, [bs[i]], m, c);
    OneInEach(a, [bs[i]], c, bs[i].addr, 0);
    assert bs[i] in bs;
  }

  lemma MarkSizes(bs: seq<Block>, region: nat, i: nat, x: nat)
    requires i < |bs| && Ordered(bs) && Ordered(MarkFree(bs, i)) && HasFree(bs, x)
    ensures SizeOf(MarkFree(bs, i), region, x) == SizeOf(bs, region, x)
  {
    OneKind(bs, x);
    SameSize(bs, MarkFree(bs, i), region, Index(bs, x), Index(bs, x));
  }

  /** Dropping a free header takes it out of the free ones. */
  lemma DropIndexes(bs: seq<Block>, k: nat, x: nat)
    requires Ordered(bs) && k < |bs| && bs[k].Free?
    ensures HasFree(Drop(bs, k), x) <==> HasFree(bs, x) && x != bs[k].addr
    ensures HasUsed(Drop(bs, k), x) <==> HasUsed(bs, x)
  {
    var a, c := bs[..k], bs[k + 1..];
    assert bs == a + [bs[k]] + c && Drop(bs, k) == a + [] + c;
    Swapped(a, [bs[k]], [], c);
    OneInEach(a, [bs[k]], c, bs[k].addr, 0);
    assert Drop(bs, k) == a + c;
  }

  /** Only the block before a dropped header grows. */
  lemma DropSizes(bs: seq<Block>, region: nat, k: nat, x: nat)
    requires 0 < k < |bs| && Ordered(bs) && Ordered(Drop(bs, k))
    requires HasFree(bs, x) && x != bs[k].addr && x != bs[k - 1].addr
    ensures SizeOf(Drop(bs, k), region, x) == SizeOf(bs, region, x)
  {
    OneKind(bs, x);
    var j := Index(bs, x);
    SameSize(bs, Drop(bs, k), region, j, if j < k then j else j - 1);
  }

  // ---- the indexes while a block is being freed ----

  /** `o` holds every free block but the one at `a`. */
  ghost predicate IndexesFreeBut(o: seq<nat>, bs: seq<Block>, a: nat) {
    forall x :: multiset(o)[x] == if HasFree(bs, x) && x != a then 1 else 0
  }

  lemma MissingInserted(o: seq<nat>, bs: seq<Block>, a: nat)
    requires IndexesFreeBut(o, bs, a) && HasFree(bs, a)
    ensures forall x :: x in o ==> HasFree(bs, x)
    ensures forall o': seq<nat> :: multiset(o') == multiset(o) + multiset{a} ==> IndexesFree(o', bs)
  {
    forall x | x in o ensures HasFree(bs, x) {
      assert x in multiset(o);
    }
  }

  lemma MarkKeepsIndexes(free: seq<nat>, used: seq<nat>, bs: seq<Block>, region: nat, i: nat)
    requires Tiles(bs, region) && i < |bs| && bs[i].Used?
    requires IndexesFree(free, bs) && Sorted(free, Sizes(bs, region))
    requires IndexesUsed(used, bs) && Sorted(used, Self())
    ensures var after := MarkFree(bs, i);
            && IndexesFreeBut(free, after, bs[i].addr) && Sorted(free, Sizes(after, region))
            && IndexesUsed(Without(used, bs[i].addr), after) && Sorted(Without(used, bs[i].addr), Self())
  {
    var after, a := MarkFree(bs, i), bs[i].addr;
    MarkFreeTiles(bs, region, i);
    TilesIsOrdered(bs, region);
    TilesIsOrdered(after, region);
    WithoutCounts(used, a);
    WithoutSorted(used, a, Self());
    assert bs[i] in bs;
    OneKind(bs, a);
    forall x ensures HasFree(after, x) <==> HasFree(bs, x) || x == a
             ensures HasUsed(after, x) <==> HasUsed(bs, x) && x != a
    {
      MarkIndexes(bs, i, x);
    }
    forall x | x in free ensures SizeOf(after, region, x) == SizeOf(bs, region, x) {
      IndexedFree(free, bs, x);
      MarkSizes(bs, region, i, x);
    }
    SortedFrame(free, bs, after, region);
  }

  /** Block `k` is dropped; it and its predecessor are the ones missing from the tree and taken out of it. */
  lemma DropKeepsIndexes(free: seq<nat>, used: seq<nat>, bs: seq<Block>, region: nat, k: nat, missing: nat, out: nat)
    requires Tiles(bs, region) && 0 < k < |bs| && BothFree(bs, k - 1)
    requires (missing == bs[k - 1].addr && out == bs[k].addr) || (missing == bs[k].addr && out == bs[k - 1].addr)
    requires IndexesFreeBut(free, bs, missing) && Sorted(free, Sizes(bs, region)) && IndexesUsed(used, bs)
    ensures var after := Drop(bs, k);
            && IndexesFreeBut(Without(free, out), after, bs[k - 1].addr)
            && Sorted(Without(free, out), Sizes(after, region))
            && IndexesUsed(used, after)
  {
    var after := Drop(bs, k);
    DropTiles(bs, region, k);
    TilesIsOrdered(bs, region);
    TilesIsOrdered(after, region);
    WithoutCounts(free, out);
    WithoutSorted(free, out, Sizes(bs, region));
    forall x ensures HasFree(after, x) <==> HasFree(bs, x) && x != bs[k].addr
             ensures HasUsed(after, x) <==> HasUsed(bs, x)
    {
      DropIndexes(bs, k, x);
    }
    assert bs[k - 1] in bs && bs[k] in bs && bs[k - 1].addr != bs[k].addr;
    var rest := Without(free, out);
    forall x | x in rest ensures SizeOf(after, region, x) == SizeOf(bs, region, x) {
      assert x in multiset(rest);
      DropSizes(bs, region, k, x);
    }
    SortedFrame(rest, bs, after, region);
  }

  /** After block `k` is taken: the free tree lacks the new free block, if there is one. */
  lemma GrowKeepsFree(free: seq<nat>, bs: seq<Block>, region: nat, k: nat, after: seq<Block>)
    requires Ordered(bs) && Ordered(after) && Grown(bs, k, after)
    requires IndexesFree(free, bs) && Sorted(free, Sizes(bs, region))
    ensures Sorted(Without(free, bs[k].addr), Sizes(after, region))
    ensures if |after| > |bs| then IndexesFreeBut(Without(free, bs[k].addr), after, after[k + 1].addr)
            else IndexesFree(Without(free, bs[k].addr), after)
  {
    var a := bs[k].addr;
    assert bs[k] == Free(a) && bs[k] in bs;
    forall x
      ensures HasFree(after, x) <==> (HasFree(bs, x) && x != a) || (|after| > |bs| && x == after[k + 1].addr)
      ensures |after| > |bs| ==> !HasFree(bs, after[k + 1].addr)
    {
      GrowIndexes(bs, k, after, x);
    }
    WithoutCounts(free, a);
    WithoutSorted(free, a, Sizes(bs, region));
    var rest := Without(free, a);
    forall x | x in rest ensures SizeOf(after, region, x) == SizeOf(bs, region, x) {
      assert x in multiset(rest);
      GrowSizes(bs, region, k, after, x);
    }
    SortedFrame(rest, bs, after, region);
  }

  lemma GrowKeepsUsed(used: seq<nat>, bs: seq<Block>, k: nat, after: seq<Block>)
    requires Ordered(bs) && Ordered(after) && Grown(bs, k, after) && IndexesUsed(used, bs)
    ensures HasUsed(after, bs[k].addr) && bs[k].addr !in used
    ensures forall x :: x in used ==> HasUsed(after, x)
    ensures forall used': seq<nat> :: multiset(used') == multiset(used) + multiset{bs[k].addr} ==> IndexesUsed(used', after)
  {
    var a := bs[k].addr;
    assert bs[k] == Free(a) && bs[k] in bs;
    OneKind(bs, a);
    forall x ensures HasUsed(after, x) <==> HasUsed(bs, x) || x == a {
      GrowIndexes(bs, k, after, x);
    }
    forall x | x in used ensures HasUsed(after, x) {
      IndexedUsed(used, bs, x);
    }
    IndexedUsed(used, bs, a);
  }
}
