/** Which pages of the region the buffer list needs, and how the allocator's page arithmetic
    follows it. Page `p` is the bytes from p * PAGE up to (p + 1) * PAGE. */
module Pages {
  import opened Words
  import opened Layout

  predicate Overlaps(lo: nat, hi: nat, p: nat) {
    lo < (p + 1) * PAGE && p * PAGE < hi
  }

  predicate Inside(lo: nat, hi: nat, p: nat) {
    lo <= p * PAGE && (p + 1) * PAGE <= hi
  }

  /** A free block needs its header only; a block in use needs all of itself. */
  function NeededEnd(bs: seq<Block>, region: nat, i: nat): nat
    requires i < |bs|
  {
    if bs[i].Used? then End(bs, region, i) else bs[i].addr + HEADER
  }

  predicate Touches(bs: seq<Block>, region: nat, i: nat, p: nat) {
    i < |bs| && Overlaps(bs[i].addr, NeededEnd(bs, region, i), p)
  }

  ghost predicate Needed(bs: seq<Block>, region: nat, p: nat) {
    exists i: nat :: Touches(bs, region, i, p)
  }

  /** The number of the first page that starts at or behind `x`. */
  function PageFrom(x: nat): nat {
    (x + PAGE - 1) / PAGE
  }

  /** The number of the page that holds `x`. */
  function PageUpTo(x: nat): nat {
    x / PAGE
  }

  lemma InsidePages(lo: nat, hi: nat, p: nat)
    ensures Inside(lo, hi, p) <==> PageFrom(lo) <= p < PageUpTo(hi)
    ensures lo <= p * PAGE <==> PageFrom(lo) <= p
    ensures p * PAGE < hi <==> p < PageFrom(hi)
  {
  }

  /** Where the allocator stops mapping: behind the request, or behind the remainder's header. */
  function MapEnd(bs: seq<Block>, region: nat, i: nat, size: nat): nat
    requires i < |bs|
  {
    bs[i].addr + HEADER + size + (if NoRoom(bs, region, i, size) then 0 else HEADER)
  }

  /** The pages an allocation maps: they start behind the header, before `MapEnd`,
      and end before the next header. */
  predicate Fresh(bs: seq<Block>, region: nat, i: nat, size: nat, p: nat)
    requires i < |bs|
  {
    && bs[i].addr + HEADER <= p * PAGE < MapEnd(bs, region, i, size)
    && (p + 1) * PAGE <= End(bs, region, i)
  }

  lemma FreshNotNeeded(bs: seq<Block>, region: nat, i: nat, size: nat, p: nat)
    requires Tiles(bs, region) && i < |bs| && bs[i].Free?
    requires Fresh(bs, region, i, size, p)
    ensures !Needed(bs, region, p)
  {
    TilesIsOrdered(bs, region);
    forall j: nat ensures !Touches(bs, region, j, p) {
      if i < j < |bs| && i + 1 < j {
        assert bs[i + 1].addr + HEADER <= bs[j].addr;
      }
      if j < i {
        assert End(bs, region, j) <= bs[i].addr by {
          if j + 1 < i { assert bs[j + 1].addr + HEADER <= bs[i].addr; }
        }
      }
    }
  }

  lemma AllocNeeds(bs: seq<Block>, region: nat, i: nat, dataSize: nat, offsetsSize: nat, async: bool, p: nat)
    requires Tiles(bs, region) && region % PAGE == 0 && Fits(bs, region, i, dataSize, offsetsSize)
    ensures var after := AllocAt(bs, region, i, dataSize, offsetsSize, async);
            Needed(after, region, p) <==>
            Needed(bs, region, p) || Fresh(bs, region, i, Align(dataSize) + Align(offsetsSize), p)
  {
    var size := Align(dataSize) + Align(offsetsSize);
    AllocShape(bs, region, i, dataSize, offsetsSize, async);
    GrowNeeds(bs, region, i, size, AllocAt(bs, region, i, dataSize, offsetsSize, async), p);
  }

  lemma GrowNeeds(bs: seq<Block>, region: nat, i: nat, size: nat, after: seq<Block>, p: nat)
    requires Tiles(bs, region) && region % PAGE == 0 && i < |bs| && bs[i].Free?
    requires size <= Payload(bs, region, i)
    requires |after| == if NoRoom(bs, region, i, size) then |bs| else |bs| + 1
    requires after[..i] == bs[..i] && after[i + 1 + |after| - |bs|..] == bs[i + 1..]
    requires after[i].Used? && after[i].addr == bs[i].addr
    requires |after| == |bs| + 1 ==> after[i + 1] == Free(bs[i].addr + HEADER + size)
    ensures Needed(after, region, p) <==> Needed(bs, region, p) || Fresh(bs, region, i, size, p)
  {
    var more := |after| - |bs|;
    forall j | 0 <= j < i ensures Touches(after, region, j, p) == Touches(bs, region, j, p) {
      assert after[j] == after[..i][j] == bs[j];
      assert j + 1 < i ==> after[j + 1] == after[..i][j + 1] == bs[j + 1];
    }
    forall j | i < j < |bs| ensures Touches(after, region, j + more, p) == Touches(bs, region, j, p) {
      SameTail(bs, region, i, after, j);
    }
    if Needed(after, region, p) {
      var j: nat :| Touches(after, region, j, p);
      if j < i {
        assert Touches(bs, region, j, p);
      } else if j > i + more {
        assert Touches(bs, region, j - more, p);
      } else {
        GrowNeedsNoMore(bs, region, i, size, p);
        if i + 1 < |bs| { SameTail(bs, region, i, after, i + 1); }
        assert Overlaps(bs[i].addr, if more == 0 then End(bs, region, i) else bs[i].addr + size + 2 * HEADER, p);
      }
    }
    if Needed(bs, region, p) {
      var j: nat :| Touches(bs, region, j, p);
      if j < i {
        assert Touches(after, region, j, p);
      } else if j > i {
        assert Touches(after, region, j + more, p);
      } else {
        if i + 1 < |bs| { SameTail(bs, region, i, after, i + 1); }
        GrownTouches(bs, region, i, size, after, p);
      }
    }
    if Fresh(bs, region, i, size, p) {
      if i + 1 < |bs| { SameTail(bs, region, i, after, i + 1); }
      GrownTouches(bs, region, i, size, after, p);
    }
  }

  lemma SameTail(bs: seq<Block>, region: nat, i: nat, after: seq<Block>, j: nat)
    requires i < j < |bs| <= |after| && after[i + 1 + |after| - |bs|..] == bs[i + 1..]
    ensures var k := j + |after| - |bs|;
            after[k] == bs[j] && End(after, region, k) == End(bs, region, j)
  {
    var more := |after| - |bs|;
    assert after[j + more] == after[i + 1 + more..][j - i - 1] == bs[i + 1..][j - i - 1];
    if j + 1 < |bs| {
      assert after[j + 1 + more] == after[i + 1 + more..][j - i] == bs[i + 1..][j - i];
    }
  }

  /** The block in use and the remainder's header touch every page they span. */
  lemma GrownTouches(bs: seq<Block>, region: nat, i: nat, size: nat, after: seq<Block>, p: nat)
    requires i < |bs| && size <= Payload(bs, region, i)
    requires |after| == if NoRoom(bs, region, i, size) then |bs| else |bs| + 1
    requires after[i].Used? && after[i].addr == bs[i].addr
    requires |after| == |bs| + 1 ==> after[i + 1] == Free(bs[i].addr + HEADER + size)
    requires |after| == |bs| && i + 1 < |bs| ==> after[i + 1] == bs[i + 1]
    requires Overlaps(bs[i].addr, MapEnd(bs, region, i, size), p)
    ensures Needed(after, region, p)
  {
    if |after| == |bs| || p * PAGE < bs[i].addr + HEADER + size {
      assert Touches(after, region, i, p);
    } else {
      assert Touches(after, region, i + 1, p);
    }
  }

  /** A page under the grown block was needed before or is one of the fresh ones. */
  lemma GrowNeedsNoMore(bs: seq<Block>, region: nat, i: nat, size: nat, p: nat)
    requires Tiles(bs, region) && region % PAGE == 0 && i < |bs| && bs[i].Free?
    requires size <= Payload(bs, region, i)
    ensures Overlaps(bs[i].addr,
                     if NoRoom(bs, region, i, size) then End(bs, region, i) else bs[i].addr + size + 2 * HEADER, p)
            ==> Needed(bs, region, p) || Fresh(bs, region, i, size, p)
  {
    TilesIsOrdered(bs, region);
    if Overlaps(bs[i].addr, bs[i].addr + HEADER, p) {
      assert Touches(bs, region, i, p);
    } else if i + 1 < |bs| && Overlaps(bs[i + 1].addr, bs[i + 1].addr + HEADER, p) {
      assert Touches(bs, region, i + 1, p);
    }
  }

  // ---- freeing ----

  /** The pages that lie wholly inside the payload of block `i` are given back when it is freed. */
  lemma MarkFreeNeeds(bs: seq<Block>, region: nat, i: nat, p: nat)
    requires Tiles(bs, region) && region % PAGE == 0 && i < |bs| && bs[i].Used?
    ensures var given := Inside(bs[i].addr + HEADER, End(bs, region, i), p);
            && (given ==> Needed(bs, region, p))
            && (Needed(MarkFree(bs, i), region, p) <==> Needed(bs, region, p) && !given)
  {
    var after := MarkFree(bs, i);
    var given := Inside(bs[i].addr + HEADER, End(bs, region, i), p);
    forall j: nat | j != i ensures Touches(after, region, j, p) == Touches(bs, region, j, p) {
      assert j < |bs| ==> End(after, region, j) == End(bs, region, j);
    }
    if given {
      assert Touches(bs, region, i, p);
      GivenAlone(bs, region, i, p);
    } else if Needed(bs, region, p) {
      var j: nat :| Touches(bs, region, j, p);
      if j != i {
        assert Touches(after, region, j, p);
      } else {
        KeptTouches(bs, region, i, p);
      }
    }
    if Needed(after, region, p) {
      var j: nat :| Touches(after, region, j, p);
      TilesIsOrdered(bs, region);
      assert Touches(bs, region, j, p);
    }
  }

  lemma GivenAlone(bs: seq<Block>, region: nat, i: nat, p: nat)
    requires Tiles(bs, region) && i < |bs| && Inside(bs[i].addr + HEADER, End(bs, region, i), p)
    ensures !Needed(MarkFree(bs, i), region, p)
  {
    var after := MarkFree(bs, i);
    forall j: nat ensures !Touches(after, region, j, p) {
      if j < i {
        EndsBefore(bs, region, j, i);
      } else if i < j < |bs| {
        EndsBefore(bs, region, i, j);
      }
    }
  }

  lemma KeptTouches(bs: seq<Block>, region: nat, i: nat, p: nat)
    requires Tiles(bs, region) && region % PAGE == 0 && i < |bs| && Touches(bs, region, i, p)
    requires bs[i].Used? && !Inside(bs[i].addr + HEADER, End(bs, region, i), p)
    ensures Needed(MarkFree(bs, i), region, p)
  {
    var after := MarkFree(bs, i);
    TilesIsOrdered(bs, region);
    if Overlaps(bs[i].addr, bs[i].addr + HEADER, p) {
      assert Touches(after, region, i, p);
    } else {
      assert Touches(after, region, i + 1, p);
    }
  }

  lemma EndsBefore(bs: seq<Block>, region: nat, i: nat, j: nat)
    requires Tiles(bs, region) && i < j < |bs|
    ensures End(bs, region, i) <= bs[j].addr && NeededEnd(bs, region, i) <= bs[j].addr
  {
    TilesIsOrdered(bs, region);
    if i + 1 < j {
      assert bs[i + 1].addr + HEADER <= bs[j].addr;
    }
  }

  predicate HeaderTouches(bs: seq<Block>, k: nat, p: nat) {
    k < |bs| && Overlaps(bs[k].addr, bs[k].addr + HEADER, p)
  }

  /** The pages only the header of block `k` needs: not shared with the headers around it. */
  predicate OnlyHeader(bs: seq<Block>, k: nat, p: nat)
    requires 0 < k < |bs|
  {
    HeaderTouches(bs, k, p) && !HeaderTouches(bs, k - 1, p) && !HeaderTouches(bs, k + 1, p)
  }

  lemma DropNeeds(bs: seq<Block>, region: nat, k: nat, p: nat)
    requires Tiles(bs, region) && 0 < k < |bs| && bs[k].Free? && bs[k - 1].Free?
    ensures OnlyHeader(bs, k, p) ==> Needed(bs, region, p)
    ensures Needed(Drop(bs, k), region, p) <==> Needed(bs, region, p) && !OnlyHeader(bs, k, p)
  {
    var after := Drop(bs, k);
    assert forall j: nat :: j < k ==> Touches(after, region, j, p) == Touches(bs, region, j, p);
    assert forall j: nat :: k < j ==> Touches(after, region, j - 1, p) == Touches(bs, region, j, p);
    if HeaderTouches(bs, k, p) {
      assert Touches(bs, region, k, p);
    }
    if Needed(after, region, p) {
      var j: nat :| Touches(after, region, j, p);
      if j < k {
        assert Touches(bs, region, j, p);
        DropShares(bs, region, k, j, p);
      } else {
        assert Touches(bs, region, j + 1, p);
        DropShares(bs, region, k, j + 1, p);
      }
    }
    if Needed(bs, region, p) && !OnlyHeader(bs, k, p) {
      var j: nat :| Touches(bs, region, j, p);
      if j < k {
        assert Touches(after, region, j, p);
      } else if j > k {
        assert Touches(after, region, j - 1, p);
      } else if HeaderTouches(bs, k - 1, p) {
        assert Touches(after, region, k - 1, p);
      } else {
        NextTouches(bs, region, k, p);
        assert Touches(after, region, k, p);
      }
    }
  }

  lemma NextTouches(bs: seq<Block>, region: nat, k: nat, p: nat)
    requires Tiles(bs, region) && 0 < k < |bs| && HeaderTouches(bs, k + 1, p)
    ensures Touches(bs, region, k + 1, p)
  {
    TilesIsOrdered(bs, region);
  }

  /** Another block on a page of header `k` puts a neighbouring header there too. */
  lemma DropShares(bs: seq<Block>, region: nat, k: nat, j: nat, p: nat)
    requires Tiles(bs, region) && 0 < k < |bs| && bs[k - 1].Free? && j != k && Touches(bs, region, j, p)
    ensures !OnlyHeader(bs, k, p)
  {
    TilesIsOrdered(bs, region);
    if HeaderTouches(bs, k, p) {
      if j < k - 1 {
        EndsBefore(bs, region, j, k - 1);
        assert bs[k - 1].addr + HEADER <= bs[k].addr;
        assert HeaderTouches(bs, k - 1, p);
      } else if k + 1 < j {
        assert bs[k].addr + HEADER <= bs[k + 1].addr;
        assert bs[k + 1].addr + HEADER <= bs[j].addr;
        assert HeaderTouches(bs, k + 1, p);
      }
    }
  }

  /** With nothing in use, one free block is left and only page 0 is mapped. */
  lemma NothingUsed(bs: seq<Block>, region: nat, p: nat)
    requires Tiles(bs, region) && Coalesced(bs) && forall i :: 0 <= i < |bs| ==> bs[i].Free?
    ensures bs == [Free(0)]
    ensures Needed(bs, region, p) <==> p == 0
  {
    assert |bs| == 1 by {
      assert |bs| > 1 ==> BothFree(bs, 0);
    }
    assert Touches(bs, region, 0, 0);
  }

  /** Of an empty region only the first page is needed. */
  lemma OnlyFirst(region: nat)
    requires Tiles([Free(0)], region)
    ensures forall p :: Needed([Free(0)], region, p) <==> p == 0
  {
    forall p ensures Needed([Free(0)], region, p) <==> p == 0 {
      NothingUsed([Free(0)], region, p);
    }
  }
}
