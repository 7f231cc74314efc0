/** The buffer allocator of one process: a best-fit allocator over a mapped region whose
    pages are populated on demand. */
module Arena {
  import opened Words
  import opened Layout
  import opened Pages
  import opened Trees
  import opened Indexes
  import opened Wrappers

  const SZ_4M: nat := 0x40_0000

  datatype Stage = AllocPage | MapKernel | InsertUser

  /** Where populating pages goes wrong: no address space to map into, or one page at one stage. */
  datatype Fault = NoFault | NoMm | FaultAt(page: nat, stage: Stage)

  /** Does populating the pages from `first` up to `limit` go wrong? */
  predicate FaultHits(fault: Fault, first: nat, limit: nat) {
    first < limit && (fault.NoMm? || (fault.FaultAt? && first <= fault.page < limit))
  }

  /** No region is larger than 4M. */
  function Capped(vmaSize: nat): nat {
    if vmaSize > SZ_4M then SZ_4M else vmaSize
  }

  function PageCount(size: nat): nat {
    size / PAGE
  }

  function HalfOf(size: nat): nat {
    size / 2
  }

  class Arena {
    const region: nat
    const pages: array<bool>
    var vma: bool
    var blocks: seq<Block>
    var freeBuffers: Tree
    var allocatedBuffers: Tree
    var freeAsync: nat

    ghost predicate Tiled()
      reads `blocks
    {
      && region % PAGE == 0 && PAGE <= region <= SZ_4M && pages.Length * PAGE == region
      && Tiles(blocks, region)
    }

    /** A page is mapped exactly when the buffer list needs it. */
    ghost predicate PagesExact()
      reads `blocks, pages
    {
      forall p :: 0 <= p < pages.Length ==> (pages[p] <==> Needed(blocks, region, p))
    }

    ghost predicate FreeIndexed()
      reads `blocks, `freeBuffers
    {
      IndexesFree(InOrder(freeBuffers), blocks) && Sorted(InOrder(freeBuffers), Sizes(blocks, region))
    }

    ghost predicate UsedIndexed()
      reads `blocks, `allocatedBuffers
    {
      IndexesUsed(InOrder(allocatedBuffers), blocks) && Sorted(InOrder(allocatedBuffers), Self())
    }

    ghost predicate Valid()
      reads this, pages
    {
      && Tiled() && Coalesced(blocks) && PagesExact() && FreeIndexed() && UsedIndexed()
      && freeAsync + Charges(blocks) == region / 2
    }

    /** The freeing loop of `binder_update_page_range`, from page `last` down to page `first`. */
    method FreePages(first: nat, last: int)
      requires first - 1 <= last < pages.Length
      requires forall p :: first <= p <= last ==> pages[p]
      modifies pages
      ensures forall p :: 0 <= p < pages.Length ==> pages[p] == (!(first <= p <= last) && old(pages[p]))
    {
      var page := last;
      while page >= first
        invariant first - 1 <= page <= last
        invariant forall p :: 0 <= p < pages.Length ==> pages[p] == (!(page < p <= last) && old(pages[p]))
      {
        assert pages[page];
        pages[page] := false;
        page := page - 1;
      }
    }

    /** The populating loop of `binder_update_page_range`; a failure enters the freeing loop
        in its middle, at the stage that failed. */
    method AllocPages(first: nat, limit: nat, fault: Fault) returns (ok: bool)
      requires first <= limit <= pages.Length && !fault.NoMm?
      requires forall p :: first <= p < limit ==> !pages[p]
      modifies pages
      ensures ok <==> !(fault.FaultAt? && first <= fault.page < limit)
      ensures forall p :: 0 <= p < pages.Length ==> pages[p] == ((first <= p < limit && ok) || old(pages[p]))
    {
      var page := first;
      while page < limit && !(fault.FaultAt? && fault.page == page)
        invariant first <= page <= limit
        invariant fault.FaultAt? && first <= fault.page ==> page <= fault.page
        invariant forall p :: 0 <= p < pages.Length ==> pages[p] == (first <= p < page || old(pages[p]))
      {
        assert !pages[page];
        pages[page] := true;
        page := page + 1;
      }
      if page == limit {
        return true;
      }
      if !fault.stage.AllocPage? {
        pages[page] := true;
        pages[page] := false;
      }
      FreePages(first, page - 1);
      return false;
    }

    /** `binder_update_page_range` on a page-aligned range. */
    method UpdatePageRange(allocate: bool, start: nat, end: nat, fault: Fault) returns (ok: bool)
      requires start % PAGE == 0 && end % PAGE == 0 && end <= pages.Length * PAGE
      requires forall p :: 0 <= p < pages.Length && start <= p * PAGE < end ==> pages[p] == !allocate
      modifies pages
      ensures allocate ==> (ok <==> !FaultHits(fault, start / PAGE, end / PAGE))
      ensures forall p :: 0 <= p < pages.Length ==>
                pages[p] == if start <= p * PAGE < end && (allocate ==> ok) then allocate else old(pages[p])
    {
      if end <= start {
        return true;
      }
      if allocate {
        if fault.NoMm? {
          return false;
        }
        ok := AllocPages(start / PAGE, end / PAGE, fault);
      } else {
        FreePages(start / PAGE, end / PAGE - 1);
        ok := false;
      }
    }

    // ---- tree operations ----

    /** `binder_insert_free_buffer`: behind every buffer that is not larger. */
    method InsertFreeBuffer(a: nat)
      requires HasFree(blocks, a)
      requires forall x :: x in InOrder(freeBuffers) ==> HasFree(blocks, x)
      requires Sorted(InOrder(freeBuffers), Sizes(blocks, region))
      modifies this`freeBuffers
      ensures multiset(InOrder(freeBuffers)) == multiset(InOrder(old(freeBuffers))) + multiset{a}
      ensures Sorted(InOrder(freeBuffers), Sizes(blocks, region))
    {
      ghost var w := Sizes(blocks, region);
      var newSize := SizeOf(blocks, region, a);
      var n, lo := freeBuffers, 0;
      while n.Node?
        invariant lo + Locate(n, w, newSize) == Locate(freeBuffers, w, newSize)
        invariant forall x :: x in InOrder(n) ==> HasFree(blocks, x)
        decreases n
      {
        assert n.key in InOrder(n);
        assert HasFree(blocks, n.key);
        if newSize < SizeOf(blocks, region, n.key) {
          n := n.left;
        } else {
          lo := lo + |InOrder(n.left)| + 1;
          n := n.right;
        }
      }
      freeBuffers := Link(freeBuffers, lo, a, w);
    }

    /** `binder_insert_allocated_buffer`. */
    method InsertAllocatedBuffer(a: nat)
      requires a !in InOrder(allocatedBuffers) && HasUsed(blocks, a)
      requires forall x :: x in InOrder(allocatedBuffers) ==> HasUsed(blocks, x)
      requires Sorted(InOrder(allocatedBuffers), Self())
      modifies this`allocatedBuffers
      ensures multiset(InOrder(allocatedBuffers)) == multiset(InOrder(old(allocatedBuffers))) + multiset{a}
      ensures Sorted(InOrder(allocatedBuffers), Self())
    {
      var n, lo := allocatedBuffers, 0;
      while n.Node?
        invariant lo + Locate(n, Self(), a) == Locate(allocatedBuffers, Self(), a)
        invariant forall x :: x in InOrder(n) ==> x in InOrder(allocatedBuffers)
        decreases n
      {
        assert n.key in InOrder(n);
        assert HasUsed(blocks, n.key);
        if a < n.key {
          n := n.left;
        } else if a > n.key {
          lo := lo + |InOrder(n.left)| + 1;
          n := n.right;
        } else {
          assert false;
        }
      }
      allocatedBuffers := Link(allocatedBuffers, lo, a, Self());
    }

    /** `binder_buffer_lookup`: the block in use whose payload starts at a user address. */
    method Lookup(userPtr: int, userOffset: int) returns (found: Option<nat>)
      requires UsedIndexed()
      ensures found.Some? ==> HasUsed(blocks, found.value) && found.value + HEADER + userOffset == userPtr
      ensures found.None? ==> forall a: nat :: HasUsed(blocks, a) ==> a + HEADER + userOffset != userPtr
    {
      var a := userPtr - userOffset - HEADER;
      var n := allocatedBuffers;
      FindExact(n, a);
      forall b: nat ensures b in InOrder(allocatedBuffers) <==> HasUsed(blocks, b) {
        IndexedUsed(InOrder(allocatedBuffers), blocks, b);
      }
      while n.Node?
        invariant Find(n, a) == Find(allocatedBuffers, a)
        invariant forall x :: x in InOrder(n) ==> HasUsed(blocks, x)
        decreases n
      {
        assert n.key in InOrder(n);
        assert HasUsed(blocks, n.key);
        if a < n.key {
          n := n.left;
        } else if a > n.key {
          n := n.right;
        } else {
          return Some(n.key);
        }
      }
      return None;
    }

    /** The search loop of `binder_alloc_buf`: a least free block among those large enough. */
    method BestFit(size: nat) returns (best: Option<nat>, exact: bool)
      requires FreeIndexed()
      ensures best.None? ==> forall a :: HasFree(blocks, a) ==> SizeOf(blocks, region, a) < size
      ensures best.Some? ==> IsBestFit(blocks, region, size, best.value)
      ensures best == Pick(freeBuffers, blocks, region, size)
      ensures exact <==> best.Some? && SizeOf(blocks, region, best.value) == size
    {
      ghost var w := Sizes(blocks, region);
      DescentFindsBestFit(freeBuffers, blocks, region, size);
      forall x ensures x in InOrder(freeBuffers) <==> HasFree(blocks, x) {
        IndexedFree(InOrder(freeBuffers), blocks, x);
      }
      var n := freeBuffers;
      best := None;
      while n.Node?
        invariant Best(n, w, size, best) == Best(freeBuffers, w, size, None)
        invariant best.Some? ==> size < SizeOf(blocks, region, best.value)
        invariant forall x :: x in InOrder(n) ==> HasFree(blocks, x)
        decreases n
      {
        assert n.key in InOrder(n);
        assert HasFree(blocks, n.key);
        var bufferSize := SizeOf(blocks, region, n.key);
        if size < bufferSize {
          best := Some(n.key);
          n := n.left;
        } else if size > bufferSize {
          n := n.right;
        } else {
          return Some(n.key), true;
        }
      }
      exact := false;
    }

    // ---- mapping and allocating ----

    /** `binder_mmap`, if there is a page for the first header: the region is capped at 4M. */
    constructor (vmaSize: nat)
      requires vmaSize % PAGE == 0 && PAGE <= vmaSize
      ensures Valid() && vma
      ensures region == Capped(vmaSize) && blocks == [Free(0)]
      ensures fresh(pages)
    {
      hide *;
      region := Capped(vmaSize);
      pages := new bool[PageCount(Capped(vmaSize))](_ => false);
      vma := true;
      blocks := [Free(0)];
      freeBuffers, allocatedBuffers := Leaf, Leaf;
      freeAsync := HalfOf(Capped(vmaSize));
      new;
      Populate(vmaSize);
    }

    /** The rest of `binder_mmap`, once the fields are set. */
    method Populate(vmaSize: nat)
      requires vmaSize % PAGE == 0 && PAGE <= vmaSize && region == Capped(vmaSize)
      requires pages.Length == PageCount(region) && forall p :: 0 <= p < pages.Length ==> !pages[p]
      requires blocks == [Free(0)] && freeBuffers == Leaf && allocatedBuffers == Leaf && freeAsync == HalfOf(region)
      modifies pages, `freeBuffers
      ensures Valid()
    {
      hide Tiles, Coalesced, Needed, IndexesFree, IndexesUsed, Sorted, Charges, InOrder, Capped, PageCount, HalfOf;
      Beginning(vmaSize);
      MapFirst();
      IndexFirst();
    }

    /** The page of the first header is populated. */
    method MapFirst()
      requires Tiled() && blocks == [Free(0)] && forall p :: 0 <= p < pages.Length ==> !pages[p]
      modifies pages
      ensures PagesExact()
    {
      hide Needed, Tiles;
      var ok := UpdatePageRange(true, 0, PAGE, NoFault);
      OnlyFirst(region);
    }

    /** The first buffer is the only one, and free. */
    method IndexFirst()
      requires blocks == [Free(0)] && freeBuffers == Leaf
      modifies `freeBuffers
      ensures FreeIndexed()
    {
      hide SizeOf;
      InsertFreeBuffer(0);
      assert multiset(InOrder(freeBuffers)) == multiset{0};
    }

    /** `binder_vma_close`: nothing more can be allocated; what is allocated can still be freed. */
    method CloseVma()
      requires Valid()
      modifies `vma
      ensures Valid() && !vma
    {
      vma := false;
    }

    /** The first page behind what `binder_alloc_buf` maps for a request of `size` in block `k`. */
    method EndPage(k: nat, size: nat, exact: bool) returns (endPage: nat)
      requires k < |blocks| && size <= Payload(blocks, region, k)
      requires exact <==> size == Payload(blocks, region, k)
      ensures endPage == MapTo(blocks, region, k, size)
    {
      var data := blocks[k].addr + HEADER;
      var bufferSize := Payload(blocks, region, k);
      var hasPage := PageUpTo(data + bufferSize);
      if !exact {
        if size + HEADER + 4 >= bufferSize {
          bufferSize := size;
        } else {
          bufferSize := size + HEADER;
        }
      }
      endPage := PageFrom(data + bufferSize);
      if endPage > hasPage {
        endPage := hasPage;
      }
    }

    /** Populates the pages a request of `size` needs in block `k`. */
    method MapPayload(k: nat, size: nat, exact: bool, fault: Fault) returns (ok: bool)
      requires Tiled() && PagesExact() && k < |blocks| && blocks[k].Free?
      requires size <= Payload(blocks, region, k) && (exact <==> size == Payload(blocks, region, k))
      modifies pages
      ensures ok <==> !FaultHits(fault, MapFrom(blocks, k), MapTo(blocks, region, k, size))
      ensures forall p :: 0 <= p < pages.Length ==>
                (pages[p] <==> Needed(blocks, region, p) || (ok && Fresh(blocks, region, k, size, p)))
    {
      var first := PageFrom(blocks[k].addr + HEADER);
      var endPage := EndPage(k, size, exact);
      assert endPage <= pages.Length by {
        TilesIsOrdered(blocks, region);
      }
      forall p: nat
        ensures first <= p < endPage <==> Fresh(blocks, region, k, size, p)
        ensures first <= p < endPage ==> !Needed(blocks, region, p)
      {
        FreshRange(blocks, region, k, size, p);
        if Fresh(blocks, region, k, size, p) {
          FreshNotNeeded(blocks, region, k, size, p);
        }
      }
      ok := PopulatePages(first, endPage, fault);
    }

    /** `binder_update_page_range` populating the pages from `first` up to `limit`. */
    method PopulatePages(first: nat, limit: nat, fault: Fault) returns (ok: bool)
      requires limit <= pages.Length
      requires forall p :: first <= p < limit ==> !pages[p]
      modifies pages
      ensures ok <==> !FaultHits(fault, first, limit)
      ensures forall p :: 0 <= p < pages.Length ==> pages[p] == ((first <= p < limit && ok) || old(pages[p]))
    {
      ok := UpdatePageRange(true, first * PAGE, limit * PAGE, fault);
    }

    /** Takes block `k` for a request whose pages are mapped. */
    method TakeBlock(k: nat, dataSize: nat, offsetsSize: nat, async: bool)
      requires Tiled() && FreeIndexed() && UsedIndexed()
      requires Fits(blocks, region, k, dataSize, offsetsSize)
      modifies this`blocks, this`freeBuffers, this`allocatedBuffers
      ensures blocks == AllocAt(old(blocks), region, k, dataSize, offsetsSize, async)
      ensures Tiled() && FreeIndexed() && UsedIndexed()
    {
      var a := blocks[k].addr;
      var split := !NoRoom(blocks, region, k, Align(dataSize) + Align(offsetsSize));
      ghost var was := blocks;
      AllocTiles(was, region, k, dataSize, offsetsSize, async);
      AllocGrows(was, region, k, dataSize, offsetsSize, async);
      AllocShape(was, region, k, dataSize, offsetsSize, async);
      blocks := AllocAt(blocks, region, k, dataSize, offsetsSize, async);
      assert Ordered(was) && Ordered(blocks) by {
        TilesIsOrdered(was, region);
        TilesIsOrdered(blocks, region);
      }
      GrowKeepsFree(InOrder(freeBuffers), was, region, k, blocks);
      GrowKeepsUsed(InOrder(allocatedBuffers), was, k, blocks);
      freeBuffers := Erase(freeBuffers, a);
      InsertAllocatedBuffer(a);
      if split {
        Reinsert(k + 1);
      }
    }

    /** The second half of `binder_alloc_buf`: maps and takes the block that was found. */
    method AllocFound(k: nat, exact: bool, dataSize: nat, offsetsSize: nat, async: bool, fault: Fault)
      returns (ok: bool)
      requires Tiled() && PagesExact() && FreeIndexed() && UsedIndexed()
      requires Fits(blocks, region, k, dataSize, offsetsSize)
      requires exact <==> Align(dataSize) + Align(offsetsSize) == Payload(blocks, region, k)
      modifies this`blocks, this`freeBuffers, this`allocatedBuffers, pages
      ensures ok <==> !FaultHits(fault, MapFrom(old(blocks), k),
                                 MapTo(old(blocks), region, k, Align(dataSize) + Align(offsetsSize)))
      ensures Tiled() && PagesExact() && FreeIndexed() && UsedIndexed()
      ensures ok ==> blocks == AllocAt(old(blocks), region, k, dataSize, offsetsSize, async)
      ensures !ok ==> blocks == old(blocks) && freeBuffers == old(freeBuffers) &&
                      allocatedBuffers == old(allocatedBuffers)
    {
      var size := Align(dataSize) + Align(offsetsSize);
      forall p: nat
        ensures Needed(AllocAt(blocks, region, k, dataSize, offsetsSize, async), region, p) <==>
                Needed(blocks, region, p) || Fresh(blocks, region, k, size, p)
      {
        AllocNeeds(blocks, region, k, dataSize, offsetsSize, async, p);
      }
      ok := MapPayload(k, size, exact, fault);
      if ok {
        TakeBlock(k, dataSize, offsetsSize, async);
      }
    }

    /** The first half of `binder_alloc_buf`: the tests on the request and the search. */
    method FindBlock(dataSize: Word, offsetsSize: Word, async: bool) returns (best: Option<nat>, exact: bool)
      requires Tiled() && FreeIndexed()
      ensures best == if Refused(vma, freeAsync, dataSize, offsetsSize, async) then None
                      else Pick(freeBuffers, blocks, region, Align(dataSize) + Align(offsetsSize))
      ensures best.Some? ==>
                && IsBestFit(blocks, region, Align(dataSize) + Align(offsetsSize), best.value)
                && (exact <==> SizeOf(blocks, region, best.value) == Align(dataSize) + Align(offsetsSize))
    {
      hide Wrap, RequestSize, AlignWord, Align, Sorted, IndexesFree, Tiles, Best, IsBestFit;
      if !vma {
        return None, false;
      }
      var size := RequestSize(dataSize, offsetsSize);
      SizeGuardExact(dataSize, offsetsSize);
      WrapOnce(size + HEADER);
      if size < dataSize || size < offsetsSize {
        return None, false;
      }
      if async && freeAsync < Wrap(size + HEADER) {
        return None, false;
      }
      best, exact := BestFit(size);
      if best.Some? {
        FitBounded(blocks, region, size, best.value);
      }
    }

    /** `binder_alloc_buf`. A failed allocation changes nothing; a successful one takes a best fit. */
    method AllocBuf(dataSize: Word, offsetsSize: Word, async: bool, fault: Fault) returns (r: Option<nat>)
      requires Valid()
      modifies this`blocks, this`freeBuffers, this`allocatedBuffers, this`freeAsync, pages
      ensures Valid()
      ensures r.None? <==>
                || old(Refused(vma, freeAsync, dataSize, offsetsSize, async))
                || old(Pick(freeBuffers, blocks, region, Align(dataSize) + Align(offsetsSize))).None?
                || PickFaults(old(freeBuffers), old(blocks), region, Align(dataSize) + Align(offsetsSize), fault)
      ensures fault == NoFault ==> (r.Some? <==> old(Room(vma, freeAsync, blocks, region, dataSize, offsetsSize, async)))
      ensures r.None? ==>
                && blocks == old(blocks) && freeAsync == old(freeAsync)
                && freeBuffers == old(freeBuffers) && allocatedBuffers == old(allocatedBuffers)
      ensures r.Some? ==>
                && IsBestFit(old(blocks), region, Align(dataSize) + Align(offsetsSize), r.value)
                && AllocatedAt(old(blocks), region, r.value, dataSize, offsetsSize, async, blocks)
    {
      hide Room, Refused, Pick, Tiles, Coalesced, IndexesFree, IndexesUsed, IsBestFit, AllocatedAt, Align, Charges, Needed;
      RoomIs(vma, freeAsync, freeBuffers, blocks, region, dataSize, offsetsSize, async);
      NoneFaults(freeBuffers, blocks, region, Align(dataSize) + Align(offsetsSize));
      hide PickFaults;
      r := TryAlloc(dataSize, offsetsSize, async, fault);
    }

    /** The allocation itself. */
    method TryAlloc(dataSize: Word, offsetsSize: Word, async: bool, fault: Fault) returns (r: Option<nat>)
      requires Valid()
      modifies this`blocks, this`freeBuffers, this`allocatedBuffers, this`freeAsync, pages
      ensures Valid()
      ensures r.None? <==>
                || old(Refused(vma, freeAsync, dataSize, offsetsSize, async))
                || old(Pick(freeBuffers, blocks, region, Align(dataSize) + Align(offsetsSize))).None?
                || PickFaults(old(freeBuffers), old(blocks), region, Align(dataSize) + Align(offsetsSize), fault)
      ensures r.None? ==>
                && blocks == old(blocks) && freeAsync == old(freeAsync)
                && freeBuffers == old(freeBuffers) && allocatedBuffers == old(allocatedBuffers)
      ensures r.Some? ==>
                && IsBestFit(old(blocks), region, Align(dataSize) + Align(offsetsSize), r.value)
                && AllocatedAt(old(blocks), region, r.value, dataSize, offsetsSize, async, blocks)
    {
      var best, exact := FindBlock(dataSize, offsetsSize, async);
      if best.None? {
        return None;
      }
      assert Ordered(blocks) by {
        TilesIsOrdered(blocks, region);
      }
      OneKind(blocks, best.value);
      var k := Index(blocks, best.value);
      AllocCharges(blocks, region, k, dataSize, offsetsSize, async);
      AllocCoalesced(blocks, region, k, dataSize, offsetsSize, async);
      var ok := AllocFound(k, exact, dataSize, offsetsSize, async, fault);
      if !ok {
        return None;
      }
      if async {
        freeAsync := freeAsync - (Align(dataSize) + Align(offsetsSize) + HEADER);
      }
      return best;
    }

    // ---- releasing ----

    /** `binder_update_page_range` giving back the pages from `first` up to `limit`. */
    method ReleasePages(first: nat, limit: nat)
      requires limit <= pages.Length
      requires forall p :: first <= p < limit ==> pages[p]
      modifies pages
      ensures forall p :: 0 <= p < pages.Length ==> pages[p] == (!(first <= p < limit) && old(pages[p]))
    {
      var ok := UpdatePageRange(false, first * PAGE, limit * PAGE, NoFault);
    }

    /** The page tests of `binder_delete_free_buffer`: does another header share the first or the last
        page of header `k`? */
    method SharedPages(k: nat) returns (freePageStart: bool, freePageEnd: bool)
      requires 0 < k < |blocks|
      ensures freePageStart <==> !SharesFirst(blocks, k)
      ensures freePageEnd <==> !SharesLast(blocks, k)
    {
      freePageStart, freePageEnd := true, true;
      var prev, a := blocks[k - 1].addr, blocks[k].addr;
      if LastPage(prev) == FirstPage(a) {
        freePageStart := false;
        if LastPage(prev) == LastPage(a) {
          freePageEnd := false;
        }
      }
      if k + 1 < |blocks| {
        var next := blocks[k + 1].addr;
        if FirstPage(next) == LastPage(a) {
          freePageEnd := false;
          if FirstPage(next) == FirstPage(a) {
            freePageStart := false;
          }
        }
      }
    }

    /** `binder_delete_free_buffer`: drops the header of a free block behind a free block and gives
        back the pages no neighbouring header shares. */
    method DeleteFreeBuffer(a: nat)
      requires Tiled() && PagesExact() && Has(blocks, a) && Ordered(blocks)
      requires Index(blocks, a) > 0 && blocks[Index(blocks, a)].Free? && blocks[Index(blocks, a) - 1].Free?
      modifies this`blocks, pages
      ensures Tiled() && PagesExact()
      ensures blocks == Drop(old(blocks), Index(old(blocks), a))
    {
      hide Tiles, Ordered, Needed, Has;
      var k := Index(blocks, a);
      var freePageStart, freePageEnd := SharedPages(k);
      ghost var given := (p: nat) => (freePageStart || freePageEnd) &&
                                     GiveFrom(a, freePageStart) <= p <= GiveUpTo(a, freePageEnd);
      forall p: nat
        ensures given(p) ==> Needed(blocks, region, p)
        ensures Needed(Drop(blocks, k), region, p) <==> Needed(blocks, region, p) && !given(p)
      {
        GivenPage(blocks, region, k, freePageStart, freePageEnd, p);
      }
      if freePageStart || freePageEnd {
        TilesIsOrdered(blocks, region);
        ReleasePages(GiveFrom(a, freePageStart), GiveUpTo(a, freePageEnd) + 1);
      }
      DropTiles(blocks, region, k);
      blocks := Drop(blocks, k);
    }

    /** The free tree holds every free block but the one at `a`. */
    ghost predicate FreeMissing(a: nat)
      reads `blocks, `freeBuffers
    {
      IndexesFreeBut(InOrder(freeBuffers), blocks, a) && Sorted(InOrder(freeBuffers), Sizes(blocks, region))
    }

    /** Gives back the pages that lie inside the payload of block `i`. */
    method UnmapPayload(i: nat)
      requires Tiled() && PagesExact() && i < |blocks| && blocks[i].Used?
      modifies pages
      ensures forall p :: 0 <= p < pages.Length ==> (pages[p] <==> Needed(MarkFree(blocks, i), region, p))
    {
      var first, limit := PageFrom(blocks[i].addr + HEADER), PageUpTo(End(blocks, region, i));
      assert limit <= pages.Length by {
        TilesIsOrdered(blocks, region);
      }
      forall p: nat
        ensures first <= p < limit ==> Needed(blocks, region, p)
        ensures Needed(MarkFree(blocks, i), region, p) <==> Needed(blocks, region, p) && !(first <= p < limit)
      {
        MarkFreeNeeds(blocks, region, i, p);
        InsidePages(blocks[i].addr + HEADER, End(blocks, region, i), p);
      }
      ReleasePages(first, limit);
    }

    /** First part of `binder_free_buf`: gives back the pages inside block `i` and marks it free. */
    method UnmapAndMark(i: nat)
      requires Tiled() && PagesExact() && UsedIndexed() && FreeIndexed() && i < |blocks| && blocks[i].Used?
      modifies this`blocks, this`allocatedBuffers, pages
      ensures blocks == MarkFree(old(blocks), i)
      ensures Tiled() && PagesExact() && UsedIndexed() && FreeMissing(blocks[i].addr)
      ensures |InOrder(allocatedBuffers)| == |InOrder(old(allocatedBuffers))| - 1
    {
      var a := blocks[i].addr;
      assert a in InOrder(allocatedBuffers) by {
        assert blocks[i] in blocks;
        IndexedUsed(InOrder(allocatedBuffers), blocks, a);
      }
      WithoutCounts(InOrder(allocatedBuffers), a);
      UnmapPayload(i);
      MarkFreeTiles(blocks, region, i);
      MarkKeepsIndexes(InOrder(freeBuffers), InOrder(allocatedBuffers), blocks, region, i);
      allocatedBuffers := Erase(allocatedBuffers, a);
      blocks := MarkFree(blocks, i);
    }

    /** Second part: a free successor is merged into block `i`. */
    method JoinNext(i: nat)
      requires Tiled() && PagesExact() && UsedIndexed() && i + 1 < |blocks| && BothFree(blocks, i)
      requires FreeMissing(blocks[i].addr)
      modifies this`blocks, this`freeBuffers, pages
      ensures blocks == Drop(old(blocks), i + 1)
      ensures Tiled() && PagesExact() && UsedIndexed() && FreeMissing(blocks[i].addr)
    {
      var next := blocks[i + 1].addr;
      TilesIsOrdered(blocks, region);
      AtIndex(blocks, next, i + 1);
      DropKeepsIndexes(InOrder(freeBuffers), InOrder(allocatedBuffers), blocks, region, i + 1, blocks[i].addr, next);
      freeBuffers := Erase(freeBuffers, next);
      DeleteFreeBuffer(next);
    }

    /** Third part: block `i` is merged into a free predecessor, which grows while it is still in
        the tree and is taken out of it afterwards. */
    method JoinPrevious(i: nat)
      requires Tiled() && PagesExact() && UsedIndexed() && 0 < i < |blocks| && BothFree(blocks, i - 1)
      requires FreeMissing(blocks[i].addr)
      modifies this`blocks, this`freeBuffers, pages
      ensures blocks == Drop(old(blocks), i)
      ensures Tiled() && PagesExact() && UsedIndexed() && FreeMissing(blocks[i - 1].addr)
    {
      var a, prev := blocks[i].addr, blocks[i - 1].addr;
      TilesIsOrdered(blocks, region);
      AtIndex(blocks, a, i);
      DropKeepsIndexes(InOrder(freeBuffers), InOrder(allocatedBuffers), blocks, region, i, a, prev);
      DeleteFreeBuffer(a);
      freeBuffers := Erase(freeBuffers, prev);
    }

    /** Last part: the merged block goes back into the tree under its new size. */
    method Reinsert(m: nat)
      requires m < |blocks| && blocks[m].Free? && FreeMissing(blocks[m].addr)
      modifies this`freeBuffers
      ensures FreeIndexed()
    {
      var a := blocks[m].addr;
      assert Free(a) in blocks by {
        assert blocks[m] == Free(a);
      }
      MissingInserted(InOrder(freeBuffers), blocks, a);
      InsertFreeBuffer(a);
    }

    /** The block at position `i` becomes free and is merged with its free neighbours. */
    method ReleaseBlock(i: nat)
      requires Tiled() && PagesExact() && UsedIndexed() && FreeIndexed() && i < |blocks| && blocks[i].Used?
      modifies this`blocks, this`freeBuffers, this`allocatedBuffers, pages
      ensures blocks == FreeAt(old(blocks), i)
      ensures Tiled() && PagesExact() && UsedIndexed() && FreeIndexed()
      ensures |InOrder(allocatedBuffers)| == |InOrder(old(allocatedBuffers))| - 1
    {
      UnmapAndMark(i);
      if i + 1 < |blocks| && blocks[i + 1].Free? {
        JoinNext(i);
      }
      var merged := i;
      if 0 < i && blocks[i - 1].Free? {
        JoinPrevious(i);
        merged := i - 1;
      }
      Reinsert(merged);
    }

    /** `binder_free_buf`. */
    method FreeBuf(a: nat)
      requires Valid() && HasUsed(blocks, a)
      modifies this`blocks, this`freeBuffers, this`allocatedBuffers, this`freeAsync, pages
      ensures Valid()
      ensures Ordered(old(blocks)) && Has(old(blocks), a) && blocks == FreeAt(old(blocks), Index(old(blocks), a))
      ensures |InOrder(allocatedBuffers)| == |InOrder(old(allocatedBuffers))| - 1
    {
      TilesIsOrdered(blocks, region);
      OneKind(blocks, a);
      var i := Index(blocks, a);
      var b := blocks[i];
      assert b.Used? && Sound(blocks, region, i) && a <= region;
      FreeCharges(blocks, i);
      FreeCoalesced(blocks, i);
      if b.async {
        freeAsync := freeAsync + Align(b.dataSize) + Align(b.offsetsSize) + HEADER;
      }
      ReleaseBlock(i);
    }

    /** The allocator's part of `binder_deferred_release`: frees every buffer, then the pages left. */
    method ReleaseAll()
      requires Valid()
      modifies this`blocks, this`freeBuffers, this`allocatedBuffers, this`freeAsync, pages
      ensures blocks == [Free(0)] && freeAsync == region / 2
      ensures forall p :: 0 <= p < pages.Length ==> !pages[p]
    {
      while allocatedBuffers.Node?
        invariant Valid()
        decreases |InOrder(allocatedBuffers)|
      {
        var first := InOrder(allocatedBuffers)[0];
        IndexedUsed(InOrder(allocatedBuffers), blocks, first);
        FreeBuf(first);
      }
      forall i | 0 <= i < |blocks| ensures blocks[i].Free? {
        assert blocks[i] in blocks;
        IndexedUsed(InOrder(allocatedBuffers), blocks, blocks[i].addr);
      }
      forall p ensures Needed(blocks, region, p) <==> p == 0 {
        NothingUsed(blocks, region, p);
      }
      NothingUsed(blocks, region, 0);
      assert blocks[1..] == [] && Charges(blocks) == 0;
      for i := 0 to region / PAGE
        modifies pages
        invariant forall p :: 0 <= p < pages.Length ==> (pages[p] <==> i == 0 && p == 0)
      {
        if pages[i] {
          pages[i] := false;
        }
      }
    }
  }

  /** What holds of an empty region. */
  lemma Beginning(vmaSize: nat)
    requires vmaSize % PAGE == 0 && PAGE <= vmaSize
    ensures var region := Capped(vmaSize);
            && region % PAGE == 0 && PAGE <= region <= SZ_4M && PageCount(region) * PAGE == region && HalfOf(region) == region / 2
            && Tiles([Free(0)], region)
    ensures Coalesced([Free(0)]) && Charges([Free(0)]) == 0
    ensures IndexesUsed(InOrder(Leaf), [Free(0)]) && Sorted(InOrder(Leaf), Self())
  {
    hide IndexesUsed;
    NoneUsed();
  }

  lemma NoneUsed()
    ensures IndexesUsed(InOrder(Leaf), [Free(0)])
  {
  }

  /** `binder_mmap`: no arena exactly if the page for the first header cannot be had. */
  method Mmap(vmaSize: nat, fault: Fault) returns (arena: Arena?)
    requires vmaSize % PAGE == 0 && PAGE <= vmaSize
    ensures arena == null <==> FaultHits(fault, 0, 1)
    ensures arena != null ==>
              && fresh(arena) && arena.Valid() && arena.vma && arena.blocks == [Free(0)]
              && arena.region == Capped(vmaSize)
  {
    if FaultHits(fault, 0, 1) {
      return null;
    }
    arena := new Arena(vmaSize);
  }

  /** The number of the page on which a header starts. */
  function FirstPage(a: nat): nat {
    a / PAGE
  }

  /** The number of the page on which a header ends. */
  function LastPage(a: nat): nat {
    (a + HEADER - 1) / PAGE
  }

  predicate SharesFirst(bs: seq<Block>, k: nat)
    requires 0 < k < |bs|
  {
    || LastPage(bs[k - 1].addr) == FirstPage(bs[k].addr)
    || (k + 1 < |bs| && FirstPage(bs[k + 1].addr) == LastPage(bs[k].addr) == FirstPage(bs[k].addr))
  }

  predicate SharesLast(bs: seq<Block>, k: nat)
    requires 0 < k < |bs|
  {
    || LastPage(bs[k - 1].addr) == FirstPage(bs[k].addr) == LastPage(bs[k].addr)
    || (k + 1 < |bs| && FirstPage(bs[k + 1].addr) == LastPage(bs[k].addr))
  }

  /** A header lies on its first and its last page and on no other. */
  lemma HeaderPages(a: nat, p: nat)
    ensures Overlaps(a, a + HEADER, p) <==> p == FirstPage(a) || p == LastPage(a)
    ensures FirstPage(a) <= LastPage(a) <= FirstPage(a) + 1
  {
  }

  lemma PagesInOrder(a: nat, b: nat)
    requires a + HEADER <= b
    ensures LastPage(a) <= FirstPage(b)
  {
  }

  /** The two flags select exactly the pages that only the dropped header needs. */
  lemma FlagsExact(bs: seq<Block>, k: nat, freePageStart: bool, freePageEnd: bool, p: nat)
    requires Ordered(bs) && 0 < k < |bs|
    requires freePageStart == !SharesFirst(bs, k) && freePageEnd == !SharesLast(bs, k)
    ensures var a := bs[k].addr;
            OnlyHeader(bs, k, p) <==>
            && (freePageStart || freePageEnd)
            && (if freePageStart then FirstPage(a) else LastPage(a)) <= p
            && p <= (if freePageEnd then LastPage(a) else FirstPage(a))
  {
    HeaderPages(bs[k - 1].addr, p);
    HeaderPages(bs[k].addr, p);
    PagesInOrder(bs[k - 1].addr, bs[k].addr);
    if k + 1 < |bs| {
      HeaderPages(bs[k + 1].addr, p);
      PagesInOrder(bs[k].addr, bs[k + 1].addr);
    }
  }

  function GiveFrom(a: nat, freePageStart: bool): nat {
    if freePageStart then FirstPage(a) else LastPage(a)
  }

  function GiveUpTo(a: nat, freePageEnd: bool): nat {
    if freePageEnd then LastPage(a) else FirstPage(a)
  }

  /** What the release of the selected pages leaves mapped is what the shorter list needs. */
  lemma GivenPage(bs: seq<Block>, region: nat, k: nat, freePageStart: bool, freePageEnd: bool, p: nat)
    requires Tiles(bs, region) && 0 < k < |bs| && bs[k].Free? && bs[k - 1].Free?
    requires freePageStart == !SharesFirst(bs, k) && freePageEnd == !SharesLast(bs, k)
    ensures var given := (freePageStart || freePageEnd) &&
                         GiveFrom(bs[k].addr, freePageStart) <= p <= GiveUpTo(bs[k].addr, freePageEnd);
            && (given ==> Needed(bs, region, p))
            && (Needed(Drop(bs, k), region, p) <==> Needed(bs, region, p) && !given)
  {
    TilesIsOrdered(bs, region);
    DropNeeds(bs, region, k, p);
    FlagsExact(bs, k, freePageStart, freePageEnd, p);
  }

  lemma FitBounded(bs: seq<Block>, region: nat, size: nat, a: nat)
    requires Tiles(bs, region) && IsBestFit(bs, region, size, a)
    ensures size <= region
  {
    TilesIsOrdered(bs, region);
  }

  /** The requests turned down before any block is looked at. */
  predicate Refused(vma: bool, freeAsync: nat, dataSize: Word, offsetsSize: Word, async: bool) {
    var size := Align(dataSize) + Align(offsetsSize);
    !vma || size >= MODULUS || (async && freeAsync < size + HEADER)
  }

  /** The process has its region mapped, some free buffer is large enough, and a one-way request is within the quota. */
  ghost predicate Room(vma: bool, freeAsync: nat, bs: seq<Block>, region: nat, dataSize: Word, offsetsSize: Word, async: bool) {
    && vma && (exists a :: HasFree(bs, a) && Align(dataSize) + Align(offsetsSize) <= SizeOf(bs, region, a))
    && (async ==> Align(dataSize) + Align(offsetsSize) + HEADER <= freeAsync)
  }

  /** A request is turned down, or finds no buffer, exactly if there is no room for it. */
  lemma RoomIs(vma: bool, freeAsync: nat, t: Tree, bs: seq<Block>, region: nat, dataSize: Word, offsetsSize: Word, async: bool)
    requires Tiles(bs, region) && region <= SZ_4M && IndexesFree(InOrder(t), bs) && Sorted(InOrder(t), Sizes(bs, region))
    ensures Room(vma, freeAsync, bs, region, dataSize, offsetsSize, async)
            <==> !Refused(vma, freeAsync, dataSize, offsetsSize, async) && Pick(t, bs, region, Align(dataSize) + Align(offsetsSize)).Some?
  {
    hide Align, Tiles, Sorted, IndexesFree, Pick, SizeOf, HasFree;
    PickSome(t, bs, region, Align(dataSize) + Align(offsetsSize));
  }

  lemma PickSome(t: Tree, bs: seq<Block>, region: nat, size: nat)
    requires Tiles(bs, region) && region <= SZ_4M && IndexesFree(InOrder(t), bs) && Sorted(InOrder(t), Sizes(bs, region))
    ensures Pick(t, bs, region, size).Some? <==> exists a :: HasFree(bs, a) && size <= SizeOf(bs, region, a)
    ensures Pick(t, bs, region, size).Some? ==> size < MODULUS
  {
    hide Tiles, Sorted, IndexesFree, Best, SizeOf, HasFree, IsBestFit, InOrder;
    DescentFindsBestFit(t, bs, region, size);
    if Pick(t, bs, region, size).Some? {
      FitBounded(bs, region, size, Pick(t, bs, region, size).value);
      FitHere(bs, region, size, Pick(t, bs, region, size).value);
    }
  }

  lemma NoneFaults(t: Tree, bs: seq<Block>, region: nat, size: nat)
    ensures !PickFaults(t, bs, region, size, NoFault)
  {
    hide Pick, MapFrom, MapTo;
  }

  lemma FitHere(bs: seq<Block>, region: nat, size: nat, a: nat)
    requires IsBestFit(bs, region, size, a)
    ensures HasFree(bs, a) && size <= SizeOf(bs, region, a)
  {
  }

  /** The block the descent for `size` settles on. */
  function Pick(t: Tree, bs: seq<Block>, region: nat, size: nat): Option<nat> {
    Best(t, Sizes(bs, region), size, None)
  }

  function MapFrom(bs: seq<Block>, k: nat): nat
    requires k < |bs|
  {
    PageFrom(bs[k].addr + HEADER)
  }

  function MapTo(bs: seq<Block>, region: nat, k: nat, size: nat): nat
    requires k < |bs|
  {
    var wanted, limit := PageFrom(MapEnd(bs, region, k, size)), PageUpTo(End(bs, region, k));
    if wanted > limit then limit else wanted
  }

  lemma FreshRange(bs: seq<Block>, region: nat, k: nat, size: nat, p: nat)
    requires k < |bs|
    ensures Fresh(bs, region, k, size, p) <==> MapFrom(bs, k) <= p < MapTo(bs, region, k, size)
  {
    InsidePages(bs[k].addr + HEADER, End(bs, region, k), p);
    InsidePages(bs[k].addr + HEADER, MapEnd(bs, region, k, size), p);
  }

  /** Does populating the pages of the block picked for `size` go wrong? */
  predicate PickFaults(t: Tree, bs: seq<Block>, region: nat, size: nat, fault: Fault) {
    var pick := Pick(t, bs, region, size);
    && pick.Some? && Ordered(bs) && Has(bs, pick.value)
    && FaultHits(fault, MapFrom(bs, Index(bs, pick.value)), MapTo(bs, region, Index(bs, pick.value), size))
  }

  predicate AllocatedAt(bs: seq<Block>, region: nat, a: nat, dataSize: nat, offsetsSize: nat, async: bool,
                        after: seq<Block>)
  {
    && Ordered(bs) && Has(bs, a) && Fits(bs, region, Index(bs, a), dataSize, offsetsSize)
    && after == AllocAt(bs, region, Index(bs, a), dataSize, offsetsSize, async)
  }
}
