/** The buffer list of one process: the blocks that tile its mapped region, in address order.
    Addresses are offsets from the page-aligned start of the region. */
module Layout {
  import opened Words

  datatype Block =
    | Free(addr: nat)
    | Used(addr: nat, dataSize: nat, offsetsSize: nat, async: bool)

  /** What a block was asked to hold. */
  function Request(b: Block): nat {
    if b.Used? then Align(b.dataSize) + Align(b.offsetsSize) else 0
  }

  function End(bs: seq<Block>, region: nat, i: nat): nat
    requires i < |bs|
  {
    if i + 1 < |bs| then bs[i + 1].addr else region
  }

  /** `binder_buffer_size`: everything between a header and the next one. */
  function Payload(bs: seq<Block>, region: nat, i: nat): int
    requires i < |bs|
  {
    End(bs, region, i) - bs[i].addr - HEADER
  }

  /** Headers and payloads cover the region exactly, and each request fits its payload. */
  ghost predicate Tiles(bs: seq<Block>, region: nat) {
    && 0 < |bs|
    && bs[0].addr == 0
    && forall i :: 0 <= i < |bs| ==> Sound(bs, region, i)
  }

  predicate Sound(bs: seq<Block>, region: nat, i: nat)
    requires i < |bs|
  {
    Request(bs[i]) <= Payload(bs, region, i)
  }

  ghost predicate Coalesced(bs: seq<Block>) {
    forall i :: 0 <= i < |bs| - 1 ==> !BothFree(bs, i)
  }

  predicate BothFree(bs: seq<Block>, i: nat)
    requires i + 1 < |bs|
  {
    bs[i].Free? && bs[i + 1].Free?
  }

  // ---- addresses ----

  predicate Ordered(bs: seq<Block>) {
    forall i, j :: 0 <= i < j < |bs| ==> bs[i].addr + HEADER <= bs[j].addr
  }

  lemma {:induction false} TilesIsOrdered(bs: seq<Block>, region: nat)
    requires Tiles(bs, region)
    ensures Ordered(bs)
    ensures forall i :: 0 <= i < |bs| ==> bs[i].addr + HEADER <= End(bs, region, i) <= region
  {
    forall i, j | 0 <= i < j < |bs| ensures bs[i].addr + HEADER <= bs[j].addr {
      StepsUp(bs, region, i, j);
    }
    forall i | 0 <= i < |bs| ensures bs[i].addr + HEADER <= End(bs, region, i) <= region {
      assert Sound(bs, region, i);
      if i + 1 < |bs| {
        assert Sound(bs, region, |bs| - 1);
        StepsUp(bs, region, i, |bs| - 1);
      }
    }
  }

  lemma {:induction false} StepsUp(bs: seq<Block>, region: nat, i: nat, j: nat)
    requires Tiles(bs, region) && i < j < |bs|
    ensures bs[i].addr + HEADER <= bs[j].addr
  {
    assert Sound(bs, region, j - 1);
    if i < j - 1 {
      StepsUp(bs, region, i, j - 1);
    }
  }

  /** All headers and payloads from block `i` on. */
  function SumFrom(bs: seq<Block>, region: nat, i: nat): int
    requires i <= |bs|
    decreases |bs| - i
  {
    if i == |bs| then 0 else HEADER + Payload(bs, region, i) + SumFrom(bs, region, i + 1)
  }

  /** Headers and payloads sum to what lies between the first of them and the end of the region. */
  lemma {:induction false} SumIs(bs: seq<Block>, region: nat, i: nat)
    requires i < |bs|
    ensures SumFrom(bs, region, i) == region - bs[i].addr
    decreases |bs| - i
  {
    if i + 1 < |bs| {
      SumIs(bs, region, i + 1);
    }
  }

  /** Headers and payloads sum to the region. */
  lemma SumTiles(bs: seq<Block>, region: nat)
    requires Tiles(bs, region)
    ensures SumFrom(bs, region, 0) == region
  {
    SumIs(bs, region, 0);
  }

  predicate Has(bs: seq<Block>, a: nat) {
    exists k :: 0 <= k < |bs| && bs[k].addr == a
  }

  /** The list position of the header at address `a`. */
  function Index(bs: seq<Block>, a: nat): (k: nat)
    requires Ordered(bs) && Has(bs, a)
    ensures k < |bs| && bs[k].addr == a
  {
    var k :| 0 <= k < |bs| && bs[k].addr == a;
    k
  }

  /** The payload of the block at address `a`. */
  function SizeOf(bs: seq<Block>, region: nat, a: nat): int {
    if Ordered(bs) && Has(bs, a) then Payload(bs, region, Index(bs, a)) else 0
  }

  // ---- the two operations ----

  predicate Fits(bs: seq<Block>, region: nat, i: nat, dataSize: nat, offsetsSize: nat) {
    i < |bs| && bs[i].Free? && Align(dataSize) + Align(offsetsSize) <= Payload(bs, region, i)
  }

  /** Is the rest of block `i` too small to carry a header and more than 4 bytes? */
  predicate NoRoom(bs: seq<Block>, region: nat, i: nat, size: nat)
    requires i < |bs|
  {
    size + HEADER + 4 >= Payload(bs, region, i)
  }

  function AllocAt(bs: seq<Block>, region: nat, i: nat, dataSize: nat, offsetsSize: nat, async: bool): seq<Block>
    requires Fits(bs, region, i, dataSize, offsetsSize)
  {
    var size := Align(dataSize) + Align(offsetsSize);
    var used := Used(bs[i].addr, dataSize, offsetsSize, async);
    if NoRoom(bs, region, i, size) then bs[i := used]
    else bs[..i] + [used, Free(bs[i].addr + HEADER + size)] + bs[i + 1..]
  }

  function MarkFree(bs: seq<Block>, i: nat): seq<Block>
    requires i < |bs|
  {
    bs[i := Free(bs[i].addr)]
  }

  function Drop(bs: seq<Block>, k: nat): seq<Block>
    requires k < |bs|
  {
    bs[..k] + bs[k + 1..]
  }

  /** Block `i` becomes free and swallows a free successor; a free predecessor then swallows it. */
  function FreeAt(bs: seq<Block>, i: nat): seq<Block>
    requires i < |bs|
  {
    var marked := MarkFree(bs, i);
    var joined := if i + 1 < |bs| && bs[i + 1].Free? then Drop(marked, i + 1) else marked;
    if 0 < i && bs[i - 1].Free? then Drop(joined, i) else joined
  }

  // ---- tiling ----

  /** The shape of the list after an allocation, element by element. */
  lemma AllocShape(bs: seq<Block>, region: nat, i: nat, dataSize: nat, offsetsSize: nat, async: bool)
    requires Fits(bs, region, i, dataSize, offsetsSize)
    ensures var size := Align(dataSize) + Align(offsetsSize);
            var after := AllocAt(bs, region, i, dataSize, offsetsSize, async);
            var more := if NoRoom(bs, region, i, size) then 0 else 1;
            && |after| == |bs| + more
            && after[..i] == bs[..i] && after[i + 1 + more..] == bs[i + 1..]
            && after[i] == Used(bs[i].addr, dataSize, offsetsSize, async)
            && (more == 1 ==> after[i + 1] == Free(bs[i].addr + HEADER + size))
  {
  }

  lemma AllocTiles(bs: seq<Block>, region: nat, i: nat, dataSize: nat, offsetsSize: nat, async: bool)
    requires Tiles(bs, region) && Fits(bs, region, i, dataSize, offsetsSize)
    ensures Tiles(AllocAt(bs, region, i, dataSize, offsetsSize, async), region)
  {
    AllocShape(bs, region, i, dataSize, offsetsSize, async);
    InsertTiles(bs, region, i, AllocAt(bs, region, i, dataSize, offsetsSize, async));
  }

  /** `after` holds block `i` in place, possibly followed by one new free block, and is `bs` elsewhere. */
  lemma InsertTiles(bs: seq<Block>, region: nat, i: nat, after: seq<Block>)
    requires Tiles(bs, region) && i < |bs| && |bs| <= |after| <= |bs| + 1
    requires after[..i] == bs[..i] && after[i + 1 + |after| - |bs|..] == bs[i + 1..]
    requires after[i].addr == bs[i].addr && Request(after[i]) <= Payload(bs, region, i)
    requires |after| == |bs| + 1 ==>
               && after[i + 1] == Free(bs[i].addr + HEADER + Request(after[i]))
               && Request(after[i]) + HEADER <= Payload(bs, region, i)
    ensures Tiles(after, region)
  {
    var more := |after| - |bs|;
    assert forall k :: 0 <= k < i ==> after[k] == bs[..i][k] == bs[k];
    assert forall k :: i < k < |bs| ==> after[k + more] == bs[i + 1..][k - i - 1] == bs[k];
    forall k | 0 <= k < |after| ensures Sound(after, region, k) {
      if k < i {
        assert Sound(bs, region, k);
      } else if k > i + more {
        assert after[k] == bs[k - more];
        assert k + 1 < |after| ==> after[k + 1] == bs[k + 1 - more];
        assert Sound(bs, region, k - more);
      } else if k + 1 < |after| && k == i + more {
        assert after[k + 1] == bs[i + 1];
      }
    }
  }

  lemma MarkFreeTiles(bs: seq<Block>, region: nat, i: nat)
    requires Tiles(bs, region) && i < |bs|
    ensures Tiles(MarkFree(bs, i), region)
  {
    var after := MarkFree(bs, i);
    forall k | 0 <= k < |after| ensures Sound(after, region, k) {
      assert Sound(bs, region, k);
    }
  }

  lemma DropTiles(bs: seq<Block>, region: nat, k: nat)
    requires Tiles(bs, region) && 0 < k < |bs|
    ensures Tiles(Drop(bs, k), region)
  {
    var after := Drop(bs, k);
    TilesIsOrdered(bs, region);
    forall j | 0 <= j < |after| ensures Sound(after, region, j) {
      if j < k {
        assert Sound(bs, region, j);
      } else {
        assert Sound(bs, region, j + 1);
      }
    }
  }

  lemma FreeTiles(bs: seq<Block>, region: nat, i: nat)
    requires Tiles(bs, region) && i < |bs|
    ensures Tiles(FreeAt(bs, i), region)
  {
    MarkFreeTiles(bs, region, i);
    var marked := MarkFree(bs, i);
    var joined := if i + 1 < |bs| && bs[i + 1].Free? then Drop(marked, i + 1) else marked;
    if i + 1 < |bs| && bs[i + 1].Free? {
      DropTiles(marked, region, i + 1);
    }
    if 0 < i && bs[i - 1].Free? {
      DropTiles(joined, region, i);
    }
  }

  // ---- coalescing ----

  lemma AllocCoalesced(bs: seq<Block>, region: nat, i: nat, dataSize: nat, offsetsSize: nat, async: bool)
    requires Coalesced(bs) && Fits(bs, region, i, dataSize, offsetsSize)
    ensures Coalesced(AllocAt(bs, region, i, dataSize, offsetsSize, async))
  {
    AllocShape(bs, region, i, dataSize, offsetsSize, async);
    SplitCoalesced(bs, i, AllocAt(bs, region, i, dataSize, offsetsSize, async));
  }

  /** `after` has block `i` in use, possibly followed by one new block. */
  lemma SplitCoalesced(bs: seq<Block>, i: nat, after: seq<Block>)
    requires Coalesced(bs) && i < |bs| <= |after| <= |bs| + 1 && bs[i].Free? && after[i].Used?
    requires after[..i] == bs[..i] && after[i + 1 + |after| - |bs|..] == bs[i + 1..]
    ensures Coalesced(after)
  {
    var more := |after| - |bs|;
    forall k | 0 <= k < |after| - 1 ensures !BothFree(after, k) {
      if k + 1 < i {
        assert after[..i][k] == bs[..i][k] && after[..i][k + 1] == bs[..i][k + 1];
        assert !BothFree(bs, k);
      } else if k == i + more {
        assert !BothFree(bs, i);
        assert after[i + 1 + more..][0] == bs[i + 1..][0];
      } else if k > i + more {
        var j := k - more;
        assert after[i + 1 + more..][j - i - 1] == bs[i + 1..][j - i - 1];
        assert after[i + 1 + more..][j - i] == bs[i + 1..][j - i];
        assert !BothFree(bs, j);
      }
    }
  }

  /** The shape of the list after a block is freed, element by element. */
  lemma FreeShape(bs: seq<Block>, i: nat)
    requires i < |bs|
    ensures var after := FreeAt(bs, i);
            var next := if i + 1 < |bs| && bs[i + 1].Free? then 1 else 0;
            var prev := if 0 < i && bs[i - 1].Free? then 1 else 0;
            && |after| == |bs| - next - prev
            && after[..i - prev] == bs[..i - prev] && after[i - prev + 1..] == bs[i + next + 1..]
            && after[i - prev] == Free(bs[i - prev].addr)
  {
    var marked := MarkFree(bs, i);
    var joined := if i + 1 < |bs| && bs[i + 1].Free? then Drop(marked, i + 1) else marked;
    assert joined[..i] == bs[..i] && joined[i] == Free(bs[i].addr);
  }

  lemma FreeCoalesced(bs: seq<Block>, i: nat)
    requires Coalesced(bs) && i < |bs| && bs[i].Used?
    ensures Coalesced(FreeAt(bs, i))
  {
    FreeShape(bs, i);
    var next := if i + 1 < |bs| && bs[i + 1].Free? then 1 else 0;
    var prev := if 0 < i && bs[i - 1].Free? then 1 else 0;
    assert next == 1 && i + 2 < |bs| ==> !BothFree(bs, i + 1);
    assert prev == 1 && 1 < i ==> !BothFree(bs, i - 2);
    ReplaceCoalesced(bs, i - prev, i + next + 1, FreeAt(bs, i));
  }

  /** `after` holds one block in place of the blocks `lo..hi`, whose outer neighbours are in use. */
  lemma ReplaceCoalesced(bs: seq<Block>, lo: nat, hi: nat, after: seq<Block>)
    requires Coalesced(bs) && lo < hi <= |bs| && |after| == |bs| - (hi - lo) + 1
    requires after[..lo] == bs[..lo] && after[lo + 1..] == bs[hi..]
    requires 0 < lo ==> bs[lo - 1].Used?
    requires hi < |bs| ==> bs[hi].Used?
    ensures Coalesced(after)
  {
    forall k | 0 <= k < |after| - 1 ensures !BothFree(after, k) {
      if k < lo {
        assert after[k] == after[..lo][k] == bs[k];
        if k + 1 < lo {
          assert after[k + 1] == after[..lo][k + 1] == bs[k + 1];
          assert !BothFree(bs, k);
        }
      } else if k > lo {
        var j := k - lo - 1;
        assert after[k] == after[lo + 1..][j] == bs[hi + j];
        assert after[k + 1] == after[lo + 1..][j + 1] == bs[hi + j + 1];
        assert !BothFree(bs, hi + j);
      } else {
        assert after[k + 1] == after[lo + 1..][0] == bs[hi..][0];
      }
    }
  }

  /** Freeing the block just allocated restores the list it was taken from. */
  lemma FreeUndoesAlloc(bs: seq<Block>, region: nat, i: nat, dataSize: nat, offsetsSize: nat, async: bool)
    requires Coalesced(bs) && Fits(bs, region, i, dataSize, offsetsSize)
    ensures FreeAt(AllocAt(bs, region, i, dataSize, offsetsSize, async), i) == bs
  {
    AllocShape(bs, region, i, dataSize, offsetsSize, async);
    var after := AllocAt(bs, region, i, dataSize, offsetsSize, async);
    var more := |after| - |bs|;
    FreeShape(after, i);
    assert i > 0 ==> !BothFree(bs, i - 1);
    assert i > 0 ==> after[i - 1] == after[..i][i - 1] == bs[..i][i - 1];
    assert i + 1 < |bs| ==> !BothFree(bs, i);
    assert i + 1 + more < |after| ==> after[i + 1 + more] == after[i + 1 + more..][0] == bs[i + 1..][0];
    var back := FreeAt(after, i);
    assert back == back[..i] + [back[i]] + back[i + 1..];
    assert bs == bs[..i] + [bs[i]] + bs[i + 1..];
  }

  /** When a block is split, its remainder keeps more than 4 bytes and ends inside the region. */
  lemma SplitRemainder(bs: seq<Block>, region: nat, i: nat, dataSize: nat, offsetsSize: nat, async: bool)
    requires Tiles(bs, region) && Fits(bs, region, i, dataSize, offsetsSize)
    ensures var after := AllocAt(bs, region, i, dataSize, offsetsSize, async);
            && |bs| <= |after| <= |bs| + 1
            && (|after| == |bs| + 1 ==>
                  && after[i + 1].Free? && after[i + 1].addr == bs[i].addr + HEADER + Request(after[i])
                  && Payload(after, region, i) == Request(after[i])
                  && Payload(after, region, i + 1) > 4 && End(after, region, i + 1) <= region)
            && (|after| == |bs| ==> Payload(after, region, i) <= Request(after[i]) + HEADER + 4)
  {
    hide Align;
    AllocTiles(bs, region, i, dataSize, offsetsSize, async);
    AllocShape(bs, region, i, dataSize, offsetsSize, async);
    TilesIsOrdered(AllocAt(bs, region, i, dataSize, offsetsSize, async), region);
  }

  // ---- the async quota ----

  function Charge(b: Block): nat {
    if b.Used? && b.async then Request(b) + HEADER else 0
  }

  function Charges(bs: seq<Block>): nat {
    if bs == [] then 0 else Charge(bs[0]) + Charges(bs[1..])
  }

  lemma {:induction false} ChargesConcat(a: seq<Block>, b: seq<Block>)
    ensures Charges(a + b) == Charges(a) + Charges(b)
  {
    if a == [] {
      assert a + b == b;
    } else {
      assert (a + b)[1..] == a[1..] + b;
      ChargesConcat(a[1..], b);
    }
  }

  lemma ChargesUpdate(bs: seq<Block>, i: nat, b: Block)
    requires i < |bs|
    ensures Charges(bs[i := b]) == Charges(bs) - Charge(bs[i]) + Charge(b)
  {
    assert bs == bs[..i] + ([bs[i]] + bs[i + 1..]);
    assert bs[i := b] == bs[..i] + ([b] + bs[i + 1..]);
    ChargesConcat(bs[..i], [bs[i]] + bs[i + 1..]);
    ChargesConcat(bs[..i], [b] + bs[i + 1..]);
  }

  lemma ChargesDrop(bs: seq<Block>, k: nat)
    requires k < |bs|
    ensures Charges(Drop(bs, k)) == Charges(bs) - Charge(bs[k])
  {
    hide Charge;
    assert bs == bs[..k] + ([bs[k]] + bs[k + 1..]);
    ChargesConcat(bs[..k], [bs[k]] + bs[k + 1..]);
    ChargesConcat(bs[..k], bs[k + 1..]);
  }

  lemma AllocCharges(bs: seq<Block>, region: nat, i: nat, dataSize: nat, offsetsSize: nat, async: bool)
    requires Fits(bs, region, i, dataSize, offsetsSize)
    ensures Charges(AllocAt(bs, region, i, dataSize, offsetsSize, async)) ==
            Charges(bs) + (if async then Align(dataSize) + Align(offsetsSize) + HEADER else 0)
  {
    var after := AllocAt(bs, region, i, dataSize, offsetsSize, async);
    if |after| == |bs| {
      ChargesUpdate(bs, i, after[i]);
    } else {
      ChargesDrop(after, i + 1);
      assert Drop(after, i + 1) == bs[i := after[i]];
      ChargesUpdate(bs, i, after[i]);
    }
  }

  lemma FreeCharges(bs: seq<Block>, i: nat)
    requires i < |bs|
    ensures Charges(FreeAt(bs, i)) == Charges(bs) - Charge(bs[i])
  {
    var marked := MarkFree(bs, i);
    ChargesUpdate(bs, i, Free(bs[i].addr));
    var joined := if i + 1 < |bs| && bs[i + 1].Free? then Drop(marked, i + 1) else marked;
    if i + 1 < |bs| && bs[i + 1].Free? {
      ChargesDrop(marked, i + 1);
    }
    if 0 < i && bs[i - 1].Free? {
      ChargesDrop(joined, i);
    }
  }
}
