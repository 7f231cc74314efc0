/** Buffer and references together: what a transaction leaves behind when it fails. */
module Exchange {
  import opened Wrappers
  import opened Words
  import opened Layout
  import Pages
  import opened Trees
  import opened Indexes
  import A = Arena
  import opened Store
  import opened Rollback
  import opened Transfers
  import opened Undo
  import opened Tallies
  import opened Outcomes
  import Prompts
  import opened Refs

  /** How a send ends: with a buffer at an address, without one to be had, or at an object that fails. */
  datatype Outcome = Sent(at: nat) | NoBuffer | BadObject(done: nat)

  /** There is no buffer to be had: the request is refused, no free block is large enough, or pages run out. */
  ghost predicate NoneToHave(vma: bool, freeAsync: nat, free: Tree, bs: seq<Block>, region: nat, dataSize: Word, offsetsSize: Word,
                             async: bool, fault: A.Fault) {
    || A.Refused(vma, freeAsync, dataSize, offsetsSize, async)
    || A.Pick(free, bs, region, Align(dataSize) + Align(offsetsSize)).None?
    || A.PickFaults(free, bs, region, Align(dataSize) + Align(offsetsSize), fault)
  }

  /** The block list fixes the page set and the async space. */
  lemma SamePages(region: nat, blocks: seq<Block>, before: seq<bool>, after: seq<bool>)
    requires |before| == |after|
    requires forall p :: 0 <= p < |before| ==> (before[p] <==> Pages.Needed(blocks, region, p))
    requires forall p :: 0 <= p < |after| ==> (after[p] <==> Pages.Needed(blocks, region, p))
    ensures before == after
  {
  }

  /** The block just allocated is the used one at its address, at the place the free one had. */
  lemma Taken(bs: seq<Block>, region: nat, a: nat, dataSize: nat, offsetsSize: nat, async: bool, after: seq<Block>)
    requires Tiles(bs, region) && Coalesced(bs) && A.AllocatedAt(bs, region, a, dataSize, offsetsSize, async, after)
    requires Tiles(after, region)
    ensures HasUsed(after, a) && Ordered(after) && Has(after, a)
    ensures FreeAt(after, Index(after, a)) == bs
  {
    var i := Index(bs, a);
    FreeUndoesAlloc(bs, region, i, dataSize, offsetsSize, async);
    AllocShape(bs, region, i, dataSize, offsetsSize, async);
    TilesIsOrdered(after, region);
    AtIndex(after, a, i);
    OneKind(after, a);
  }

  /** What the rest of an arena is when its block list is `bs`. */
  ghost predicate Rest(region: nat, bs: seq<Block>, pages: seq<bool>, freeAsync: nat) {
    && (forall p :: 0 <= p < |pages| ==> (pages[p] <==> Pages.Needed(bs, region, p)))
    && freeAsync + Charges(bs) == region / 2
  }

  lemma RestSame(region: nat, bs: seq<Block>, before: seq<bool>, after: seq<bool>, async0: nat, async1: nat)
    requires |before| == |after| && Rest(region, bs, before, async0) && Rest(region, bs, after, async1)
    ensures before == after && async0 == async1
  {
    SamePages(region, bs, before, after);
  }

  lemma RestNow(arena: A.Arena)
    requires arena.Valid()
    ensures Rest(arena.region, arena.blocks, arena.pages[..], arena.freeAsync)
    ensures Tiles(arena.blocks, arena.region) && Coalesced(arena.blocks)
  {
    hide Tiles, Coalesced;
  }

  method TakeBuffer(arena: A.Arena, dataSize: Word, offsetsSize: Word, async: bool, fault: A.Fault) returns (r: Option<nat>)
    requires arena.Valid()
    modifies arena`blocks, arena`freeBuffers, arena`allocatedBuffers, arena`freeAsync, arena.pages
    ensures arena.Valid() && Rest(arena.region, old(arena.blocks), old(arena.pages[..]), old(arena.freeAsync))
    ensures r.None? ==>
              arena.blocks == old(arena.blocks) && arena.pages[..] == old(arena.pages[..]) && arena.freeAsync == old(arena.freeAsync)
    ensures r.Some? ==> HasUsed(arena.blocks, r.value) && Ordered(arena.blocks) && Has(arena.blocks, r.value)
                        && FreeAt(arena.blocks, Index(arena.blocks, r.value)) == old(arena.blocks)
    ensures r.None? <==> old(NoneToHave(arena.vma, arena.freeAsync, arena.freeBuffers, arena.blocks, arena.region, dataSize, offsetsSize,
                                        async, fault))
    ensures r.Some? ==>
              A.AllocatedAt(old(arena.blocks), arena.region, r.value, dataSize, offsetsSize, async, arena.blocks)
              && IsBestFit(old(arena.blocks), arena.region, Align(dataSize) + Align(offsetsSize), r.value)
  {
    hide Rest, A.Arena.Valid, A.Refused, A.Pick, A.PickFaults, A.AllocatedAt, IsBestFit, HasUsed, Has, Ordered, FreeAt, Tiles, Coalesced;
    RestNow(arena);
    ghost var bs := arena.blocks;
    r := arena.AllocBuf(dataSize, offsetsSize, async, fault);
    RestNow(arena);
    if r.Some? {
      Taken(bs, arena.region, r.value, dataSize, offsetsSize, async, arena.blocks);
    } else {
      RestSame(arena.region, bs, old(arena.pages[..]), arena.pages[..], old(arena.freeAsync), arena.freeAsync);
    }
  }

  method GiveBuffer(arena: A.Arena, a: nat, ghost bs: seq<Block>, ghost before: seq<bool>, ghost freeAsync: nat)
    requires arena.Valid() && HasUsed(arena.blocks, a) && Ordered(arena.blocks) && Has(arena.blocks, a)
    requires FreeAt(arena.blocks, Index(arena.blocks, a)) == bs
    requires |before| == arena.pages.Length && Rest(arena.region, bs, before, freeAsync)
    modifies arena`blocks, arena`freeBuffers, arena`allocatedBuffers, arena`freeAsync, arena.pages
    ensures arena.Valid() && arena.blocks == bs && arena.pages[..] == before && arena.freeAsync == freeAsync
  {
    arena.FreeBuf(a);
    RestSame(arena.region, bs, before, arena.pages[..], freeAsync, arena.freeAsync);
  }

  /** `binder_transaction` from the allocation of the buffer on. It ends without a buffer exactly if none is to be
      had, and at the first object that fails otherwise; then no block, no page and no byte of async space is lost,
      and the counts are those of before exactly if the objects before can be undone and no stray node was left. If
      no object fails, the receiver has a buffer that fits best, with an object for each, and nothing else changed. */
  method SendBuffer(arena: A.Arena, table: RefTable, p: Pid, q: Pid, target: Option<NodeId>, objs: seq<Option<Obj>>,
                    memory: seq<Memory>, dataSize: Word, offsetsSize: Word, async: bool, fault: A.Fault)
    returns (r: Outcome)
    requires arena.Valid() && table.Valid() && p in table.descs && q in table.descs && |memory| == |objs|
    requires target.Some? ==> target.value in table.nodes && table.nodes[target.value].proc == Some(q)
    modifies arena`blocks, arena`freeBuffers, arena`allocatedBuffers, arena`freeAsync, arena.pages, table
    ensures arena.Valid() && table.Valid()
    ensures r.NoBuffer? <==> old(NoneToHave(arena.vma, arena.freeAsync, arena.freeBuffers, arena.blocks, arena.region, dataSize, offsetsSize,
                                            async, fault))
    ensures r.Sent? ==> forall k :: 0 <= k < |objs| ==> !FailsAt(old(table.Now()), p, q, objs, memory, k)
    ensures r.BadObject? ==>
              && r.done < |objs| && FailsAt(old(table.Now()), p, q, objs, memory, r.done)
              && forall k :: 0 <= k < r.done ==> !FailsAt(old(table.Now()), p, q, objs, memory, k)
    ensures !r.Sent? ==>
              && arena.blocks == old(arena.blocks) && arena.pages[..] == old(arena.pages[..])
              && arena.freeAsync == old(arena.freeAsync) && table.bufs == old(table.bufs)
    ensures r.NoBuffer? ==> table.Now() == old(table.Now())
    ensures r.BadObject? ==>
              (Restored(old(table.Now()), table.Now()) <==>
                 Undone(old(table.Now()), p, q, objs, r.done) && !StraysAt(old(table.Now()), p, objs, r.done, memory))
    ensures r.Sent? ==>
              && A.AllocatedAt(old(arena.blocks), arena.region, r.at, dataSize, offsetsSize, async, arena.blocks)
              && IsBestFit(old(arena.blocks), arena.region, Align(dataSize) + Align(offsetsSize), r.at)
              && |table.bufs| == |old(table.bufs)| + 1 && table.bufs[..|old(table.bufs)|] == old(table.bufs)
    ensures r.Sent? ==> var b := table.bufs[|old(table.bufs)|];
                        b.proc == q && b.target == target && |b.objs| == |objs| && SameNames(table.Now(), p, q, objs, b.objs)
                        && Added(old(table.Now()), table.Now(), BufPins(b)) && CookiesGot(table.Now(), q, b.objs)
  {
    hide Held, Restored, Undone, StraysAt, FailsAt, Rest, NoneToHave, SameNames, Added, CookiesGot, DescsAs, Prompts.Prompted, A.AllocatedAt, IsBestFit, Rollback.Grown;
    var buffer := TakeBuffer(arena, dataSize, offsetsSize, async, fault);
    if buffer.None? {
      return NoBuffer;
    }
    var ok, done := table.SendObjects(p, q, target, objs, memory);
    if ok {
      return Sent(buffer.value);
    }
    GiveBuffer(arena, buffer.value, old(arena.blocks), old(arena.pages[..]), old(arena.freeAsync));
    return BadObject(done);
  }
}
