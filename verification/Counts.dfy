/** Every operation on nodes and references keeps the counts exact. */
module Counts {
  import opened Wrappers
  import opened Store

  // ---- changing one node ----

  /** `w'` may replace node `n`: same place, same references, and the counts that go with `pins'`. */
  ghost predicate MayReplace(s: State, n: NodeId, w: Node, pins: multiset<Pin>)
    requires n in s.nodes
  {
    && w.proc == s.nodes[n].proc && w.ptr == s.nodes[n].ptr && w.refs == s.nodes[n].refs
    && w.internalStrong == s.nodes[n].internalStrong
    && FlagsOk(w) && LocalOk(WithNode(s, n, w), n, pins)
    && (w.proc.None? ==> w.localStrong == 0 && w.localWeak == 0 && !w.queued)
    && (s.manager == Some(n) ==> w.hasStrong && w.hasWeak)
  }

  /** The pins on every node but `n` are the same. */
  ghost predicate PinsBut(s: State, n: NodeId, pins: multiset<Pin>, pins': multiset<Pin>)
    requires n in s.nodes
  {
    forall p, ptr, strong :: s.nodes[n].proc != Some(p) || ptr != s.nodes[n].ptr ==>
      pins[NodePin(p, ptr, strong)] == pins'[NodePin(p, ptr, strong)]
  }

  lemma ReplaceNode(s: State, n: NodeId, w: Node, pins: multiset<Pin>, pins': multiset<Pin>)
    requires Sound(s, pins) && n in s.nodes && MayReplace(s, n, w, pins') && PinsBut(s, n, pins, pins')
    ensures Sound(WithNode(s, n, w), pins')
  {
    var s' := WithNode(s, n, w);
    assert NodeSound(s, n, pins);
    ReplaceKeys(s, n, w);
    ReplacePins(s, n, w, pins, pins');
    hide KeysOk, RefsOk, PinsOk, PinsBut, NodeSound;
    SelfNode(s, n, w, pins, pins');
    forall m | m in s'.nodes ensures NodeSound(s', m, pins') {
      if m != n {
        PlaceOf(s, n, pins);
        OtherNode(s, n, w, m, pins, pins');
      }
    }
  }

  lemma PlaceOf(s: State, n: NodeId, pins: multiset<Pin>)
    requires n in s.nodes && NodeSound(s, n, pins)
    ensures NodeOk(s, n)
  {
  }

  lemma SelfNode(s: State, n: NodeId, w: Node, pins: multiset<Pin>, pins': multiset<Pin>)
    requires n in s.nodes && NodeSound(s, n, pins) && MayReplace(s, n, w, pins')
    ensures NodeSound(WithNode(s, n, w), n, pins')
  {
  }

  lemma OtherNode(s: State, n: NodeId, w: Node, m: NodeId, pins: multiset<Pin>, pins': multiset<Pin>)
    requires n in s.nodes && m in s.nodes && m != n && NodeOk(s, n) && NodeSound(s, m, pins) && PinsBut(s, n, pins, pins')
    ensures NodeSound(WithNode(s, n, w), m, pins')
  {
  }

  lemma ReplaceKeys(s: State, n: NodeId, w: Node)
    requires KeysOk(s) && RefsOk(s) && n in s.nodes
    requires w.proc == s.nodes[n].proc && w.ptr == s.nodes[n].ptr && w.refs == s.nodes[n].refs
    ensures KeysOk(WithNode(s, n, w)) && RefsOk(WithNode(s, n, w))
  {
    var s' := WithNode(s, n, w);
    forall k | k in s'.nodeAt ensures NodeKeyOk(s', k) {
      assert NodeKeyOk(s, k);
    }
    forall k | k in s'.refAt ensures DescKeyOk(s', k) {
      assert DescKeyOk(s, k);
    }
    forall k | k in s'.refFor ensures ForKeyOk(s', k) {
      assert ForKeyOk(s, k);
    }
    forall p | p in s'.descs ensures DescsOk(s', p) {
      assert DescsOk(s, p);
    }
    forall r | r in s'.refs ensures RefOk(s', r) {
      assert RefOk(s, r);
    }
  }

  lemma ReplacePins(s: State, n: NodeId, w: Node, pins: multiset<Pin>, pins': multiset<Pin>)
    requires PinsOk(s, pins) && n in s.nodes && NodeOk(s, n) && PinsBut(s, n, pins, pins')
    requires s.nodes[n].proc.None? ==> w.proc.None?
    ensures PinsOk(WithNode(s, n, w), pins')
  {
    forall k: Pin | k in pins' && k.NodePin? ensures NodeKey(k.proc, k.ptr) in s.nodeAt {
      if s.nodes[n].proc == Some(k.proc) && s.nodes[n].ptr == k.ptr {
      } else {
        assert pins[NodePin(k.proc, k.ptr, k.strong)] == pins'[NodePin(k.proc, k.ptr, k.strong)];
      }
    }
  }

  // ---- dropping a node ----

  lemma DropSound(s: State, n: NodeId, pins: multiset<Pin>)
    requires Sound(s, pins) && n in s.nodes && s.nodes[n].refs == {} && s.nodes[n].localStrong == 0 && s.nodes[n].localWeak == 0
    ensures s.manager != Some(n)
    ensures Sound(DropNode(s, n), pins)
  {
    var s' := DropNode(s, n);
    assert NodeSound(s, n, pins);
    DropKeys(s, n);
    hide KeysOk, RefsOk, StrongRefs;
    forall m | m in s'.nodes ensures NodeSound(s', m, pins) {
      assert NodeSound(s, m, pins);
      DropOther(s, n, m, pins);
    }
    hide NodesOk, NodeSound;
    forall k: Pin | k in pins && k.NodePin? ensures NodeKey(k.proc, k.ptr) in s'.nodeAt {
      assert k == NodePin(k.proc, k.ptr, k.strong);
    }
  }

  lemma DropOther(s: State, n: NodeId, m: NodeId, pins: multiset<Pin>)
    requires n in s.nodes && m in s.nodes && m != n && NodeOk(s, n) && NodeSound(s, m, pins)
    ensures NodeSound(DropNode(s, n), m, pins)
  {
  }

  lemma DropKeys(s: State, n: NodeId)
    requires KeysOk(s) && RefsOk(s) && n in s.nodes && NodeOk(s, n) && s.nodes[n].refs == {}
    ensures KeysOk(DropNode(s, n)) && RefsOk(DropNode(s, n))
  {
    var s' := DropNode(s, n);
    forall k | k in s'.nodeAt ensures NodeKeyOk(s', k) {
      assert NodeKeyOk(s, k);
    }
    forall k | k in s'.refAt ensures DescKeyOk(s', k) {
      assert DescKeyOk(s, k);
    }
    forall k | k in s'.refFor ensures ForKeyOk(s', k) {
      assert ForKeyOk(s, k);
    }
    forall p | p in s'.descs ensures DescsOk(s', p) {
      assert DescsOk(s, p);
    }
    forall r | r in s'.refs ensures RefOk(s', r) {
      assert RefOk(s, r);
    }
  }

  // ---- local counts ----

  /** The pin a local count of live node `n` stands for. */
  function PinOn(s: State, n: NodeId, strong: bool): Pin
    requires n in s.nodes && s.nodes[n].proc.Some?
  {
    NodePin(s.nodes[n].proc.value, s.nodes[n].ptr, strong)
  }

  lemma Here(s: State, n: NodeId, pins: multiset<Pin>)
    requires Sound(s, pins) && n in s.nodes
    ensures NodeSound(s, n, pins)
    ensures s.manager == Some(n) ==> s.nodes[n].proc.Some? && s.nodes[n].hasStrong && s.nodes[n].hasWeak
  {
  }

  lemma PinsAdd(s: State, n: NodeId, strong: bool, pins: multiset<Pin>)
    requires n in s.nodes && s.nodes[n].proc.Some?
    ensures PinsBut(s, n, pins, pins + multiset{PinOn(s, n, strong)})
    ensures PinOn(s, n, strong) in pins ==> PinsBut(s, n, pins, pins - multiset{PinOn(s, n, strong)})
  {
  }

  lemma IncLocal(s: State, n: NodeId, strong: bool, list: bool, pins: multiset<Pin>)
    requires Sound(s, pins) && n in s.nodes && s.nodes[n].proc.Some?
    ensures Sound(WithNode(s, n, Incremented(s, n, strong, false, list)), pins + multiset{PinOn(s, n, strong)})
  {
    hide Sound, PinsBut;
    Here(s, n, pins);
    PinsAdd(s, n, strong, pins);
    hide ListOk;
    IncrementedFits(s, n, strong, list, pins);
    hide Incremented, LocalOk, MayReplace;
    ReplaceNode(s, n, Incremented(s, n, strong, false, list), pins, pins + multiset{PinOn(s, n, strong)});
  }

  lemma IncrementedFits(s: State, n: NodeId, strong: bool, list: bool, pins: multiset<Pin>)
    requires n in s.nodes && s.nodes[n].proc.Some? && LocalOk(s, n, pins) && FlagsOk(s.nodes[n])
    requires s.manager == Some(n) ==> s.nodes[n].hasStrong && s.nodes[n].hasWeak
    ensures MayReplace(s, n, Incremented(s, n, strong, false, list), pins + multiset{PinOn(s, n, strong)})
  {
    PinCounts(s.nodes[n].proc.value, s.nodes[n].ptr, strong, pins);
    var w := Incremented(s, n, strong, false, list);
    assert w.localStrong == s.nodes[n].localStrong + One(strong) && w.localWeak == s.nodes[n].localWeak + One(!strong);
    IncrementedSame(s, n, strong, list);
    hide Incremented, FlagsOk;
  }

  lemma IncrementedSame(s: State, n: NodeId, strong: bool, list: bool)
    requires n in s.nodes
    ensures var w := Incremented(s, n, strong, false, list);
            w == s.nodes[n].(localStrong := w.localStrong, localWeak := w.localWeak, queued := w.queued)
    ensures FlagsOk(s.nodes[n]) ==> FlagsOk(Incremented(s, n, strong, false, list))
  {
  }

  lemma PinCounts(p: Pid, ptr: Ptr, strong: bool, pins: multiset<Pin>)
    ensures var more := pins + multiset{NodePin(p, ptr, strong)};
            && more[NodePin(p, ptr, true)] == pins[NodePin(p, ptr, true)] + One(strong)
            && more[NodePin(p, ptr, false)] == pins[NodePin(p, ptr, false)] + One(!strong)
  {
  }

  /** What `binder_dec_node` does to a node after the count went down. */
  function Settled(s: State, n: NodeId, strong: bool): State
    requires n in s.nodes
  {
    var w := s.nodes[n];
    if (if strong then w.localStrong != 0 || w.internalStrong != 0 else w.localWeak != 0 || w.refs != {}) then s
    else if w.proc.Some? && (w.hasStrong || w.hasWeak) then WithNode(s, n, w.(queued := true))
    else if w.refs == {} && w.localStrong == 0 && w.localWeak == 0 then DropNode(s, n)
    else s
  }

  lemma SettledIs(s: State, n: NodeId, strong: bool, internal: bool)
    requires n in s.nodes
    ensures DecNode(s, n, strong, internal) == Settled(WithNode(s, n, Lowered(s.nodes[n], strong, internal)), n, strong)
  {
    var w := Lowered(s.nodes[n], strong, internal);
    var s1 := WithNode(s, n, w);
    assert WithNode(s1, n, w.(queued := true)) == WithNode(s, n, w.(queued := true));
    assert DropNode(s1, n).nodes == s.nodes - {n};
  }

  /** Settling keeps the counts exact, and what is left is wanted. */
  lemma SettledKeeps(s: State, n: NodeId, strong: bool, pins: multiset<Pin>)
    requires Sound(s, pins) && WantedBut(s, Some(n)) && n in s.nodes
    ensures Inv(Settled(s, n, strong), pins)
  {
    hide Sound;
    Here(s, n, pins);
    StrongHeld(s, n, pins);
    Unsigned(s, n, pins);
    hide ListOk;
    var w := s.nodes[n];
    if w.proc.Some? && (w.hasStrong || w.hasWeak) {
      assert PinsBut(s, n, pins, pins);
      ReplaceNode(s, n, w.(queued := true), pins, pins);
    } else if w.refs == {} && w.localStrong == 0 && w.localWeak == 0 {
      DropSound(s, n, pins);
    }
  }

  lemma Unsigned(s: State, n: NodeId, pins: multiset<Pin>)
    requires n in s.nodes && NodeSound(s, n, pins)
    ensures s.nodes[n].localStrong >= 0 && s.nodes[n].localWeak >= 0
  {
  }

  lemma LoweredSound(s: State, n: NodeId, strong: bool, pins: multiset<Pin>)
    requires Sound(s, pins) && n in s.nodes && s.nodes[n].proc.Some? && PinOn(s, n, strong) in pins
    ensures Sound(WithNode(s, n, Lowered(s.nodes[n], strong, false)), pins - multiset{PinOn(s, n, strong)})
  {
    hide Sound, PinsBut;
    Here(s, n, pins);
    PinsAdd(s, n, strong, pins);
    hide ListOk;
    ReplaceNode(s, n, Lowered(s.nodes[n], strong, false), pins, pins - multiset{PinOn(s, n, strong)});
  }

  /** Giving up a local count: the node that is left, if any, still has exact counts, and is wanted. */
  lemma DecLocal(s: State, n: NodeId, strong: bool, pins: multiset<Pin>)
    requires Sound(s, pins) && WantedBut(s, Some(n)) && n in s.nodes && s.nodes[n].proc.Some? && PinOn(s, n, strong) in pins
    ensures Inv(DecNode(s, n, strong, false), pins - multiset{PinOn(s, n, strong)})
  {
    hide Sound;
    LoweredSound(s, n, strong, pins);
    SettledIs(s, n, strong, false);
    SettledKeeps(WithNode(s, n, Lowered(s.nodes[n], strong, false)), n, strong, pins - multiset{PinOn(s, n, strong)});
  }

  /** A node with an internal strong count has a reference. */
  lemma StrongHeld(s: State, n: NodeId, pins: multiset<Pin>)
    requires n in s.nodes && ListOk(s, n)
    ensures s.nodes[n].internalStrong >= 0
    ensures s.nodes[n].internalStrong > 0 ==> s.nodes[n].refs != {}
  {
    if s.nodes[n].refs == {} {
      assert StrongRefs(s.refs, s.nodes[n].refs) == {};
    }
  }

  /** An acknowledgement that was owed: its local count goes. */
  function Acknowledged(s: State, n: NodeId, strong: bool): State
    requires n in s.nodes
  {
    var w := s.nodes[n];
    DecNode(WithNode(s, n, if strong then w.(pendingStrong := false) else w.(pendingWeak := false)), n, strong, false)
  }

  lemma AckKeeps(s: State, n: NodeId, strong: bool, pins: multiset<Pin>)
    requires Inv(s, pins) && n in s.nodes && s.nodes[n].proc.Some?
    requires if strong then s.nodes[n].pendingStrong else s.nodes[n].pendingWeak
    ensures Inv(Acknowledged(s, n, strong), pins)
  {
    hide Sound, PinsBut, DecNode;
    var w := if strong then s.nodes[n].(pendingStrong := false) else s.nodes[n].(pendingWeak := false);
    var pin := PinOn(s, n, strong);
    AckCleared(s, n, strong, pins, w);
    DecLocal(WithNode(s, n, w), n, strong, pins + multiset{pin});
    assert pins + multiset{pin} - multiset{pin} == pins;
  }

  /** The cleared acknowledgement leaves a count over, which is as good as a pin. */
  lemma AckCleared(s: State, n: NodeId, strong: bool, pins: multiset<Pin>, w: Node)
    requires Sound(s, pins) && n in s.nodes && s.nodes[n].proc.Some?
    requires if strong then s.nodes[n].pendingStrong else s.nodes[n].pendingWeak
    requires w == if strong then s.nodes[n].(pendingStrong := false) else s.nodes[n].(pendingWeak := false)
    ensures Sound(WithNode(s, n, w), pins + multiset{PinOn(s, n, strong)})
  {
    hide Sound, PinsBut;
    Here(s, n, pins);
    PinsAdd(s, n, strong, pins);
    hide ListOk;
    PinCounts(s.nodes[n].proc.value, s.nodes[n].ptr, strong, pins);
    ReplaceNode(s, n, w, pins, pins + multiset{PinOn(s, n, strong)});
  }

  // ---- the counts of a reference ----

  /** Reference `r` may get counts `ref`, and its node become `w`. */
  ghost predicate MayRecount(s: State, r: RefId, ref: Ref, w: Node)
    requires r in s.refs && s.refs[r].node in s.nodes
  {
    var v := s.nodes[s.refs[r].node];
    && ref.proc == s.refs[r].proc && ref.desc == s.refs[r].desc && ref.node == s.refs[r].node
    && w == v.(internalStrong := w.internalStrong, queued := w.queued)
    && w.internalStrong == v.internalStrong + One(ref.strong > 0) - One(s.refs[r].strong > 0)
    && (w.queued ==> w.proc.Some?)
  }

  lemma Recount(s: State, r: RefId, ref: Ref, w: Node, pins: multiset<Pin>)
    requires Sound(s, pins) && r in s.refs && s.refs[r].node in s.nodes && MayRecount(s, r, ref, w)
    ensures Sound(WithCounts(s, r, ref, w), pins)
  {
    var s' := WithCounts(s, r, ref, w);
    RecountKeys(s, r, ref, w);
    hide KeysOk;
    forall m | m in s'.nodes ensures NodeSound(s', m, pins) {
      assert NodeSound(s, m, pins);
      assert RefOk(s, r);
      RecountNode(s, r, ref, w, m, pins);
    }
  }

  lemma RecountNode(s: State, r: RefId, ref: Ref, w: Node, m: NodeId, pins: multiset<Pin>)
    requires r in s.refs && RefOk(s, r) && MayRecount(s, r, ref, w) && m in s.nodes && NodeSound(s, m, pins)
    ensures NodeSound(WithCounts(s, r, ref, w), m, pins)
  {
    RecountStrong(s.refs, r, ref, s.nodes[m].refs);
    hide StrongRefs;
    assert m != ref.node ==> r !in s.nodes[m].refs;
  }

  lemma RecountStrong(refs: map<RefId, Ref>, r: RefId, ref: Ref, rs: set<RefId>)
    requires r in refs
    ensures |StrongRefs(refs[r := ref], rs)| ==
              |StrongRefs(refs, rs)| + if r in rs then One(ref.strong > 0) - One(refs[r].strong > 0) else 0
  {
    var a, b := StrongRefs(refs, rs), StrongRefs(refs[r := ref], rs);
    if r !in rs || (ref.strong > 0 <==> refs[r].strong > 0) {
      assert b == a;
    } else if ref.strong > 0 {
      assert b == a + {r} && r !in a;
    } else {
      assert b == a - {r} && r in a;
    }
  }

  lemma RecountKeys(s: State, r: RefId, ref: Ref, w: Node)
    requires KeysOk(s) && RefsOk(s) && r in s.refs && s.refs[r].node in s.nodes && MayRecount(s, r, ref, w)
    ensures KeysOk(WithCounts(s, r, ref, w)) && RefsOk(WithCounts(s, r, ref, w))
  {
    var s' := WithCounts(s, r, ref, w);
    forall k | k in s'.nodeAt ensures NodeKeyOk(s', k) {
      assert NodeKeyOk(s, k);
    }
    forall k | k in s'.refAt ensures DescKeyOk(s', k) {
      assert DescKeyOk(s, k);
    }
    forall k | k in s'.refFor ensures ForKeyOk(s', k) {
      assert ForKeyOk(s, k);
    }
    forall p | p in s'.descs ensures DescsOk(s', p) {
      assert DescsOk(s, p);
    }
    forall q | q in s'.refs ensures RefOk(s', q) {
      assert RefOk(s, q);
    }
  }

  lemma RefHere(s: State, r: RefId, pins: multiset<Pin>)
    requires Sound(s, pins) && r in s.refs
    ensures RefOk(s, r) && s.refs[r].node in s.nodes && NodeSound(s, s.refs[r].node, pins)
    ensures s.refs[r].strong > 0 ==> s.nodes[s.refs[r].node].internalStrong > 0
  {
    assert RefOk(s, r);
    var n := s.refs[r].node;
    assert NodeSound(s, n, pins);
    if s.refs[r].strong > 0 {
      assert r in StrongRefs(s.refs, s.nodes[n].refs);
    }
  }

  /** `binder_inc_ref` on a node that, if there is a list to use, is alive. */
  lemma IncRefKeeps(s: State, r: RefId, strong: bool, list: bool, pins: multiset<Pin>)
    requires Inv(s, pins) && r in s.refs && s.refs[r].node in s.nodes
    requires list ==> s.nodes[s.refs[r].node].proc.Some?
    ensures Inv(IncRef(s, r, strong, list), pins)
  {
    hide Sound;
    RefHere(s, r, pins);
    hide ListOk, LocalOk;
    if !RefRefused(s, r, strong, list) {
      var w := if (if strong then s.refs[r].strong == 0 else s.refs[r].weak == 0)
               then Incremented(s, s.refs[r].node, strong, true, list) else s.nodes[s.refs[r].node];
      Recount(s, r, Raised(s.refs[r], strong), w, pins);
    }
  }

  // ---- a reference goes ----

  lemma UnrefKeeps(s: State, r: RefId, pins: multiset<Pin>)
    requires Sound(s, pins) && r in s.refs && s.refs[r].node in s.nodes && s.refs[r].strong == 0
    ensures Sound(Unref(s, r), pins)
  {
    hide KeysOk, RefsOk, NodeSound;
    var s' := Unref(s, r);
    RefPlace(s, r);
    UnrefKeys(s, r);
    forall m | m in s'.nodes ensures NodeSound(s', m, pins) {
      assert NodeSound(s, m, pins);
      UnrefNode(s, r, m, pins);
    }
  }

  lemma RefPlace(s: State, r: RefId)
    requires RefsOk(s) && r in s.refs
    ensures RefOk(s, r)
  {
  }

  lemma UnrefNode(s: State, r: RefId, m: NodeId, pins: multiset<Pin>)
    requires r in s.refs && RefOk(s, r) && s.refs[r].strong == 0 && m in s.nodes && NodeSound(s, m, pins)
    ensures NodeSound(Unref(s, r), m, pins)
  {
    var s' := Unref(s, r);
    assert StrongRefs(s'.refs, s'.nodes[m].refs) == StrongRefs(s.refs, s.nodes[m].refs);
  }

  lemma UnrefKeys(s: State, r: RefId)
    requires KeysOk(s) && RefsOk(s) && r in s.refs && s.refs[r].node in s.nodes
    ensures KeysOk(Unref(s, r)) && RefsOk(Unref(s, r))
  {
    hide NodeKeyOk, DescKeyOk, ForKeyOk, DescsOk, RefOk, Unref;
    UnrefParts(s, r);
    var s' := Unref(s, r);
    forall k | k in s'.nodeAt ensures NodeKeyOk(s', k) {
      assert NodeKeyOk(s, k);
      UnrefNodeKey(s, r, k);
    }
    assert RefOk(s, r);
    forall k | k in s'.refAt ensures DescKeyOk(s', k) {
      assert DescKeyOk(s, k);
      UnrefDescKey(s, r, k);
    }
    forall k | k in s'.refFor ensures ForKeyOk(s', k) {
      assert ForKeyOk(s, k);
      UnrefForKey(s, r, k);
    }
    forall p | p in s'.descs ensures DescsOk(s', p) {
      assert DescsOk(s, p);
      UnrefDescs(s, r, p);
    }
    forall q | q in s'.refs ensures RefOk(s', q) {
      assert RefOk(s, q);
      UnrefRef(s, r, q);
    }
  }

  lemma UnrefParts(s: State, r: RefId)
    requires r in s.refs && s.refs[r].node in s.nodes
    ensures var s' := Unref(s, r);
            && s'.nodeAt == s.nodeAt && s'.refAt.Keys <= s.refAt.Keys && s'.refFor.Keys <= s.refFor.Keys
            && s'.descs.Keys == s.descs.Keys && s'.refs.Keys == s.refs.Keys - {r}
  {
  }

  lemma UnrefNodeKey(s: State, r: RefId, k: NodeKey)
    requires r in s.refs && s.refs[r].node in s.nodes && k in s.nodeAt && NodeKeyOk(s, k)
    ensures NodeKeyOk(Unref(s, r), k)
  {
  }

  lemma UnrefDescKey(s: State, r: RefId, k: DescKey)
    requires r in s.refs && RefOk(s, r) && k in s.refAt && DescKeyOk(s, k) && k in Unref(s, r).refAt
    ensures DescKeyOk(Unref(s, r), k)
  {
  }

  lemma UnrefForKey(s: State, r: RefId, k: ForKey)
    requires r in s.refs && RefOk(s, r) && k in s.refFor && ForKeyOk(s, k) && k in Unref(s, r).refFor
    ensures ForKeyOk(Unref(s, r), k)
  {
  }

  lemma UnrefDescs(s: State, r: RefId, p: Pid)
    requires r in s.refs && RefOk(s, r) && p in s.descs && DescsOk(s, p)
    ensures DescsOk(Unref(s, r), p)
  {
    if p == s.refs[r].proc {
      RemovedIs(s.descs[p], s.refs[r].desc);
    }
  }

  lemma UnrefRef(s: State, r: RefId, q: RefId)
    requires r in s.refs && RefOk(s, r) && q in s.refs && q != r && RefOk(s, q)
    ensures RefOk(Unref(s, r), q)
  {
  }

  lemma WeakenedKeeps(s: State, r: RefId, pins: multiset<Pin>)
    requires Sound(s, pins) && WantedBut(s, None) && r in s.refs && s.refs[r].node in s.nodes
    ensures Sound(Weakened(s, r), pins) && WantedBut(Weakened(s, r), None)
  {
    hide Sound;
    RefHere(s, r, pins);
    hide ListOk, LocalOk;
    if s.refs[r].strong > 0 {
      Recount(s, r, s.refs[r].(strong := 0), LostStrong(s.nodes[s.refs[r].node]), pins);
    }
  }

  /** A reference can be deleted at any time; its node goes with it when nothing else is left of it. */
  lemma DeleteRefKeeps(s: State, r: RefId, pins: multiset<Pin>)
    requires Inv(s, pins) && r in s.refs && s.refs[r].node in s.nodes
    ensures Inv(DeleteRef(s, r), pins)
  {
    hide Sound, Weakened, Unref, DecNode, Settled, WantedBut, Wanted;
    var n := s.refs[r].node;
    WeakenedKeeps(s, r, pins);
    WeakenedRef(s, r);
    UnrefKeeps(Weakened(s, r), r, pins);
    UnrefWanted(Weakened(s, r), r);
    var s1 := Unref(Weakened(s, r), r);
    SettledIs(s1, n, false, true);
    assert WithNode(s1, n, Lowered(s1.nodes[n], false, true)) == s1;
    SettledKeeps(s1, n, false, pins);
  }

  lemma WeakenedRef(s: State, r: RefId)
    requires r in s.refs && s.refs[r].node in s.nodes
    ensures var t := Weakened(s, r); r in t.refs && t.refs[r].node == s.refs[r].node && s.refs[r].node in t.nodes && t.refs[r].strong == 0
  {
    hide LostStrong;
  }

  lemma UnrefWanted(s: State, r: RefId)
    requires WantedBut(s, None) && r in s.refs && s.refs[r].node in s.nodes
    ensures s.refs[r].node in Unref(s, r).nodes && WantedBut(Unref(s, r), Some(s.refs[r].node))
  {
    hide Wanted;
  }

  lemma DecRefKeeps(s: State, r: RefId, strong: bool, pins: multiset<Pin>)
    requires Inv(s, pins) && r in s.refs && s.refs[r].node in s.nodes
    ensures Inv(DecRef(s, r, strong), pins)
  {
    hide Sound, DeleteRef;
    RefHere(s, r, pins);
    hide ListOk, LocalOk;
    var ref := s.refs[r];
    var n := ref.node;
    if if strong then ref.strong > 0 else ref.weak > 0 {
      var ref' := if strong then ref.(strong := ref.strong - 1) else ref.(weak := ref.weak - 1);
      var w := if strong && ref.strong == 1 then LostStrong(s.nodes[n]) else s.nodes[n];
      Recount(s, r, ref', w, pins);
      var s1 := WithCounts(s, r, ref', w);
      assert !strong ==> s1 == s.(refs := s.refs[r := ref']);
      if ref'.strong == 0 && ref'.weak == 0 {
        DeleteRefKeeps(s1, r, pins);
      }
    }
  }

  // ---- a new reference, a new node ----

  lemma NewRefKeeps(s: State, p: Pid, n: NodeId, r: RefId, pins: multiset<Pin>)
    requires Sound(s, pins) && WantedBut(s, Some(n)) && n in s.nodes && p in s.descs
    requires ForKey(p, n) !in s.refFor && r !in s.refs
    ensures Inv(NewRef(s, p, n, r), pins)
    ensures LeastFree(s.descs[p], StartFor(s, n), NewRef(s, p, n, r).refs[r].desc)
  {
    hide RefsOk, NodeSound, FirstFree, NodeKeyOk, DescKeyOk, ForKeyOk;
    assert DescsOk(s, p);
    DescriptorIsLeast(s.descs[p], StartFor(s, n));
    hide KeysOk, DescsOk;
    NewRefKeys(s, p, n, r);
    hide LeastFree;
    var s' := NewRef(s, p, n, r);
    forall m | m in s'.nodes ensures NodeSound(s', m, pins) {
      NewRefNode(s, p, n, r, m, pins);
    }
  }

  lemma NewRefNode(s: State, p: Pid, n: NodeId, r: RefId, m: NodeId, pins: multiset<Pin>)
    requires n in s.nodes && p in s.descs && r !in s.refs && m in s.nodes && NodeSound(s, m, pins)
    ensures NodeSound(NewRef(s, p, n, r), m, pins)
  {
    var s' := NewRef(s, p, n, r);
    hide FirstFree, Inserted;
    assert StrongRefs(s'.refs, s'.nodes[m].refs) == StrongRefs(s.refs, s.nodes[m].refs);
  }

  lemma NewRefKeys(s: State, p: Pid, n: NodeId, r: RefId)
    requires KeysOk(s) && RefsOk(s) && n in s.nodes && p in s.descs && ForKey(p, n) !in s.refFor && r !in s.refs
    requires FirstFree(s.descs[p], StartFor(s, n)) !in s.descs[p]
    ensures KeysOk(NewRef(s, p, n, r)) && RefsOk(NewRef(s, p, n, r))
  {
    hide NodeKeyOk, DescKeyOk, ForKeyOk, DescsOk, RefOk, NewRef, FirstFree;
    NewRefParts(s, p, n, r);
    var s' := NewRef(s, p, n, r);
    forall k | k in s'.nodeAt ensures NodeKeyOk(s', k) {
      assert NodeKeyOk(s, k);
      NewRefNodeKey(s, p, n, r, k);
    }
    forall k | k in s'.refAt ensures DescKeyOk(s', k) {
      assert k in s.refAt ==> DescKeyOk(s, k);
      NewRefDescKey(s, p, n, r, k);
    }
    forall k | k in s'.refFor ensures ForKeyOk(s', k) {
      assert k in s.refFor ==> ForKeyOk(s, k);
      NewRefForKey(s, p, n, r, k);
    }
    forall q | q in s'.descs ensures DescsOk(s', q) {
      assert DescsOk(s, q);
      NewRefDescs(s, p, n, r, q);
    }
    assert DescsOk(s, p);
    forall q | q in s'.refs ensures RefOk(s', q) {
      assert q != r ==> RefOk(s, q);
      NewRefRef(s, p, n, r, q);
    }
  }

  lemma NewRefParts(s: State, p: Pid, n: NodeId, r: RefId)
    requires n in s.nodes && p in s.descs
    ensures var s' := NewRef(s, p, n, r);
            s'.nodeAt == s.nodeAt && s'.descs.Keys == s.descs.Keys && s'.refs.Keys == s.refs.Keys + {r}
  {
  }

  lemma NewRefNodeKey(s: State, p: Pid, n: NodeId, r: RefId, k: NodeKey)
    requires n in s.nodes && p in s.descs && k in s.nodeAt && NodeKeyOk(s, k)
    ensures NodeKeyOk(NewRef(s, p, n, r), k)
  {
  }

  lemma NewRefDescKey(s: State, p: Pid, n: NodeId, r: RefId, k: DescKey)
    requires n in s.nodes && p in s.descs && r !in s.refs && k in NewRef(s, p, n, r).refAt && (k in s.refAt ==> DescKeyOk(s, k))
    ensures DescKeyOk(NewRef(s, p, n, r), k)
  {
  }

  lemma NewRefForKey(s: State, p: Pid, n: NodeId, r: RefId, k: ForKey)
    requires n in s.nodes && p in s.descs && r !in s.refs && k in NewRef(s, p, n, r).refFor && (k in s.refFor ==> ForKeyOk(s, k))
    ensures ForKeyOk(NewRef(s, p, n, r), k)
  {
  }

  lemma NewRefDescs(s: State, p: Pid, n: NodeId, r: RefId, q: Pid)
    requires n in s.nodes && p in s.descs && q in s.descs && DescsOk(s, q)
    requires FirstFree(s.descs[p], StartFor(s, n)) !in s.descs[p]
    ensures DescsOk(NewRef(s, p, n, r), q)
  {
    if q == p {
      InsertedIs(s.descs[p], FirstFree(s.descs[p], StartFor(s, n)));
    }
  }

  lemma NewRefRef(s: State, p: Pid, n: NodeId, r: RefId, q: RefId)
    requires n in s.nodes && p in s.descs && r !in s.refs && (q == r || (q in s.refs && RefOk(s, q)))
    requires FirstFree(s.descs[p], StartFor(s, n)) !in s.descs[p] && DescsOk(s, p) && ForKey(p, n) !in s.refFor
    ensures RefOk(NewRef(s, p, n, r), q)
  {
  }

  lemma NewNodeKeeps(s: State, p: Pid, ptr: Ptr, cookie: nat, n: NodeId, pins: multiset<Pin>)
    requires Inv(s, pins) && p in s.descs && NodeKey(p, ptr) !in s.nodeAt && n !in s.nodes
    ensures Sound(NewNode(s, p, ptr, cookie, n), pins) && WantedBut(NewNode(s, p, ptr, cookie, n), Some(n))
  {
    hide NodeSound, NodeKeyOk, DescKeyOk, ForKeyOk, DescsOk, RefOk;
    NewNodeKeys(s, p, ptr, cookie, n);
    hide KeysOk, RefsOk;
    var s' := NewNode(s, p, ptr, cookie, n);
    forall m | m in s'.nodes ensures NodeSound(s', m, pins) {
      NewNodeNode(s, p, ptr, cookie, n, pins, m);
    }
  }

  lemma NewNodeNode(s: State, p: Pid, ptr: Ptr, cookie: nat, n: NodeId, pins: multiset<Pin>, m: NodeId)
    requires p in s.descs && NodeKey(p, ptr) !in s.nodeAt && n !in s.nodes && PinsOk(s, pins) && ManagerOk(s)
    requires m == n || (m in s.nodes && NodeSound(s, m, pins))
    ensures NodeSound(NewNode(s, p, ptr, cookie, n), m, pins)
  {
    if m == n {
      assert NodePin(p, ptr, true) !in pins && NodePin(p, ptr, false) !in pins;
      assert StrongRefs(s.refs, {}) == {};
    }
  }

  lemma NewNodeKeys(s: State, p: Pid, ptr: Ptr, cookie: nat, n: NodeId)
    requires KeysOk(s) && RefsOk(s) && p in s.descs && NodeKey(p, ptr) !in s.nodeAt && n !in s.nodes
    ensures KeysOk(NewNode(s, p, ptr, cookie, n)) && RefsOk(NewNode(s, p, ptr, cookie, n))
  {
    var s' := NewNode(s, p, ptr, cookie, n);
    forall k | k in s'.nodeAt ensures NodeKeyOk(s', k) {
      assert k in s.nodeAt ==> NodeKeyOk(s, k);
    }
    forall k | k in s'.refAt ensures DescKeyOk(s', k) {
      assert DescKeyOk(s, k);
    }
    forall k | k in s'.refFor ensures ForKeyOk(s', k) {
      assert ForKeyOk(s, k);
    }
    forall q | q in s'.descs ensures DescsOk(s', q) {
      assert DescsOk(s, q);
    }
    forall r | r in s'.refs ensures RefOk(s', r) {
      assert RefOk(s, r);
    }
  }
}
