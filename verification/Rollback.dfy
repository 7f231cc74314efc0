/** A transaction under construction adds to the counts; taking back what it added restores them. */
module Rollback {
  import opened Wrappers
  import opened Store
  import opened Counts

  /** What an object in a buffer of process `q` pins. */
  datatype Obj = Binder(ptr: Ptr, cookie: nat, strong: bool) | Handle(desc: nat, strong: bool)

  function PinFor(q: Pid, o: Obj): Pin {
    match o
    case Binder(ptr, _, strong) => NodePin(q, ptr, strong)
    case Handle(desc, strong) => RefPin(q, desc, strong)
  }

  function PinsFor(q: Pid, objs: seq<Obj>): multiset<Pin> {
    if objs == [] then multiset{} else multiset{PinFor(q, objs[0])} + PinsFor(q, objs[1..])
  }

  lemma {:induction false} PinsMore(q: Pid, objs: seq<Obj>, o: Obj)
    ensures PinsFor(q, objs + [o]) == PinsFor(q, objs) + multiset{PinFor(q, o)}
  {
    if objs == [] {
      assert objs + [o] == [o];
    } else {
      assert (objs + [o])[1..] == objs[1..] + [o];
      PinsMore(q, objs[1..], o);
    }
  }

  // ---- growth ----

  /** A node nothing stands for but its work item. */
  predicate Idle(w: Node) {
    w.refs == {} && w.localStrong == 0 && w.localWeak == 0 && !w.hasStrong && !w.hasWeak
  }

  /** Nothing counted stands for node `n`, whose owner, if there is one, was told nothing. */
  ghost predicate Loose(s: State, n: NodeId)
    requires n in s.nodes
  {
    var w := s.nodes[n];
    && w.localStrong == 0 && w.localWeak == 0 && (w.proc.Some? ==> !w.hasStrong && !w.hasWeak)
    && forall r :: r in w.refs && r in s.refs ==> Empty(s.refs[r])
  }

  /** A node that settling lets go. */
  predicate Spent(w: Node) {
    w.refs == {} && w.localStrong == 0 && w.localWeak == 0 && (w.proc.Some? ==> !w.hasStrong && !w.hasWeak)
  }

  /** Node `w` is `w0` with the local pins of `more` on it. */
  predicate NodeGrown(w0: Node, w: Node, more: multiset<Pin>) {
    && w.proc == w0.proc && w.ptr == w0.ptr && w.cookie == w0.cookie && w.stray == w0.stray
    && w.hasStrong == w0.hasStrong && w.hasWeak == w0.hasWeak
    && w.pendingStrong == w0.pendingStrong && w.pendingWeak == w0.pendingWeak
    && (w0.queued ==> w.queued)
    && w.localStrong == w0.localStrong + LocalPins(w, more, true)
    && w.localWeak == w0.localWeak + LocalPins(w, more, false)
  }

  function LocalPins(w: Node, more: multiset<Pin>, strong: bool): nat {
    if w.proc.Some? then more[NodePin(w.proc.value, w.ptr, strong)] else 0
  }

  /** A node that came with the transaction: its owner was told nothing, and all it has comes from `more`. */
  predicate NodeBorn(w: Node, more: multiset<Pin>, bare: bool) {
    && w.proc.Some? && !w.hasStrong && !w.hasWeak
    && w.localStrong == LocalPins(w, more, true) && w.localWeak == LocalPins(w, more, false)
    && (bare || w.stray || w.refs != {} || w.localStrong > 0 || w.localWeak > 0)
  }

  predicate RefGrown(r0: Ref, r: Ref, more: multiset<Pin>) {
    && r.proc == r0.proc && r.desc == r0.desc && r.node == r0.node
    && r.strong == r0.strong + more[RefPin(r.proc, r.desc, true)]
    && r.weak == r0.weak + more[RefPin(r.proc, r.desc, false)]
  }

  /** A reference that came with the transaction: all its counts come from `more`. */
  predicate RefBorn(r: Ref, more: multiset<Pin>) {
    r.strong == more[RefPin(r.proc, r.desc, true)] && r.weak == more[RefPin(r.proc, r.desc, false)]
  }

  /** A reference nobody counts. */
  predicate Empty(r: Ref) {
    r.strong == 0 && r.weak == 0
  }

  ghost predicate NodesGrown(s0: State, s: State, more: multiset<Pin>, bare: Option<NodeId>) {
    && (forall n :: n in s.nodes && n in s0.nodes ==> NodeGrown(s0.nodes[n], s.nodes[n], more))
    && (forall n :: n in s0.nodes && n !in s.nodes ==> Loose(s0, n))
    && (forall n :: n in s.nodes && n !in s0.nodes ==> NodeBorn(s.nodes[n], more, bare == Some(n)))
  }

  /** Every counted reference is still there; one that was empty may have gone with its last count. */
  ghost predicate RefsGrown(s0: State, s: State, more: multiset<Pin>) {
    && (forall r :: r in s0.refs && r in s.refs ==> RefGrown(s0.refs[r], s.refs[r], more))
    && (forall r :: r in s0.refs && r !in s.refs ==> Empty(s0.refs[r]))
    && (forall r :: r in s.refs && r !in s0.refs ==> RefBorn(s.refs[r], more))
    && (forall k: Pin :: k in more && k.RefPin? ==> DescKey(k.proc, k.desc) in s.refAt)
  }

  /** `s` is `s0` with the counted pins `more` added, work items apart. */
  ghost predicate Grown(s0: State, s: State, more: multiset<Pin>, bare: Option<NodeId>) {
    && s.descs.Keys == s0.descs.Keys && s.manager == s0.manager
    && NodesGrown(s0, s, more, bare) && RefsGrown(s0, s, more)
  }

  lemma GrownStart(s: State)
    ensures Grown(s, s, multiset{}, None)
  {
  }

  /** Only pins on other nodes and references came or went. */
  ghost predicate SameRefPins(a: multiset<Pin>, b: multiset<Pin>) {
    forall p: Pid, d: nat, strong: bool :: a[RefPin(p, d, strong)] == b[RefPin(p, d, strong)]
  }

  ghost predicate SameNodePins(a: multiset<Pin>, b: multiset<Pin>) {
    forall p: Pid, ptr: Ptr, strong: bool :: a[NodePin(p, ptr, strong)] == b[NodePin(p, ptr, strong)]
  }

  // ---- local pins ----

  ghost predicate OneGrown(s0: State, s: State, more: multiset<Pin>, m: NodeId, bare: bool)
    requires m in s.nodes
  {
    if m in s0.nodes then NodeGrown(s0.nodes[m], s.nodes[m], more) else NodeBorn(s.nodes[m], more, bare)
  }

  lemma NodesOne(s0: State, s: State, more: multiset<Pin>, bare: Option<NodeId>, m: NodeId)
    requires NodesGrown(s0, s, more, bare) && m in s.nodes
    ensures OneGrown(s0, s, more, m, bare == Some(m))
  {
  }

  lemma NodesAll(s0: State, s: State, more: multiset<Pin>, bare: Option<NodeId>)
    requires forall m :: m in s0.nodes && m !in s.nodes ==> Loose(s0, m)
    requires forall m :: m in s.nodes ==> OneGrown(s0, s, more, m, bare == Some(m))
    ensures NodesGrown(s0, s, more, bare)
  {
    hide NodeGrown, NodeBorn, Loose;
    forall m | m in s.nodes ensures OneGrown(s0, s, more, m, bare == Some(m)) {
    }
  }

  lemma NodesMissing(s0: State, s: State, more: multiset<Pin>, bare: Option<NodeId>)
    requires NodesGrown(s0, s, more, bare)
    ensures forall m :: m in s0.nodes && m !in s.nodes ==> Loose(s0, m)
  {
  }

  lemma RefsFrame(s0: State, s: State, s': State, more: multiset<Pin>)
    requires RefsGrown(s0, s, more) && s'.refs == s.refs && s'.refAt == s.refAt
    ensures RefsGrown(s0, s', more)
  {
  }

  lemma RefPinsSame(s0: State, s: State, more: multiset<Pin>, more': multiset<Pin>)
    requires RefsGrown(s0, s, more) && SameRefPins(more, more')
    ensures RefsGrown(s0, s, more')
  {
    forall k: Pin | k in more' && k.RefPin? ensures DescKey(k.proc, k.desc) in s.refAt {
      assert more[RefPin(k.proc, k.desc, k.strong)] == more'[RefPin(k.proc, k.desc, k.strong)];
    }
  }

  lemma Placed(s: State, n: NodeId, m: NodeId, pins: multiset<Pin>)
    requires Sound(s, pins) && n in s.nodes && m in s.nodes
    ensures NodeOk(s, n) && NodeOk(s, m)
  {
    assert NodeSound(s, n, pins) && NodeSound(s, m, pins);
  }

  lemma OtherPins(s: State, n: NodeId, m: NodeId, more: multiset<Pin>, more': multiset<Pin>)
    requires n in s.nodes && m in s.nodes && m != n && NodeOk(s, n) && NodeOk(s, m) && PinsBut(s, n, more, more')
    ensures LocalPins(s.nodes[m], more', true) == LocalPins(s.nodes[m], more, true)
    ensures LocalPins(s.nodes[m], more', false) == LocalPins(s.nodes[m], more, false)
  {
  }

  /** `w` is live node `v` with its local counts changed as the pins on it did. */
  predicate Repinned(v: Node, w: Node, more: multiset<Pin>, more': multiset<Pin>) {
    && w == v.(localStrong := w.localStrong, localWeak := w.localWeak, queued := w.queued) && (v.queued ==> w.queued)
    && w.localStrong - v.localStrong == LocalPins(w, more', true) - LocalPins(w, more, true)
    && w.localWeak - v.localWeak == LocalPins(w, more', false) - LocalPins(w, more, false)
  }

  /** The pins on node `n` change, and its local counts with them. */
  lemma GrowNode(s0: State, s: State, more: multiset<Pin>, more': multiset<Pin>, n: NodeId, w: Node, pins: multiset<Pin>)
    requires Grown(s0, s, more, None) && Sound(s, pins) && n in s.nodes && s.nodes[n].proc.Some?
    requires PinsBut(s, n, more, more') && SameRefPins(more, more') && Repinned(s.nodes[n], w, more, more')
    ensures Grown(s0, WithNode(s, n, w), more', Some(n))
  {
    hide Sound, PinsBut, SameRefPins, LocalPins, RefsGrown, OneGrown, Repinned;
    var s' := WithNode(s, n, w);
    RefPinsSame(s0, s, more, more');
    NodesMissing(s0, s, more, None);
    RefsFrame(s0, s, s', more');
    forall m | m in s.nodes ensures OneGrown(s0, s', more', m, m == n) {
      hide NodesGrown;
      NodesOne(s0, s, more, None, m);
      if m == n {
        GrowSelf(s0, s, more, more', n, w);
      } else {
        Placed(s, n, m, pins);
        OtherPins(s, n, m, more, more');
        GrowOther(s0, s, more, more', n, w, m);
      }
    }
    NodesAll(s0, s', more', Some(n));
  }

  lemma GrowSelf(s0: State, s: State, more: multiset<Pin>, more': multiset<Pin>, n: NodeId, w: Node)
    requires n in s.nodes && OneGrown(s0, s, more, n, false) && Repinned(s.nodes[n], w, more, more')
    ensures OneGrown(s0, WithNode(s, n, w), more', n, true)
  {
  }

  lemma GrowOther(s0: State, s: State, more: multiset<Pin>, more': multiset<Pin>, n: NodeId, w: Node, m: NodeId)
    requires n in s.nodes && m in s.nodes && m != n && OneGrown(s0, s, more, m, false)
    requires LocalPins(s.nodes[m], more', true) == LocalPins(s.nodes[m], more, true)
    requires LocalPins(s.nodes[m], more', false) == LocalPins(s.nodes[m], more, false)
    ensures OneGrown(s0, WithNode(s, n, w), more', m, false)
  {
  }

  /** Node `n` is not bare after all. */
  lemma NotBare(s0: State, s: State, more: multiset<Pin>, n: NodeId)
    requires Grown(s0, s, more, Some(n)) && n in s.nodes
    requires n in s0.nodes || s.nodes[n].stray || s.nodes[n].refs != {} || s.nodes[n].localStrong > 0 || s.nodes[n].localWeak > 0
    ensures Grown(s0, s, more, None)
  {
    hide RefsGrown, NodeGrown;
  }

  lemma NodePinAdds(more: multiset<Pin>, p: Pid, ptr: Ptr, strong: bool)
    ensures SameRefPins(more, more + multiset{NodePin(p, ptr, strong)})
    ensures SameRefPins(more, more - multiset{NodePin(p, ptr, strong)})
  {
  }

  lemma RefPinAdds(more: multiset<Pin>, p: Pid, d: nat, strong: bool)
    ensures SameNodePins(more, more + multiset{RefPin(p, d, strong)})
    ensures SameNodePins(more, more - multiset{RefPin(p, d, strong)})
  {
  }

  /** A pin on node `n` is added. */
  lemma GrowLocal(s0: State, s: State, more: multiset<Pin>, n: NodeId, strong: bool, list: bool, pins: multiset<Pin>)
    requires Grown(s0, s, more, None) && Sound(s, pins) && n in s.nodes && s.nodes[n].proc.Some?
    ensures Grown(s0, WithNode(s, n, Incremented(s, n, strong, false, list)), more + multiset{PinOn(s, n, strong)}, None)
  {
    hide Grown, PinsBut, SameRefPins, Sound, Incremented, Repinned, PinOn;
    var w := Incremented(s, n, strong, false, list);
    var more' := more + multiset{PinOn(s, n, strong)};
    PinsAdd(s, n, strong, more);
    RaisedPins(s, n, strong, list, more);
    GrowNode(s0, s, more, more', n, w, pins);
    RaisedThere(s, n, strong, list, pins);
    NotBare(s0, WithNode(s, n, w), more', n);
  }

  lemma RaisedPins(s: State, n: NodeId, strong: bool, list: bool, more: multiset<Pin>)
    requires n in s.nodes && s.nodes[n].proc.Some?
    ensures Repinned(s.nodes[n], Incremented(s, n, strong, false, list), more, more + multiset{PinOn(s, n, strong)})
    ensures SameRefPins(more, more + multiset{PinOn(s, n, strong)})
  {
    hide SameRefPins;
    NodePinAdds(more, s.nodes[n].proc.value, s.nodes[n].ptr, strong);
    PinCounts(s.nodes[n].proc.value, s.nodes[n].ptr, strong, more);
    IncrementedSame(s, n, strong, list);
    IncrementedCounts(s, n, strong, list);
    hide Incremented;
  }

  lemma RaisedThere(s: State, n: NodeId, strong: bool, list: bool, pins: multiset<Pin>)
    requires Sound(s, pins) && n in s.nodes
    ensures Incremented(s, n, strong, false, list).localStrong > 0 || Incremented(s, n, strong, false, list).localWeak > 0
  {
    hide Sound;
    Here(s, n, pins);
    Unsigned(s, n, pins);
    IncrementedCounts(s, n, strong, list);
    hide Incremented, ListOk, LocalOk;
  }

  lemma IncrementedCounts(s: State, n: NodeId, strong: bool, list: bool)
    requires n in s.nodes
    ensures var w, v := Incremented(s, n, strong, false, list), s.nodes[n];
            && w.localStrong == v.localStrong + One(strong) && w.localWeak == v.localWeak + One(!strong)
            && (v.queued ==> w.queued)
  {
  }

  /** A node of `s0` that is let go now was loose then. */
  lemma LooseThen(s0: State, s: State, more: multiset<Pin>, n: NodeId, pins0: multiset<Pin>, pins: multiset<Pin>)
    requires Sound(s0, pins0) && Sound(s, pins) && RefsGrown(s0, s, more) && n in s0.nodes && n in s.nodes
    requires NodeGrown(s0.nodes[n], s.nodes[n], more) && Spent(s.nodes[n])
    ensures Loose(s0, n)
  {
    forall r | r in s0.nodes[n].refs && r in s0.refs ensures Empty(s0.refs[r]) {
      if r in s.refs {
        LooseRef(s0, s, more, n, pins0, pins, r);
      }
    }
    hide Sound, RefsGrown, LocalPins;
    Here(s0, n, pins0);
    Unsigned(s0, n, pins0);
  }

  lemma LooseRef(s0: State, s: State, more: multiset<Pin>, n: NodeId, pins0: multiset<Pin>, pins: multiset<Pin>, r: RefId)
    requires Sound(s0, pins0) && Sound(s, pins) && RefsGrown(s0, s, more) && n in s0.nodes && n in s.nodes
    requires r in s0.refs && r in s.refs && r in s0.nodes[n].refs
    ensures s.nodes[n].refs != {}
  {
    assert RefGrown(s0.refs[r], s.refs[r], more);
    hide Sound, RefsGrown;
    Here(s0, n, pins0);
    RefHere(s, r, pins);
  }

  /** Settling node `n`: if nothing is left of it, it was idle before or came with the transaction. */
  lemma SettleGrown(s0: State, s: State, more: multiset<Pin>, n: NodeId, strong: bool, pins0: multiset<Pin>, pins: multiset<Pin>)
    requires Grown(s0, s, more, Some(n)) && Inv(s0, pins0) && Sound(s, pins) && n in s.nodes
    ensures Grown(s0, Settled(s, n, strong), more, None)
  {
    hide Sound, RefsGrown, NodesGrown;
    var w := s.nodes[n];
    Here(s, n, pins);
    StrongHeld(s, n, pins);
    Unsigned(s, n, pins);
    NodesOne(s0, s, more, Some(n), n);
    hide ListOk, LocalOk;
    if Spent(w) {
      if n in s0.nodes {
        LooseThen(s0, s, more, n, pins0, pins);
      }
      DropGrown(s0, s, more, n);
    } else {
      NotBare(s0, s, more, n);
      QueueGrown(s0, s, more, n);
    }
  }

  lemma DropGrown(s0: State, s: State, more: multiset<Pin>, n: NodeId)
    requires Grown(s0, s, more, Some(n)) && n in s.nodes && (n in s0.nodes ==> Loose(s0, n))
    ensures Grown(s0, DropNode(s, n), more, None)
  {
    hide NodeGrown, NodeBorn, Loose, RefsGrown;
    RefsFrame(s0, s, DropNode(s, n), more);
  }

  lemma QueueGrown(s0: State, s: State, more: multiset<Pin>, n: NodeId)
    requires Grown(s0, s, more, None) && n in s.nodes
    ensures Grown(s0, WithNode(s, n, s.nodes[n].(queued := true)), more, None)
  {
    hide RefsGrown;
    RefsFrame(s0, s, WithNode(s, n, s.nodes[n].(queued := true)), more);
  }

  lemma LoweredPins(s: State, n: NodeId, strong: bool, more: multiset<Pin>)
    requires n in s.nodes && s.nodes[n].proc.Some? && PinOn(s, n, strong) in more
    ensures Repinned(s.nodes[n], Lowered(s.nodes[n], strong, false), more, more - multiset{PinOn(s, n, strong)})
  {
  }

  /** A pin on node `n` is taken back. */
  lemma ShrinkLocal(s0: State, s: State, more: multiset<Pin>, n: NodeId, strong: bool, pins0: multiset<Pin>, pins: multiset<Pin>)
    requires Grown(s0, s, more, None) && Inv(s0, pins0) && Inv(s, pins) && n in s.nodes && s.nodes[n].proc.Some?
    requires PinOn(s, n, strong) in more && PinOn(s, n, strong) in pins
    ensures Grown(s0, DecNode(s, n, strong, false), more - multiset{PinOn(s, n, strong)}, None)
  {
    var more' := more - multiset{PinOn(s, n, strong)};
    var w := Lowered(s.nodes[n], strong, false);
    hide Sound, PinsBut, SameRefPins, Grown, Settled, Repinned, Wanted;
    PinsAdd(s, n, strong, more);
    LoweredPins(s, n, strong, more);
    NodePinAdds(more, s.nodes[n].proc.value, s.nodes[n].ptr, strong);
    SettledIs(s, n, strong, false);
    GrowNode(s0, s, more, more', n, w, pins);
    LoweredSound(s, n, strong, pins);
    SettleGrown(s0, WithNode(s, n, w), more', n, strong, pins0, pins - multiset{PinOn(s, n, strong)});
  }

  // ---- pins on references ----

  /** `binder_get_ref_for_node`: the reference of process `q` to node `n`, or a new one, `r`. */
  function Linked(s: State, q: Pid, n: NodeId, r: RefId): State
    requires n in s.nodes && q in s.descs
  {
    if ForKey(q, n) in s.refFor then s else NewRef(s, q, n, r)
  }

  function RefTo(s: State, q: Pid, n: NodeId, r: RefId): RefId {
    if ForKey(q, n) in s.refFor then s.refFor[ForKey(q, n)] else r
  }

  lemma LinkedIs(s: State, q: Pid, n: NodeId, r: RefId, pins: multiset<Pin>)
    requires Sound(s, pins) && n in s.nodes && q in s.descs && r !in s.refs
    ensures var s1, r1 := Linked(s, q, n, r), RefTo(s, q, n, r);
            && r1 in s1.refs && s1.refs[r1].proc == q && s1.refs[r1].node == n && n in s1.nodes
            && (r1 in s.refs ==> s1 == s)
            && (r1 !in s.refs ==> s1.refs[r1].strong == 0 && s1.refs[r1].weak == 0 && DescKey(q, s1.refs[r1].desc) !in s.refAt)
  {
    if ForKey(q, n) in s.refFor {
      assert ForKeyOk(s, ForKey(q, n));
    } else {
      assert DescsOk(s, q);
      DescriptorIsLeast(s.descs[q], StartFor(s, n));
    }
  }

  lemma LinkedKeeps(s: State, q: Pid, n: NodeId, r: RefId, pins: multiset<Pin>)
    requires Sound(s, pins) && WantedBut(s, Some(n)) && n in s.nodes && q in s.descs && r !in s.refs
    requires ForKey(q, n) in s.refFor ==> Wanted(s.nodes[n])
    ensures Inv(Linked(s, q, n, r), pins)
  {
    if ForKey(q, n) !in s.refFor {
      hide Sound;
      NewRefKeeps(s, q, n, r, pins);
    }
  }

  /** A reference to `n` and a pin on it are added. */
  function WithPin(s: State, q: Pid, n: NodeId, r: RefId, strong: bool, list: bool): State
    requires n in s.nodes && q in s.descs
  {
    var s1 := Linked(s, q, n, r);
    var r1 := RefTo(s, q, n, r);
    if r1 in s1.refs && s1.refs[r1].node in s1.nodes then IncRef(s1, r1, strong, list) else s1
  }

  /** Node `w` differs from `v` in its references, its internal count and its work item at most. */
  predicate SameStanding(v: Node, w: Node) {
    w == v.(refs := w.refs, internalStrong := w.internalStrong, queued := w.queued) && (v.queued ==> w.queued)
  }

  /** Only node `n` changed, and not in its standing. */
  ghost predicate OnlyNode(s: State, s': State, n: NodeId)
    requires n in s.nodes
  {
    && s'.nodes.Keys == s.nodes.Keys && s'.descs.Keys == s.descs.Keys && s'.manager == s.manager
    && (forall m :: m in s.nodes && m != n ==> s'.nodes[m] == s.nodes[m])
    && SameStanding(s.nodes[n], s'.nodes[n])
  }

  lemma LinkedNodes(s: State, q: Pid, n: NodeId, r: RefId, pins: multiset<Pin>)
    requires Sound(s, pins) && n in s.nodes && q in s.descs && r !in s.refs
    ensures var s1, r1 := Linked(s, q, n, r), RefTo(s, q, n, r);
            && OnlyNode(s, s1, n) && s1.nodes[n].refs != {}
            && r1 in s1.refs && s1.refs == s.refs[r1 := s1.refs[r1]]
            && s1.refAt.Keys == s.refAt.Keys + {DescKey(q, s1.refs[r1].desc)}
            && (r1 in s.refs ==> s1.refs[r1] == s.refs[r1])
  {
    hide Sound, NewRef;
    LinkedIs(s, q, n, r, pins);
    if ForKey(q, n) in s.refFor {
      RefHere(s, RefTo(s, q, n, r), pins);
      hide NodeSound;
    } else {
      NewRefNodes(s, q, n, r);
    }
  }

  lemma NewRefNodes(s: State, q: Pid, n: NodeId, r: RefId)
    requires n in s.nodes && q in s.descs && r !in s.refs
    ensures var s1 := NewRef(s, q, n, r);
            && OnlyNode(s, s1, n) && s1.nodes[n].refs != {}
            && r in s1.refs && s1.refs == s.refs[r := s1.refs[r]]
            && s1.refAt.Keys == s.refAt.Keys + {DescKey(q, s1.refs[r].desc)}
  {
    hide FirstFree, Inserted;
    assert r in NewRef(s, q, n, r).nodes[n].refs;
  }

  lemma IncRefNodes(s: State, r: RefId, strong: bool, list: bool)
    requires r in s.refs && s.refs[r].node in s.nodes
    ensures var s' := IncRef(s, r, strong, list);
            && OnlyNode(s, s', s.refs[r].node) && s'.nodes[s.refs[r].node].refs == s.nodes[s.refs[r].node].refs
            && s'.refAt == s.refAt
            && (!RefRefused(s, r, strong, list) ==> s'.refs == s.refs[r := Raised(s.refs[r], strong)])
  {
    hide Refused;
  }

  lemma WithPinNodes(s: State, q: Pid, n: NodeId, r: RefId, strong: bool, list: bool, pins: multiset<Pin>)
    requires Sound(s, pins) && n in s.nodes && q in s.descs && r !in s.refs
    ensures OnlyNode(s, WithPin(s, q, n, r, strong, list), n)
    ensures WithPin(s, q, n, r, strong, list).nodes[n].refs != {}
  {
    hide Sound;
    LinkedIs(s, q, n, r, pins);
    LinkedNodes(s, q, n, r, pins);
    IncRefNodes(Linked(s, q, n, r), RefTo(s, q, n, r), strong, list);
    hide Linked, RefTo, IncRef;
  }

  lemma WithPinRefs(s: State, q: Pid, n: NodeId, r: RefId, strong: bool, list: bool, pins: multiset<Pin>)
    requires Sound(s, pins) && n in s.nodes && q in s.descs && r !in s.refs
    requires var s1, r1 := Linked(s, q, n, r), RefTo(s, q, n, r);
             r1 in s1.refs && s1.refs[r1].node in s1.nodes && !RefRefused(s1, r1, strong, list)
    ensures var s1, r1, s2 := Linked(s, q, n, r), RefTo(s, q, n, r), WithPin(s, q, n, r, strong, list);
            && s2.refs == s.refs[r1 := Raised(s1.refs[r1], strong)]
            && s2.refAt.Keys == s.refAt.Keys + {DescKey(q, s1.refs[r1].desc)}
            && (r1 in s.refs ==> s1.refs[r1] == s.refs[r1])
            && (r1 !in s.refs ==> s1.refs[r1].strong == 0 && s1.refs[r1].weak == 0)
  {
    hide Sound, RefRefused;
    LinkedIs(s, q, n, r, pins);
    LinkedNodes(s, q, n, r, pins);
    IncRefNodes(Linked(s, q, n, r), RefTo(s, q, n, r), strong, list);
    hide Linked, RefTo, IncRef;
  }

  /** The descriptors of different references of one process differ. */
  lemma DescApart(s: State, a: RefId, b: RefId, pins: multiset<Pin>)
    requires Sound(s, pins) && a in s.refs && b in s.refs && a != b
    ensures s.refs[a].proc != s.refs[b].proc || s.refs[a].desc != s.refs[b].desc
    ensures DescKey(s.refs[a].proc, s.refs[a].desc) in s.refAt
  {
    assert RefOk(s, a) && RefOk(s, b);
  }

  lemma GrowRef(s0: State, s: State, more: multiset<Pin>, bare: Option<NodeId>, q: Pid, n: NodeId, r: RefId, strong: bool, list: bool,
                pins: multiset<Pin>)
    requires Grown(s0, s, more, bare) && Sound(s, pins) && n in s.nodes && q in s.descs && r !in s.refs
    requires (bare == None || bare == Some(n)) && s0.refs.Keys <= s.refs.Keys
    requires var s1, r1 := Linked(s, q, n, r), RefTo(s, q, n, r);
             r1 in s1.refs && s1.refs[r1].node in s1.nodes && !RefRefused(s1, r1, strong, list)
    ensures var s1, r1 := Linked(s, q, n, r), RefTo(s, q, n, r);
            Grown(s0, WithPin(s, q, n, r, strong, list), more + multiset{RefPin(q, s1.refs[r1].desc, strong)}, None)
  {
    var s1, r1, s2 := Linked(s, q, n, r), RefTo(s, q, n, r), WithPin(s, q, n, r, strong, list);
    var d := s1.refs[r1].desc;
    var more' := more + multiset{RefPin(q, d, strong)};
    LinkedIs(s, q, n, r, pins);
    WithPinNodes(s, q, n, r, strong, list, pins);
    WithPinRefs(s, q, n, r, strong, list, pins);
    RefPinAdds(more, q, d, strong);
    hide Sound, Linked, RefTo, WithPin, RefsGrown, SameNodePins, RefRefused;
    GrowRefNodes(s0, s, more, more', bare, n, s2);
    GrowRefRefs(s0, s, more, q, d, strong, r1, s1.refs[r1], s2, pins);
  }

  lemma GrowRefNodes(s0: State, s: State, more: multiset<Pin>, more': multiset<Pin>, bare: Option<NodeId>, n: NodeId, s2: State)
    requires NodesGrown(s0, s, more, bare) && SameNodePins(more, more') && n in s.nodes && (bare == None || bare == Some(n))
    requires OnlyNode(s, s2, n) && s2.nodes[n].refs != {}
    ensures NodesGrown(s0, s2, more', None)
  {
    hide LocalPins, NodeGrown, NodeBorn, SameNodePins, SameStanding;
    forall m | m in s2.nodes ensures OneGrown(s0, s2, more', m, false) {
      hide NodesGrown;
      NodesOne(s0, s, more, bare, m);
      GrowRefOne(s0, s, more, more', bare, n, s2, m);
    }
  }

  lemma GrowRefOne(s0: State, s: State, more: multiset<Pin>, more': multiset<Pin>, bare: Option<NodeId>, n: NodeId, s2: State, m: NodeId)
    requires m in s.nodes && n in s.nodes && OnlyNode(s, s2, n) && s2.nodes[n].refs != {} && SameNodePins(more, more')
    requires bare == None || bare == Some(n)
    requires OneGrown(s0, s, more, m, bare == Some(m))
    ensures OneGrown(s0, s2, more', m, false)
  {
    SameLocals(s.nodes[m], more, more');
    SameLocals(s2.nodes[m], more, more');
    hide SameNodePins;
  }

  lemma SameLocals(w: Node, more: multiset<Pin>, more': multiset<Pin>)
    requires SameNodePins(more, more')
    ensures LocalPins(w, more, true) == LocalPins(w, more', true) && LocalPins(w, more, false) == LocalPins(w, more', false)
  {
  }

  lemma GrowRefRefs(s0: State, s: State, more: multiset<Pin>, q: Pid, d: nat, strong: bool, r: RefId, ref: Ref, s2: State, pins: multiset<Pin>)
    requires RefsGrown(s0, s, more) && Sound(s, pins) && ref.proc == q && ref.desc == d && s0.refs.Keys <= s.refs.Keys
    requires if r in s.refs then ref == s.refs[r] else ref.strong == 0 && ref.weak == 0 && DescKey(q, d) !in s.refAt
    requires s2.refs == s.refs[r := Raised(ref, strong)] && s2.refAt.Keys == s.refAt.Keys + {DescKey(q, d)}
    ensures RefsGrown(s0, s2, more + multiset{RefPin(q, d, strong)})
  {
    hide RefGrown, RefBorn, Sound;
    var more' := more + multiset{RefPin(q, d, strong)};
    forall b | b in s2.refs ensures if b in s0.refs then RefGrown(s0.refs[b], s2.refs[b], more') else RefBorn(s2.refs[b], more') {
      if b == r {
        GrowRefSelf(s0, s, more, q, d, strong, r, ref);
      } else {
        KeyApart(s, b, r, ref, pins);
        GrowRefOther(s.refs[b], more, q, d, strong);
      }
    }
  }

  /** The reference is found or made, and its count refused. */
  lemma GrowLink(s0: State, s: State, more: multiset<Pin>, q: Pid, n: NodeId, r: RefId, strong: bool, list: bool, pins: multiset<Pin>)
    requires Grown(s0, s, more, None) && Sound(s, pins) && n in s.nodes && q in s.descs && r !in s.refs
    requires s0.refs.Keys <= s.refs.Keys
    requires var s1, r1 := Linked(s, q, n, r), RefTo(s, q, n, r);
             r1 in s1.refs && s1.refs[r1].node in s1.nodes && RefRefused(s1, r1, strong, list)
    ensures Grown(s0, WithPin(s, q, n, r, strong, list), more, None)
  {
    var s1, r1 := Linked(s, q, n, r), RefTo(s, q, n, r);
    LinkedIs(s, q, n, r, pins);
    LinkedNodes(s, q, n, r, pins);
    assert WithPin(s, q, n, r, strong, list) == s1;
    SamePins(more);
    hide Sound, Linked, RefTo, WithPin, RefsGrown, SameNodePins, RefRefused;
    GrowRefNodes(s0, s, more, more, None, n, s1);
    LinkRefs(s0, s, more, q, r1, s1.refs[r1], s1, pins);
  }

  lemma SamePins(more: multiset<Pin>)
    ensures SameNodePins(more, more)
  {
  }

  lemma LinkRefs(s0: State, s: State, more: multiset<Pin>, q: Pid, r: RefId, ref: Ref, s1: State, pins: multiset<Pin>)
    requires RefsGrown(s0, s, more) && Sound(s, pins) && s0.refs.Keys <= s.refs.Keys && ref.proc == q
    requires if r in s.refs then ref == s.refs[r] else ref.strong == 0 && ref.weak == 0 && DescKey(q, ref.desc) !in s.refAt
    requires s1.refs == s.refs[r := ref] && s1.refAt.Keys == s.refAt.Keys + {DescKey(q, ref.desc)}
    ensures RefsGrown(s0, s1, more)
  {
    hide RefGrown, Sound;
    if r !in s.refs {
      assert RefPin(q, ref.desc, true) !in more && RefPin(q, ref.desc, false) !in more;
    }
  }

  lemma KeyApart(s: State, b: RefId, r: RefId, ref: Ref, pins: multiset<Pin>)
    requires Sound(s, pins) && b in s.refs && b != r
    requires if r in s.refs then ref == s.refs[r] else DescKey(ref.proc, ref.desc) !in s.refAt
    ensures s.refs[b].proc != ref.proc || s.refs[b].desc != ref.desc
  {
    assert RefOk(s, b);
    if r in s.refs {
      assert RefOk(s, r);
    }
  }

  lemma GrowRefOther(ref: Ref, more: multiset<Pin>, q: Pid, d: nat, strong: bool)
    requires ref.proc != q || ref.desc != d
    ensures var more' := more + multiset{RefPin(q, d, strong)};
            && more'[RefPin(ref.proc, ref.desc, true)] == more[RefPin(ref.proc, ref.desc, true)]
            && more'[RefPin(ref.proc, ref.desc, false)] == more[RefPin(ref.proc, ref.desc, false)]
            && (RefBorn(ref, more) <==> RefBorn(ref, more'))
            && forall r0: Ref :: RefGrown(r0, ref, more) <==> RefGrown(r0, ref, more')
  {
  }

  lemma GrowRefSelf(s0: State, s: State, more: multiset<Pin>, q: Pid, d: nat, strong: bool, r: RefId, ref: Ref)
    requires RefsGrown(s0, s, more) && ref.proc == q && ref.desc == d && s0.refs.Keys <= s.refs.Keys
    requires if r in s.refs then ref == s.refs[r] else ref.strong == 0 && ref.weak == 0 && DescKey(q, d) !in s.refAt
    ensures var more' := more + multiset{RefPin(q, d, strong)};
            if r in s0.refs then RefGrown(s0.refs[r], Raised(ref, strong), more') else RefBorn(Raised(ref, strong), more')
  {
    if r !in s.refs {
      assert RefPin(q, d, true) !in more && RefPin(q, d, false) !in more;
    }
  }

  // ---- taking a reference's pin back ----

  /** The state of `DecRef` before the reference is deleted, if it is. */
  function LoweredRef(s: State, r: RefId, strong: bool): State
    requires r in s.refs && s.refs[r].node in s.nodes && (if strong then s.refs[r].strong > 0 else s.refs[r].weak > 0)
  {
    var ref := s.refs[r];
    if !strong then s.(refs := s.refs[r := ref.(weak := ref.weak - 1)])
    else WithCounts(s, r, ref.(strong := ref.strong - 1), if ref.strong == 1 then LostStrong(s.nodes[ref.node]) else s.nodes[ref.node])
  }

  lemma LoweredRefIs(s: State, r: RefId, strong: bool, pins: multiset<Pin>)
    requires Sound(s, pins) && r in s.refs && s.refs[r].node in s.nodes
    requires if strong then s.refs[r].strong > 0 else s.refs[r].weak > 0
    ensures var s1, n := LoweredRef(s, r, strong), s.refs[r].node;
            && OnlyNode(s, s1, n) && s1.nodes[n].refs == s.nodes[n].refs && s1.refAt == s.refAt
            && s1.refs == s.refs[r := s1.refs[r]] && s1.refs[r] == LowerRef(s.refs[r], strong)
            && Sound(s1, pins)
  {
    hide Sound;
    RefHere(s, r, pins);
    hide ListOk, LocalOk;
    var ref' := LowerRef(s.refs[r], strong);
    var w := if strong && s.refs[r].strong == 1 then LostStrong(s.nodes[s.refs[r].node]) else s.nodes[s.refs[r].node];
    Recount(s, r, ref', w, pins);
    assert WithCounts(s, r, ref', w) == LoweredRef(s, r, strong);
  }

  lemma DecRefIs(s: State, r: RefId, strong: bool)
    requires r in s.refs && s.refs[r].node in s.nodes && (if strong then s.refs[r].strong > 0 else s.refs[r].weak > 0)
    ensures var s1 := LoweredRef(s, r, strong);
            && r in s1.refs && s1.refs[r].node in s1.nodes
            && DecRef(s, r, strong) == if s1.refs[r].strong == 0 && s1.refs[r].weak == 0 then DeleteRef(s1, r) else s1
  {
    hide DeleteRef, LostStrong;
  }

  function LowerRef(ref: Ref, strong: bool): Ref
    requires if strong then ref.strong > 0 else ref.weak > 0
  {
    if strong then ref.(strong := ref.strong - 1) else ref.(weak := ref.weak - 1)
  }

  /** A counted pin on reference `r` is taken back; the reference goes if that was its last count. */
  lemma ShrinkRef(s0: State, s: State, more: multiset<Pin>, r: RefId, strong: bool, pins0: multiset<Pin>, pins: multiset<Pin>)
    requires Grown(s0, s, more, None) && Inv(s0, pins0) && Inv(s, pins)
    requires r in s.refs && s.refs[r].node in s.nodes && RefPin(s.refs[r].proc, s.refs[r].desc, strong) in more
    ensures Grown(s0, DecRef(s, r, strong), more - multiset{RefPin(s.refs[r].proc, s.refs[r].desc, strong)}, None)
  {
    hide Inv, Grown, DecRef, LoweredRef, DeleteRef;
    InvParts(s, pins);
    hide Sound;
    CountHere(s0, s, more, r, strong);
    DecRefIs(s, r, strong);
    LoweredRefIs(s, r, strong, pins);
    if Empty(LowerRef(s.refs[r], strong)) {
      ShrinkAway(s0, s, more, r, strong, pins0, pins);
    } else {
      ShrinkStay(s0, s, more, r, strong, pins);
    }
  }

  lemma CountHere(s0: State, s: State, more: multiset<Pin>, r: RefId, strong: bool)
    requires Grown(s0, s, more, None) && r in s.refs && RefPin(s.refs[r].proc, s.refs[r].desc, strong) in more
    ensures if strong then s.refs[r].strong > 0 else s.refs[r].weak > 0
  {
    hide NodesGrown;
    ShrinkCounts(s0, s, more, r, strong);
  }

  lemma ShrinkStay(s0: State, s: State, more: multiset<Pin>, r: RefId, strong: bool, pins: multiset<Pin>)
    requires Grown(s0, s, more, None) && Sound(s, pins)
    requires r in s.refs && s.refs[r].node in s.nodes && RefPin(s.refs[r].proc, s.refs[r].desc, strong) in more
    requires if strong then s.refs[r].strong > 0 else s.refs[r].weak > 0
    requires !Empty(LowerRef(s.refs[r], strong))
    ensures Grown(s0, LoweredRef(s, r, strong), more - multiset{RefPin(s.refs[r].proc, s.refs[r].desc, strong)}, None)
  {
    hide Sound, SameNodePins, NodesGrown, OnlyNode, RefsGrown, LoweredRef;
    var ref, n := s.refs[r], s.refs[r].node;
    var more' := more - multiset{RefPin(ref.proc, ref.desc, strong)};
    RefPinAdds(more, ref.proc, ref.desc, strong);
    LoweredRefIs(s, r, strong, pins);
    RefListed(s, r, pins);
    var s1 := LoweredRef(s, r, strong);
    OnlyParts(s, s1, n);
    SameStandingNodes(s0, s, more, more', n, s1);
    ShrinkRefs(s0, s, more, r, strong, s1, pins);
  }

  lemma InvParts(s: State, pins: multiset<Pin>)
    requires Inv(s, pins)
    ensures Sound(s, pins)
  {
  }

  lemma RefListed(s: State, r: RefId, pins: multiset<Pin>)
    requires Sound(s, pins) && r in s.refs && s.refs[r].node in s.nodes
    ensures s.nodes[s.refs[r].node].refs != {}
  {
    assert RefOk(s, r);
  }

  lemma OnlyParts(s: State, s': State, n: NodeId)
    requires n in s.nodes && OnlyNode(s, s', n)
    ensures s'.nodes.Keys == s.nodes.Keys && s'.descs.Keys == s.descs.Keys && s'.manager == s.manager
  {
  }

  lemma ShrinkCounts(s0: State, s: State, more: multiset<Pin>, r: RefId, strong: bool)
    requires RefsGrown(s0, s, more) && r in s.refs && RefPin(s.refs[r].proc, s.refs[r].desc, strong) in more
    ensures if strong then s.refs[r].strong > 0 else s.refs[r].weak > 0
  {
  }

  /** The nodes after a change of standing-neutral kind, the node keeping a reference. */
  lemma SameStandingNodes(s0: State, s: State, more: multiset<Pin>, more': multiset<Pin>, n: NodeId, s2: State)
    requires NodesGrown(s0, s, more, None) && SameNodePins(more, more') && n in s.nodes && OnlyNode(s, s2, n)
    ensures NodesGrown(s0, s2, more', Some(n))
    ensures s2.nodes[n].refs != {} ==> NodesGrown(s0, s2, more', None)
  {
    hide LocalPins, NodeGrown, NodeBorn, SameNodePins, SameStanding;
    forall m | m in s2.nodes ensures OneGrown(s0, s2, more', m, m == n) {
      hide NodesGrown;
      NodesOne(s0, s, more, None, m);
      StandingOne(s0, s, more, more', n, s2, m);
    }
    if s2.nodes[n].refs != {} {
      GrowRefNodes(s0, s, more, more', None, n, s2);
    }
  }

  lemma StandingOne(s0: State, s: State, more: multiset<Pin>, more': multiset<Pin>, n: NodeId, s2: State, m: NodeId)
    requires m in s.nodes && n in s.nodes && OnlyNode(s, s2, n) && SameNodePins(more, more')
    requires OneGrown(s0, s, more, m, false)
    ensures OneGrown(s0, s2, more', m, m == n)
  {
    SameLocals(s.nodes[m], more, more');
    SameLocals(s2.nodes[m], more, more');
    hide SameNodePins;
  }

  lemma ShrinkOther(ref: Ref, more: multiset<Pin>, q: Pid, d: nat, strong: bool)
    requires ref.proc != q || ref.desc != d
    ensures var more' := more - multiset{RefPin(q, d, strong)};
            && more'[RefPin(ref.proc, ref.desc, true)] == more[RefPin(ref.proc, ref.desc, true)]
            && more'[RefPin(ref.proc, ref.desc, false)] == more[RefPin(ref.proc, ref.desc, false)]
            && (RefBorn(ref, more) <==> RefBorn(ref, more'))
            && forall r0: Ref :: RefGrown(r0, ref, more) <==> RefGrown(r0, ref, more')
  {
  }

  lemma ShrinkSelf(s0: State, s: State, more: multiset<Pin>, r: RefId, strong: bool)
    requires RefsGrown(s0, s, more) && r in s.refs && RefPin(s.refs[r].proc, s.refs[r].desc, strong) in more
    requires if strong then s.refs[r].strong > 0 else s.refs[r].weak > 0
    ensures var ref := LowerRef(s.refs[r], strong);
            var more' := more - multiset{RefPin(ref.proc, ref.desc, strong)};
            && (r in s0.refs ==> RefGrown(s0.refs[r], ref, more'))
            && (r !in s0.refs ==> ref.strong == more'[RefPin(ref.proc, ref.desc, true)] && ref.weak == more'[RefPin(ref.proc, ref.desc, false)])
  {
  }

  lemma ShrinkRefs(s0: State, s: State, more: multiset<Pin>, r: RefId, strong: bool, s1: State, pins: multiset<Pin>)
    requires RefsGrown(s0, s, more) && Sound(s, pins) && r in s.refs && RefPin(s.refs[r].proc, s.refs[r].desc, strong) in more
    requires if strong then s.refs[r].strong > 0 else s.refs[r].weak > 0
    requires s1.refs == s.refs[r := LowerRef(s.refs[r], strong)] && s1.refAt == s.refAt
    requires LowerRef(s.refs[r], strong).strong + LowerRef(s.refs[r], strong).weak > 0
    ensures RefsGrown(s0, s1, more - multiset{RefPin(s.refs[r].proc, s.refs[r].desc, strong)})
  {
    hide RefGrown, Sound;
    var more' := more - multiset{RefPin(s.refs[r].proc, s.refs[r].desc, strong)};
    forall b | b in s1.refs ensures if b in s0.refs then RefGrown(s0.refs[b], s1.refs[b], more') else RefBorn(s1.refs[b], more') {
      if b == r {
        ShrinkSelf(s0, s, more, r, strong);
      } else {
        DescApart(s, b, r, pins);
        ShrinkOther(s.refs[b], more, s.refs[r].proc, s.refs[r].desc, strong);
      }
    }
    hide RefBorn;
  }

  /** The last pin of a reference that came with the transaction, or was empty before: the reference goes. */
  lemma ShrinkAway(s0: State, s: State, more: multiset<Pin>, r: RefId, strong: bool, pins0: multiset<Pin>, pins: multiset<Pin>)
    requires Grown(s0, s, more, None) && Inv(s0, pins0) && Inv(s, pins)
    requires r in s.refs && s.refs[r].node in s.nodes && RefPin(s.refs[r].proc, s.refs[r].desc, strong) in more
    requires if strong then s.refs[r].strong > 0 else s.refs[r].weak > 0
    requires LowerRef(s.refs[r], strong).strong == 0 && LowerRef(s.refs[r], strong).weak == 0
    ensures Grown(s0, DeleteRef(LoweredRef(s, r, strong), r), more - multiset{RefPin(s.refs[r].proc, s.refs[r].desc, strong)}, None)
  {
    hide Sound, SameNodePins, NodesGrown, OnlyNode, RefsGrown;
    var n := s.refs[r].node;
    var more' := more - multiset{RefPin(s.refs[r].proc, s.refs[r].desc, strong)};
    RefPinAdds(more, s.refs[r].proc, s.refs[r].desc, strong);
    LoweredRefIs(s, r, strong, pins);
    var s1 := LoweredRef(s, r, strong);
    var s2 := Unref(s1, r);
    UnrefKeeps(s1, r, pins);
    UnrefNodes(s1, r);
    OnlyTwice(s, s1, s2, n);
    SameStandingNodes(s0, s, more, more', n, s2);
    AwayRefs(s0, s, more, r, strong, s2, pins);
    hide Unref, LoweredRef;
    SettledIs(s2, n, false, true);
    assert WithNode(s2, n, s2.nodes[n]) == s2;
    SettleGrown(s0, s2, more', n, false, pins0, pins);
  }

  lemma UnrefNodes(s: State, r: RefId)
    requires r in s.refs && s.refs[r].node in s.nodes
    ensures OnlyNode(s, Unref(s, r), s.refs[r].node)
    ensures Unref(s, r).refs == s.refs - {r} && Unref(s, r).refAt == s.refAt - {DescKey(s.refs[r].proc, s.refs[r].desc)}
  {
    hide Removed;
  }

  lemma OnlyTwice(a: State, b: State, c: State, n: NodeId)
    requires n in a.nodes && OnlyNode(a, b, n) && OnlyNode(b, c, n)
    ensures OnlyNode(a, c, n)
  {
  }

  lemma AwayRefs(s0: State, s: State, more: multiset<Pin>, r: RefId, strong: bool, s2: State, pins: multiset<Pin>)
    requires RefsGrown(s0, s, more) && Sound(s, pins)
    requires r in s.refs && RefPin(s.refs[r].proc, s.refs[r].desc, strong) in more
    requires if strong then s.refs[r].strong > 0 else s.refs[r].weak > 0
    requires LowerRef(s.refs[r], strong).strong == 0 && LowerRef(s.refs[r], strong).weak == 0
    requires s2.refs == s.refs - {r} && s2.refAt == s.refAt - {DescKey(s.refs[r].proc, s.refs[r].desc)}
    ensures RefsGrown(s0, s2, more - multiset{RefPin(s.refs[r].proc, s.refs[r].desc, strong)})
  {
    hide Sound;
    var q, d := s.refs[r].proc, s.refs[r].desc;
    var more' := more - multiset{RefPin(q, d, strong)};
    ShrinkSelf(s0, s, more, r, strong);
    assert r in s0.refs ==> Empty(s0.refs[r]);
    assert more'[RefPin(q, d, true)] == 0 && more'[RefPin(q, d, false)] == 0;
    hide RefGrown, RefBorn, LowerRef, Empty;
    AwayKeys(s0, s, more, more', q, d, s2);
    forall b | b in s2.refs ensures if b in s0.refs then RefGrown(s0.refs[b], s2.refs[b], more') else RefBorn(s2.refs[b], more') {
      DescApart(s, b, r, pins);
      ShrinkOther(s.refs[b], more, q, d, strong);
    }
  }

  lemma AwayKeys(s0: State, s: State, more: multiset<Pin>, more': multiset<Pin>, q: Pid, d: nat, s2: State)
    requires RefsGrown(s0, s, more) && more' <= more && s2.refAt == s.refAt - {DescKey(q, d)}
    requires more'[RefPin(q, d, true)] == 0 && more'[RefPin(q, d, false)] == 0
    ensures forall k: Pin :: k in more' && k.RefPin? ==> DescKey(k.proc, k.desc) in s2.refAt
  {
    hide RefGrown, RefBorn;
    forall k: Pin | k in more' && k.RefPin? ensures DescKey(k.proc, k.desc) in s2.refAt {
      assert k in more && k == RefPin(k.proc, k.desc, k.strong);
    }
  }

  // ---- a node that comes with the transaction ----

  lemma GrowNew(s0: State, s: State, more: multiset<Pin>, p: Pid, ptr: Ptr, cookie: nat, n: NodeId, pins: multiset<Pin>)
    requires Grown(s0, s, more, None) && Sound(s, pins) && more <= pins
    requires n !in s.nodes && s0.nodes.Keys <= s.nodes.Keys && NodeKey(p, ptr) !in s.nodeAt
    ensures Grown(s0, NewNode(s, p, ptr, cookie, n), more, Some(n))
  {
    hide Sound, NodeGrown, RefsGrown, NodesGrown, NodeBorn, Loose;
    var s' := NewNode(s, p, ptr, cookie, n);
    RefsFrame(s0, s, s', more);
    NodesMissing(s0, s, more, None);
    forall m | m in s'.nodes ensures OneGrown(s0, s', more, m, m == n) {
      if m != n {
        NodesOne(s0, s, more, None, m);
      } else {
        NewBorn(s, more, p, ptr, cookie, n, pins);
      }
    }
    NodesAll(s0, s', more, Some(n));
  }

  lemma NewBorn(s: State, more: multiset<Pin>, p: Pid, ptr: Ptr, cookie: nat, n: NodeId, pins: multiset<Pin>)
    requires Sound(s, pins) && more <= pins && NodeKey(p, ptr) !in s.nodeAt
    ensures NodeBorn(NewNode(s, p, ptr, cookie, n).nodes[n], more, true)
  {
    hide NodesOk, KeysOk, RefsOk;
    assert NodePin(p, ptr, true) !in pins && NodePin(p, ptr, false) !in pins;
  }

  // ---- nothing left of the transaction ----

  /** Counts, references and nodes are what they were, but for work items; a node that stood for nothing
      may be gone. */
  ghost predicate Restored(s0: State, s: State) {
    && s.refs == s0.refs && s.refAt == s0.refAt && s.refFor == s0.refFor && s.descs == s0.descs && s.manager == s0.manager
    && (forall n :: n in s.nodes ==>
          n in s0.nodes && s.nodes[n] == s0.nodes[n].(queued := s.nodes[n].queued) && (s0.nodes[n].queued ==> s.nodes[n].queued))
    && (forall n :: n in s0.nodes && n !in s.nodes ==> Idle(s0.nodes[n]))
    && (forall k :: k in s.nodeAt ==> k in s0.nodeAt && s0.nodeAt[k] == s.nodeAt[k])
    && (forall k :: k in s0.nodeAt && s0.nodeAt[k] in s.nodes ==> k in s.nodeAt)
  }

  /** With every count taken back, it only matters which records are left. */
  lemma GrownBack(s0: State, s: State, pins0: multiset<Pin>, pins: multiset<Pin>)
    requires Inv(s0, pins0) && Inv(s, pins) && Grown(s0, s, multiset{}, None) && s.refs.Keys == s0.refs.Keys
    requires forall n :: n in s.nodes && n !in s0.nodes ==> !s.nodes[n].stray
    ensures Restored(s0, s)
  {
    hide Sound, NodesGrown, RefsGrown;
    BackRefs(s0, s);
    BackTrees(s0, s, pins0, pins);
    forall n | n in s.nodes
      ensures n in s0.nodes && s.nodes[n] == s0.nodes[n].(queued := s.nodes[n].queued) && (s0.nodes[n].queued ==> s.nodes[n].queued)
    {
      BackNode(s0, s, pins0, pins, n);
    }
    NodesMissing(s0, s, multiset{}, None);
    forall n | n in s0.nodes && n !in s.nodes ensures Idle(s0.nodes[n]) {
      BackIdle(s0, s, pins0, pins, n);
    }
    BackKeys(s0, s, pins0, pins);
  }

  lemma BackIdle(s0: State, s: State, pins0: multiset<Pin>, pins: multiset<Pin>, n: NodeId)
    requires Inv(s0, pins0) && Sound(s, pins) && s.refs == s0.refs && n in s0.nodes && n !in s.nodes && Loose(s0, n)
    ensures Idle(s0.nodes[n])
  {
    hide Sound;
    Here(s0, n, pins0);
    forall r | r in s0.nodes[n].refs ensures false {
      RefHere(s, r, pins);
    }
  }

  lemma BackRefs(s0: State, s: State)
    requires RefsGrown(s0, s, multiset{}) && s.refs.Keys == s0.refs.Keys
    ensures s.refs == s0.refs
  {
    forall r | r in s0.refs ensures s.refs[r] == s0.refs[r] {
      assert RefGrown(s0.refs[r], s.refs[r], multiset{});
    }
  }

  lemma BackTrees(s0: State, s: State, pins0: multiset<Pin>, pins: multiset<Pin>)
    requires Sound(s0, pins0) && Sound(s, pins) && s.refs == s0.refs && s.descs.Keys == s0.descs.Keys
    ensures s.refAt == s0.refAt && s.refFor == s0.refFor && s.descs == s0.descs
  {
    hide Sound;
    forall k | k in s.refAt ensures k in s0.refAt && s0.refAt[k] == s.refAt[k] {
      DescBack(s0, s, pins0, pins, k);
    }
    forall k | k in s0.refAt ensures k in s.refAt {
      DescBack(s, s0, pins, pins0, k);
    }
    assert s.refAt == s0.refAt;
    BackFor(s0, s, pins0, pins);
    forall p | p in s.descs ensures s.descs[p] == s0.descs[p] {
      ListBack(s0, s, pins0, pins, p);
    }
  }

  lemma BackFor(s0: State, s: State, pins0: multiset<Pin>, pins: multiset<Pin>)
    requires Sound(s0, pins0) && Sound(s, pins) && s.refs == s0.refs
    ensures s.refFor == s0.refFor
  {
    hide Sound;
    forall k | k in s.refFor ensures k in s0.refFor && s0.refFor[k] == s.refFor[k] {
      ForBack(s0, s, pins0, pins, k);
    }
    forall k | k in s0.refFor ensures k in s.refFor {
      ForBack(s, s0, pins, pins0, k);
    }
  }

  lemma ForBack(s0: State, s: State, pins0: multiset<Pin>, pins: multiset<Pin>, k: ForKey)
    requires Sound(s0, pins0) && Sound(s, pins) && s.refs == s0.refs && k in s.refFor
    ensures k in s0.refFor && s0.refFor[k] == s.refFor[k]
  {
    hide NodesOk, PinsOk, ManagerOk;
    assert ForKeyOk(s, k) && RefOk(s0, s.refFor[k]);
  }

  lemma DescBack(s0: State, s: State, pins0: multiset<Pin>, pins: multiset<Pin>, k: DescKey)
    requires Sound(s0, pins0) && Sound(s, pins) && s.refs == s0.refs && k in s.refAt
    ensures k in s0.refAt && s0.refAt[k] == s.refAt[k]
  {
    hide NodesOk, PinsOk, ManagerOk;
    assert DescKeyOk(s, k) && RefOk(s0, s.refAt[k]);
  }

  lemma ListBack(s0: State, s: State, pins0: multiset<Pin>, pins: multiset<Pin>, p: Pid)
    requires Sound(s0, pins0) && Sound(s, pins) && s.refAt == s0.refAt && p in s.descs && p in s0.descs
    ensures s.descs[p] == s0.descs[p]
  {
    hide NodesOk, PinsOk, ManagerOk, RefsOk;
    assert DescsOk(s, p) && DescsOk(s0, p);
    hide KeysOk;
    SortedUnique(s.descs[p], s0.descs[p]);
  }

  lemma BackNode(s0: State, s: State, pins0: multiset<Pin>, pins: multiset<Pin>, n: NodeId)
    requires Inv(s0, pins0) && Inv(s, pins) && NodesGrown(s0, s, multiset{}, None) && s.refs == s0.refs && n in s.nodes
    requires n !in s0.nodes ==> !s.nodes[n].stray
    ensures n in s0.nodes && s.nodes[n] == s0.nodes[n].(queued := s.nodes[n].queued) && (s0.nodes[n].queued ==> s.nodes[n].queued)
  {
    hide Sound;
    Here(s, n, pins);
    NodesOne(s0, s, multiset{}, None, n);
    hide NodesGrown;
    if n !in s0.nodes {
      var r :| r in s.nodes[n].refs;
      RefHere(s0, r, pins0);
    }
    Here(s0, n, pins0);
    SameList(s0, s, pins0, pins, n);
  }

  lemma SameList(s0: State, s: State, pins0: multiset<Pin>, pins: multiset<Pin>, n: NodeId)
    requires Sound(s0, pins0) && Sound(s, pins) && s.refs == s0.refs && n in s.nodes && n in s0.nodes
    ensures s.nodes[n].refs == s0.nodes[n].refs
  {
    hide Sound;
    Here(s0, n, pins0);
    Here(s, n, pins);
    forall r | r in s.nodes[n].refs ensures r in s0.nodes[n].refs {
      RefHere(s0, r, pins0);
    }
    forall r | r in s0.nodes[n].refs ensures r in s.nodes[n].refs {
      RefHere(s, r, pins);
    }
  }

  lemma BackKeys(s0: State, s: State, pins0: multiset<Pin>, pins: multiset<Pin>)
    requires Sound(s0, pins0) && Sound(s, pins)
    requires forall n :: n in s.nodes ==> n in s0.nodes && s.nodes[n] == s0.nodes[n].(queued := s.nodes[n].queued)
    ensures forall k :: k in s.nodeAt ==> k in s0.nodeAt && s0.nodeAt[k] == s.nodeAt[k]
    ensures forall k :: k in s0.nodeAt && s0.nodeAt[k] in s.nodes ==> k in s.nodeAt
  {
    forall k | k in s.nodeAt ensures k in s0.nodeAt && s0.nodeAt[k] == s.nodeAt[k] {
      assert NodeKeyOk(s, k);
      assert NodeSound(s0, s.nodeAt[k], pins0);
    }
    forall k | k in s0.nodeAt && s0.nodeAt[k] in s.nodes ensures k in s.nodeAt {
      assert NodeKeyOk(s0, k);
      assert NodeSound(s, s0.nodeAt[k], pins);
    }
  }
}
