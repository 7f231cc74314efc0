/** What a failed transaction leaves of the counts: exactly when nothing, and what otherwise. */
module Undo {
  import opened Wrappers
  import opened Store
  import opened Counts
  import opened Owners
  import opened Rollback
  import opened Transfers

  // ---- when the counts can be taken back, as the sender can tell beforehand ----

  /** Process `q` is handed a reference for the object, rather than its own node back. */
  ghost predicate PassedOn(s: State, p: Pid, q: Pid, o: Obj) {
    o.Binder? || (Named(s, p, o).Some? && Named(s, p, o).value in s.nodes && s.nodes[Named(s, p, o).value].proc != Some(q))
  }

  /** The two objects name the same node of process `p`, which may be yet to come. */
  ghost predicate Alike(s: State, p: Pid, a: Obj, b: Obj) {
    if a.Binder? && b.Binder? then a.ptr == b.ptr else Named(s, p, a).Some? && Named(s, p, a) == Named(s, p, b)
  }

  /** An empty reference passed on for the object is counted: `binder_inc_node` does not refuse. */
  ghost predicate Countable(s: State, p: Pid, o: Obj) {
    o.Binder? || (Named(s, p, o).Some? && Named(s, p, o).value in s.nodes && Granted(s, Named(s, p, o).value, o.strong))
  }

  predicate Granted(s: State, n: NodeId, strong: bool)
    requires n in s.nodes
  {
    if strong then s.nodes[n].internalStrong > 0 || (s.manager == Some(n) && s.nodes[n].hasStrong)
    else s.nodes[n].hasWeak || s.nodes[n].queued
  }

  /** The reference process `q` already has to the node the object names. */
  ghost function HeldFor(s: State, p: Pid, q: Pid, o: Obj): Option<RefId> {
    if Named(s, p, o).Some? && ForKey(q, Named(s, p, o).value) in s.refFor then Some(s.refFor[ForKey(q, Named(s, p, o).value)]) else None
  }

  /** One of the first `k` objects puts a count on the reference for object `i`. */
  ghost predicate CountedOnce(s: State, p: Pid, q: Pid, objs: seq<Option<Obj>>, k: nat, i: nat)
    requires k <= |objs| && i < |objs| && objs[i].Some?
  {
    exists j :: 0 <= j < k && objs[j].Some? && PassedOn(s, p, q, objs[j].value) && Alike(s, p, objs[i].value, objs[j].value)
                && Countable(s, p, objs[j].value)
  }

  ghost predicate UndoneAt(s: State, p: Pid, q: Pid, objs: seq<Option<Obj>>, k: nat, i: nat)
    requires k <= |objs| && i < |objs| && objs[i].Some?
  {
    match HeldFor(s, p, q, objs[i].value)
    case Some(r) => r in s.refs && Empty(s.refs[r]) ==> !CountedOnce(s, p, q, objs, k, i)
    case None => CountedOnce(s, p, q, objs, k, i)
  }

  /** Letting go of the first `k` objects takes back all that passing them on added: a reference made for
      them was counted at least once, and one that was there and empty was not. */
  ghost predicate Undone(s: State, p: Pid, q: Pid, objs: seq<Option<Obj>>, k: nat)
    requires k <= |objs|
  {
    forall i :: 0 <= i < k && objs[i].Some? && PassedOn(s, p, q, objs[i].value) ==> UndoneAt(s, p, q, objs, k, i)
  }

  /** If every count an object asks for is granted, and the receiver holds no empty reference to what they
      name, all of it can be taken back. */
  lemma GrantedUndone(s: State, p: Pid, q: Pid, objs: seq<Option<Obj>>, k: nat)
    requires k <= |objs|
    requires forall i :: 0 <= i < k && objs[i].Some? && PassedOn(s, p, q, objs[i].value) ==>
               match HeldFor(s, p, q, objs[i].value)
               case Some(r) => r in s.refs && !Empty(s.refs[r])
               case None => Countable(s, p, objs[i].value)
    ensures Undone(s, p, q, objs, k)
  {
    hide Countable;
    forall i | 0 <= i < k && objs[i].Some? && PassedOn(s, p, q, objs[i].value) ensures UndoneAt(s, p, q, objs, k, i) {
      assert Alike(s, p, objs[i].value, objs[i].value);
    }
  }

  // ---- letting go ----

  /** The counts on a reference that `more` accounts for. */
  function PinsOn(more: multiset<Pin>, ref: Ref): nat {
    more[RefPin(ref.proc, ref.desc, true)] + more[RefPin(ref.proc, ref.desc, false)]
  }

  /** What a reference counted before the transaction. */
  function Base(s0: State, r: RefId, strong: bool): nat {
    if r !in s0.refs then 0 else if strong then s0.refs[r].strong else s0.refs[r].weak
  }

  function CountOf(ref: Ref, strong: bool): nat {
    if strong then ref.strong else ref.weak
  }

  /** Of the pins `extra` asked for, `more` were counted; where one was not, there was no count before either. */
  ghost predicate Square(s0: State, s: State, extra: multiset<Pin>, more: multiset<Pin>) {
    && SameNodePins(extra, more) && more <= extra
    && forall r :: r in s.refs ==> SquareAt(s0, s, extra, more, r, true) && SquareAt(s0, s, extra, more, r, false)
  }

  ghost predicate SquareAt(s0: State, s: State, extra: multiset<Pin>, more: multiset<Pin>, r: RefId, strong: bool)
    requires r in s.refs
  {
    var k := RefPin(s.refs[r].proc, s.refs[r].desc, strong);
    more[k] < extra[k] ==> Base(s0, r, strong) == 0
  }

  /** Of the references of `s1`, where `all` was counted, those are left in `s` that counted before, are still
      counted, or never were. */
  ghost predicate Kept(s0: State, s1: State, s: State, all: multiset<Pin>, more: multiset<Pin>) {
    more <= all && KeptRefs(s0, s1, s, all, more) && KeptNodes(s1, s)
  }

  ghost predicate KeptRefs(s0: State, s1: State, s: State, all: multiset<Pin>, more: multiset<Pin>) {
    s.refs.Keys <= s1.refs.Keys && forall r :: r in s1.refs ==> KeptAt(s0, s1, s, all, more, r)
  }

  /** No node is new or newly marked, and one that is alone stays. */
  ghost predicate KeptNodes(s1: State, s: State) {
    && s.nodes.Keys <= s1.nodes.Keys
    && (forall n :: n in s.nodes ==> s.nodes[n].stray == s1.nodes[n].stray)
    && (forall n :: n in s1.nodes && Alone(s1.nodes[n]) ==> n in s.nodes && Alone(s.nodes[n]))
  }

  lemma NodesStill(s1: State, s: State, s': State, m: NodeId)
    requires KeptNodes(s1, s) && OnlyHere(s, s', m) && m in s.nodes && !Alone(s.nodes[m])
    ensures KeptNodes(s1, s')
  {
    hide Alone;
  }

  lemma PinsApart(more: multiset<Pin>, ref: Ref, q: Pid, d: nat, strong: bool)
    requires ref.proc != q || ref.desc != d
    ensures PinsOn(more - multiset{RefPin(q, d, strong)}, ref) == PinsOn(more, ref)
    ensures PinsOn(more + multiset{RefPin(q, d, strong)}, ref) == PinsOn(more, ref)
  {
  }

  ghost predicate KeptAt(s0: State, s1: State, s: State, all: multiset<Pin>, more: multiset<Pin>, r: RefId)
    requires r in s1.refs
  {
    && (r in s.refs <==> Base(s0, r, true) + Base(s0, r, false) + PinsOn(more, s1.refs[r]) > 0 || PinsOn(all, s1.refs[r]) == 0)
    && (r in s.refs ==> s.refs[r].proc == s1.refs[r].proc && s.refs[r].desc == s1.refs[r].desc && s.refs[r].node == s1.refs[r].node)
  }

  /** A node nobody refers to and nothing pins. */
  predicate Alone(w: Node) {
    w.refs == {} && w.localStrong == 0 && w.localWeak == 0
  }

  lemma KeptStart(s0: State, s: State, all: multiset<Pin>)
    ensures Kept(s0, s, s, all, all)
  {
  }

  /** What holds while the buffer is emptied. */
  ghost predicate Undoing(s0: State, s1: State, s: State, extra: multiset<Pin>, all: multiset<Pin>, more: multiset<Pin>) {
    Grown(s0, s, more, None) && Square(s0, s, extra, more) && Kept(s0, s1, s, all, more)
  }

  /** The count of a reference is what it was and what was counted since. */
  lemma CountIs(s0: State, s: State, more: multiset<Pin>, r: RefId, strong: bool)
    requires RefsGrown(s0, s, more) && r in s.refs
    ensures CountOf(s.refs[r], strong) == Base(s0, r, strong) + more[RefPin(s.refs[r].proc, s.refs[r].desc, strong)]
  {
  }

  lemma DecNodeOthers(s: State, m: NodeId, strong: bool, internal: bool)
    requires m in s.nodes
    ensures var s' := DecNode(s, m, strong, internal);
            s'.refs == s.refs && s'.refAt == s.refAt && OnlyHere(s, s', m)
  {
    hide DecNode;
    SettledIs(s, m, strong, internal);
    SettledOthers(s, m, Lowered(s.nodes[m], strong, internal), strong);
  }

  lemma SettledOthers(s: State, m: NodeId, w: Node, strong: bool)
    requires m in s.nodes && w.stray == s.nodes[m].stray
    ensures var s' := Settled(WithNode(s, m, w), m, strong);
            && s'.refs == s.refs && s'.refAt == s.refAt && s'.nodes.Keys <= s.nodes.Keys
            && (forall n :: n in s.nodes && n != m ==> n in s'.nodes && s'.nodes[n] == s.nodes[n])
            && (m in s'.nodes ==> s'.nodes[m].stray == s.nodes[m].stray)
  {
  }

  /** Nodes but perhaps `m` are untouched, and nobody is marked. */
  ghost predicate OnlyHere(s: State, s': State, m: NodeId) {
    && s'.nodes.Keys <= s.nodes.Keys
    && (forall n :: n in s.nodes && n != m ==> n in s'.nodes && s'.nodes[n] == s.nodes[n])
    && (m in s'.nodes && m in s.nodes ==> s'.nodes[m].stray == s.nodes[m].stray)
  }

  lemma OnlyHereTwice(a: State, b: State, c: State, m: NodeId)
    requires OnlyHere(a, b, m) && OnlyHere(b, c, m)
    ensures OnlyHere(a, c, m)
  {
  }

  /** Reference `r` lost a count, and went if that was its last. */
  ghost predicate LoweredAt(s: State, s': State, r: RefId, strong: bool)
    requires r in s.refs && CountOf(s.refs[r], strong) > 0
  {
    s'.refs == if Empty(LowerRef(s.refs[r], strong)) then s.refs - {r} else s.refs[r := LowerRef(s.refs[r], strong)]
  }

  lemma LoweredOthers(s: State, s': State, a: RefId, strong: bool)
    requires a in s.refs && CountOf(s.refs[a], strong) > 0 && LoweredAt(s, s', a, strong)
    ensures s'.refs.Keys <= s.refs.Keys
    ensures forall r :: r in s'.refs ==> s'.refs[r].proc == s.refs[r].proc && s'.refs[r].desc == s.refs[r].desc
    ensures forall r :: r != a ==> (r in s'.refs <==> r in s.refs) && (r in s.refs ==> s'.refs[r] == s.refs[r])
  {
  }

  /** What `binder_dec_ref` does to the references and to the nodes. */
  lemma DecRefShape(s: State, r: RefId, strong: bool, pins: multiset<Pin>)
    requires Sound(s, pins) && r in s.refs && s.refs[r].node in s.nodes && CountOf(s.refs[r], strong) > 0
    ensures LoweredAt(s, DecRef(s, r, strong), r, strong) && OnlyHere(s, DecRef(s, r, strong), s.refs[r].node)
  {
    hide Sound, DecRef, DeleteRef, LoweredRef, OnlyNode;
    DecRefIs(s, r, strong);
    LoweredRefIs(s, r, strong, pins);
    var s1 := LoweredRef(s, r, strong);
    OnlyNodeHere(s, s1, s.refs[r].node);
    if Empty(s1.refs[r]) {
      DeleteShape(s1, r);
      OnlyHereTwice(s, s1, DeleteRef(s1, r), s.refs[r].node);
    }
  }

  lemma OnlyNodeHere(s: State, s': State, m: NodeId)
    requires m in s.nodes && OnlyNode(s, s', m)
    ensures OnlyHere(s, s', m) && m in s'.nodes
  {
  }

  lemma DeleteShape(s: State, r: RefId)
    requires r in s.refs && s.refs[r].node in s.nodes && Empty(s.refs[r])
    ensures DeleteRef(s, r).refs == s.refs - {r} && OnlyHere(s, DeleteRef(s, r), s.refs[r].node)
  {
    hide DecNode;
    UnrefNodes(s, r);
    DecNodeOthers(Unref(s, r), s.refs[r].node, false, true);
  }

  lemma SquareLess(s0: State, s: State, s': State, extra: multiset<Pin>, more: multiset<Pin>, pin: Pin)
    requires Square(s0, s, extra, more) && pin in extra && s'.refs.Keys <= s.refs.Keys
    requires forall r :: r in s'.refs ==> s'.refs[r].proc == s.refs[r].proc && s'.refs[r].desc == s.refs[r].desc
    ensures Square(s0, s', extra - multiset{pin}, more - multiset{pin})
  {
    var extra', more' := extra - multiset{pin}, more - multiset{pin};
    forall p: Pid, ptr: Ptr, strong: bool ensures extra'[NodePin(p, ptr, strong)] == more'[NodePin(p, ptr, strong)] {
      assert extra[NodePin(p, ptr, strong)] == more[NodePin(p, ptr, strong)];
    }
    forall r | r in s'.refs ensures SquareAt(s0, s', extra', more', r, true) && SquareAt(s0, s', extra', more', r, false) {
      assert SquareAt(s0, s, extra, more, r, true) && SquareAt(s0, s, extra, more, r, false);
    }
  }

  lemma KeptStill(s0: State, s1: State, s: State, s': State, all: multiset<Pin>, more: multiset<Pin>, more': multiset<Pin>, m: NodeId)
    requires Kept(s0, s1, s, all, more) && more' <= more && SameRefPins(more, more') && s'.refs == s.refs
    requires OnlyHere(s, s', m) && m in s.nodes && !Alone(s.nodes[m])
    ensures Kept(s0, s1, s', all, more')
  {
    forall r | r in s1.refs ensures KeptAt(s0, s1, s', all, more', r) {
      assert KeptAt(s0, s1, s, all, more, r);
    }
    hide KeptAt;
    NodesStill(s1, s, s', m);
  }

  lemma KeptLess(s0: State, s1: State, s: State, s': State, all: multiset<Pin>, more: multiset<Pin>, a: RefId, strong: bool, pins1: multiset<Pin>)
    requires Kept(s0, s1, s, all, more) && RefsGrown(s0, s, more) && Sound(s1, pins1) && a in s.refs && CountOf(s.refs[a], strong) > 0
    requires RefPin(s.refs[a].proc, s.refs[a].desc, strong) in more
    requires LoweredAt(s, s', a, strong)
    requires s.refs[a].node in s.nodes && OnlyHere(s, s', s.refs[a].node) && !Alone(s.nodes[s.refs[a].node])
    ensures Kept(s0, s1, s', all, more - multiset{RefPin(s.refs[a].proc, s.refs[a].desc, strong)})
  {
    hide Sound, RefsGrown, KeptRefs, KeptNodes, OnlyHere, LoweredAt, CountOf, Alone;
    NodesStill(s1, s, s', s.refs[a].node);
    LessRefs(s0, s1, s, s', all, more, a, strong, pins1);
  }

  lemma LessRefs(s0: State, s1: State, s: State, s': State, all: multiset<Pin>, more: multiset<Pin>, a: RefId, strong: bool, pins1: multiset<Pin>)
    requires KeptRefs(s0, s1, s, all, more) && more <= all && RefsGrown(s0, s, more) && Sound(s1, pins1)
    requires a in s.refs && CountOf(s.refs[a], strong) > 0 && LoweredAt(s, s', a, strong)
    requires RefPin(s.refs[a].proc, s.refs[a].desc, strong) in more
    ensures KeptRefs(s0, s1, s', all, more - multiset{RefPin(s.refs[a].proc, s.refs[a].desc, strong)})
  {
    hide Sound, RefsGrown, KeptAt, LoweredAt, CountOf, LowerRef, Empty;
    var more' := more - multiset{RefPin(s.refs[a].proc, s.refs[a].desc, strong)};
    LoweredOthers(s, s', a, strong);
    KeptParts(s0, s1, s, all, more, a);
    KeptSelf(s0, s1, s, s', all, more, a, strong);
    forall r | r in s1.refs ensures KeptAt(s0, s1, s', all, more', r) {
      if r != a {
        KeptParts(s0, s1, s, all, more, r);
        KeptOther(s0, s1, s, s', all, more, a, strong, r, pins1);
      }
    }
  }

  lemma KeptParts(s0: State, s1: State, s: State, all: multiset<Pin>, more: multiset<Pin>, r: RefId)
    requires KeptRefs(s0, s1, s, all, more) && (r in s.refs || r in s1.refs)
    ensures r in s1.refs && KeptAt(s0, s1, s, all, more, r)
  {
  }

  lemma KeptSelf(s0: State, s1: State, s: State, s': State, all: multiset<Pin>, more: multiset<Pin>, a: RefId, strong: bool)
    requires RefsGrown(s0, s, more) && a in s.refs && CountOf(s.refs[a], strong) > 0 && more <= all
    requires a in s1.refs && KeptAt(s0, s1, s, all, more, a) && RefPin(s.refs[a].proc, s.refs[a].desc, strong) in more
    requires LoweredAt(s, s', a, strong)
    ensures KeptAt(s0, s1, s', all, more - multiset{RefPin(s.refs[a].proc, s.refs[a].desc, strong)}, a)
  {
    CountIs(s0, s, more, a, true);
    CountIs(s0, s, more, a, false);
    hide RefsGrown;
  }

  lemma KeptOther(s0: State, s1: State, s: State, s': State, all: multiset<Pin>, more: multiset<Pin>, a: RefId, strong: bool,
                  r: RefId, pins1: multiset<Pin>)
    requires Sound(s1, pins1) && a in s1.refs && r in s1.refs && r != a && a in s.refs
    requires KeptAt(s0, s1, s, all, more, a) && KeptAt(s0, s1, s, all, more, r)
    requires r in s'.refs <==> r in s.refs
    requires r in s.refs ==> s'.refs[r] == s.refs[r]
    ensures KeptAt(s0, s1, s', all, more - multiset{RefPin(s.refs[a].proc, s.refs[a].desc, strong)}, r)
  {
    DescApart(s1, r, a, pins1);
    PinsApart(more, s1.refs[r], s.refs[a].proc, s.refs[a].desc, strong);
    hide Sound, PinsOn;
  }

  /** One object is let go: what was counted for it, if anything, is taken back. */
  lemma UndoStep(s0: State, s1: State, s: State, extra: multiset<Pin>, all: multiset<Pin>, more: multiset<Pin>, q: Pid, o: Obj,
                 pins0: multiset<Pin>, pins1: multiset<Pin>, pins: multiset<Pin>)
    requires Undoing(s0, s1, s, extra, all, more) && PinFor(q, o) in extra && extra <= pins
    requires Inv(s0, pins0) && Sound(s1, pins1) && Inv(s, pins)
    ensures Undoing(s0, s1, Released(s, q, o), extra - multiset{PinFor(q, o)}, all, more - multiset{PinFor(q, o)})
  {
    match o
    case Binder(ptr, cookie, strong) => UndoBinder(s0, s1, s, extra, all, more, q, ptr, cookie, strong, pins0, pins);
    case Handle(desc, strong) => UndoHandle(s0, s1, s, extra, all, more, q, desc, strong, pins0, pins1, pins);
  }

  lemma UndoBinder(s0: State, s1: State, s: State, extra: multiset<Pin>, all: multiset<Pin>, more: multiset<Pin>, q: Pid,
                   ptr: Ptr, cookie: nat, strong: bool, pins0: multiset<Pin>, pins: multiset<Pin>)
    requires Undoing(s0, s1, s, extra, all, more) && NodePin(q, ptr, strong) in extra && extra <= pins
    requires Inv(s0, pins0) && Inv(s, pins)
    ensures Undoing(s0, s1, Released(s, q, Binder(ptr, cookie, strong)), extra - multiset{NodePin(q, ptr, strong)}, all,
                    more - multiset{NodePin(q, ptr, strong)})
  {
    hide Inv, Grown, DecNode, KeptRefs, KeptNodes, Square, Sound, PinsOk, OnlyHere, Alone;
    var pin := NodePin(q, ptr, strong);
    SquareNode(s0, s, extra, more, q, ptr, strong);
    PinnedKey(s, pins, q, ptr, strong);
    KeyHere(s, q, ptr, pins);
    var m := s.nodeAt[NodeKey(q, ptr)];
    ShrinkLocal(s0, s, more, m, strong, pins0, pins);
    DecNodeOthers(s, m, strong, false);
    var s' := DecNode(s, m, strong, false);
    SquareLess(s0, s, s', extra, more, pin);
    PinnedAlone(s, m, strong, pins);
    NodePinAdds(more, q, ptr, strong);
    KeptStill(s0, s1, s, s', all, more, more - multiset{pin}, m);
  }

  lemma SquareNode(s0: State, s: State, extra: multiset<Pin>, more: multiset<Pin>, q: Pid, ptr: Ptr, strong: bool)
    requires Square(s0, s, extra, more)
    ensures extra[NodePin(q, ptr, strong)] == more[NodePin(q, ptr, strong)]
  {
    hide SquareAt;
  }

  lemma PinnedKey(s: State, pins: multiset<Pin>, q: Pid, ptr: Ptr, strong: bool)
    requires Inv(s, pins) && NodePin(q, ptr, strong) in pins
    ensures NodeKey(q, ptr) in s.nodeAt && Sound(s, pins)
  {
    hide NodesOk, KeysOk, RefsOk, ManagerOk;
  }

  lemma PinnedAlone(s: State, m: NodeId, strong: bool, pins: multiset<Pin>)
    requires Sound(s, pins) && m in s.nodes && s.nodes[m].proc.Some? && PinOn(s, m, strong) in pins
    ensures !Alone(s.nodes[m])
  {
    assert NodeSound(s, m, pins);
  }

  lemma UndoHandle(s0: State, s1: State, s: State, extra: multiset<Pin>, all: multiset<Pin>, more: multiset<Pin>, q: Pid,
                   desc: nat, strong: bool, pins0: multiset<Pin>, pins1: multiset<Pin>, pins: multiset<Pin>)
    requires Undoing(s0, s1, s, extra, all, more) && RefPin(q, desc, strong) in extra
    requires Inv(s0, pins0) && Sound(s1, pins1) && Inv(s, pins)
    ensures Undoing(s0, s1, Released(s, q, Handle(desc, strong)), extra - multiset{RefPin(q, desc, strong)}, all,
                    more - multiset{RefPin(q, desc, strong)})
  {
    var pin := RefPin(q, desc, strong);
    hide Sound, Grown, DecRef, Kept, Square;
    if DescKey(q, desc) !in s.refAt {
      NotCounted(s0, s, more, q, desc, strong);
      assert more - multiset{pin} == more;
      SquareLess(s0, s, s, extra, more, pin);
      return;
    }
    DescHere(s, q, desc, pins);
    var a := s.refAt[DescKey(q, desc)];
    RefHere(s, a, pins);
    hide ListOk, LocalOk, FlagsOk, NodeOk;
    AccountAt(s0, s, extra, more, a, strong);
    if pin in more {
      DecRefShape(s, a, strong, pins);
      ShrinkRef(s0, s, more, a, strong, pins0, pins);
      LoweredOthers(s, DecRef(s, a, strong), a, strong);
      SquareLess(s0, s, DecRef(s, a, strong), extra, more, pin);
      GrownRefs(s0, s, more);
      KeptLess(s0, s1, s, DecRef(s, a, strong), all, more, a, strong, pins1);
    } else {
      assert more - multiset{pin} == more;
      DecRefNothing(s, a, strong);
      SquareLess(s0, s, s, extra, more, pin);
    }
  }

  lemma DecRefNothing(s: State, r: RefId, strong: bool)
    requires r in s.refs && s.refs[r].node in s.nodes && CountOf(s.refs[r], strong) == 0
    ensures DecRef(s, r, strong) == s
  {
  }

  lemma GrownRefs(s0: State, s: State, more: multiset<Pin>)
    requires Grown(s0, s, more, None)
    ensures RefsGrown(s0, s, more)
  {
  }

  lemma NotCounted(s0: State, s: State, more: multiset<Pin>, q: Pid, desc: nat, strong: bool)
    requires Grown(s0, s, more, None) && DescKey(q, desc) !in s.refAt
    ensures RefPin(q, desc, strong) !in more
  {
  }

  /** A pin that was asked for and not counted stands for no count at all. */
  lemma AccountAt(s0: State, s: State, extra: multiset<Pin>, more: multiset<Pin>, r: RefId, strong: bool)
    requires Grown(s0, s, more, None) && Square(s0, s, extra, more) && r in s.refs
    requires RefPin(s.refs[r].proc, s.refs[r].desc, strong) in extra
    ensures RefPin(s.refs[r].proc, s.refs[r].desc, strong) in more <==> CountOf(s.refs[r], strong) > 0
  {
    CountIs(s0, s, more, r, strong);
    assert SquareAt(s0, s, extra, more, r, strong);
    if RefPin(s.refs[r].proc, s.refs[r].desc, strong) !in more {
      assert Base(s0, r, strong) == 0;
    }
  }

  // ---- passing on ----

  /** One more pin asked for, and counted unless it was refused. */
  lemma SquareStep(s0: State, s: State, p: Pid, q: Pid, o: Obj, n: NodeId, r: RefId, extra: multiset<Pin>, more: multiset<Pin>, pins: multiset<Pin>)
    requires Square(s0, s, extra, more) && Inv(s, pins) && Grown(s0, s, more, None) && s0.refs.Keys <= s.refs.Keys
    requires p in s.descs && q in s.descs && n !in s.nodes && r !in s.refs
    ensures var (s', out) := Translated(s, p, q, o, n, r);
            out.Some? ==> Square(s0, s', extra + multiset{PinFor(q, out.value)}, more + Paid(s, p, q, o, r, out))
  {
    hide Inv, Grown, Translated, Square, Sound, Refusing;
    InvIs(s, pins);
    var (s', out) := Translated(s, p, q, o, n, r);
    if out.Some? {
      TranslatedRefs(s, p, q, o, n, r, pins);
      TranslatedDescs(s, p, q, o, n, r, pins);
      GrownRefs(s0, s, more);
      if Refusing(s, p, q, o, r) {
        RefusedCount(s, p, q, o, n, r, pins);
        SquareOnly(s0, s, s', extra, more, q, out.value);
        assert more + multiset{} == more;
      } else {
        SquareBoth(s0, s, s', extra, more, PinFor(q, out.value));
      }
    }
  }

  lemma InvIs(s: State, pins: multiset<Pin>)
    requires Inv(s, pins)
    ensures Sound(s, pins) && WantedBut(s, None)
  {
  }

  /** References keep their descriptors. */
  ghost predicate DescsKept(s: State, s': State) {
    forall a :: a in s.refs && a in s'.refs ==> s'.refs[a].proc == s.refs[a].proc && s'.refs[a].desc == s.refs[a].desc
  }

  lemma SquareBoth(s0: State, s: State, s': State, extra: multiset<Pin>, more: multiset<Pin>, pin: Pin)
    requires Square(s0, s, extra, more) && DescsKept(s, s') && s0.refs.Keys <= s.refs.Keys
    ensures Square(s0, s', extra + multiset{pin}, more + multiset{pin})
  {
    var extra', more' := extra + multiset{pin}, more + multiset{pin};
    forall p: Pid, ptr: Ptr, strong: bool ensures extra'[NodePin(p, ptr, strong)] == more'[NodePin(p, ptr, strong)] {
      assert extra[NodePin(p, ptr, strong)] == more[NodePin(p, ptr, strong)];
    }
    forall a | a in s'.refs ensures SquareAt(s0, s', extra', more', a, true) && SquareAt(s0, s', extra', more', a, false) {
      if a in s.refs {
        assert SquareAt(s0, s, extra, more, a, true) && SquareAt(s0, s, extra, more, a, false);
      }
    }
  }

  lemma SquareOnly(s0: State, s: State, s': State, extra: multiset<Pin>, more: multiset<Pin>, q: Pid, ou: Obj)
    requires Square(s0, s, extra, more) && DescsKept(s, s') && s0.refs.Keys <= s.refs.Keys && RefsGrown(s0, s, more)
    requires ou.Handle? && CountsNothing(s, q, ou)
    ensures Square(s0, s', extra + multiset{PinFor(q, ou)}, more)
  {
    var extra' := extra + multiset{PinFor(q, ou)};
    forall p: Pid, ptr: Ptr, strong: bool ensures extra'[NodePin(p, ptr, strong)] == more[NodePin(p, ptr, strong)] {
      assert extra[NodePin(p, ptr, strong)] == more[NodePin(p, ptr, strong)];
    }
    forall a | a in s'.refs ensures SquareAt(s0, s', extra', more, a, true) && SquareAt(s0, s', extra', more, a, false) {
      if a in s.refs {
        CountIs(s0, s, more, a, ou.strong);
        assert SquareAt(s0, s, extra, more, a, true) && SquareAt(s0, s, extra, more, a, false);
        hide RefsGrown;
      }
    }
  }

  /** The reference the object names, if there is one yet, has no such count. */
  ghost predicate CountsNothing(s: State, q: Pid, ou: Obj)
    requires ou.Handle?
  {
    forall a :: a in s.refs && s.refs[a].proc == q && s.refs[a].desc == ou.desc ==> CountOf(s.refs[a], ou.strong) == 0
  }

  lemma RefusedCount(s: State, p: Pid, q: Pid, o: Obj, n: NodeId, r: RefId, pins: multiset<Pin>)
    requires Sound(s, pins) && q in s.descs && r !in s.refs && Refusing(s, p, q, o, r)
    ensures var out := Translated(s, p, q, o, n, r).1;
            out.Some? ==> out.value.Handle? && CountsNothing(s, q, out.value)
  {
    hide Sound;
    var m := Named(s, p, o).value;
    LinkedIs(s, q, m, r, pins);
    var s1, r1 := Linked(s, q, m, r), RefTo(s, q, m, r);
    hide WithPin, Refused;
    forall a | a in s.refs && s.refs[a].proc == q && s.refs[a].desc == s1.refs[r1].desc ensures CountOf(s.refs[a], o.strong) == 0 {
      if a != r1 {
        SameDesc(s, a, r1, s1.refs[r1], pins);
      }
    }
  }

  lemma SameDesc(s: State, a: RefId, r: RefId, ref: Ref, pins: multiset<Pin>)
    requires Sound(s, pins) && a in s.refs && s.refs[a].proc == ref.proc && s.refs[a].desc == ref.desc
    requires if r in s.refs then ref == s.refs[r] else DescKey(ref.proc, ref.desc) !in s.refAt
    ensures a == r
  {
    if a != r {
      KeyApart(s, a, r, ref, pins);
    }
  }

  lemma TranslatedDescs(s: State, p: Pid, q: Pid, o: Obj, n: NodeId, r: RefId, pins: multiset<Pin>)
    requires Inv(s, pins) && p in s.descs && q in s.descs && n !in s.nodes && r !in s.refs
    ensures DescsKept(s, Translated(s, p, q, o, n, r).0) && s.refs.Keys <= Translated(s, p, q, o, n, r).0.refs.Keys
  {
    hide Inv, DescsKept;
    match o
    case Binder(ptr, cookie, strong) => BinderDescs(s, p, q, ptr, cookie, strong, n, r, pins);
    case Handle(desc, strong) => HandleDescs(s, p, q, desc, strong, n, r, pins);
  }

  lemma BinderDescs(s: State, p: Pid, q: Pid, ptr: Ptr, cookie: nat, strong: bool, n: NodeId, r: RefId, pins: multiset<Pin>)
    requires Inv(s, pins) && p in s.descs && q in s.descs && n !in s.nodes && r !in s.refs
    ensures var s' := Translated(s, p, q, Binder(ptr, cookie, strong), n, r).0; DescsKept(s, s') && s.refs.Keys <= s'.refs.Keys
  {
    hide Sound, Linked, RefTo, WithPin;
    var s1, m := s, n;
    if NodeKey(p, ptr) in s.nodeAt {
      KeyHere(s, p, ptr, pins);
      m := s.nodeAt[NodeKey(p, ptr)];
    } else {
      NewNodeKeeps(s, p, ptr, cookie, n, pins);
      s1 := NewNode(s, p, ptr, cookie, n);
    }
    LinkedIs(s1, q, m, r, pins);
    PinDescs(s1, q, m, r, strong, true, pins);
  }

  lemma HandleDescs(s: State, p: Pid, q: Pid, desc: nat, strong: bool, n: NodeId, r: RefId, pins: multiset<Pin>)
    requires Inv(s, pins) && p in s.descs && q in s.descs && n !in s.nodes && r !in s.refs
    ensures var s' := Translated(s, p, q, Handle(desc, strong), n, r).0; DescsKept(s, s') && s.refs.Keys <= s'.refs.Keys
  {
    hide Sound, Linked, RefTo, WithPin, Incremented, ListOk, LocalOk, NodeOk, FlagsOk;
    if DescKey(p, desc) in s.refAt && s.refAt[DescKey(p, desc)] in s.refs {
      RefHere(s, s.refAt[DescKey(p, desc)], pins);
      LinkedIs(s, q, s.refs[s.refAt[DescKey(p, desc)]].node, r, pins);
      PinDescs(s, q, s.refs[s.refAt[DescKey(p, desc)]].node, r, strong, false, pins);
    }
  }

  lemma PinDescs(s: State, q: Pid, m: NodeId, r: RefId, strong: bool, list: bool, pins: multiset<Pin>)
    requires Sound(s, pins) && q in s.descs && m in s.nodes && r !in s.refs
    ensures DescsKept(s, WithPin(s, q, m, r, strong, list)) && s.refs.Keys <= WithPin(s, q, m, r, strong, list).refs.Keys
  {
    hide Sound;
    LinkedIs(s, q, m, r, pins);
    LinkedNodes(s, q, m, r, pins);
    IncRefShape(Linked(s, q, m, r), RefTo(s, q, m, r), strong, list);
    hide Linked, RefTo, IncRef;
  }
}
