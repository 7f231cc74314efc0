/** Objects in transit: what a buffer pins, how an object is translated for its receiver, and how a buffer
    lets go of what it pins. */
module Transfers {
  import opened Wrappers
  import opened Store
  import opened Counts
  import opened Owners
  import opened Rollback

  /** An allocated buffer of process `proc`. `targetPtr` is the address of its target node. */
  datatype Buf = Buf(proc: Pid, target: Option<NodeId>, targetPtr: Ptr, objs: seq<Obj>)

  function BufPins(b: Buf): multiset<Pin> {
    (if b.target.Some? then multiset{NodePin(b.proc, b.targetPtr, true)} else multiset{}) + PinsFor(b.proc, b.objs)
  }

  function AllPins(bufs: seq<Buf>): multiset<Pin> {
    if bufs == [] then multiset{} else BufPins(bufs[0]) + AllPins(bufs[1..])
  }

  lemma {:induction false} AllPinsAdd(bufs: seq<Buf>, b: Buf)
    ensures AllPins(bufs + [b]) == AllPins(bufs) + BufPins(b)
  {
    if bufs == [] {
      assert bufs + [b] == [b];
    } else {
      assert (bufs + [b])[1..] == bufs[1..] + [b];
      AllPinsAdd(bufs[1..], b);
    }
  }

  lemma {:induction false} AllPinsDrop(bufs: seq<Buf>, i: nat)
    requires i < |bufs|
    ensures AllPins(bufs) == AllPins(bufs[..i] + bufs[i + 1..]) + BufPins(bufs[i])
  {
    if i == 0 {
      assert bufs[..0] + bufs[1..] == bufs[1..];
    } else {
      assert (bufs[..i] + bufs[i + 1..])[1..] == bufs[1..][..i - 1] + bufs[1..][i..];
      AllPinsDrop(bufs[1..], i - 1);
    }
  }

  /** Every buffer belongs to a process, and the node it was sent to is still there. */
  ghost predicate TargetsOk(s: State, bufs: seq<Buf>) {
    forall i :: 0 <= i < |bufs| ==> TargetOk(s, bufs[i])
  }

  ghost predicate TargetOk(s: State, b: Buf) {
    b.proc in s.descs
    && (b.target.Some? ==> NodeKey(b.proc, b.targetPtr) in s.nodeAt && s.nodeAt[NodeKey(b.proc, b.targetPtr)] == b.target.value)
  }

  /** No address came to mean another node. */
  ghost predicate KeysKept(a: State, b: State) {
    b.descs.Keys == a.descs.Keys && forall k :: k in a.nodeAt && k in b.nodeAt ==> b.nodeAt[k] == a.nodeAt[k]
  }

  /** A buffer never outlives the node it was sent to: the node is pinned. */
  lemma TargetsKept(a: State, b: State, bufs: seq<Buf>, pins: multiset<Pin>)
    requires TargetsOk(a, bufs) && KeysKept(a, b) && PinsOk(b, pins) && AllPins(bufs) <= pins
    ensures TargetsOk(b, bufs)
  {
    forall i | 0 <= i < |bufs| ensures TargetOk(b, bufs[i]) {
      AllPinsDrop(bufs, i);
      if bufs[i].target.Some? {
        assert NodePin(bufs[i].proc, bufs[i].targetPtr, true) in BufPins(bufs[i]);
      }
    }
  }

  lemma DecKeys(s: State, n: NodeId, strong: bool, internal: bool)
    requires n in s.nodes
    ensures KeysKept(s, DecNode(s, n, strong, internal))
  {
  }

  lemma LinkKeys(s: State, q: Pid, n: NodeId, r: RefId, strong: bool, list: bool)
    requires n in s.nodes && q in s.descs
    ensures KeysKept(s, WithPin(s, q, n, r, strong, list))
    ensures WithPin(s, q, n, r, strong, list).nodeAt == s.nodeAt
  {
    hide Linked, IncRef;
    LinkedAt(s, q, n, r);
    var s1, r1 := Linked(s, q, n, r), RefTo(s, q, n, r);
    if r1 in s1.refs && s1.refs[r1].node in s1.nodes {
      IncRefAt(s1, r1, strong, list);
    }
  }

  lemma LinkedAt(s: State, q: Pid, n: NodeId, r: RefId)
    requires n in s.nodes && q in s.descs
    ensures Linked(s, q, n, r).nodeAt == s.nodeAt && Linked(s, q, n, r).descs.Keys == s.descs.Keys
  {
    hide FirstFree, Inserted;
  }

  lemma IncRefAt(s: State, r: RefId, strong: bool, list: bool)
    requires r in s.refs && s.refs[r].node in s.nodes
    ensures IncRef(s, r, strong, list).nodeAt == s.nodeAt && IncRef(s, r, strong, list).descs == s.descs
  {
    hide Refused, Incremented;
  }

  lemma DeleteKeys(s: State, r: RefId)
    requires r in s.refs && s.refs[r].node in s.nodes
    ensures KeysKept(s, DeleteRef(s, r))
  {
    hide DecNode;
    DecKeys(Unref(Weakened(s, r), r), s.refs[r].node, false, true);
  }

  lemma DecRefKeys(s: State, r: RefId, strong: bool)
    requires r in s.refs && s.refs[r].node in s.nodes
    ensures KeysKept(s, DecRef(s, r, strong))
  {
    hide DeleteRef, LostStrong;
    if if strong then s.refs[r].strong > 0 else s.refs[r].weak > 0 {
      DeleteKeys(LoweredRef(s, r, strong), r);
      DecRefIs(s, r, strong);
      assert LoweredRef(s, r, strong).nodeAt == s.nodeAt;
    }
  }

  // ---- what an object means ----

  /** The node an object names in process `p`. */
  ghost function Named(s: State, p: Pid, o: Obj): Option<NodeId> {
    match o
    case Binder(ptr, _, _) => if NodeKey(p, ptr) in s.nodeAt then Some(s.nodeAt[NodeKey(p, ptr)]) else None
    case Handle(desc, _) =>
      if DescKey(p, desc) in s.refAt && s.refAt[DescKey(p, desc)] in s.refs
      then Some(s.refs[s.refAt[DescKey(p, desc)]].node) else None
  }

  // ---- translating one object ----

  /** What `binder_transaction` makes of one object sent from process `p` to process `q`; `n` and `r` are the
      records a new node and a new reference get. None: the object is refused. */
  function Translated(s: State, p: Pid, q: Pid, o: Obj, n: NodeId, r: RefId): (State, Option<Obj>)
    requires q in s.descs
  {
    match o
    case Binder(ptr, cookie, strong) =>
      var s1 := if NodeKey(p, ptr) in s.nodeAt then s else NewNode(s, p, ptr, cookie, n);
      var m := s1.nodeAt[NodeKey(p, ptr)];
      if m !in s1.nodes || cookie != s1.nodes[m].cookie then (s1, None) else
      var s2, r1 := Linked(s1, q, m, r), RefTo(s1, q, m, r);
      if r1 !in s2.refs then (s2, None) else (WithPin(s1, q, m, r, strong, true), Some(Handle(s2.refs[r1].desc, strong)))
    case Handle(desc, strong) =>
      if DescKey(p, desc) !in s.refAt || s.refAt[DescKey(p, desc)] !in s.refs then (s, None) else
      var m := s.refs[s.refAt[DescKey(p, desc)]].node;
      if m !in s.nodes then (s, None)
      else if s.nodes[m].proc == Some(q) then
        (WithNode(s, m, Incremented(s, m, strong, false, false)), Some(Binder(s.nodes[m].ptr, s.nodes[m].cookie, strong)))
      else
        var s2, r1 := Linked(s, q, m, r), RefTo(s, q, m, r);
        if r1 !in s2.refs then (s2, None) else (WithPin(s, q, m, r, strong, false), Some(Handle(s2.refs[r1].desc, strong)))
  }

  /** A translated object is pinned by the buffer it is in. */
  lemma TranslatedKeeps(s: State, p: Pid, q: Pid, o: Obj, n: NodeId, r: RefId, pins: multiset<Pin>)
    requires Inv(s, pins) && p in s.descs && q in s.descs && n !in s.nodes && r !in s.refs
    ensures var (s', out) := Translated(s, p, q, o, n, r);
            Inv(s', pins + if out.Some? then multiset{PinFor(q, out.value)} else multiset{})
  {
    match o
    case Binder(ptr, cookie, strong) => BinderKeeps(s, p, q, ptr, cookie, strong, n, r, pins);
    case Handle(desc, strong) => HandleKeeps(s, p, q, desc, strong, n, r, pins);
  }

  lemma BinderKeeps(s: State, p: Pid, q: Pid, ptr: Ptr, cookie: nat, strong: bool, n: NodeId, r: RefId, pins: multiset<Pin>)
    requires Inv(s, pins) && p in s.descs && q in s.descs && n !in s.nodes && r !in s.refs
    ensures var (s', out) := Translated(s, p, q, Binder(ptr, cookie, strong), n, r);
            Inv(s', pins + if out.Some? then multiset{PinFor(q, out.value)} else multiset{})
  {
    hide Sound;
    var s1, m := s, n;
    if NodeKey(p, ptr) in s.nodeAt {
      KeyHere(s, p, ptr, pins);
      m := s.nodeAt[NodeKey(p, ptr)];
    } else {
      NewNodeKeeps(s, p, ptr, cookie, n, pins);
      s1 := NewNode(s, p, ptr, cookie, n);
      NoRefTo(s, q, n, pins);
    }
    PinKeeps(s1, q, m, r, strong, true, pins);
    hide Linked, RefTo, WithPin, Wanted;
    assert pins + multiset{} == pins;
  }

  /** A reference with one more count, and the pin it stands for. */
  lemma PinKeeps(s: State, q: Pid, m: NodeId, r: RefId, strong: bool, list: bool, pins: multiset<Pin>)
    requires Sound(s, pins) && WantedBut(s, Some(m)) && q in s.descs && m in s.nodes && r !in s.refs
    requires ForKey(q, m) in s.refFor ==> Wanted(s.nodes[m])
    requires list ==> s.nodes[m].proc.Some?
    ensures RefTo(s, q, m, r) in Linked(s, q, m, r).refs
    ensures Inv(WithPin(s, q, m, r, strong, list),
                pins + multiset{RefPin(q, Linked(s, q, m, r).refs[RefTo(s, q, m, r)].desc, strong)})
  {
    hide Sound;
    LinkedIs(s, q, m, r, pins);
    LinkedKeeps(s, q, m, r, pins);
    LinkedNodes(s, q, m, r, pins);
    hide Linked, RefTo, Wanted, IncRef;
    IncRefKeeps(Linked(s, q, m, r), RefTo(s, q, m, r), strong, list, pins);
    RefPinFree(WithPin(s, q, m, r, strong, list), q, Linked(s, q, m, r).refs[RefTo(s, q, m, r)].desc, strong, pins);
  }

  lemma KeyHere(s: State, p: Pid, ptr: Ptr, pins: multiset<Pin>)
    requires Sound(s, pins) && NodeKey(p, ptr) in s.nodeAt
    ensures var m := s.nodeAt[NodeKey(p, ptr)]; m in s.nodes && s.nodes[m].proc == Some(p) && s.nodes[m].ptr == ptr
  {
    assert NodeKeyOk(s, NodeKey(p, ptr));
  }

  lemma NoRefTo(s: State, q: Pid, n: NodeId, pins: multiset<Pin>)
    requires Sound(s, pins)
    ensures ForKey(q, n) in s.refFor ==> n in s.nodes
  {
    if ForKey(q, n) in s.refFor {
      assert ForKeyOk(s, ForKey(q, n));
      assert RefOk(s, s.refFor[ForKey(q, n)]);
    }
  }

  /** A pin on a reference is no concern of the nodes. */
  lemma RefPinFree(s: State, q: Pid, d: nat, strong: bool, pins: multiset<Pin>)
    requires Inv(s, pins)
    ensures Inv(s, pins + multiset{RefPin(q, d, strong)})
    ensures Inv(s, pins - multiset{RefPin(q, d, strong)})
  {
    hide KeysOk, RefsOk, ManagerOk;
    SamePinsSound(s, pins, pins + multiset{RefPin(q, d, strong)});
    SamePinsSound(s, pins, pins - multiset{RefPin(q, d, strong)});
  }

  lemma SamePinsSound(s: State, pins: multiset<Pin>, pins': multiset<Pin>)
    requires Sound(s, pins) && SameNodePins(pins, pins')
    ensures Sound(s, pins')
  {
    hide KeysOk, RefsOk;
    forall n | n in s.nodes ensures NodeSound(s, n, pins') {
      assert NodeSound(s, n, pins);
      hide NodeOk, ListOk;
    }
    forall k: Pin | k in pins' && k.NodePin? ensures NodeKey(k.proc, k.ptr) in s.nodeAt {
      assert pins[NodePin(k.proc, k.ptr, k.strong)] == pins'[NodePin(k.proc, k.ptr, k.strong)];
    }
  }

  lemma HandleKeeps(s: State, p: Pid, q: Pid, desc: nat, strong: bool, n: NodeId, r: RefId, pins: multiset<Pin>)
    requires Inv(s, pins) && p in s.descs && q in s.descs && n !in s.nodes && r !in s.refs
    ensures var (s', out) := Translated(s, p, q, Handle(desc, strong), n, r);
            Inv(s', pins + if out.Some? then multiset{PinFor(q, out.value)} else multiset{})
  {
    hide Sound;
    assert pins + multiset{} == pins;
    if DescKey(p, desc) in s.refAt && s.refAt[DescKey(p, desc)] in s.refs {
      RefHere(s, s.refAt[DescKey(p, desc)], pins);
      var m := s.refs[s.refAt[DescKey(p, desc)]].node;
      hide ListOk, LocalOk;
      if s.nodes[m].proc == Some(q) {
        IncLocal(s, m, strong, false, pins);
        IncWanted(s, m, strong);
      } else {
        PinKeeps(s, q, m, r, strong, false, pins);
        hide Linked, RefTo, WithPin;
      }
    }
  }

  lemma IncWanted(s: State, m: NodeId, strong: bool)
    requires WantedBut(s, None) && m in s.nodes
    ensures s.nodes[m].localStrong >= 0 && s.nodes[m].localWeak >= 0 ==>
              WantedBut(WithNode(s, m, Incremented(s, m, strong, false, false)), None)
  {
  }

  // ---- translation and the rest of the state ----

  /** No node that was there before is missing, nor told anything; a new one knows nothing. */
  ghost predicate Grew(s: State, s': State) {
    && KeysKept(s, s') && s.nodes.Keys <= s'.nodes.Keys
    && (forall m :: m in s.nodes ==> ViewOf(s'.nodes[m]) == ViewOf(s.nodes[m]) && s'.nodes[m].proc == s.nodes[m].proc)
    && (forall m :: m in s'.nodes && m !in s.nodes ==> ViewOf(s'.nodes[m]) == View(false, false, false, false))
  }

  lemma GrewTwice(a: State, b: State, c: State)
    requires Grew(a, b) && Grew(b, c) && a.nodeAt.Keys <= b.nodeAt.Keys && b.nodeAt.Keys <= c.nodeAt.Keys
    ensures Grew(a, c)
  {
  }

  lemma OnlyGrew(s: State, s': State, n: NodeId)
    requires n in s.nodes && OnlyNode(s, s', n) && s'.nodeAt == s.nodeAt
    ensures Grew(s, s')
  {
  }

  lemma NewGrew(s: State, p: Pid, ptr: Ptr, cookie: nat, n: NodeId)
    requires n !in s.nodes && NodeKey(p, ptr) !in s.nodeAt
    ensures Grew(s, NewNode(s, p, ptr, cookie, n))
    ensures s.nodeAt.Keys <= NewNode(s, p, ptr, cookie, n).nodeAt.Keys
  {
  }

  lemma TranslatedGrew(s: State, p: Pid, q: Pid, o: Obj, n: NodeId, r: RefId, pins: multiset<Pin>)
    requires Inv(s, pins) && p in s.descs && q in s.descs && n !in s.nodes && r !in s.refs
    ensures Grew(s, Translated(s, p, q, o, n, r).0)
  {
    hide Sound;
    match o
    case Binder(ptr, cookie, strong) =>
      var s1, m := s, n;
      if NodeKey(p, ptr) in s.nodeAt {
        KeyHere(s, p, ptr, pins);
        m := s.nodeAt[NodeKey(p, ptr)];
      } else {
        NewNodeKeeps(s, p, ptr, cookie, n, pins);
        s1 := NewNode(s, p, ptr, cookie, n);
        NewGrew(s, p, ptr, cookie, n);
      }
      PinGrew(s1, q, m, r, strong, true, pins);
      hide Linked, RefTo, WithPin, Grew;
      GrewSame(s);
      if NodeKey(p, ptr) !in s.nodeAt {
        GrewTwice(s, s1, WithPin(s1, q, m, r, strong, true));
      }
    case Handle(desc, strong) =>
      GrewSame(s);
      if DescKey(p, desc) in s.refAt && s.refAt[DescKey(p, desc)] in s.refs {
        RefHere(s, s.refAt[DescKey(p, desc)], pins);
        var m := s.refs[s.refAt[DescKey(p, desc)]].node;
        hide ListOk, LocalOk, NodeOk, FlagsOk;
        if s.nodes[m].proc == Some(q) {
          IncGrew(s, m, strong);
        } else {
          PinGrew(s, q, m, r, strong, false, pins);
        }
        hide Linked, RefTo, WithPin, Grew;
      }
  }

  lemma GrewSame(s: State)
    ensures Grew(s, s)
  {
  }

  lemma PinGrew(s: State, q: Pid, m: NodeId, r: RefId, strong: bool, list: bool, pins: multiset<Pin>)
    requires Sound(s, pins) && q in s.descs && m in s.nodes && r !in s.refs
    ensures RefTo(s, q, m, r) in Linked(s, q, m, r).refs
    ensures Grew(s, WithPin(s, q, m, r, strong, list)) && WithPin(s, q, m, r, strong, list).nodeAt == s.nodeAt
  {
    hide Sound;
    LinkedIs(s, q, m, r, pins);
    WithPinNodes(s, q, m, r, strong, list, pins);
    LinkKeys(s, q, m, r, strong, list);
    hide WithPin, Linked, RefTo;
    OnlyGrew(s, WithPin(s, q, m, r, strong, list), m);
  }

  lemma IncGrew(s: State, m: NodeId, strong: bool)
    requires m in s.nodes
    ensures Grew(s, WithNode(s, m, Incremented(s, m, strong, false, false)))
  {
    IncrementedSame(s, m, strong, false);
    hide Incremented;
  }

  /** Passing object `o` on finds or makes a reference whose count cannot go up. */
  ghost predicate Refusing(s: State, p: Pid, q: Pid, o: Obj, r: RefId)
    requires q in s.descs
  {
    o.Handle? && Named(s, p, o).Some? && Named(s, p, o).value in s.nodes && s.nodes[Named(s, p, o).value].proc != Some(q) &&
    var s1, r1 := Linked(s, q, Named(s, p, o).value, r), RefTo(s, q, Named(s, p, o).value, r);
    r1 in s1.refs && s1.refs[r1].node in s1.nodes && RefRefused(s1, r1, o.strong, false)
  }

  /** The pin that comes with a translated object, if it was counted. */
  ghost function Paid(s: State, p: Pid, q: Pid, o: Obj, r: RefId, out: Option<Obj>): multiset<Pin>
    requires q in s.descs
  {
    if out.Some? && !Refusing(s, p, q, o, r) then multiset{PinFor(q, out.value)} else multiset{}
  }

  /** The counts grew by just the pin of the translated object, if it was counted. */
  lemma TranslatedGrows(s0: State, s: State, more: multiset<Pin>, p: Pid, q: Pid, o: Obj, n: NodeId, r: RefId, pins: multiset<Pin>)
    requires Grown(s0, s, more, None) && Inv(s, pins) && more <= pins && s0.nodes.Keys <= s.nodes.Keys && s0.refs.Keys <= s.refs.Keys
    requires p in s.descs && q in s.descs && n !in s.nodes && r !in s.refs
    ensures var (s', out) := Translated(s, p, q, o, n, r);
            Grown(s0, s', more + Paid(s, p, q, o, r, out), None)
  {
    match o
    case Binder(ptr, cookie, strong) => BinderGrows(s0, s, more, p, q, ptr, cookie, strong, n, r, pins);
    case Handle(desc, strong) => HandleGrows(s0, s, more, p, q, desc, strong, n, r, pins);
  }

  lemma BinderGrows(s0: State, s: State, more: multiset<Pin>, p: Pid, q: Pid, ptr: Ptr, cookie: nat, strong: bool, n: NodeId,
                    r: RefId, pins: multiset<Pin>)
    requires Grown(s0, s, more, None) && Inv(s, pins) && more <= pins && s0.nodes.Keys <= s.nodes.Keys && s0.refs.Keys <= s.refs.Keys
    requires p in s.descs && q in s.descs && n !in s.nodes && r !in s.refs
    ensures var (s', out) := Translated(s, p, q, Binder(ptr, cookie, strong), n, r);
            Grown(s0, s', more + if out.Some? then multiset{PinFor(q, out.value)} else multiset{}, None)
  {
    hide Sound, Grown;
    assert more + multiset{} == more;
    var s1, m, bare := s, n, None;
    if NodeKey(p, ptr) in s.nodeAt {
      KeyHere(s, p, ptr, pins);
      m := s.nodeAt[NodeKey(p, ptr)];
    } else {
      NewNodeKeeps(s, p, ptr, cookie, n, pins);
      s1, bare := NewNode(s, p, ptr, cookie, n), Some(n);
      GrowNew(s0, s, more, p, ptr, cookie, n, pins);
    }
    ListedRef(s1, q, m, r, strong, pins);
    GrowRef(s0, s1, more, bare, q, m, r, strong, true, pins);
    hide Linked, RefTo, WithPin;
  }

  /** With a list to put the node's work item on, nothing is refused. */
  lemma ListedRef(s: State, q: Pid, m: NodeId, r: RefId, strong: bool, pins: multiset<Pin>)
    requires Sound(s, pins) && q in s.descs && m in s.nodes && r !in s.refs
    ensures var s1, r1 := Linked(s, q, m, r), RefTo(s, q, m, r);
            r1 in s1.refs && s1.refs[r1].node in s1.nodes && !RefRefused(s1, r1, strong, true)
  {
    LinkedIs(s, q, m, r, pins);
  }

  lemma HandleGrows(s0: State, s: State, more: multiset<Pin>, p: Pid, q: Pid, desc: nat, strong: bool, n: NodeId, r: RefId,
                    pins: multiset<Pin>)
    requires Grown(s0, s, more, None) && Inv(s, pins) && s0.refs.Keys <= s.refs.Keys
    requires p in s.descs && q in s.descs && n !in s.nodes && r !in s.refs
    ensures var (s', out) := Translated(s, p, q, Handle(desc, strong), n, r);
            Grown(s0, s', more + Paid(s, p, q, Handle(desc, strong), r, out), None)
  {
    hide Sound, Grown;
    assert more + multiset{} == more;
    if DescKey(p, desc) in s.refAt && s.refAt[DescKey(p, desc)] in s.refs {
      RefHere(s, s.refAt[DescKey(p, desc)], pins);
      var m := s.refs[s.refAt[DescKey(p, desc)]].node;
      hide ListOk, LocalOk, NodeOk, FlagsOk;
      if s.nodes[m].proc == Some(q) {
        GrowLocal(s0, s, more, m, strong, false, pins);
      } else {
        LinkedIs(s, q, m, r, pins);
        if Refusing(s, p, q, Handle(desc, strong), r) {
          GrowLink(s0, s, more, q, m, r, strong, false, pins);
        } else {
          GrowRef(s0, s, more, None, q, m, r, strong, false, pins);
        }
      }
      hide Linked, RefTo, WithPin;
    }
  }

  /** References that came with the transaction are the receiver's; when a process sends to itself, they
      are to its own nodes. */
  ghost predicate BornOwn(s0: State, s: State, p: Pid, q: Pid) {
    forall r :: r in s.refs && r !in s0.refs ==>
      s.refs[r].proc == q && (p == q ==> s.refs[r].node in s.nodes && s.nodes[s.refs[r].node].proc == Some(p))
  }

  lemma TranslatedOwn(s0: State, s: State, p: Pid, q: Pid, o: Obj, n: NodeId, r: RefId, pins: multiset<Pin>)
    requires BornOwn(s0, s, p, q) && Inv(s, pins) && p in s.descs && q in s.descs && n !in s.nodes && r !in s.refs
    ensures BornOwn(s0, Translated(s, p, q, o, n, r).0, p, q)
  {
    TranslatedGrew(s, p, q, o, n, r, pins);
    TranslatedRefs(s, p, q, o, n, r, pins);
    hide Sound, Translated;
  }

  /** References stay to the nodes they were to; those that come with an object are the receiver's. */
  ghost predicate RefsAdded(s: State, s': State, p: Pid, q: Pid) {
    forall a :: a in s'.refs ==>
      if a in s.refs then s'.refs[a].proc == s.refs[a].proc && s'.refs[a].node == s.refs[a].node
      else s'.refs[a].proc == q && s'.refs[a].node in s'.nodes && (p == q ==> s'.nodes[s'.refs[a].node].proc == Some(p))
  }

  lemma TranslatedRefs(s: State, p: Pid, q: Pid, o: Obj, n: NodeId, r: RefId, pins: multiset<Pin>)
    requires Inv(s, pins) && p in s.descs && q in s.descs && n !in s.nodes && r !in s.refs
    ensures RefsAdded(s, Translated(s, p, q, o, n, r).0, p, q)
  {
    hide Inv, RefsAdded;
    match o
    case Binder(ptr, cookie, strong) => BinderRefs(s, p, q, ptr, cookie, strong, n, r, pins);
    case Handle(desc, strong) => HandleRefs(s, p, q, desc, strong, n, r, pins);
  }

  lemma BinderRefs(s: State, p: Pid, q: Pid, ptr: Ptr, cookie: nat, strong: bool, n: NodeId, r: RefId, pins: multiset<Pin>)
    requires Inv(s, pins) && p in s.descs && q in s.descs && n !in s.nodes && r !in s.refs
    ensures RefsAdded(s, Translated(s, p, q, Binder(ptr, cookie, strong), n, r).0, p, q)
  {
    hide Sound, Linked, RefTo, WithPin;
    var s1, m := s, n;
    if NodeKey(p, ptr) in s.nodeAt {
      KeyHere(s, p, ptr, pins);
      m := s.nodeAt[NodeKey(p, ptr)];
    } else {
      NewNodeKeeps(s, p, ptr, cookie, n, pins);
      s1 := NewNode(s, p, ptr, cookie, n);
    }
    LinkedIs(s1, q, m, r, pins);
    PinRefs(s1, q, m, r, strong, true, pins);
  }

  lemma HandleRefs(s: State, p: Pid, q: Pid, desc: nat, strong: bool, n: NodeId, r: RefId, pins: multiset<Pin>)
    requires Inv(s, pins) && p in s.descs && q in s.descs && n !in s.nodes && r !in s.refs
    ensures RefsAdded(s, Translated(s, p, q, Handle(desc, strong), n, r).0, p, q)
  {
    hide Sound, Linked, RefTo, WithPin, ListOk, LocalOk, NodeOk, FlagsOk, Incremented;
    if DescKey(p, desc) in s.refAt && s.refAt[DescKey(p, desc)] in s.refs {
      var a := s.refAt[DescKey(p, desc)];
      RefHere(s, a, pins);
      DescHere(s, p, desc, pins);
      LinkedIs(s, q, s.refs[a].node, r, pins);
      PinRefs(s, q, s.refs[a].node, r, strong, false, pins);
    }
  }

  lemma DescHere(s: State, p: Pid, desc: nat, pins: multiset<Pin>)
    requires Sound(s, pins) && DescKey(p, desc) in s.refAt
    ensures var a := s.refAt[DescKey(p, desc)];
            a in s.refs && s.refs[a].proc == p && s.refs[a].desc == desc && ForKey(p, s.refs[a].node) in s.refFor
  {
    assert DescKeyOk(s, DescKey(p, desc));
    assert RefOk(s, s.refAt[DescKey(p, desc)]);
  }

  lemma PinRefs(s: State, q: Pid, m: NodeId, r: RefId, strong: bool, list: bool, pins: multiset<Pin>)
    requires Sound(s, pins) && q in s.descs && m in s.nodes && r !in s.refs
    ensures var s' := WithPin(s, q, m, r, strong, list);
            && s'.nodes.Keys == s.nodes.Keys && s'.nodes[m].proc == s.nodes[m].proc
            && forall a :: a in s'.refs ==>
                 if a in s.refs then s'.refs[a].proc == s.refs[a].proc && s'.refs[a].node == s.refs[a].node
                 else s'.refs[a].proc == q && s'.refs[a].node == m && ForKey(q, m) !in s.refFor
  {
    hide Sound;
    LinkedIs(s, q, m, r, pins);
    LinkedNodes(s, q, m, r, pins);
    WithPinNodes(s, q, m, r, strong, list, pins);
    IncRefShape(Linked(s, q, m, r), RefTo(s, q, m, r), strong, list);
    assert RefTo(s, q, m, r) !in s.refs ==> ForKey(q, m) !in s.refFor by {
      NoRefTo(s, q, m, pins);
      if ForKey(q, m) in s.refFor {
        ForHere(s, q, m, pins);
      }
    }
    hide Linked, RefTo, IncRef;
  }

  lemma ForHere(s: State, q: Pid, m: NodeId, pins: multiset<Pin>)
    requires Sound(s, pins) && ForKey(q, m) in s.refFor
    ensures s.refFor[ForKey(q, m)] in s.refs
  {
    assert ForKeyOk(s, ForKey(q, m));
  }

  lemma IncRefShape(s: State, r: RefId, strong: bool, list: bool)
    requires r in s.refs && s.refs[r].node in s.nodes
    ensures var s' := IncRef(s, r, strong, list);
            s'.refs.Keys == s.refs.Keys && forall a :: a in s.refs ==>
              s'.refs[a].proc == s.refs[a].proc && s'.refs[a].node == s.refs[a].node && s'.refs[a].desc == s.refs[a].desc
  {
    hide Refused, Incremented;
  }

  /** The receiver's object names the node the sender's object named, and is as strong. */
  lemma TranslatedNames(s: State, p: Pid, q: Pid, o: Obj, n: NodeId, r: RefId, pins: multiset<Pin>)
    requires Inv(s, pins) && p in s.descs && q in s.descs && n !in s.nodes && r !in s.refs
    ensures var (s', out) := Translated(s, p, q, o, n, r);
            out.Some? ==> Named(s', q, out.value).Some? && Named(s', q, out.value) == Named(s', p, o)
                          && out.value.strong == o.strong
  {
    hide Sound;
    match o
    case Binder(ptr, cookie, strong) =>
      var s1, m := s, n;
      if NodeKey(p, ptr) in s.nodeAt {
        KeyHere(s, p, ptr, pins);
        m := s.nodeAt[NodeKey(p, ptr)];
      } else {
        NewNodeKeeps(s, p, ptr, cookie, n, pins);
        s1 := NewNode(s, p, ptr, cookie, n);
        NoRefTo(s, q, n, pins);
      }
      PinNames(s1, q, m, r, strong, true, pins);
      hide Linked, RefTo, WithPin;
    case Handle(desc, strong) =>
      if DescKey(p, desc) in s.refAt && s.refAt[DescKey(p, desc)] in s.refs {
        var a := s.refAt[DescKey(p, desc)];
        RefHere(s, a, pins);
        hide ListOk, LocalOk, FlagsOk;
        var m := s.refs[a].node;
        if s.nodes[m].proc != Some(q) {
          PinNames(s, q, m, r, strong, false, pins);
          DescHere(s, p, desc, pins);
          PinRefs(s, q, m, r, strong, false, pins);
        }
        hide Linked, RefTo, WithPin;
      }
  }

  lemma PinNames(s: State, q: Pid, m: NodeId, r: RefId, strong: bool, list: bool, pins: multiset<Pin>)
    requires Sound(s, pins) && WantedBut(s, Some(m)) && q in s.descs && m in s.nodes && r !in s.refs
    requires ForKey(q, m) in s.refFor ==> Wanted(s.nodes[m])
    ensures var s1, r1 := Linked(s, q, m, r), RefTo(s, q, m, r);
            var s' := WithPin(s, q, m, r, strong, list);
            && r1 in s1.refs && s'.nodeAt == s.nodeAt && s'.nodes.Keys == s.nodes.Keys
            && Named(s', q, Handle(s1.refs[r1].desc, strong)) == Some(m)
            && (forall k :: k in s.refAt && s.refAt[k] in s.refs ==> k in s'.refAt && s'.refAt[k] == s.refAt[k] && s.refAt[k] in s'.refs)
  {
    hide Sound;
    LinkedIs(s, q, m, r, pins);
    LinkedNodes(s, q, m, r, pins);
    LinkedKeeps(s, q, m, r, pins);
    LinkKeys(s, q, m, r, strong, list);
    WithPinNodes(s, q, m, r, strong, list, pins);
    RefHere(Linked(s, q, m, r), RefTo(s, q, m, r), pins);
    hide ListOk, LocalOk, FlagsOk, NodeOk;
    IncRefNodes(Linked(s, q, m, r), RefTo(s, q, m, r), strong, list);
    IncRefShape(Linked(s, q, m, r), RefTo(s, q, m, r), strong, list);
    LinkedTree(s, q, m, r, pins);
    hide Linked, RefTo, IncRef;
  }

  lemma LinkedTree(s: State, q: Pid, m: NodeId, r: RefId, pins: multiset<Pin>)
    requires Sound(s, pins) && q in s.descs && m in s.nodes && r !in s.refs
    ensures forall k :: k in s.refAt ==> k in Linked(s, q, m, r).refAt && Linked(s, q, m, r).refAt[k] == s.refAt[k]
  {
    hide Sound, NewRef;
    LinkedIs(s, q, m, r, pins);
    if ForKey(q, m) !in s.refFor {
      NewTree(s, q, m, r);
    }
  }

  lemma NewTree(s: State, q: Pid, m: NodeId, r: RefId)
    requires q in s.descs && m in s.nodes
    ensures var s1 := NewRef(s, q, m, r); r in s1.refs && s1.refAt == s.refAt[DescKey(q, s1.refs[r].desc) := r]
  {
    hide FirstFree, Inserted;
  }

  // ---- letting go ----

  /** What `binder_transaction_buffer_release` does for one object of a buffer of process `q`. */
  function Released(s: State, q: Pid, o: Obj): State {
    match o
    case Binder(ptr, _, strong) =>
      if NodeKey(q, ptr) in s.nodeAt && s.nodeAt[NodeKey(q, ptr)] in s.nodes
      then DecNode(s, s.nodeAt[NodeKey(q, ptr)], strong, false) else s
    case Handle(desc, strong) =>
      if DescKey(q, desc) in s.refAt && s.refAt[DescKey(q, desc)] in s.refs
         && s.refs[s.refAt[DescKey(q, desc)]].node in s.nodes
      then DecRef(s, s.refAt[DescKey(q, desc)], strong) else s
  }

  /** A pinned node is found, and lets go of the pin. */
  lemma ReleasedKeeps(s: State, q: Pid, o: Obj, pins: multiset<Pin>)
    requires Inv(s, pins) && PinFor(q, o) in pins
    ensures o.Binder? ==> NodeKey(q, o.ptr) in s.nodeAt && s.nodeAt[NodeKey(q, o.ptr)] in s.nodes
    ensures Inv(Released(s, q, o), pins - multiset{PinFor(q, o)})
    ensures KeysKept(s, Released(s, q, o)) && Untold(s.nodes, Released(s, q, o).nodes)
  {
    match o
    case Binder(ptr, _, strong) =>
      assert NodeKey(q, ptr) in s.nodeAt;
      hide Sound;
      KeyHere(s, q, ptr, pins);
      var m := s.nodeAt[NodeKey(q, ptr)];
      DecLocal(s, m, strong, pins);
      DecKeys(s, m, strong, false);
      DecUntold(s, m, strong, false);
      hide DecNode;
    case Handle(desc, strong) =>
      hide Sound, DecRef;
      RefPinFree(s, q, desc, strong, pins);
      KeptSame(s);
      if DescKey(q, desc) in s.refAt {
        DescHere(s, q, desc, pins);
        var a := s.refAt[DescKey(q, desc)];
        RefHere(s, a, pins);
        hide ListOk, LocalOk, FlagsOk, NodeOk;
        DecRefKeeps(s, a, strong, pins - multiset{RefPin(q, desc, strong)});
        DecRefKeys(s, a, strong);
        DecRefUntold(s, a, strong);
      }
  }

  lemma KeptSame(s: State)
    ensures KeysKept(s, s) && Untold(s.nodes, s.nodes)
  {
  }

  // ---- steps on the whole table ----

  /** What holds of nodes, references, buffers and the histories of nodes, while a buffer that pins `extra`
      is being filled or emptied. */
  ghost predicate Held(s: State, bufs: seq<Buf>, log: map<NodeId, seq<Event>>, extra: multiset<Pin>) {
    Inv(s, AllPins(bufs) + extra) && TargetsOk(s, bufs) && LogsOk(s.nodes, log)
  }

  lemma HeldStep(s: State, s': State, bufs: seq<Buf>, log: map<NodeId, seq<Event>>, log': map<NodeId, seq<Event>>,
                 extra: multiset<Pin>, extra': multiset<Pin>)
    requires Held(s, bufs, log, extra) && KeysKept(s, s') && LogsOk(s'.nodes, log')
    requires Inv(s', AllPins(bufs) + extra')
    ensures Held(s', bufs, log', extra')
  {
    hide Inv, LogsOk, KeysKept, TargetOk;
    PinsThere(s', AllPins(bufs) + extra');
    TargetsKept(s, s', bufs, AllPins(bufs) + extra');
  }

  lemma PinsThere(s: State, pins: multiset<Pin>)
    requires Inv(s, pins)
    ensures PinsOk(s, pins)
  {
  }

  lemma TranslatedIds(s: State, p: Pid, q: Pid, o: Obj, n: NodeId, r: RefId, pins: multiset<Pin>)
    requires Inv(s, pins) && p in s.descs && q in s.descs && n !in s.nodes && r !in s.refs
    ensures Translated(s, p, q, o, n, r).0.nodes.Keys <= s.nodes.Keys + {n}
  {
    hide Sound;
    match o
    case Binder(ptr, cookie, strong) =>
      var s1, m := s, n;
      if NodeKey(p, ptr) in s.nodeAt {
        KeyHere(s, p, ptr, pins);
        m := s.nodeAt[NodeKey(p, ptr)];
      } else {
        NewNodeKeeps(s, p, ptr, cookie, n, pins);
        s1 := NewNode(s, p, ptr, cookie, n);
      }
      WithPinNodes(s1, q, m, r, strong, true, pins);
      LinkedIs(s1, q, m, r, pins);
      hide Linked, RefTo, WithPin;
    case Handle(desc, strong) =>
      if DescKey(p, desc) in s.refAt && s.refAt[DescKey(p, desc)] in s.refs {
        RefHere(s, s.refAt[DescKey(p, desc)], pins);
        hide ListOk, LocalOk, FlagsOk, NodeOk;
        var m := s.refs[s.refAt[DescKey(p, desc)]].node;
        WithPinNodes(s, q, m, r, strong, false, pins);
        LinkedIs(s, q, m, r, pins);
        hide Linked, RefTo, WithPin;
      }
  }

  function LogWith(log: map<NodeId, seq<Event>>, s: State, s': State, n: NodeId): map<NodeId, seq<Event>> {
    if n in s'.nodes && n !in s.nodes then log[n := []] else log
  }

  /** Translating an object pins what it names, and nothing else changes. */
  lemma TranslateStep(s: State, p: Pid, q: Pid, o: Obj, n: NodeId, r: RefId, bufs: seq<Buf>, log: map<NodeId, seq<Event>>,
                      extra: multiset<Pin>)
    requires Held(s, bufs, log, extra) && p in s.descs && q in s.descs && n !in s.nodes && r !in s.refs
    ensures var (s', out) := Translated(s, p, q, o, n, r);
            && Held(s', bufs, LogWith(log, s, s', n), extra + if out.Some? then multiset{PinFor(q, out.value)} else multiset{})
            && s'.descs.Keys == s.descs.Keys && s.nodes.Keys <= s'.nodes.Keys
  {
    var pins := AllPins(bufs) + extra;
    var (s', out) := Translated(s, p, q, o, n, r);
    var pin := if out.Some? then multiset{PinFor(q, out.value)} else multiset{};
    TranslatedKeeps(s, p, q, o, n, r, pins);
    TranslatedGrew(s, p, q, o, n, r, pins);
    TranslatedIds(s, p, q, o, n, r, pins);
    assert pins + pin == AllPins(bufs) + (extra + pin);
    hide Inv, Translated;
    GrewLogs(s, s', log, n);
    HeldStep(s, s', bufs, log, LogWith(log, s, s', n), extra, extra + pin);
  }

  lemma GrewLogs(s: State, s': State, log: map<NodeId, seq<Event>>, n: NodeId)
    requires LogsOk(s.nodes, log) && Grew(s, s') && n !in s.nodes && s'.nodes.Keys <= s.nodes.Keys + {n}
    ensures LogsOk(s'.nodes, LogWith(log, s, s', n))
  {
    assert Replay([]) == Some(View(false, false, false, false));
    hide Replay, ViewOf;
  }

  lemma ReleaseStep(s: State, q: Pid, o: Obj, bufs: seq<Buf>, log: map<NodeId, seq<Event>>, extra: multiset<Pin>)
    requires Held(s, bufs, log, extra) && PinFor(q, o) in extra
    ensures o.Binder? ==> NodeKey(q, o.ptr) in s.nodeAt && s.nodeAt[NodeKey(q, o.ptr)] in s.nodes
    ensures o.Handle? && DescKey(q, o.desc) in s.refAt ==>
              s.refAt[DescKey(q, o.desc)] in s.refs && s.refs[s.refAt[DescKey(q, o.desc)]].node in s.nodes
    ensures Held(Released(s, q, o), bufs, log, extra - multiset{PinFor(q, o)})
    ensures Released(s, q, o).descs.Keys == s.descs.Keys
  {
    hide Inv, Released, TargetsOk, LogsOk, Untold, KeysKept, PinFor;
    var pins := AllPins(bufs) + extra;
    ReleasedKeeps(s, q, o, pins);
    assert pins - multiset{PinFor(q, o)} == AllPins(bufs) + (extra - multiset{PinFor(q, o)});
    HandleFound(s, q, o, pins);
    SameProcs(s, Released(s, q, o));
    UntoldLogs(s.nodes, Released(s, q, o).nodes, log);
    HeldStep(s, Released(s, q, o), bufs, log, log, extra, extra - multiset{PinFor(q, o)});
  }

  lemma SameProcs(a: State, b: State)
    requires KeysKept(a, b)
    ensures b.descs.Keys == a.descs.Keys
  {
  }

  lemma HandleFound(s: State, q: Pid, o: Obj, pins: multiset<Pin>)
    requires Inv(s, pins)
    ensures o.Handle? && DescKey(q, o.desc) in s.refAt ==>
              s.refAt[DescKey(q, o.desc)] in s.refs && s.refs[s.refAt[DescKey(q, o.desc)]].node in s.nodes
  {
    hide Sound;
    if o.Handle? && DescKey(q, o.desc) in s.refAt {
      DescHere(s, q, o.desc, pins);
      RefHere(s, s.refAt[DescKey(q, o.desc)], pins);
    }
  }

  /** Pinning the node a transaction is sent to. */
  lemma TargetStep(s: State, n: NodeId, bufs: seq<Buf>, log: map<NodeId, seq<Event>>, extra: multiset<Pin>)
    requires Held(s, bufs, log, extra) && n in s.nodes && s.nodes[n].proc.Some?
    ensures Held(WithNode(s, n, Incremented(s, n, true, false, false)), bufs, log, extra + multiset{PinOn(s, n, true)})
    ensures Grown(s, WithNode(s, n, Incremented(s, n, true, false, false)), multiset{PinOn(s, n, true)}, None)
  {
    hide Inv, TargetsOk, LogsOk, KeysKept, Grown, Untold, Incremented;
    var pins := AllPins(bufs) + extra;
    var s' := WithNode(s, n, Incremented(s, n, true, false, false));
    IncUntold(s, n, true, false, false);
    IncTarget(s, n, pins);
    assert pins + multiset{PinOn(s, n, true)} == AllPins(bufs) + (extra + multiset{PinOn(s, n, true)});
    UntoldLogs(s.nodes, s'.nodes, log);
    HeldStep(s, s', bufs, log, log, extra, extra + multiset{PinOn(s, n, true)});
  }

  lemma IncTarget(s: State, n: NodeId, pins: multiset<Pin>)
    requires Inv(s, pins) && n in s.nodes && s.nodes[n].proc.Some?
    ensures Inv(WithNode(s, n, Incremented(s, n, true, false, false)), pins + multiset{PinOn(s, n, true)})
    ensures Grown(s, WithNode(s, n, Incremented(s, n, true, false, false)), multiset{PinOn(s, n, true)}, None)
    ensures KeysKept(s, WithNode(s, n, Incremented(s, n, true, false, false)))
  {
    hide Sound, Grown;
    Here(s, n, pins);
    Unsigned(s, n, pins);
    hide ListOk, LocalOk, NodeOk, FlagsOk;
    IncLocal(s, n, true, false, pins);
    IncWanted(s, n, true);
    GrownStart(s);
    GrowLocal(s, s, multiset{}, n, true, false, pins);
    assert multiset{} + multiset{PinOn(s, n, true)} == multiset{PinOn(s, n, true)};
  }

  /** What objects name stays named. */
  ghost predicate NamesKept(a: State, b: State) {
    && (forall k :: k in a.nodeAt ==> k in b.nodeAt && b.nodeAt[k] == a.nodeAt[k])
    && (forall k :: k in a.refAt && a.refAt[k] in a.refs ==>
          k in b.refAt && b.refAt[k] == a.refAt[k] && a.refAt[k] in b.refs && b.refs[a.refAt[k]].node == a.refs[a.refAt[k]].node)
  }

  lemma NamedStill(a: State, b: State, p: Pid, o: Obj)
    requires NamesKept(a, b) && Named(a, p, o).Some?
    ensures Named(b, p, o) == Named(a, p, o)
  {
  }

  lemma TranslatedStable(s: State, p: Pid, q: Pid, o: Obj, n: NodeId, r: RefId, pins: multiset<Pin>)
    requires Inv(s, pins) && p in s.descs && q in s.descs && n !in s.nodes && r !in s.refs
    ensures NamesKept(s, Translated(s, p, q, o, n, r).0)
  {
    hide Inv, NamesKept, Translated;
    TranslatedRefs(s, p, q, o, n, r, pins);
    match o
    case Binder(ptr, cookie, strong) => BinderStable(s, p, q, ptr, cookie, strong, n, r, pins);
    case Handle(desc, strong) => HandleStable(s, p, q, desc, strong, n, r, pins);
  }

  lemma BinderStable(s: State, p: Pid, q: Pid, ptr: Ptr, cookie: nat, strong: bool, n: NodeId, r: RefId, pins: multiset<Pin>)
    requires Inv(s, pins) && p in s.descs && q in s.descs && n !in s.nodes && r !in s.refs
    requires var s' := Translated(s, p, q, Binder(ptr, cookie, strong), n, r).0;
             forall a :: a in s'.refs && a in s.refs ==> s'.refs[a].node == s.refs[a].node
    ensures NamesKept(s, Translated(s, p, q, Binder(ptr, cookie, strong), n, r).0)
  {
    hide Sound, ListOk, LocalOk, FlagsOk, NodeOk;
    var s1, m := s, n;
    if NodeKey(p, ptr) in s.nodeAt {
      KeyHere(s, p, ptr, pins);
      m := s.nodeAt[NodeKey(p, ptr)];
    } else {
      NewNodeKeeps(s, p, ptr, cookie, n, pins);
      s1 := NewNode(s, p, ptr, cookie, n);
      NoRefTo(s, q, n, pins);
    }
    PinNames(s1, q, m, r, strong, true, pins);
    hide Linked, RefTo, WithPin, Named, Wanted;
  }

  lemma HandleStable(s: State, p: Pid, q: Pid, desc: nat, strong: bool, n: NodeId, r: RefId, pins: multiset<Pin>)
    requires Inv(s, pins) && p in s.descs && q in s.descs && n !in s.nodes && r !in s.refs
    requires var s' := Translated(s, p, q, Handle(desc, strong), n, r).0;
             forall a :: a in s'.refs && a in s.refs ==> s'.refs[a].node == s.refs[a].node
    ensures NamesKept(s, Translated(s, p, q, Handle(desc, strong), n, r).0)
  {
    hide Sound;
    if DescKey(p, desc) in s.refAt && s.refAt[DescKey(p, desc)] in s.refs {
      var a := s.refAt[DescKey(p, desc)];
      RefHere(s, a, pins);
      hide ListOk, LocalOk, FlagsOk, NodeOk;
      if s.nodes[s.refs[a].node].proc != Some(q) {
        PinNames(s, q, s.refs[a].node, r, strong, false, pins);
      }
      hide Linked, RefTo, WithPin, Named, Wanted, Incremented;
    }
  }

  /** The first objects of a transaction, as sent and as received, name the same nodes. */
  ghost predicate SameNames(s: State, p: Pid, q: Pid, objs: seq<Option<Obj>>, out: seq<Obj>) {
    |out| <= |objs| && forall i :: 0 <= i < |out| ==>
      objs[i].Some? && Named(s, p, objs[i].value).Some? && Named(s, q, out[i]) == Named(s, p, objs[i].value)
      && out[i].strong == objs[i].value.strong
  }

  lemma NamesCarry(s: State, s': State, p: Pid, q: Pid, objs: seq<Option<Obj>>, out: seq<Obj>)
    requires SameNames(s, p, q, objs, out) && NamesKept(s, s')
    ensures SameNames(s', p, q, objs, out)
  {
    hide Named, NamesKept;
    forall i | 0 <= i < |out|
      ensures Named(s', p, objs[i].value).Some? && Named(s', q, out[i]) == Named(s', p, objs[i].value)
    {
      NamedStill(s, s', p, objs[i].value);
      NamedStill(s, s', q, out[i]);
    }
  }

  lemma PinsTail(q: Pid, objs: seq<Obj>, i: nat)
    requires i < |objs|
    ensures PinsFor(q, objs[i..]) == multiset{PinFor(q, objs[i])} + PinsFor(q, objs[i + 1..])
  {
    assert objs[i..][1..] == objs[i + 1..];
  }

  /** A filled buffer joins the others. */
  lemma BufferJoins(s: State, bufs: seq<Buf>, log: map<NodeId, seq<Event>>, b: Buf)
    requires Held(s, bufs, log, BufPins(b)) && TargetOk(s, b)
    ensures Held(s, bufs + [b], log, multiset{})
  {
    hide Inv, LogsOk, TargetOk;
    AllPinsAdd(bufs, b);
    assert AllPins(bufs) + BufPins(b) == AllPins(bufs + [b]) + multiset{};
  }

  lemma BufferLeaves(s: State, bufs: seq<Buf>, log: map<NodeId, seq<Event>>, i: nat)
    requires Held(s, bufs, log, multiset{}) && i < |bufs|
    ensures Held(s, bufs[..i] + bufs[i + 1..], log, BufPins(bufs[i])) && TargetOk(s, bufs[i])
  {
    hide Inv, LogsOk, TargetOk;
    AllPinsDrop(bufs, i);
    assert AllPins(bufs[..i] + bufs[i + 1..]) + BufPins(bufs[i]) == AllPins(bufs) + multiset{};
  }

  /** The target of a buffer that is being filled stays where it was. */
  lemma TargetStays(s: State, s': State, b: Buf, extra: multiset<Pin>, bufs: seq<Buf>, log: map<NodeId, seq<Event>>)
    requires TargetOk(s, b) && KeysKept(s, s') && Held(s', bufs, log, extra)
    requires b.target.Some? ==> NodePin(b.proc, b.targetPtr, true) in extra
    ensures TargetOk(s', b)
  {
    PinsThere(s', AllPins(bufs) + extra);
    hide Inv, TargetsOk, LogsOk;
  }
}
