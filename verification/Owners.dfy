/** What the owner of a node is told, and what happens to nodes whose owner goes away. */
module Owners {
  import opened Wrappers
  import opened Store
  import opened Counts

  datatype Message = Nothing | Increfs | Acquire | Release | Decrefs

  predicate StrongUse(w: Node) {
    w.internalStrong != 0 || w.localStrong != 0
  }

  predicate WeakUse(w: Node) {
    w.refs != {} || w.localWeak != 0 || StrongUse(w)
  }

  /** What the owner of a node whose work item comes up is told. */
  function Due(w: Node): Message {
    if WeakUse(w) && !w.hasWeak then Increfs
    else if StrongUse(w) && !w.hasStrong then Acquire
    else if !StrongUse(w) && w.hasStrong then Release
    else if !WeakUse(w) && w.hasWeak then Decrefs
    else Nothing
  }

  function Notified(w: Node): Node {
    match Due(w)
    case Increfs => w.(hasWeak := true, pendingWeak := true, localWeak := w.localWeak + 1)
    case Acquire => w.(hasStrong := true, pendingStrong := true, localStrong := w.localStrong + 1)
    case Release => w.(hasStrong := false)
    case Decrefs => w.(hasWeak := false)
    case Nothing => w.(queued := false)
  }

  /** One turn of the node branch of `binder_thread_read`. */
  function Drained(s: State, n: NodeId): State
    requires n in s.nodes
  {
    var w := s.nodes[n];
    if Due(w) == Nothing && !WeakUse(w) && !StrongUse(w) then DropNode(s, n) else WithNode(s, n, Notified(w))
  }

  lemma DrainKeeps(s: State, n: NodeId, pins: multiset<Pin>)
    requires Inv(s, pins) && n in s.nodes && s.nodes[n].queued
    ensures Inv(Drained(s, n), pins)
  {
    hide Sound, PinsBut, MayReplace, Due, Notified, WeakUse, StrongUse, Wanted;
    var w := s.nodes[n];
    if Due(w) == Nothing && !WeakUse(w) && !StrongUse(w) {
      DrainDrops(s, n, pins);
    } else {
      PinsStay(s, n, pins);
      NotifiedMay(s, n, pins);
      ReplaceNode(s, n, Notified(w), pins, pins);
      NotifiedWanted(s, n, pins);
    }
  }

  lemma DrainDrops(s: State, n: NodeId, pins: multiset<Pin>)
    requires Inv(s, pins) && n in s.nodes && s.nodes[n].queued
    requires Due(s.nodes[n]) == Nothing && !WeakUse(s.nodes[n]) && !StrongUse(s.nodes[n])
    ensures Inv(DropNode(s, n), pins)
  {
    hide Sound;
    Here(s, n, pins);
    StrongHeld(s, n, pins);
    Unsigned(s, n, pins);
    hide ListOk;
    DropSound(s, n, pins);
  }

  lemma NotifiedMay(s: State, n: NodeId, pins: multiset<Pin>)
    requires Sound(s, pins) && n in s.nodes && s.nodes[n].queued
    ensures MayReplace(s, n, Notified(s.nodes[n]), pins)
  {
    hide Sound;
    Here(s, n, pins);
    StrongHeld(s, n, pins);
    Unsigned(s, n, pins);
    hide ListOk;
    match Due(s.nodes[n])
    case Increfs =>
    case Acquire =>
    case Release =>
    case Decrefs =>
    case Nothing =>
  }

  lemma NotifiedWanted(s: State, n: NodeId, pins: multiset<Pin>)
    requires Inv(s, pins) && n in s.nodes && s.nodes[n].queued
    requires !(Due(s.nodes[n]) == Nothing && !WeakUse(s.nodes[n]) && !StrongUse(s.nodes[n]))
    ensures WantedBut(WithNode(s, n, Notified(s.nodes[n])), None)
  {
    hide Sound;
    Here(s, n, pins);
    StrongHeld(s, n, pins);
    Unsigned(s, n, pins);
    hide ListOk, LocalOk;
    assert Wanted(Notified(s.nodes[n]));
    hide Notified, Due, Wanted;
  }

  lemma PinsStay(s: State, n: NodeId, pins: multiset<Pin>)
    requires n in s.nodes
    ensures PinsBut(s, n, pins, pins)
  {
  }

  /** What a node's counts and flags have to do with each other while its work item is queued. */
  predicate Coherent(w: Node) {
    && FlagsOk(w) && w.localStrong >= 0 && w.localWeak >= 0 && w.internalStrong >= 0
    && (w.internalStrong > 0 ==> w.refs != {})
    && (w.pendingStrong ==> w.localStrong > 0) && (w.pendingWeak ==> w.localWeak > 0)
  }

  lemma CoherentIs(s: State, n: NodeId, pins: multiset<Pin>)
    requires Inv(s, pins) && n in s.nodes && s.nodes[n].queued
    ensures Coherent(s.nodes[n])
  {
    hide Sound;
    Here(s, n, pins);
    Unsigned(s, n, pins);
    StrongHeld(s, n, pins);
    hide ListOk;
  }

  /** What is due depends on the uses and the flags alone. */
  function DueFor(weakUse: bool, strongUse: bool, hasWeak: bool, hasStrong: bool): Message {
    if weakUse && !hasWeak then Increfs
    else if strongUse && !hasStrong then Acquire
    else if !strongUse && hasStrong then Release
    else if !weakUse && hasWeak then Decrefs
    else Nothing
  }

  lemma DueIs(w: Node)
    ensures Due(w) == DueFor(WeakUse(w), StrongUse(w), w.hasWeak, w.hasStrong)
  {
  }

  /** What a message does to the uses and the flags. */
  lemma NotifiedIs(w: Node)
    requires w.localStrong >= 0 && w.localWeak >= 0
    ensures var w', due := Notified(w), Due(w);
            && w'.localStrong >= 0 && w'.localWeak >= 0
            && WeakUse(w') == (WeakUse(w) || due == Increfs || due == Acquire) && StrongUse(w') == (StrongUse(w) || due == Acquire)
            && w'.hasWeak == (if due == Increfs then true else if due == Decrefs then false else w.hasWeak)
            && w'.hasStrong == (if due == Acquire then true else if due == Release then false else w.hasStrong)
  {
    match Due(w)
    case Increfs =>
    case Acquire =>
    case Release =>
    case Decrefs =>
    case Nothing =>
  }

  /** Three turns on the same node never give three messages. */
  lemma AtMostTwo(s: State, n: NodeId, pins: multiset<Pin>)
    requires Inv(s, pins) && n in s.nodes && s.nodes[n].queued
    requires Due(s.nodes[n]) != Nothing && Due(Notified(s.nodes[n])) != Nothing
    ensures Due(Notified(Notified(s.nodes[n]))) == Nothing
  {
    hide Inv, Due, Notified, WeakUse, StrongUse;
    CoherentIs(s, n, pins);
    var w := s.nodes[n];
    DueIs(w);
    NotifiedIs(w);
    DueIs(Notified(w));
    NotifiedIs(Notified(w));
    DueIs(Notified(Notified(w)));
    StrongIsWeak(w);
  }

  lemma StrongIsWeak(w: Node)
    ensures StrongUse(w) ==> WeakUse(w)
  {
  }

  // ---- the owner's view ----

  /** What the owner can tell from the messages: the references it keeps, and the answers it owes. */
  datatype View = View(weak: bool, strong: bool, weakDue: bool, strongDue: bool)

  /** `Granted`: the node of the context manager starts out with both references. */
  datatype Event = Granted | Sent(message: Message) | Answered(strong: bool)

  function ViewOf(w: Node): View {
    View(w.hasWeak, w.hasStrong, w.pendingWeak, w.pendingStrong)
  }

  /** The protocol: a strong reference only on top of a weak one, and neither taken back before it was
      acknowledged. */
  function Follow(v: View, e: Event): Option<View> {
    match e
    case Granted => if v == View(false, false, false, false) then Some(View(true, true, false, false)) else None
    case Sent(Increfs) => if !v.weak then Some(v.(weak := true, weakDue := true)) else None
    case Sent(Acquire) => if v.weak && !v.strong then Some(v.(strong := true, strongDue := true)) else None
    case Sent(Release) => if v.strong && !v.strongDue then Some(v.(strong := false)) else None
    case Sent(Decrefs) => if v.weak && !v.strong && !v.weakDue then Some(v.(weak := false)) else None
    case Sent(Nothing) => None
    case Answered(true) => if v.strongDue then Some(v.(strongDue := false)) else None
    case Answered(false) => if v.weakDue then Some(v.(weakDue := false)) else None
  }

  /** The owner's view after a whole history, if every event in it was in order. */
  function Replay(log: seq<Event>): Option<View> {
    if log == [] then Some(View(false, false, false, false))
    else match Replay(log[..|log| - 1])
         case None => None
         case Some(v) => Follow(v, log[|log| - 1])
  }

  lemma ReplayMore(log: seq<Event>, e: Event)
    requires Replay(log).Some?
    ensures Replay(log + [e]) == Follow(Replay(log).value, e)
  {
    assert (log + [e])[..|log|] == log;
  }

  /** Every message keeps to the protocol. */
  lemma MessageInOrder(s: State, n: NodeId, pins: multiset<Pin>)
    requires Inv(s, pins) && n in s.nodes && s.nodes[n].queued && Due(s.nodes[n]) != Nothing
    ensures Follow(ViewOf(s.nodes[n]), Sent(Due(s.nodes[n]))) == Some(ViewOf(Notified(s.nodes[n])))
  {
    hide Inv, ViewOf, Follow, Due, Notified;
    CoherentIs(s, n, pins);
    CoherentInOrder(s.nodes[n]);
  }

  lemma CoherentInOrder(w: Node)
    requires Coherent(w) && Due(w) != Nothing
    ensures Follow(ViewOf(w), Sent(Due(w))) == Some(ViewOf(Notified(w)))
  {
    match Due(w)
    case Increfs =>
    case Acquire =>
    case Release =>
    case Decrefs =>
  }

  /** Every history ends as the flags of its node say. */
  ghost predicate LogsOk(nodes: map<NodeId, Node>, log: map<NodeId, seq<Event>>) {
    forall n :: n in nodes ==> n in log && Replay(log[n]) == Some(ViewOf(nodes[n]))
  }

  /** The nodes that are left were told nothing. */
  ghost predicate Untold(a: map<NodeId, Node>, b: map<NodeId, Node>) {
    forall n :: n in b ==> n in a && ViewOf(b[n]) == ViewOf(a[n])
  }

  lemma UntoldTwice(a: map<NodeId, Node>, b: map<NodeId, Node>, c: map<NodeId, Node>)
    requires Untold(a, b) && Untold(b, c)
    ensures Untold(a, c)
  {
  }

  lemma UntoldLogs(a: map<NodeId, Node>, b: map<NodeId, Node>, log: map<NodeId, seq<Event>>)
    requires LogsOk(a, log) && Untold(a, b)
    ensures LogsOk(b, log)
  {
  }

  lemma OneUntold(s: State, n: NodeId, w: Node)
    requires n in s.nodes && ViewOf(w) == ViewOf(s.nodes[n])
    ensures Untold(s.nodes, WithNode(s, n, w).nodes)
  {
  }

  /** Counting tells nobody anything. */
  lemma IncUntold(s: State, n: NodeId, strong: bool, internal: bool, list: bool)
    requires n in s.nodes
    ensures ViewOf(Incremented(s, n, strong, internal, list)) == ViewOf(s.nodes[n])
    ensures Untold(s.nodes, WithNode(s, n, Incremented(s, n, strong, internal, list)).nodes)
  {
    assert ViewOf(Incremented(s, n, strong, internal, list)) == ViewOf(s.nodes[n]);
    hide Incremented;
    OneUntold(s, n, Incremented(s, n, strong, internal, list));
  }

  lemma DecUntold(s: State, n: NodeId, strong: bool, internal: bool)
    requires n in s.nodes
    ensures Untold(s.nodes, DecNode(s, n, strong, internal).nodes)
  {
    hide Lowered, WithNode, DropNode, Untold;
    var w := Lowered(s.nodes[n], strong, internal);
    LoweredView(s.nodes[n], strong, internal);
    OneUntold(s, n, w);
    OneUntold(s, n, w.(queued := true));
    DropUntold(s, n);
  }

  lemma LoweredView(w: Node, strong: bool, internal: bool)
    ensures ViewOf(Lowered(w, strong, internal)) == ViewOf(w)
  {
  }

  lemma DropUntold(s: State, n: NodeId)
    requires n in s.nodes
    ensures Untold(s.nodes, DropNode(s, n).nodes)
  {
  }

  lemma IncRefUntold(s: State, r: RefId, strong: bool, list: bool)
    requires r in s.refs && s.refs[r].node in s.nodes
    ensures Untold(s.nodes, IncRef(s, r, strong, list).nodes)
  {
    IncUntold(s, s.refs[r].node, strong, true, list);
    hide Incremented, Refused;
  }

  lemma DeleteRefUntold(s: State, r: RefId)
    requires r in s.refs && s.refs[r].node in s.nodes
    ensures Untold(s.nodes, DeleteRef(s, r).nodes)
  {
    var s1 := Unref(Weakened(s, r), r);
    assert Untold(s.nodes, s1.nodes);
    DecUntold(s1, s.refs[r].node, false, true);
    hide Unref, Weakened, DecNode;
    UntoldTwice(s.nodes, s1.nodes, DeleteRef(s, r).nodes);
  }

  lemma LostView(w: Node)
    ensures ViewOf(LostStrong(w)) == ViewOf(w)
  {
  }

  lemma NoneUntold(s: State)
    ensures Untold(s.nodes, s.nodes)
  {
  }

  lemma DecRefUntold(s: State, r: RefId, strong: bool)
    requires r in s.refs && s.refs[r].node in s.nodes
    ensures Untold(s.nodes, DecRef(s, r, strong).nodes)
  {
    hide DeleteRef, LostStrong, Untold;
    NoneUntold(s);
    var ref := s.refs[r];
    if if strong then ref.strong > 0 else ref.weak > 0 {
      var ref' := if strong then ref.(strong := ref.strong - 1) else ref.(weak := ref.weak - 1);
      var s1 := if !strong then s.(refs := s.refs[r := ref'])
                else WithCounts(s, r, ref', if ref.strong == 1 then LostStrong(s.nodes[ref.node]) else s.nodes[ref.node]);
      LostView(s.nodes[ref.node]);
      if strong {
        OneUntold(s, ref.node, if ref.strong == 1 then LostStrong(s.nodes[ref.node]) else s.nodes[ref.node]);
      }
      DeleteRefUntold(s1, r);
      UntoldTwice(s.nodes, s1.nodes, DeleteRef(s1, r).nodes);
    }
  }

  // ---- the owner goes away ----

  predicate Owned(w: Node, p: Pid) {
    w.proc == Some(p)
  }

  /** The nodes of process `p` are dead, or gone if nobody refers to them. */
  function Orphaned(s: State, p: Pid): State {
    s.(nodes := map n | n in s.nodes && !(Owned(s.nodes[n], p) && s.nodes[n].refs == {}) ::
         if Owned(s.nodes[n], p) then s.nodes[n].(proc := None, localStrong := 0, localWeak := 0, queued := false)
         else s.nodes[n],
       nodeAt := map k | k in s.nodeAt && k.proc != p :: s.nodeAt[k],
       manager := if s.manager.Some? && s.manager.value in s.nodes && Owned(s.nodes[s.manager.value], p) then None else s.manager)
  }

  /** The pins of process `p` go with its buffers. */
  ghost predicate PinsWithout(pins: multiset<Pin>, p: Pid, pins': multiset<Pin>) {
    forall k: Pin :: k.NodePin? ==> pins'[k] == if k.proc == p then 0 else pins[k]
  }

  lemma OrphanedKeeps(s: State, p: Pid, pins: multiset<Pin>, pins': multiset<Pin>)
    requires Inv(s, pins) && PinsWithout(pins, p, pins')
    ensures Inv(Orphaned(s, p), pins')
    ensures Orphaned(s, p).refs == s.refs && Orphaned(s, p).descs == s.descs && Orphaned(s, p).refAt == s.refAt
  {
    var s' := Orphaned(s, p);
    hide RefOk, NodeKeyOk, DescKeyOk, ForKeyOk, DescsOk, NodeSound, PinsWithout;
    forall n | n in s'.nodes ensures NodeSound(s', n, pins') {
      assert NodeSound(s, n, pins);
      OrphanedNode(s, p, pins, pins', n);
    }
    forall k | k in s'.nodeAt ensures NodeKeyOk(s', k) {
      assert NodeKeyOk(s, k);
      OrphanedKey(s, p, k);
    }
    forall r | r in s'.refs ensures RefOk(s', r) {
      assert RefOk(s, r);
      OrphanedRef(s, p, r);
    }
    forall k | k in s'.refAt ensures DescKeyOk(s', k) {
      assert DescKeyOk(s, k);
      OrphanedTrees(s, p);
    }
    forall k | k in s'.refFor ensures ForKeyOk(s', k) {
      assert ForKeyOk(s, k);
      OrphanedTrees(s, p);
    }
    forall q | q in s'.descs ensures DescsOk(s', q) {
      assert DescsOk(s, q);
      OrphanedTrees(s, p);
    }
    OrphanedPins(s, p, pins, pins');
  }

  lemma OrphanedTrees(s: State, p: Pid)
    ensures forall k :: k in s.refAt && DescKeyOk(s, k) ==> DescKeyOk(Orphaned(s, p), k)
    ensures forall k :: k in s.refFor && ForKeyOk(s, k) ==> ForKeyOk(Orphaned(s, p), k)
    ensures forall q :: q in s.descs && DescsOk(s, q) ==> DescsOk(Orphaned(s, p), q)
  {
  }

  lemma OrphanedNode(s: State, p: Pid, pins: multiset<Pin>, pins': multiset<Pin>, n: NodeId)
    requires PinsWithout(pins, p, pins') && n in s.nodes && NodeSound(s, n, pins) && n in Orphaned(s, p).nodes
    ensures NodeSound(Orphaned(s, p), n, pins')
  {
  }

  lemma OrphanedKey(s: State, p: Pid, k: NodeKey)
    requires k in s.nodeAt && NodeKeyOk(s, k) && k.proc != p
    ensures NodeKeyOk(Orphaned(s, p), k)
  {
  }

  lemma OrphanedRef(s: State, p: Pid, r: RefId)
    requires r in s.refs && RefOk(s, r)
    ensures RefOk(Orphaned(s, p), r)
  {
    assert s.nodes[s.refs[r].node].refs != {};
  }

  lemma OrphanedPins(s: State, p: Pid, pins: multiset<Pin>, pins': multiset<Pin>)
    requires PinsOk(s, pins) && PinsWithout(pins, p, pins')
    ensures PinsOk(Orphaned(s, p), pins')
  {
  }

  /** A process without nodes and references is gone. */
  lemma GoneKeeps(s: State, p: Pid, pins: multiset<Pin>)
    requires Inv(s, pins) && p in s.descs && s.descs[p] == [] && forall k :: k in s.nodeAt ==> k.proc != p
    ensures Inv(s.(descs := s.descs - {p}), pins)
  {
    hide NodesOk, KeysOk, RefsOk, WantedBut;
    GoneNodes(s, p, pins);
    GoneKeys(s, p, pins);
    GoneRefs(s, p, pins);
    hide WantedBut, PinsOk;
    GoneWanted(s, p);
  }

  lemma GoneWanted(s: State, p: Pid)
    requires WantedBut(s, None)
    ensures WantedBut(s.(descs := s.descs - {p}), None)
  {
  }

  lemma GoneNodes(s: State, p: Pid, pins: multiset<Pin>)
    requires NodesOk(s, pins) && forall k :: k in s.nodeAt ==> k.proc != p
    ensures NodesOk(s.(descs := s.descs - {p}), pins)
  {
    hide NodeSound;
    forall n | n in s.nodes ensures NodeSound(s.(descs := s.descs - {p}), n, pins) {
      assert NodeSound(s, n, pins);
      GoneNode(s, p, pins, n);
    }
  }

  lemma GoneKeys(s: State, p: Pid, pins: multiset<Pin>)
    requires KeysOk(s)
    ensures KeysOk(s.(descs := s.descs - {p}))
  {
    var s' := s.(descs := s.descs - {p});
    forall k | k in s'.nodeAt ensures NodeKeyOk(s', k) {
      assert NodeKeyOk(s, k);
    }
    forall k | k in s'.refAt ensures DescKeyOk(s', k) {
      assert DescKeyOk(s, k);
    }
    forall k | k in s'.refFor ensures ForKeyOk(s', k) {
      assert ForKeyOk(s, k);
    }
    forall q | q in s'.descs ensures DescsOk(s', q) {
      assert DescsOk(s, q);
    }
  }

  lemma GoneRefs(s: State, p: Pid, pins: multiset<Pin>)
    requires KeysOk(s) && RefsOk(s) && p in s.descs && s.descs[p] == []
    ensures RefsOk(s.(descs := s.descs - {p}))
  {
    assert DescsOk(s, p);
    hide KeysOk;
    forall r | r in s.refs ensures RefOk(s.(descs := s.descs - {p}), r) {
      assert RefOk(s, r);
      assert s.refs[r].desc !in s.descs[p];
    }
  }

  lemma GoneNode(s: State, p: Pid, pins: multiset<Pin>, n: NodeId)
    requires n in s.nodes && NodeSound(s, n, pins) && forall k :: k in s.nodeAt ==> k.proc != p
    ensures NodeSound(s.(descs := s.descs - {p}), n, pins)
  {
  }
}
