/** Nobody waits for word in vain: whenever a node's owner has to be told something, its work item is queued. */
module Prompts {
  import opened Wrappers
  import opened Store
  import opened Counts
  import opened Owners
  import opened Rollback
  import opened Transfers
  import opened Tallies
  import opened Departures

  /** The owner was told of the references others hold, and keeps none that nothing uses; or the work item that
      will tell it is queued. */
  predicate Prompt(w: Node) {
    WordComes(w) && (w.proc.Some? && w.hasWeak && !WeakUse(w) ==> w.queued)
  }

  /** The same but for a weak reference that nothing uses any more. */
  predicate WordComes(w: Node) {
    w.proc.Some? ==>
      && (w.internalStrong > 0 && !w.hasStrong ==> w.queued)
      && (w.refs != {} && !w.hasWeak ==> w.queued)
      && (w.hasStrong && !StrongUse(w) ==> w.queued)
  }

  /** Every node is prompt, but for those whose work item was lost with a thread. */
  ghost predicate Prompted(nodes: map<NodeId, Node>, lost: set<NodeId>) {
    forall n :: n in nodes && n !in lost ==> Prompt(nodes[n])
  }

  /** A node that was prompt still is, and so is a new one. */
  ghost predicate PromptKept(a: map<NodeId, Node>, b: map<NodeId, Node>) {
    forall n :: n in b && (n in a ==> Prompt(a[n])) ==> Prompt(b[n])
  }

  lemma StillPrompted(a: map<NodeId, Node>, b: map<NodeId, Node>, lost: set<NodeId>)
    requires Prompted(a, lost) && PromptKept(a, b)
    ensures Prompted(b, lost)
  {
  }

  lemma KeptTwice(a: map<NodeId, Node>, b: map<NodeId, Node>, c: map<NodeId, Node>)
    requires PromptKept(a, b) && PromptKept(b, c) && forall n :: n in a && n in c ==> n in b
    ensures PromptKept(a, c)
  {
    forall n | n in c && (n in a ==> Prompt(a[n])) ensures Prompt(c[n]) {
      assert n in b ==> Prompt(b[n]);
    }
  }

  lemma KeptAll(a: map<NodeId, Node>)
    ensures PromptKept(a, a)
  {
  }

  // ---- counting up ----

  lemma Counting(s: State, n: NodeId, pins: multiset<Pin>)
    requires Sound(s, pins) && n in s.nodes
    ensures var w := s.nodes[n]; FlagsOk(w) && w.internalStrong >= 0 && (w.proc.Some? ==> w.localStrong >= 0 && w.localWeak >= 0)
  {
    hide Sound;
    Here(s, n, pins);
    StrongHeld(s, n, pins);
    Unsigned(s, n, pins);
  }

  /** A granted increment that can be told of is told of. */
  lemma IncrementTold(s: State, n: NodeId, strong: bool, internal: bool)
    requires n in s.nodes
    ensures var w := Incremented(s, n, strong, internal, true); if strong then w.hasStrong || w.queued else w.hasWeak || w.queued
  {
  }

  lemma IncKept(s: State, n: NodeId, strong: bool, internal: bool, list: bool, pins: multiset<Pin>)
    requires Sound(s, pins) && n in s.nodes
    ensures PromptKept(s.nodes, WithNode(s, n, Incremented(s, n, strong, internal, list)).nodes)
  {
    hide Sound, Prompt, Incremented;
    Counting(s, n, pins);
    IncPrompt(s, n, strong, internal, list);
  }

  lemma IncPrompt(s: State, n: NodeId, strong: bool, internal: bool, list: bool)
    requires n in s.nodes && s.nodes[n].internalStrong >= 0
    requires s.nodes[n].proc.Some? ==> s.nodes[n].localStrong >= 0 && s.nodes[n].localWeak >= 0
    ensures Prompt(s.nodes[n]) ==> Prompt(Incremented(s, n, strong, internal, list))
  {
  }

  /** The first reference of others to a node comes with a list to tell its owner. */
  lemma PinPrompt(s: State, q: Pid, m: NodeId, r: RefId, strong: bool, list: bool, pins: multiset<Pin>)
    requires Sound(s, pins) && m in s.nodes && q in s.descs && r !in s.refs
    requires list || s.nodes[m].refs != {} || s.nodes[m].hasWeak
    ensures PromptKept(s.nodes, WithPin(s, q, m, r, strong, list).nodes)
  {
    hide Sound, Prompt, WithPin;
    PinNode(s, q, m, r, strong, list, pins);
    WithPinNodes(s, q, m, r, strong, list, pins);
  }

  lemma PinNode(s: State, q: Pid, m: NodeId, r: RefId, strong: bool, list: bool, pins: multiset<Pin>)
    requires Sound(s, pins) && m in s.nodes && q in s.descs && r !in s.refs
    requires list || s.nodes[m].refs != {} || s.nodes[m].hasWeak
    ensures m in WithPin(s, q, m, r, strong, list).nodes
    ensures Prompt(s.nodes[m]) ==> Prompt(WithPin(s, q, m, r, strong, list).nodes[m])
  {
    hide Sound, Linked, RefTo, Prompt, Incremented, FlagsOk, Refused;
    Counting(s, m, pins);
    LinkedIs(s, q, m, r, pins);
    LinkedNode(s, q, m, r, pins);
    var s1, r1 := Linked(s, q, m, r), RefTo(s, q, m, r);
    var first := if strong then s1.refs[r1].strong == 0 else s1.refs[r1].weak == 0;
    if Prompt(s.nodes[m]) {
      PinnedPrompt(s, s1, m, strong, list, first);
    }
  }

  /** A reference is linked to its node, and only a new one was not before. */
  lemma LinkedNode(s: State, q: Pid, m: NodeId, r: RefId, pins: multiset<Pin>)
    requires Sound(s, pins) && m in s.nodes && q in s.descs && r !in s.refs
    ensures var s1, r1 := Linked(s, q, m, r), RefTo(s, q, m, r);
            && s1.manager == s.manager && m in s1.nodes && s1.nodes[m] == s.nodes[m].(refs := s.nodes[m].refs + {r1})
            && (r1 in s1.refs && s1.refs[r1].strong + s1.refs[r1].weak > 0 ==> s.nodes[m].refs != {})
  {
    hide Sound, NodeSound, Inserted, FirstFree;
    if ForKey(q, m) in s.refFor {
      LinkedIs(s, q, m, r, pins);
      RefHere(s, s.refFor[ForKey(q, m)], pins);
      assert s.nodes[m].refs + {s.refFor[ForKey(q, m)]} == s.nodes[m].refs;
    }
  }

  lemma PinnedPrompt(s: State, s1: State, m: NodeId, strong: bool, list: bool, first: bool)
    requires m in s.nodes && m in s1.nodes && s1.manager == s.manager && s1.nodes[m] == s.nodes[m].(refs := s1.nodes[m].refs)
    requires FlagsOk(s.nodes[m]) && Prompt(s.nodes[m]) && s.nodes[m].internalStrong >= 0
    requires s.nodes[m].refs <= s1.nodes[m].refs
    requires list || s.nodes[m].refs != {} || s.nodes[m].hasWeak
    ensures !first && s.nodes[m].refs != {} ==> Prompt(s1.nodes[m])
    ensures first && Refused(s1, m, strong, true, list) ==> Prompt(s1.nodes[m])
    ensures first && !Refused(s1, m, strong, true, list) ==> Prompt(Incremented(s1, m, strong, true, list))
  {
  }

  // ---- counting down ----

  /** When its last use is gone, a node's owner is told; if the node goes, its owner held nothing. */
  predicate NodeTold(v: Node, w: Option<Node>) {
    match w
    case Some(w) =>
      && w.proc == v.proc && w.hasStrong == v.hasStrong && w.hasWeak == v.hasWeak && (v.queued ==> w.queued)
      && (w.proc.Some? && w.hasStrong && StrongUse(v) && !StrongUse(w) ==> w.queued)
      && (w.proc.Some? && w.hasWeak && WeakUse(v) && !WeakUse(w) ==> w.queued)
    case None => v.proc.Some? ==> !v.hasStrong && !v.hasWeak
  }

  ghost predicate OwnerTold(a: map<NodeId, Node>, b: map<NodeId, Node>, n: NodeId)
    requires n in a
  {
    NodeTold(a[n], At(b, n))
  }

  function At(nodes: map<NodeId, Node>, n: NodeId): Option<Node> {
    if n in nodes then Some(nodes[n]) else None
  }

  /** What is left of a node whose count went down. */
  function Left(w: Node, strong: bool): Option<Node> {
    if (if strong then w.localStrong != 0 || w.internalStrong != 0 else w.localWeak != 0 || w.refs != {}) then Some(w)
    else if w.proc.Some? && (w.hasStrong || w.hasWeak) then Some(w.(queued := true))
    else if w.refs == {} && w.localStrong == 0 && w.localWeak == 0 then None
    else Some(w)
  }

  lemma DecAt(s: State, n: NodeId, strong: bool, internal: bool)
    requires n in s.nodes
    ensures At(DecNode(s, n, strong, internal).nodes, n) == Left(Lowered(s.nodes[n], strong, internal), strong)
  {
    SettledIs(s, n, strong, internal);
    hide DecNode, Lowered;
  }

  lemma LeftTold(w: Node, strong: bool, internal: bool)
    ensures NodeTold(w, Left(Lowered(w, strong, internal), strong))
  {
  }

  lemma DecTells(s: State, n: NodeId, strong: bool, internal: bool)
    requires n in s.nodes
    ensures OwnerTold(s.nodes, DecNode(s, n, strong, internal).nodes, n)
  {
    DecAt(s, n, strong, internal);
    LeftTold(s.nodes[n], strong, internal);
    hide DecNode, Left, Lowered, NodeTold;
  }

  lemma LeftPrompt(w: Node, strong: bool, internal: bool)
    requires WordComes(w)
    ensures Left(Lowered(w, strong, internal), strong).Some? ==> Prompt(Left(Lowered(w, strong, internal), strong).value)
  {
  }

  /** Counting down settles a weak reference nothing uses, whatever came before. */
  lemma DecPrompt(s: State, n: NodeId, strong: bool, internal: bool)
    requires n in s.nodes && WordComes(s.nodes[n])
    ensures n in DecNode(s, n, strong, internal).nodes ==> Prompt(DecNode(s, n, strong, internal).nodes[n])
  {
    DecAt(s, n, strong, internal);
    LeftPrompt(s.nodes[n], strong, internal);
    hide DecNode, Left, Lowered, Prompt;
  }

  lemma DecOnly(s: State, n: NodeId, strong: bool, internal: bool)
    requires n in s.nodes
    ensures forall m :: m in DecNode(s, n, strong, internal).nodes && m != n ==> m in s.nodes && DecNode(s, n, strong, internal).nodes[m] == s.nodes[m]
    ensures s.nodes.Keys - {n} <= DecNode(s, n, strong, internal).nodes.Keys <= s.nodes.Keys
  {
  }

  lemma DecKept(s: State, n: NodeId, strong: bool, internal: bool)
    requires n in s.nodes
    ensures PromptKept(s.nodes, DecNode(s, n, strong, internal).nodes)
  {
    if Prompt(s.nodes[n]) {
      DecPrompt(s, n, strong, internal);
    }
    DecOnly(s, n, strong, internal);
    hide DecNode, Prompt;
  }

  /** The node a reference leaves, before its last decrement. */
  lemma LeftNode(w: Node, r: RefId, strong: bool)
    requires WordComes(w)
    ensures var w' := if strong then LostStrong(w) else w; WordComes(w'.(refs := w'.refs - {r}))
  {
  }

  lemma DeleteKept(s: State, r: RefId)
    requires r in s.refs && s.refs[r].node in s.nodes
    ensures PromptKept(s.nodes, DeleteRef(s, r).nodes)
    ensures s.refs[r].node in DeleteRef(s, r).nodes && Prompt(s.nodes[s.refs[r].node]) ==> Prompt(DeleteRef(s, r).nodes[s.refs[r].node])
  {
    var n := s.refs[r].node;
    var s1 := Unref(Weakened(s, r), r);
    DecOnly(s1, n, false, true);
    if Prompt(s.nodes[n]) {
      LeftNode(s.nodes[n], r, s.refs[r].strong != 0);
      DecPrompt(s1, n, false, true);
    }
    hide DecNode, Prompt, LostStrong;
  }

  lemma LostKept(w: Node)
    requires Prompt(w)
    ensures Prompt(LostStrong(w))
  {
  }

  lemma DecRefKept(s: State, r: RefId, strong: bool)
    requires r in s.refs && s.refs[r].node in s.nodes
    ensures PromptKept(s.nodes, DecRef(s, r, strong).nodes)
  {
    var ref := s.refs[r];
    var w := s.nodes[ref.node];
    if Prompt(w) {
      LostKept(w);
    }
    KeptAll(s.nodes);
    hide DeleteRef, LostStrong, Prompt;
    if if strong then ref.strong > 0 else ref.weak > 0 {
      var s1 := if !strong then s.(refs := s.refs[r := ref.(weak := ref.weak - 1)])
                else WithCounts(s, r, ref.(strong := ref.strong - 1), if ref.strong == 1 then LostStrong(w) else w);
      assert PromptKept(s.nodes, s1.nodes);
      DeleteKept(s1, r);
      DeleteFewer(s1, r);
      KeptTwice(s.nodes, s1.nodes, DeleteRef(s1, r).nodes);
    }
  }

  lemma DeleteFewer(s: State, r: RefId)
    requires r in s.refs && s.refs[r].node in s.nodes
    ensures DeleteRef(s, r).nodes.Keys <= s.nodes.Keys
  {
    DecOnly(Unref(Weakened(s, r), r), s.refs[r].node, false, true);
    hide DecNode, LostStrong;
  }

  // ---- telling the owner of a reference's node ----

  function Off(w: Node, r: RefId): Node {
    w.(refs := w.refs - {r})
  }

  lemma DeletedAt(s: State, r: RefId)
    requires r in s.refs && s.refs[r].node in s.nodes
    ensures var w := s.nodes[s.refs[r].node];
            At(DeleteRef(s, r).nodes, s.refs[r].node) == Left(Off(if s.refs[r].strong == 0 then w else LostStrong(w), r), false)
  {
    DecAt(Unref(Weakened(s, r), r), s.refs[r].node, false, true);
    hide DecNode, Left, LostStrong, Removed;
  }

  lemma LostTold(w: Node, r: RefId)
    requires r in w.refs
    ensures NodeTold(w, Left(Off(w, r), false)) && NodeTold(w, Left(Off(LostStrong(w), r), false)) && NodeTold(w, Some(LostStrong(w)))
    ensures NodeTold(w, Some(w))
  {
  }

  /** When a reference goes, its node's owner is told of the last use. */
  lemma DeleteTells(s: State, r: RefId)
    requires r in s.refs && s.refs[r].node in s.nodes && r in s.nodes[s.refs[r].node].refs
    ensures OwnerTold(s.nodes, DeleteRef(s, r).nodes, s.refs[r].node)
  {
    DeletedAt(s, r);
    LostTold(s.nodes[s.refs[r].node], r);
    hide DeleteRef, Left, LostStrong, NodeTold;
  }

  lemma DecRefTells(s: State, r: RefId, strong: bool)
    requires r in s.refs && s.refs[r].node in s.nodes && r in s.nodes[s.refs[r].node].refs
    ensures OwnerTold(s.nodes, DecRef(s, r, strong).nodes, s.refs[r].node)
  {
    hide DeleteRef, Left, LostStrong, NodeTold;
    var ref := s.refs[r];
    var w := s.nodes[ref.node];
    LostTold(w, r);
    if if strong then ref.strong > 0 else ref.weak > 0 {
      var s1 := if !strong then s.(refs := s.refs[r := ref.(weak := ref.weak - 1)])
                else WithCounts(s, r, ref.(strong := ref.strong - 1), if ref.strong == 1 then LostStrong(w) else w);
      DeletedAt(s1, r);
    }
  }

  // ---- translating and letting go ----

  lemma TranslatedPrompt(s: State, p: Pid, q: Pid, o: Obj, n: NodeId, r: RefId, pins: multiset<Pin>)
    requires Inv(s, pins) && p in s.descs && q in s.descs && n !in s.nodes && r !in s.refs
    ensures PromptKept(s.nodes, Translated(s, p, q, o, n, r).0.nodes)
  {
    hide Sound, Prompt, WithPin, Linked, RefTo, Incremented;
    KeptAll(s.nodes);
    match o
    case Binder(ptr, cookie, strong) =>
      var s1, m := s, n;
      if NodeKey(p, ptr) in s.nodeAt {
        KeyHere(s, p, ptr, pins);
        m := s.nodeAt[NodeKey(p, ptr)];
      } else {
        NewNodeKeeps(s, p, ptr, cookie, n, pins);
        s1 := NewNode(s, p, ptr, cookie, n);
        NewPrompt(s, p, ptr, cookie, n);
      }
      LinkedIs(s1, q, m, r, pins);
      PinPrompt(s1, q, m, r, strong, true, pins);
      WithPinNodes(s1, q, m, r, strong, true, pins);
      KeptTwice(s.nodes, s1.nodes, WithPin(s1, q, m, r, strong, true).nodes);
    case Handle(desc, strong) =>
      if DescKey(p, desc) in s.refAt && s.refAt[DescKey(p, desc)] in s.refs {
        RefHere(s, s.refAt[DescKey(p, desc)], pins);
        var m := s.refs[s.refAt[DescKey(p, desc)]].node;
        LinkedIs(s, q, m, r, pins);
        IncKept(s, m, strong, false, false, pins);
        PinPrompt(s, q, m, r, strong, false, pins);
      }
  }

  lemma NewPrompt(s: State, p: Pid, ptr: Ptr, cookie: nat, n: NodeId)
    requires n !in s.nodes
    ensures PromptKept(s.nodes, NewNode(s, p, ptr, cookie, n).nodes) && PromptKept(s.nodes, Stranded(s, p, ptr, cookie, n).nodes)
  {
  }

  lemma StarvedPrompt(s: State, p: Pid, o: Obj, memory: Memory, n: NodeId)
    requires n !in s.nodes
    ensures PromptKept(s.nodes, AfterStarved(s, p, o, memory, n).nodes)
  {
    KeptAll(s.nodes);
    if Strays(s, p, o, memory) {
      NewPrompt(s, p, o.ptr, o.cookie, n);
    }
  }

  lemma ReleasedPrompt(s: State, q: Pid, o: Obj)
    ensures PromptKept(s.nodes, Released(s, q, o).nodes)
  {
    hide DecNode, DecRef, Prompt;
    KeptAll(s.nodes);
    match o
    case Binder(ptr, _, strong) =>
      if NodeKey(q, ptr) in s.nodeAt && s.nodeAt[NodeKey(q, ptr)] in s.nodes {
        DecKept(s, s.nodeAt[NodeKey(q, ptr)], strong, false);
      }
    case Handle(desc, strong) =>
      if DescKey(q, desc) in s.refAt && s.refAt[DescKey(q, desc)] in s.refs && s.refs[s.refAt[DescKey(q, desc)]].node in s.nodes {
        DecRefKept(s, s.refAt[DescKey(q, desc)], strong);
      }
  }

  // ---- messages and processes ----

  /** The owner of a live node is not told of a reference others hold, or keeps one that nothing uses. */
  predicate WordDue(w: Node) {
    w.proc.Some? && ((w.internalStrong > 0 && !w.hasStrong) || (w.refs != {} && !w.hasWeak) || (w.hasStrong && !StrongUse(w))
                     || (w.hasWeak && !WeakUse(w)))
  }

  /** Without its work item, a node is prompt exactly if no word is due. */
  lemma LostExact(w: Node)
    ensures Prompt(Unqueued(w)) <==> !WordDue(w)
  {
  }

  /** When nothing is due, the owner holds exactly what is used. */
  lemma NothingDue(w: Node)
    requires Due(w) == Nothing
    ensures w.hasStrong == StrongUse(w) && w.hasWeak == WeakUse(w) && Prompt(w.(queued := false))
  {
  }

  lemma MessagePrompt(w: Node)
    requires w.queued && Due(w) != Nothing
    ensures Prompt(Notified(w))
  {
  }

  lemma AcknowledgedPrompt(s: State, n: NodeId, strong: bool)
    requires n in s.nodes
    ensures PromptKept(s.nodes, Acknowledged(s, n, strong).nodes)
  {
    var w := s.nodes[n];
    var s1 := WithNode(s, n, if strong then w.(pendingStrong := false) else w.(pendingWeak := false));
    assert PromptKept(s.nodes, s1.nodes);
    DecKept(s1, n, strong, false);
    DecOnly(s1, n, strong, false);
    hide DecNode, Prompt;
    KeptTwice(s.nodes, s1.nodes, Acknowledged(s, n, strong).nodes);
  }

  lemma OrphanedPrompt(s: State, p: Pid)
    ensures PromptKept(s.nodes, Orphaned(s, p).nodes)
  {
  }

  lemma AppointedPrompt(s: State, p: Pid, n: NodeId)
    requires n !in s.nodes
    ensures PromptKept(s.nodes, Appointed(s, p, n).nodes)
  {
  }
}
