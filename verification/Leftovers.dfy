/** Runs after which something is left behind: of a transaction that fails, or of a thread that exits. */
module Leftovers {
  import opened Wrappers
  import opened Store
  import opened Counts
  import opened Owners
  import opened Rollback
  import opened Transfers
  import opened Undo
  import opened Tallies
  import opened Departures
  import opened Outcomes
  import opened Prompts
  import opened Refs

  /** Process 0 sends process 1 a node of its own as a weak reference. */
  method WeaklySent() returns (t: RefTable, desc: nat)
    ensures fresh(t) && t.Valid() && 1 in t.descs && 2 in t.descs
    ensures HeldWeakly(t.Now(), desc) && t.lost == {}
  {
    hide Held, SameNames, Added, DescsAs, Prompted, CookiesGot;
    t := new RefTable();
    t.NewProc(0);
    t.NewProc(1);
    t.NewProc(2);
    ghost var s0 := t.Now();
    var objs, memory := [Some(Binder(8, 0, false))], [Enough];
    NothingFails(s0, objs, memory);
    var ok, _ := t.SendObjects(0, 1, None, objs, memory);
    var b := t.bufs[0];
    HeldNow(s0, t.Now(), t.bufs, t.log, objs, b);
    match b.objs[0] {
      case Handle(d, _) => desc := d;
    }
  }

  /** Process 1 has a reference to somebody else's node, nobody a strong one, and process 2 none at all. No owner was
      told anything. */
  ghost predicate HeldWeakly(s: State, desc: nat) {
    && s.manager.None? && (forall r :: r in s.refs ==> s.refs[r].strong == 0)
    && 2 in s.descs && s.descs[2] == [] && (forall n :: n in s.nodes ==> !s.nodes[n].hasWeak)
    && Named(s, 1, Handle(desc, true)).Some? && Named(s, 1, Handle(desc, true)).value in s.nodes
    && s.nodes[Named(s, 1, Handle(desc, true)).value].proc == Some(0)
  }

  lemma NothingFails(s: State, objs: seq<Option<Obj>>, memory: seq<Memory>)
    requires s.nodeAt == map[] && 0 in s.descs && 1 in s.descs && objs == [Some(Binder(8, 0, false))] && memory == [Enough]
    ensures forall k :: 0 <= k < |objs| ==> !FailsAt(s, 0, 1, objs, memory, k)
  {
    hide Makes, SentBinder;
  }

  lemma HeldNow(s0: State, s: State, bufs: seq<Buf>, log: map<NodeId, seq<Event>>, objs: seq<Option<Obj>>, b: Buf)
    requires Held(s, bufs, log, multiset{}) && s0.refs == map[] && s0.nodes == map[] && s0.manager.None? && 2 in s0.descs && s0.descs[2] == []
    requires objs == [Some(Binder(8, 0, false))] && b.proc == 1 && b.target.None? && |b.objs| == 1
    requires SameNames(s, 0, 1, objs, b.objs) && Added(s0, s, BufPins(b)) && DescsAs(s0, s, 0, 1, objs, 1)
    ensures b.objs[0].Handle? && HeldWeakly(s, b.objs[0].desc)
  {
    hide Inv, DescsAfter, TargetsOk, LogsOk, Grown, Square, Named, BufPins, AllPins;
    HeldInv(s, bufs, log, multiset{});
    var pins := AllPins(bufs) + multiset{};
    InvSound(s, pins);
    hide Sound;
    assert Named(s, 0, objs[0].value).Some? && Named(s, 1, b.objs[0]) == Named(s, 0, objs[0].value);
    OwnerNamed(s, 0, objs[0].value, pins);
    if b.objs[0].Binder? {
      OwnerNamed(s, 1, b.objs[0], pins);
    }
    SameHandle(s, 1, b.objs[0]);
    var more: multiset<Pin> :| Grown(s0, s, more, None) && Square(s0, s, BufPins(b), more);
    WeakOnly(s0, s, b, more);
    NewsUntold(s0, s, more);
  }

  lemma NewsUntold(s0: State, s: State, more: multiset<Pin>)
    requires Grown(s0, s, more, None) && s0.nodes == map[]
    ensures forall n :: n in s.nodes ==> !s.nodes[n].hasWeak
  {
    hide RefsGrown;
    forall n | n in s.nodes ensures !s.nodes[n].hasWeak {
      assert NodeBorn(s.nodes[n], more, false);
    }
  }

  /** The thread on whose list the node's work item waits exits: the owner will not be told that process 1 refers to
      its node. */
  method OwnerUntold() returns (t: RefTable, n: NodeId)
    ensures fresh(t) && t.Valid() && n in t.nodes && !Prompt(t.nodes[n])
    ensures t.nodes[n].proc.Some? && t.nodes[n].refs != {} && !t.nodes[n].hasWeak && !t.nodes[n].queued
  {
    hide Held, Prompted, Prompt, Unqueued, HeldWeakly;
    var desc;
    t, desc := WeaklySent();
    HeldInv(t.Now(), t.bufs, t.log, multiset{});
    DescRef(t.Now(), desc, AllPins(t.bufs) + multiset{});
    n := t.refs[t.refAt[DescKey(1, desc)]].node;
    ItemQueued(t.nodes, n);
    ItemLost(t.nodes[n]);
    t.LoseWork(n);
  }

  lemma ItemQueued(nodes: map<NodeId, Node>, n: NodeId)
    requires Prompted(nodes, {}) && n in nodes && nodes[n].proc.Some? && nodes[n].refs != {} && !nodes[n].hasWeak
    ensures nodes[n].queued
  {
    assert Prompt(nodes[n]);
  }

  lemma ItemLost(w: Node)
    requires w.proc.Some? && w.refs != {} && !w.hasWeak
    ensures var w' := Unqueued(w); !Prompt(w') && w'.proc.Some? && w'.refs != {} && !w'.hasWeak && !w'.queued
  {
  }

  lemma DescRef(s: State, desc: nat, pins: multiset<Pin>)
    requires Inv(s, pins) && HeldWeakly(s, desc)
    ensures DescKey(1, desc) in s.refAt && s.refAt[DescKey(1, desc)] in s.refs
    ensures var n := s.refs[s.refAt[DescKey(1, desc)]].node;
            n in s.nodes && s.nodes[n].refs != {} && s.nodes[n].proc.Some? && !s.nodes[n].hasWeak
  {
    hide Sound, ListOk, LocalOk, NodeOk;
    RefHere(s, s.refAt[DescKey(1, desc)], pins);
  }

  /** An address names a node of its process. */
  lemma OwnerNamed(s: State, p: Pid, o: Obj, pins: multiset<Pin>)
    requires Sound(s, pins) && o.Binder?
    ensures Named(s, p, o).Some? ==> Named(s, p, o).value in s.nodes && s.nodes[Named(s, p, o).value].proc == Some(p)
  {
    hide Sound;
    if NodeKey(p, o.ptr) in s.nodeAt {
      KeyHere(s, p, o.ptr, pins);
    }
  }

  /** A handle means the same whether it is strong or weak. */
  lemma SameHandle(s: State, p: Pid, o: Obj)
    ensures o.Handle? ==> Named(s, p, Handle(o.desc, true)) == Named(s, p, o)
  {
  }

  lemma WeakOnly(s0: State, s: State, b: Buf, more: multiset<Pin>)
    requires Grown(s0, s, more, None) && Square(s0, s, BufPins(b), more) && s0.refs == map[] && s0.manager.None?
    requires b.target.None? && |b.objs| == 1 && b.objs[0].Handle? && !b.objs[0].strong
    ensures s.manager.None? && forall r :: r in s.refs ==> s.refs[r].strong == 0
  {
    SquareLeast(s0, s, BufPins(b), more);
    hide Square, NodesGrown;
    PinsTail(b.proc, b.objs, 0);
    assert b.objs[0..] == b.objs && b.objs[1..] == [];
    assert BufPins(b) == multiset{PinFor(b.proc, b.objs[0])};
    forall r | r in s.refs ensures s.refs[r].strong == 0 {
      assert RefBorn(s.refs[r], more);
      assert RefPin(s.refs[r].proc, s.refs[r].desc, true) !in more;
    }
  }

  /** Process 1 passes the weak reference on as a strong one, and the next object fails: process 2 is left with
      a reference that counts nothing. */
  method EmptyReferenceLeft() returns (t: RefTable, ghost before: State)
    ensures fresh(t) && t.Valid() && !Restored(before, t.Now()) && Grown(before, t.Now(), multiset{}, None)
    ensures exists desc: nat :: HeldWeakly(before, desc)
  {
    hide Held, Restored, Grown, HeldWeakly, Undone, FailsAt, StraysAt;
    var desc;
    t, desc := WeaklySent();
    before := t.Now();
    ghost var pins := AllPins(t.bufs) + multiset{};
    HeldInv(before, t.bufs, t.log, multiset{});
    var objs, memory := [Some(Handle(desc, true)), None], [Enough, Enough];
    SecondFails(before, desc, objs, memory, pins);
    var ok, done := t.SendObjects(1, 2, None, objs, memory);
    assert done == 1;
  }

  lemma SecondFails(s: State, desc: nat, objs: seq<Option<Obj>>, memory: seq<Memory>, pins: multiset<Pin>)
    requires Inv(s, pins) && HeldWeakly(s, desc) && 1 in s.descs && 2 in s.descs
    requires objs == [Some(Handle(desc, true)), None] && memory == [Enough, Enough]
    ensures !FailsAt(s, 1, 2, objs, memory, 0) && FailsAt(s, 1, 2, objs, memory, 1)
    ensures !Undone(s, 1, 2, objs, 1)
  {
    hide Inv, Sound, Undone, Makes, HeldWeakly;
    InvSound(s, pins);
    DescHeld(s, desc, pins);
    LeavesEmpty(s, desc, objs, pins);
  }

  lemma DescHeld(s: State, desc: nat, pins: multiset<Pin>)
    requires Sound(s, pins) && HeldWeakly(s, desc) && 1 in s.descs
    ensures desc in s.descs[1]
  {
    hide NodesOk, RefsOk, ManagerOk, PinsOk;
    assert DescsOk(s, 1);
  }

  lemma LeavesEmpty(s: State, desc: nat, objs: seq<Option<Obj>>, pins: multiset<Pin>)
    requires Sound(s, pins) && HeldWeakly(s, desc) && objs == [Some(Handle(desc, true)), None]
    ensures !Undone(s, 1, 2, objs, 1)
  {
    hide Sound, Countable;
    NotCountable(s, desc, pins);
    NotHeld(s, 2, Named(s, 1, Handle(desc, true)).value, pins);
    assert PassedOn(s, 1, 2, objs[0].value);
    assert !UndoneAt(s, 1, 2, objs, 1, 0);
  }

  lemma NotCountable(s: State, desc: nat, pins: multiset<Pin>)
    requires Sound(s, pins) && HeldWeakly(s, desc)
    ensures !Countable(s, 1, Handle(desc, true))
  {
    hide Sound;
    var m := Named(s, 1, Handle(desc, true)).value;
    StrongIs(s, m, pins);
    assert StrongRefs(s.refs, s.nodes[m].refs) == {};
  }

  /** A process with a reference has a descriptor in use. */
  lemma NotHeld(s: State, q: Pid, m: NodeId, pins: multiset<Pin>)
    requires Sound(s, pins) && q in s.descs
    ensures ForKey(q, m) in s.refFor ==> s.descs[q] != []
  {
    hide NodesOk, ManagerOk, PinsOk;
    if ForKey(q, m) in s.refFor {
      assert ForKeyOk(s, ForKey(q, m));
      assert RefOk(s, s.refFor[ForKey(q, m)]);
      assert DescsOk(s, q);
      assert s.refs[s.refFor[ForKey(q, m)]].desc in s.descs[q];
    }
  }

  /** A first node is sent, and there is no memory for the reference to it: the node is left. */
  method StrayLeft() returns (t: RefTable, ghost before: State)
    ensures fresh(t) && t.Valid() && !Restored(before, t.Now()) && Grown(before, t.Now(), multiset{}, None)
    ensures before.nodes == map[]
  {
    hide Held, Restored, Grown, Undone;
    t := new RefTable();
    t.NewProc(0);
    t.NewProc(1);
    before := t.Now();
    var objs, memory := [Some(Binder(8, 0, true))], [NoRef];
    MakesNew(before, 0, 1, objs, 0);
    assert FailsAt(before, 0, 1, objs, memory, 0);
    var ok, done := t.SendObjects(0, 1, None, objs, memory);
    assert done == 0;
    assert StraysAt(before, 0, objs, 0, memory);
  }
}
