/** A process takes the manager's part, and a process goes away: the effects on nodes and references. */
module Departures {
  import opened Wrappers
  import opened Store
  import opened Counts
  import opened Owners
  import opened Rollback
  import opened Transfers
  import opened Tallies

  // ---- a thread goes away ----

  /** A node whose work item was dropped: if only that stood for it, it is left behind. */
  function Unqueued(w: Node): Node {
    var w' := w.(queued := false);
    if Wanted(w') then w' else w'.(stray := true)
  }

  lemma UnqueuedKeeps(s: State, n: NodeId, pins: multiset<Pin>)
    requires Inv(s, pins) && n in s.nodes && s.nodes[n].queued
    ensures Inv(WithNode(s, n, Unqueued(s.nodes[n])), pins)
  {
    UnqueuedMay(s, n, pins);
    hide Sound, MayReplace;
    ReplaceNode(s, n, Unqueued(s.nodes[n]), pins, pins);
    UnqueuedWanted(s, n);
  }

  lemma UnqueuedMay(s: State, n: NodeId, pins: multiset<Pin>)
    requires Sound(s, pins) && n in s.nodes && s.nodes[n].queued
    ensures MayReplace(s, n, Unqueued(s.nodes[n]), pins) && PinsBut(s, n, pins, pins) && s.nodes[n].proc.Some?
  {
    hide Sound;
    Here(s, n, pins);
    ManagerFlags(s, n, pins);
  }

  lemma UnqueuedWanted(s: State, n: NodeId)
    requires WantedBut(s, None) && n in s.nodes && s.nodes[n].proc.Some?
    ensures WantedBut(WithNode(s, n, Unqueued(s.nodes[n])), None)
  {
  }

  lemma LoseStep(s: State, n: NodeId, bufs: seq<Buf>, log: map<NodeId, seq<Event>>)
    requires Held(s, bufs, log, multiset{}) && n in s.nodes && s.nodes[n].queued
    ensures Held(WithNode(s, n, Unqueued(s.nodes[n])), bufs, log, multiset{})
  {
    hide Inv, TargetsOk, LogsOk, Untold;
    var s' := WithNode(s, n, Unqueued(s.nodes[n]));
    UnqueuedKeeps(s, n, AllPins(bufs) + multiset{});
    OneUntold(s, n, Unqueued(s.nodes[n]));
    UntoldLogs(s.nodes, s'.nodes, log);
    HeldStep(s, s', bufs, log, log, multiset{}, multiset{});
  }

  // ---- the context manager ----

  /** A new node of process `p` that is its owner's to keep. */
  function Appointed(s: State, p: Pid, n: NodeId): State {
    s.(nodes := s.nodes[n := Node(Some(p), 0, 0, 0, 1, 1, true, true, false, false, {}, false, false)],
       nodeAt := s.nodeAt[NodeKey(p, 0) := n], manager := Some(n))
  }

  lemma AppointedKeeps(s: State, p: Pid, n: NodeId, pins: multiset<Pin>)
    requires Inv(s, pins) && p in s.descs && NodeKey(p, 0) !in s.nodeAt && n !in s.nodes && s.manager.None?
    ensures Inv(Appointed(s, p, n), pins)
  {
    NewNodeKeeps(s, p, 0, 0, n, pins);
    var s1 := NewNode(s, p, 0, 0, n);
    var s' := Appointed(s, p, n);
    hide NodeOk, ListOk, NodeKeyOk, DescKeyOk, ForKeyOk, DescsOk, RefOk;
    forall m | m in s'.nodes ensures NodeSound(s', m, pins) {
      assert NodeSound(s1, m, pins);
      AppointedNode(s, p, n, pins, m);
    }
    AppointedKeys(s, p, n);
  }

  lemma AppointedNode(s: State, p: Pid, n: NodeId, pins: multiset<Pin>, m: NodeId)
    requires s.manager.None? && m in Appointed(s, p, n).nodes && NodeSound(NewNode(s, p, 0, 0, n), m, pins)
    ensures NodeSound(Appointed(s, p, n), m, pins)
  {
  }

  lemma AppointedKeys(s: State, p: Pid, n: NodeId)
    requires KeysOk(NewNode(s, p, 0, 0, n)) && RefsOk(NewNode(s, p, 0, 0, n)) && n !in s.nodes
    ensures KeysOk(Appointed(s, p, n)) && RefsOk(Appointed(s, p, n))
  {
    var s1, s' := NewNode(s, p, 0, 0, n), Appointed(s, p, n);
    forall k | k in s'.nodeAt ensures NodeKeyOk(s', k) {
      assert NodeKeyOk(s1, k);
    }
    forall k | k in s'.refAt ensures DescKeyOk(s', k) {
      assert DescKeyOk(s1, k);
    }
    forall k | k in s'.refFor ensures ForKeyOk(s', k) {
      assert ForKeyOk(s1, k);
    }
    forall q | q in s'.descs ensures DescsOk(s', q) {
      assert DescsOk(s1, q);
    }
    forall r | r in s'.refs ensures RefOk(s', r) {
      assert RefOk(s1, r);
    }
  }

  lemma AppointStep(s: State, p: Pid, n: NodeId, bufs: seq<Buf>, log: map<NodeId, seq<Event>>)
    requires Held(s, bufs, log, multiset{}) && p in s.descs && NodeKey(p, 0) !in s.nodeAt && n !in s.nodes && s.manager.None?
    ensures Held(Appointed(s, p, n), bufs, log[n := [Granted]], multiset{})
  {
    hide Inv, TargetsOk, LogsOk, KeysKept;
    AppointedKeeps(s, p, n, AllPins(bufs) + multiset{});
    AppointedRest(s, p, n, log);
    hide Appointed;
    HeldStep(s, Appointed(s, p, n), bufs, log, log[n := [Granted]], multiset{}, multiset{});
  }

  lemma AppointedRest(s: State, p: Pid, n: NodeId, log: map<NodeId, seq<Event>>)
    requires NodeKey(p, 0) !in s.nodeAt && n !in s.nodes && LogsOk(s.nodes, log)
    ensures KeysKept(s, Appointed(s, p, n)) && LogsOk(Appointed(s, p, n).nodes, log[n := [Granted]])
  {
    assert Replay([]) == Some(View(false, false, false, false));
    ReplayMore([], Granted);
    assert [] + [Granted] == [Granted];
    hide Replay;
  }

  // ---- a process goes away ----

  /** The buffers of the other processes. */
  function Others(bufs: seq<Buf>, p: Pid): seq<Buf> {
    if bufs == [] then [] else (if bufs[0].proc == p then [] else [bufs[0]]) + Others(bufs[1..], p)
  }

  lemma {:induction false} OthersPins(bufs: seq<Buf>, p: Pid)
    ensures PinsWithout(AllPins(bufs), p, AllPins(Others(bufs, p)))
  {
    if bufs != [] {
      OthersPins(bufs[1..], p);
      var rest := Others(bufs[1..], p);
      forall k: Pin | k.NodePin?
        ensures AllPins(Others(bufs, p))[k] == if k.proc == p then 0 else AllPins(bufs)[k]
      {
        OnePinOf(bufs, p, rest, k);
      }
    }
  }

  lemma OnePinOf(bufs: seq<Buf>, p: Pid, rest: seq<Buf>, k: Pin)
    requires bufs != [] && rest == Others(bufs[1..], p) && k.NodePin?
    requires AllPins(rest)[k] == if k.proc == p then 0 else AllPins(bufs[1..])[k]
    ensures AllPins(Others(bufs, p))[k] == if k.proc == p then 0 else AllPins(bufs)[k]
  {
    BufPinsProc(bufs[0]);
    hide BufPins;
    assert k.proc != bufs[0].proc ==> k !in BufPins(bufs[0]);
    if bufs[0].proc != p {
      assert ([bufs[0]] + rest)[1..] == rest;
    } else {
      assert [] + rest == rest;
    }
  }

  lemma {:induction false} OthersAre(bufs: seq<Buf>, p: Pid)
    ensures forall i :: 0 <= i < |Others(bufs, p)| ==> Others(bufs, p)[i].proc != p && Others(bufs, p)[i] in bufs
  {
    if bufs != [] {
      OthersAre(bufs[1..], p);
    }
  }

  lemma BufPinsProc(b: Buf)
    ensures forall k: Pin :: k in BufPins(b) ==> k.proc == b.proc
  {
    ObjPinsProc(b.proc, b.objs);
  }

  lemma {:induction false} ObjPinsProc(q: Pid, objs: seq<Obj>)
    ensures forall k: Pin :: k in PinsFor(q, objs) ==> k.proc == q
  {
    if objs != [] {
      ObjPinsProc(q, objs[1..]);
    }
  }

  /** The process's nodes are dead or gone, and so are its buffers. */
  lemma OrphanStep(s: State, p: Pid, bufs: seq<Buf>, log: map<NodeId, seq<Event>>)
    requires Held(s, bufs, log, multiset{})
    ensures Held(Orphaned(s, p), Others(bufs, p), log, multiset{})
    ensures Orphaned(s, p).refs == s.refs && Orphaned(s, p).descs == s.descs && Orphaned(s, p).refAt == s.refAt
    ensures forall k :: k in Orphaned(s, p).nodeAt ==> k.proc != p
    ensures forall i :: 0 <= i < |Others(bufs, p)| ==> Others(bufs, p)[i].proc != p
  {
    OthersPins(bufs, p);
    OthersAre(bufs, p);
    assert AllPins(bufs) + multiset{} == AllPins(bufs);
    assert AllPins(Others(bufs, p)) + multiset{} == AllPins(Others(bufs, p));
    OrphanedKeeps(s, p, AllPins(bufs), AllPins(Others(bufs, p)));
    OrphanTargets(s, p, bufs);
    OrphanUntold(s, p);
    hide Inv, Orphaned, TargetsOk;
    UntoldLogs(s.nodes, Orphaned(s, p).nodes, log);
  }

  lemma OrphanTargets(s: State, p: Pid, bufs: seq<Buf>)
    requires TargetsOk(s, bufs)
    ensures TargetsOk(Orphaned(s, p), Others(bufs, p))
  {
    OthersAre(bufs, p);
    forall i | 0 <= i < |Others(bufs, p)| ensures TargetOk(Orphaned(s, p), Others(bufs, p)[i]) {
      var j :| 0 <= j < |bufs| && bufs[j] == Others(bufs, p)[i];
      assert TargetOk(s, bufs[j]);
    }
  }

  lemma OrphanUntold(s: State, p: Pid)
    ensures Untold(s.nodes, Orphaned(s, p).nodes)
  {
  }

  /** One reference of the process goes. */
  lemma DeleteStep(s: State, p: Pid, bufs: seq<Buf>, log: map<NodeId, seq<Event>>)
    requires Held(s, bufs, log, multiset{}) && p in s.descs && s.descs[p] != []
    requires forall k :: k in s.nodeAt ==> k.proc != p
    ensures DescKey(p, s.descs[p][0]) in s.refAt
    ensures var r := s.refAt[DescKey(p, s.descs[p][0])];
            && r in s.refs && s.refs[r].node in s.nodes && s.refs[r].proc == p
            && Held(DeleteRef(s, r), bufs, log, multiset{})
            && p in DeleteRef(s, r).descs && |DeleteRef(s, r).descs[p]| < |s.descs[p]|
            && DeleteRef(s, r).descs.Keys == s.descs.Keys
            && forall k :: k in DeleteRef(s, r).nodeAt ==> k.proc != p
  {
    var pins := AllPins(bufs) + multiset{};
    FirstRef(s, p, pins);
    var r := s.refAt[DescKey(p, s.descs[p][0])];
    DeleteRefKeeps(s, r, pins);
    hide Inv, LogsOk, TargetsOk;
    DeleteKeys(s, r);
    DeletedDescs(s, r);
    DeleteRefUntold(s, r);
    RemovedShorter(s.descs[p], s.descs[p][0]);
    UntoldLogs(s.nodes, DeleteRef(s, r).nodes, log);
    HeldStep(s, DeleteRef(s, r), bufs, log, log, multiset{}, multiset{});
  }

  lemma FirstRef(s: State, p: Pid, pins: multiset<Pin>)
    requires Inv(s, pins) && p in s.descs && s.descs[p] != []
    ensures DescKey(p, s.descs[p][0]) in s.refAt
    ensures var r := s.refAt[DescKey(p, s.descs[p][0])];
            r in s.refs && s.refs[r].node in s.nodes && s.refs[r].proc == p && s.refs[r].desc == s.descs[p][0]
  {
    assert DescsOk(s, p);
    assert s.descs[p][0] in s.descs[p];
    assert DescKeyOk(s, DescKey(p, s.descs[p][0]));
    hide Sound;
    RefHere(s, s.refAt[DescKey(p, s.descs[p][0])], pins);
  }

  lemma RemovedShorter(ds: seq<nat>, d: nat)
    requires ds != [] && ds[0] == d
    ensures |Removed(ds, d)| < |ds|
  {
  }

  lemma DeletedDescs(s: State, r: RefId)
    requires r in s.refs && s.refs[r].node in s.nodes && s.refs[r].proc in s.descs
    ensures DeleteRef(s, r).descs == s.descs[s.refs[r].proc := Removed(s.descs[s.refs[r].proc], s.refs[r].desc)]
    ensures DeleteRef(s, r).nodeAt.Keys <= s.nodeAt.Keys
  {
    hide Removed, LostStrong, DecNode;
    DecTrees(Unref(Weakened(s, r), r), s.refs[r].node);
  }

  lemma DecTrees(s: State, n: NodeId)
    requires n in s.nodes
    ensures DecNode(s, n, false, true).descs == s.descs && DecNode(s, n, false, true).nodeAt.Keys <= s.nodeAt.Keys
  {
  }

  lemma GoneStep(s: State, p: Pid, bufs: seq<Buf>, log: map<NodeId, seq<Event>>)
    requires Held(s, bufs, log, multiset{}) && p in s.descs && s.descs[p] == [] && forall k :: k in s.nodeAt ==> k.proc != p
    requires forall i :: 0 <= i < |bufs| ==> bufs[i].proc != p
    ensures Held(s.(descs := s.descs - {p}), bufs, log, multiset{})
  {
    GoneKeeps(s, p, AllPins(bufs) + multiset{});
    hide Inv;
    forall i | 0 <= i < |bufs| ensures TargetOk(s.(descs := s.descs - {p}), bufs[i]) {
      assert TargetOk(s, bufs[i]);
    }
  }

  /** Nothing of process `p` is left. */
  lemma NothingLeft(s: State, p: Pid, pins: multiset<Pin>)
    requires Inv(s, pins) && p !in s.descs
    ensures forall r :: r in s.refs ==> s.refs[r].proc != p
    ensures forall n :: n in s.nodes ==> s.nodes[n].proc != Some(p)
  {
    forall r | r in s.refs ensures s.refs[r].proc != p {
      assert RefOk(s, r);
    }
    forall n | n in s.nodes ensures s.nodes[n].proc != Some(p) {
      assert NodeSound(s, n, pins);
    }
  }

  // ---- the loop over the nodes ----

  /** One node of process `p` dies, or goes if nobody refers to it. */
  function OneOrphan(s: State, n: NodeId): State
    requires n in s.nodes && s.nodes[n].proc.Some?
  {
    var w := s.nodes[n];
    var rest := s.(nodeAt := s.nodeAt - {NodeKey(w.proc.value, w.ptr)});
    if w.refs == {} then rest.(nodes := s.nodes - {n})
    else rest.(nodes := s.nodes[n := w.(proc := None, localStrong := 0, localWeak := 0, queued := false)])
  }

  lemma OneOrphanOf(s: State, p: Pid, n: NodeId)
    requires n in s.nodes && s.nodes[n].proc == Some(p)
    requires s.manager.Some? && s.manager.value in s.nodes ==> s.nodes[s.manager.value].proc != Some(p)
    ensures Orphaned(OneOrphan(s, n), p) == Orphaned(s, p)
  {
    OrphanOfNodes(s, p, n);
    assert Orphaned(OneOrphan(s, n), p).nodeAt == Orphaned(s, p).nodeAt;
    assert s.manager != Some(n);
  }

  lemma OrphanOfNode(s: State, p: Pid, n: NodeId, m: NodeId)
    requires n in s.nodes && s.nodes[n].proc == Some(p)
    ensures var a, b := Orphaned(OneOrphan(s, n), p).nodes, Orphaned(s, p).nodes;
            (m in a <==> m in b) && (m in b ==> a[m] == b[m])
  {
    hide Orphaned;
    OrphanedNode(s, p, m);
    OrphanedNode(OneOrphan(s, n), p, m);
  }

  lemma OrphanedNode(s: State, p: Pid, m: NodeId)
    ensures var b := Orphaned(s, p).nodes;
            && (m in b <==> m in s.nodes && !(Owned(s.nodes[m], p) && s.nodes[m].refs == {}))
            && (m in b ==> b[m] == if Owned(s.nodes[m], p) then s.nodes[m].(proc := None, localStrong := 0, localWeak := 0, queued := false)
                                    else s.nodes[m])
  {
  }

  lemma OrphanOfNodes(s: State, p: Pid, n: NodeId)
    requires n in s.nodes && s.nodes[n].proc == Some(p)
    ensures Orphaned(OneOrphan(s, n), p).nodes == Orphaned(s, p).nodes
  {
    var a, b := Orphaned(OneOrphan(s, n), p).nodes, Orphaned(s, p).nodes;
    forall m ensures (m in a <==> m in b) && (m in b ==> a[m] == b[m]) {
      OrphanOfNode(s, p, n, m);
    }
    hide Orphaned, OneOrphan;
  }

  /** Every address of process `p` in use is one of its nodes'. */
  ghost predicate KeysOf(s: State, p: Pid) {
    forall k :: k in s.nodeAt && k.proc == p ==>
      s.nodeAt[k] in s.nodes && s.nodes[s.nodeAt[k]].proc == Some(p) && s.nodes[s.nodeAt[k]].ptr == k.ptr
  }

  lemma KeysOfProc(s: State, p: Pid, bufs: seq<Buf>, log: map<NodeId, seq<Event>>)
    requires Held(s, bufs, log, multiset{})
    ensures KeysOf(s, p)
  {
    forall k | k in s.nodeAt ensures NodeKeyOk(s, k) {
    }
  }

  lemma SameKeys(a: State, b: State, p: Pid)
    requires KeysOf(a, p) && b.nodes == a.nodes && b.nodeAt == a.nodeAt
    ensures KeysOf(b, p)
  {
  }

  lemma OneOrphanKeys(s: State, p: Pid, n: NodeId)
    requires KeysOf(s, p) && n in s.nodes && s.nodes[n].proc == Some(p)
    ensures KeysOf(OneOrphan(s, n), p)
  {
    var s', w := OneOrphan(s, n), s.nodes[n];
    assert s'.nodeAt == s.nodeAt - {NodeKey(p, w.ptr)};
    assert forall m :: m in s.nodes && m != n ==> m in s'.nodes && s'.nodes[m] == s.nodes[m];
    hide OneOrphan;
    forall k | k in s'.nodeAt && k.proc == p
      ensures s'.nodeAt[k] in s'.nodes && s'.nodes[s'.nodeAt[k]].proc == Some(p) && s'.nodes[s'.nodeAt[k]].ptr == k.ptr
    {
      assert k in s.nodeAt && k != NodeKey(p, w.ptr);
      assert s.nodeAt[k] != n;
    }
  }

  lemma NoKeys(s: State, p: Pid)
    requires KeysOf(s, p) && forall n :: n in s.nodes ==> s.nodes[n].proc != Some(p)
    ensures forall k :: k in s.nodeAt ==> k.proc != p
  {
  }

  /** Whether the manager goes first does not matter. */
  lemma ManagerFirst(s: State, p: Pid)
    requires s.manager.Some? && s.manager.value in s.nodes && s.nodes[s.manager.value].proc == Some(p)
    ensures Orphaned(s.(manager := None), p) == Orphaned(s, p)
  {
  }

  lemma ManagerPlace(s: State, bufs: seq<Buf>, log: map<NodeId, seq<Event>>)
    requires Held(s, bufs, log, multiset{})
    ensures s.manager.Some? ==> s.manager.value in s.nodes
  {
  }

  lemma SoundHere(s: State, bufs: seq<Buf>, log: map<NodeId, seq<Event>>)
    requires Held(s, bufs, log, multiset{})
    ensures Sound(s, AllPins(bufs) + multiset{}) && Inv(s, AllPins(bufs) + multiset{})
  {
  }

  lemma OrphanedManager(s: State, p: Pid)
    ensures Orphaned(s, p).manager ==
              if s.manager.Some? && s.manager.value in s.nodes && s.nodes[s.manager.value].proc == Some(p) then None else s.manager
  {
  }

  lemma NewProcStep(s: State, p: Pid, bufs: seq<Buf>, log: map<NodeId, seq<Event>>)
    requires Held(s, bufs, log, multiset{}) && p !in s.descs
    ensures Held(s.(descs := s.descs[p := []]), bufs, log, multiset{})
  {
    var s' := s.(descs := s.descs[p := []]);
    NewProcKeeps(s, p, AllPins(bufs) + multiset{});
    hide Inv;
    forall i | 0 <= i < |bufs| ensures TargetOk(s', bufs[i]) {
      assert TargetOk(s, bufs[i]);
    }
  }

  lemma NewProcKeeps(s: State, p: Pid, pins: multiset<Pin>)
    requires Inv(s, pins) && p !in s.descs
    ensures Inv(s.(descs := s.descs[p := []]), pins)
  {
    var s' := s.(descs := s.descs[p := []]);
    hide NodeSound;
    forall n | n in s'.nodes ensures NodeSound(s', n, pins) {
      assert NodeSound(s, n, pins);
      NewProcNode(s, p, pins, n);
    }
    forall r | r in s'.refs ensures RefOk(s', r) {
      assert RefOk(s, r);
    }
    forall k | k in s'.nodeAt ensures NodeKeyOk(s', k) {
      assert NodeKeyOk(s, k);
    }
    forall k | k in s'.refAt ensures DescKeyOk(s', k) && k.proc != p {
      assert DescKeyOk(s, k);
      assert RefOk(s, s.refAt[k]);
    }
    forall k | k in s'.refFor ensures ForKeyOk(s', k) {
      assert ForKeyOk(s, k);
    }
    forall q | q in s'.descs ensures DescsOk(s', q) {
      assert q != p ==> DescsOk(s, q);
    }
  }

  lemma NewProcNode(s: State, p: Pid, pins: multiset<Pin>, n: NodeId)
    requires n in s.nodes && NodeSound(s, n, pins)
    ensures NodeSound(s.(descs := s.descs[p := []]), n, pins)
  {
  }

  lemma NoOrphans(s: State, p: Pid)
    requires forall n :: n in s.nodes ==> s.nodes[n].proc != Some(p)
    requires forall k :: k in s.nodeAt ==> k.proc != p
    ensures Orphaned(s, p) == s
  {
  }
}
