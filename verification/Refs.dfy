/** Nodes, references and the buffers that pin them, as the driver keeps them. */
module Refs {
  import opened Wrappers
  import opened Store
  import opened Counts
  import opened Owners
  import opened Rollback
  import opened Transfers
  import opened Undo
  import opened Tallies
  import opened Outcomes
  import opened Departures
  import opened Prompts

  lemma {:induction false} Bounded(ids: set<nat>) returns (n: nat)
    ensures forall m :: m in ids ==> m < n
  {
    if ids == {} {
      n := 0;
    } else {
      var m :| m in ids;
      var rest := Bounded(ids - {m});
      n := if m < rest then rest else m + 1;
      forall k | k in ids ensures k < n {
        assert k == m || k in ids - {m};
      }
    }
  }

  /** The allocator always has a record to give. */
  lemma Spare(ids: set<nat>)
    ensures exists n: nat :: n !in ids
  {
    var n := Bounded(ids);
    assert n !in ids;
  }

  /** Process `p` was asked for this acknowledgement. */
  predicate Owed(s: State, p: Pid, ptr: Ptr, cookie: nat, strong: bool) {
    NodeKey(p, ptr) in s.nodeAt && s.nodeAt[NodeKey(p, ptr)] in s.nodes &&
    var w := s.nodes[s.nodeAt[NodeKey(p, ptr)]];
    cookie == w.cookie && if strong then w.pendingStrong else w.pendingWeak
  }

  /** A count on the reference with descriptor `desc` went up or down, if there is one; for descriptor 0 the
      context manager's is found or made. */
  ghost predicate Counted(s: State, s': State, p: Pid, desc: nat, strong: bool, up: bool) {
    if desc == 0 && s.manager.Some? && up then
      s.manager.value in s.nodes && p in s.descs
      && exists r: RefId :: r !in s.refs && s' == WithPin(s, p, s.manager.value, r, strong, false)
    else if DescKey(p, desc) !in s.refAt then s' == s
    else
      var r := s.refAt[DescKey(p, desc)];
      r in s.refs && s.refs[r].node in s.nodes && s' == if up then IncRef(s, r, strong, false) else DecRef(s, r, strong)
  }

  /** The command moved one count by one, and no other: that of the reference under `desc`, or of the reference to the
      context manager, which there is from now on. A reference goes with its last count; one that is not counted
      cannot be counted down, and not up if the node refuses. */
  ghost predicate CountMoved(s: State, s': State, p: Pid, desc: nat, strong: bool, up: bool) {
    if desc == 0 && s.manager.Some? && up then
      ForKey(p, s.manager.value) in s'.refFor && Moved(s, s', s'.refFor[ForKey(p, s.manager.value)], s.manager.value, strong, up)
    else if DescKey(p, desc) in s.refAt then
      var r := s.refAt[DescKey(p, desc)];
      r in s.refs && Moved(s, s', r, s.refs[r].node, strong, up)
    else s' == s
  }

  ghost predicate Moved(s: State, s': State, r: RefId, n: NodeId, strong: bool, up: bool) {
    && n in s.nodes && (forall a :: a != r ==> (a in s'.refs <==> a in s.refs) && (a in s.refs ==> s'.refs[a] == s.refs[a]))
    && Base(s', r, !strong) == Base(s, r, !strong)
    && var before := Base(s, r, strong);
       if up then
         && r in s'.refs && s'.refs[r].node == n
         && Base(s', r, strong) == if before == 0 && Refused(s, n, strong, true, false) then 0 else before + 1
       else
         && Base(s', r, strong) == (if before == 0 then 0 else before - 1)
         && (before > 0 ==> (r in s'.refs <==> Base(s', r, true) + Base(s', r, false) > 0))
         && (before == 0 ==> s' == s)
  }

  class RefTable {
    var nodes: map<NodeId, Node>
    var refs: map<RefId, Ref>
    var nodeAt: map<NodeKey, NodeId>
    var refAt: map<DescKey, RefId>
    var refFor: map<ForKey, RefId>
    var descs: map<Pid, seq<nat>>
    var manager: Option<NodeId>
    var bufs: seq<Buf>
    ghost var log: map<NodeId, seq<Event>>
    /** The nodes whose work item was dropped with a thread, and that were not settled since. */
    ghost var lost: set<NodeId>

    ghost function Now(): State
      reads `nodes, `refs, `nodeAt, `refAt, `refFor, `descs, `manager
    {
      State(nodes, refs, nodeAt, refAt, refFor, descs, manager)
    }

    /** What holds while a buffer that pins `extra` is being filled or emptied. */
    ghost predicate Holds(extra: multiset<Pin>)
      reads this
    {
      Held(Now(), bufs, log, extra) && Prompted(nodes, lost)
    }

    ghost predicate Valid()
      reads this
    {
      Holds(multiset{})
    }

    constructor ()
      ensures Valid() && bufs == [] && Now() == State(map[], map[], map[], map[], map[], map[], None) && lost == {}
    {
      nodes, refs, nodeAt, refAt, refFor, descs := map[], map[], map[], map[], map[], map[];
      manager, bufs, log, lost := None, [], map[], {};
    }

    // ---- primitives ----

    /** `binder_inc_node`; `list` says whether there is a list to put the node's work item on. What is granted and can
        be told of is told of. */
    method IncNode(n: NodeId, strong: bool, internal: bool, list: bool) returns (ok: bool)
      requires n in nodes
      modifies `nodes
      ensures ok == !Refused(old(Now()), n, strong, internal, list)
      ensures Now() == WithNode(old(Now()), n, Incremented(old(Now()), n, strong, internal, list))
      ensures list ==> if strong then nodes[n].hasStrong || nodes[n].queued else nodes[n].hasWeak || nodes[n].queued
    {
      hide Incremented, Refused;
      IncrementTold(Now(), n, strong, internal);
      if strong {
        ok := IncStrong(n, internal, list);
      } else {
        ok := IncWeak(n, internal, list);
      }
    }

    method IncStrong(n: NodeId, internal: bool, list: bool) returns (ok: bool)
      requires n in nodes
      modifies `nodes
      ensures ok == !Refused(old(Now()), n, true, internal, list)
      ensures Now() == WithNode(old(Now()), n, Incremented(old(Now()), n, true, internal, list))
    {
      var w := nodes[n];
      if internal {
        if !list && w.internalStrong == 0 && !(manager == Some(n) && w.hasStrong) {
          nodes := nodes[n := w];
          return false;
        }
        w := w.(internalStrong := w.internalStrong + 1);
      } else {
        w := w.(localStrong := w.localStrong + 1);
      }
      if !w.hasStrong && list {
        w := w.(queued := true);
      }
      nodes := nodes[n := w];
      return true;
    }

    method IncWeak(n: NodeId, internal: bool, list: bool) returns (ok: bool)
      requires n in nodes
      modifies `nodes
      ensures ok == !Refused(old(Now()), n, false, internal, list)
      ensures Now() == WithNode(old(Now()), n, Incremented(old(Now()), n, false, internal, list))
    {
      var w := nodes[n];
      if !internal {
        w := w.(localWeak := w.localWeak + 1);
      }
      if !w.hasWeak && !w.queued {
        if !list {
          nodes := nodes[n := w];
          return false;
        }
        w := w.(queued := true);
      }
      nodes := nodes[n := w];
      return true;
    }

    method DecrementNode(n: NodeId, strong: bool, internal: bool)
      requires n in nodes
      modifies `nodes, `nodeAt
      ensures Now() == DecNode(old(Now()), n, strong, internal)
      ensures OwnerTold(old(nodes), nodes, n)
    {
      hide Settled, DecNode, OwnerTold;
      DecTells(Now(), n, strong, internal);
      SettledIs(Now(), n, strong, internal);
      var w := nodes[n];
      if strong {
        w := if internal then w.(internalStrong := w.internalStrong - 1) else w.(localStrong := w.localStrong - 1);
      } else {
        w := if internal then w else w.(localWeak := w.localWeak - 1);
      }
      nodes := nodes[n := w];
      Settle(n, strong);
    }

    /** The rest of `binder_dec_node`, after the count went down. */
    method Settle(n: NodeId, strong: bool)
      requires n in nodes
      modifies `nodes, `nodeAt
      ensures Now() == Settled(old(Now()), n, strong)
    {
      var w := nodes[n];
      if if strong then w.localStrong != 0 || w.internalStrong != 0 else w.localWeak != 0 || w.refs != {} {
        return;
      }
      if w.proc.Some? && (w.hasStrong || w.hasWeak) {
        nodes := nodes[n := w.(queued := true)];
      } else if w.refs == {} && w.localStrong == 0 && w.localWeak == 0 {
        nodes := nodes - {n};
        if w.proc.Some? {
          nodeAt := nodeAt - {NodeKey(w.proc.value, w.ptr)};
        }
      }
    }

    /** The walk of `binder_get_ref_for_node` over the descriptors in use. */
    method FindDescriptor(p: Pid, start: nat) returns (d: nat)
      requires p in descs && Sorted(descs[p]) && start <= 1
      ensures d == FirstFree(descs[p], start) && LeastFree(descs[p], start, d)
    {
      DescriptorIsLeast(descs[p], start);
      var ds := descs[p];
      var i := 0;
      d := start;
      while i < |ds| && ds[i] <= d
        invariant 0 <= i <= |ds|
        invariant FirstFree(ds[i..], d) == FirstFree(ds, start)
      {
        assert ds[i..][1..] == ds[i + 1..];
        d := ds[i] + 1;
        i := i + 1;
      }
    }

    /** Linking a descriptor into the tree: it is not there yet. */
    method InsertDescriptor(ds: seq<nat>, d: nat) returns (r: seq<nat>)
      requires Sorted(ds) && d !in ds
      ensures r == Inserted(ds, d)
    {
      var i := 0;
      while i < |ds| && ds[i] <= d
        invariant 0 <= i <= |ds| && forall k :: 0 <= k < i ==> ds[k] < d
        invariant Inserted(ds, d) == ds[..i] + Inserted(ds[i..], d)
      {
        if ds[i] == d {
          assert false;
        }
        assert ds[i..] == [ds[i]] + ds[i + 1..];
        assert Inserted(ds[i..], d) == [ds[i]] + Inserted(ds[i + 1..], d);
        assert ds[..i + 1] == ds[..i] + [ds[i]];
        i := i + 1;
      }
      r := ds[..i] + [d] + ds[i..];
      assert Inserted(ds[i..], d) == [d] + ds[i..];
    }

    method GetRefForNode(q: Pid, n: NodeId, ghost pins: multiset<Pin>) returns (r: RefId)
      requires n in nodes && q in descs && Sound(Now(), pins)
      modifies `nodes, `refs, `refAt, `refFor, `descs
      ensures ForKey(q, n) in old(refFor) ==> r == old(refFor)[ForKey(q, n)]
      ensures ForKey(q, n) !in old(refFor) ==> r !in old(refs)
      ensures Now() == Linked(old(Now()), q, n, r) && r == RefTo(old(Now()), q, n, r)
      ensures r in refs && refs[r].proc == q && refs[r].node == n && n in nodes
      ensures r !in old(refs) ==> LeastFree(old(descs)[q], if manager == Some(n) then 0 else 1, refs[r].desc)
    {
      hide Sound, FirstFree, Inserted, LeastFree, Sorted;
      LinkedIsAny(Now(), q, n, pins);
      if ForKey(q, n) in refFor {
        return refFor[ForKey(q, n)];
      }
      Spare(refs.Keys);
      r :| r !in refs.Keys;
      DescsHere(Now(), q, pins);
      var start := if manager == Some(n) then 0 else 1;
      var d := FindDescriptor(q, start);
      var ds := InsertDescriptor(descs[q], d);
      refs := refs[r := Ref(q, d, n, 0, 0)];
      refFor := refFor[ForKey(q, n) := r];
      refAt := refAt[DescKey(q, d) := r];
      descs := descs[q := ds];
      nodes := nodes[n := nodes[n].(refs := nodes[n].refs + {r})];
    }

    method IncrementRef(r: RefId, strong: bool, list: bool) returns (ok: bool)
      requires r in refs && refs[r].node in nodes
      modifies `nodes, `refs
      ensures ok == !RefRefused(old(Now()), r, strong, list)
      ensures Now() == IncRef(old(Now()), r, strong, list)
    {
      ok := true;
      ghost var s := Now();
      if if strong then refs[r].strong == 0 else refs[r].weak == 0 {
        ok := IncNode(refs[r].node, strong, true, list);
        if !ok {
          RefusedSame(s, refs[r].node, strong, list);
          return;
        }
      } else {
        assert nodes[refs[r].node := nodes[refs[r].node]] == nodes;
      }
      refs := refs[r := if strong then refs[r].(strong := refs[r].strong + 1) else refs[r].(weak := refs[r].weak + 1)];
    }

    method DeleteReference(r: RefId, ghost pins: multiset<Pin>)
      requires Sound(Now(), pins) && r in refs && refs[r].node in nodes
      modifies `nodes, `refs, `refAt, `refFor, `descs, `nodeAt
      ensures Now() == DeleteRef(old(Now()), r)
      ensures OwnerTold(old(nodes), nodes, old(refs)[r].node)
    {
      hide Sound, DecNode, LostStrong, Removed, ListOk, LocalOk, FlagsOk, Unref, Weakened, OwnerTold;
      RefHere(Now(), r, pins);
      ghost var s := Now();
      DeleteTells(s, r);
      var ref := refs[r];
      refAt := refAt - {DescKey(ref.proc, ref.desc)};
      descs := descs[ref.proc := Removed(descs[ref.proc], ref.desc)];
      refFor := refFor - {ForKey(ref.proc, ref.node)};
      if ref.strong > 0 {
        LostStrongIs(Now(), ref.node);
        DecrementNode(ref.node, true, true);
      }
      nodes := nodes[ref.node := nodes[ref.node].(refs := nodes[ref.node].refs - {r})];
      refs := refs - {r};
      DeletedSoFar(s, r, Now());
      DecrementNode(ref.node, false, true);
    }

    method DecrementRef(r: RefId, strong: bool, ghost pins: multiset<Pin>) returns (ok: bool)
      requires Inv(Now(), pins) && r in refs && refs[r].node in nodes
      modifies `nodes, `refs, `refAt, `refFor, `descs, `nodeAt
      ensures ok == if strong then old(refs)[r].strong > 0 else old(refs)[r].weak > 0
      ensures Now() == DecRef(old(Now()), r, strong)
      ensures OwnerTold(old(nodes), nodes, old(refs)[r].node)
    {
      hide Sound, DeleteRef, DecNode, LostStrong, OwnerTold;
      ghost var s := Now();
      RefOnList(s, r, pins);
      DecRefTells(s, r, strong);
      if if strong then refs[r].strong == 0 else refs[r].weak == 0 {
        return false;
      }
      DecRefIs(s, r, strong);
      LoweredRefIs(s, r, strong, pins);
      if strong {
        RefHere(s, r, pins);
        refs := refs[r := refs[r].(strong := refs[r].strong - 1)];
        if refs[r].strong == 0 {
          LostStrongIs(Now(), refs[r].node);
          DecrementNode(refs[r].node, true, true);
        } else {
          assert nodes[refs[r].node := nodes[refs[r].node]] == nodes;
        }
      } else {
        refs := refs[r := refs[r].(weak := refs[r].weak - 1)];
      }
      assert Now() == LoweredRef(s, r, strong);
      if refs[r].strong == 0 && refs[r].weak == 0 {
        DeleteReference(r, pins);
      }
      return true;
    }

    // ---- transactions ----

    method CreateNode(p: Pid, ptr: Ptr, cookie: nat, n: NodeId)
      modifies `nodes, `nodeAt
      ensures Now() == NewNode(old(Now()), p, ptr, cookie, n)
    {
      nodes := nodes[n := Node(Some(p), ptr, cookie, 0, 0, 0, false, false, false, false, {}, false, false)];
      nodeAt := nodeAt[NodeKey(p, ptr) := n];
    }

    /** The reference of process `q` to node `m`, found or made, with one more count on it; `r` is the record
        a new reference gets. */
    method PassOn(q: Pid, m: NodeId, strong: bool, list: bool, ghost pins: multiset<Pin>) returns (desc: nat, ghost r: RefId)
      requires Sound(Now(), pins) && m in nodes && q in descs
      modifies `nodes, `refs, `refAt, `refFor, `descs
      ensures r !in old(refs)
      ensures var s := old(Now());
              && RefTo(s, q, m, r) in Linked(s, q, m, r).refs
              && desc == Linked(s, q, m, r).refs[RefTo(s, q, m, r)].desc
              && Now() == WithPin(s, q, m, r, strong, list)
    {
      hide Sound, Linked, RefTo, IncRef;
      ghost var s := Now();
      Spare(refs.Keys);
      r :| r !in refs;
      LinkedIsAny(s, q, m, pins);
      var a := GetRefForNode(q, m, pins);
      if a !in s.refs {
        r := a;
      }
      LinkedSame(s, q, m, a, r);
      desc := refs[a].desc;
      var _ := IncrementRef(a, strong, list);
    }

    /** A node of the sender: the receiver gets a handle for it. If there is no memory for the receiver's
        reference, a node that was made just now stays behind. */
    method TranslateBinder(p: Pid, q: Pid, ptr: Ptr, cookie: nat, strong: bool, memory: Memory, ghost pins: multiset<Pin>)
      returns (out: Option<Obj>, ghost n: NodeId, ghost r: RefId)
      requires Inv(Now(), pins) && p in descs && q in descs
      modifies `nodes, `refs, `nodeAt, `refAt, `refFor, `descs
      ensures n !in old(nodes) && r !in old(refs)
      ensures var s, o := old(Now()), Binder(ptr, cookie, strong);
              if Starved(s, p, q, o, memory) then out.None? && Now() == AfterStarved(s, p, o, memory, n)
              else (Now(), out) == Translated(s, p, q, o, n, r)
    {
      hide Sound, Linked, RefTo, NewNode, WithPin, Stranded;
      ghost var s := Now();
      Spare(nodes.Keys);
      Spare(refs.Keys);
      var spare: NodeId :| spare !in nodes.Keys;
      n := spare;
      r :| r !in refs;
      if NodeKey(p, ptr) !in nodeAt {
        if memory == NoNode {
          return None, n, r;
        }
        NewNodeKeeps(s, p, ptr, cookie, n, pins);
        CreateNode(p, ptr, cookie, spare);
        NewNodeParts(s, p, ptr, cookie, n);
        NewUnheld(s, p, q, ptr, cookie, n, pins);
        if memory == NoRef {
          StrandedIs(s, p, ptr, cookie, n);
          nodes := nodes[spare := nodes[spare].(stray := true)];
          return None, n, r;
        }
      }
      var m := nodeAt[NodeKey(p, ptr)];
      KeyHere(Now(), p, ptr, pins);
      if cookie != nodes[m].cookie {
        return None, n, r;
      }
      if memory == NoRef && ForKey(q, m) !in refFor {
        return None, n, r;
      }
      var desc;
      desc, r := PassOn(q, m, strong, true, pins);
      out := Some(Handle(desc, strong));
    }

    /** A handle of the sender: the owner of the node gets the node itself, anybody else a handle. */
    method TranslateHandle(p: Pid, q: Pid, desc: nat, strong: bool, memory: Memory, ghost pins: multiset<Pin>)
      returns (out: Option<Obj>, ghost n: NodeId, ghost r: RefId)
      requires Inv(Now(), pins) && p in descs && q in descs
      modifies `nodes, `refs, `nodeAt, `refAt, `refFor, `descs
      ensures n !in old(nodes) && r !in old(refs)
      ensures var s, o := old(Now()), Handle(desc, strong);
              if Starved(s, p, q, o, memory) then out.None? && Now() == AfterStarved(s, p, o, memory, n)
              else (Now(), out) == Translated(s, p, q, o, n, r)
      ensures out.Some? && out.value.Binder? ==> CookieGot(Now(), q, out.value)
    {
      hide Sound, Linked, RefTo, WithPin, Incremented;
      ghost var s := Now();
      Spare(nodes.Keys);
      Spare(refs.Keys);
      n :| n !in nodes;
      r :| r !in refs;
      HandleFound(Now(), p, Handle(desc, strong), pins);
      if DescKey(p, desc) !in refAt {
        return None, n, r;
      }
      var m := refs[refAt[DescKey(p, desc)]].node;
      if nodes[m].proc == Some(q) {
        out := Some(Binder(nodes[m].ptr, nodes[m].cookie, strong));
        OwnerGets(s, p, q, Handle(desc, strong), pins);
        var _ := IncNode(m, strong, false, false);
      } else {
        if memory == NoRef && ForKey(q, m) !in refFor {
          return None, n, r;
        }
        var d;
        d, r := PassOn(q, m, strong, false, pins);
        out := Some(Handle(d, strong));
      }
    }

    /** One object of a transaction from process `p` to process `q`. */
    method TranslateObject(p: Pid, q: Pid, o: Obj, memory: Memory, ghost pins: multiset<Pin>)
      returns (out: Option<Obj>, ghost n: NodeId, ghost r: RefId)
      requires Inv(Now(), pins) && p in descs && q in descs
      modifies `nodes, `refs, `nodeAt, `refAt, `refFor, `descs
      ensures n !in old(nodes) && r !in old(refs)
      ensures if Starved(old(Now()), p, q, o, memory) then out.None? && Now() == AfterStarved(old(Now()), p, o, memory, n)
              else (Now(), out) == Translated(old(Now()), p, q, o, n, r)
    {
      hide Inv, Starved, AfterStarved, Translated;
      match o {
        case Binder(ptr, cookie, strong) => out, n, r := TranslateBinder(p, q, ptr, cookie, strong, memory, pins);
        case Handle(desc, strong) => out, n, r := TranslateHandle(p, q, desc, strong, memory, pins);
      }
    }

    /** One object of a buffer of process `q` is let go; the node it pins is there. */
    method ReleaseObject(q: Pid, o: Obj, ghost extra: multiset<Pin>)
      requires Holds(extra) && PinFor(q, o) in extra
      modifies `nodes, `refs, `nodeAt, `refAt, `refFor, `descs
      ensures Now() == Released(old(Now()), q, o)
      ensures Holds(extra - multiset{PinFor(q, o)}) && descs.Keys == old(descs).Keys
    {
      hide Inv, TargetsOk, LogsOk, DecRef, DecNode, Prompted, OwnerTold;
      ghost var pins := AllPins(bufs) + extra;
      ReleasedPrompt(Now(), q, o);
      StillPrompted(nodes, Released(Now(), q, o).nodes, lost);
      ReleaseStep(Now(), q, o, bufs, log, extra);
      match o {
        case Binder(ptr, _, strong) =>
          if NodeKey(q, ptr) in nodeAt {
            DecrementNode(nodeAt[NodeKey(q, ptr)], strong, false);
          } else {
            assert false;
          }
        case Handle(desc, strong) =>
          if DescKey(q, desc) in refAt {
            var _ := DecrementRef(refAt[DescKey(q, desc)], strong, pins);
          }
      }
    }

    /** The node the buffer was sent to is let go. */
    method ReleaseTarget(q: Pid, target: NodeId, targetPtr: Ptr, ghost extra: multiset<Pin>)
      requires Holds(extra) && PinFor(q, Binder(targetPtr, 0, true)) in extra
      requires NodeKey(q, targetPtr) in nodeAt && nodeAt[NodeKey(q, targetPtr)] == target
      modifies `nodes, `nodeAt
      ensures Now() == Released(old(Now()), q, Binder(targetPtr, 0, true))
      ensures Holds(extra - multiset{PinFor(q, Binder(targetPtr, 0, true))}) && descs.Keys == old(descs).Keys
    {
      hide Held, Released, Prompted, OwnerTold;
      ReleasedPrompt(Now(), q, Binder(targetPtr, 0, true));
      StillPrompted(nodes, Released(Now(), q, Binder(targetPtr, 0, true)).nodes, lost);
      ReleaseStep(Now(), q, Binder(targetPtr, 0, true), bufs, log, extra);
      ReleasedTarget(Now(), q, Binder(targetPtr, 0, true));
      DecrementNode(target, true, false);
    }

    /** `binder_transaction_buffer_release`: a buffer of process `q` lets go of its target node and of `objs`.
        For a failed attempt, what was counted for them is taken back. */
    method ReleaseObjects(q: Pid, target: Option<NodeId>, targetPtr: Ptr, objs: seq<Obj>,
                          ghost a: Option<Attempt>, ghost more: multiset<Pin>)
      requires Holds(BufPins(Buf(q, target, targetPtr, objs))) && TargetOk(Now(), Buf(q, target, targetPtr, objs))
      requires a.Some? ==> TakingBack(a.value, Now(), BufPins(Buf(q, target, targetPtr, objs)), more)
      modifies `nodes, `refs, `nodeAt, `refAt, `refFor, `descs
      ensures Valid() && descs.Keys == old(descs).Keys
      ensures a.Some? ==> TakingBack(a.value, Now(), multiset{}, multiset{})
    {
      hide Held, TakingBack, Released, Inv, Prompted;
      ghost var extra := BufPins(Buf(q, target, targetPtr, objs));
      ghost var o := Binder(targetPtr, 0, true);
      ghost var rest := more;
      if target.Some? {
        assert extra - multiset{PinFor(q, o)} == PinsFor(q, objs);
        if a.Some? {
          TakeBackStep(a.value, Now(), extra, more, q, o, bufs, log);
        }
        rest := more - multiset{PinFor(q, o)};
        ReleaseTarget(q, target.value, targetPtr, extra);
      } else {
        assert extra == PinsFor(q, objs);
      }
      hide BufPins, TargetOk;
      assert objs[0..] == objs;
      ReleaseFrom(q, objs, a, rest);
    }

    method ReleaseFrom(q: Pid, objs: seq<Obj>, ghost a: Option<Attempt>, ghost more: multiset<Pin>)
      requires Holds(PinsFor(q, objs))
      requires a.Some? ==> TakingBack(a.value, Now(), PinsFor(q, objs), more)
      modifies `nodes, `refs, `nodeAt, `refAt, `refFor, `descs
      ensures Valid() && descs.Keys == old(descs).Keys
      ensures a.Some? ==> TakingBack(a.value, Now(), multiset{}, multiset{})
    {
      hide Held, TakingBack, Released, Inv, PinFor, AllPins, Prompted;
      var i := 0;
      ghost var rest := more;
      assert objs[0..] == objs;
      while i < |objs|
        invariant 0 <= i <= |objs| && descs.Keys == old(descs).Keys
        invariant Holds(PinsFor(q, objs[i..]))
        invariant a.Some? ==> TakingBack(a.value, Now(), PinsFor(q, objs[i..]), rest)
      {
        rest := ReleaseNext(q, objs, i, a, rest);
        i := i + 1;
      }
      assert objs[i..] == [];
      if a.Some? {
        TakenBack(a.value, Now(), rest);
      }
    }

    method ReleaseNext(q: Pid, objs: seq<Obj>, i: nat, ghost a: Option<Attempt>, ghost more: multiset<Pin>) returns (ghost rest: multiset<Pin>)
      requires i < |objs| && Holds(PinsFor(q, objs[i..]))
      requires a.Some? ==> TakingBack(a.value, Now(), PinsFor(q, objs[i..]), more)
      modifies `nodes, `refs, `nodeAt, `refAt, `refFor, `descs
      ensures Holds(PinsFor(q, objs[i + 1..])) && descs.Keys == old(descs).Keys
      ensures a.Some? ==> TakingBack(a.value, Now(), PinsFor(q, objs[i + 1..]), rest)
    {
      hide Held, TakingBack, Released, Inv, PinFor, AllPins, Prompted;
      ghost var now := PinsFor(q, objs[i..]);
      PinsTail(q, objs, i);
      assert now - multiset{PinFor(q, objs[i])} == PinsFor(q, objs[i + 1..]);
      if a.Some? {
        TakeBackStep(a.value, Now(), now, more, q, objs[i], bufs, log);
      }
      rest := more - multiset{PinFor(q, objs[i])};
      ReleaseObject(q, objs[i], now);
    }

    /** A transaction from process `p` to process `q` so far: `out` is in the receiver's buffer, and of the pins
        it stands for, `more` were counted since `s0`. */
    ghost predicate Sending(p: Pid, q: Pid, target: Option<NodeId>, targetPtr: Ptr, objs: seq<Option<Obj>>, out: seq<Obj>,
                            s0: State, pins0: multiset<Pin>, more: multiset<Pin>)
      reads this
    {
      var b := Buf(q, target, targetPtr, out);
      && p in descs && q in descs && descs.Keys == s0.descs.Keys
      && Held(Now(), bufs, log, BufPins(b)) && TargetOk(Now(), b)
      && Pending(s0, Now(), p, q, objs, out, more, BufPins(b), pins0, AllPins(bufs) + BufPins(b))
      && Foreseen(s0, Now(), p, q, objs, |out|)
      && Prompted(nodes, lost) && CookiesGot(Now(), q, out)
    }

    /** The transaction is about to be given up, `t` being the state when the last object was translated. */
    ghost predicate GivenUp(p: Pid, q: Pid, target: Option<NodeId>, targetPtr: Ptr, objs: seq<Option<Obj>>, out: seq<Obj>,
                            s0: State, pins0: multiset<Pin>, more: multiset<Pin>, t: State, stray: bool)
      reads this
    {
      var b := Buf(q, target, targetPtr, out);
      && Held(Now(), bufs, log, BufPins(b)) && TargetOk(Now(), b) && descs.Keys == s0.descs.Keys
      && Pending(s0, t, p, q, objs, out, more, BufPins(b), pins0, AllPins(bufs) + BufPins(b))
      && LeftOver(t, Now(), stray) && Grown(s0, Now(), more, None) && Prompted(nodes, lost)
    }

    /** One more object. */
    method SendObject(p: Pid, q: Pid, target: Option<NodeId>, targetPtr: Ptr, objs: seq<Option<Obj>>, out: seq<Obj>, memory: seq<Memory>,
                      ghost s0: State, ghost pins0: multiset<Pin>, ghost more: multiset<Pin>)
      returns (o: Option<Obj>, ghost more': multiset<Pin>, ghost stray: bool)
      requires Sending(p, q, target, targetPtr, objs, out, s0, pins0, more) && |out| < |objs| == |memory| && objs[|out|].Some?
      modifies `nodes, `refs, `nodeAt, `refAt, `refFor, `descs, `log
      ensures o.Some? ==> Sending(p, q, target, targetPtr, objs, out + [o.value], s0, pins0, more')
      ensures o.None? ==> GivenUp(p, q, target, targetPtr, objs, out, s0, pins0, more, old(Now()), stray)
      ensures o.None? ==> stray == Strays(old(Now()), p, objs[|out|].value, memory[|out|])
      ensures p in s0.descs && q in s0.descs && (o.None? <==> FailsAt(s0, p, q, objs, memory, |out|))
    {
      hide Foreseen, FailsAt, RefusedFor, Pending, Held, TargetOk, Translated, Starved, AfterStarved, Strays, LogWith, LeftOver, Grown, BufPins, AllPins,
        Prompted, CookiesGot;
      ghost var s := Now();
      ghost var b := Buf(q, target, targetPtr, out);
      ghost var pins := AllPins(bufs) + BufPins(b);
      var obj := objs[|out|].value;
      ghost var n, r;
      HeldInv(s, bufs, log, BufPins(b));
      o, n, r := TranslateObject(p, q, obj, memory[|out|], pins);
      more', stray := more, Strays(s, p, obj, memory[|out|]);
      OutcomeIs(s0, s, p, q, objs, out, more, BufPins(b), memory, n, r, pins0, pins);
      ObjectPrompt(s, p, q, obj, memory[|out|], n, r, pins, lost);
      if Starved(s, p, q, obj, memory[|out|]) {
        StarvedStep(s0, s, p, q, obj, memory[|out|], n, bufs, log, b, objs, out, more, pins0);
        log := LogWith(log, s, Now(), n);
      } else {
        TranslateStep(s, p, q, obj, n, r, bufs, log, BufPins(b));
        PendingStep(s0, s, p, q, objs, out, more, BufPins(b), n, r, pins0, pins);
        TranslatedKeys(s, p, q, obj, n, r, pins);
        log := LogWith(log, s, Now(), n);
        if o.Some? {
          TranslatedNone(s, p, q, obj, n, r, pins);
          GotStep(s, p, q, obj, n, r, pins, out);
          ForeseenStep(s0, s, p, q, objs, out, more, BufPins(b), n, r, pins0, pins);
          BufPinsMore(b, o.value);
          assert pins + multiset{PinFor(q, o.value)} == AllPins(bufs) + (BufPins(b) + multiset{PinFor(q, o.value)});
          more' := more + Paid(s, p, q, obj, r, o);
          TargetPinned(b, o.value);
          TargetStays(s, Now(), b, BufPins(b) + multiset{PinFor(q, o.value)}, bufs, log);
          TargetSame(Now(), b, out + [o.value]);
        } else {
          RefusedStep(s0, s, p, q, obj, memory[|out|], n, r, bufs, old(log), b, objs, out, more, pins0);
        }
      }
    }

    /** The objects of a transaction from process `p` to process `q`, and its target; `memory` is what the
        allocator has for each. If no object fails, the receiver's buffer holds one for each, which names the same
        node for the receiver, and nothing but its pins is added. Otherwise the transaction fails at the first that
        does, `done`. Then everything that was counted is taken back, and all is as it was before exactly if the
        objects before can be undone, and no stray node was left. */
    method SendObjects(p: Pid, q: Pid, target: Option<NodeId>, objs: seq<Option<Obj>>, memory: seq<Memory>) returns (ok: bool, done: nat)
      requires Valid() && p in descs && q in descs && |memory| == |objs|
      requires target.Some? ==> target.value in nodes && nodes[target.value].proc == Some(q)
      modifies this
      ensures Valid() && descs.Keys == old(descs).Keys
      ensures ok <==> forall k :: 0 <= k < |objs| ==> !FailsAt(old(Now()), p, q, objs, memory, k)
      ensures done <= |objs| && (!ok ==> bufs == old(bufs) && done < |objs|)
      ensures !ok ==> FailsAt(old(Now()), p, q, objs, memory, done)
      ensures forall k :: 0 <= k < done ==> !FailsAt(old(Now()), p, q, objs, memory, k)
      ensures !ok ==> Grown(old(Now()), Now(), multiset{}, None)
      ensures !ok ==> (Restored(old(Now()), Now()) <==>
                         Undone(old(Now()), p, q, objs, done) && !StraysAt(old(Now()), p, objs, done, memory))
      ensures ok ==> |bufs| == |old(bufs)| + 1 && bufs[..|old(bufs)|] == old(bufs)
      ensures ok ==> var b := bufs[|old(bufs)|];
                     b.proc == q && b.target == target && |b.objs| == |objs| && SameNames(Now(), p, q, objs, b.objs)
                     && Added(old(Now()), Now(), BufPins(b)) && DescsAs(old(Now()), Now(), p, q, objs, |objs|)
                     && CookiesGot(Now(), q, b.objs)
      ensures lost == old(lost)
    {
      hide Prompted, CookiesGot, Foreseen, FailsAt, Added, DescsAs, Sending, GivenUp, Held, Inv, Grown, Restored, Incremented, BufPins, AllPins, Pending, Undone, StraysAt, Strays, TakingBack;
      ghost var s0, pins0 := Now(), AllPins(bufs) + multiset{};
      var targetPtr := if target.Some? then nodes[target.value].ptr else 0;
      SendingStart(s0, bufs, log, p, q, target, targetPtr, objs);
      TargetPrompt(s0, target, pins0, lost);
      if target.Some? {
        var _ := IncNode(target.value, true, false, false);
      }
      var out: seq<Obj> := [];
      ghost var more := BufPins(Buf(q, target, targetPtr, []));
      ghost var t, stray := Now(), false;
      SendingStarts(p, q, target, targetPtr, objs, s0, pins0);
      ok := true;
      while |out| < |objs| && ok
        invariant |out| <= |objs| && bufs == old(bufs) && descs.Keys == old(descs).Keys && lost == old(lost)
        invariant ok ==> Sending(p, q, target, targetPtr, objs, out, s0, pins0, more)
        invariant !ok ==> GivenUp(p, q, target, targetPtr, objs, out, s0, pins0, more, t, stray) && |out| < |objs|
        invariant !ok ==> stray == StraysAt(s0, p, objs, |out|, memory) && FailsAt(s0, p, q, objs, memory, |out|)
        invariant forall k :: 0 <= k < |out| ==> !FailsAt(s0, p, q, objs, memory, k)
        decreases |objs| - |out|, ok
      {
        t := Now();
        SendingParts(p, q, target, targetPtr, objs, out, s0, pins0, more);
        if objs[|out|].None? {
          ok, stray := false, false;
          NoneFails(s0, p, q, objs, memory, |out|);
          NothingStrays(s0, p, objs, |out|, memory);
        } else {
          var o;
          ghost var more';
          o, more', stray := SendObject(p, q, target, targetPtr, objs, out, memory, s0, pins0, more);
          if o.Some? {
            out, more := out + [o.value], more';
            SendingParts(p, q, target, targetPtr, objs, out, s0, pins0, more);
          } else {
            ok := false;
            StraysIs(s0, t, p, q, objs, out, memory, more, BufPins(Buf(q, target, targetPtr, out)), pins0, AllPins(bufs) + BufPins(Buf(q, target, targetPtr, out)));
            GivenUpParts(p, q, target, targetPtr, objs, out, s0, pins0, more, t, stray);
          }
        }
      }
      done := |out|;
      if ok {
        SendingParts(p, q, target, targetPtr, objs, out, s0, pins0, more);
        AddedIs(s0, Now(), p, q, objs, out, more, BufPins(Buf(q, target, targetPtr, out)), pins0,
                AllPins(bufs) + BufPins(Buf(q, target, targetPtr, out)));
        ForeseenDescs(s0, Now(), p, q, objs);
        BufferJoins(Now(), bufs, log, Buf(q, target, targetPtr, out));
        bufs := bufs + [Buf(q, target, targetPtr, out)];
      } else {
        GivenUpParts(p, q, target, targetPtr, objs, out, s0, pins0, more, t, stray);
        ghost var pins := AllPins(bufs) + BufPins(Buf(q, target, targetPtr, out));
        ghost var a := Attempt(s0, Now(), more, pins0, pins);
        TakeBack(p, q, target, targetPtr, objs, out, s0, pins0, more, t, stray);
        ReleaseObjects(q, target, targetPtr, out, Some(a), more);
        HeldInv(Now(), bufs, log, multiset{});
        AfterTaking(a, t, Now(), p, q, objs, out, BufPins(Buf(q, target, targetPtr, out)), stray, AllPins(bufs) + multiset{});
      }
    }

    lemma SendingParts(p: Pid, q: Pid, target: Option<NodeId>, targetPtr: Ptr, objs: seq<Option<Obj>>, out: seq<Obj>,
                       s0: State, pins0: multiset<Pin>, more: multiset<Pin>)
      requires Sending(p, q, target, targetPtr, objs, out, s0, pins0, more)
      ensures descs.Keys == s0.descs.Keys && p in descs && q in descs
      ensures Holds(BufPins(Buf(q, target, targetPtr, out))) && TargetOk(Now(), Buf(q, target, targetPtr, out))
      ensures SameNames(Now(), p, q, objs, out)
      ensures var b := Buf(q, target, targetPtr, out); Pending(s0, Now(), p, q, objs, out, more, BufPins(b), pins0, AllPins(bufs) + BufPins(b))
      ensures GivenUp(p, q, target, targetPtr, objs, out, s0, pins0, more, Now(), false)
      ensures Foreseen(s0, Now(), p, q, objs, |out|) && CookiesGot(Now(), q, out)
    {
      hide Prompted, CookiesGot, Foreseen, Held, TargetOk, Inv, Tally, Sound, Grown, Square, KeysFrom, SameNames;
    }

    lemma GivenUpParts(p: Pid, q: Pid, target: Option<NodeId>, targetPtr: Ptr, objs: seq<Option<Obj>>, out: seq<Obj>,
                       s0: State, pins0: multiset<Pin>, more: multiset<Pin>, t: State, stray: bool)
      requires GivenUp(p, q, target, targetPtr, objs, out, s0, pins0, more, t, stray)
      ensures descs.Keys == s0.descs.Keys
      ensures Holds(BufPins(Buf(q, target, targetPtr, out))) && TargetOk(Now(), Buf(q, target, targetPtr, out))
      ensures var b := Buf(q, target, targetPtr, out); Pending(s0, t, p, q, objs, out, more, BufPins(b), pins0, AllPins(bufs) + BufPins(b))
      ensures LeftOver(t, Now(), stray)
    {
      hide Held, TargetOk, Pending, Grown, LeftOver, Prompted;
    }

    lemma SendingStarts(p: Pid, q: Pid, target: Option<NodeId>, targetPtr: Ptr, objs: seq<Option<Obj>>, s0: State, pins0: multiset<Pin>)
      requires p in descs && q in descs && descs.Keys == s0.descs.Keys
      requires Held(Now(), bufs, log, BufPins(Buf(q, target, targetPtr, [])))
      requires TargetOk(Now(), Buf(q, target, targetPtr, [])) && Inv(s0, pins0) && SameWork(s0, Now())
      requires Grown(s0, Now(), BufPins(Buf(q, target, targetPtr, [])), None) && descs == s0.descs && Prompted(nodes, lost)
      ensures Sending(p, q, target, targetPtr, objs, [], s0, pins0, BufPins(Buf(q, target, targetPtr, [])))
    {
      hide Held, TargetOk, Inv, Grown, SameWork, Pending, BufPins, AllPins, Prompted;
      StartPins(q, target, targetPtr);
      ForeseenStart(s0, Now(), p, q, objs);
      hide Foreseen;
      var extra := BufPins(Buf(q, target, targetPtr, []));
      HeldInv(Now(), bufs, log, extra);
      InvSound(Now(), AllPins(bufs) + extra);
      PendingStart(s0, Now(), p, q, objs, extra, pins0, AllPins(bufs) + extra);
    }

    /** Everything is accounted for when letting go begins. */
    lemma TakeBack(p: Pid, q: Pid, target: Option<NodeId>, targetPtr: Ptr, objs: seq<Option<Obj>>, out: seq<Obj>,
                   s0: State, pins0: multiset<Pin>, more: multiset<Pin>, t: State, stray: bool)
      requires GivenUp(p, q, target, targetPtr, objs, out, s0, pins0, more, t, stray)
      ensures var b := Buf(q, target, targetPtr, out);
              TakingBack(Attempt(s0, Now(), more, pins0, AllPins(bufs) + BufPins(b)), Now(), BufPins(b), more)
    {
      hide Held, TargetOk, Inv, Grown, Tally, SameNames, KeysFrom, Kept, Sound;
      var b := Buf(q, target, targetPtr, out);
      HeldInv(Now(), bufs, log, BufPins(b));
      InvSound(Now(), AllPins(bufs) + BufPins(b));
      KeptStart(s0, Now(), more);
      SquareSame(s0, t, Now(), BufPins(b), more);
    }

    /** `BC_FREE_BUFFER`, and the end of a transaction that was never delivered. */
    method FreeBuffer(i: nat)
      requires Valid() && i < |bufs|
      modifies this
      ensures Valid() && bufs == old(bufs)[..i] + old(bufs)[i + 1..] && lost == old(lost)
    {
      hide Held, TargetOk, Prompted;
      var b := bufs[i];
      BufferLeaves(Now(), bufs, log, i);
      bufs := bufs[..i] + bufs[i + 1..];
      ReleaseObjects(b.proc, b.target, b.targetPtr, b.objs, None, multiset{});
    }

    // ---- commands and notifications ----

    /** `BC_INCREFS`, `BC_ACQUIRE`, `BC_RELEASE` and `BC_DECREFS` on descriptor `desc` of process `p`. */
    method CountCommand(p: Pid, desc: nat, strong: bool, up: bool)
      requires Valid() && p in descs
      modifies `nodes, `refs, `nodeAt, `refAt, `refFor, `descs
      ensures Valid()
      ensures Counted(old(Now()), Now(), p, desc, strong, up) && CountMoved(old(Now()), Now(), p, desc, strong, up)
    {
      hide Inv, TargetsOk, LogsOk, WithPin, IncRef, DecRef, Prompted, OwnerTold, Moved;
      ghost var s, pins := Now(), AllPins(bufs) + multiset{};
      if desc == 0 && manager.Some? && up {
        ManagerHere(s, p, pins);
        var _, r := PassOn(p, manager.value, strong, false, pins);
        PinPrompt(s, p, s.manager.value, r, strong, false, pins);
        StillPrompted(s.nodes, nodes, lost);
        PinMoves(s, p, manager.value, r, strong, pins);
        PinCounted(s, p, manager.value, r, strong, bufs, log);
        return;
      }
      HandleFound(s, p, Handle(desc, strong), pins);
      if DescKey(p, desc) !in refAt {
        return;
      }
      var r := refAt[DescKey(p, desc)];
      RefCounted(s, r, strong, bufs, log);
      RefCountedPrompt(s, r, strong, pins, lost);
      RefMoves(s, r, strong, pins);
      if up {
        var _ := IncrementRef(r, strong, false);
      } else {
        var _ := DecrementRef(r, strong, pins);
      }
    }

    /** `BC_INCREFS_DONE` and `BC_ACQUIRE_DONE`: answers nobody waits for are ignored. */
    method Acknowledge(p: Pid, ptr: Ptr, cookie: nat, strong: bool)
      requires Valid()
      modifies `nodes, `nodeAt, `log
      ensures Valid()
      ensures Now() == if Owed(old(Now()), p, ptr, cookie, strong)
                       then Acknowledged(old(Now()), old(nodeAt)[NodeKey(p, ptr)], strong) else old(Now())
      ensures NodeKey(p, ptr) in old(nodeAt) ==>
                var n := old(nodeAt)[NodeKey(p, ptr)];
                n in old(nodes) && n in old(log) && Replay(old(log)[n]).Some? &&
                log == if old(nodes)[n].cookie == cookie && AnswerDue(Replay(old(log)[n]).value, strong)
                       then old(log)[n := old(log)[n] + [Answered(strong)]] else old(log)
      ensures NodeKey(p, ptr) !in old(nodeAt) ==> log == old(log)
    {
      hide Inv, TargetsOk, LogsOk, DecNode, Prompted, OwnerTold;
      ghost var s := Now();
      if NodeKey(p, ptr) !in nodeAt {
        return;
      }
      var n := nodeAt[NodeKey(p, ptr)];
      NodeFound(s, p, ptr, bufs, log);
      ViewHere(s, n, bufs, log);
      AcknowledgedPrompt(s, n, strong);
      if cookie != nodes[n].cookie {
        return;
      }
      if strong {
        if !nodes[n].pendingStrong {
          return;
        }
        AckStep(s, n, strong, bufs, log);
        nodes := nodes[n := nodes[n].(pendingStrong := false)];
      } else {
        if !nodes[n].pendingWeak {
          return;
        }
        AckStep(s, n, strong, bufs, log);
        nodes := nodes[n := nodes[n].(pendingWeak := false)];
      }
      DecrementNode(n, strong, false);
      StillPrompted(s.nodes, nodes, lost);
      log := Answer(log, s, n, strong);
    }

    /** One turn on a node's work item in `binder_thread_read`. */
    method NotifyOnce(n: NodeId) returns (cmd: Message)
      requires Valid() && n in nodes && nodes[n].queued
      modifies `nodes, `nodeAt, `log, `lost
      ensures Valid() && Now() == Drained(old(Now()), n) && cmd == Due(old(nodes)[n])
      ensures cmd != Nothing ==>
                && n in nodes && nodes[n] == Notified(old(nodes)[n]) && nodes[n].queued
                && n in old(log) && n in log && log[n] == old(log)[n] + [Sent(cmd)]
      ensures cmd == Nothing ==> log == old(log) && (n in nodes ==> !nodes[n].queued)
      ensures lost == if cmd == Nothing then old(lost) - {n} else old(lost)
      ensures cmd == Nothing ==> n in log && Informed(At(nodes, n), log[n])
    {
      hide Held, Due, Notified, Drained, Informed, Prompted;
      cmd := Due(nodes[n]);
      if cmd == Nothing {
        Retire(n);
      } else {
        Tell(n);
      }
    }

    /** Nothing is due: the work item is done with, and the node, if nothing uses it. */
    method Retire(n: NodeId)
      requires Valid() && n in nodes && nodes[n].queued && Due(nodes[n]) == Nothing
      modifies `nodes, `nodeAt, `lost
      ensures Valid() && Now() == Drained(old(Now()), n) && lost == old(lost) - {n} && (n in nodes ==> !nodes[n].queued)
      ensures n in log && Informed(At(nodes, n), log[n])
    {
      hide Held, Due, Notified, Drained, Prompt, Informed, WeakUse, StrongUse;
      ghost var s := Now();
      DrainStep(s, n, bufs, log);
      DrainedNothing(s, n);
      NothingDue(nodes[n]);
      InformedIs(s, n, bufs, log);
      lost := lost - {n};
      if !WeakUse(nodes[n]) && !StrongUse(nodes[n]) {
        nodeAt := nodeAt - {NodeKey(nodes[n].proc.value, nodes[n].ptr)};
        nodes := nodes - {n};
      } else {
        nodes := nodes[n := nodes[n].(queued := false)];
      }
    }

    /** The message that is due is sent; the work item stays queued. */
    method Tell(n: NodeId)
      requires Valid() && n in nodes && nodes[n].queued && Due(nodes[n]) != Nothing
      modifies `nodes, `log
      ensures Valid() && Now() == Drained(old(Now()), n)
      ensures n in nodes && nodes[n] == Notified(old(nodes)[n]) && nodes[n].queued
      ensures n in old(log) && n in log && log[n] == old(log)[n] + [Sent(Due(old(nodes)[n]))]
    {
      hide Held, Due, Notified, Drained, Prompt;
      DrainStep(Now(), n, bufs, log);
      MessagePrompt(nodes[n]);
      ghost var cmd := Due(nodes[n]);
      nodes := nodes[n := Notified(nodes[n])];
      log := log[n := log[n] + [Sent(cmd)]];
    }

    /** One node's work item in `binder_thread_read`: messages go out until nothing is due or the read buffer
        has no room. With room for them all, the owner ends up with the references that are used, and no others. */
    method Notify(n: NodeId, room: nat) returns (out: seq<Message>)
      requires Valid() && n in nodes && nodes[n].queued
      modifies `nodes, `nodeAt, `log, `lost
      ensures Valid()
      ensures |out| <= 2 && |out| <= room
      ensures room > 2 ==> n !in nodes || !nodes[n].queued
      ensures n in old(log) && n in log && log[n] == old(log)[n] + Sendings(out)
      ensures room > 2 ==> Informed(At(nodes, n), log[n]) && lost == old(lost) - {n}
    {
      hide Held, Due, Notified, Drained, Prompted, Informed;
      out := [];
      LogHere(Now(), n, bufs, log);
      TwoAtMost(Now(), n, bufs, log);
      ghost var first := nodes[n];
      while |out| < room
        invariant Valid() && n in nodes && nodes[n].queued && |out| <= room
        invariant |out| == 0 ==> nodes[n] == first
        invariant |out| == 1 ==> Due(first) != Nothing && nodes[n] == Notified(first)
        invariant |out| == 2 ==> Due(first) != Nothing && Due(Notified(first)) != Nothing && nodes[n] == Notified(Notified(first))
        invariant |out| <= 2 && lost == old(lost)
        invariant n in old(log) && n in log && log[n] == old(log)[n] + Sendings(out)
      {
        var cmd := NotifyOnce(n);
        if cmd == Nothing {
          return;
        }
        SendingsMore(out, cmd);
        out := out + [cmd];
      }
    }

    // ---- processes ----

    /** A thread exits with the work item of node `n` on its list: `binder_release_work` drops the item. Word is lost
        exactly if some was due. */
    method LoseWork(n: NodeId)
      requires Valid() && n in nodes && nodes[n].queued
      modifies `nodes, `lost
      ensures Valid() && Now() == WithNode(old(Now()), n, Unqueued(old(nodes)[n]))
      ensures lost == if WordDue(old(nodes)[n]) then old(lost) + {n} else old(lost)
    {
      hide Held, Unqueued, Prompt, WordDue;
      LoseStep(Now(), n, bufs, log);
      LostExact(nodes[n]);
      if WordDue(nodes[n]) {
        lost := lost + {n};
      }
      nodes := nodes[n := Unqueued(nodes[n])];
    }

    method NewProc(p: Pid)
      requires Valid() && p !in descs
      modifies `descs
      ensures Valid() && descs == old(descs)[p := []]
    {
      hide Inv, LogsOk, TargetsOk, Prompted;
      NewProcStep(Now(), p, bufs, log);
      descs := descs[p := []];
    }

    /** `BINDER_SET_CONTEXT_MGR`: only one, and only if the process has no node at address 0 yet. */
    method SetManager(p: Pid) returns (ok: bool)
      requires Valid() && p in descs
      modifies `nodes, `nodeAt, `manager, `log
      ensures Valid()
      ensures ok <==> old(manager).None? && NodeKey(p, 0) !in old(nodeAt)
      ensures !ok ==> Now() == old(Now())
      ensures ok ==> manager.Some? && manager.value !in old(nodes) && Now() == Appointed(old(Now()), p, manager.value)
    {
      hide Held, Prompted;
      if manager.Some? || NodeKey(p, 0) in nodeAt {
        return false;
      }
      Spare(nodes.Keys);
      var n: NodeId :| n !in nodes.Keys;
      AppointStep(Now(), p, n, bufs, log);
      AppointedPrompt(Now(), p, n);
      StillPrompted(nodes, Appointed(Now(), p, n).nodes, lost);
      nodes := nodes[n := Node(Some(p), 0, 0, 0, 1, 1, true, true, false, false, {}, false, false)];
      nodeAt := nodeAt[NodeKey(p, 0) := n];
      manager := Some(n);
      log := log[n := [Granted]];
      return true;
    }

    /** The loop of `binder_deferred_release` over the nodes of process `p`. */
    method ReleaseNodes(p: Pid)
      requires KeysOf(Now(), p)
      requires manager.Some? && manager.value in nodes ==> nodes[manager.value].proc != Some(p)
      modifies `nodes, `nodeAt
      ensures Now() == Orphaned(old(Now()), p)
    {
      hide Orphaned, KeysOf;
      while exists n :: n in nodes && nodes[n].proc == Some(p)
        invariant Orphaned(Now(), p) == Orphaned(old(Now()), p)
        invariant manager.Some? && manager.value in nodes ==> nodes[manager.value].proc != Some(p)
        invariant KeysOf(Now(), p)
        decreases set n | n in nodes && nodes[n].proc == Some(p)
      {
        var n :| n in nodes && nodes[n].proc == Some(p);
        OneOrphanOf(Now(), p, n);
        OneOrphanKeys(Now(), p, n);
        ghost var before := set m | m in nodes && nodes[m].proc == Some(p);
        nodeAt := nodeAt - {NodeKey(p, nodes[n].ptr)};
        if nodes[n].refs == {} {
          nodes := nodes - {n};
        } else {
          nodes := nodes[n := nodes[n].(proc := None, localStrong := 0, localWeak := 0, queued := false)];
        }
        assert n in before && n !in set m | m in nodes && nodes[m].proc == Some(p);
      }
      NoKeys(Now(), p);
      NoOrphans(Now(), p);
    }

    /** The process loses the manager's part, its nodes and its buffers. */
    method ReleaseOwned(p: Pid)
      requires Valid() && p in descs
      modifies `nodes, `nodeAt, `manager, `bufs
      ensures Valid() && Now() == Orphaned(old(Now()), p) && bufs == Others(old(bufs), p)
      ensures descs == old(descs) && forall k :: k in nodeAt ==> k.proc != p
      ensures forall i :: 0 <= i < |bufs| ==> bufs[i].proc != p
    {
      hide Held, Orphaned, Prompted, KeysOf;
      ghost var s := Now();
      OrphansPrompt(s, p, lost);
      ManagerPlace(s, bufs, log);
      OrphanStep(s, p, bufs, log);
      KeysOfProc(s, p, bufs, log);
      if manager.Some? && nodes[manager.value].proc == Some(p) {
        ManagerFirst(s, p);
        SameKeys(s, s.(manager := None), p);
        manager := None;
      }
      ReleaseNodes(p);
      bufs := Others(bufs, p);
    }

    /** The process loses its references. */
    method ReleaseRefs(p: Pid)
      requires Valid() && p in descs && forall k :: k in nodeAt ==> k.proc != p
      modifies `nodes, `refs, `refAt, `refFor, `descs, `nodeAt
      ensures Valid() && descs.Keys == old(descs).Keys && descs[p] == [] && forall k :: k in nodeAt ==> k.proc != p
    {
      hide Held, DeleteRef, Inv, Sound, Prompted, OwnerTold;
      while descs[p] != []
        invariant Valid() && p in descs && descs.Keys == old(descs).Keys
        invariant forall k :: k in nodeAt ==> k.proc != p
        decreases |descs[p]|
      {
        DeleteStep(Now(), p, bufs, log);
        SoundHere(Now(), bufs, log);
        DeleteKept(Now(), refAt[DescKey(p, descs[p][0])]);
        StillPrompted(nodes, DeleteRef(Now(), refAt[DescKey(p, descs[p][0])]).nodes, lost);
        DeleteReference(refAt[DescKey(p, descs[p][0])], AllPins(bufs) + multiset{});
      }
    }

    /** `binder_deferred_release`: the process's nodes die, its references go, and its buffers with them. */
    method ReleaseProc(p: Pid)
      requires Valid() && p in descs
      modifies this
      ensures Valid() && descs.Keys == old(descs).Keys - {p} && bufs == Others(old(bufs), p)
      ensures forall r :: r in refs ==> refs[r].proc != p
      ensures forall n :: n in nodes ==> nodes[n].proc != Some(p)
      ensures manager.Some? ==> manager == old(manager) && manager.value in old(nodes) && old(nodes)[manager.value].proc != Some(p)
    {
      hide Held, Orphaned, Inv, Sound, Prompted;
      OrphanedManager(Now(), p);
      ManagerPlace(Now(), bufs, log);
      ReleaseOwned(p);
      ReleaseRefs(p);
      GoneStep(Now(), p, bufs, log);
      descs := descs - {p};
      SoundHere(Now(), bufs, log);
      NothingLeft(Now(), p, AllPins(bufs) + multiset{});
    }
  }

  /** The owner of a node holds what is used, or, when the node is gone, nothing; `log` is the node's history. */
  ghost predicate Informed(w: Option<Node>, log: seq<Event>) {
    match w
    case Some(w) => w.hasStrong == StrongUse(w) && w.hasWeak == WeakUse(w) && Replay(log) == Some(ViewOf(w))
    case None => Replay(log) == Some(View(false, false, false, false))
  }

  lemma InformedIs(s: State, n: NodeId, bufs: seq<Buf>, log: map<NodeId, seq<Event>>)
    requires Held(s, bufs, log, multiset{}) && n in s.nodes && s.nodes[n].queued && Due(s.nodes[n]) == Nothing
    ensures n in log && Informed(At(Drained(s, n).nodes, n), log[n])
  {
    CoherentIs(s, n, AllPins(bufs) + multiset{});
    hide Inv, Replay;
    DrainedNothing(s, n);
    NothingDue(s.nodes[n]);
    hide Drained, Due;
  }

  /** While others hold a strong reference to a node, its owner was told to keep it, or its work item is queued. */
  lemma OwnerKnows(s: State, bufs: seq<Buf>, log: map<NodeId, seq<Event>>, extra: multiset<Pin>, lost: set<NodeId>, r: RefId)
    requires Held(s, bufs, log, extra) && Prompted(s.nodes, lost) && r in s.refs && s.refs[r].strong > 0
    ensures var n := s.refs[r].node;
            n in s.nodes && (s.nodes[n].proc.Some? && n !in lost ==>
                               n in log && Replay(log[n]).Some? && (Replay(log[n]).value.strong || s.nodes[n].queued))
  {
    RefHere(s, r, AllPins(bufs) + extra);
    hide Inv, Replay, NodeSound;
  }

  /** An owner that keeps a node nothing uses any more will be told to let it go. */
  lemma OwnerFreed(s: State, bufs: seq<Buf>, log: map<NodeId, seq<Event>>, extra: multiset<Pin>, lost: set<NodeId>, n: NodeId)
    requires Held(s, bufs, log, extra) && Prompted(s.nodes, lost) && n in s.nodes && s.nodes[n].proc.Some? && n !in lost
    ensures n in log && Replay(log[n]).Some?
    ensures var v := Replay(log[n]).value;
            (v.strong && !StrongUse(s.nodes[n])) || (v.weak && !WeakUse(s.nodes[n])) ==> s.nodes[n].queued
  {
    hide Inv, Replay, StrongUse, WeakUse;
  }

  /** The owner of a node gets it under its own address, with its own cookie. */
  lemma OwnerGets(s: State, p: Pid, q: Pid, o: Obj, pins: multiset<Pin>)
    requires Inv(s, pins) && o.Handle? && DescKey(p, o.desc) in s.refAt
    ensures s.refAt[DescKey(p, o.desc)] in s.refs
    ensures var m := s.refs[s.refAt[DescKey(p, o.desc)]].node;
            m in s.nodes && (s.nodes[m].proc == Some(q) ==>
              CookieGot(WithNode(s, m, Incremented(s, m, o.strong, false, false)), q, Binder(s.nodes[m].ptr, s.nodes[m].cookie, o.strong)))
  {
    hide Sound;
    DescHere(s, p, o.desc, pins);
    RefHere(s, s.refAt[DescKey(p, o.desc)], pins);
    IncrementedCookie(s, s.refs[s.refAt[DescKey(p, o.desc)]].node, o.strong);
    hide ListOk, LocalOk, FlagsOk, Incremented;
  }

  lemma OrphansPrompt(s: State, p: Pid, lost: set<NodeId>)
    requires Prompted(s.nodes, lost)
    ensures Prompted(Orphaned(s, p).nodes, lost)
  {
    OrphanedPrompt(s, p);
    hide Orphaned, Prompt;
    StillPrompted(s.nodes, Orphaned(s, p).nodes, lost);
  }

  lemma RefOnList(s: State, r: RefId, pins: multiset<Pin>)
    requires Inv(s, pins) && r in s.refs && s.refs[r].node in s.nodes
    ensures r in s.nodes[s.refs[r].node].refs
  {
    hide Sound;
    RefHere(s, r, pins);
  }

  lemma ObjectPrompt(s: State, p: Pid, q: Pid, o: Obj, memory: Memory, n: NodeId, r: RefId, pins: multiset<Pin>, lost: set<NodeId>)
    requires Inv(s, pins) && p in s.descs && q in s.descs && n !in s.nodes && r !in s.refs && Prompted(s.nodes, lost)
    ensures Prompted(AfterStarved(s, p, o, memory, n).nodes, lost) && Prompted(Translated(s, p, q, o, n, r).0.nodes, lost)
  {
    hide Inv, Prompted, AfterStarved, Translated;
    StarvedPrompt(s, p, o, memory, n);
    StillPrompted(s.nodes, AfterStarved(s, p, o, memory, n).nodes, lost);
    TranslatedPrompt(s, p, q, o, n, r, pins);
    StillPrompted(s.nodes, Translated(s, p, q, o, n, r).0.nodes, lost);
  }

  lemma TargetPrompt(s: State, target: Option<NodeId>, pins: multiset<Pin>, lost: set<NodeId>)
    requires Inv(s, pins) && Prompted(s.nodes, lost) && (target.Some? ==> target.value in s.nodes)
    ensures target.Some? ==> Prompted(WithNode(s, target.value, Incremented(s, target.value, true, false, false)).nodes, lost)
  {
    hide Sound, Prompted, Incremented;
    if target.Some? {
      IncKept(s, target.value, true, false, false, pins);
      StillPrompted(s.nodes, WithNode(s, target.value, Incremented(s, target.value, true, false, false)).nodes, lost);
    }
  }

  lemma RefCountedPrompt(s: State, r: RefId, strong: bool, pins: multiset<Pin>, lost: set<NodeId>)
    requires Inv(s, pins) && r in s.refs && s.refs[r].node in s.nodes && Prompted(s.nodes, lost)
    ensures Prompted(IncRef(s, r, strong, false).nodes, lost) && Prompted(DecRef(s, r, strong).nodes, lost)
  {
    hide Sound, Prompted, Incremented, DecRef, Refused;
    KeptAll(s.nodes);
    IncKept(s, s.refs[r].node, strong, true, false, pins);
    StillPrompted(s.nodes, IncRef(s, r, strong, false).nodes, lost);
    DecRefKept(s, r, strong);
    StillPrompted(s.nodes, DecRef(s, r, strong).nodes, lost);
  }

  /** What pinning the target amounts to. */
  lemma SendingStart(s: State, bufs: seq<Buf>, log: map<NodeId, seq<Event>>, p: Pid, q: Pid, target: Option<NodeId>,
                     targetPtr: Ptr, objs: seq<Option<Obj>>)
    requires Held(s, bufs, log, multiset{}) && p in s.descs && q in s.descs
    requires target.Some? ==> target.value in s.nodes && s.nodes[target.value].proc == Some(q) && s.nodes[target.value].ptr == targetPtr
    ensures Inv(s, AllPins(bufs) + multiset{})
    ensures var b := Buf(q, target, targetPtr, []);
            var s' := if target.Some? then WithNode(s, target.value, Incremented(s, target.value, true, false, false)) else s;
            && Held(s', bufs, log, BufPins(b)) && TargetOk(s', b) && Grown(s, s', BufPins(b), None) && SameWork(s, s')
  {
    hide Held, Grown, Inv, Incremented, SameWork;
    SameWorkTarget(s, target);
    HeldInv(s, bufs, log, multiset{});
    if target.Some? {
      TargetPlace(s, target.value, AllPins(bufs) + multiset{});
      TargetStep(s, target.value, bufs, log, multiset{});
      assert multiset{} + multiset{PinOn(s, target.value, true)} == BufPins(Buf(q, target, targetPtr, []));
      assert multiset{PinOn(s, target.value, true)} == BufPins(Buf(q, target, targetPtr, []));
    } else {
      GrownStart(s);
      assert BufPins(Buf(q, target, targetPtr, [])) == multiset{};
    }
  }

  lemma StartPins(q: Pid, target: Option<NodeId>, targetPtr: Ptr)
    ensures forall k: Pin :: k in BufPins(Buf(q, target, targetPtr, [])) ==> k.NodePin?
  {
  }

  lemma SameWorkTarget(s: State, target: Option<NodeId>)
    requires target.Some? ==> target.value in s.nodes
    ensures SameWork(s, if target.Some? then WithNode(s, target.value, Incremented(s, target.value, true, false, false)) else s)
  {
  }

  /** A new node is nobody's yet. */
  lemma NewUnheld(s: State, p: Pid, q: Pid, ptr: Ptr, cookie: nat, n: NodeId, pins: multiset<Pin>)
    requires Sound(s, pins) && n !in s.nodes
    ensures ForKey(q, n) !in NewNode(s, p, ptr, cookie, n).refFor
  {
    NoRefTo(s, q, n, pins);
  }

  /** Where the record runs out, the buffer stays as it is. */
  lemma StarvedStep(s0: State, s: State, p: Pid, q: Pid, o: Obj, memory: Memory, n: NodeId, bufs: seq<Buf>, log: map<NodeId, seq<Event>>,
                    b: Buf, objs: seq<Option<Obj>>, out: seq<Obj>, more: multiset<Pin>, pins0: multiset<Pin>)
    requires Held(s, bufs, log, BufPins(b)) && TargetOk(s, b) && p in s.descs && n !in s.nodes && b.proc == q
    requires Pending(s0, s, p, q, objs, out, more, BufPins(b), pins0, AllPins(bufs) + BufPins(b))
    ensures var s1 := AfterStarved(s, p, o, memory, n);
            && Held(s1, bufs, LogWith(log, s, s1, n), BufPins(b)) && TargetOk(s1, b) && s1.descs == s.descs
            && LeftOver(s, s1, Strays(s, p, o, memory)) && Grown(s0, s1, more, None)
  {
    hide Held, Inv, Tally, Grown, SameNames, Square, KeysFrom, Sound, TargetOk, Stranded, BufPins, AllPins, LeftOver;
    var s1 := AfterStarved(s, p, o, memory, n);
    var extra := BufPins(b);
    var pins := AllPins(bufs) + extra;
    StarvedLeft(s, p, o, memory, n);
    HeldInv(s, bufs, log, extra);
    if Strays(s, p, o, memory) {
      StrandedKeeps(s, p, o.ptr, o.cookie, n, pins);
      SquareLeast(s0, s, extra, more);
      TallyParts(s0, s, p, q, objs, out, more);
      StrandedGrown(s0, s, more, p, o.ptr, o.cookie, n, pins);
      StrandedHeld(s, p, o.ptr, o.cookie, n, bufs, log, extra);
      TargetPins(b);
      TargetStays(s, s1, b, extra, bufs, LogWith(log, s, s1, n));
    } else {
      SameLog(log, s, n);
    }
  }

  lemma SameLog(log: map<NodeId, seq<Event>>, s: State, n: NodeId)
    ensures LogWith(log, s, s, n) == log
  {
  }

  lemma TargetPins(b: Buf)
    ensures b.target.Some? ==> NodePin(b.proc, b.targetPtr, true) in BufPins(b)
  {
  }

  lemma TargetPinned(b: Buf, o: Obj)
    ensures b.target.Some? ==> NodePin(b.proc, b.targetPtr, true) in BufPins(b) + multiset{PinFor(b.proc, o)}
  {
  }

  lemma StrandedHeld(s: State, p: Pid, ptr: Ptr, cookie: nat, n: NodeId, bufs: seq<Buf>, log: map<NodeId, seq<Event>>, extra: multiset<Pin>)
    requires Held(s, bufs, log, extra) && n !in s.nodes && NodeKey(p, ptr) !in s.nodeAt
    requires Inv(Stranded(s, p, ptr, cookie, n), AllPins(bufs) + extra)
    ensures var s1 := Stranded(s, p, ptr, cookie, n); Held(s1, bufs, LogWith(log, s, s1, n), extra) && KeysKept(s, s1) && s1.descs == s.descs
  {
    var s1 := Stranded(s, p, ptr, cookie, n);
    hide Inv, TargetsOk, LogsOk, Grew, KeysKept, Stranded, AllPins, LogWith;
    StrandedGrew(s, p, ptr, cookie, n);
    GrewKeys(s, s1);
    GrewLogs(s, s1, log, n);
    HeldStep(s, s1, bufs, log, LogWith(log, s, s1, n), extra, extra);
  }

  lemma StrandedGrew(s: State, p: Pid, ptr: Ptr, cookie: nat, n: NodeId)
    requires n !in s.nodes && NodeKey(p, ptr) !in s.nodeAt
    ensures var s1 := Stranded(s, p, ptr, cookie, n); Grew(s, s1) && s1.nodes.Keys <= s.nodes.Keys + {n} && s1.descs == s.descs
  {
  }

  lemma GrewKeys(s: State, s': State)
    requires Grew(s, s')
    ensures KeysKept(s, s')
  {
  }

  /** An object the driver refuses to translate changes nothing. */
  lemma RefusedStep(s0: State, s: State, p: Pid, q: Pid, o: Obj, memory: Memory, n: NodeId, r: RefId, bufs: seq<Buf>,
                    log: map<NodeId, seq<Event>>, b: Buf, objs: seq<Option<Obj>>, out: seq<Obj>, more: multiset<Pin>, pins0: multiset<Pin>)
    requires Pending(s0, s, p, q, objs, out, more, BufPins(b), pins0, AllPins(bufs) + BufPins(b)) && q in s.descs
    requires !Starved(s, p, q, o, memory) && Translated(s, p, q, o, n, r).1.None? && Translated(s, p, q, o, n, r).0 == s
    ensures !Strays(s, p, o, memory) && LeftOver(s, s, false) && Grown(s0, s, more, None) && LogWith(log, s, s, n) == log
  {
    hide Inv, Tally, Grown, SameNames, Square, KeysFrom, Sound, Translated;
  }

  lemma NoneFails(s0: State, p: Pid, q: Pid, objs: seq<Option<Obj>>, memory: seq<Memory>, k: nat)
    requires k < |objs| == |memory| && objs[k].None? && p in s0.descs && q in s0.descs
    ensures FailsAt(s0, p, q, objs, memory, k)
  {
  }

  lemma ForeseenDescs(s0: State, s: State, p: Pid, q: Pid, objs: seq<Option<Obj>>)
    requires Foreseen(s0, s, p, q, objs, |objs|)
    ensures DescsAs(s0, s, p, q, objs, |objs|)
  {
    hide DescsAs, CookiesOk;
  }

  lemma NothingStrays(s0: State, p: Pid, objs: seq<Option<Obj>>, k: nat, memory: seq<Memory>)
    requires k < |objs| && objs[k].None?
    ensures !StraysAt(s0, p, objs, k, memory)
  {
  }

  lemma StraysIs(s0: State, t: State, p: Pid, q: Pid, objs: seq<Option<Obj>>, out: seq<Obj>, memory: seq<Memory>, more: multiset<Pin>,
                 extra: multiset<Pin>, pins0: multiset<Pin>, pins: multiset<Pin>)
    requires Pending(s0, t, p, q, objs, out, more, extra, pins0, pins) && |out| < |objs| && objs[|out|].Some? && |memory| == |objs|
    ensures Strays(t, p, objs[|out|].value, memory[|out|]) <==> StraysAt(s0, p, objs, |out|, memory)
  {
    hide Inv, Grown, SameNames, Square, KeysFrom, Sound, Tally, SentBinder;
    TallyParts(s0, t, p, q, objs, out, more);
    hide NamesKept;
    if objs[|out|].value.Binder? {
      KeyIs(s0, t, p, q, objs, out, objs[|out|].value.ptr);
    }
  }

  lemma SquareSame(s0: State, t: State, s: State, extra: multiset<Pin>, more: multiset<Pin>)
    requires Square(s0, t, extra, more) && s.refs == t.refs
    ensures Square(s0, s, extra, more)
  {
    forall r | r in s.refs ensures SquareAt(s0, s, extra, more, r, true) && SquareAt(s0, s, extra, more, r, false) {
      assert SquareAt(s0, t, extra, more, r, true) && SquareAt(s0, t, extra, more, r, false);
    }
  }

  lemma AfterTaking(a: Attempt, t: State, s: State, p: Pid, q: Pid, objs: seq<Option<Obj>>, out: seq<Obj>, extra: multiset<Pin>,
                    stray: bool, pins: multiset<Pin>)
    requires TakingBack(a, s, multiset{}, multiset{}) && Inv(s, pins) && LeftOver(t, a.failed, stray)
    requires Pending(a.before, t, p, q, objs, out, a.counted, extra, a.pinsBefore, a.pinsFailed)
    ensures |out| <= |objs| && (Restored(a.before, s) <==> Undone(a.before, p, q, objs, |out|) && !stray)
    ensures Grown(a.before, s, multiset{}, None)
  {
    hide Inv, Tally, Grown, SameNames, Square, KeysFrom, Sound, Kept, LeftOver, Restored, Undone;
    RestoredIs(a.before, t, a.failed, s, p, q, objs, out, a.counted, stray, a.pinsBefore, a.pinsFailed, pins);
  }

  lemma TargetPlace(s: State, n: NodeId, pins: multiset<Pin>)
    requires Inv(s, pins) && n in s.nodes
    ensures NodeOk(s, n)
  {
    assert NodeSound(s, n, pins);
  }

  lemma HeldInv(s: State, bufs: seq<Buf>, log: map<NodeId, seq<Event>>, extra: multiset<Pin>)
    requires Held(s, bufs, log, extra)
    ensures Inv(s, AllPins(bufs) + extra)
  {
  }

  lemma BufPinsMore(b: Buf, o: Obj)
    ensures BufPins(b.(objs := b.objs + [o])) == BufPins(b) + multiset{PinFor(b.proc, o)}
  {
    PinsMore(b.proc, b.objs, o);
  }

  lemma TargetSame(s: State, b: Buf, objs: seq<Obj>)
    requires TargetOk(s, b)
    ensures TargetOk(s, b.(objs := objs))
  {
  }

  lemma TranslatedKeys(s: State, p: Pid, q: Pid, o: Obj, n: NodeId, r: RefId, pins: multiset<Pin>)
    requires Inv(s, pins) && p in s.descs && q in s.descs && n !in s.nodes && r !in s.refs
    ensures KeysKept(s, Translated(s, p, q, o, n, r).0)
  {
    TranslatedGrew(s, p, q, o, n, r, pins);
    hide Inv, Translated;
  }

  /** The target node is where the buffer says. */
  lemma ReleasedTarget(s: State, q: Pid, o: Obj)
    requires o.Binder? && NodeKey(q, o.ptr) in s.nodeAt && s.nodeAt[NodeKey(q, o.ptr)] in s.nodes
    ensures Released(s, q, o) == DecNode(s, s.nodeAt[NodeKey(q, o.ptr)], o.strong, false)
  {
  }

  /** The record a new reference would get does not matter when there is one already. */
  lemma LinkedSame(s: State, q: Pid, m: NodeId, a: RefId, r: RefId)
    requires m in s.nodes && q in s.descs
    requires a == r || ForKey(q, m) in s.refFor
    ensures Linked(s, q, m, a) == Linked(s, q, m, r) && RefTo(s, q, m, a) == RefTo(s, q, m, r)
  {
  }

  lemma NewNodeParts(s: State, p: Pid, ptr: Ptr, cookie: nat, n: NodeId)
    ensures var s' := NewNode(s, p, ptr, cookie, n);
            s'.refs == s.refs && s'.descs == s.descs && NodeKey(p, ptr) in s'.nodeAt && s'.nodeAt[NodeKey(p, ptr)] == n
  {
  }

  lemma LinkedIsAny(s: State, q: Pid, n: NodeId, pins: multiset<Pin>)
    requires Sound(s, pins)
    ensures ForKey(q, n) in s.refFor ==>
              s.refFor[ForKey(q, n)] in s.refs && s.refs[s.refFor[ForKey(q, n)]].proc == q && s.refs[s.refFor[ForKey(q, n)]].node == n
  {
    if ForKey(q, n) in s.refFor {
      assert ForKeyOk(s, ForKey(q, n));
    }
  }

  lemma DescsHere(s: State, q: Pid, pins: multiset<Pin>)
    requires Sound(s, pins) && q in s.descs
    ensures Sorted(s.descs[q])
  {
    assert DescsOk(s, q);
  }

  /** A refused increment changes nothing. */
  lemma RefusedSame(s: State, n: NodeId, strong: bool, list: bool)
    requires n in s.nodes && Refused(s, n, strong, true, list)
    ensures WithNode(s, n, Incremented(s, n, strong, true, list)) == s
  {
    assert s.nodes[n := s.nodes[n]] == s.nodes;
  }

  lemma LostStrongIs(s: State, n: NodeId)
    requires n in s.nodes && s.nodes[n].refs != {}
    ensures DecNode(s, n, true, true) == WithNode(s, n, LostStrong(s.nodes[n]))
  {
  }

  /** `binder_delete_ref` up to its last decrement. */
  lemma DeletedSoFar(s: State, r: RefId, s': State)
    requires r in s.refs && s.refs[r].node in s.nodes && s.refs[r].proc in s.descs
    requires var ref := s.refs[r];
             var w := if ref.strong > 0 then LostStrong(s.nodes[ref.node]) else s.nodes[ref.node];
             s' == s.(refAt := s.refAt - {DescKey(ref.proc, ref.desc)}, refFor := s.refFor - {ForKey(ref.proc, ref.node)},
                      descs := s.descs[ref.proc := Removed(s.descs[ref.proc], ref.desc)], refs := s.refs - {r},
                      nodes := s.nodes[ref.node := w.(refs := w.refs - {r})])
    ensures s' == Unref(Weakened(s, r), r)
  {
    hide LostStrong, Removed;
  }

  // ---- commands and notifications ----

  lemma ManagerHere(s: State, p: Pid, pins: multiset<Pin>)
    requires Inv(s, pins) && s.manager.Some?
    ensures s.manager.value in s.nodes && s.nodes[s.manager.value].hasWeak && Sound(s, pins)
  {
  }

  lemma PinMoves(s: State, p: Pid, n: NodeId, r: RefId, strong: bool, pins: multiset<Pin>)
    requires Inv(s, pins) && n in s.nodes && p in s.descs && r !in s.refs
    ensures var s' := WithPin(s, p, n, r, strong, false);
            ForKey(p, n) in s'.refFor && Moved(s, s', s'.refFor[ForKey(p, n)], n, strong, true)
  {
    hide Sound, Linked, RefTo, IncRef;
    LinkedIs(s, p, n, r, pins);
    LinkedNode(s, p, n, r, pins);
    LinkedNodes(s, p, n, r, pins);
    LinkedFor(s, p, n, r);
    var s1, r1 := Linked(s, p, n, r), RefTo(s, p, n, r);
    LinkedBase(s, p, n, r, pins, strong);
    LinkedBase(s, p, n, r, pins, !strong);
    SameRefusal(s, s1, n, strong);
    hide Refused;
    IncMoves(s1, r1, strong);
  }

  lemma LinkedBase(s: State, p: Pid, n: NodeId, r: RefId, pins: multiset<Pin>, strong: bool)
    requires Sound(s, pins) && n in s.nodes && p in s.descs && r !in s.refs
    ensures Base(Linked(s, p, n, r), RefTo(s, p, n, r), strong) == Base(s, RefTo(s, p, n, r), strong)
  {
    hide Sound, Linked, RefTo;
    LinkedIs(s, p, n, r, pins);
  }

  lemma SameRefusal(s: State, s1: State, n: NodeId, strong: bool)
    requires n in s.nodes && n in s1.nodes && s1.manager == s.manager && s1.nodes[n] == s.nodes[n].(refs := s1.nodes[n].refs)
    ensures Refused(s1, n, strong, true, false) == Refused(s, n, strong, true, false)
  {
  }

  lemma LinkedFor(s: State, p: Pid, n: NodeId, r: RefId)
    requires n in s.nodes && p in s.descs
    ensures ForKey(p, n) in Linked(s, p, n, r).refFor && Linked(s, p, n, r).refFor[ForKey(p, n)] == RefTo(s, p, n, r)
  {
    hide Inserted, FirstFree;
  }

  lemma IncMoves(s: State, r: RefId, strong: bool)
    requires r in s.refs && s.refs[r].node in s.nodes
    ensures IncRef(s, r, strong, false).refFor == s.refFor
    ensures Moved(s, IncRef(s, r, strong, false), r, s.refs[r].node, strong, true)
  {
    hide Incremented, Refused;
  }

  lemma RefMoves(s: State, r: RefId, strong: bool, pins: multiset<Pin>)
    requires Inv(s, pins) && r in s.refs && s.refs[r].node in s.nodes
    ensures Moved(s, IncRef(s, r, strong, false), r, s.refs[r].node, strong, true)
    ensures Moved(s, DecRef(s, r, strong), r, s.refs[r].node, strong, false)
  {
    hide Inv, Incremented, Refused, DecNode, LostStrong, Removed, DecRef;
    LoweredRefs(s, r, strong);
  }

  lemma LoweredRefs(s: State, r: RefId, strong: bool)
    requires r in s.refs && s.refs[r].node in s.nodes
    ensures var ref := s.refs[r];
            if Base(s, r, strong) == 0 then DecRef(s, r, strong) == s
            else if ref.strong + ref.weak == 1 then DecRef(s, r, strong).refs == s.refs - {r}
            else DecRef(s, r, strong).refs == s.refs[r := if strong then ref.(strong := ref.strong - 1) else ref.(weak := ref.weak - 1)]
  {
    hide DeleteRef, LostStrong;
    if Base(s, r, strong) > 0 {
      DeletedRefs(LoweredRef(s, r, strong), r);
      DecRefIs(s, r, strong);
    }
  }

  lemma DeletedRefs(s: State, r: RefId)
    requires r in s.refs && s.refs[r].node in s.nodes
    ensures DeleteRef(s, r).refs == s.refs - {r}
  {
    DecRefsSame(Unref(Weakened(s, r), r), s.refs[r].node);
    hide DecNode, LostStrong;
  }

  lemma DecRefsSame(s: State, n: NodeId)
    requires n in s.nodes
    ensures DecNode(s, n, false, true).refs == s.refs
  {
  }

  lemma PinCounted(s: State, p: Pid, n: NodeId, r: RefId, strong: bool, bufs: seq<Buf>, log: map<NodeId, seq<Event>>)
    requires Held(s, bufs, log, multiset{}) && n in s.nodes && p in s.descs && r !in s.refs
    ensures Held(WithPin(s, p, n, r, strong, false), bufs, log, multiset{})
  {
    var pins := AllPins(bufs) + multiset{};
    var s' := WithPin(s, p, n, r, strong, false);
    PinKept(s, p, n, r, strong, pins);
    hide Inv, WithPin, LogsOk, TargetsOk;
    GrewUntold(s, s');
    UntoldLogs(s.nodes, s'.nodes, log);
    HeldStep(s, s', bufs, log, log, multiset{}, multiset{});
  }

  lemma PinKept(s: State, p: Pid, n: NodeId, r: RefId, strong: bool, pins: multiset<Pin>)
    requires Inv(s, pins) && n in s.nodes && p in s.descs && r !in s.refs
    ensures Inv(WithPin(s, p, n, r, strong, false), pins)
    ensures Grew(s, WithPin(s, p, n, r, strong, false)) && WithPin(s, p, n, r, strong, false).nodes.Keys == s.nodes.Keys
  {
    hide Sound, Grew;
    LinkedIs(s, p, n, r, pins);
    LinkedKeeps(s, p, n, r, pins);
    PinGrew(s, p, n, r, strong, false, pins);
    WithPinNodes(s, p, n, r, strong, false, pins);
    hide Linked, RefTo, IncRef;
    IncRefKeeps(Linked(s, p, n, r), RefTo(s, p, n, r), strong, false, pins);
  }

  lemma GrewUntold(s: State, s': State)
    requires Grew(s, s') && s'.nodes.Keys == s.nodes.Keys
    ensures Untold(s.nodes, s'.nodes)
  {
  }

  lemma RefCounted(s: State, r: RefId, strong: bool, bufs: seq<Buf>, log: map<NodeId, seq<Event>>)
    requires Held(s, bufs, log, multiset{}) && r in s.refs && s.refs[r].node in s.nodes
    ensures Held(IncRef(s, r, strong, false), bufs, log, multiset{})
    ensures Held(DecRef(s, r, strong), bufs, log, multiset{})
  {
    hide Inv, IncRef, DecRef, LogsOk, TargetsOk, Untold, KeysKept;
    var pins := AllPins(bufs) + multiset{};
    RefCountedKeeps(s, r, strong, pins);
    UntoldLogs(s.nodes, IncRef(s, r, strong, false).nodes, log);
    HeldStep(s, IncRef(s, r, strong, false), bufs, log, log, multiset{}, multiset{});
    UntoldLogs(s.nodes, DecRef(s, r, strong).nodes, log);
    HeldStep(s, DecRef(s, r, strong), bufs, log, log, multiset{}, multiset{});
  }

  lemma RefCountedKeeps(s: State, r: RefId, strong: bool, pins: multiset<Pin>)
    requires Inv(s, pins) && r in s.refs && s.refs[r].node in s.nodes
    ensures Inv(IncRef(s, r, strong, false), pins) && Inv(DecRef(s, r, strong), pins)
    ensures KeysKept(s, IncRef(s, r, strong, false)) && KeysKept(s, DecRef(s, r, strong))
    ensures Untold(s.nodes, IncRef(s, r, strong, false).nodes) && Untold(s.nodes, DecRef(s, r, strong).nodes)
  {
    hide Inv, IncRef, DecRef;
    IncRefKeeps(s, r, strong, false, pins);
    DecRefKeeps(s, r, strong, pins);
    IncRefAt(s, r, strong, false);
    DecRefKeys(s, r, strong);
    IncRefUntold(s, r, strong, false);
    DecRefUntold(s, r, strong);
  }

  lemma NodeFound(s: State, p: Pid, ptr: Ptr, bufs: seq<Buf>, log: map<NodeId, seq<Event>>)
    requires Held(s, bufs, log, multiset{}) && NodeKey(p, ptr) in s.nodeAt
    ensures s.nodeAt[NodeKey(p, ptr)] in s.nodes && s.nodes[s.nodeAt[NodeKey(p, ptr)]].proc == Some(p)
  {
    KeyHere(s, p, ptr, AllPins(bufs) + multiset{});
  }

  /** The owner owes the answer. */
  predicate AnswerDue(v: View, strong: bool) {
    if strong then v.strongDue else v.weakDue
  }

  lemma ViewHere(s: State, n: NodeId, bufs: seq<Buf>, log: map<NodeId, seq<Event>>)
    requires Held(s, bufs, log, multiset{}) && n in s.nodes
    ensures n in log && Replay(log[n]) == Some(ViewOf(s.nodes[n]))
  {
    hide Replay;
  }

  /** The history of node `n` once its owner answered. */
  function Answer(log: map<NodeId, seq<Event>>, s: State, n: NodeId, strong: bool): map<NodeId, seq<Event>> {
    if n in log then log[n := log[n] + [Answered(strong)]] else log
  }

  lemma AckStep(s: State, n: NodeId, strong: bool, bufs: seq<Buf>, log: map<NodeId, seq<Event>>)
    requires Held(s, bufs, log, multiset{}) && n in s.nodes && s.nodes[n].proc.Some?
    requires if strong then s.nodes[n].pendingStrong else s.nodes[n].pendingWeak
    ensures Held(Acknowledged(s, n, strong), bufs, Answer(log, s, n, strong), multiset{})
  {
    var pins := AllPins(bufs) + multiset{};
    AckKeeps(s, n, strong, pins);
    var w := if strong then s.nodes[n].(pendingStrong := false) else s.nodes[n].(pendingWeak := false);
    var s1 := WithNode(s, n, w);
    AnswerLogs(s, n, strong, log, w);
    DecUntold(s1, n, strong, false);
    DecKeys(s1, n, strong, false);
    hide Inv, LogsOk, TargetsOk, DecNode;
    UntoldLogs(s1.nodes, Acknowledged(s, n, strong).nodes, Answer(log, s, n, strong));
    HeldStep(s, Acknowledged(s, n, strong), bufs, log, Answer(log, s, n, strong), multiset{}, multiset{});
  }

  lemma AnswerLogs(s: State, n: NodeId, strong: bool, log: map<NodeId, seq<Event>>, w: Node)
    requires LogsOk(s.nodes, log) && n in s.nodes
    requires if strong then s.nodes[n].pendingStrong else s.nodes[n].pendingWeak
    requires w == if strong then s.nodes[n].(pendingStrong := false) else s.nodes[n].(pendingWeak := false)
    ensures LogsOk(WithNode(s, n, w).nodes, Answer(log, s, n, strong))
  {
    ReplayMore(log[n], Answered(strong));
    hide Replay;
  }

  function Sendings(out: seq<Message>): seq<Event> {
    seq(|out|, i requires 0 <= i < |out| => Sent(out[i]))
  }

  lemma SendingsMore(out: seq<Message>, cmd: Message)
    ensures Sendings(out + [cmd]) == Sendings(out) + [Sent(cmd)]
  {
  }

  lemma LogHere(s: State, n: NodeId, bufs: seq<Buf>, log: map<NodeId, seq<Event>>)
    requires Held(s, bufs, log, multiset{}) && n in s.nodes
    ensures n in log && log[n] + Sendings([]) == log[n]
  {
  }

  lemma TwoAtMost(s: State, n: NodeId, bufs: seq<Buf>, log: map<NodeId, seq<Event>>)
    requires Held(s, bufs, log, multiset{}) && n in s.nodes && s.nodes[n].queued
    ensures Due(s.nodes[n]) != Nothing && Due(Notified(s.nodes[n])) != Nothing ==> Due(Notified(Notified(s.nodes[n]))) == Nothing
  {
    if Due(s.nodes[n]) != Nothing && Due(Notified(s.nodes[n])) != Nothing {
      AtMostTwo(s, n, AllPins(bufs) + multiset{});
    }
  }

  lemma DrainStep(s: State, n: NodeId, bufs: seq<Buf>, log: map<NodeId, seq<Event>>)
    requires Held(s, bufs, log, multiset{}) && n in s.nodes && s.nodes[n].queued
    ensures n in log && s.nodes[n].proc.Some?
    ensures Due(s.nodes[n]) != Nothing ==>
              Drained(s, n) == WithNode(s, n, Notified(s.nodes[n])) && Notified(s.nodes[n]).queued
    ensures var cmd := Due(s.nodes[n]);
            Held(Drained(s, n), bufs, if cmd == Nothing then log else log[n := log[n] + [Sent(cmd)]], multiset{})
  {
    hide Inv, LogsOk, TargetsOk, KeysKept;
    var pins := AllPins(bufs) + multiset{};
    var cmd := Due(s.nodes[n]);
    DrainKeeps(s, n, pins);
    DrainLogs(s, n, pins, log);
    NotifiedQueued(s.nodes[n]);
    hide Due, Notified;
    HeldStep(s, Drained(s, n), bufs, log, if cmd == Nothing then log else log[n := log[n] + [Sent(cmd)]], multiset{}, multiset{});
  }

  lemma NotifiedQueued(w: Node)
    ensures Due(w) != Nothing ==> Notified(w).queued == w.queued
  {
  }

  lemma DrainLogs(s: State, n: NodeId, pins: multiset<Pin>, log: map<NodeId, seq<Event>>)
    requires Inv(s, pins) && LogsOk(s.nodes, log) && n in s.nodes && s.nodes[n].queued
    ensures n in log && s.nodes[n].proc.Some? && KeysKept(s, Drained(s, n))
    ensures var cmd := Due(s.nodes[n]);
            LogsOk(Drained(s, n).nodes, if cmd == Nothing then log else log[n := log[n] + [Sent(cmd)]])
  {
    hide LogsOk, Inv, Drained;
    DrainPlace(s, n, pins);
    DrainedKeys(s, n);
    if Due(s.nodes[n]) != Nothing {
      MessageInOrder(s, n, pins);
      SentLogs(s, n, log);
    } else {
      DrainedNothing(s, n);
      NothingLogs(s, n, log);
    }
  }

  lemma DrainPlace(s: State, n: NodeId, pins: multiset<Pin>)
    requires Inv(s, pins) && n in s.nodes && s.nodes[n].queued
    ensures s.nodes[n].proc.Some?
  {
    assert NodeSound(s, n, pins);
  }

  lemma DrainedKeys(s: State, n: NodeId)
    requires n in s.nodes
    ensures KeysKept(s, Drained(s, n))
  {
  }

  lemma DrainedNothing(s: State, n: NodeId)
    requires n in s.nodes && Due(s.nodes[n]) == Nothing
    ensures Drained(s, n) == if !WeakUse(s.nodes[n]) && !StrongUse(s.nodes[n]) then DropNode(s, n)
                             else WithNode(s, n, s.nodes[n].(queued := false))
  {
  }

  lemma NothingLogs(s: State, n: NodeId, log: map<NodeId, seq<Event>>)
    requires LogsOk(s.nodes, log) && n in s.nodes && Due(s.nodes[n]) == Nothing
    ensures n in log && LogsOk(Drained(s, n).nodes, log)
  {
    OneUntold(s, n, s.nodes[n].(queued := false));
    DropUntold(s, n);
    hide Untold;
    DrainedNothing(s, n);
    UntoldLogs(s.nodes, Drained(s, n).nodes, log);
  }

  lemma SentLogs(s: State, n: NodeId, log: map<NodeId, seq<Event>>)
    requires LogsOk(s.nodes, log) && n in s.nodes && Due(s.nodes[n]) != Nothing
    requires Follow(ViewOf(s.nodes[n]), Sent(Due(s.nodes[n]))) == Some(ViewOf(Notified(s.nodes[n])))
    ensures n in log && LogsOk(Drained(s, n).nodes, log[n := log[n] + [Sent(Due(s.nodes[n]))]])
  {
    hide Due, Notified, Follow;
    ReplayMore(log[n], Sent(Due(s.nodes[n])));
    hide Replay;
  }
}
