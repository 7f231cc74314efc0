/** The effects the driver's steps have on its transactions, each with the proof that it keeps what
    holds between steps. */
module Popping {
  import opened Wrappers
  import opened Chains
  import opened Stacks
  import opened States

  function Unlinked(buffers: map<BufferId, Buffer>, w: Txn): map<BufferId, Buffer> {
    if w.buffer.Some? && w.buffer.value in buffers
    then buffers[w.buffer.value := buffers[w.buffer.value].(transaction := None)] else buffers
  }

  // ---- popping the leaf of an open chain ----

  /** A call is popped from its live caller's stack and unlinked from its buffer. */
  ghost function Pop(s: World, t: TxnId): World
    requires t in s.txns && Leaf(s.graph, t)
  {
    World(WithPopped(s.threads, s.txns[t]), s.txns - {t}, Unlinked(s.buffers, s.txns[t]), s.procs, s.at,
          PopLeaf(s.graph, s.graph.home[t].root))
  }

  lemma PopBuffers(txns: map<TxnId, Txn>, buffers: map<BufferId, Buffer>, t: TxnId)
    requires BuffersOk(txns, buffers) && t in txns
    ensures BuffersOk(txns - {t}, Unlinked(buffers, txns[t]))
  {
    forall u | u in txns - {t} ensures TxnBuffer(txns - {t}, Unlinked(buffers, txns[t]), u) {
      assert TxnBuffer(txns, buffers, u) && TxnBuffer(txns, buffers, t);
    }
    forall b | b in buffers ensures BufferTxn(txns - {t}, Unlinked(buffers, txns[t]), b) {
      assert TxnBuffer(txns, buffers, t) && BufferTxn(txns, buffers, b);
    }
  }

  lemma PopErrors(threads: map<Tid, Thread>, txns: map<TxnId, Txn>, t: TxnId)
    requires ErrorsOk(threads, txns) && t in txns
    requires txns[t].from.Some? ==> !Waits(WithPopped(threads, txns[t]), txns - {t}, txns[t].from.value)
    ensures ErrorsOk(WithPopped(threads, txns[t]), txns - {t})
  {
    var threads' := WithPopped(threads, txns[t]);
    forall x | x in threads' ensures SlotsOk(threads', txns - {t}, x) {
      assert SlotsOk(threads, txns, x);
    }
  }

  lemma PopQueues(s: World, t: TxnId)
    requires QueuesOk(s) && GraphOk(s.graph) && Leaf(s.graph, t) && t in s.txns && t !in s.at
    ensures QueuesOk(Pop(s, t))
  {
    hide GraphOk, Leaf, CallQueued;
    var s' := Pop(s, t);
    forall x | x in s'.threads ensures ThreadList(s'.threads, s'.at, x) {
      assert ThreadList(s.threads, s.at, x);
    }
    forall p | p in s'.procs ensures ProcList(s'.procs, s'.at, p) {
      assert ProcList(s.procs, s.at, p);
    }
    forall u | u in s'.at ensures QueuedOk(s', u) {
      assert QueuedOk(s, u);
      if s.txns[u].kind.Call? {
        PopCallQueued(s.graph, t, s.txns[u], u, s.at[u]);
      }
    }
  }

  /** The leaves of other chains stay leaves, and who may take them up does not change. */
  lemma PopCallQueued(g: Graph, t: TxnId, w: Txn, u: TxnId, where: Where)
    requires GraphOk(g) && Leaf(g, t) && CallQueued(g, w, u, where) && u != t
    ensures CallQueued(PopLeaf(g, g.home[t].root), w, u, where)
  {
    var r, q := g.home[t].root, g.home[u].root;
    assert ChainOk(g, r) && ChainOk(g, q);
    PopLeafApart(g, r, q);
    if where.OnThread? && where.thread in g.seat {
      assert SeatOk(g, where.thread);
      hide GraphOk;
    }
  }

  lemma PopLeafApart(g: Graph, r: TxnId, q: TxnId)
    requires OpenChain(g, r) && ChainOk(g, r) && q != r && q in g.chains && ChainOk(g, q)
    ensures q in PopLeaf(g, r).chains && PopLeaf(g, r).chains[q] == g.chains[q]
    ensures forall x :: x in g.seat && g.seat[x] == q ==> x in PopLeaf(g, r).seat && PopLeaf(g, r).seat[x] == q
    ensures LeafOf(g.chains[q]) in PopLeaf(g, r).home
    ensures forall u :: u in PopLeaf(g, r).home ==> u in g.home && PopLeaf(g, r).home[u] == g.home[u]
  {
    if g.chains[r].actors[0].Some? {
      assert g.chains[r].actors[0] in g.chains[r].actors;
    }
  }

  /** After its call is popped, the caller is left with a call it serves, or with nothing. */
  lemma PoppedServes(txns: map<TxnId, Txn>, g: Graph, r: TxnId)
    requires GraphOk(g) && CallsOk(txns, g) && OpenChain(g, r)
    ensures LeafOf(g.chains[r]) in txns
    ensures var w := txns[LeafOf(g.chains[r])];
            w.from.Some? && w.fromParent.Some? ==> w.fromParent.value in txns && txns[w.fromParent.value].from != w.from
  {
    LeafOk(txns, g, r);
    var c := g.chains[r];
    assert ChainOk(g, r);
    if |c.txns| > 1 {
      assert CallOk(txns, g, c.txns[|c.txns| - 2]);
    }
  }

  lemma PopLeafKept(g: Graph, t: TxnId, u: TxnId)
    requires GraphOk(g) && Leaf(g, t) && Leaf(g, u) && u != t
    ensures Leaf(PopLeaf(g, g.home[t].root), u)
  {
    assert ChainOk(g, g.home[t].root) && ChainOk(g, g.home[u].root);
    hide GraphOk, ChainOk;
    PopLeafApart(g, g.home[t].root, g.home[u].root);
  }

  lemma PopOtherChain(g: Graph, r: TxnId, q: TxnId)
    requires GraphOk(g) && OpenChain(g, r) && q in PopLeaf(g, r).chains && q != r
    ensures q in g.chains && PopLeaf(g, r).chains[q] == g.chains[q]
  {
  }

  /** The chain a leaf is popped from: its new leaf was no leaf before. */
  lemma PopOwnChain(g: Graph, t: TxnId)
    requires GraphOk(g) && Leaf(g, t)
    ensures var r := g.home[t].root; var g' := PopLeaf(g, r);
            r in g'.chains ==>
              && Shaped(g'.chains[r])
              && !Leaf(g, LeafOf(g'.chains[r]))
              && (Opened(g'.chains[r]) ==> Leaf(g', LeafOf(g'.chains[r])))
  {
    var r := g.home[t].root;
    var g' := PopLeaf(g, r);
    assert ChainOk(g, r);
    PopLeafOk(g, r);
    if r in g'.chains {
      assert ChainOk(g', r);
      hide GraphOk, ChainOk;
      LeafHome(g', r);
    }
  }

  lemma PopOpen(g: Graph, at: map<TxnId, Where>, pending: set<TxnId>, t: TxnId)
    requires GraphOk(g) && OpenOk(g, at, pending) && t in pending && Leaf(g, t)
    requires var r := g.home[t].root;
             OpenChain(PopLeaf(g, r), r) ==> LeafOf(PopLeaf(g, r).chains[r]) !in at
    ensures var r := g.home[t].root; var g' := PopLeaf(g, r);
            OpenOk(g', at, pending - {t} + if OpenChain(g', r) then {LeafOf(g'.chains[r])} else {})
  {
    var r := g.home[t].root;
    var g' := PopLeaf(g, r);
    var left := pending - {t} + if OpenChain(g', r) then {LeafOf(g'.chains[r])} else {};
    PopOwnChain(g, t);
    hide GraphOk, ChainOk, PopLeaf, LeafOf;
    forall q | q in g'.chains && OpenChain(g', q)
      ensures LeafOf(g'.chains[q]) in at || LeafOf(g'.chains[q]) in left
    {
      if q != r {
        PopOtherOpen(g, at, pending, t, q);
      }
    }
    forall u | u in left ensures Leaf(g', u) && u !in at {
      if u in pending && u != t {
        PopLeafKept(g, t, u);
      }
    }
  }

  lemma PopOtherOpen(g: Graph, at: map<TxnId, Where>, pending: set<TxnId>, t: TxnId, q: TxnId)
    requires GraphOk(g) && OpenOk(g, at, pending) && t in pending && Leaf(g, t)
    requires q != g.home[t].root && OpenChain(PopLeaf(g, g.home[t].root), q)
    ensures var u := LeafOf(PopLeaf(g, g.home[t].root).chains[q]); u in at || u in pending - {t}
  {
    var r := g.home[t].root;
    PopOtherChain(g, r, q);
    assert LeafOf(g.chains[q]) in at || LeafOf(g.chains[q]) in pending;
    OneRoot(g, r, q);
  }

  lemma OneRoot(g: Graph, r: TxnId, q: TxnId)
    requires GraphOk(g) && r in g.chains && q in g.chains && r != q
    ensures ChainOk(g, r) && ChainOk(g, q) && LeafOf(g.chains[r]) != LeafOf(g.chains[q])
  {
    assert ChainOk(g, r) && ChainOk(g, q);
    hide GraphOk;
    LeafHome(g, r);
    LeafHome(g, q);
  }

  lemma LeafHome(g: Graph, r: TxnId)
    requires r in g.chains && ChainOk(g, r)
    ensures Shaped(g.chains[r]) && LeafOf(g.chains[r]) in g.home && g.home[LeafOf(g.chains[r])].root == r
  {
    var i := |g.chains[r].txns| - 1;
    assert g.chains[r].txns[i] in g.home;
  }

  /** The call above `t` on its chain, once `t` is popped and its caller's seat is empty. */
  ghost function Above(s: World, t: TxnId): (next: Option<TxnId>)
    requires t in s.txns && Leaf(s.graph, t)
    ensures next.Some? ==> next.value in s.txns && next.value != t && Leaf(Pop(s, t).graph, next.value)
    ensures next.Some? ==> Pop(s, t).graph.home[next.value].root == s.graph.home[t].root
  {
    var r := s.graph.home[t].root;
    var g := Pop(s, t).graph;
    if OpenChain(g, r) && LeafOf(g.chains[r]) in s.txns && LeafOf(g.chains[r]) != t && Leaf(g, LeafOf(g.chains[r]))
       && g.home[LeafOf(g.chains[r])].root == r
    then Some(LeafOf(g.chains[r])) else None
  }

  lemma PopNext(s: World, pending: set<TxnId>, t: TxnId)
    requires Good(s, pending) && t in pending
    ensures t in s.txns && Leaf(s.graph, t) && s.txns[t].kind.Call?
    ensures Above(s, t) == if s.txns[t].from.None? then s.txns[t].fromParent else None
    ensures Above(s, t).Some? ==> Above(s, t).value !in s.at
    ensures var g := Pop(s, t).graph;
            OpenOk(g, s.at, pending - {t} + if Above(s, t).Some? then {Above(s, t).value} else {})
  {
    hide StacksOk, BuffersOk, ErrorsOk, Placed, PopLeaf, CallsOk, GraphOk, Above;
    NextIs(s.txns, s.graph, t);
    NextValue(s, t);
    if OpenChain(Pop(s, t).graph, s.graph.home[t].root) {
      PopOwnChain(s.graph, t);
      NotQueued(s, s.txns[t].fromParent.value);
    }
    PopOpen(s.graph, s.at, pending, t);
  }

  lemma NextIs(txns: map<TxnId, Txn>, g: Graph, t: TxnId)
    requires GraphOk(g) && CallsOk(txns, g) && Leaf(g, t)
    ensures t in txns && txns[t].kind.Call?
    ensures var r := g.home[t].root; var g' := PopLeaf(g, r);
            && (OpenChain(g', r) <==> txns[t].from.None? && txns[t].fromParent.Some?)
            && (OpenChain(g', r) ==>
                  var u := LeafOf(g'.chains[r]);
                  && u in txns && u != t && Leaf(g', u) && g'.home[u].root == r && txns[u].kind.Call?
                  && txns[t].fromParent == Some(u))
  {
    var r := g.home[t].root;
    var g' := PopLeaf(g, r);
    LeafOk(txns, g, r);
    PopOwnOpen(g, t, txns[t]);
    PopLeafOk(g, r);
    PopLeafCalls(txns, g, r);
    hide Placed, PopLeaf;
    if OpenChain(g', r) {
      LeafOk(txns - {t}, g', r);
      assert LeafOf(g'.chains[r]) in txns - {t};
    }
  }

  lemma NextValue(s: World, t: TxnId)
    requires t in s.txns && Leaf(s.graph, t)
    requires var r := s.graph.home[t].root; var g' := PopLeaf(s.graph, r);
             OpenChain(g', r) ==>
               var u := LeafOf(g'.chains[r]);
               u in s.txns && u != t && Leaf(g', u) && g'.home[u].root == r
    ensures var r := s.graph.home[t].root; var g' := PopLeaf(s.graph, r);
            Above(s, t) == if OpenChain(g', r) then Some(LeafOf(g'.chains[r])) else None
  {
    hide PopLeaf, Leaf, LeafOf;
  }

  lemma NotQueued(s: World, u: TxnId)
    requires QueuesOk(s) && !Leaf(s.graph, u) && u in s.txns && s.txns[u].kind.Call?
    ensures u !in s.at
  {
    assert u in s.at ==> QueuedOk(s, u);
  }

  /** The rest of the chain is open exactly when the popped call had no live caller. */
  lemma PopOwnOpen(g: Graph, t: TxnId, w: Txn)
    requires GraphOk(g) && Leaf(g, t)
    requires Placed(w, g.chains[g.home[t].root], |g.chains[g.home[t].root].txns| - 1)
    ensures var r := g.home[t].root; var g' := PopLeaf(g, r);
            && (OpenChain(g', r) <==> w.from.None? && w.fromParent.Some?)
            && (w.fromParent.Some? ==> r in g'.chains && Shaped(g'.chains[r]) && w.fromParent == Some(LeafOf(g'.chains[r])))
  {
    assert ChainOk(g, g.home[t].root);
  }

  lemma PopGood(s: World, pending: set<TxnId>, t: TxnId)
    requires Good(s, pending) && t in pending
    ensures t in s.txns && Leaf(s.graph, t)
    ensures Good(Pop(s, t), pending - {t} + if Above(s, t).Some? then {Above(s, t).value} else {})
    ensures s.txns[t].from.Some? ==> Waits(s.threads, s.txns, s.txns[t].from.value)
    ensures s.txns[t].from.Some? ==> s.threads[s.txns[t].from.value].stack == Some(t)
    ensures s.txns[t].from.Some? ==> !Waits(WithPopped(s.threads, s.txns[t]), s.txns - {t}, s.txns[t].from.value)
    ensures s.txns[t].buffer.Some? ==> s.txns[t].buffer.value in s.buffers
  {
    PopNext(s, pending, t);
    var r := s.graph.home[t].root;
    LeafOk(s.txns, s.graph, r);
    PopLeafOk(s.graph, r);
    PopLeafCalls(s.txns, s.graph, r);
    PopLeafStacks(s.threads, s.graph, r, s.txns[t]);
    PoppedServes(s.txns, s.graph, r);
    assert TxnBuffer(s.txns, s.buffers, t);
    hide GraphOk, CallsOk, StacksOk, QueuesOk, BuffersOk, ErrorsOk, OpenOk, Placed, PopLeaf;
    PopErrors(s.threads, s.txns, t);
    PopBuffers(s.txns, s.buffers, t);
    PopQueues(s, t);
  }

  // ---- telling the caller ----

  /** What the slots of the caller that is told hold then. */
  function Told(th: Thread, stack: Option<TxnId>, code: Code): Thread {
    th.(stack := stack, error := code, error2 := if th.error != Ok && th.error2 == Ok then th.error else th.error2)
  }

  ghost function Tell(s: World, t: TxnId, code: Code): World
    requires t in s.txns && Leaf(s.graph, t) && s.txns[t].from.Some? && s.txns[t].from.value in s.threads
  {
    var x := s.txns[t].from.value;
    Pop(s, t).(threads := s.threads[x := Told(s.threads[x], s.txns[t].fromParent, code)])
  }

  /** `a` and `b` differ in error slots only. */
  predicate SameLinks(a: map<Tid, Thread>, b: map<Tid, Thread>) {
    && a.Keys == b.Keys
    && forall x :: x in a ==> a[x].stack == b[x].stack && a[x].todo == b[x].todo && a[x].proc == b[x].proc
  }

  lemma SlotsStacks(a: map<Tid, Thread>, b: map<Tid, Thread>, g: Graph)
    requires SameLinks(a, b) && StacksOk(a, g)
    ensures StacksOk(b, g)
  {
  }

  lemma SlotsQueues(s: World, threads: map<Tid, Thread>)
    requires SameLinks(s.threads, threads) && QueuesOk(s)
    ensures QueuesOk(s.(threads := threads))
  {
    hide CallQueued, Buffered;
    var s' := s.(threads := threads);
    forall x | x in threads ensures ThreadList(threads, s.at, x) {
      assert ThreadList(s.threads, s.at, x);
    }
    forall t | t in s.at ensures QueuedOk(s', t) {
      assert QueuedOk(s, t);
    }
  }

  lemma SlotsErrors(a: map<Tid, Thread>, b: map<Tid, Thread>, txns: map<TxnId, Txn>, x: Tid)
    requires SameLinks(a, b) && ErrorsOk(a, txns) && x in a && SlotsOk(b, txns, x)
    requires forall y :: y in a && y != x ==> a[y] == b[y]
    ensures ErrorsOk(b, txns)
  {
    forall y | y in b ensures SlotsOk(b, txns, y) {
      assert SlotsOk(a, txns, y);
    }
  }

  /** Changing the slots of thread `x`. */
  lemma SlotsGood(s: World, pending: set<TxnId>, x: Tid, th: Thread)
    requires Good(s, pending) && x in s.threads && SameLinks(s.threads, s.threads[x := th])
    requires SlotsOk(s.threads[x := th], s.txns, x)
    ensures Good(s.(threads := s.threads[x := th]), pending)
  {
    hide GraphOk, CallsOk, StacksOk, QueuesOk, BuffersOk, OpenOk;
    SlotsStacks(s.threads, s.threads[x := th], s.graph);
    SlotsQueues(s, s.threads[x := th]);
    SlotsErrors(s.threads, s.threads[x := th], s.txns, x);
  }

  lemma TellGood(s: World, pending: set<TxnId>, t: TxnId, code: Code)
    requires Good(s, pending) && t in pending && code != Ok
    requires t in s.txns && s.txns[t].from.Some?
    ensures Leaf(s.graph, t) && s.txns[t].from.value in s.threads
    ensures var th := s.threads[s.txns[t].from.value]; th.stack == Some(t) && (th.error != Ok ==> th.error2 == Ok)
    ensures Good(Tell(s, t, code), pending - {t})
  {
    hide GraphOk, CallsOk, StacksOk, QueuesOk, BuffersOk, OpenOk, Pop, Above;
    PopGood(s, pending, t);
    PopNext(s, pending, t);
    assert SlotsOk(s.threads, s.txns, s.txns[t].from.value);
    assert pending - {t} + {} == pending - {t};
    hide Good;
    TellSlots(s, pending, t, code);
  }

  lemma TellSlots(s: World, pending: set<TxnId>, t: TxnId, code: Code)
    requires t in s.txns && Leaf(s.graph, t) && s.txns[t].from.Some? && s.txns[t].from.value in s.threads && code != Ok
    requires Good(Pop(s, t), pending - {t})
    requires SlotsOk(s.threads, s.txns, s.txns[t].from.value) && Waits(s.threads, s.txns, s.txns[t].from.value)
    requires !Waits(WithPopped(s.threads, s.txns[t]), s.txns - {t}, s.txns[t].from.value)
    ensures Good(Tell(s, t, code), pending - {t})
  {
    hide Good;
    var x := s.txns[t].from.value;
    var th := Told(s.threads[x], s.txns[t].fromParent, code);
    SlotsGood(Pop(s, t), pending - {t}, x, th);
    assert Pop(s, t).threads[x := th] == s.threads[x := th];
  }

  // ---- failing a call ----

  /** `t` failed: calls are popped up to the nearest one with a live caller, who is told. */
  ghost function Fail(s: World, t: TxnId, code: Code): World
    requires t in s.txns && Leaf(s.graph, t)
    decreases s.txns.Keys
  {
    if s.txns[t].from.Some? && s.txns[t].from.value in s.threads then Tell(s, t, code)
    else if Above(s, t).Some? then Fail(Pop(s, t), Above(s, t).value, code)
    else Pop(s, t)
  }

  lemma {:induction false} FailGood(s: World, pending: set<TxnId>, t: TxnId, code: Code)
    requires Good(s, pending) && t in pending && code != Ok
    ensures t in s.txns && Leaf(s.graph, t)
    ensures Good(Fail(s, t, code), pending - {t})
    decreases s.txns.Keys
  {
    hide Good, Tell;
    PopGood(s, pending, t);
    PopNext(s, pending, t);
    if s.txns[t].from.Some? {
      TellGood(s, pending, t, code);
    } else if Above(s, t).Some? {
      var next := Above(s, t).value;
      FailGood(Pop(s, t), pending - {t} + {next}, next, code);
      NextNew(s, pending, t);
      assert pending - {t} + {next} - {next} == pending - {t};
    } else {
      assert pending - {t} + {} == pending - {t};
    }
  }

  lemma NextNew(s: World, pending: set<TxnId>, t: TxnId)
    requires Good(s, pending) && t in pending && t in s.txns && Leaf(s.graph, t) && Above(s, t).Some?
    ensures Above(s, t).value !in pending
  {
    PopOwnChain(s.graph, t);
  }
}
