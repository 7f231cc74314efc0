/** Sending, taking up, finishing and handing back: the effects on the whole state. */
module Transactions {
  import opened Wrappers
  import opened Chains
  import opened Stacks
  import opened States
  import opened Lists
  import Popping

  // ---- a new transaction ----

  /** Transaction `t` with its new buffer `b` is put where `where` says. */
  ghost function Post(s: World, t: TxnId, w: Txn, where: Where, b: BufferId, p: Pid): World {
    s.(threads := AddThreads(s.threads, where, t), txns := s.txns[t := w],
       buffers := s.buffers[b := Buffer(p, Some(t), false)],
       procs := AddProcs(s.procs, where, t), at := s.at[t := where])
  }

  /** `t` and `b` are new, and the list exists in process `p`. */
  ghost predicate Fresh(s: World, t: TxnId, w: Txn, where: Where, b: BufferId, p: Pid) {
    && t !in s.txns && b !in s.buffers && w.buffer == Some(b)
    && Held(s.threads, s.procs, where, p)
  }

  lemma PostBuffers(txns: map<TxnId, Txn>, buffers: map<BufferId, Buffer>, t: TxnId, w: Txn, b: BufferId, p: Pid)
    requires BuffersOk(txns, buffers) && t !in txns && b !in buffers && w.buffer == Some(b)
    ensures BuffersOk(txns[t := w], buffers[b := Buffer(p, Some(t), false)])
  {
    var txns', buffers' := txns[t := w], buffers[b := Buffer(p, Some(t), false)];
    forall u | u in txns' ensures TxnBuffer(txns', buffers', u) {
      assert u in txns ==> TxnBuffer(txns, buffers, u);
    }
    forall c | c in buffers' ensures BufferTxn(txns', buffers', c) {
      assert c in buffers ==> BufferTxn(txns, buffers, c);
    }
  }

  lemma NewNotQueued(s: World, t: TxnId)
    requires QueuesOk(s) && t !in s.txns
    ensures t !in s.at
  {
    assert t in s.at ==> QueuedOk(s, t);
  }

  /** The new transaction and the old ones are queued in order, whatever the move did to the chains. */
  lemma PostQueues(s: World, t: TxnId, w: Txn, where: Where, b: BufferId, p: Pid, h: Graph)
    requires QueuesOk(s) && Fresh(s, t, w, where, b, p)
    requires w.kind.Call? ==> CallQueued(h, w, t, where)
    requires w.kind.Reply? ==> where.OnThread?
    requires forall u :: u in s.at && u in s.txns && s.txns[u].kind.Call? ==> CallQueued(h, s.txns[u], u, s.at[u])
    ensures QueuesOk(Post(s, t, w, where, b, p).(graph := h))
  {
    hide CallQueued;
    var s' := Post(s, t, w, where, b, p).(graph := h);
    NewNotQueued(s, t);
    AddLists(s.threads, s.procs, s.at, t, where);
    hide ListsOk;
    forall u | u in s'.at ensures QueuedOk(s', u) {
      if u in s.at {
        assert QueuedOk(s, u);
        PostOther(s, t, w, where, b, p, h, u);
      }
    }
  }

  lemma PostOther(s: World, t: TxnId, w: Txn, where: Where, b: BufferId, p: Pid, h: Graph, u: TxnId)
    requires Fresh(s, t, w, where, b, p) && u in s.at && QueuedOk(s, u)
    requires s.txns[u].kind.Call? ==> CallQueued(h, s.txns[u], u, s.at[u])
    ensures QueuedOk(Post(s, t, w, where, b, p).(graph := h), u)
  {
    hide CallQueued;
    QueuedFrame(s, Post(s, t, w, where, b, p).(graph := h), u);
  }

  lemma CallsQueued(s: World)
    requires QueuesOk(s)
    ensures forall u :: u in s.at && u in s.txns && s.txns[u].kind.Call? ==> CallQueued(s.graph, s.txns[u], u, s.at[u])
  {
    forall u | u in s.at && u in s.txns && s.txns[u].kind.Call? ensures CallQueued(s.graph, s.txns[u], u, s.at[u]) {
      assert QueuedOk(s, u);
    }
  }

  lemma PostCalls(txns: map<TxnId, Txn>, g: Graph, t: TxnId, w: Txn)
    requires CallsOk(txns, g) && t !in txns && !w.kind.Call?
    ensures CallsOk(txns[t := w], g)
  {
    hide Placed;
    forall u | u in g.home ensures CallOk(txns[t := w], g, u) {
      assert CallOk(txns, g, u);
    }
  }

  lemma PostStacks(threads: map<Tid, Thread>, g: Graph, where: Where, t: TxnId)
    requires StacksOk(threads, g)
    ensures StacksOk(AddThreads(threads, where, t), g)
  {
    hide Stack;
  }

  /** The stack pointers and slots `ErrorsOk` looks at are the old ones. */
  lemma ErrorsFrame(a: map<Tid, Thread>, b: map<Tid, Thread>, txns: map<TxnId, Txn>, txns': map<TxnId, Txn>)
    requires ErrorsOk(a, txns)
    requires forall x :: x in b ==> x in a && b[x].error == a[x].error && b[x].error2 == a[x].error2
    requires forall x :: x in b && Waits(b, txns', x) ==> Waits(a, txns, x) || b[x].error == Ok
    ensures ErrorsOk(b, txns')
  {
    forall x | x in b ensures SlotsOk(b, txns', x) {
      assert SlotsOk(a, txns, x);
    }
  }

  lemma PostOpen(g: Graph, at: map<TxnId, Where>, pending: set<TxnId>, t: TxnId, where: Where)
    requires OpenOk(g, at, pending) && t !in pending
    ensures OpenOk(g, at[t := where], pending)
  {
  }

  /** A reply or a one-way transaction is sent. */
  lemma PostGood(s: World, t: TxnId, w: Txn, where: Where, b: BufferId, p: Pid)
    requires Good(s, {}) && Fresh(s, t, w, where, b, p) && !w.kind.Call? && w.from.None?
    requires w.kind.Reply? ==> where.OnThread?
    ensures Good(Post(s, t, w, where, b, p), {})
  {
    hide GraphOk, CallsOk, StacksOk, QueuesOk, BuffersOk, ErrorsOk, OpenOk;
    var s' := Post(s, t, w, where, b, p);
    PostCalls(s.txns, s.graph, t, w);
    PostStacks(s.threads, s.graph, where, t);
    PostBuffers(s.txns, s.buffers, t, w, b, p);
    CallsQueued(s);
    PostQueues(s, t, w, where, b, p, s.graph);
    assert s'.(graph := s.graph) == s';
    ErrorsFrame(s.threads, s'.threads, s.txns, s'.txns);
    PostOpen(s.graph, s.at, {}, t, where);
  }

  // ---- a new call ----

  /** Thread `x` sends call `t`: it goes on top of the stack of `x` and on the list of its target. */
  ghost function Send(s: World, x: Tid, t: TxnId, w: Txn, where: Where, b: BufferId, p: Pid): World
    requires x in s.threads && (x in s.graph.seat ==> s.graph.seat[x] in s.graph.chains)
  {
    var s' := Post(s, t, w, where, b, p);
    s'.(threads := AddThreads(s.threads[x := s.threads[x].(stack := Some(t))], where, t), graph := Extend(s.graph, x, t))
  }

  /** Where a call may go: to a thread of its chain other than the sender, or to a process. */
  ghost predicate Target(g: Graph, x: Tid, w: Txn, where: Where) {
    match where
    case OnThread(y) => y != x && w.toThread == Some(y) && x in g.seat && y in g.seat && g.seat[y] == g.seat[x]
    case OnProc(_) => w.toThread == None
    case Parked(_) => false
  }

  lemma SendQueued(g: Graph, x: Tid, t: TxnId, w: Txn, where: Where)
    requires GraphOk(g) && CanExtend(g, x, t) && Target(g, x, w, where)
    ensures CallQueued(Extend(g, x, t), w, t, where)
  {
    if x in g.seat {
      assert ChainOk(g, g.seat[x]);
    }
  }

  lemma SendOthers(g: Graph, x: Tid, t: TxnId, w: Txn, u: TxnId, where: Where)
    requires GraphOk(g) && CanExtend(g, x, t) && CallQueued(g, w, u, where)
    ensures CallQueued(Extend(g, x, t), w, u, where)
  {
    var q := g.home[u].root;
    assert ChainOk(g, q);
    RootHome(g, q);
    if where.OnThread? {
      assert x !in g.seat && x == where.thread ==> false;
    }
  }

  lemma SendOpen(g: Graph, at: map<TxnId, Where>, x: Tid, t: TxnId, where: Where)
    requires GraphOk(g) && OpenOk(g, at, {}) && CanExtend(g, x, t)
    ensures OpenOk(Extend(g, x, t), at[t := where], {})
  {
  }

  lemma SendGood(s: World, x: Tid, t: TxnId, w: Txn, where: Where, b: BufferId, p: Pid)
    requires Good(s, {}) && Fresh(s, t, w, where, b, p) && x in s.threads && s.threads[x].error == Ok
    requires CanExtend(s.graph, x, t) && Target(s.graph, x, w, where)
    requires w.kind.Call? && w.from == Some(x) && w.fromParent == s.threads[x].stack
    ensures Good(Send(s, x, t, w, where, b, p), {})
  {
    hide GraphOk, CallsOk, QueuesOk, BuffersOk, ErrorsOk, OpenOk, Stack, Extend;
    var pushed := s.threads[x := s.threads[x].(stack := Some(t))];
    var h := Extend(s.graph, x, t);
    var s' := Send(s, x, t, w, where, b, p);
    ExtendOk(s.graph, x, t);
    ExtendCalls(s.txns, s.graph, x, t, w);
    ExtendStacks(s.threads, s.graph, x, t);
    PostStacks(pushed, h, where, t);
    PostBuffers(s.txns, s.buffers, t, w, b, p);
    SendQueues(s, x, t, w, where, b, p);
    ErrorsFrame(s.threads, s'.threads, s.txns, s'.txns);
    SendOpen(s.graph, s.at, x, t, where);
  }

  lemma SendQueues(s: World, x: Tid, t: TxnId, w: Txn, where: Where, b: BufferId, p: Pid)
    requires GraphOk(s.graph) && QueuesOk(s) && Fresh(s, t, w, where, b, p) && x in s.threads && w.kind.Call?
    requires CanExtend(s.graph, x, t) && Target(s.graph, x, w, where)
    ensures QueuesOk(Send(s, x, t, w, where, b, p))
  {
    hide GraphOk, CallQueued, Extend, Target, Buffered;
    var h := Extend(s.graph, x, t);
    var s0 := s.(threads := s.threads[x := s.threads[x].(stack := Some(t))]);
    SendQueued(s.graph, x, t, w, where);
    forall u | u in s.at && u in s.txns && s.txns[u].kind.Call? ensures CallQueued(h, s.txns[u], u, s.at[u]) {
      assert QueuedOk(s, u);
      SendOthers(s.graph, x, t, s.txns[u], u, s.at[u]);
    }
    StackQueues(s, x, Some(t));
    PostQueues(s0, t, w, where, b, p, h);
  }

  lemma StackQueues(s: World, x: Tid, stack: Option<TxnId>)
    requires QueuesOk(s) && x in s.threads
    ensures QueuesOk(s.(threads := s.threads[x := s.threads[x].(stack := stack)]))
  {
    hide CallQueued, Buffered;
    var s' := s.(threads := s.threads[x := s.threads[x].(stack := stack)]);
    forall y | y in s'.threads ensures ThreadList(s'.threads, s'.at, y) {
      assert ThreadList(s.threads, s.at, y);
    }
    forall p | p in s'.procs ensures ProcList(s'.procs, s'.at, p) {
      assert ProcList(s.procs, s.at, p);
    }
    forall u | u in s'.at ensures QueuedOk(s', u) {
      assert QueuedOk(s, u);
    }
  }

  // ---- a call is taken up ----

  /** The buffer a delivered transaction carries can be freed by its receiver from now on. */
  function Delivered(buffers: map<BufferId, Buffer>, w: Txn): map<BufferId, Buffer> {
    if w.buffer.Some? && w.buffer.value in buffers
    then buffers[w.buffer.value := buffers[w.buffer.value].(userFree := true)] else buffers
  }

  /** Thread `x` takes up call `t`, which was taken off its list. */
  ghost function TakeUp(s: World, x: Tid, t: TxnId): World
    requires x in s.threads && t in s.txns && Leaf(s.graph, t)
  {
    s.(threads := s.threads[x := s.threads[x].(stack := Some(t))],
       txns := s.txns[t := s.txns[t].(toParent := s.threads[x].stack, toThread := Some(x))],
       buffers := Delivered(s.buffers, s.txns[t]),
       graph := Serve(s.graph, s.graph.home[t].root, x))
  }

  lemma DeliveredBuffers(txns: map<TxnId, Txn>, txns': map<TxnId, Txn>, buffers: map<BufferId, Buffer>, w: Txn)
    requires BuffersOk(txns, buffers) && txns'.Keys == txns.Keys
    requires forall t :: t in txns ==> txns'[t].buffer == txns[t].buffer
    ensures BuffersOk(txns', Delivered(buffers, w))
  {
    forall t | t in txns' ensures TxnBuffer(txns', Delivered(buffers, w), t) {
      assert TxnBuffer(txns, buffers, t);
    }
    forall b | b in buffers ensures BufferTxn(txns', Delivered(buffers, w), b) {
      assert BufferTxn(txns, buffers, b);
    }
  }

  lemma ServeOthers(g: Graph, t: TxnId, x: Tid, w: Txn, u: TxnId, where: Where)
    requires GraphOk(g) && Leaf(g, t) && u != t && CallQueued(g, w, u, where)
    requires x in g.seat ==> g.seat[x] == g.home[t].root
    ensures CallQueued(Serve(g, g.home[t].root, x), w, u, where)
  {
    assert ChainOk(g, g.home[t].root) && ChainOk(g, g.home[u].root);
    hide GraphOk;
  }

  lemma ServeOpen(g: Graph, at: map<TxnId, Where>, pending: set<TxnId>, t: TxnId, x: Tid)
    requires GraphOk(g) && OpenOk(g, at, pending) && Leaf(g, t)
    ensures OpenOk(Serve(g, g.home[t].root, x), at, pending - {t})
  {
    hide GraphOk, LeafOf, Serve;
    var r := g.home[t].root;
    var h := Serve(g, r, x);
    forall q | q in h.chains && OpenChain(h, q) ensures LeafOf(h.chains[q]) in at || LeafOf(h.chains[q]) in pending - {t} {
      ServeChains(g, r, x, q);
      Popping.OneRoot(g, r, q);
      assert OpenChain(g, q);
    }
    forall u | u in pending && u != t ensures Leaf(h, u) {
      assert Leaf(g, u);
      ServeChains(g, r, x, g.home[u].root);
    }
  }

  lemma ServeChains(g: Graph, r: TxnId, x: Tid, q: TxnId)
    requires OpenChain(g, r)
    ensures Serve(g, r, x).chains.Keys == g.chains.Keys && Serve(g, r, x).home == g.home
    ensures q in g.chains && q != r ==> Serve(g, r, x).chains[q] == g.chains[q]
    ensures !OpenChain(Serve(g, r, x), r)
  {
  }

  lemma TakeUpGood(s: World, pending: set<TxnId>, x: Tid, t: TxnId)
    requires Good(s, pending) && t in pending && Leaf(s.graph, t) && x in s.threads
    requires CanServe(s.graph, s.graph.home[t].root, x)
    ensures t in s.txns
    ensures Good(TakeUp(s, x, t), pending - {t})
  {
    hide GraphOk, QueuesOk, BuffersOk, ErrorsOk, OpenOk, CallsOk, StacksOk, CanServe, Leaf, Serve;
    PendingOut(s.graph, s.at, pending, t);
    LeafFacts(s, x, t);
    TakeUpLinks(s, x, t);
    ServeOpen(s.graph, s.at, pending, t, x);
    DeliveredBuffers(s.txns, TakeUp(s, x, t).txns, s.buffers, s.txns[t]);
    TakeUpErrors(s, x, t);
    TakeUpQueues(s, pending, x, t);
  }

  lemma PendingOut(g: Graph, at: map<TxnId, Where>, pending: set<TxnId>, t: TxnId)
    requires OpenOk(g, at, pending) && t in pending
    ensures Leaf(g, t) && t !in at
  {
  }

  lemma LeafFacts(s: World, x: Tid, t: TxnId)
    requires GraphOk(s.graph) && CallsOk(s.txns, s.graph) && Leaf(s.graph, t) && CanServe(s.graph, s.graph.home[t].root, x)
    ensures t in s.txns && s.txns[t].kind.Call? && s.txns[t].from != Some(x)
    ensures x in s.graph.seat ==> s.graph.seat[x] == s.graph.home[t].root
  {
    LeafOk(s.txns, s.graph, s.graph.home[t].root);
  }

  lemma TakeUpLinks(s: World, x: Tid, t: TxnId)
    requires GraphOk(s.graph) && CallsOk(s.txns, s.graph) && StacksOk(s.threads, s.graph) && x in s.threads
    requires Leaf(s.graph, t) && t in s.txns && CanServe(s.graph, s.graph.home[t].root, x)
    ensures GraphOk(TakeUp(s, x, t).graph)
    ensures CallsOk(TakeUp(s, x, t).txns, TakeUp(s, x, t).graph)
    ensures StacksOk(TakeUp(s, x, t).threads, TakeUp(s, x, t).graph)
  {
    assert s.threads[x].stack == Stack(s.graph, x);
    hide GraphOk, CallsOk, StacksOk, Stack, Serve;
    var r := s.graph.home[t].root;
    ServeOk(s.graph, r, x);
    ServeCalls(s.txns, s.graph, r, x);
    ServeStacks(s.threads, s.graph, r, x);
  }

  lemma TakeUpErrors(s: World, x: Tid, t: TxnId)
    requires ErrorsOk(s.threads, s.txns) && t in s.txns && Leaf(s.graph, t) && x in s.threads && s.txns[t].from != Some(x)
    ensures ErrorsOk(TakeUp(s, x, t).threads, TakeUp(s, x, t).txns)
  {
    hide Serve, Leaf;
    ErrorsFrame(s.threads, TakeUp(s, x, t).threads, s.txns, TakeUp(s, x, t).txns);
  }

  lemma TakeUpQueues(s: World, pending: set<TxnId>, x: Tid, t: TxnId)
    requires QueuesOk(s) && GraphOk(s.graph) && BuffersOk(s.txns, s.buffers)
    requires t in s.txns && Leaf(s.graph, t) && t !in s.at && x in s.threads
    requires x in s.graph.seat ==> s.graph.seat[x] == s.graph.home[t].root
    ensures QueuesOk(TakeUp(s, x, t))
  {
    hide GraphOk, CallQueued, BuffersOk, Serve, Leaf;
    var s' := TakeUp(s, x, t);
    StackQueues(s, x, Some(t));
    forall u | u in s'.at ensures QueuedOk(s', u) {
      assert QueuedOk(s, u);
      if s.txns[u].kind.Call? {
        ServeOthers(s.graph, t, x, s.txns[u], u, s.at[u]);
      }
      Unshared(s.txns, s.buffers, u, t);
      QueuedFrame(s, s', u);
    }
  }

  // ---- a reply or a one-way transaction is delivered ----

  /** Transaction `t`, taken off its list, is over; its receiver keeps the buffer. */
  ghost function Finish(s: World, t: TxnId): World
    requires t in s.txns
  {
    s.(txns := s.txns - {t}, buffers := Popping.Unlinked(Delivered(s.buffers, s.txns[t]), s.txns[t]))
  }

  lemma FinishGood(s: World, t: TxnId)
    requires Good(s, {}) && t in s.txns && t !in s.at && !s.txns[t].kind.Call?
    ensures Good(Finish(s, t), {})
  {
    hide GraphOk, StacksOk, QueuesOk, BuffersOk, ErrorsOk, OpenOk;
    DeliveredBuffers(s.txns, s.txns, s.buffers, s.txns[t]);
    Popping.PopBuffers(s.txns, Delivered(s.buffers, s.txns[t]), t);
    FinishCalls(s.txns, s.graph, t);
    FinishQueues(s, t);
    ErrorsFrame(s.threads, s.threads, s.txns, s.txns - {t});
  }

  lemma FinishCalls(txns: map<TxnId, Txn>, g: Graph, t: TxnId)
    requires CallsOk(txns, g) && t in txns && !txns[t].kind.Call?
    ensures CallsOk(txns - {t}, g)
  {
    hide Placed;
    forall u | u in g.home ensures CallOk(txns - {t}, g, u) {
      assert CallOk(txns, g, u);
    }
  }

  lemma FinishQueues(s: World, t: TxnId)
    requires QueuesOk(s) && BuffersOk(s.txns, s.buffers) && t in s.txns && t !in s.at
    ensures QueuesOk(Finish(s, t))
  {
    hide CallQueued, BuffersOk;
    var s' := Finish(s, t);
    forall u | u in s'.at ensures QueuedOk(s', u) {
      assert QueuedOk(s, u);
      Unshared(s.txns, s.buffers, u, t);
      QueuedFrame(s, s', u);
    }
  }

  // ---- a call is handed back ----

  /** The thread that serves leaf `t` pops it; the call is on its way back. */
  ghost function HandBack(s: World, x: Tid, t: TxnId): World
    requires x in s.threads && t in s.txns && Serving(s.graph, x, t)
  {
    s.(threads := s.threads[x := s.threads[x].(stack := s.txns[t].toParent)], graph := Return(s.graph, s.graph.home[t].root))
  }

  /** Thread `x` serves leaf `t`. */
  ghost predicate Serving(g: Graph, x: Tid, t: TxnId) {
    t in g.home && g.home[t].root in g.chains && ServesLeaf(g.chains[g.home[t].root], x) && LeafOf(g.chains[g.home[t].root]) == t
  }

  lemma ReturnOthers(g: Graph, x: Tid, t: TxnId, w: Txn, u: TxnId, where: Where)
    requires GraphOk(g) && Serving(g, x, t) && CallQueued(g, w, u, where)
    ensures CallQueued(Return(g, g.home[t].root), w, u, where)
  {
    assert ChainOk(g, g.home[t].root) && ChainOk(g, g.home[u].root);
    if where.OnThread? {
      assert SeatOk(g, where.thread);
    }
    hide GraphOk;
  }

  lemma ReturnOpen(g: Graph, at: map<TxnId, Where>, x: Tid, t: TxnId)
    requires GraphOk(g) && OpenOk(g, at, {}) && Serving(g, x, t) && t !in at
    ensures OpenOk(Return(g, g.home[t].root), at, {t})
  {
    hide GraphOk, ChainOk, Return;
    var r := g.home[t].root;
    var h := Return(g, r);
    ReturnChains(g, r, r);
    forall q | q in h.chains && OpenChain(h, q) ensures LeafOf(h.chains[q]) in at || LeafOf(h.chains[q]) == t {
      ReturnChains(g, r, q);
      assert q != r ==> OpenChain(g, q);
    }
  }

  lemma ReturnChains(g: Graph, r: TxnId, q: TxnId)
    requires GraphOk(g) && r in g.chains && Shaped(g.chains[r]) && Closed(g.chains[r]) && q in g.chains
    ensures ChainOk(g, r) && Return(g, r).chains.Keys == g.chains.Keys && Return(g, r).home == g.home
    ensures q != r ==> Return(g, r).chains[q] == g.chains[q]
    ensures q == r ==> OpenChain(Return(g, r), r) && LeafOf(Return(g, r).chains[r]) == LeafOf(g.chains[r])
  {
    assert ChainOk(g, r);
  }

  lemma ServingNotQueued(s: World, x: Tid, t: TxnId)
    requires QueuesOk(s) && Serving(s.graph, x, t) && t in s.txns && s.txns[t].kind.Call?
    ensures t !in s.at
  {
    assert t in s.at ==> QueuedOk(s, t);
  }

  lemma HandBackGood(s: World, x: Tid, t: TxnId)
    requires Good(s, {}) && x in s.threads && t in s.txns && Serving(s.graph, x, t)
    requires s.threads[x].error == Ok
    ensures Good(HandBack(s, x, t), {t})
  {
    hide GraphOk, QueuesOk, BuffersOk, ErrorsOk, OpenOk;
    HandBackLinks(s, x, t);
    ServingNotQueued(s, x, t);
    hide CallsOk, StacksOk, Return, Serving;
    ReturnOpen(s.graph, s.at, x, t);
    HandBackQueues(s, x, t);
    ErrorsFrame(s.threads, HandBack(s, x, t).threads, s.txns, s.txns);
  }

  lemma HandBackLinks(s: World, x: Tid, t: TxnId)
    requires GraphOk(s.graph) && CallsOk(s.txns, s.graph) && StacksOk(s.threads, s.graph)
    requires x in s.threads && t in s.txns && Serving(s.graph, x, t)
    ensures s.txns[t].kind.Call?
    ensures GraphOk(HandBack(s, x, t).graph)
    ensures CallsOk(HandBack(s, x, t).txns, HandBack(s, x, t).graph)
    ensures StacksOk(HandBack(s, x, t).threads, HandBack(s, x, t).graph)
  {
    var r := s.graph.home[t].root;
    LeafOk(s.txns, s.graph, r);
    ReturnOk(s.graph, r);
    hide GraphOk, CallsOk, StacksOk, Return, Placed, ChainOk;
    ReturnCalls(s.txns, s.graph, r);
    ReturnStacksTo(s.threads, s.graph, r, x, s.txns[t]);
  }

  lemma HandBackQueues(s: World, x: Tid, t: TxnId)
    requires QueuesOk(s) && GraphOk(s.graph) && x in s.threads && t in s.txns && Serving(s.graph, x, t)
    ensures QueuesOk(HandBack(s, x, t))
  {
    hide GraphOk, CallQueued, Return;
    var s' := HandBack(s, x, t);
    StackQueues(s, x, s.txns[t].toParent);
    forall u | u in s'.at ensures QueuedOk(s', u) {
      assert QueuedOk(s, u);
      if s.txns[u].kind.Call? {
        ReturnOthers(s.graph, x, t, s.txns[u], u, s.at[u]);
      }
      QueuedFrame(s, s', u);
    }
  }

  // ---- buffers, parked transactions, threads ----

  /** Buffer `b` is freed; a transaction that still points at it loses it. */
  function FreeBuf(s: World, b: BufferId): World
    requires b in s.buffers
  {
    var t := s.buffers[b].transaction;
    s.(buffers := s.buffers - {b},
       txns := if t.Some? && t.value in s.txns then s.txns[t.value := s.txns[t.value].(buffer := None)] else s.txns)
  }

  lemma FreeBufGood(s: World, b: BufferId)
    requires Good(s, {}) && b in s.buffers
    requires forall t :: t in s.at && t in s.txns ==> s.txns[t].buffer != Some(b)
    ensures Good(FreeBuf(s, b), {})
  {
    hide GraphOk, StacksOk, QueuesOk, BuffersOk, ErrorsOk, OpenOk, CallsOk;
    var s' := FreeBuf(s, b);
    FreeBufBuffers(s, b);
    FreeBufCalls(s, b);
    FreeBufQueues(s, b);
    ErrorsFrame(s.threads, s'.threads, s.txns, s'.txns);
  }

  lemma FreeBufBuffers(s: World, b: BufferId)
    requires BuffersOk(s.txns, s.buffers) && b in s.buffers
    ensures BuffersOk(FreeBuf(s, b).txns, FreeBuf(s, b).buffers)
  {
    var s' := FreeBuf(s, b);
    assert BufferTxn(s.txns, s.buffers, b);
    forall t | t in s'.txns ensures TxnBuffer(s'.txns, s'.buffers, t) {
      assert TxnBuffer(s.txns, s.buffers, t);
    }
    forall c | c in s'.buffers ensures BufferTxn(s'.txns, s'.buffers, c) {
      assert BufferTxn(s.txns, s.buffers, c);
    }
  }

  lemma FreeBufCalls(s: World, b: BufferId)
    requires CallsOk(s.txns, s.graph) && b in s.buffers
    ensures CallsOk(FreeBuf(s, b).txns, s.graph)
  {
    forall u | u in s.graph.home ensures CallOk(FreeBuf(s, b).txns, s.graph, u) {
      assert CallOk(s.txns, s.graph, u);
    }
  }

  lemma FreeBufQueues(s: World, b: BufferId)
    requires QueuesOk(s) && BuffersOk(s.txns, s.buffers) && b in s.buffers
    requires forall t :: t in s.at && t in s.txns ==> s.txns[t].buffer != Some(b)
    ensures QueuesOk(FreeBuf(s, b))
  {
    hide CallQueued;
    assert BufferTxn(s.txns, s.buffers, b);
    var s' := FreeBuf(s, b);
    forall u | u in s'.at ensures QueuedOk(s', u) {
      assert QueuedOk(s, u);
      QueuedFrame(s, s', u);
    }
  }

  /** A buffer its receiver may free belongs to no queued transaction. */
  lemma UserFree(s: World, b: BufferId)
    requires QueuesOk(s) && b in s.buffers && s.buffers[b].userFree
    ensures forall t :: t in s.at && t in s.txns ==> s.txns[t].buffer != Some(b)
  {
    forall t | t in s.at && t in s.txns ensures s.txns[t].buffer != Some(b) {
      assert QueuedOk(s, t);
    }
  }

  /** A parked transaction moves to the end of the list of thread `x`. */
  function Promote(s: World, t: TxnId, x: Tid): World {
    s.(threads := AddThreads(s.threads, OnThread(x), t), at := s.at[t := OnThread(x)])
  }

  lemma PromoteGood(s: World, t: TxnId, x: Tid)
    requires Good(s, {}) && t in s.at && s.at[t].Parked? && x in s.threads && s.threads[x].proc == s.at[t].proc
    ensures Good(Promote(s, t, x), {})
  {
    hide GraphOk, StacksOk, BuffersOk, CallsOk, ErrorsOk;
    var s' := Promote(s, t, x);
    PostStacks(s.threads, s.graph, OnThread(x), t);
    ErrorsFrame(s.threads, s'.threads, s.txns, s'.txns);
    hide QueuesOk, OpenOk;
    PromoteQueues(s, t, x);
    PostOpen(s.graph, s.at, {}, t, OnThread(x));
  }

  lemma PromoteQueues(s: World, t: TxnId, x: Tid)
    requires QueuesOk(s) && t in s.at && s.at[t].Parked? && x in s.threads && s.threads[x].proc == s.at[t].proc
    ensures QueuesOk(Promote(s, t, x))
  {
    var s' := Promote(s, t, x);
    PromoteQueued(s, t, x);
    hide QueuedOk;
    forall y | y in s'.threads ensures ThreadList(s'.threads, s'.at, y) {
      assert ThreadList(s.threads, s.at, y);
    }
    forall p | p in s'.procs ensures ProcList(s'.procs, s'.at, p) {
      assert ProcList(s.procs, s.at, p);
    }
  }

  lemma PromoteQueued(s: World, t: TxnId, x: Tid)
    requires QueuesOk(s) && t in s.at && s.at[t].Parked? && x in s.threads && s.threads[x].proc == s.at[t].proc
    ensures forall u :: u in s.at ==> QueuedOk(Promote(s, t, x), u)
  {
    var s' := Promote(s, t, x);
    assert QueuedOk(s, t);
    assert !s.txns[t].kind.Call?;
    hide CallQueued, Buffered, ListsOk;
    forall u | u in s.at ensures QueuedOk(s', u) {
      assert QueuedOk(s, u);
      if u != t {
        QueuedFrame(s, s', u);
      }
    }
  }

  lemma NewThreadGood(s: World, x: Tid, th: Thread)
    requires Good(s, {}) && x !in s.threads && th.stack.None? && th.todo == [] && th.error == Ok && th.error2 == Ok
    ensures Good(s.(threads := s.threads[x := th]), {})
  {
    hide GraphOk, BuffersOk, CallsOk, OpenOk;
    var s' := s.(threads := s.threads[x := th]);
    assert x !in s.graph.seat;
    hide Stack;
    assert Stack(s.graph, x) == None by {
      NoSeat(s.graph, x);
    }
    ErrorsFrameNew(s.threads, s.txns, x, th);
    NewThreadQueues(s, x, th);
  }

  lemma NoSeat(g: Graph, x: Tid)
    requires x !in g.seat
    ensures Stack(g, x) == None
  {
  }

  lemma ErrorsFrameNew(threads: map<Tid, Thread>, txns: map<TxnId, Txn>, x: Tid, th: Thread)
    requires ErrorsOk(threads, txns) && th.error == Ok && th.error2 == Ok
    ensures ErrorsOk(threads[x := th], txns)
  {
    var threads' := threads[x := th];
    forall y | y in threads' ensures SlotsOk(threads', txns, y) {
      assert y != x ==> SlotsOk(threads, txns, y);
    }
  }

  lemma NewThreadQueues(s: World, x: Tid, th: Thread)
    requires QueuesOk(s) && x !in s.threads && th.todo == []
    ensures QueuesOk(s.(threads := s.threads[x := th]))
  {
    hide CallQueued;
    var s' := s.(threads := s.threads[x := th]);
    assert forall u :: u in s.at ==> QueuedOk(s, u) && s.at[u] != OnThread(x);
    forall u | u in s.at ensures QueuedOk(s', u) {
      assert QueuedOk(s, u);
    }
    forall y | y in s'.threads ensures ThreadList(s'.threads, s'.at, y) {
      assert y != x ==> ThreadList(s.threads, s.at, y);
    }
    forall p | p in s'.procs ensures ProcList(s'.procs, s'.at, p) {
      assert ProcList(s.procs, s.at, p);
    }
  }

  lemma NewProcGood(s: World, p: Pid)
    requires Good(s, {}) && p !in s.procs
    ensures Good(s.(procs := s.procs[p := []]), {})
  {
    hide GraphOk, BuffersOk, CallsOk, OpenOk, StacksOk, ErrorsOk, CallQueued;
    var s' := s.(procs := s.procs[p := []]);
    forall u | u in s.at ensures QueuedOk(s', u) {
      assert QueuedOk(s, u);
    }
    forall u | u in s.at ensures s.at[u] != OnProc(p) {
      assert QueuedOk(s, u);
    }
    forall y | y in s'.threads ensures ThreadList(s'.threads, s'.at, y) {
      assert ThreadList(s.threads, s.at, y);
    }
    forall q | q in s'.procs ensures ProcList(s'.procs, s'.at, q) {
      assert q != p ==> ProcList(s.procs, s.at, q);
    }
  }
}
