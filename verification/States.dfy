/** The state the driver keeps about transactions between two steps, and what holds of it. */
module States {
  import opened Wrappers
  import opened Chains
  import opened Stacks

  datatype Buffer = Buffer(proc: Pid, transaction: Option<TxnId>, userFree: bool)

  /** Where an undelivered transaction waits. `Parked` is a node's list of one-way transactions. */
  datatype Where = OnThread(thread: Tid) | OnProc(proc: Pid) | Parked(proc: Pid)

  /** The driver's records, where each undelivered transaction waits, and the call chains. */
  datatype World = World(threads: map<Tid, Thread>, txns: map<TxnId, Txn>, buffers: map<BufferId, Buffer>,
                         procs: map<Pid, seq<TxnId>>, at: map<TxnId, Where>, graph: Graph)

  // ---- error slots ----

  /** A thread waits when the top of its stack is a call it made itself. */
  predicate Waits(threads: map<Tid, Thread>, txns: map<TxnId, Txn>, x: Tid) {
    && x in threads && threads[x].stack.Some? && threads[x].stack.value in txns
    && txns[threads[x].stack.value].from == Some(x)
  }

  ghost predicate SlotsOk(threads: map<Tid, Thread>, txns: map<TxnId, Txn>, x: Tid)
    requires x in threads
  {
    && (threads[x].error2 != Ok ==> threads[x].error != Ok)
    && (threads[x].error != Ok && Waits(threads, txns, x) ==> threads[x].error2 == Ok)
  }

  /** One error slot of a waiting thread is free. */
  ghost predicate ErrorsOk(threads: map<Tid, Thread>, txns: map<TxnId, Txn>) {
    forall x :: x in threads ==> SlotsOk(threads, txns, x)
  }

  // ---- buffers ----

  ghost predicate TxnBuffer(txns: map<TxnId, Txn>, buffers: map<BufferId, Buffer>, t: TxnId)
    requires t in txns
  {
    txns[t].buffer.Some? ==> txns[t].buffer.value in buffers && buffers[txns[t].buffer.value].transaction == Some(t)
  }

  ghost predicate BufferTxn(txns: map<TxnId, Txn>, buffers: map<BufferId, Buffer>, b: BufferId)
    requires b in buffers
  {
    buffers[b].transaction.Some? ==>
      buffers[b].transaction.value in txns && txns[buffers[b].transaction.value].buffer == Some(b)
  }

  /** A transaction points at a buffer exactly when the buffer points back. */
  ghost predicate BuffersOk(txns: map<TxnId, Txn>, buffers: map<BufferId, Buffer>) {
    && (forall t :: t in txns ==> TxnBuffer(txns, buffers, t))
    && (forall b :: b in buffers ==> BufferTxn(txns, buffers, b))
  }

  // ---- queues ----

  ghost predicate Distinct(q: seq<TxnId>) {
    forall i, j :: 0 <= i < j < |q| ==> q[i] != q[j]
  }

  ghost predicate ThreadList(threads: map<Tid, Thread>, at: map<TxnId, Where>, x: Tid)
    requires x in threads
  {
    Distinct(threads[x].todo) && forall t :: t in threads[x].todo <==> t in at && at[t] == OnThread(x)
  }

  ghost predicate ProcList(procs: map<Pid, seq<TxnId>>, at: map<TxnId, Where>, p: Pid)
    requires p in procs
  {
    Distinct(procs[p]) && forall t :: t in procs[p] <==> t in at && at[t] == OnProc(p)
  }

  /** Each work list holds, once each, the transactions that wait on it. */
  ghost predicate ListsOk(threads: map<Tid, Thread>, procs: map<Pid, seq<TxnId>>, at: map<TxnId, Where>) {
    && (forall x :: x in threads ==> ThreadList(threads, at, x))
    && (forall p :: p in procs ==> ProcList(procs, at, p))
  }

  ghost predicate Leaf(g: Graph, t: TxnId) {
    t in g.home && OpenChain(g, g.home[t].root) && LeafOf(g.chains[g.home[t].root]) == t
  }

  /** A queued call is the leaf of an open chain; if it is queued on a thread, that thread waits
      further up the same chain. */
  ghost predicate CallQueued(g: Graph, w: Txn, t: TxnId, where: Where) {
    && Leaf(g, t)
    && match where
       case OnThread(x) => w.toThread == Some(x) && CanServe(g, g.home[t].root, x) && x in g.seat
       case OnProc(_) => w.toThread == None
       case Parked(_) => false
  }

  /** The list a transaction waits on exists, in the process `p` that owns its buffer. */
  ghost predicate Held(threads: map<Tid, Thread>, procs: map<Pid, seq<TxnId>>, where: Where, p: Pid) {
    match where
    case OnThread(x) => x in threads && threads[x].proc == p
    case OnProc(q) => q in procs && q == p
    case Parked(q) => q == p
  }

  /** A queued transaction has its buffer, which no user can free yet. */
  ghost predicate Buffered(w: Txn, buffers: map<BufferId, Buffer>) {
    w.buffer.Some? && w.buffer.value in buffers && !buffers[w.buffer.value].userFree
  }

  ghost predicate QueuedOk(s: World, t: TxnId)
    requires t in s.at
  {
    && t in s.txns
    && (s.txns[t].kind.Call? ==> CallQueued(s.graph, s.txns[t], t, s.at[t]))
    && (s.txns[t].kind.Reply? ==> s.at[t].OnThread?)
    && Buffered(s.txns[t], s.buffers)
    && Held(s.threads, s.procs, s.at[t], s.buffers[s.txns[t].buffer.value].proc)
  }

  ghost predicate QueuesOk(s: World) {
    ListsOk(s.threads, s.procs, s.at) && forall t :: t in s.at ==> QueuedOk(s, t)
  }

  /** The leaf of every open chain is queued, or is in `pending`: on its way back to its caller. */
  ghost predicate OpenOk(g: Graph, at: map<TxnId, Where>, pending: set<TxnId>) {
    && (forall q :: q in g.chains && OpenChain(g, q) ==> LeafOf(g.chains[q]) in at || LeafOf(g.chains[q]) in pending)
    && (forall t :: t in pending ==> Leaf(g, t) && t !in at)
  }

  /** What holds between two steps, with the calls in `pending` on their way back. */
  ghost predicate Good(s: World, pending: set<TxnId>) {
    && GraphOk(s.graph) && CallsOk(s.txns, s.graph) && StacksOk(s.threads, s.graph)
    && QueuesOk(s) && ErrorsOk(s.threads, s.txns) && BuffersOk(s.txns, s.buffers)
    && OpenOk(s.graph, s.at, pending)
  }
}
