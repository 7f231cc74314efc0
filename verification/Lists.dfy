/** Putting transactions on work lists and taking them off again. */
module Lists {
  import opened Wrappers
  import opened Chains
  import opened Stacks
  import opened States
  import Popping

  function AddThreads(threads: map<Tid, Thread>, where: Where, t: TxnId): map<Tid, Thread> {
    if where.OnThread? && where.thread in threads
    then threads[where.thread := threads[where.thread].(todo := threads[where.thread].todo + [t])] else threads
  }

  function AddProcs(procs: map<Pid, seq<TxnId>>, where: Where, t: TxnId): map<Pid, seq<TxnId>> {
    if where.OnProc? && where.proc in procs then procs[where.proc := procs[where.proc] + [t]] else procs
  }

  lemma AddLists(threads: map<Tid, Thread>, procs: map<Pid, seq<TxnId>>, at: map<TxnId, Where>, t: TxnId, where: Where)
    requires ListsOk(threads, procs, at) && t !in at
    requires where.OnThread? ==> where.thread in threads
    requires where.OnProc? ==> where.proc in procs
    ensures ListsOk(AddThreads(threads, where, t), AddProcs(procs, where, t), at[t := where])
  {
    var threads', procs', at' := AddThreads(threads, where, t), AddProcs(procs, where, t), at[t := where];
    forall x | x in threads' ensures ThreadList(threads', at', x) {
      assert ThreadList(threads, at, x);
    }
    forall p | p in procs' ensures ProcList(procs', at', p) {
      assert ProcList(procs, at, p);
    }
  }

  /** The transaction is the first of the list it waits on. */
  predicate First(threads: map<Tid, Thread>, procs: map<Pid, seq<TxnId>>, where: Where, t: TxnId) {
    match where
    case OnThread(x) => x in threads && threads[x].todo != [] && threads[x].todo[0] == t
    case OnProc(p) => p in procs && procs[p] != [] && procs[p][0] == t
    case Parked(_) => true
  }

  function RestThreads(threads: map<Tid, Thread>, where: Where): map<Tid, Thread> {
    if where.OnThread? && where.thread in threads && threads[where.thread].todo != []
    then threads[where.thread := threads[where.thread].(todo := threads[where.thread].todo[1..])] else threads
  }

  function RestProcs(procs: map<Pid, seq<TxnId>>, where: Where): map<Pid, seq<TxnId>> {
    if where.OnProc? && where.proc in procs && procs[where.proc] != []
    then procs[where.proc := procs[where.proc][1..]] else procs
  }

  lemma RestLists(threads: map<Tid, Thread>, procs: map<Pid, seq<TxnId>>, at: map<TxnId, Where>, t: TxnId)
    requires ListsOk(threads, procs, at) && t in at && First(threads, procs, at[t], t)
    ensures ListsOk(RestThreads(threads, at[t]), RestProcs(procs, at[t]), at - {t})
  {
    var threads', procs', at' := RestThreads(threads, at[t]), RestProcs(procs, at[t]), at - {t};
    forall x | x in threads' ensures ThreadList(threads', at', x) {
      assert ThreadList(threads, at, x);
      if at[t] == OnThread(x) {
        RestOf(threads[x].todo);
      }
    }
    forall p | p in procs' ensures ProcList(procs', at', p) {
      assert ProcList(procs, at, p);
      if at[t] == OnProc(p) {
        RestOf(procs[p]);
      }
    }
  }

  lemma RestOf(q: seq<TxnId>)
    requires Distinct(q) && q != []
    ensures Distinct(q[1..]) && forall t :: t in q[1..] <==> t in q && t != q[0]
  {
    assert q == [q[0]] + q[1..];
  }

  /** Taking `t` off the list it waits on. */
  function Take(s: World, t: TxnId): World
    requires t in s.at
  {
    s.(threads := RestThreads(s.threads, s.at[t]), procs := RestProcs(s.procs, s.at[t]), at := s.at - {t})
  }

  /** A call taken off its list is on its way; nothing else changes. */
  lemma TakeGood(s: World, pending: set<TxnId>, t: TxnId)
    requires Good(s, pending) && t in s.at && First(s.threads, s.procs, s.at[t], t)
    ensures t in s.txns
    ensures Good(Take(s, t), if s.txns[t].kind.Call? then pending + {t} else pending)
  {
    var s' := Take(s, t);
    assert QueuedOk(s, t);
    hide GraphOk, CallsOk, BuffersOk, Leaf, CallQueued, Buffered;
    RestLists(s.threads, s.procs, s.at, t);
    TakeErrors(s, t);
    TakeQueued(s, t);
    TakeStacks(s, t);
    TakeOpen(s, pending, t);
  }

  lemma TakeStacks(s: World, t: TxnId)
    requires t in s.at && StacksOk(s.threads, s.graph)
    ensures StacksOk(Take(s, t).threads, s.graph)
  {
    hide Stack;
  }

  lemma TakeErrors(s: World, t: TxnId)
    requires t in s.at && ErrorsOk(s.threads, s.txns)
    ensures ErrorsOk(Take(s, t).threads, s.txns)
  {
    forall x | x in s.threads ensures SlotsOk(Take(s, t).threads, s.txns, x) {
      assert SlotsOk(s.threads, s.txns, x);
    }
  }

  lemma TakeQueued(s: World, t: TxnId)
    requires t in s.at && QueuesOk(s)
    ensures forall u :: u in s.at && u != t ==> QueuedOk(Take(s, t), u)
  {
    forall u | u in s.at && u != t ensures QueuedOk(Take(s, t), u) {
      assert QueuedOk(s, u);
      hide CallQueued, Buffered;
    }
  }

  lemma TakeOpen(s: World, pending: set<TxnId>, t: TxnId)
    requires QueuesOk(s) && CallsOk(s.txns, s.graph) && GraphOk(s.graph) && OpenOk(s.graph, s.at, pending) && t in s.at && t in s.txns
    ensures OpenOk(s.graph, s.at - {t}, if s.txns[t].kind.Call? then pending + {t} else pending)
  {
    hide GraphOk, CallsOk, OpenOk, LeafOf, Leaf, ListsOk;
    if s.txns[t].kind.Call? {
      assert QueuedOk(s, t);
      TakeLeaf(s.graph, s.at, pending, t);
    } else {
      NoHome(s.txns, s.graph, t);
      TakeOther(s.graph, s.at, pending, t);
    }
  }

  lemma NoHome(txns: map<TxnId, Txn>, g: Graph, t: TxnId)
    requires CallsOk(txns, g) && t in txns && !txns[t].kind.Call?
    ensures t !in g.home
  {
    hide CallOk;
  }

  lemma TakeLeaf(g: Graph, at: map<TxnId, Where>, pending: set<TxnId>, t: TxnId)
    requires OpenOk(g, at, pending) && Leaf(g, t)
    ensures OpenOk(g, at - {t}, pending + {t})
  {
    hide LeafOf, Leaf, OpenChain;
  }

  lemma TakeOther(g: Graph, at: map<TxnId, Where>, pending: set<TxnId>, t: TxnId)
    requires GraphOk(g) && OpenOk(g, at, pending) && t !in g.home
    ensures OpenOk(g, at - {t}, pending)
  {
    forall q | q in g.chains && OpenChain(g, q) ensures LeafOf(g.chains[q]) != t {
      assert ChainOk(g, q);
      Popping.LeafHome(g, q);
    }
    hide GraphOk, LeafOf, OpenChain, Leaf;
  }

  // ---- a queued transaction after a change elsewhere ----

  /** Queued transactions stay in order when threads and processes stay and new records are added. */
  lemma QueuedFrame(s: World, s': World, t: TxnId)
    requires t in s.at && QueuedOk(s, t) && t in s'.at && s'.at[t] == s.at[t]
    requires t in s'.txns && s'.txns[t].kind == s.txns[t].kind && s'.txns[t].buffer == s.txns[t].buffer
    requires s.txns[t].buffer.Some? ==> s.txns[t].buffer.value in s'.buffers
    requires s.txns[t].buffer.Some? && s.txns[t].buffer.value in s.buffers ==>
               && s'.buffers[s.txns[t].buffer.value].proc == s.buffers[s.txns[t].buffer.value].proc
               && s'.buffers[s.txns[t].buffer.value].userFree == s.buffers[s.txns[t].buffer.value].userFree
    requires s.at[t].OnThread? && s.at[t].thread in s.threads ==>
               s.at[t].thread in s'.threads && s'.threads[s.at[t].thread].proc == s.threads[s.at[t].thread].proc
    requires s.procs.Keys <= s'.procs.Keys
    requires s.txns[t].kind.Call? ==> CallQueued(s'.graph, s'.txns[t], t, s.at[t])
    ensures QueuedOk(s', t)
  {
  }

  /** A buffer another transaction holds is not this one's. */
  lemma Unshared(txns: map<TxnId, Txn>, buffers: map<BufferId, Buffer>, t: TxnId, u: TxnId)
    requires BuffersOk(txns, buffers) && t in txns && u in txns && t != u && txns[t].buffer.Some?
    ensures txns[u].buffer != txns[t].buffer
  {
    assert TxnBuffer(txns, buffers, t) && TxnBuffer(txns, buffers, u);
  }
}
