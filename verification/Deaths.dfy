/** The death of a thread: what it means for the whole state, and the walk down its stack. */
module Deaths {
  import opened Wrappers
  import opened Chains
  import opened Stacks
  import opened States
  import opened Lists
  import opened Transactions
  import Popping

  /** Buffers whose transaction no longer points at them are untied too. */
  function Untied(buffers: map<BufferId, Buffer>, txns: map<TxnId, Txn>): map<BufferId, Buffer> {
    map b | b in buffers ::
      if buffers[b].transaction.Some? && buffers[b].transaction.value in txns
         && txns[buffers[b].transaction.value].buffer.None?
      then buffers[b].(transaction := None) else buffers[b]
  }

  function Elsewhere(at: map<TxnId, Where>, x: Tid): map<TxnId, Where> {
    map t | t in at && at[t] != OnThread(x) :: at[t]
  }

  /** Thread `x` is gone with its work list. */
  ghost function Die(s: World, x: Tid): World
    requires x in s.graph.seat ==> s.graph.seat[x] in s.graph.chains
  {
    var txns := Buried(s.txns, s.graph, x, 0, 0);
    World(s.threads - {x}, txns, Untied(s.buffers, txns), s.procs, Elsewhere(s.at, x), Bury(s.graph, x))
  }

  /** The calls the dead thread leaves to be failed: the one it served, and those on its list. */
  ghost function Orphans(s: World, x: Tid): set<TxnId>
    requires x in s.threads
  {
    set t | t in s.txns && s.txns[t].kind.Call? && (t in s.threads[x].todo || Serving(s.graph, x, t))
  }

  lemma DieLists(s: World, x: Tid)
    requires ListsOk(s.threads, s.procs, s.at)
    ensures ListsOk(s.threads - {x}, s.procs, Elsewhere(s.at, x))
  {
    forall y | y in s.threads - {x} ensures ThreadList(s.threads - {x}, Elsewhere(s.at, x), y) {
      assert ThreadList(s.threads, s.at, y);
    }
    forall p | p in s.procs ensures ProcList(s.procs, Elsewhere(s.at, x), p) {
      assert ProcList(s.procs, s.at, p);
    }
  }

  lemma BuriedFields(txns: map<TxnId, Txn>, g: Graph, x: Tid, kf: nat, kt: nat, t: TxnId)
    requires t in txns
    ensures var w := Buried(txns, g, x, kf, kt)[t];
            && w.kind == txns[t].kind && w.fromParent == txns[t].fromParent && w.toParent == txns[t].toParent
            && (w.from == txns[t].from || w.from.None?)
            && (w.buffer == txns[t].buffer || w.buffer.None?)
  {
  }

  lemma DieErrors(s: World, x: Tid)
    requires ErrorsOk(s.threads, s.txns)
    ensures ErrorsOk(s.threads - {x}, Buried(s.txns, s.graph, x, 0, 0))
  {
    var txns := Buried(s.txns, s.graph, x, 0, 0);
    forall y | y in s.threads - {x} && Waits(s.threads - {x}, txns, y) ensures Waits(s.threads, s.txns, y) {
      BuriedFields(s.txns, s.graph, x, 0, 0, s.threads[y].stack.value);
    }
    ErrorsFrame(s.threads, s.threads - {x}, s.txns, txns);
  }

  lemma UntiedBuffers(txns: map<TxnId, Txn>, buffers: map<BufferId, Buffer>, txns': map<TxnId, Txn>)
    requires BuffersOk(txns, buffers) && txns'.Keys == txns.Keys
    requires forall t :: t in txns ==> txns'[t].buffer == txns[t].buffer || txns'[t].buffer.None?
    ensures BuffersOk(txns', Untied(buffers, txns'))
  {
    forall t | t in txns' ensures TxnBuffer(txns', Untied(buffers, txns'), t) {
      assert TxnBuffer(txns, buffers, t);
    }
    forall b | b in buffers ensures BufferTxn(txns', Untied(buffers, txns'), b) {
      assert BufferTxn(txns, buffers, b);
    }
  }

  /** A queued call is untouched but for a caller that died. */
  lemma BuriedLeaf(txns: map<TxnId, Txn>, g: Graph, x: Tid, t: TxnId)
    requires GraphOk(g) && t in txns && Leaf(g, t)
    ensures var w := Buried(txns, g, x, 0, 0)[t]; w.toThread == txns[t].toThread && w.buffer == txns[t].buffer
  {
    assert ChainOk(g, g.home[t].root);
  }

  lemma BuryOthers(g: Graph, x: Tid, w: Txn, w': Txn, u: TxnId, where: Where)
    requires CallQueued(g, w, u, where) && where != OnThread(x) && w'.toThread == w.toThread
    requires x in g.seat ==> g.seat[x] in g.chains
    ensures CallQueued(Bury(g, x), w', u, where)
  {
  }

  lemma BuryLeaf(g: Graph, x: Tid, t: TxnId)
    requires GraphOk(g) && (Leaf(g, t) || Serving(g, x, t))
    requires x in g.seat ==> g.seat[x] in g.chains
    ensures Leaf(Bury(g, x), t)
  {
    if Serving(g, x, t) {
      assert ChainOk(g, g.home[t].root);
      var c := g.chains[g.home[t].root];
      assert c.actors[|c.txns|] in c.actors;
    }
  }

  /** A chain that is open after the death was open before, or its leaf was served by the dead thread. */
  lemma BuryOpen(g: Graph, x: Tid, q: TxnId)
    requires GraphOk(g) && q in g.chains && (x in g.seat ==> g.seat[x] in g.chains)
    requires OpenChain(Bury(g, x), q)
    ensures LeafOf(Bury(g, x).chains[q]) == LeafOf(g.chains[q])
    ensures OpenChain(g, q) || Serving(g, x, LeafOf(g.chains[q]))
  {
    assert ChainOk(g, q);
    Popping.LeafHome(g, q);
  }

  lemma DieQueues(s: World, x: Tid)
    requires QueuesOk(s) && GraphOk(s.graph) && CallsOk(s.txns, s.graph) && (x in s.graph.seat ==> s.graph.seat[x] in s.graph.chains)
    ensures QueuesOk(Die(s, x))
  {
    hide GraphOk, CallsOk, CallQueued, Bury, Leaf;
    var s' := Die(s, x);
    DieLists(s, x);
    forall u | u in s'.at ensures QueuedOk(s', u) {
      assert QueuedOk(s, u);
      DieQueued(s, x, u);
    }
  }

  lemma DieQueued(s: World, x: Tid, u: TxnId)
    requires GraphOk(s.graph) && CallsOk(s.txns, s.graph) && (x in s.graph.seat ==> s.graph.seat[x] in s.graph.chains)
    requires u in s.at && QueuedOk(s, u) && s.at[u] != OnThread(x)
    ensures QueuedOk(Die(s, x), u)
  {
    var s' := Die(s, x);
    BuriedFields(s.txns, s.graph, x, 0, 0, u);
    if s.txns[u].kind.Call? {
      QueuedLeaf(s.graph, s.txns[u], u, s.at[u]);
      BuriedLeaf(s.txns, s.graph, x, u);
      BuryOthers(s.graph, x, s.txns[u], s'.txns[u], u, s.at[u]);
    } else {
      assert u !in s.graph.home;
    }
    hide GraphOk, CallsOk, CallQueued, Bury, Leaf;
    QueuedFrame(s, s', u);
  }

  lemma QueuedLeaf(g: Graph, w: Txn, u: TxnId, where: Where)
    requires CallQueued(g, w, u, where)
    ensures Leaf(g, u)
  {
  }

  lemma DieOpen(s: World, x: Tid)
    requires Good(s, {}) && x in s.threads && (x in s.graph.seat ==> s.graph.seat[x] in s.graph.chains)
    ensures OpenOk(Bury(s.graph, x), Elsewhere(s.at, x), Orphans(s, x))
  {
    hide GraphOk, CallsOk, StacksOk, ErrorsOk, BuffersOk, Bury, LeafOf, CallQueued;
    var h := Bury(s.graph, x);
    assert ThreadList(s.threads, s.at, x);
    forall q | q in h.chains && OpenChain(h, q)
      ensures LeafOf(h.chains[q]) in Elsewhere(s.at, x) || LeafOf(h.chains[q]) in Orphans(s, x)
    {
      BuryChains(s.graph, x);
      BuryOpen(s.graph, x, q);
      LeafOk(s.txns, s.graph, q);
    }
    forall t | t in Orphans(s, x) ensures Leaf(h, t) && t !in Elsewhere(s.at, x) {
      OrphanLeaf(s, x, t);
    }
  }

  lemma BuryChains(g: Graph, x: Tid)
    requires x in g.seat ==> g.seat[x] in g.chains
    ensures Bury(g, x).chains.Keys == g.chains.Keys
  {
  }

  lemma OrphanLeaf(s: World, x: Tid, t: TxnId)
    requires QueuesOk(s) && GraphOk(s.graph) && x in s.threads && t in Orphans(s, x)
    requires x in s.graph.seat ==> s.graph.seat[x] in s.graph.chains
    ensures Leaf(Bury(s.graph, x), t) && t !in Elsewhere(s.at, x)
  {
    hide GraphOk, Bury;
    assert ThreadList(s.threads, s.at, x);
    if t in s.at {
      assert QueuedOk(s, t);
      QueuedLeaf(s.graph, s.txns[t], t, s.at[t]);
    }
    BuryLeaf(s.graph, x, t);
  }

  /** A thread can die at any time: what is left to do is to fail its orphans. */
  lemma DieGood(s: World, x: Tid)
    requires Good(s, {}) && x in s.threads
    ensures x in s.graph.seat ==> s.graph.seat[x] in s.graph.chains
    ensures Good(Die(s, x), Orphans(s, x))
  {
    BuryOk(s.graph, x);
    hide GraphOk, StacksOk, ErrorsOk, BuffersOk, QueuesOk, OpenOk, Bury, CallsOk;
    DieOpen(s, x);
    DieQueues(s, x);
    DieErrors(s, x);
    BuryCalls(s.txns, s.graph, x);
    BuryStacks(s.threads, s.graph, x);
    var txns := Buried(s.txns, s.graph, x, 0, 0);
    forall t | t in s.txns ensures txns[t].buffer == s.txns[t].buffer || txns[t].buffer.None? {
      BuriedFields(s.txns, s.graph, x, 0, 0, t);
    }
    UntiedBuffers(s.txns, s.buffers, txns);
  }

  // ---- the walk down the stack ----

  /** The walk stands at `t`: either before the highest seat of `x` below `kt`, or between the call
      `x` makes from seat `kf`, already cleared, and the call it serves there. */
  ghost predicate WalkAt(g: Graph, x: Tid, t: Option<TxnId>, kf: nat, kt: nat) {
    if x !in g.seat then t.None? && kf == kt == 0 else
    g.seat[x] in g.chains && var c := g.chains[g.seat[x]];
    && Shaped(c) && kt <= |c.actors|
    && if kf == kt then t == Top(c, x, kt)
       else kt == kf + 1 && 0 < kf < |c.txns| && c.actors[kf] == Some(x) && t == Some(c.txns[kf - 1])
  }

  ghost function Seats(g: Graph, x: Tid): nat {
    if x in g.seat && g.seat[x] in g.chains then |g.chains[g.seat[x]].actors| else 0
  }

  lemma WalkStart(s: World, x: Tid)
    requires Good(s, {}) && x in s.threads
    ensures WalkAt(s.graph, x, s.threads[x].stack, Seats(s.graph, x), Seats(s.graph, x))
    ensures Buried(s.txns, s.graph, x, Seats(s.graph, x), Seats(s.graph, x)) == s.txns
  {
    hide GraphOk, CallsOk, QueuesOk, OpenOk, ErrorsOk, BuffersOk;
    StackTop(s.graph, x);
    var k := Seats(s.graph, x);
    forall t | t in s.txns ensures Buried(s.txns, s.graph, x, k, k)[t] == s.txns[t] {
    }
  }

  lemma WalkEnd(txns: map<TxnId, Txn>, g: Graph, x: Tid, k: nat)
    requires WalkAt(g, x, None, k, k)
    ensures Buried(txns, g, x, k, k) == Buried(txns, g, x, 0, 0)
  {
    if x in g.seat {
      var c := g.chains[g.seat[x]];
      assert LastSeat(c.actors, x, k).None?;
      forall t | t in txns ensures Buried(txns, g, x, k, k)[t] == Buried(txns, g, x, 0, 0)[t] {
      }
    }
  }

  lemma CallHere(s: World, u: TxnId)
    requires GraphOk(s.graph) && CallsOk(s.txns, s.graph) && u in s.graph.home
    ensures u in s.txns && HomeOk(s.graph, u) && ChainOk(s.graph, s.graph.home[u].root)
    ensures Placed(s.txns[u], s.graph.chains[s.graph.home[u].root], s.graph.home[u].at)
  {
    assert CallOk(s.txns, s.graph, u) && HomeOk(s.graph, u) && ChainOk(s.graph, s.graph.home[u].root);
  }

  /** Seat `j` of the chain of `x` is its own. */
  ghost predicate OwnSeat(g: Graph, x: Tid, j: nat) {
    x in g.seat && g.seat[x] in g.chains && var c := g.chains[g.seat[x]];
    Shaped(c) && j < |c.actors| && c.actors[j] == Some(x)
  }

  /** Clearing the server of the call served from seat `j`. */
  lemma WalkServed(s: World, x: Tid, kf: nat, j: nat)
    requires GraphOk(s.graph) && CallsOk(s.txns, s.graph) && OwnSeat(s.graph, x, j) && j > 0
    requires kf == j || (kf == j + 1 && j == |s.graph.chains[s.graph.seat[x]].txns|)
    ensures var u := s.graph.chains[s.graph.seat[x]].txns[j - 1];
            && u in s.txns
            && var now := Buried(s.txns, s.graph, x, kf, j + 1)[u];
               && now.toThread == Some(x) && now.buffer == s.txns[u].buffer && now.toParent == s.txns[u].toParent
               && Buried(s.txns, s.graph, x, j, j) ==
                    Buried(s.txns, s.graph, x, kf, j + 1)[u := now.(toThread := None, buffer := None)]
               && WalkAt(s.graph, x, now.toParent, j, j)
  {
    var g := s.graph;
    var u := g.chains[g.seat[x]].txns[j - 1];
    assert ChainOk(g, g.seat[x]);
    CallHere(s, u);
    BuriedServed(s, x, kf, j);
  }

  lemma BuriedServed(s: World, x: Tid, kf: nat, j: nat)
    requires GraphOk(s.graph) && OwnSeat(s.graph, x, j) && j > 0
    requires kf == j || (kf == j + 1 && j == |s.graph.chains[s.graph.seat[x]].txns|)
    requires s.graph.chains[s.graph.seat[x]].txns[j - 1] in s.txns
    ensures var u := s.graph.chains[s.graph.seat[x]].txns[j - 1];
            var now := Buried(s.txns, s.graph, x, kf, j + 1)[u];
            Buried(s.txns, s.graph, x, j, j) ==
              Buried(s.txns, s.graph, x, kf, j + 1)[u := now.(toThread := None, buffer := None)]
  {
    var g := s.graph;
    var u := g.chains[g.seat[x]].txns[j - 1];
    assert ChainOk(g, g.seat[x]);
    forall t | t in s.txns && t != u ensures Buried(s.txns, g, x, j, j)[t] == Buried(s.txns, g, x, kf, j + 1)[t] {
      if Beside(g, x, t) {
        assert HomeOk(g, t);
      }
    }
  }

  /** Clearing the caller of the call made from seat `j`. */
  lemma WalkMade(s: World, x: Tid, k: nat, j: nat)
    requires Good(s, {}) && OwnSeat(s.graph, x, j) && j < |s.graph.chains[s.graph.seat[x]].txns| && j < k
    requires k <= |s.graph.chains[s.graph.seat[x]].actors|
    requires forall i :: j < i < k ==> s.graph.chains[s.graph.seat[x]].actors[i] != Some(x)
    ensures var c := s.graph.chains[s.graph.seat[x]];
            var u, kt := c.txns[j], if j == 0 then 0 else j + 1;
            && u in s.txns
            && var now := Buried(s.txns, s.graph, x, k, k)[u];
               && now.toThread != Some(x) && now.from == Some(x)
               && Buried(s.txns, s.graph, x, j, kt) == Buried(s.txns, s.graph, x, k, k)[u := now.(from := None)]
               && WalkAt(s.graph, x, now.fromParent, j, kt)
  {
    hide StacksOk, ErrorsOk, BuffersOk, CallsOk, GraphOk, QueuesOk, OpenOk, Buried;
    MadeHere(s, x, k, j);
    BuriedMade(s, x, k, j);
    if j + 1 == |s.graph.chains[s.graph.seat[x]].actors| {
      LastMade(s, x, s.graph.chains[s.graph.seat[x]].txns[j]);
    }
  }

  lemma MadeHere(s: World, x: Tid, k: nat, j: nat)
    requires GraphOk(s.graph) && CallsOk(s.txns, s.graph) && OwnSeat(s.graph, x, j)
    requires j < |s.graph.chains[s.graph.seat[x]].txns| && j < k <= |s.graph.chains[s.graph.seat[x]].actors|
    requires forall i :: j < i < k ==> s.graph.chains[s.graph.seat[x]].actors[i] != Some(x)
    ensures var c := s.graph.chains[s.graph.seat[x]];
            var u, kt := c.txns[j], if j == 0 then 0 else j + 1;
            && u in s.txns && s.txns[u].from == Some(x)
            && (var now := Buried(s.txns, s.graph, x, k, k)[u];
                && now.from == Some(x) && WalkAt(s.graph, x, now.fromParent, j, kt)
                && (now.toThread == s.txns[u].toThread || now.toThread == None))
            && (j + 1 == |c.actors| ==> Leaf(s.graph, u))
            && (j + 1 < |c.actors| ==> s.txns[u].toThread != Some(x))
  {
    hide CallsOk;
    var g := s.graph;
    var c := g.chains[g.seat[x]];
    assert ChainOk(g, g.seat[x]);
    assert g.home[c.txns[j]] == Place(g.seat[x], j);
    CallHere(s, c.txns[j]);
    hide GraphOk, ChainOk, HomeOk;
    MadeNow(c, x, s.txns[c.txns[j]], k, j);
    assert Buried(s.txns, g, x, k, k)[c.txns[j]] == BuriedTxn(s.txns[c.txns[j]], c, j, x, k, k);
    hide Buried, Placed, BuriedTxn;
  }

  lemma MadeNow(c: Chain, x: Tid, w: Txn, k: nat, j: nat)
    requires Shaped(c) && Apart(c.actors) && j < |c.txns| && j < k && c.actors[j] == Some(x) && Placed(w, c, j)
    ensures w.from == Some(x) && w.fromParent == (if j == 0 then None else Some(c.txns[j - 1]))
    ensures var now := BuriedTxn(w, c, j, x, k, k);
            now.from == Some(x) && now.fromParent == w.fromParent && (now.toThread == w.toThread || now.toThread == None)
    ensures j + 1 < |c.actors| ==> w.toThread != Some(x)
  {
  }

  /** An open leaf waits for someone other than its caller. */
  lemma LastMade(s: World, x: Tid, u: TxnId)
    requires QueuesOk(s) && OpenOk(s.graph, s.at, {}) && CallsOk(s.txns, s.graph) && GraphOk(s.graph)
    requires Leaf(s.graph, u) && u in s.txns && s.txns[u].from == Some(x)
    ensures s.txns[u].toThread != Some(x)
  {
    assert u in s.at;
    assert QueuedOk(s, u);
    LeafOk(s.txns, s.graph, s.graph.home[u].root);
  }

  lemma BuriedMade(s: World, x: Tid, k: nat, j: nat)
    requires GraphOk(s.graph) && OwnSeat(s.graph, x, j) && j < |s.graph.chains[s.graph.seat[x]].txns| && j < k
    requires k <= |s.graph.chains[s.graph.seat[x]].actors|
    requires forall i :: j < i < k ==> s.graph.chains[s.graph.seat[x]].actors[i] != Some(x)
    requires s.graph.chains[s.graph.seat[x]].txns[j] in s.txns
    ensures var u, kt := s.graph.chains[s.graph.seat[x]].txns[j], if j == 0 then 0 else j + 1;
            var now := Buried(s.txns, s.graph, x, k, k)[u];
            Buried(s.txns, s.graph, x, j, kt) == Buried(s.txns, s.graph, x, k, k)[u := now.(from := None)]
  {
    var g := s.graph;
    var u, kt := g.chains[g.seat[x]].txns[j], if j == 0 then 0 else j + 1;
    assert ChainOk(g, g.seat[x]);
    forall t | t in s.txns && t != u ensures Buried(s.txns, g, x, j, kt)[t] == Buried(s.txns, g, x, k, k)[t] {
      if Beside(g, x, t) {
        assert HomeOk(g, t);
      }
    }
  }

  /** One step of the walk: the call it stands at is served by `x`, or else made by `x`. */
  lemma WalkStep(s: World, x: Tid, u: TxnId, kf: nat, kt: nat) returns (kf': nat, kt': nat)
    requires Good(s, {}) && GraphOk(s.graph) && CallsOk(s.txns, s.graph) && WalkAt(s.graph, x, Some(u), kf, kt)
    ensures kf' + kt' < kf + kt
    ensures u in s.txns
    ensures var now := Buried(s.txns, s.graph, x, kf, kt)[u];
            if now.toThread == Some(x) then
              && now.buffer == s.txns[u].buffer
              && Buried(s.txns, s.graph, x, kf', kt') ==
                   Buried(s.txns, s.graph, x, kf, kt)[u := now.(toThread := None, buffer := None)]
              && WalkAt(s.graph, x, now.toParent, kf', kt')
            else
              && now.from == Some(x)
              && Buried(s.txns, s.graph, x, kf', kt') == Buried(s.txns, s.graph, x, kf, kt)[u := now.(from := None)]
              && WalkAt(s.graph, x, now.fromParent, kf', kt')
  {
    hide Good, Buried, Placed;
    var c := s.graph.chains[s.graph.seat[x]];
    if kf == kt {
      var j := LastSeat(c.actors, x, kt).value;
      if j < |c.txns| {
        WalkMade(s, x, kt, j);
        return j, if j == 0 then 0 else j + 1;
      } else {
        WalkServed(s, x, kt, j);
        return j, j;
      }
    } else {
      WalkServed(s, x, kf, kf);
      return kf, kf;
    }
  }

  /** Untying the buffer of the call whose server is cleared. */
  lemma UntiedStep(txns: map<TxnId, Txn>, buffers: map<BufferId, Buffer>, now: map<TxnId, Txn>, u: TxnId, w: Txn)
    requires BuffersOk(txns, buffers) && now.Keys == txns.Keys && u in now
    requires forall t :: t in now ==> now[t].buffer == txns[t].buffer || now[t].buffer.None?
    requires now[u].buffer == txns[u].buffer && w.buffer.None?
    ensures Untied(buffers, now[u := w]) ==
              if now[u].buffer.Some? && now[u].buffer.value in buffers
              then Untied(buffers, now)[now[u].buffer.value := Untied(buffers, now)[now[u].buffer.value].(transaction := None)]
              else Untied(buffers, now)
    ensures now[u].buffer.Some? ==> now[u].buffer.value in buffers
  {
    assert TxnBuffer(txns, buffers, u);
    forall b | b in buffers && buffers[b].transaction.Some? ensures BufferTxn(txns, buffers, b) {
      assert BufferTxn(txns, buffers, b);
    }
  }

  /** Clearing a caller unties nothing. */
  lemma UntiedSame(buffers: map<BufferId, Buffer>, now: map<TxnId, Txn>, u: TxnId, w: Txn)
    requires u in now && w.buffer == now[u].buffer
    ensures Untied(buffers, now[u := w]) == Untied(buffers, now)
  {
  }

  lemma UntiedNone(txns: map<TxnId, Txn>, buffers: map<BufferId, Buffer>)
    requires BuffersOk(txns, buffers)
    ensures Untied(buffers, txns) == buffers
  {
    forall b | b in buffers ensures Untied(buffers, txns)[b] == buffers[b] {
      assert BufferTxn(txns, buffers, b);
    }
  }

  /** What is left after the thread's own call: the calls on its list. */
  lemma OrphanSplit(s: World, x: Tid)
    requires Good(s, {}) && x in s.threads && (x in s.graph.seat ==> s.graph.seat[x] in s.graph.chains)
    ensures Distinct(s.threads[x].todo) && forall t :: t in s.threads[x].todo ==> t in s.txns && t in Die(s, x).txns
    ensures forall t :: t in s.threads[x].todo ==> !Serving(s.graph, x, t)
    ensures forall t :: t in s.txns ==> t in Die(s, x).txns && Die(s, x).txns[t].kind == s.txns[t].kind
  {
    assert ThreadList(s.threads, s.at, x);
    forall t | t in s.threads[x].todo ensures t in s.txns && !Serving(s.graph, x, t) {
      assert QueuedOk(s, t);
      if Serving(s.graph, x, t) {
        ServingIsCall(s, x, t);
      }
    }
    BuriedKinds(s.txns, s.graph, x, 0, 0);
  }

  lemma ServingIsCall(s: World, x: Tid, t: TxnId)
    requires CallsOk(s.txns, s.graph) && Serving(s.graph, x, t)
    ensures t in s.txns && s.txns[t].kind.Call?
  {
    assert CallOk(s.txns, s.graph, t);
  }

  // ---- the work list of a process that goes away ----

  function NotOnProc(at: map<TxnId, Where>, p: Pid): map<TxnId, Where> {
    map t | t in at && at[t] != OnProc(p) :: at[t]
  }

  /** Process `p` is gone with its work list. */
  function Shut(s: World, p: Pid): World {
    s.(procs := s.procs - {p}, at := NotOnProc(s.at, p))
  }

  lemma ShutGood(s: World, p: Pid)
    requires Good(s, {}) && p in s.procs
    ensures Distinct(s.procs[p]) && forall t :: t in s.procs[p] ==> t in s.txns
    ensures Good(Shut(s, p), set t | t in s.procs[p] && t in s.txns && s.txns[t].kind.Call?)
  {
    hide GraphOk, BuffersOk, CallsOk, StacksOk, ErrorsOk, CallQueued;
    var s' := Shut(s, p);
    assert ProcList(s.procs, s.at, p);
    forall u | u in s.at ensures u in s.txns && (u in s'.at ==> QueuedOk(s', u)) {
      assert QueuedOk(s, u);
    }
    forall y | y in s'.threads ensures ThreadList(s'.threads, s'.at, y) {
      assert ThreadList(s.threads, s.at, y);
    }
    forall q | q in s'.procs ensures ProcList(s'.procs, s'.at, q) {
      assert ProcList(s.procs, s.at, q);
    }
    ShutOpen(s, p);
  }

  lemma ShutOpen(s: World, p: Pid)
    requires Good(s, {}) && p in s.procs
    ensures OpenOk(s.graph, NotOnProc(s.at, p), set t | t in s.procs[p] && t in s.txns && s.txns[t].kind.Call?)
  {
    hide BuffersOk, StacksOk, ErrorsOk, GraphOk, CallsOk, LeafOf, CanServe, Placed;
    assert ProcList(s.procs, s.at, p);
    var left := set t | t in s.procs[p] && t in s.txns && s.txns[t].kind.Call?;
    forall q | q in s.graph.chains && OpenChain(s.graph, q)
      ensures LeafOf(s.graph.chains[q]) in NotOnProc(s.at, p) || LeafOf(s.graph.chains[q]) in left
    {
      LeafOk(s.txns, s.graph, q);
    }
    forall t | t in left ensures Leaf(s.graph, t) && t !in NotOnProc(s.at, p) {
      assert QueuedOk(s, t);
      QueuedLeaf(s.graph, s.txns[t], t, s.at[t]);
    }
  }
}
