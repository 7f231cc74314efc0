/** How the pointers between threads and transactions follow the call chains. */
module Stacks {
  import opened Wrappers
  import opened Chains

  type Pid = nat
  type BufferId = nat

  /** `Unset` is a value that was never assigned and happens to be none of the others. */
  datatype Code = Ok | TransactionComplete | DeadReply | FailedReply | Unset(value: nat)

  datatype Kind = Call | Reply | OneWay

  datatype Txn = Txn(kind: Kind, from: Option<Tid>, fromParent: Option<TxnId>,
                     toThread: Option<Tid>, toParent: Option<TxnId>, buffer: Option<BufferId>)

  datatype Thread = Thread(proc: Pid, stack: Option<TxnId>, error: Code, error2: Code, todo: seq<TxnId>)

  /** The stack pointer the chains prescribe for thread `x`. */
  ghost function Stack(g: Graph, x: Tid): Option<TxnId> {
    if x in g.seat && g.seat[x] in g.chains && Shaped(g.chains[g.seat[x]])
    then Top(g.chains[g.seat[x]], x, |g.chains[g.seat[x]].actors|) else None
  }

  /** The fields of a call, given its place on chain `c`. */
  ghost predicate Placed(w: Txn, c: Chain, i: nat) {
    && Shaped(c) && i < |c.txns|
    && w.from == c.actors[i]
    && w.fromParent == (if i == 0 then None else Some(c.txns[i - 1]))
    && (i + 1 < |c.actors| ==>
          && w.toThread == c.actors[i + 1]
          && (c.actors[i + 1].Some? ==> w.toParent == Top(c, c.actors[i + 1].value, i + 1)))
  }

  ghost predicate CallOk(txns: map<TxnId, Txn>, g: Graph, t: TxnId) {
    && t in g.home && t in txns && g.home[t].root in g.chains
    && Placed(txns[t], g.chains[g.home[t].root], g.home[t].at)
  }

  ghost predicate CallsOk(txns: map<TxnId, Txn>, g: Graph) {
    && (forall t :: t in g.home ==> CallOk(txns, g, t))
    && (forall t :: t in txns && txns[t].kind.Call? <==> t in g.home)
  }

  ghost predicate StacksOk(threads: map<Tid, Thread>, g: Graph) {
    && (forall x :: x in threads ==> threads[x].stack == Stack(g, x))
    && (forall x :: x in g.seat ==> x in threads)
  }

  // ---- what a stack pointer says ----

  /** Two chains that agree below seat `n` prescribe the same pointer there. */
  lemma TopAgrees(c: Chain, d: Chain, x: Tid, n: nat)
    requires Shaped(c) && Shaped(d) && n <= |c.actors| && n <= |d.actors|
    requires forall i :: 0 <= i < n ==> (c.actors[i] == Some(x) <==> d.actors[i] == Some(x))
    requires |c.txns| == |d.txns| || (n <= |c.txns| && n <= |d.txns|)
    requires forall i :: 0 <= i < n && i < |c.txns| ==> c.txns[i] == d.txns[i]
    ensures Top(c, x, n) == Top(d, x, n)
  {
    LastSeatPrefix(c.actors, d.actors, x, n);
  }

  /** The stack of a thread is the leaf it serves exactly when it holds the last seat. */
  lemma StackTop(g: Graph, x: Tid)
    requires GraphOk(g)
    ensures Stack(g, x).None? <==> x !in g.seat
    ensures x in g.seat ==>
              && g.seat[x] in g.chains && ChainOk(g, g.seat[x]) && Stack(g, x).value in g.home
              && g.home[Stack(g, x).value].root == g.seat[x]
              && var c, i := g.chains[g.seat[x]], g.home[Stack(g, x).value].at;
                 && i < |c.txns| && c.txns[i] == Stack(g, x).value
                 && (ServesLeaf(c, x) ==> i == |c.txns| - 1)
                 && (!ServesLeaf(c, x) ==> c.actors[i] == Some(x) && forall j :: i < j < |c.actors| ==> c.actors[j] != Some(x))
  {
    if x in g.seat {
      assert SeatOk(g, x);
      var c := g.chains[g.seat[x]];
      assert ChainOk(g, g.seat[x]);
      var k := LastSeat(c.actors, x, |c.actors|).value;
      assert Closed(c) && k == |c.txns| ==> ServesLeaf(c, x);
      assert c.txns[if k < |c.txns| then k else k - 1] in g.home;
    }
  }

  // ---- each move ----

  ghost predicate CanExtend(g: Graph, x: Tid, t: TxnId) {
    && t !in g.home
    && (x in g.seat ==> g.seat[x] in g.chains && ServesLeaf(g.chains[g.seat[x]], x))
  }

  lemma ExtendCalls(txns: map<TxnId, Txn>, g: Graph, x: Tid, t: TxnId, w: Txn)
    requires GraphOk(g) && CallsOk(txns, g) && t !in txns && CanExtend(g, x, t)
    requires w.kind.Call? && w.from == Some(x) && w.fromParent == Stack(g, x)
    ensures CallsOk(txns[t := w], Extend(g, x, t))
  {
    hide GraphOk, Placed, Stack;
    var h := Extend(g, x, t);
    assert t in h.home && h.home.Keys == g.home.Keys + {t};
    forall u | u in h.home ensures CallOk(txns[t := w], h, u) {
      ExtendCall(txns, g, x, t, w, u);
    }
  }

  lemma ExtendCall(txns: map<TxnId, Txn>, g: Graph, x: Tid, t: TxnId, w: Txn, u: TxnId)
    requires GraphOk(g) && CallsOk(txns, g) && t !in txns && CanExtend(g, x, t) && u in Extend(g, x, t).home
    requires w.from == Some(x) && w.fromParent == Stack(g, x)
    ensures CallOk(txns[t := w], Extend(g, x, t), u)
  {
    if u != t {
      assert CallOk(txns, g, u) && HomeOk(g, u);
      ExtendPlaced(g, x, t, txns[u], u);
    } else {
      ExtendNew(g, x, t, w);
    }
  }

  lemma ExtendNew(g: Graph, x: Tid, t: TxnId, w: Txn)
    requires GraphOk(g) && CanExtend(g, x, t)
    requires w.from == Some(x) && w.fromParent == Stack(g, x)
    ensures var h := Extend(g, x, t);
            t in h.home && h.home[t].root in h.chains && Placed(w, h.chains[h.home[t].root], h.home[t].at)
  {
    StackTop(g, x);
    if x in g.seat {
      assert ChainOk(g, g.seat[x]);
    }
  }

  /** Making a call pushes it on the caller's stack and leaves every other stack alone. */
  lemma ExtendStacks(threads: map<Tid, Thread>, g: Graph, x: Tid, t: TxnId)
    requires GraphOk(g) && StacksOk(threads, g) && x in threads && CanExtend(g, x, t)
    ensures StacksOk(threads[x := threads[x].(stack := Some(t))], Extend(g, x, t))
  {
    forall y | y in threads ensures Stack(Extend(g, x, t), y) == if y == x then Some(t) else Stack(g, y) {
      ExtendStack(g, x, t, y);
    }
  }

  lemma ExtendPlaced(g: Graph, x: Tid, t: TxnId, w: Txn, u: TxnId)
    requires GraphOk(g) && u in g.home && HomeOk(g, u) && u != t && CanExtend(g, x, t)
    requires Placed(w, g.chains[g.home[u].root], g.home[u].at)
    ensures g.home[u].root in Extend(g, x, t).chains
    ensures Placed(w, Extend(g, x, t).chains[g.home[u].root], g.home[u].at)
  {
    var r, i := g.home[u].root, g.home[u].at;
    RootHome(g, r);
    var c, d := g.chains[r], Extend(g, x, t).chains[r];
    if i + 1 < |c.actors| && c.actors[i + 1].Some? {
      TopAgrees(c, d, c.actors[i + 1].value, i + 1);
    }
  }

  lemma ExtendStack(g: Graph, x: Tid, t: TxnId, y: Tid)
    requires GraphOk(g) && CanExtend(g, x, t)
    ensures Stack(Extend(g, x, t), y) == if y == x then Some(t) else Stack(g, y)
  {
    if y in g.seat {
      assert SeatOk(g, y);
      RootHome(g, g.seat[y]);
      assert ChainOk(g, g.seat[y]);
    }
    if y == x {
      ExtendSelf(g, x, t);
    } else {
      ExtendElsewhere(g, x, t, y);
    }
  }

  lemma ExtendSelf(g: Graph, x: Tid, t: TxnId)
    requires CanExtend(g, x, t)
    ensures Stack(Extend(g, x, t), x) == Some(t)
  {
    var h := Extend(g, x, t);
    var d := h.chains[h.seat[x]];
    assert d.actors[|d.actors| - 1] == Some(x);
  }

  lemma ExtendElsewhere(g: Graph, x: Tid, t: TxnId, y: Tid)
    requires CanExtend(g, x, t) && y != x
    requires y in g.seat ==> g.seat[y] in g.chains && g.seat[y] != t && Shaped(g.chains[g.seat[y]])
    ensures Stack(Extend(g, x, t), y) == Stack(g, y)
  {
    if x in g.seat && y in g.seat && g.seat[y] == g.seat[x] {
      var c := g.chains[g.seat[y]];
      LastSeatPrefix(c.actors, Extend(g, x, t).chains[g.seat[y]].actors, y, |c.actors|);
    }
  }

  // ---- a call is taken up ----

  ghost predicate CanServe(g: Graph, r: TxnId, x: Tid) {
    && OpenChain(g, r)
    && (x in g.seat ==> g.seat[x] == r)
    && g.chains[r].actors[|g.chains[r].txns| - 1] != Some(x)
  }

  function LeafOf(c: Chain): TxnId
    requires Shaped(c)
  {
    c.txns[|c.txns| - 1]
  }

  /** Taking up the leaf of chain `r` records the server and the server's stack in it. */
  lemma ServeCalls(txns: map<TxnId, Txn>, g: Graph, r: TxnId, x: Tid)
    requires GraphOk(g) && CallsOk(txns, g) && CanServe(g, r, x)
    ensures LeafOf(g.chains[r]) in txns
    ensures var t := LeafOf(g.chains[r]);
            CallsOk(txns[t := txns[t].(toParent := Stack(g, x), toThread := Some(x))], Serve(g, r, x))
  {
    hide GraphOk, Placed, Stack;
    var t, h := LeafOf(g.chains[r]), Serve(g, r, x);
    LeafOk(txns, g, r);
    var w := txns[t].(toParent := Stack(g, x), toThread := Some(x));
    forall u | u in h.home ensures CallOk(txns[t := w], h, u) {
      ServeCall(txns, g, r, x, u);
    }
  }

  lemma ServeCall(txns: map<TxnId, Txn>, g: Graph, r: TxnId, x: Tid, u: TxnId)
    requires GraphOk(g) && CallsOk(txns, g) && CanServe(g, r, x) && u in g.home && LeafOf(g.chains[r]) in txns
    ensures var t := LeafOf(g.chains[r]);
            CallOk(txns[t := txns[t].(toParent := Stack(g, x), toThread := Some(x))], Serve(g, r, x), u)
  {
    assert ChainOk(g, r);
    assert CallOk(txns, g, u) && HomeOk(g, u);
    if u == LeafOf(g.chains[r]) {
      ServeLeafPlaced(g, r, x, txns[u]);
    } else {
      ServePlaced(g, r, x, txns[u], u);
    }
  }

  lemma ServeLeafPlaced(g: Graph, r: TxnId, x: Tid, w: Txn)
    requires GraphOk(g) && CanServe(g, r, x) && Placed(w, g.chains[r], |g.chains[r].txns| - 1)
    ensures Placed(w.(toParent := Stack(g, x), toThread := Some(x)), Serve(g, r, x).chains[r], |g.chains[r].txns| - 1)
  {
    var c, d := g.chains[r], Serve(g, r, x).chains[r];
    TopAgrees(c, d, x, |c.actors|);
    if x !in g.seat {
      assert ChainOk(g, r);
      assert Some(x) !in c.actors;
    }
  }

  lemma ServePlaced(g: Graph, r: TxnId, x: Tid, w: Txn, u: TxnId)
    requires CanServe(g, r, x) && u in g.home && HomeOk(g, u) && u != LeafOf(g.chains[r])
    requires Placed(w, g.chains[g.home[u].root], g.home[u].at)
    ensures Placed(w, Serve(g, r, x).chains[g.home[u].root], g.home[u].at)
  {
    var q, i := g.home[u].root, g.home[u].at;
    var c, d := g.chains[q], Serve(g, r, x).chains[q];
    if i + 1 < |c.actors| && c.actors[i + 1].Some? {
      TopAgrees(c, d, c.actors[i + 1].value, i + 1);
    }
  }

  lemma ServeStacks(threads: map<Tid, Thread>, g: Graph, r: TxnId, x: Tid)
    requires GraphOk(g) && StacksOk(threads, g) && x in threads && CanServe(g, r, x)
    ensures StacksOk(threads[x := threads[x].(stack := Some(LeafOf(g.chains[r])))], Serve(g, r, x))
  {
    forall y | y in threads
      ensures Stack(Serve(g, r, x), y) == if y == x then Some(LeafOf(g.chains[r])) else Stack(g, y)
    {
      ServeStack(g, r, x, y);
    }
  }

  lemma ServeStack(g: Graph, r: TxnId, x: Tid, y: Tid)
    requires GraphOk(g) && CanServe(g, r, x)
    ensures Stack(Serve(g, r, x), y) == if y == x then Some(LeafOf(g.chains[r])) else Stack(g, y)
  {
    assert ChainOk(g, r);
    var c, d := g.chains[r], Serve(g, r, x).chains[r];
    if y == x {
      assert d.actors[|d.actors| - 1] == Some(x);
    } else if y in g.seat && g.seat[y] == r {
      LastSeatPrefix(c.actors, d.actors, y, |c.actors|);
    }
  }

  // ---- a call is handed back ----

  /** The server of the leaf pops it: its stack becomes what the leaf recorded. */
  lemma ReturnCalls(txns: map<TxnId, Txn>, g: Graph, r: TxnId)
    requires GraphOk(g) && CallsOk(txns, g) && r in g.chains && ChainOk(g, r) && Closed(g.chains[r])
    ensures CallsOk(txns, Return(g, r))
    ensures LeafOf(g.chains[r]) in txns && LeafOf(g.chains[r]) in g.home
    ensures txns[LeafOf(g.chains[r])].toThread == g.chains[r].actors[|g.chains[r].txns|]
  {
    var h := Return(g, r);
    forall u | u in h.home ensures CallOk(txns, h, u) {
      assert CallOk(txns, g, u) && HomeOk(g, u);
      ReturnPlaced(g, r, txns[u], u);
    }
    assert CallOk(txns, g, LeafOf(g.chains[r]));
  }

  lemma ReturnPlaced(g: Graph, r: TxnId, w: Txn, u: TxnId)
    requires GraphOk(g) && r in g.chains && ChainOk(g, r) && Closed(g.chains[r])
    requires u in g.home && HomeOk(g, u) && Placed(w, g.chains[g.home[u].root], g.home[u].at)
    ensures Placed(w, Return(g, r).chains[g.home[u].root], g.home[u].at)
  {
    var q, i := g.home[u].root, g.home[u].at;
    var c, d := g.chains[q], Return(g, r).chains[q];
    if i + 1 < |d.actors| && d.actors[i + 1].Some? {
      TopAgrees(c, d, d.actors[i + 1].value, i + 1);
    }
  }

  lemma LeafOk(txns: map<TxnId, Txn>, g: Graph, r: TxnId)
    requires GraphOk(g) && CallsOk(txns, g) && r in g.chains
    ensures Shaped(g.chains[r]) && LeafOf(g.chains[r]) in txns && LeafOf(g.chains[r]) in g.home
    ensures g.home[LeafOf(g.chains[r])] == Place(r, |g.chains[r].txns| - 1)
    ensures txns[LeafOf(g.chains[r])].kind.Call?
    ensures Placed(txns[LeafOf(g.chains[r])], g.chains[r], |g.chains[r].txns| - 1)
  {
    assert ChainOk(g, r);
    assert CallOk(txns, g, LeafOf(g.chains[r]));
  }

  lemma ReturnStacksTo(threads: map<Tid, Thread>, g: Graph, r: TxnId, x: Tid, w: Txn)
    requires GraphOk(g) && StacksOk(threads, g) && x in threads
    requires r in g.chains && ChainOk(g, r) && ServesLeaf(g.chains[r], x)
    requires Placed(w, g.chains[r], |g.chains[r].txns| - 1)
    ensures StacksOk(threads[x := threads[x].(stack := w.toParent)], Return(g, r))
  {
    hide GraphOk, ChainOk, Stack, Placed;
    ReturnSeats(g, r);
    forall y | y in threads ensures Stack(Return(g, r), y) == if y == x then w.toParent else Stack(g, y) {
      ReturnStack(g, r, x, y, w);
    }
  }

  lemma ReturnSeats(g: Graph, r: TxnId)
    requires r in g.chains && ChainOk(g, r) && Closed(g.chains[r])
    ensures Return(g, r).seat.Keys <= g.seat.Keys
  {
  }

  lemma ReturnStack(g: Graph, r: TxnId, x: Tid, y: Tid, w: Txn)
    requires GraphOk(g) && r in g.chains && ChainOk(g, r) && ServesLeaf(g.chains[r], x)
    requires Placed(w, g.chains[r], |g.chains[r].txns| - 1)
    ensures Stack(Return(g, r), y) == if y == x then w.toParent else Stack(g, y)
  {
    var c := g.chains[r];
    if y == x {
      assert c.actors[|c.txns|] in c.actors;
      ReturnServer(c, x, w);
    } else if y in g.seat && g.seat[y] == r {
      ReturnElsewhere(c, x, y);
    }
  }

  function Returned(c: Chain): Chain
    requires Shaped(c)
  {
    Chain(c.txns, c.actors[..|c.txns|])
  }

  lemma ReturnServer(c: Chain, x: Tid, w: Txn)
    requires ServesLeaf(c, x) && Placed(w, c, |c.txns| - 1)
    ensures Top(Returned(c), x, |c.txns|) == w.toParent
    ensures Some(x) !in Returned(c).actors ==> w.toParent == None
  {
    TopAgrees(c, Returned(c), x, |c.txns|);
  }

  lemma ReturnElsewhere(c: Chain, x: Tid, y: Tid)
    requires ServesLeaf(c, x) && y != x
    ensures Top(Returned(c), y, |c.txns|) == Top(c, y, |c.actors|)
  {
    LastSeatPrefix(c.actors, Returned(c).actors, y, |c.txns|);
    assert LastSeat(c.actors, y, |c.actors|) == LastSeat(c.actors, y, |c.txns|);
  }

  // ---- a leaf is popped ----

  lemma PopLeafCalls(txns: map<TxnId, Txn>, g: Graph, r: TxnId)
    requires GraphOk(g) && CallsOk(txns, g) && OpenChain(g, r)
    ensures CallsOk(txns - {LeafOf(g.chains[r])}, PopLeaf(g, r))
  {
    LeafOk(txns, g, r);
    var t, h := LeafOf(g.chains[r]), PopLeaf(g, r);
    forall u | u in h.home ensures CallOk(txns - {t}, h, u) {
      PopLeafCall(txns, g, r, u);
    }
  }

  lemma PopLeafCall(txns: map<TxnId, Txn>, g: Graph, r: TxnId, u: TxnId)
    requires GraphOk(g) && CallsOk(txns, g) && OpenChain(g, r) && u in PopLeaf(g, r).home
    ensures CallOk(txns - {LeafOf(g.chains[r])}, PopLeaf(g, r), u)
  {
    hide Placed;
    assert ChainOk(g, r);
    assert CallOk(txns, g, u) && HomeOk(g, u);
    hide GraphOk, CallsOk;
    PopLeafStays(g, r, u, txns[u]);
  }

  lemma PopLeafStays(g: Graph, r: TxnId, u: TxnId, w: Txn)
    requires OpenChain(g, r) && ChainOk(g, r) && u in PopLeaf(g, r).home && HomeOk(g, u)
    requires Placed(w, g.chains[g.home[u].root], g.home[u].at)
    ensures u != LeafOf(g.chains[r]) && g.home[u].root in PopLeaf(g, r).chains
    ensures Placed(w, PopLeaf(g, r).chains[g.home[u].root], g.home[u].at)
  {
    hide Placed;
    if g.home[u].root == r {
      PopLeafPlaced(g, r, w, g.home[u].at);
    }
  }

  lemma PopLeafPlaced(g: Graph, r: TxnId, w: Txn, i: nat)
    requires OpenChain(g, r) && i < |g.chains[r].txns| - 1 && Placed(w, g.chains[r], i)
    ensures r in PopLeaf(g, r).chains && Placed(w, PopLeaf(g, r).chains[r], i)
  {
    var c, d := g.chains[r], PopLeaf(g, r).chains[r];
    if c.actors[i + 1].Some? {
      TopAgrees(c, d, c.actors[i + 1].value, i + 1);
    }
  }

  /** Popping the leaf gives a live caller back the stack it had before the call. */
  lemma PopLeafStacks(threads: map<Tid, Thread>, g: Graph, r: TxnId, w: Txn)
    requires GraphOk(g) && StacksOk(threads, g) && OpenChain(g, r)
    requires Placed(w, g.chains[r], |g.chains[r].txns| - 1)
    ensures w.from.Some? ==> w.from.value in threads
    ensures w.from.Some? ==> threads[w.from.value].stack == Some(LeafOf(g.chains[r]))
    ensures StacksOk(WithPopped(threads, w), PopLeaf(g, r))
  {
    hide GraphOk, Stack, Placed;
    PopLeafSeats(g, r);
    PopLeafFrom(g, r, w);
    if w.from.Some? {
      PopLeafStack(g, r, w.from.value, w);
    }
    forall y | y in threads ensures Stack(PopLeaf(g, r), y) == if w.from == Some(y) then w.fromParent else Stack(g, y) {
      PopLeafStack(g, r, y, w);
    }
  }

  lemma PopLeafSeats(g: Graph, r: TxnId)
    requires OpenChain(g, r)
    ensures PopLeaf(g, r).seat.Keys <= g.seat.Keys
  {
  }

  lemma PopLeafFrom(g: Graph, r: TxnId, w: Txn)
    requires GraphOk(g) && OpenChain(g, r) && Placed(w, g.chains[r], |g.chains[r].txns| - 1)
    ensures w.from.Some? ==> w.from.value in g.seat && g.seat[w.from.value] == r
  {
    assert ChainOk(g, r);
    assert g.chains[r].actors[|g.chains[r].txns| - 1] in g.chains[r].actors;
  }

  function WithPopped(threads: map<Tid, Thread>, w: Txn): map<Tid, Thread> {
    if w.from.Some? && w.from.value in threads
    then threads[w.from.value := threads[w.from.value].(stack := w.fromParent)] else threads
  }

  lemma PopLeafStack(g: Graph, r: TxnId, y: Tid, w: Txn)
    requires GraphOk(g) && OpenChain(g, r) && Placed(w, g.chains[r], |g.chains[r].txns| - 1)
    ensures Stack(PopLeaf(g, r), y) == if w.from == Some(y) then w.fromParent else Stack(g, y)
    ensures w.from == Some(y) ==> Stack(g, y) == Some(LeafOf(g.chains[r])) && y in g.seat
  {
    assert ChainOk(g, r);
    if w.from == Some(y) {
      PopLeafFrom(g, r, w);
      PopLeafCaller(g, r, y, w);
    } else if y in g.seat && g.seat[y] == r {
      assert SeatOk(g, y);
      hide GraphOk, ChainOk, Placed;
      PopLeafElsewhere(g, r, y, w);
    }
  }

  lemma PopLeafCaller(g: Graph, r: TxnId, y: Tid, w: Txn)
    requires OpenChain(g, r) && ChainOk(g, r) && Placed(w, g.chains[r], |g.chains[r].txns| - 1)
    requires w.from == Some(y) && y in g.seat && g.seat[y] == r
    ensures Stack(PopLeaf(g, r), y) == w.fromParent
    ensures Stack(g, y) == Some(LeafOf(g.chains[r]))
  {
    var c := g.chains[r];
    assert LastSeat(c.actors, y, |c.actors|) == Some(|c.txns| - 1);
  }

  lemma PopLeafElsewhere(g: Graph, r: TxnId, y: Tid, w: Txn)
    requires OpenChain(g, r) && Placed(w, g.chains[r], |g.chains[r].txns| - 1) && w.from != Some(y)
    requires Some(y) in g.chains[r].actors
    ensures var h := PopLeaf(g, r);
            && r in h.chains && Shaped(h.chains[r])
            && Top(h.chains[r], y, |h.chains[r].actors|) == Top(g.chains[r], y, |g.chains[r].actors|)
  {
    var c, n := g.chains[r], |g.chains[r].txns| - 1;
    var k :| 0 <= k < |c.actors| && c.actors[k] == Some(y);
    assert k < n;
    var d := PopLeaf(g, r).chains[r];
    LastSeatPrefix(c.actors, d.actors, y, n);
    assert LastSeat(c.actors, y, n + 1) == LastSeat(c.actors, y, n);
  }

  // ---- a thread dies ----

  /** A call at place `i` once the dead thread's name is gone from the callers at places `kf` and up
      and from the servers at seats `kt` and up. */
  function BuriedTxn(w: Txn, c: Chain, i: nat, x: Tid, kf: nat, kt: nat): Txn
    requires Shaped(c) && i < |c.txns|
  {
    var w' := if kf <= i && c.actors[i] == Some(x) then w.(from := None) else w;
    if i + 1 < |c.actors| && kt <= i + 1 && c.actors[i + 1] == Some(x)
    then w'.(toThread := None, buffer := None) else w'
  }

  /** Is call `t` on the chain of thread `x`? */
  ghost predicate Beside(g: Graph, x: Tid, t: TxnId) {
    && x in g.seat && t in g.home && g.home[t].root == g.seat[x]
    && g.seat[x] in g.chains && Shaped(g.chains[g.seat[x]]) && g.home[t].at < |g.chains[g.seat[x]].txns|
  }

  ghost function Buried(txns: map<TxnId, Txn>, g: Graph, x: Tid, kf: nat, kt: nat): map<TxnId, Txn> {
    map t | t in txns :: if Beside(g, x, t) then BuriedTxn(txns[t], g.chains[g.seat[x]], g.home[t].at, x, kf, kt) else txns[t]
  }

  lemma BuryCalls(txns: map<TxnId, Txn>, g: Graph, x: Tid)
    requires GraphOk(g) && CallsOk(txns, g)
    requires x in g.seat ==> g.seat[x] in g.chains
    ensures CallsOk(Buried(txns, g, x, 0, 0), Bury(g, x))
  {
    var h := Bury(g, x);
    assert h.home == g.home;
    forall u | u in g.home ensures CallOk(Buried(txns, g, x, 0, 0), h, u) {
      BuryCall(txns, g, x, u);
    }
    BuriedKinds(txns, g, x, 0, 0);
  }

  lemma BuriedKinds(txns: map<TxnId, Txn>, g: Graph, x: Tid, kf: nat, kt: nat)
    ensures Buried(txns, g, x, kf, kt).Keys == txns.Keys
    ensures forall t :: t in txns ==> Buried(txns, g, x, kf, kt)[t].kind == txns[t].kind
  {
  }

  lemma BuryCall(txns: map<TxnId, Txn>, g: Graph, x: Tid, u: TxnId)
    requires GraphOk(g) && CallsOk(txns, g) && u in g.home
    requires x in g.seat ==> g.seat[x] in g.chains
    ensures CallOk(Buried(txns, g, x, 0, 0), Bury(g, x), u)
  {
    assert CallOk(txns, g, u) && HomeOk(g, u);
    var q, i := g.home[u].root, g.home[u].at;
    assert ChainOk(g, q);
    if x in g.seat && g.seat[x] == q {
      BuryPlaced(g, x, txns[u], i);
    }
  }

  lemma BuryPlaced(g: Graph, x: Tid, w: Txn, i: nat)
    requires x in g.seat && g.seat[x] in g.chains && Placed(w, g.chains[g.seat[x]], i)
    ensures Placed(BuriedTxn(w, g.chains[g.seat[x]], i, x, 0, 0), Bury(g, x).chains[g.seat[x]], i)
  {
    var c, d := g.chains[g.seat[x]], Bury(g, x).chains[g.seat[x]];
    if i + 1 < |d.actors| && d.actors[i + 1].Some? {
      TopAgrees(c, d, d.actors[i + 1].value, i + 1);
    }
  }

  lemma BuryStacks(threads: map<Tid, Thread>, g: Graph, x: Tid)
    requires GraphOk(g) && StacksOk(threads, g)
    requires x in g.seat ==> g.seat[x] in g.chains
    ensures StacksOk(threads - {x}, Bury(g, x))
  {
    hide GraphOk, Stack;
    BurySeats(g, x);
    forall y | y in threads && y != x ensures Stack(Bury(g, x), y) == Stack(g, y) {
      BuryStack(g, x, y);
    }
  }

  lemma BurySeats(g: Graph, x: Tid)
    requires x in g.seat ==> g.seat[x] in g.chains
    ensures Bury(g, x).seat == g.seat - {x}
  {
  }

  lemma BuryStack(g: Graph, x: Tid, y: Tid)
    requires GraphOk(g) && y != x && (x in g.seat ==> g.seat[x] in g.chains)
    ensures Stack(Bury(g, x), y) == Stack(g, y)
  {
    if x in g.seat && y in g.seat && g.seat[y] == g.seat[x] {
      assert ChainOk(g, g.seat[x]);
      BuryElsewhere(g, x, y);
    }
  }

  lemma BuryElsewhere(g: Graph, x: Tid, y: Tid)
    requires y != x && x in g.seat && g.seat[x] in g.chains && Shaped(g.chains[g.seat[x]])
    ensures var c, d := g.chains[g.seat[x]], Bury(g, x).chains[g.seat[x]];
            Shaped(d) && Top(d, y, |d.actors|) == Top(c, y, |c.actors|)
  {
    var c, d := g.chains[g.seat[x]], Bury(g, x).chains[g.seat[x]];
    LastSeatPrefix(c.actors, d.actors, y, |d.actors|);
  }
}
