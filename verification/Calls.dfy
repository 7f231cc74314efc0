/** Transactions between threads: sending, taking up, replying, failing, and the death of a thread. */
module Calls {
  import opened Wrappers
  import opened Chains
  import opened Stacks
  import opened States
  import opened Popping
  import opened Lists
  import opened Transactions
  import opened Deaths
  import opened Failures
  import opened Runs
  import opened RunSteps
  import opened Lines

  // ---- whom a call goes to ----

  /** The thread of process `p` that is furthest up the chain, among the callers of the first `n` calls. */
  function Furthest(threads: map<Tid, Thread>, actors: seq<Option<Tid>>, p: Pid, n: nat): Option<Tid>
    requires n <= |actors|
  {
    if n == 0 then None else
    var rest := Furthest(threads, actors, p, n - 1);
    if rest.Some? then rest else if In(threads, actors[n - 1], p) then actors[n - 1] else None
  }

  predicate In(threads: map<Tid, Thread>, x: Option<Tid>, p: Pid) {
    x.Some? && x.value in threads && threads[x.value].proc == p
  }

  lemma {:induction false} FurthestIs(threads: map<Tid, Thread>, actors: seq<Option<Tid>>, p: Pid, n: nat)
    requires n <= |actors|
    ensures match Furthest(threads, actors, p, n)
            case Some(x) =>
              exists i :: 0 <= i < n && actors[i] == Some(x) && In(threads, actors[i], p)
                          && forall j :: 0 <= j < i ==> !In(threads, actors[j], p)
            case None => forall j :: 0 <= j < n ==> !In(threads, actors[j], p)
  {
    if n > 0 {
      FurthestIs(threads, actors, p, n - 1);
    }
  }

  lemma FurthestStep(threads: map<Tid, Thread>, actors: seq<Option<Tid>>, p: Pid, n: nat)
    requires n <= |actors|
    ensures n == 0 ==> Furthest(threads, actors, p, n).None?
    ensures n > 0 ==>
              Furthest(threads, actors, p, n) ==
                if Furthest(threads, actors, p, n - 1).Some? then Furthest(threads, actors, p, n - 1)
                else if In(threads, actors[n - 1], p) then actors[n - 1] else None
  {
  }

  /** The thread a call from `x` to process `p` goes to, if `x` is serving a call. */
  ghost function Chosen(threads: map<Tid, Thread>, g: Graph, x: Tid, p: Pid): Option<Tid> {
    if x in g.seat && g.seat[x] in g.chains && Shaped(g.chains[g.seat[x]])
    then Furthest(threads, g.chains[g.seat[x]].actors, p, |g.chains[g.seat[x]].txns|) else None
  }

  /** The top of a stack is a call; the thread serves it exactly when the call says so. */
  lemma TopOfStack(s: World, x: Tid)
    requires Good(s, {}) && x in s.threads
    ensures s.threads[x].stack.None? <==> x !in s.graph.seat
    ensures s.threads[x].stack.Some? ==>
              && var t := s.threads[x].stack.value;
                 && t in s.txns && s.txns[t].kind.Call?
                 && (s.txns[t].toThread == Some(x) <==> Serving(s.graph, x, t))
                 && (Serving(s.graph, x, t) <==> s.graph.seat[x] in s.graph.chains && ServesLeaf(s.graph.chains[s.graph.seat[x]], x))
                 && (Serving(s.graph, x, t) ==> s.graph.home[t].root == s.graph.seat[x])
  {
    StackTop(s.graph, x);
    if x in s.graph.seat {
      var t := s.threads[x].stack.value;
      CallHere(s, t);
      var c := s.graph.chains[s.graph.seat[x]];
      if !ServesLeaf(c, x) && s.graph.home[t].at == |c.actors| - 1 {
        LastMade(s, x, t);
      }
    }
  }

  /** A thread that serves a call has the leaf of its chain on top of its stack. */
  lemma SearchStart(s: World, x: Tid, p: Pid)
    requires Good(s, {}) && x in s.threads && s.threads[x].stack.Some? && Serving(s.graph, x, s.threads[x].stack.value)
    ensures GraphOk(s.graph) && CallsOk(s.txns, s.graph) && StacksOk(s.threads, s.graph)
    ensures x in s.graph.seat && s.graph.seat[x] in s.graph.chains && Shaped(s.graph.chains[s.graph.seat[x]])
    ensures var c := s.graph.chains[s.graph.seat[x]];
            |c.txns| > 0 && |c.txns| <= |c.actors| && s.threads[x].stack == Some(c.txns[|c.txns| - 1])
            && Chosen(s.threads, s.graph, x, p) == Furthest(s.threads, c.actors, p, |c.txns|)
  {
    TopOfStack(s, x);
  }

  // ---- the parts of a step ----

  /** `SendFailedReply` on each call of `ts` in turn; other transactions are dropped. */
  ghost function FailAll(s: World, ts: seq<TxnId>, code: Code): World
    decreases |ts|
  {
    if ts == [] then s
    else FailAll(if ts[0] in s.txns && Leaf(s.graph, ts[0]) then Fail(s, ts[0], code) else s, ts[1..], code)
  }

  ghost function CallsIn(s: World, ts: seq<TxnId>): set<TxnId> {
    set t | t in ts && t in s.txns && s.txns[t].kind.Call?
  }

  ghost function WithError(s: World, x: Tid, code: Code): World
    requires x in s.threads
  {
    s.(threads := s.threads[x := s.threads[x].(error := code)])
  }

  lemma WithErrorGood(s: World, pending: set<TxnId>, x: Tid, code: Code)
    requires Good(s, pending) && x in s.threads && s.threads[x].error == Ok
    ensures s.threads[x].error2 == Ok
    ensures Good(WithError(s, x, code), pending)
  {
    hide Good;
    SlotsOf(s, pending, x);
    SlotsGood(s, pending, x, s.threads[x].(error := code));
  }

  lemma SlotsOf(s: World, pending: set<TxnId>, x: Tid)
    requires Good(s, pending) && x in s.threads
    ensures SlotsOk(s.threads, s.txns, x)
  {
    hide SlotsOk;
  }

  /** Before `ts` is released: its first call can be failed, and the rest stays to be released. */
  lemma ReleaseStep(s: World, ts: seq<TxnId>)
    requires ts != [] && Distinct(ts) && Good(s, CallsIn(s, ts)) && forall t :: t in ts ==> t in s.txns
    ensures FailAll(s, ts, DeadReply) ==
              FailAll(if s.txns[ts[0]].kind.Call? && Leaf(s.graph, ts[0]) then Fail(s, ts[0], DeadReply) else s, ts[1..], DeadReply)
    ensures s.txns[ts[0]].kind.Call? ==>
              && ts[0] in CallsIn(s, ts) && Leaf(s.graph, ts[0])
              && CallsIn(Fail(s, ts[0], DeadReply), ts[1..]) == CallsIn(s, ts) - {ts[0]}
              && forall t :: t in ts[1..] ==> t in Fail(s, ts[0], DeadReply).txns
    ensures !s.txns[ts[0]].kind.Call? ==> CallsIn(s, ts[1..]) == CallsIn(s, ts) && !Leaf(s.graph, ts[0])
  {
    hide Good, Fail;
    RestOf(ts);
    var t := ts[0];
    LeafCalls(s, CallsIn(s, ts), t);
    if s.txns[t].kind.Call? {
      assert Leaf(s.graph, t) by {
        OneLeaf(s, CallsIn(s, ts), t);
      }
      forall u | u in ts[1..] ensures u in Fail(s, t, DeadReply).txns && Fail(s, t, DeadReply).txns[u] == s.txns[u] {
        FailKeeps(s, CallsIn(s, ts), t, DeadReply, u);
      }
    }
  }

  lemma OneLeaf(s: World, pending: set<TxnId>, t: TxnId)
    requires Good(s, pending) && t in pending
    ensures Leaf(s.graph, t)
  {
  }

  lemma LeafCalls(s: World, pending: set<TxnId>, t: TxnId)
    requires Good(s, pending) && t in s.txns
    ensures Leaf(s.graph, t) ==> s.txns[t].kind.Call?
  {
  }

  /** Going up a chain by the pointers in its calls. */
  lemma ChainCall(s: World, r: TxnId, i: int)
    requires GraphOk(s.graph) && CallsOk(s.txns, s.graph) && StacksOk(s.threads, s.graph)
    requires r in s.graph.chains && 0 <= i < |s.graph.chains[r].txns|
    ensures ChainOk(s.graph, r) && |s.graph.chains[r].txns| <= |s.graph.chains[r].actors|
    ensures var c := s.graph.chains[r];
            && c.txns[i] in s.txns
            && s.txns[c.txns[i]].from == c.actors[i]
            && s.txns[c.txns[i]].fromParent == (if i == 0 then None else Some(c.txns[i - 1]))
            && (c.actors[i].Some? ==> c.actors[i].value in s.threads)
  {
    assert ChainOk(s.graph, r);
    var c := s.graph.chains[r];
    assert s.graph.home[c.txns[i]] == Place(r, i);
    CallHere(s, c.txns[i]);
    hide CallsOk;
    if c.actors[i].Some? {
      assert c.actors[i] in c.actors;
    }
  }

  lemma SendStep(s: World, x: Tid, p: Pid, n: TxnId, w: Txn, where: Where, b: BufferId)
    requires Good(s, {}) && Numbered(Snap(s, n)) && x in s.threads && s.threads[x].error == Ok && p in s.procs
    requires b !in s.buffers
    requires x in s.graph.seat ==> s.graph.seat[x] in s.graph.chains && ServesLeaf(s.graph.chains[s.graph.seat[x]], x)
    requires var to := Chosen(s.threads, s.graph, x, p);
             && to != Some(x)
             && w == Txn(Call, Some(x), s.threads[x].stack, to, None, Some(b))
             && where == if to.Some? then OnThread(to.value) else OnProc(p)
    ensures x in s.graph.seat ==> s.graph.seat[x] in s.graph.chains
    ensures Held(s.threads, s.procs, where, p)
    ensures Good(Send(s, x, n, w, where, b, p), {})
    ensures Leads(Snap(s, n), Snap(Send(s, x, n, w, where, b, p), n + 1))
  {
    NewHome(s, n);
    ChosenTarget(s, x, p, w, where);
    hide Good, Chosen, Furthest, Numbered, Leads, Send;
    SendGood(s, x, n, w, where, b, p);
    SendLeads(s, x, n, w, where, b, p);
  }

  lemma NewHome(s: World, n: TxnId)
    requires CallsOk(s.txns, s.graph) && Numbered(Snap(s, n))
    ensures n !in s.graph.home && n !in s.txns
  {
  }

  lemma ChosenTarget(s: World, x: Tid, p: Pid, w: Txn, where: Where)
    requires GraphOk(s.graph) && p in s.procs
    requires var to := Chosen(s.threads, s.graph, x, p);
             && to != Some(x) && w.toThread == to
             && where == if to.Some? then OnThread(to.value) else OnProc(p)
    ensures Target(s.graph, x, w, where) && Held(s.threads, s.procs, where, p)
  {
    if x in s.graph.seat && w.toThread.Some? {
      var c := s.graph.chains[s.graph.seat[x]];
      assert ChainOk(s.graph, s.graph.seat[x]);
      FurthestIs(s.threads, c.actors, p, |c.txns|);
      assert w.toThread in c.actors;
    }
  }

  lemma LeadsNumbered(a: Snapshot, b: Snapshot)
    requires Leads(a, b)
    ensures Numbered(a) && Numbered(b)
  {
  }

  /** A call into another process never comes back to its sender. */
  lemma OtherProcess(threads: map<Tid, Thread>, g: Graph, x: Tid, p: Pid)
    requires x in threads && threads[x].proc != p
    ensures Chosen(threads, g, x, p) != Some(x)
  {
    if x in g.seat && g.seat[x] in g.chains && Shaped(g.chains[g.seat[x]]) {
      FurthestIs(threads, g.chains[g.seat[x]].actors, p, |g.chains[g.seat[x]].txns|);
    }
  }

  /** The call thread `x` makes to process `p`, and the list it goes to. */
  ghost function CallTo(s: World, x: Tid, p: Pid, b: BufferId): Txn
    requires x in s.threads
  {
    Txn(Call, Some(x), s.threads[x].stack, Chosen(s.threads, s.graph, x, p), None, Some(b))
  }

  ghost function ListFor(s: World, x: Tid, p: Pid): Where {
    if Chosen(s.threads, s.graph, x, p).Some? then OnThread(Chosen(s.threads, s.graph, x, p).value) else OnProc(p)
  }

  /** Thread `x` has no call, or serves the one on top of its stack. */
  ghost predicate MayCall(s: World, x: Tid) {
    x in s.graph.seat ==> s.graph.seat[x] in s.graph.chains && ServesLeaf(s.graph.chains[s.graph.seat[x]], x)
  }

  /** What a call from `x` to process `p` comes to: it is refused, or sent. */
  ghost predicate Calls(s: World, n: TxnId, x: Tid, p: Pid, b: Option<BufferId>, s': World, n': TxnId)
    requires x in s.threads
  {
    if MayCall(s, x) && b.Some? then s' == Send(s, x, n, CallTo(s, x, p, b.value), ListFor(s, x, p), b.value, p) && n' == n + 1
    else s' == WithError(s, x, FailedReply) && n' == n
  }

  lemma NoTarget(s: World, x: Tid, p: Pid)
    requires Good(s, {}) && x in s.threads
    ensures s.threads[x].stack.None? ==> Chosen(s.threads, s.graph, x, p).None?
  {
  }

  lemma CallHeld(s: World, x: Tid, p: Pid)
    requires x in s.threads && p in s.procs
    ensures Held(s.threads, s.procs, ListFor(s, x, p), p)
  {
    if x in s.graph.seat && s.graph.seat[x] in s.graph.chains && Shaped(s.graph.chains[s.graph.seat[x]]) {
      FurthestIs(s.threads, s.graph.chains[s.graph.seat[x]].actors, p, |s.graph.chains[s.graph.seat[x]].txns|);
    }
  }

  /** A call keeps what holds between steps exactly if the search does not come back to its sender. */
  lemma SendExact(s: World, x: Tid, p: Pid, n: TxnId, b: BufferId)
    requires Good(s, {}) && Numbered(Snap(s, n)) && x in s.threads && s.threads[x].error == Ok && p in s.procs
    requires b !in s.buffers && MayCall(s, x)
    ensures Good(Send(s, x, n, CallTo(s, x, p, b), ListFor(s, x, p), b, p), {}) <==> Chosen(s.threads, s.graph, x, p) != Some(x)
  {
    if Chosen(s.threads, s.graph, x, p) == Some(x) {
      SelfQueued(s, x, p, n, b);
    } else {
      SendStep(s, x, p, n, CallTo(s, x, p, b), ListFor(s, x, p), b);
    }
  }

  lemma SelfQueued(s: World, x: Tid, p: Pid, n: TxnId, b: BufferId)
    requires x in s.threads && MayCall(s, x) && Chosen(s.threads, s.graph, x, p) == Some(x)
    ensures !Good(Send(s, x, n, CallTo(s, x, p, b), ListFor(s, x, p), b, p), {})
  {
    hide GraphOk, CallsOk, StacksOk, ErrorsOk, BuffersOk, OpenOk, ListsOk, Furthest, Buffered, Held, Leaf, AddThreads, AddProcs;
    var s' := Send(s, x, n, CallTo(s, x, p, b), ListFor(s, x, p), b, p);
    SelfLast(s.graph, x, n);
    QueuedCan(s', n, x);
    hide Good;
  }

  lemma QueuedCan(s: World, n: TxnId, x: Tid)
    ensures Good(s, {}) && n in s.at && s.at[n] == OnThread(x) && n in s.txns && s.txns[n].kind.Call? ==>
              n in s.graph.home && CanServe(s.graph, s.graph.home[n].root, x)
  {
    if Good(s, {}) && n in s.at {
      assert QueuedOk(s, n);
      hide Good;
    }
  }

  /** The last caller of the chain is the thread that made its last call. */
  lemma SelfLast(g: Graph, x: Tid, n: TxnId)
    requires x in g.seat && g.seat[x] in g.chains && ServesLeaf(g.chains[g.seat[x]], x)
    ensures n in Extend(g, x, n).home && !CanServe(Extend(g, x, n), Extend(g, x, n).home[n].root, x)
  {
  }

  /** When such a call is taken up, it has itself below it on its server's stack: the stack has no end. */
  lemma SelfCallLoops(s: World, x: Tid, p: Pid, n: TxnId, b: BufferId)
    requires x in s.threads && MayCall(s, x) && Chosen(s.threads, s.graph, x, p) == Some(x)
    ensures var s' := Send(s, x, n, CallTo(s, x, p, b), ListFor(s, x, p), b, p);
            && n in s'.at && s'.at[n] == OnThread(x) && x in s'.threads && s'.threads[x].todo == s.threads[x].todo + [n]
            && Leaf(Take(s', n).graph, n) && n in s'.txns
            && TakeUp(Take(s', n), x, n).txns[n].toParent == Some(n) && TakeUp(Take(s', n), x, n).threads[x].stack == Some(n)
  {
    var s' := Send(s, x, n, CallTo(s, x, p, b), ListFor(s, x, p), b, p);
    hide Chosen, Furthest;
    assert s'.graph == Extend(s.graph, x, n);
    assert s'.threads[x].stack == Some(n);
  }

  lemma PostStep(a: Snapshot, s: World, n: TxnId, w: Txn, where: Where, b: BufferId, p: Pid)
    requires Good(s, {}) && b !in s.buffers && w.buffer == Some(b) && Held(s.threads, s.procs, where, p)
    requires !w.kind.Call? && w.from.None? && (w.kind.Reply? ==> where.OnThread?)
    requires Leads(a, Snap(s, n))
    ensures Good(Post(s, n, w, where, b, p), {})
    ensures Leads(a, Snap(Post(s, n, w, where, b, p), n + 1))
  {
    assert n !in s.txns;
    hide Good, Leads, Numbered, Post;
    PostGood(s, n, w, where, b, p);
    PostLeads(a, s, n, w, where, b, p);
  }

  lemma ReplyStep(s: World, n: TxnId, x: Tid, t: TxnId)
    requires Good(s, {}) && Numbered(Snap(s, n)) && x in s.threads && t in s.txns && Serving(s.graph, x, t)
    requires s.threads[x].error == Ok
    ensures t in s.graph.home && s.graph.home[t].root in s.graph.chains && ChainOk(s.graph, s.graph.home[t].root)
    ensures Shaped(s.graph.chains[s.graph.home[t].root]) && Closed(s.graph.chains[s.graph.home[t].root])
    ensures var c := s.graph.chains[s.graph.home[t].root]; c.actors[|c.txns|].Some?
    ensures Good(HandBack(s, x, t), {t})
    ensures HandBack(s, x, t).threads.Keys == s.threads.Keys && HandBack(s, x, t).threads[x].error == Ok
    ensures HandBack(s, x, t).txns == s.txns && HandBack(s, x, t).buffers == s.buffers
    ensures Leaf(HandBack(s, x, t).graph, t) && s.txns[t].kind.Call?
    ensures Leads(Snap(s, n), Snap(HandBack(s, x, t), n))
  {
    hide GraphOk, CallsOk, StacksOk, QueuesOk, BuffersOk, ErrorsOk, OpenOk, Serving;
    ServingClosed(s.graph, x, t);
    HandBackGood(s, x, t);
    HandBackSame(s, x, t);
    hide Good, Return, Serving, Numbered, ChainOk, HandBack, Leaf, Shaped, Closed;
    OneLeaf(HandBack(s, x, t), {t}, t);
    LeafCalls(HandBack(s, x, t), {t}, t);
    SameTxns(Snap(s, n), Snap(HandBack(s, x, t), n));
  }

  lemma ServingClosed(g: Graph, x: Tid, t: TxnId)
    requires GraphOk(g) && Serving(g, x, t)
    ensures t in g.home && g.home[t].root in g.chains && ChainOk(g, g.home[t].root)
    ensures Shaped(g.chains[g.home[t].root]) && Closed(g.chains[g.home[t].root])
    ensures var c := g.chains[g.home[t].root]; c.actors[|c.txns|].Some?
  {
    assert ChainOk(g, g.home[t].root);
  }

  lemma HandBackSame(s: World, x: Tid, t: TxnId)
    requires x in s.threads && t in s.txns && Serving(s.graph, x, t)
    ensures var h := HandBack(s, x, t);
            && h.threads.Keys == s.threads.Keys && h.txns == s.txns && h.buffers == s.buffers
            && (forall y :: y in s.threads ==> h.threads[y].error == s.threads[y].error)
  {
  }

  lemma HandBackIs(s: World, x: Tid, t: TxnId, s': World)
    requires x in s.threads && t in s.txns && Serving(s.graph, x, t)
    requires s' == s.(threads := s.threads[x := s.threads[x].(stack := s.txns[t].toParent)],
                      graph := Return(s.graph, s.graph.home[t].root))
    ensures s' == HandBack(s, x, t)
  {
  }

  lemma WithErrorIs(s: World, x: Tid, code: Code, s': World)
    requires x in s.threads && s' == s.(threads := s.threads[x := s.threads[x].(error := code)])
    ensures s' == WithError(s, x, code)
    ensures s'.txns == s.txns && s'.threads.Keys == s.threads.Keys
    ensures forall y :: y in s.threads ==> s'.threads[y].stack == s.threads[y].stack
  {
  }

  lemma PopSameProc(s: World, t: TxnId)
    requires t in s.txns && Leaf(s.graph, t)
    ensures Pop(s, t).buffers.Keys == s.buffers.Keys && Pop(s, t).threads.Keys == s.threads.Keys
    ensures forall y :: y in s.threads ==> Pop(s, t).threads[y].proc == s.threads[y].proc
  {
  }

  /** What a reply from `x` comes to. A thread that serves no call is refused. Otherwise its call is handed
      back; then either the reply is queued to the caller, whose call is popped, or the call fails. */
  ghost predicate Replies(s: World, n: TxnId, x: Tid, b: Option<BufferId>, failure: Code, s': World, n': TxnId)
    requires x in s.threads
  {
    var t := if s.threads[x].stack.Some? then s.threads[x].stack.value else 0;
    if s.threads[x].stack.None? || t !in s.txns || !Serving(s.graph, x, t) then s' == WithError(s, x, FailedReply) && n' == n
    else
      var s1 := HandBack(s, x, t);
      && Leaf(s1.graph, t)
      && if s.txns[t].from.None? || b.None? then
           var s2, code := WithError(s1, x, TransactionComplete), if s.txns[t].from.None? then DeadReply else failure;
           s' == Fail(s2, t, code) && Tells(s2, t, code, s') && n' == n
         else
           var y := s.txns[t].from.value;
           && y in s.threads
           && s1.threads[y].stack == Some(t)
           && s' == Post(Pop(s1, t), n, Txn(Reply, None, None, Some(y), None, b), OnThread(y), b.value, s.threads[y].proc)
           && n' == n + 1
  }

  /** Delivering transaction `t` to thread `x`: a call goes on its stack, anything else is over. Either way
      the receiver has the buffer. */
  ghost predicate Delivers(s: World, x: Tid, t: TxnId, s': World)
    requires x in s.threads && t in s.at
  {
    && t in s.txns && s.txns[t].buffer.Some? && s.txns[t].buffer.value in s.buffers
    && s.buffers[s.txns[t].buffer.value].proc == s.threads[x].proc
    && if s.txns[t].kind.Call? then Leaf(Take(s, t).graph, t) && s' == TakeUp(Take(s, t), x, t)
       else s' == Finish(Take(s, t), t)
  }

  lemma DeliverStep(s: World, n: TxnId, x: Tid, t: TxnId)
    requires Good(s, {}) && Numbered(Snap(s, n)) && x in s.threads && t in s.at && First(s.threads, s.procs, s.at[t], t)
    requires s.at[t] == OnThread(x) || (s.at[t] == OnProc(s.threads[x].proc) && s.threads[x].stack.None?)
    ensures t in s.txns && s.txns[t].buffer.Some? && s.txns[t].buffer.value in s.buffers
    ensures s.buffers[s.txns[t].buffer.value].proc == s.threads[x].proc
    ensures s.at[t].OnProc? ==> t !in s.threads[x].todo
    ensures s.txns[t].kind.Call? ==>
              && Leaf(s.graph, t)
              && Good(TakeUp(Take(s, t), x, t), {}) && Leads(Snap(s, n), Snap(TakeUp(Take(s, t), x, t), n))
    ensures !s.txns[t].kind.Call? ==>
              Good(Finish(Take(s, t), t), {}) && Leads(Snap(s, n), Snap(Finish(Take(s, t), t), n))
  {
    hide GraphOk, CallsOk, StacksOk, BuffersOk, ErrorsOk, OpenOk, CanServe, Serve, Leaf;
    TakeGood(s, {}, t);
    assert QueuedOk(s, t);
    assert ThreadList(s.threads, s.at, x);
    TakeSame(s, t);
    hide Good, QueuesOk, Take, Numbered;
    if s.txns[t].kind.Call? {
      ProcServes(s, x, t);
      assert {} + {t} == {t} && {t} - {t} == {};
      TakeUpGood(Take(s, t), {t}, x, t);
      hide TakeUp;
      TakeUpSame(Take(s, t), x, t);
      SameTxns(Snap(s, n), Snap(TakeUp(Take(s, t), x, t), n));
    } else {
      FinishGood(Take(s, t), t);
      FinishLeads(Take(s, t), n, t);
      NumberedTake(s, n, t);
      FinishFrom(Snap(s, n), Take(s, t), n, t);
    }
  }

  lemma TakeSame(s: World, t: TxnId)
    requires t in s.at
    ensures Take(s, t).txns == s.txns && Take(s, t).graph == s.graph && Take(s, t).buffers == s.buffers
    ensures Take(s, t).threads.Keys == s.threads.Keys && t !in Take(s, t).at
  {
  }

  lemma TakeUpSame(s: World, x: Tid, t: TxnId)
    requires x in s.threads && t in s.txns && Leaf(s.graph, t)
    ensures var h := TakeUp(s, x, t);
            && h.txns.Keys == s.txns.Keys
            && forall u :: u in s.txns ==> h.txns[u].kind == s.txns[u].kind && h.txns[u].from == s.txns[u].from
                                           && h.txns[u].fromParent == s.txns[u].fromParent
  {
  }

  lemma NumberedTake(s: World, n: TxnId, t: TxnId)
    requires t in s.at && Numbered(Snap(s, n))
    ensures Numbered(Snap(Take(s, t), n))
  {
  }

  lemma FinishFrom(a: Snapshot, s: World, n: TxnId, t: TxnId)
    requires a.txns == s.txns && a.nextTxn == n && Numbered(a) && t in s.txns && !s.txns[t].kind.Call?
    ensures Leads(a, Snap(Finish(s, t), n))
  {
  }

  /** The thread that may take a queued call: the one it was sent to, or one with an empty stack. */
  lemma ProcServes(s: World, x: Tid, t: TxnId)
    requires Good(s, {}) && x in s.threads && t in s.at && t in s.txns && s.txns[t].kind.Call?
    requires s.at[t] == OnThread(x) || (s.at[t].OnProc? && s.threads[x].stack.None?)
    ensures Leaf(s.graph, t) && CanServe(s.graph, s.graph.home[t].root, x)
  {
    assert QueuedOk(s, t);
    if s.at[t].OnProc? {
      StackTop(s.graph, x);
      NoActor(s.graph, s.graph.home[t].root, x);
    }
  }

  lemma NoActor(g: Graph, r: TxnId, x: Tid)
    requires GraphOk(g) && r in g.chains && x !in g.seat
    ensures Some(x) !in g.chains[r].actors
  {
    assert ChainOk(g, r);
  }

  lemma TakeIs(s: World, x: Tid, t: TxnId, s': World)
    requires x in s.threads && t in s.at && First(s.threads, s.procs, s.at[t], t)
    requires s.at[t] == OnThread(x) || (s.at[t] == OnProc(s.threads[x].proc) && t !in s.threads[x].todo)
    requires if s.threads[x].todo != [] && s.threads[x].todo[0] == t then
               s' == s.(threads := s.threads[x := s.threads[x].(todo := s.threads[x].todo[1..])], at := s.at - {t})
             else
               s.threads[x].proc in s.procs && s.procs[s.threads[x].proc] != []
               && s' == s.(procs := s.procs[s.threads[x].proc := s.procs[s.threads[x].proc][1..]], at := s.at - {t})
    ensures s' == Take(s, t)
  {
  }

  lemma TakeUpIs(s: World, x: Tid, t: TxnId, s': World)
    requires x in s.threads && t in s.txns && Leaf(s.graph, t) && s.txns[t].buffer.Some? && s.txns[t].buffer.value in s.buffers
    requires s' == World(s.threads[x := s.threads[x].(stack := Some(t))],
                         s.txns[t := s.txns[t].(toParent := s.threads[x].stack, toThread := Some(x))],
                         s.buffers[s.txns[t].buffer.value := s.buffers[s.txns[t].buffer.value].(userFree := true)],
                         s.procs, s.at, Serve(s.graph, s.graph.home[t].root, x))
    ensures s' == TakeUp(s, x, t)
  {
  }

  lemma FinishIs(s: World, t: TxnId, s': World)
    requires t in s.txns && s.txns[t].buffer.Some? && s.txns[t].buffer.value in s.buffers
    requires s'.buffers == s.buffers[s.txns[t].buffer.value :=
                                       s.buffers[s.txns[t].buffer.value].(userFree := true, transaction := None)]
    requires s' == s.(txns := s.txns - {t}, buffers := s'.buffers)
    ensures s' == Finish(s, t)
  {
  }

  lemma FirstIs(s: World, x: Tid)
    requires Good(s, {}) && x in s.threads && s.threads[x].proc in s.procs
    ensures s.threads[x].todo != [] ==> s.threads[x].todo[0] in s.at && s.at[s.threads[x].todo[0]] == OnThread(x)
    ensures var p := s.threads[x].proc;
            s.procs[p] != [] ==> s.procs[p][0] in s.at && s.at[s.procs[p][0]] == OnProc(p)
  {
    assert ThreadList(s.threads, s.at, x);
    assert ProcList(s.procs, s.at, s.threads[x].proc);
  }

  lemma FreeStep(s: World, n: TxnId, b: BufferId)
    requires Good(s, {}) && Numbered(Snap(s, n)) && b in s.buffers && s.buffers[b].userFree
    ensures s.buffers[b].transaction.Some? ==> s.buffers[b].transaction.value in s.txns
    ensures Good(FreeBuf(s, b), {})
    ensures Leads(Snap(s, n), Snap(FreeBuf(s, b), n))
  {
    assert BufferTxn(s.txns, s.buffers, b);
    UserFree(s, b);
    FreeBufGood(s, b);
    hide Good, Leads;
    SameTxns(Snap(s, n), Snap(FreeBuf(s, b), n));
  }

  /** Nothing about transactions changes but that some lose their buffers. */
  ghost predicate SameButBuffers(a: map<TxnId, Txn>, b: map<TxnId, Txn>) {
    a.Keys == b.Keys && forall t :: t in a ==> b[t] == a[t] || b[t] == a[t].(buffer := None)
  }

  lemma Unchanged(a: map<TxnId, Txn>, b: map<TxnId, Txn>)
    requires a == b
    ensures SameButBuffers(a, b)
  {
  }

  lemma FreeBufSame(a: map<TxnId, Txn>, s: World, b: BufferId)
    requires SameButBuffers(a, s.txns) && b in s.buffers
    ensures SameButBuffers(a, FreeBuf(s, b).txns)
    ensures FreeBuf(s, b).buffers == s.buffers - {b}
    ensures FreeBuf(s, b).threads == s.threads && FreeBuf(s, b).procs == s.procs && FreeBuf(s, b).at == s.at
  {
  }

  lemma StillCounted(a: Snapshot, b: Snapshot)
    requires Numbered(a) && a.nextTxn == b.nextTxn && SameButBuffers(a.txns, b.txns)
    ensures Leads(a, b) && Numbered(b)
  {
  }

  /** The state after thread `x` died: its own call failed, then the calls on its list. */
  ghost function Bereaved(s: World, x: Tid): World
    requires x in s.threads && (x in s.graph.seat ==> s.graph.seat[x] in s.graph.chains)
  {
    var s1 := Die(s, x);
    var t := if s.threads[x].stack.Some? then s.threads[x].stack.value else 0;
    var s2 := if s.threads[x].stack.Some? && Serving(s.graph, x, t) && t in s1.txns && Leaf(s1.graph, t)
              then Fail(s1, t, DeadReply) else s1;
    FailAll(s2, s.threads[x].todo, DeadReply)
  }

  lemma DieStart(s: World, n: TxnId, x: Tid)
    requires Good(s, {}) && Numbered(Snap(s, n)) && x in s.threads
    ensures x in s.graph.seat ==> s.graph.seat[x] in s.graph.chains
    ensures Good(Die(s, x), Orphans(s, x))
    ensures Leads(Snap(s, n), Snap(Die(s, x), n))
    ensures Distinct(s.threads[x].todo) && forall t :: t in s.threads[x].todo ==> t in Die(s, x).txns
    ensures s.threads[x].stack.Some? ==>
              && s.threads[x].stack.value in s.txns
              && (s.txns[s.threads[x].stack.value].toThread == Some(x) <==> Serving(s.graph, x, s.threads[x].stack.value))
              && (Serving(s.graph, x, s.threads[x].stack.value) ==>
                    && s.threads[x].stack.value in Orphans(s, x)
                    && s.threads[x].stack.value in Die(s, x).txns && Leaf(Die(s, x).graph, s.threads[x].stack.value))
    ensures !(s.threads[x].stack.Some? && Serving(s.graph, x, s.threads[x].stack.value)) ==>
              Orphans(s, x) == CallsIn(Die(s, x), s.threads[x].todo)
  {
    hide QueuesOk, ErrorsOk, BuffersOk, OpenOk, CallsOk, GraphOk, StacksOk, Serving, Leads, Numbered, Die;
    TopOfStack(s, x);
    DieGood(s, x);
    DieLeads(s, n, x);
    OrphanSplit(s, x);
    ServesTop(s, x);
    hide Good;
    if s.threads[x].stack.Some? && Serving(s.graph, x, s.threads[x].stack.value) {
      OneLeaf(Die(s, x), Orphans(s, x), s.threads[x].stack.value);
    }
  }

  /** A thread serves only the call on top of its stack. */
  lemma ServesTop(s: World, x: Tid)
    requires Good(s, {}) && x in s.threads
    ensures forall t: TxnId :: Serving(s.graph, x, t) ==> s.threads[x].stack == Some(t)
  {
    hide QueuesOk, ErrorsOk, BuffersOk, OpenOk, CallsOk, GraphOk, StacksOk, Serving;
    forall t: TxnId | Serving(s.graph, x, t) ensures s.threads[x].stack == Some(t) {
      ServesOne(s, x, t);
    }
  }

  lemma ServesOne(s: World, x: Tid, t: TxnId)
    requires GraphOk(s.graph) && StacksOk(s.threads, s.graph) && x in s.threads && Serving(s.graph, x, t)
    ensures s.threads[x].stack == Some(t)
  {
    var r := s.graph.home[t].root;
    var c := s.graph.chains[r];
    assert ChainOk(s.graph, r);
    hide GraphOk;
    assert c.actors[|c.txns|] in c.actors;
    assert LastSeat(c.actors, x, |c.actors|) == Some(|c.txns|);
  }

  /** After the thread's own call failed, the calls on its list are left. */
  lemma OrphanRest(s: World, x: Tid, t: TxnId)
    requires Good(s, {}) && x in s.threads && (x in s.graph.seat ==> s.graph.seat[x] in s.graph.chains)
    requires Serving(s.graph, x, t) && t in Orphans(s, x) && Good(Die(s, x), Orphans(s, x))
    ensures t in Die(s, x).txns && Leaf(Die(s, x).graph, t)
    ensures var s2 := Fail(Die(s, x), t, DeadReply);
            && CallsIn(s2, s.threads[x].todo) == Orphans(s, x) - {t}
            && forall u :: u in s.threads[x].todo ==> u in s2.txns
  {
    hide Good, Die, Fail, Serving, Leaf;
    OrphanSplit(s, x);
    ServesTop(s, x);
    var s1 := Die(s, x);
    OneLeaf(s1, Orphans(s, x), t);
    forall u | u in s.threads[x].todo ensures u in Fail(s1, t, DeadReply).txns && Fail(s1, t, DeadReply).txns[u] == s1.txns[u] {
      FailKeeps(s1, Orphans(s, x), t, DeadReply, u);
    }
  }

  lemma DieIs(s: World, x: Tid, s': World)
    requires x in s.graph.seat ==> s.graph.seat[x] in s.graph.chains
    requires s'.threads == s.threads - {x} && s'.txns == Buried(s.txns, s.graph, x, 0, 0)
    requires s'.buffers == Untied(s.buffers, s'.txns) && s'.procs == s.procs && s'.at == Elsewhere(s.at, x)
    requires s'.graph == Bury(s.graph, x)
    ensures s' == Die(s, x)
  {
  }

  lemma UnstackBuffers(s: World, x: Tid, kf: nat, kt: nat, u: TxnId)
    requires BuffersOk(s.txns, s.buffers) && u in s.txns
    ensures var now := Buried(s.txns, s.graph, x, kf, kt);
            && (now[u].buffer.Some? && now[u].buffer == s.txns[u].buffer ==>
                  now[u].buffer.value in s.buffers && now[u].buffer.value in Untied(s.buffers, now))
            && (now[u].buffer == s.txns[u].buffer ==>
                  Untied(s.buffers, now[u := now[u].(toThread := None, buffer := None)]) ==
                    if now[u].buffer.Some? && now[u].buffer.value in s.buffers
                    then Untied(s.buffers, now)[now[u].buffer.value :=
                                                  Untied(s.buffers, now)[now[u].buffer.value].(transaction := None)]
                    else Untied(s.buffers, now))
            && Untied(s.buffers, now[u := now[u].(from := None)]) == Untied(s.buffers, now)
  {
    var now := Buried(s.txns, s.graph, x, kf, kt);
    forall t | t in s.txns ensures now[t].buffer == s.txns[t].buffer || now[t].buffer.None? {
      BuriedFields(s.txns, s.graph, x, kf, kt, t);
    }
    BuriedKinds(s.txns, s.graph, x, kf, kt);
    hide Buried, BuffersOk;
    if now[u].buffer == s.txns[u].buffer {
      UntiedStep(s.txns, s.buffers, now, u, now[u].(toThread := None, buffer := None));
    }
    UntiedSame(s.buffers, now, u, now[u].(from := None));
    assert Untied(s.buffers, now).Keys == s.buffers.Keys;
  }

  lemma UnstackStart(s: World, x: Tid)
    requires Good(s, {}) && x in s.threads
    ensures WalkAt(s.graph, x, s.threads[x].stack, Seats(s.graph, x), Seats(s.graph, x))
    ensures Buried(s.txns, s.graph, x, Seats(s.graph, x), Seats(s.graph, x)) == s.txns
    ensures Untied(s.buffers, s.txns) == s.buffers
  {
    WalkStart(s, x);
    UntiedNone(s.txns, s.buffers);
  }

  /** One round of the loop of `binder_free_thread`. */
  lemma UnstackStep(s: World, x: Tid, u: TxnId, kf: nat, kt: nat) returns (kf': nat, kt': nat)
    requires Good(s, {}) && WalkAt(s.graph, x, Some(u), kf, kt)
    ensures kf' + kt' < kf + kt
    ensures var now := Buried(s.txns, s.graph, x, kf, kt); u in now
    ensures var now, then' := Buried(s.txns, s.graph, x, kf, kt), Buried(s.txns, s.graph, x, kf', kt');
            var bs, bs' := Untied(s.buffers, now), Untied(s.buffers, then');
            if now[u].toThread == Some(x) then
              && (now[u].buffer.Some? ==> now[u].buffer.value in bs)
              && then' == now[u := now[u].(toThread := None, buffer := None)]
              && bs' == (if now[u].buffer.Some? then bs[now[u].buffer.value := bs[now[u].buffer.value].(transaction := None)] else bs)
              && WalkAt(s.graph, x, now[u].toParent, kf', kt')
            else
              && now[u].from == Some(x)
              && then' == now[u := now[u].(from := None)] && bs' == bs
              && WalkAt(s.graph, x, now[u].fromParent, kf', kt')
  {
    kf', kt' := WalkStep(s, x, u, kf, kt);
    hide GraphOk, CallsOk, StacksOk, QueuesOk, BuffersOk, ErrorsOk, OpenOk, Buried, Untied, WalkAt;
    BuriedKinds(s.txns, s.graph, x, kf, kt);
    UnstackBuffers(s, x, kf, kt, u);
  }

  lemma WalkLast(g: Graph, x: Tid, kf: nat, kt: nat)
    requires WalkAt(g, x, None, kf, kt)
    ensures kf == kt
  {
  }

  lemma ParkedOneWay(s: World, t: TxnId)
    requires QueuesOk(s) && t in s.at && s.at[t].Parked?
    ensures t in s.txns && !s.txns[t].kind.Call?
  {
    assert QueuedOk(s, t);
  }

  /** No queued transaction has a buffer in a process without threads and lists. */
  lemma OutOfUse(s: World, p: Pid, b: BufferId)
    requires Good(s, {}) && p !in s.procs && b in s.buffers && s.buffers[b].proc == p
    requires forall x :: x in s.threads ==> s.threads[x].proc != p
    requires forall t :: t in s.at ==> s.at[t] != Parked(p)
    ensures forall t :: t in s.at && t in s.txns ==> s.txns[t].buffer != Some(b)
  {
    forall t | t in s.at && t in s.txns ensures s.txns[t].buffer != Some(b) {
      assert QueuedOk(s, t);
    }
  }

  lemma DropStep(s: World, b: BufferId)
    requires Good(s, {}) && b in s.buffers
    requires forall t :: t in s.at && t in s.txns ==> s.txns[t].buffer != Some(b)
    ensures s.buffers[b].transaction.Some? ==> s.buffers[b].transaction.value in s.txns
    ensures Good(FreeBuf(s, b), {})
  {
    assert BufferTxn(s.txns, s.buffers, b);
    FreeBufGood(s, b);
  }

  class Driver {
    var threads: map<Tid, Thread>
    var txns: map<TxnId, Txn>
    var buffers: map<BufferId, Buffer>
    var procs: map<Pid, seq<TxnId>>
    var nextTxn: TxnId
    ghost var graph: Graph
    ghost var at: map<TxnId, Where>

    ghost function Now(): World
      reads `threads, `txns, `buffers, `procs, `graph, `at
    {
      World(threads, txns, buffers, procs, at, graph)
    }

    ghost function Seen(): Snapshot
      reads `threads, `txns, `nextTxn
    {
      Snapshot(threads, txns, nextTxn)
    }

    ghost function Lined(): Line
      reads `threads, `procs, `at, `nextTxn
    {
      Line(threads, procs, at, nextTxn)
    }

    /** What holds between steps. */
    ghost predicate Valid()
      reads this
    {
      Good(Now(), {}) && Numbered(Seen())
    }

    /** `binder_pop_transaction`: what it takes for granted is what its checks demand. */
    method PopTransaction(target: Option<Tid>, t: TxnId)
      requires t in txns && target == txns[t].from
      requires target.Some? ==> target.value in threads && threads[target.value].stack == Some(t)
      requires txns[t].buffer.Some? ==> txns[t].buffer.value in buffers
      modifies `threads, `txns, `buffers
      ensures threads == WithPopped(old(threads), old(txns)[t])
      ensures txns == old(txns) - {t}
      ensures buffers == Unlinked(old(buffers), old(txns)[t])
    {
      if target.Some? {
        var x := target.value;
        assert threads[x].stack == Some(t);
        assert txns[threads[x].stack.value].from == Some(x);
        threads := threads[x := threads[x].(stack := txns[t].fromParent)];
      }
      if txns[t].buffer.Some? {
        var b := txns[t].buffer.value;
        buffers := buffers[b := buffers[b].(transaction := None)];
      }
      txns := txns - {t};
    }

    /** The live-target branch of `binder_send_failed_reply`; one of the two error slots is free. */
    method TellCaller(x: Tid, t: TxnId, code: Code)
      requires t in txns && txns[t].from == Some(x) && x in threads && threads[x].stack == Some(t)
      requires txns[t].buffer.Some? ==> txns[t].buffer.value in buffers
      requires threads[x].error != Ok ==> threads[x].error2 == Ok
      modifies `threads, `txns, `buffers
      ensures threads == old(threads)[x := Told(old(threads)[x], old(txns)[t].fromParent, code)]
      ensures txns == old(txns) - {t}
      ensures buffers == Unlinked(old(buffers), old(txns)[t])
    {
      if threads[x].error != Ok && threads[x].error2 == Ok {
        threads := threads[x := threads[x].(error2 := threads[x].error, error := Ok)];
      }
      if threads[x].error == Ok {
        PopTransaction(Some(x), t);
        threads := threads[x := threads[x].(error := code)];
      } else {
        assert false;
      }
    }

    /** `binder_send_failed_reply`: pops `t0` and the calls above it until one has a live caller, and
        tells that caller. */
    method SendFailedReply(t0: TxnId, code: Code, ghost pending: set<TxnId>)
      requires Good(Now(), pending) && t0 in pending && code != Ok
      modifies `threads, `txns, `buffers, `graph
      ensures t0 in old(txns) && Leaf(old(graph), t0)
      ensures Now() == Fail(old(Now()), t0, code)
      ensures Good(Now(), pending - {t0})
      ensures Tells(old(Now()), t0, code, Now())
    {
      hide Good, Pop, Tell, Told, WithPopped, Unlinked, Above, Tells, PopLeaf;
      FailTells(Now(), pending, t0, code);
      FailGood(Now(), pending, t0, code);
      var t := t0;
      ghost var left := pending;
      while true
        invariant Good(Now(), left) && t in left && t in txns && Leaf(graph, t)
        invariant Fail(Now(), t, code) == Fail(old(Now()), t0, code)
        decreases txns.Keys
      {
        PopGood(Now(), left, t);
        PopNext(Now(), left, t);
        ghost var s := Now();
        var target := txns[t].from;
        if target.Some? {
          TellGood(Now(), left, t, code);
          TellCaller(target.value, t, code);
          graph := PopLeaf(graph, graph.home[t].root);
          TellIs(s, t, code, Now());
          return;
        } else {
          var next := txns[t].fromParent;
          PopTransaction(None, t);
          graph := PopLeaf(graph, graph.home[t].root);
          PopIs(s, t, Now());
          if next.None? {
            return;
          }
          left := left - {t} + {next.value};
          t := next.value;
        }
      }
    }

    /** `binder_release_work`: fails the calls on a list; replies and one-way transactions are dropped. */
    method ReleaseWork(ts: seq<TxnId>, ghost a: Snapshot)
      requires Good(Now(), CallsIn(Now(), ts)) && Distinct(ts) && forall t :: t in ts ==> t in txns
      requires Leads(a, Seen())
      modifies `threads, `txns, `buffers, `graph
      ensures Now() == FailAll(old(Now()), ts, DeadReply)
      ensures Good(Now(), {})
      ensures Leads(a, Seen())
    {
      hide Good, Leads, Tells, Fail;
      var i := 0;
      while i < |ts|
        invariant 0 <= i <= |ts|
        invariant Good(Now(), CallsIn(Now(), ts[i..]))
        invariant forall t :: t in ts[i..] ==> t in txns
        invariant FailAll(Now(), ts[i..], DeadReply) == FailAll(old(Now()), ts, DeadReply)
        invariant Leads(a, Seen())
      {
        ghost var s := Now();
        var t := ts[i];
        assert ts[i..] == [t] + ts[i + 1..];
        ReleaseStep(s, ts[i..]);
        if txns[t].kind.Call? {
          FailNext(a, s, nextTxn, CallsIn(s, ts[i..]), t, DeadReply);
          SendFailedReply(t, DeadReply, CallsIn(s, ts[i..]));
        }
        i := i + 1;
      }
      assert ts[|ts|..] == [];
      assert CallsIn(Now(), []) == {};
    }

    /** An error found before anything was built: `binder_transaction` only reports it. */
    method Refuse(x: Tid, code: Code)
      requires Valid() && x in threads && threads[x].error == Ok
      modifies `threads
      ensures Valid() && Leads(old(Seen()), Seen())
      ensures Now() == WithError(old(Now()), x, code) && InLine(old(Lined()), Lined())
    {
      hide Good, Leads, InLine;
      WithErrorGood(Now(), {}, x, code);
      threads := threads[x := threads[x].(error := code)];
      SameInLine(old(Now()), Now(), nextTxn);
      hide Numbered;
      SameTxns(old(Seen()), Seen());
    }

    /** The search for a waiting thread of process `p` further up the chain of `x`. */
    method FindTarget(x: Tid, p: Pid) returns (target: Option<Tid>)
      requires Valid() && x in threads && threads[x].stack.Some? && Serving(graph, x, threads[x].stack.value)
      ensures target == Chosen(threads, graph, x, p)
    {
      hide Good, Furthest, Serving, Stack, GraphOk, CallsOk, StacksOk, ChainOk, Chosen, Shaped, Numbered;
      SearchStart(Now(), x, p);
      ghost var r := graph.seat[x];
      ghost var c := graph.chains[r];
      ghost var n := |c.txns|;
      var tmp := threads[x].stack;
      target := None;
      while tmp.Some?
        invariant 0 <= n <= |c.txns| && tmp == if n == 0 then None else Some(c.txns[n - 1])
        invariant Furthest(threads, c.actors, p, |c.txns|)
                  == if Furthest(threads, c.actors, p, n).Some? then Furthest(threads, c.actors, p, n) else target
        decreases n
      {
        ChainCall(Now(), r, n - 1);
        FurthestStep(threads, c.actors, p, n);
        var w := txns[tmp.value];
        if w.from.Some? && threads[w.from.value].proc == p {
          target := w.from;
        }
        tmp := w.fromParent;
        n := n - 1;
      }
      FurthestStep(threads, c.actors, p, 0);
    }

    /** A two-way call from thread `x` to process `p`; `b` is its buffer, if one could be had and filled. What
        holds between steps is lost exactly if the call is accepted and the search came back to its sender. */
    method SendCall(x: Tid, p: Pid, b: Option<BufferId>)
      requires Valid() && x in threads && threads[x].error == Ok && p in procs
      requires b.Some? ==> b.value !in buffers
      modifies this
      ensures Calls(old(Now()), old(nextTxn), x, p, b, Now(), nextTxn)
      ensures Valid() <==> !(MayCall(old(Now()), x) && b.Some? && Chosen(old(threads), old(graph), x, p) == Some(x))
      ensures Valid() ==> Leads(old(Seen()), Seen())
      ensures InLine(old(Lined()), Lined())
      ensures MayCall(old(Now()), x) && b.Some? ==>
                var to := Chosen(old(threads), old(graph), x, p);
                Joins(old(Lined()), Lined(), old(nextTxn), if to.Some? then OnThread(to.value) else OnProc(p))
    {
      hide Good, Leads, Numbered, Send, WithError, Furthest, Serving, ServesLeaf, Chosen, InLine, Joins;
      TopOfStack(Now(), x);
      var target: Option<Tid> := None;
      if threads[x].stack.Some? {
        var t := threads[x].stack.value;
        if txns[t].toThread != Some(x) {
          Refuse(x, FailedReply);
          return;
        }
        target := FindTarget(x, p);
      }
      if b.None? {
        Refuse(x, FailedReply);
        return;
      }
      var w := Txn(Call, Some(x), threads[x].stack, target, None, b);
      var where := if target.Some? then OnThread(target.value) else OnProc(p);
      NoTarget(Now(), x, p);
      CallHeld(Now(), x, p);
      if target != Some(x) {
        SendStep(Now(), x, p, nextTxn, w, where, b.value);
      } else {
        SelfQueued(Now(), x, p, nextTxn, b.value);
      }
      SendJoins(Now(), x, nextTxn, w, where, b.value, p);
      AddCall(x, nextTxn, w, where, b.value, p);
      JoinsInLine(old(Lined()), Lined(), old(nextTxn), where);
      if target != Some(x) {
        LeadsNumbered(old(Seen()), Seen());
      }
    }

    /** The end of a successful `binder_transaction` for a two-way call. */
    method AddCall(x: Tid, t: TxnId, w: Txn, where: Where, b: BufferId, p: Pid)
      requires t == nextTxn && x in threads && (x in graph.seat ==> graph.seat[x] in graph.chains)
      requires Held(threads, procs, where, p)
      modifies this
      ensures Now() == Send(old(Now()), x, t, w, where, b, p) && nextTxn == t + 1
    {
      graph := Extend(graph, x, t);
      threads := threads[x := threads[x].(stack := Some(t))];
      AddWork(t, w, where, b, p);
    }

    /** A new transaction goes to the end of a list, with its buffer. */
    method AddWork(t: TxnId, w: Txn, where: Where, b: BufferId, p: Pid)
      requires t == nextTxn && Held(threads, procs, where, p)
      modifies `threads, `txns, `buffers, `procs, `at, `nextTxn
      ensures Now() == Post(old(Now()), t, w, where, b, p) && nextTxn == t + 1
    {
      txns := txns[t := w];
      buffers := buffers[b := Buffer(p, Some(t), false)];
      match where {
        case OnThread(y) => threads := threads[y := threads[y].(todo := threads[y].todo + [t])];
        case OnProc(q) => procs := procs[q := procs[q] + [t]];
        case Parked(_) =>
      }
      at := at[t := where];
      nextTxn := nextTxn + 1;
    }

    /** A one-way transaction to process `p`; it is parked when the node has one active already. */
    method SendOneWay(x: Tid, p: Pid, b: Option<BufferId>, busy: bool)
      requires Valid() && x in threads && threads[x].error == Ok && p in procs
      requires b.Some? ==> b.value !in buffers
      modifies this
      ensures Valid() && Leads(old(Seen()), Seen())
      ensures b.None? ==> Now() == WithError(old(Now()), x, FailedReply) && nextTxn == old(nextTxn)
      ensures b.Some? ==>
                && Now() == Post(old(Now()), old(nextTxn), Txn(OneWay, None, None, None, None, b),
                                 if busy then Parked(p) else OnProc(p), b.value, p)
                && nextTxn == old(nextTxn) + 1
      ensures InLine(old(Lined()), Lined())
      ensures b.Some? ==> Joins(old(Lined()), Lined(), old(nextTxn), if busy then Parked(p) else OnProc(p))
    {
      hide Good, Leads, Numbered, Post, WithError, InLine, Joins;
      if b.None? {
        Refuse(x, FailedReply);
        return;
      }
      var w := Txn(OneWay, None, None, None, None, b);
      ghost var s := Now();
      NextSame(Seen());
      PostStep(old(Seen()), s, nextTxn, w, if busy then Parked(p) else OnProc(p), b.value, p);
      PostJoins(s, nextTxn, w, if busy then Parked(p) else OnProc(p), b.value, p);
      AddWork(nextTxn, w, if busy then Parked(p) else OnProc(p), b.value, p);
      JoinsInLine(old(Lined()), Lined(), old(nextTxn), if busy then Parked(p) else OnProc(p));
      LeadsNumbered(old(Seen()), Seen());
    }

    /** A reply from thread `x`; `b` is its buffer, if one could be had and filled. Otherwise `failure` is what the
        caller is told: `FailedReply`, or for a cookie that differs whatever the variable held that was not set. */
    method SendReply(x: Tid, b: Option<BufferId>, failure: Code)
      requires Valid() && x in threads && threads[x].error == Ok && (b.None? ==> failure != Ok)
      requires b.Some? ==> b.value !in buffers
      modifies this
      ensures Valid() && Leads(old(Seen()), Seen())
      ensures Replies(old(Now()), old(nextTxn), x, b, failure, Now(), nextTxn)
      ensures InLine(old(Lined()), Lined())
      ensures nextTxn > old(nextTxn) ==>
                var t := old(threads)[x].stack.value;
                t in old(txns) && old(txns)[t].from.Some? && Joins(old(Lined()), Lined(), old(nextTxn), OnThread(old(txns)[t].from.value))
    {
      hide Good, Leads, Numbered, InLine, Joins, Replies;
      AnswerCall(x, b, failure);
      ReplyLines(old(Now()), old(nextTxn), x, b, failure, Now(), nextTxn);
    }

    method AnswerCall(x: Tid, b: Option<BufferId>, failure: Code)
      requires Valid() && x in threads && threads[x].error == Ok && (b.None? ==> failure != Ok)
      requires b.Some? ==> b.value !in buffers
      modifies this
      ensures Valid() && Leads(old(Seen()), Seen())
      ensures Replies(old(Now()), old(nextTxn), x, b, failure, Now(), nextTxn)
    {
      hide Good, Leads, Numbered, Fail, Post, HandBack, WithError, Serving, Tells, Pop, Leaf, Return, ChainOk;
      TopOfStack(Now(), x);
      if threads[x].stack.None? || txns[threads[x].stack.value].toThread != Some(x) {
        Refuse(x, FailedReply);
        return;
      }
      var t := threads[x].stack.value;
      ReplyStep(Now(), nextTxn, x, t);
      threads := threads[x := threads[x].(stack := txns[t].toParent)];
      graph := Return(graph, graph.home[t].root);
      HandBackIs(old(Now()), x, t, Now());
      var target := txns[t].from;
      if target.None? {
        FailReply(x, t, DeadReply, old(Seen()));
      } else if b.None? {
        FailReply(x, t, failure, old(Seen()));
      } else {
        AcceptReply(target.value, t, b.value, old(Seen()));
      }
      LeadsNumbered(old(Seen()), Seen());
    }

    /** The failing end of a reply: the caller of `t` is told, and the replying thread that it was done. */
    method FailReply(x: Tid, t: TxnId, code: Code, ghost a: Snapshot)
      requires Good(Now(), {t}) && x in threads && threads[x].error == Ok && code != Ok && Leads(a, Seen())
      modifies `threads, `txns, `buffers, `graph
      ensures Good(Now(), {}) && Leads(a, Seen())
      ensures var s := WithError(old(Now()), x, TransactionComplete);
              t in s.txns && Leaf(s.graph, t) && Now() == Fail(s, t, code) && Tells(s, t, code, Now())
    {
      hide Good, Leads, Fail, WithError, Tells, Leaf;
      WithErrorGood(Now(), {t}, x, TransactionComplete);
      threads := threads[x := threads[x].(error := TransactionComplete)];
      ghost var s := Now();
      WithErrorIs(old(Now()), x, TransactionComplete, s);
      StillLeads(a, old(Now()), s, nextTxn);
      FailNext(a, s, nextTxn, {t}, t, code);
      SendFailedReply(t, code, {t});
      assert {t} - {t} == {};
    }

    /** The good end of a reply: the call is on top of its caller's stack; it is popped and the reply queued. */
    method AcceptReply(y: Tid, t: TxnId, b: BufferId, ghost a: Snapshot)
      requires Good(Now(), {t}) && t in txns && txns[t].from == Some(y) && b !in buffers && Leads(a, Seen())
      modifies this
      ensures Good(Now(), {}) && Leads(a, Seen())
      ensures var s := old(Now());
              && Leaf(s.graph, t) && y in s.threads && s.threads[y].stack == Some(t)
              && Now() == Post(Pop(s, t), old(nextTxn), Txn(Reply, None, None, Some(y), None, Some(b)), OnThread(y), b,
                               s.threads[y].proc)
              && nextTxn == old(nextTxn) + 1
    {
      hide Good, Leads, Post, Pop, WithPopped, Unlinked, Above, PopLeaf;
      ghost var s := Now();
      PopGood(s, {t}, t);
      PopNext(s, {t}, t);
      PopLeads(a, s, nextTxn, t);
      if threads[y].stack != Some(t) {
        assert false;
      }
      var p := threads[y].proc;
      PopTransaction(Some(y), t);
      graph := PopLeaf(graph, graph.home[t].root);
      PopIs(s, t, Now());
      PopSameProc(s, t);
      assert {t} - {t} + {} == {};
      var w := Txn(Reply, None, None, Some(y), None, Some(b));
      PostStep(a, Now(), nextTxn, w, OnThread(y), b, p);
      AddWork(nextTxn, w, OnThread(y), b, p);
    }

    /** The transaction branch of `binder_thread_read`: thread `x` takes transaction `t` off its list. */
    method Deliver(x: Tid, t: TxnId)
      requires Valid() && x in threads && t in at && First(threads, procs, at[t], t)
      requires at[t] == OnThread(x) || (at[t] == OnProc(threads[x].proc) && threads[x].stack.None?)
      modifies this
      ensures Valid() && Leads(old(Seen()), Seen())
      ensures Delivers(old(Now()), x, t, Now()) && nextTxn == old(nextTxn)
      ensures Heads(old(Lined()), Lined(), t, old(at)[t]) && InLine(old(Lined()), Lined())
      ensures t in old(txns) && old(txns)[t].buffer.Some? && HandedOver(old(buffers), buffers, old(txns)[t].buffer.value)
    {
      hide Good, Leads, Numbered, InLine, Heads, HandedOver, Delivers;
      HandOut(x, t);
      DeliverLists(old(Now()), nextTxn, x, t, Now());
    }

    method HandOut(x: Tid, t: TxnId)
      requires Valid() && x in threads && t in at && First(threads, procs, at[t], t)
      requires at[t] == OnThread(x) || (at[t] == OnProc(threads[x].proc) && threads[x].stack.None?)
      modifies this
      ensures Valid() && Leads(old(Seen()), Seen())
      ensures Delivers(old(Now()), x, t, Now()) && nextTxn == old(nextTxn)
    {
      hide Good, Leads, Numbered, Serve, RestThreads, RestProcs, Unlinked, Transactions.Delivered, TakeUp, Finish;
      ghost var s := Now();
      DeliverStep(s, nextTxn, x, t);
      if threads[x].todo != [] && threads[x].todo[0] == t {
        threads := threads[x := threads[x].(todo := threads[x].todo[1..])];
      } else {
        procs := procs[threads[x].proc := procs[threads[x].proc][1..]];
      }
      at := at - {t};
      ghost var s1 := Now();
      TakeIs(s, x, t, s1);
      assert txns[t].buffer.Some?;
      var b := txns[t].buffer.value;
      buffers := buffers[b := buffers[b].(userFree := true)];
      if txns[t].kind.Call? {
        txns := txns[t := txns[t].(toParent := threads[x].stack, toThread := Some(x))];
        threads := threads[x := threads[x].(stack := Some(t))];
        graph := Serve(graph, graph.home[t].root, x);
        TakeUpIs(s1, x, t, Now());
      } else {
        buffers := buffers[b := buffers[b].(transaction := None)];
        txns := txns - {t};
        FinishIs(s1, t, Now());
      }
      LeadsNumbered(old(Seen()), Seen());
    }

    /** Which work `binder_thread_read` picks: its own first, then, if it waited for it, its process's. */
    method TakeNext(x: Tid, forProc: bool) returns (t: Option<TxnId>)
      requires Valid() && x in threads && threads[x].proc in procs
      requires forProc ==> threads[x].stack.None?
      modifies this
      ensures Valid() && Leads(old(Seen()), Seen())
      ensures t == if old(threads)[x].todo != [] then Some(old(threads)[x].todo[0])
                   else if forProc && old(procs)[old(threads)[x].proc] != [] then Some(old(procs)[old(threads)[x].proc][0])
                   else None
      ensures nextTxn == old(nextTxn) && (t.None? ==> Now() == old(Now()))
      ensures t.Some? ==> t.value in old(at) && Delivers(old(Now()), x, t.value, Now())
      ensures t.Some? ==>
                t.value in old(txns) && old(txns)[t.value].buffer.Some? && HandedOver(old(buffers), buffers, old(txns)[t.value].buffer.value)
      ensures InLine(old(Lined()), Lined())
    {
      hide Good, Leads, Numbered, Delivers, InLine, Heads, HandedOver;
      FirstIs(Now(), x);
      if threads[x].todo != [] {
        t := Some(threads[x].todo[0]);
        Deliver(x, t.value);
      } else if forProc && procs[threads[x].proc] != [] {
        t := Some(procs[threads[x].proc][0]);
        Deliver(x, t.value);
      } else {
        t := None;
        NextSame(Seen());
        SameInLine(Now(), Now(), nextTxn);
      }
    }

    /** `BC_FREE_BUFFER` on buffer `b`, found in the process of thread `x`. */
    method FreeBuffer(x: Tid, b: BufferId)
      requires Valid() && x in threads && b in buffers && buffers[b].proc == threads[x].proc
      modifies `buffers, `txns
      ensures Valid() && Leads(old(Seen()), Seen())
      ensures Now() == if old(buffers)[b].userFree then FreeBuf(old(Now()), b) else old(Now())
      ensures buffers == if old(buffers)[b].userFree then old(buffers) - {b} else old(buffers)
      ensures InLine(old(Lined()), Lined())
    {
      hide Good, Leads, Numbered, FreeBuf, InLine;
      SameInLine(Now(), Now(), nextTxn);
      if !buffers[b].userFree {
        NextSame(Seen());
        return;
      }
      FreeStep(Now(), nextTxn, b);
      FreedBuffers(Now(), b);
      DropBuffer(b);
      LeadsNumbered(old(Seen()), Seen());
    }

    /** Freeing the buffer of an active one-way transaction moves the next parked one to the freeing
        thread's own list. */
    method PromoteParked(x: Tid, t: TxnId)
      requires Valid() && x in threads && t in at && at[t] == Parked(threads[x].proc)
      modifies `threads, `at
      ensures Valid() && Leads(old(Seen()), Seen())
      ensures Now() == Promote(old(Now()), t, x)
      ensures threads[x].todo == old(threads)[x].todo + [t] && InLine(old(Lined()), Lined())
    {
      hide Good, Numbered, InLine;
      PromoteInLine(Now(), t, x, nextTxn);
      PromoteGood(Now(), t, x);
      threads := threads[x := threads[x].(todo := threads[x].todo + [t])];
      at := at[t := OnThread(x)];
      hide Leads;
      SameTxns(old(Seen()), Seen());
      LeadsNumbered(old(Seen()), Seen());
    }

    /** `binder_thread_read` reports the error slots; `room` words are left. When only one is, the second
        slot is reported and kept. */
    method ReadErrors(x: Tid, room: nat) returns (out: seq<Code>)
      requires Valid() && x in threads && threads[x].error != Ok && room > 0
      modifies `threads
      ensures Valid() && Leads(old(Seen()), Seen())
      ensures var th := old(threads)[x];
              if th.error2 != Ok && room == 1 then out == [th.error2] && threads == old(threads)
              else
                && out == (if th.error2 != Ok then [th.error2] else []) + [th.error]
                && threads == old(threads)[x := th.(error := Ok, error2 := Ok)]
      ensures threads[x].error != Ok <==> old(threads)[x].error2 != Ok && room == 1
      ensures InLine(old(Lined()), Lined())
    {
      hide Good, Numbered, Leads, InLine;
      SameInLine(Now(), Now(), nextTxn);
      out := [];
      NextSame(Seen());
      if threads[x].error2 != Ok {
        out := out + [threads[x].error2];
        if |out| == room {
          return;
        }
      }
      out := out + [threads[x].error];
      SlotsGood(Now(), {}, x, threads[x].(error := Ok, error2 := Ok));
      threads := threads[x := threads[x].(error := Ok, error2 := Ok)];
      SameInLine(old(Now()), Now(), nextTxn);
      SameTxns(old(Seen()), Seen());
      LeadsNumbered(old(Seen()), Seen());
    }

    /** `binder_free_thread`: takes the thread off the calls on its stack, fails the call it serves, and
        releases its work list. */
    method FreeThread(x: Tid)
      requires Valid() && x in threads
      modifies this
      ensures Valid() && Leads(old(Seen()), Seen())
      ensures x in old(graph).seat ==> old(graph).seat[x] in old(graph).chains
      ensures Now() == Bereaved(old(Now()), x) && nextTxn == old(nextTxn)
      ensures Idle(old(Lined()), Lined()) && InLine(old(Lined()), Lined())
    {
      hide Idle, InLine, Good, Leads, Numbered, Fail, FailAll, Tells, Die, Bury, Orphans;
      DieStart(Now(), nextTxn, x);
      var stack, todo := threads[x].stack, threads[x].todo;
      var sendReply: Option<TxnId> := None;
      if stack.Some? && txns[stack.value].toThread == Some(x) {
        sendReply := stack;
      }
      Unstack(x);
      at := Elsewhere(at, x);
      graph := Bury(graph, x);
      DieIs(old(Now()), x, Now());
      if sendReply.Some? {
        FailNext(old(Seen()), Now(), nextTxn, Orphans(old(Now()), x), sendReply.value, DeadReply);
        OrphanRest(old(Now()), x, sendReply.value);
        SendFailedReply(sendReply.value, DeadReply, Orphans(old(Now()), x));
      }
      ReleaseWork(todo, old(Seen()));
      LeadsNumbered(old(Seen()), Seen());
      BereavedIdle(old(Now()), x, nextTxn);
      IdleInLine(old(Lined()), Lined());
    }

    /** The loop of `binder_free_thread` down the thread's stack. Every transaction it meets is to or from
        the thread. */
    method Unstack(x: Tid)
      requires Valid() && x in threads
      modifies `threads, `txns, `buffers
      ensures threads == old(threads) - {x}
      ensures txns == Buried(old(txns), graph, x, 0, 0)
      ensures buffers == Untied(old(buffers), txns)
    {
      hide Good, Buried, Untied, WalkAt, Numbered;
      ghost var s := Now();
      UnstackStart(s, x);
      var t := threads[x].stack;
      threads := threads - {x};
      ghost var kf, kt := Seats(graph, x), Seats(graph, x);
      while t.Some?
        invariant txns == Buried(s.txns, s.graph, x, kf, kt)
        invariant buffers == Untied(s.buffers, txns)
        invariant WalkAt(s.graph, x, t, kf, kt)
        invariant threads == old(threads) - {x}
        decreases kf + kt
      {
        ghost var kf', kt' := UnstackStep(s, x, t.value, kf, kt);
        var u := t.value;
        if txns[u].toThread == Some(x) {
          t := txns[u].toParent;
          if txns[u].buffer.Some? {
            var b := txns[u].buffer.value;
            buffers := buffers[b := buffers[b].(transaction := None)];
          }
          txns := txns[u := txns[u].(toThread := None, buffer := None)];
        } else if txns[u].from == Some(x) {
          t := txns[u].fromParent;
          txns := txns[u := txns[u].(from := None)];
        } else {
          assert false;
        }
        kf, kt := kf', kt';
      }
      WalkLast(s.graph, x, kf, kt);
      WalkEnd(s.txns, s.graph, x, kt);
    }

    /** A new thread of process `p`. */
    method NewThread(x: Tid, p: Pid)
      requires Valid() && x !in threads
      modifies `threads
      ensures Valid() && Leads(old(Seen()), Seen())
      ensures threads == old(threads)[x := Thread(p, None, Ok, Ok, [])] && InLine(old(Lined()), Lined())
    {
      hide Good, Numbered, Leads, InLine;
      NewThreadGood(Now(), x, Thread(p, None, Ok, Ok, []));
      threads := threads[x := Thread(p, None, Ok, Ok, [])];
      IdleInLine(old(Lined()), Lined());
      SameTxns(old(Seen()), Seen());
      LeadsNumbered(old(Seen()), Seen());
    }

    method NewProc(p: Pid)
      requires Valid() && p !in procs
      modifies `procs
      ensures Valid() && procs == old(procs)[p := []] && InLine(old(Lined()), Lined())
    {
      hide Good, Numbered, InLine;
      NewProcGood(Now(), p);
      procs := procs[p := []];
      IdleInLine(old(Lined()), Lined());
    }

    /** The process's list in `binder_deferred_release`, after its threads are gone. */
    method ReleaseProc(p: Pid)
      requires Valid() && p in procs
      modifies this
      ensures Valid() && Leads(old(Seen()), Seen())
      ensures Now() == FailAll(Shut(old(Now()), p), old(procs)[p], DeadReply)
      ensures Idle(old(Lined()), Lined()) && InLine(old(Lined()), Lined())
    {
      hide Good, Numbered, Leads, FailAll, Idle, InLine, SameLists;
      ShutGood(Now(), p);
      var todo := procs[p];
      procs := procs - {p};
      at := NotOnProc(at, p);
      NextSame(Seen());
      ReleaseWork(todo, Seen());
      LeadsNumbered(old(Seen()), Seen());
      ShutIdle(old(Now()), p, nextTxn);
      FailAllSame(Shut(old(Now()), p), todo, DeadReply);
      IdleSame(old(Now()), Shut(old(Now()), p), Now(), nextTxn);
      IdleInLine(old(Lined()), Lined());
    }

    /** A parked one-way transaction of a node that goes away is dropped. */
    ghost method DropParked(t: TxnId)
      requires Valid() && t in at && at[t].Parked?
      modifies `at
      ensures Valid() && at == old(at) - {t} && InLine(old(Lined()), Lined())
    {
      hide InLine, GraphOk, CallsOk, StacksOk, BuffersOk, ErrorsOk, OpenOk, CanServe, Leaf, Numbered;
      ParkedOneWay(Now(), t);
      TakeGood(Now(), {}, t);
      at := at - {t};
      assert Now() == Take(old(Now()), t);
      IdleInLine(old(Lined()), Lined());
    }

    /** Buffer `b` goes; a transaction that points at it loses it. */
    method DropBuffer(b: BufferId)
      requires b in buffers && (buffers[b].transaction.Some? ==> buffers[b].transaction.value in txns)
      modifies `buffers, `txns
      ensures Now() == FreeBuf(old(Now()), b)
    {
      if buffers[b].transaction.Some? {
        var t := buffers[b].transaction.value;
        txns := txns[t := txns[t].(buffer := None)];
      }
      buffers := buffers - {b};
    }

    /** The loop of `binder_deferred_release` over the buffers of process `p`: transactions that were
        dropped lose theirs. */
    method ReleaseBuffers(p: Pid)
      requires Valid() && p !in procs
      requires forall x :: x in threads ==> threads[x].proc != p
      requires forall t :: t in at ==> at[t] != Parked(p)
      modifies `buffers, `txns
      ensures Valid() && Leads(old(Seen()), Seen())
      ensures forall b :: b in buffers <==> b in old(buffers) && old(buffers)[b].proc != p
      ensures SameButBuffers(old(txns), txns) && InLine(old(Lined()), Lined())
    {
      hide Good, Numbered, Leads, FreeBuf, SameButBuffers, InLine;
      SameInLine(Now(), Now(), nextTxn);
      ghost var gone: set<BufferId> := {};
      Unchanged(txns, txns);
      while exists b :: b in buffers && buffers[b].proc == p
        invariant Good(Now(), {})
        invariant buffers == old(buffers) - gone
        invariant forall b :: b in gone ==> b in old(buffers) && old(buffers)[b].proc == p
        invariant SameButBuffers(old(txns), txns)
        decreases buffers.Keys
      {
        var b :| b in buffers && buffers[b].proc == p;
        ghost var s := Now();
        OutOfUse(s, p, b);
        DropStep(s, b);
        FreeBufSame(old(txns), s, b);
        DropBuffer(b);
        gone := gone + {b};
      }
      StillCounted(old(Seen()), Seen());
    }

    constructor ()
      ensures Valid() && threads == map[] && txns == map[] && buffers == map[] && procs == map[] && at == map[]
      ensures nextTxn == 0 && graph == Graph(map[], map[], map[])
    {
      threads, txns, buffers, procs, nextTxn := map[], map[], map[], map[], 0;
      graph, at := Graph(map[], map[], map[]), map[];
    }
  }

  // ---- the lists ----

  /** The receiver may free buffer `b`; no other buffer changed. */
  ghost predicate HandedOver(before: map<BufferId, Buffer>, after: map<BufferId, Buffer>, b: BufferId) {
    && b in before && b in after && after[b].userFree && after[b].proc == before[b].proc
    && forall c :: c != b ==> (c in after <==> c in before) && (c in before ==> after[c] == before[c])
  }

  lemma DeliverLists(s: World, n: TxnId, x: Tid, t: TxnId, s': World)
    requires x in s.threads && t in s.at && First(s.threads, s.procs, s.at[t], t) && !s.at[t].Parked? && Delivers(s, x, t, s')
    ensures Heads(LineOf(s, n), LineOf(s', n), t, s.at[t]) && InLine(LineOf(s, n), LineOf(s', n))
    ensures t in s.txns && s.txns[t].buffer.Some? && HandedOver(s.buffers, s'.buffers, s.txns[t].buffer.value)
  {
    TakenBuffers(s, x, t, s');
    hide Leaf, TakeUp, Finish, Heads, InLine, HandedOver, RestThreads, RestProcs, SameLists;
    TakenSame(Take(s, t), x, t);
    TakeHeads(s, x, t, s', n);
    HeadsInLine(LineOf(s, n), LineOf(s', n), t, s.at[t]);
  }

  lemma TakenBuffers(s: World, x: Tid, t: TxnId, s': World)
    requires x in s.threads && t in s.at && Delivers(s, x, t, s')
    ensures t in s.txns && s.txns[t].buffer.Some? && HandedOver(s.buffers, s'.buffers, s.txns[t].buffer.value)
  {
    hide Leaf, Serve, RestThreads, RestProcs;
  }

  lemma FreedBuffers(s: World, b: BufferId)
    requires b in s.buffers
    ensures FreeBuf(s, b).buffers == s.buffers - {b}
  {
  }

  lemma SameInLine(s: World, s': World, n: TxnId)
    requires SameLists(s, s')
    ensures InLine(LineOf(s, n), LineOf(s', n))
  {
    SameIdle(s, s', n);
    IdleInLine(LineOf(s, n), LineOf(s', n));
  }

  /** Between steps, what waits on a list was sent before and is on it once. */
  lemma ValidOrderly(s: World, n: TxnId)
    requires Good(s, {}) && Numbered(Snap(s, n))
    ensures Orderly(LineOf(s, n))
  {
    hide GraphOk, CallsOk, StacksOk, ErrorsOk, BuffersOk, OpenOk, ListsOk;
    forall t | t in s.at ensures t < n {
      assert QueuedOk(s, t);
    }
    OrderlyIs(s, n);
  }

  lemma {:induction false} FailAllSame(s: World, ts: seq<TxnId>, code: Code)
    ensures SameLists(s, FailAll(s, ts, code))
    decreases |ts|
  {
    hide Fail;
    if ts != [] {
      if ts[0] in s.txns && Leaf(s.graph, ts[0]) {
        FailSame(s, ts[0], code);
      }
      FailAllSame(if ts[0] in s.txns && Leaf(s.graph, ts[0]) then Fail(s, ts[0], code) else s, ts[1..], code);
    }
  }

  lemma BereavedIdle(s: World, x: Tid, n: TxnId)
    requires x in s.threads && (x in s.graph.seat ==> s.graph.seat[x] in s.graph.chains)
    ensures Idle(LineOf(s, n), LineOf(Bereaved(s, x), n))
  {
    hide Idle, Die, Fail, FailAll, Serving, Leaf;
    DieIdle(s, x, n);
    var s1 := Die(s, x);
    var t := if s.threads[x].stack.Some? then s.threads[x].stack.value else 0;
    var s2 := if s.threads[x].stack.Some? && Serving(s.graph, x, t) && t in s1.txns && Leaf(s1.graph, t)
              then Fail(s1, t, DeadReply) else s1;
    if s.threads[x].stack.Some? && Serving(s.graph, x, t) && t in s1.txns && Leaf(s1.graph, t) {
      FailSame(s1, t, DeadReply);
    }
    FailAllSame(s2, s.threads[x].todo, DeadReply);
    IdleSame(s, s1, FailAll(s2, s.threads[x].todo, DeadReply), n);
  }

  lemma ReplyLines(s: World, n: TxnId, x: Tid, b: Option<BufferId>, failure: Code, s': World, n': TxnId)
    requires x in s.threads && Replies(s, n, x, b, failure, s', n')
    ensures InLine(LineOf(s, n), LineOf(s', n'))
    ensures n' > n ==>
              s.threads[x].stack.Some? && var t := s.threads[x].stack.value;
              t in s.txns && s.txns[t].from.Some? && Joins(LineOf(s, n), LineOf(s', n'), n, OnThread(s.txns[t].from.value))
  {
    hide InLine, Joins, HandBack, Fail, Tells, Post, Pop, Serving, Leaf, SameLists;
    var t := if s.threads[x].stack.Some? then s.threads[x].stack.value else 0;
    if s.threads[x].stack.None? || t !in s.txns || !Serving(s.graph, x, t) {
      ErrorLists(s, s, x, FailedReply);
      SameInLine(s, s', n);
    } else {
      var s1 := HandBack(s, x, t);
      BackSame(s, x, t);
      HandBackSame(s, x, t);
      if s.txns[t].from.None? || b.None? {
        ErrorLists(s, s1, x, TransactionComplete);
        FailLines(s, WithError(s1, x, TransactionComplete), t, if s.txns[t].from.None? then DeadReply else failure, n);
      } else {
        ReplyJoins(s, s1, t, s.txns[t].from.value, Txn(Reply, None, None, Some(s.txns[t].from.value), None, b), b.value, n);
      }
    }
  }

  lemma ErrorLists(s: World, s1: World, x: Tid, code: Code)
    requires x in s1.threads && (s1 == s || SameLists(s, s1))
    ensures SameLists(s, WithError(s1, x, code))
  {
  }

  lemma FailLines(s: World, s1: World, t: TxnId, code: Code, n: TxnId)
    requires SameLists(s, s1) && t in s1.txns && Leaf(s1.graph, t)
    ensures InLine(LineOf(s, n), LineOf(Fail(s1, t, code), n))
  {
    hide Fail, Leaf, InLine;
    FailSame(s1, t, code);
    SameInLine(s, Fail(s1, t, code), n);
  }

  lemma ReplyJoins(s: World, s1: World, t: TxnId, y: Tid, w: Txn, b: BufferId, n: TxnId)
    requires SameLists(s, s1) && t in s1.txns && Leaf(s1.graph, t) && y in s.threads
    ensures var s' := Post(Pop(s1, t), n, w, OnThread(y), b, s.threads[y].proc);
            InLine(LineOf(s, n), LineOf(s', n + 1)) && Joins(LineOf(s, n), LineOf(s', n + 1), n, OnThread(y))
  {
    hide Leaf, InLine, Joins, Post, Pop;
    PopLists(s1, t);
    PostJoins(Pop(s1, t), n, w, OnThread(y), b, s.threads[y].proc);
    SameJoins(s, Pop(s1, t), Post(Pop(s1, t), n, w, OnThread(y), b, s.threads[y].proc), n, OnThread(y));
    JoinsInLine(LineOf(s, n), LineOf(Post(Pop(s1, t), n, w, OnThread(y), b, s.threads[y].proc), n + 1), n, OnThread(y));
  }

  lemma TellIs(s: World, t: TxnId, code: Code, s': World)
    requires t in s.txns && Leaf(s.graph, t) && s.txns[t].from.Some? && s.txns[t].from.value in s.threads
    requires var x := s.txns[t].from.value;
             s' == World(s.threads[x := Told(s.threads[x], s.txns[t].fromParent, code)], s.txns - {t},
                         Unlinked(s.buffers, s.txns[t]), s.procs, s.at, PopLeaf(s.graph, s.graph.home[t].root))
    ensures s' == Tell(s, t, code)
  {
  }

  lemma PopIs(s: World, t: TxnId, s': World)
    requires t in s.txns && Leaf(s.graph, t)
    requires s' == World(WithPopped(s.threads, s.txns[t]), s.txns - {t}, Unlinked(s.buffers, s.txns[t]), s.procs, s.at,
                         PopLeaf(s.graph, s.graph.home[t].root))
    ensures s' == Pop(s, t)
  {
  }

  // ---- a self call can come about ----

  method TwoThreads() returns (d: Driver)
    ensures fresh(d) && d.Valid() && d.nextTxn == 0 && d.procs == map[0 := [], 1 := []] && d.buffers == map[] && d.txns == map[]
    ensures d.threads == map[0 := Thread(0, None, Ok, Ok, []), 1 := Thread(1, None, Ok, Ok, [])]
    ensures d.graph == Graph(map[], map[], map[]) && d.at == map[]
  {
    hide Good, Leads, Numbered, Driver.Valid;
    d := new Driver();
    d.NewProc(0);
    d.NewProc(1);
    d.NewThread(0, 0);
    d.NewThread(1, 1);
  }

  /** Thread 0 of process 0 calls process 1, whose thread 1 takes the call up. */
  method FirstCall() returns (d: Driver)
    ensures fresh(d) && d.Valid() && d.nextTxn == 1 && d.procs.Keys == {0, 1} && d.buffers.Keys == {0}
    ensures d.threads == map[0 := Thread(0, Some(0), Ok, Ok, []), 1 := Thread(1, Some(0), Ok, Ok, [])]
    ensures d.txns == map[0 := Txn(Call, Some(0), None, Some(1), None, Some(0))]
    ensures d.graph == OneCall()
  {
    hide Good, Leads, Numbered, Driver.Valid, Furthest;
    d := TwoThreads();
    d.SendCall(0, 1, Some(0));
    ghost var called := d.graph;
    assert called == Extend(Graph(map[], map[], map[]), 0, 0);
    assert d.threads == map[0 := Thread(0, Some(0), Ok, Ok, []), 1 := Thread(1, None, Ok, Ok, [])];
    assert [] + [0] == [0];
    assert d.procs[0] == [] && d.procs[1] == [0];
    assert d.procs == map[0 := [], 1 := [0]] && d.buffers == map[0 := Buffer(1, Some(0), false)] && d.nextTxn == 1;
    ghost var sent := d.Now();
    var t := d.TakeNext(1, true);
    FirstTaken(sent, d.Now());
  }

  lemma FirstTaken(s: World, s': World)
    requires 0 in s.at && s.at[0] == OnProc(1) && s.procs == map[0 := [], 1 := [0]]
    requires s.threads == map[0 := Thread(0, Some(0), Ok, Ok, []), 1 := Thread(1, None, Ok, Ok, [])]
    requires s.txns == map[0 := Txn(Call, Some(0), None, None, None, Some(0))]
    requires s.buffers == map[0 := Buffer(1, Some(0), false)] && s.graph == Extend(Graph(map[], map[], map[]), 0, 0)
    requires Delivers(s, 1, 0, s')
    ensures s'.graph == OneCall() && s'.procs.Keys == {0, 1} && s'.buffers.Keys == {0}
    ensures s'.threads == map[0 := Thread(0, Some(0), Ok, Ok, []), 1 := Thread(1, Some(0), Ok, Ok, [])]
    ensures s'.txns == map[0 := Txn(Call, Some(0), None, Some(1), None, Some(0))]
  {
    assert s.graph == Graph(map[0 := Chain([0], [Some(0)])], map[0 := Place(0, 0)], map[0 := 0]);
    assert [Some(0)] + [Some(1)] == [Some(0), Some(1)];
    assert s'.graph == Serve(s.graph, 0, 1);
    assert s'.graph.chains[0] == OneCall().chains[0];
    assert s'.graph.chains == OneCall().chains;
  }

  /** Thread 1, while serving the call, calls process 0 back. */
  method SecondCall() returns (d: Driver)
    ensures fresh(d) && d.Valid() && d.procs.Keys == {0, 1} && d.buffers.Keys == {0, 1} && 1 in d.at && d.at[1] == OnThread(0)
    ensures d.threads == map[0 := Thread(0, Some(0), Ok, Ok, [1]), 1 := Thread(1, Some(1), Ok, Ok, [])]
    ensures d.txns == map[0 := Txn(Call, Some(0), None, Some(1), None, Some(0)), 1 := Txn(Call, Some(1), Some(0), Some(0), None, Some(1))]
    ensures d.graph == Extend(OneCall(), 1, 1)
  {
    hide Good, Leads, Numbered, Driver.Valid, Extend, Chosen, Calls, OneCall, MayCall;
    d := FirstCall();
    CalledBackTo(d.threads);
    ghost var s := d.Now();
    OneServed(s);
    d.SendCall(1, 0, Some(1));
    SecondSent(s, d.Now(), d.nextTxn);
  }

  lemma OneServed(s: World)
    requires s.graph == OneCall()
    ensures MayCall(s, 1)
  {
  }

  lemma SecondSent(s: World, s': World, n': TxnId)
    requires s.threads == map[0 := Thread(0, Some(0), Ok, Ok, []), 1 := Thread(1, Some(0), Ok, Ok, [])]
    requires s.txns == map[0 := Txn(Call, Some(0), None, Some(1), None, Some(0))] && s.procs.Keys == {0, 1} && s.buffers.Keys == {0}
    requires MayCall(s, 1) && Chosen(s.threads, s.graph, 1, 0) == Some(0) && Calls(s, 1, 1, 0, Some(1), s', n')
    ensures s'.procs.Keys == {0, 1} && s'.buffers.Keys == {0, 1} && 1 in s'.at && s'.at[1] == OnThread(0)
    ensures s'.threads == map[0 := Thread(0, Some(0), Ok, Ok, [1]), 1 := Thread(1, Some(1), Ok, Ok, [])]
    ensures s'.txns == s.txns[1 := Txn(Call, Some(1), Some(0), Some(0), None, Some(1))] && s'.graph == Extend(s.graph, 1, 1)
  {
    hide Extend, Chosen;
    assert [] + [1] == [1];
    assert s'.threads[0] == Thread(0, Some(0), Ok, Ok, [1]) && s'.threads[1] == Thread(1, Some(1), Ok, Ok, []);
  }

  /** Thread 0, which waits for thread 1, takes that up. A call of thread 0 to its own process would now come back
      to itself. */
  method CalledBack() returns (d: Driver)
    ensures fresh(d) && d.Valid() && 0 in d.procs && 2 !in d.buffers
    ensures d.threads == map[0 := Thread(0, Some(1), Ok, Ok, []), 1 := Thread(1, Some(1), Ok, Ok, [])]
    ensures d.txns == map[0 := Txn(Call, Some(0), None, Some(1), None, Some(0)), 1 := Txn(Call, Some(1), Some(0), Some(0), Some(0), Some(1))]
    ensures MayCall(d.Now(), 0) && Chosen(d.threads, d.graph, 0, 0) == Some(0)
  {
    hide Good, Leads, Numbered, Driver.Valid, Extend, Serve, Chosen;
    d := SecondCall();
    ghost var sent := d.Now();
    var t := d.TakeNext(0, false);
    assert t == Some(1);
    SecondTaken(sent, d.Now());
    CallsNested();
    SelfChosen(d.threads);
  }

  lemma SecondTaken(s: World, s': World)
    requires 1 in s.at && s.at[1] == OnThread(0) && 1 in s.txns && s.txns[1].kind.Call?
    requires s.threads == map[0 := Thread(0, Some(0), Ok, Ok, [1]), 1 := Thread(1, Some(1), Ok, Ok, [])]
    requires Delivers(s, 0, 1, s')
    ensures s'.threads == map[0 := Thread(0, Some(1), Ok, Ok, []), 1 := Thread(1, Some(1), Ok, Ok, [])]
    ensures s'.txns == s.txns[1 := s.txns[1].(toParent := Some(0), toThread := Some(0))] && s'.buffers.Keys == s.buffers.Keys
    ensures s'.procs == s.procs && 1 in s.graph.home && s'.graph == Serve(s.graph, s.graph.home[1].root, 0)
  {
    hide Serve;
    assert [1][1..] == [];
    assert s'.threads[0] == Thread(0, Some(1), Ok, Ok, []) && s'.threads[1] == s.threads[1];
  }

  /** So it does, and what holds between steps is lost. */
  method SelfCall() returns (d: Driver)
    ensures fresh(d) && !d.Valid()
  {
    hide Good, Leads, Numbered, Driver.Valid, Chosen, MayCall;
    d := CalledBack();
    d.SendCall(0, 0, Some(2));
  }

  /** The effect of a reply that fails, when the caller is alive: its call is over and it is told. */
  lemma FailedIs(s: World, n: TxnId, x: Tid, t: TxnId, y: Tid, failure: Code, s': World, n': TxnId)
    requires Good(s, {}) && x in s.threads && s.threads[x].stack == Some(t) && t in s.txns && s.txns[t].toThread == Some(x)
    requires s.txns[t].from == Some(y) && y in s.threads && y != x && Replies(s, n, x, None, failure, s', n')
    ensures s'.txns == s.txns - {t}
    ensures var told := Told(s.threads[y], s.txns[t].fromParent, failure);
            s'.threads == s.threads[x := s.threads[x].(stack := s.txns[t].toParent, error := TransactionComplete)][y := told]
  {
    hide Good, Tells, Serving, Leaf, PopLeaf, Return, Above;
    TopOfStack(s, x);
    var s1 := HandBack(s, x, t);
    FailThreads(WithError(s1, x, TransactionComplete), t, failure);
  }

  lemma FailThreads(s: World, t: TxnId, failure: Code)
    requires t in s.txns && Leaf(s.graph, t) && s.txns[t].from.Some? && s.txns[t].from.value in s.threads
    ensures Fail(s, t, failure).txns == s.txns - {t}
    ensures var y := s.txns[t].from.value;
            Fail(s, t, failure).threads == s.threads[y := Told(s.threads[y], s.txns[t].fromParent, failure)]
  {
    hide Leaf, PopLeaf, Above;
  }

  /** Both error slots of a thread come to be filled: thread 0 fails in its reply to the call back, and its own
      call fails before it reads that its reply is done. Then a buffer with room for one word reports the same
      slot each time. */
  method ReadTwice() returns (d: Driver, first: seq<Code>, second: seq<Code>)
    ensures fresh(d) && d.Valid() && first == second == [TransactionComplete]
    ensures 0 in d.threads && d.threads[0].error == FailedReply && d.threads[0].error2 == TransactionComplete
  {
    hide Good, Leads, Numbered, Driver.Valid, Chosen, MayCall, Replies;
    d := CalledBack();
    ghost var s, n := d.Now(), d.nextTxn;
    GoodNow(d);
    d.SendReply(0, None, FailedReply);
    FailedIs(s, n, 0, 1, 1, FailedReply, d.Now(), d.nextTxn);
    assert d.threads == map[0 := Thread(0, Some(0), TransactionComplete, Ok, []), 1 := Thread(1, Some(0), FailedReply, Ok, [])];
    var told := d.ReadErrors(1, 2);
    s, n := d.Now(), d.nextTxn;
    GoodNow(d);
    d.SendReply(1, None, FailedReply);
    FailedIs(s, n, 1, 0, 0, FailedReply, d.Now(), d.nextTxn);
    first := d.ReadErrors(0, 1);
    second := d.ReadErrors(0, 1);
  }

  lemma GoodNow(d: Driver)
    requires d.Valid()
    ensures Good(d.Now(), {})
  {
  }

  function OneCall(): Graph {
    Graph(map[0 := Chain([0], [Some(0), Some(1)])], map[0 := Place(0, 0)], map[0 := 0, 1 := 0])
  }

  function TwoCalls(): Graph {
    Graph(map[0 := Chain([0, 1], [Some(0), Some(1), Some(0)])], map[0 := Place(0, 0), 1 := Place(0, 1)], map[0 := 0, 1 := 0])
  }

  lemma CallsNested()
    ensures var g := Extend(OneCall(), 1, 1);
            1 in g.home && g.home[1].root == 0 && 0 in g.chains && Serve(g, 0, 0) == TwoCalls()
  {
    var g := Extend(OneCall(), 1, 1);
    assert g.chains[0].txns == [0, 1] && g.chains[0].actors == [Some(0), Some(1)];
    assert Serve(g, 0, 0).chains[0] == TwoCalls().chains[0];
    assert Serve(g, 0, 0).chains == TwoCalls().chains;
  }

  lemma CalledBackTo(threads: map<Tid, Thread>)
    requires threads.Keys == {0, 1} && threads[0].proc == 0
    ensures Chosen(threads, OneCall(), 1, 0) == Some(0)
  {
    FurthestStep(threads, [Some(0), Some(1)], 0, 1);
    FurthestStep(threads, [Some(0), Some(1)], 0, 0);
  }

  lemma SelfChosen(threads: map<Tid, Thread>)
    requires 0 in threads && threads[0].proc == 0
    ensures Chosen(threads, TwoCalls(), 0, 0) == Some(0)
  {
    var actors := [Some(0), Some(1), Some(0)];
    FurthestStep(threads, actors, 0, 2);
    FurthestStep(threads, actors, 0, 1);
    FurthestStep(threads, actors, 0, 0);
  }
}
