/** Failing a call: who is told, which calls are over, and that nobody else notices. */
module Failures {
  import opened Wrappers
  import opened Chains
  import opened Stacks
  import opened States
  import opened Popping
  import opened Runs

  /** The nearest seat below `n` whose thread is alive. */
  function LastAlive(actors: seq<Option<Tid>>, n: nat): (k: Option<nat>)
    requires n <= |actors|
    ensures k.Some? ==> k.value < n && actors[k.value].Some? && forall i :: k.value < i < n ==> actors[i].None?
    ensures k.None? ==> forall i :: 0 <= i < n ==> actors[i].None?
  {
    if n == 0 then None else if actors[n - 1].Some? then Some(n - 1) else LastAlive(actors, n - 1)
  }

  lemma {:induction false} LastAlivePrefix(a: seq<Option<Tid>>, b: seq<Option<Tid>>, n: nat)
    requires n <= |a| && n <= |b| && a[..n] == b[..n]
    ensures LastAlive(a, n) == LastAlive(b, n)
  {
    if n > 0 {
      assert a[n - 1] == a[..n][n - 1] && b[n - 1] == b[..n][n - 1];
      assert a[..n - 1] == a[..n][..n - 1] && b[..n - 1] == b[..n][..n - 1];
      LastAlivePrefix(a, b, n - 1);
    }
  }

  /** The calls of a chain from place `k` on. */
  function FromPlace(c: Chain, k: nat): set<TxnId>
    requires k <= |c.txns|
  {
    set i | k <= i < |c.txns| :: c.txns[i]
  }

  /** The chain of a failing call. */
  ghost function ChainOf(s: World, t: TxnId): (c: Chain)
    requires Leaf(s.graph, t)
    ensures Shaped(c) && Opened(c) && LeafOf(c) == t
  {
    s.graph.chains[s.graph.home[t].root]
  }

  /** What failing call `t` comes to: the calls from the nearest live caller's place on are over, that
      caller gets back the stack it had, and is told. */
  ghost predicate Tells(s: World, t: TxnId, code: Code, s': World)
    requires Leaf(s.graph, t)
  {
    var c := ChainOf(s, t);
    match LastAlive(c.actors, |c.txns|)
    case Some(k) =>
      var x := c.actors[k].value;
      && x in s.threads && s.threads[x].stack == Some(c.txns[k])
      && s'.txns == s.txns - FromPlace(c, k)
      && s'.threads == s.threads[x := Told(s.threads[x], if k == 0 then None else Some(c.txns[k - 1]), code)]
    case None =>
      s'.txns == s.txns - FromPlace(c, 0) && s'.threads == s.threads
  }

  lemma LeafPlaced(s: World, pending: set<TxnId>, t: TxnId)
    requires Good(s, pending) && t in pending
    ensures t in s.txns && Leaf(s.graph, t) && s.txns[t].kind.Call?
    ensures Placed(s.txns[t], ChainOf(s, t), |ChainOf(s, t).txns| - 1)
  {
    LeafOk(s.txns, s.graph, s.graph.home[t].root);
  }

  /** Popping the leaf of a chain whose last caller is dead leaves the rest of the chain. */
  lemma PopChain(s: World, pending: set<TxnId>, t: TxnId)
    requires Good(s, pending) && t in pending && t in s.txns && s.txns[t].from.None?
    ensures Leaf(s.graph, t)
    ensures var c := ChainOf(s, t); var n := |c.txns| - 1;
            && c.actors[n].None?
            && (Above(s, t).Some? <==> n > 0)
            && (n > 0 ==> ChainOf(Pop(s, t), Above(s, t).value) == Chain(c.txns[..n], c.actors[..n]))
  {
    PopNext(s, pending, t);
    LeafPlaced(s, pending, t);
  }

  lemma {:induction false} FailTells(s: World, pending: set<TxnId>, t: TxnId, code: Code)
    requires Good(s, pending) && t in pending && code != Ok
    ensures t in s.txns && Leaf(s.graph, t)
    ensures Tells(s, t, code, Fail(s, t, code))
    decreases s.txns.Keys
  {
    hide Good, Placed;
    PopGood(s, pending, t);
    PopNext(s, pending, t);
    var c := ChainOf(s, t);
    LeafPlaced(s, pending, t);
    if s.txns[t].from.Some? {
      TellTells(s, pending, t, code);
    } else {
      PopChain(s, pending, t);
      var n := |c.txns| - 1;
      if Above(s, t).Some? {
        var next := Above(s, t).value;
        FailTells(Pop(s, t), pending - {t} + {next}, next, code);
        TellsMore(s, t, code, next, Fail(s, t, code));
      } else {
        assert FromPlace(c, 0) == {t};
      }
    }
  }

  lemma TellTells(s: World, pending: set<TxnId>, t: TxnId, code: Code)
    requires Good(s, pending) && t in pending && code != Ok && t in s.txns && s.txns[t].from.Some?
    ensures Leaf(s.graph, t) && Tells(s, t, code, Fail(s, t, code))
  {
    hide Good;
    TellGood(s, pending, t, code);
    LeafPlaced(s, pending, t);
    var c := ChainOf(s, t);
    LastAliveTop(c);
    LastPlace(c);
    hide Leaf, LeafOf, PopLeaf, ChainOf;
  }

  lemma LastAliveTop(c: Chain)
    requires Shaped(c) && Opened(c) && c.actors[|c.txns| - 1].Some?
    ensures LastAlive(c.actors, |c.txns|) == Some(|c.txns| - 1)
  {
  }

  lemma LastPlace(c: Chain)
    requires |c.txns| > 0
    ensures FromPlace(c, |c.txns| - 1) == {c.txns[|c.txns| - 1]}
  {
  }

  lemma TellsMore(s: World, t: TxnId, code: Code, next: TxnId, s': World)
    requires t in s.txns && Leaf(s.graph, t) && Above(s, t) == Some(next) && s.txns[t].from.None?
    requires var c := ChainOf(s, t); var n := |c.txns| - 1;
             n > 0 && c.actors[n].None? && ChainOf(Pop(s, t), next) == Chain(c.txns[..n], c.actors[..n])
    requires Tells(Pop(s, t), next, code, s')
    ensures Tells(s, t, code, s')
  {
    var c := ChainOf(s, t);
    var n := |c.txns| - 1;
    var d := ChainOf(Pop(s, t), next);
    hide Leaf, Above, PopLeaf;
    LastAlivePrefix(c.actors, d.actors, n);
    forall k: nat | k <= n ensures FromPlace(c, k) == FromPlace(d, k) + {t} {
      PlacesMore(c, d, k);
    }
  }

  lemma PlacesMore(c: Chain, d: Chain, k: nat)
    requires |c.txns| > 0 && d.txns == c.txns[..|c.txns| - 1] && k < |c.txns|
    ensures FromPlace(c, k) == FromPlace(d, k) + {c.txns[|c.txns| - 1]}
  {
    forall u | u in FromPlace(d, k) ensures u in FromPlace(c, k) {
      var i :| k <= i < |d.txns| && d.txns[i] == u;
      assert c.txns[i] == u;
    }
    forall u | u in FromPlace(c, k) && u != c.txns[|c.txns| - 1] ensures u in FromPlace(d, k) {
      var i :| k <= i < |c.txns| && c.txns[i] == u;
      assert d.txns[i] == u;
    }
  }

  // ---- the rest of the world ----

  ghost function Snap(s: World, nextTxn: TxnId): Snapshot {
    Snapshot(s.threads, s.txns, nextTxn)
  }

  /** Transactions that are not calls, and the leaves of other chains, stay as they are. */
  lemma {:induction false} FailKeeps(s: World, pending: set<TxnId>, t: TxnId, code: Code, u: TxnId)
    requires Good(s, pending) && t in pending && code != Ok && u in s.txns
    requires !s.txns[u].kind.Call? || (u in pending && u != t)
    ensures t in s.txns && Leaf(s.graph, t)
    ensures u in Fail(s, t, code).txns && Fail(s, t, code).txns[u] == s.txns[u]
    decreases s.txns.Keys
  {
    hide Good;
    PopGood(s, pending, t);
    PopNext(s, pending, t);
    if s.txns[t].from.Some? {
      TellGood(s, pending, t, code);
    } else if Above(s, t).Some? {
      var next := Above(s, t).value;
      NextNew(s, pending, t);
      FailKeeps(Pop(s, t), pending - {t} + {next}, next, code, u);
    }
  }

  /** Failing a call, as the last part of a step that began at `a`, settles what it ends. */
  lemma {:induction false} FailNext(a: Snapshot, s: World, n: TxnId, pending: set<TxnId>, t: TxnId, code: Code)
    requires Good(s, pending) && t in pending && code != Ok && Leads(a, Snap(s, n))
    ensures t in s.txns && Leaf(s.graph, t)
    ensures Leads(a, Snap(Fail(s, t, code), n))
    decreases s.txns.Keys
  {
    hide Good, Leads;
    PopGood(s, pending, t);
    PopNext(s, pending, t);
    if s.txns[t].from.Some? {
      TellGood(s, pending, t, code);
      TellNext(a, s, n, t, code);
    } else {
      PopDead(a, s, n, t);
      if Above(s, t).Some? {
        var next := Above(s, t).value;
        FailNext(a, Pop(s, t), n, pending - {t} + {next}, next, code);
      }
    }
  }

  lemma PopDead(a: Snapshot, s: World, n: TxnId, t: TxnId)
    requires t in s.txns && Leaf(s.graph, t) && s.txns[t].from.None? && s.txns[t].kind.Call?
    requires Leads(a, Snap(s, n))
    ensures Leads(a, Snap(Pop(s, t), n))
  {
    var b, c := Snap(s, n), Snap(Pop(s, t), n);
    hide Pop, Leaf;
    PopSame(s, t);
    forall u | u in c.txns && u !in a.txns ensures Born(a, c, u) {
      assert Born(a, b, u);
    }
    forall u | u in c.txns && u in a.txns ensures Carried(a, c, u) {
      assert Carried(a, b, u);
    }
    forall u | u in a.txns && u !in c.txns ensures Settled(a, c, u) {
      if u == t {
        assert Carried(a, b, u);
      } else {
        assert Settled(a, b, u);
      }
    }
  }

  lemma PopSame(s: World, t: TxnId)
    requires t in s.txns && Leaf(s.graph, t)
    ensures Pop(s, t).txns == s.txns - {t}
    ensures s.txns[t].from.None? ==> Pop(s, t).threads == s.threads
    ensures Pop(s, t).at == s.at && Pop(s, t).procs == s.procs
  {
  }

  lemma TellNext(a: Snapshot, s: World, n: TxnId, t: TxnId, code: Code)
    requires t in s.txns && Leaf(s.graph, t) && s.txns[t].from.Some? && s.txns[t].from.value in s.threads
    requires s.txns[t].kind.Call?
    requires Waits(s.threads, s.txns, s.txns[t].from.value)
    requires !Waits(WithPopped(s.threads, s.txns[t]), s.txns - {t}, s.txns[t].from.value)
    requires Leads(a, Snap(s, n))
    ensures Leads(a, Snap(Tell(s, t, code), n))
  {
    var b, c := Snap(s, n), Snap(Tell(s, t, code), n);
    forall u | u in c.txns && u !in a.txns ensures Born(a, c, u) {
      assert Born(a, b, u);
    }
    forall u | u in c.txns && u in a.txns ensures Carried(a, c, u) {
      assert Carried(a, b, u);
    }
    forall u | u in a.txns && u !in c.txns ensures Settled(a, c, u) {
      if u == t {
        assert Carried(a, b, u);
      } else {
        assert Settled(a, b, u);
      }
    }
  }
}
