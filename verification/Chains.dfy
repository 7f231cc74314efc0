/** Call chains: what the threads' transaction stacks mean. A chain is a root call, the call made
    while serving it, and so on down to the leaf; between the calls sit the threads that made and
    serve them. A thread that died leaves its seats empty. */
module Chains {
  import opened Wrappers

  type Tid = nat
  type TxnId = nat

  /** `actors[i]` makes call `txns[i]` and `actors[i + 1]` serves it. An open chain has no last actor:
      its leaf is queued, or on its way back. */
  datatype Chain = Chain(txns: seq<TxnId>, actors: seq<Option<Tid>>)

  datatype Place = Place(root: TxnId, at: nat)

  /** All chains by their root call, where each call sits, and the chain each thread is on. */
  datatype Graph = Graph(chains: map<TxnId, Chain>, home: map<TxnId, Place>, seat: map<Tid, TxnId>)

  /** The last seat of thread `x` among the first `n`. */
  function LastSeat(actors: seq<Option<Tid>>, x: Tid, n: nat): (k: Option<nat>)
    requires n <= |actors|
    ensures k.Some? ==> k.value < n && actors[k.value] == Some(x)
    ensures k.Some? ==> forall i :: k.value < i < n ==> actors[i] != Some(x)
    ensures k.None? ==> forall i :: 0 <= i < n ==> actors[i] != Some(x)
  {
    if n == 0 then None else if actors[n - 1] == Some(x) then Some(n - 1) else LastSeat(actors, x, n - 1)
  }

  lemma {:induction false} LastSeatPrefix(a: seq<Option<Tid>>, b: seq<Option<Tid>>, x: Tid, n: nat)
    requires n <= |a| && n <= |b| && forall i :: 0 <= i < n ==> (a[i] == Some(x) <==> b[i] == Some(x))
    ensures LastSeat(a, x, n) == LastSeat(b, x, n)
  {
    if n > 0 {
      LastSeatPrefix(a, b, x, n - 1);
    }
  }

  predicate Shaped(c: Chain) {
    0 < |c.txns| <= |c.actors| <= |c.txns| + 1
  }

  predicate Closed(c: Chain) {
    |c.actors| == |c.txns| + 1
  }

  predicate Opened(c: Chain) {
    |c.actors| == |c.txns|
  }

  /** What the stack of `x` starts with, seen from seat `n`: the call it makes from its last seat,
      or the leaf it serves there. */
  function Top(c: Chain, x: Tid, n: nat): Option<TxnId>
    requires Shaped(c) && n <= |c.actors|
  {
    match LastSeat(c.actors, x, n)
    case None => None
    case Some(k) => if k < |c.txns| then Some(c.txns[k]) else Some(c.txns[k - 1])
  }

  /** No thread calls itself: two seats in a row are not the same thread's. */
  ghost predicate Apart(actors: seq<Option<Tid>>) {
    forall i :: 0 < i < |actors| && actors[i].Some? ==> actors[i - 1] != actors[i]
  }

  ghost predicate Formed(c: Chain, r: TxnId) {
    Shaped(c) && c.txns[0] == r && Apart(c.actors) && (Closed(c) ==> c.actors[|c.txns|].Some?)
  }

  ghost predicate Homed(txns: seq<TxnId>, home: map<TxnId, Place>, r: TxnId) {
    forall i :: 0 <= i < |txns| ==> txns[i] in home && home[txns[i]] == Place(r, i)
  }

  ghost predicate Seated(actors: seq<Option<Tid>>, seat: map<Tid, TxnId>, r: TxnId) {
    forall a :: a in actors && a.Some? ==> a.value in seat && seat[a.value] == r
  }

  ghost predicate ChainOk(g: Graph, r: TxnId)
    requires r in g.chains
  {
    && Formed(g.chains[r], r)
    && Homed(g.chains[r].txns, g.home, r)
    && Seated(g.chains[r].actors, g.seat, r)
  }

  ghost predicate HomeOk(g: Graph, t: TxnId)
    requires t in g.home
  {
    var p := g.home[t];
    p.root in g.chains && p.at < |g.chains[p.root].txns| && g.chains[p.root].txns[p.at] == t
  }

  ghost predicate SeatOk(g: Graph, x: Tid)
    requires x in g.seat
  {
    g.seat[x] in g.chains && Some(x) in g.chains[g.seat[x]].actors
  }

  ghost predicate GraphOk(g: Graph) {
    && (forall r :: r in g.chains ==> ChainOk(g, r))
    && (forall t :: t in g.home ==> HomeOk(g, t))
    && (forall x :: x in g.seat ==> SeatOk(g, x))
  }

  ghost predicate OpenChain(g: Graph, r: TxnId) {
    r in g.chains && Shaped(g.chains[r]) && Opened(g.chains[r])
  }

  // ---- the moves ----

  /** Thread `x` makes call `t`: a new chain, or one more call on the chain whose leaf it serves. */
  ghost function Extend(g: Graph, x: Tid, t: TxnId): Graph
    requires x in g.seat ==> g.seat[x] in g.chains
  {
    if x in g.seat then
      var r := g.seat[x];
      var c := g.chains[r];
      Graph(g.chains[r := Chain(c.txns + [t], c.actors)], g.home[t := Place(r, |c.txns|)], g.seat)
    else
      Graph(g.chains[t := Chain([t], [Some(x)])], g.home[t := Place(t, 0)], g.seat[x := t])
  }

  /** Thread `x` starts serving the leaf of chain `r`. */
  ghost function Serve(g: Graph, r: TxnId, x: Tid): Graph
    requires r in g.chains
  {
    var c := g.chains[r];
    Graph(g.chains[r := Chain(c.txns, c.actors + [Some(x)])], g.home, g.seat[x := r])
  }

  ghost function Unseat(g: Graph, actors: seq<Option<Tid>>, x: Tid): map<Tid, TxnId> {
    if Some(x) in actors then g.seat else g.seat - {x}
  }

  /** The thread that serves the leaf of chain `r` hands it back. */
  ghost function Return(g: Graph, r: TxnId): Graph
    requires r in g.chains && Shaped(g.chains[r]) && Closed(g.chains[r]) && g.chains[r].actors[|g.chains[r].txns|].Some?
  {
    var c := g.chains[r];
    var actors := c.actors[..|c.txns|];
    Graph(g.chains[r := Chain(c.txns, actors)], g.home, Unseat(g, actors, c.actors[|c.txns|].value))
  }

  /** The leaf of open chain `r` is popped: back to the thread that made the call, or past its empty seat. */
  ghost function PopLeaf(g: Graph, r: TxnId): Graph
    requires OpenChain(g, r)
  {
    var c := g.chains[r];
    var n := |c.txns| - 1;
    var home := g.home - {c.txns[n]};
    if c.actors[n].None? then
      Graph(if n == 0 then g.chains - {r} else g.chains[r := Chain(c.txns[..n], c.actors[..n])], home, g.seat)
    else if n == 0 then
      Graph(g.chains - {r}, home, g.seat - {c.actors[0].value})
    else
      Graph(g.chains[r := Chain(c.txns[..n], c.actors)], home, g.seat)
  }

  ghost function Emptied(actors: seq<Option<Tid>>, x: Tid): seq<Option<Tid>> {
    seq(|actors|, i requires 0 <= i < |actors| => if actors[i] == Some(x) then None else actors[i])
  }

  /** Thread `x` dies: its seats empty, and a leaf it served is on its way back. */
  ghost function Bury(g: Graph, x: Tid): Graph
    requires x in g.seat ==> g.seat[x] in g.chains
  {
    if x !in g.seat then g else
    var r := g.seat[x];
    var c := g.chains[r];
    var actors := Emptied(c.actors, x);
    var kept := if |actors| == |c.txns| + 1 && actors[|c.txns|].None? then actors[..|c.txns|] else actors;
    Graph(g.chains[r := Chain(c.txns, kept)], g.home, g.seat - {x})
  }

  // ---- every move keeps the shape ----

  lemma RootHome(g: Graph, r: TxnId)
    requires GraphOk(g) && r in g.chains
    ensures r in g.home && g.home[r] == Place(r, 0)
  {
    assert ChainOk(g, r);
  }

  ghost predicate MayExtend(g: Graph, x: Tid, t: TxnId) {
    t !in g.home && (x in g.seat ==> g.seat[x] in g.chains && ServesLeaf(g.chains[g.seat[x]], x))
  }

  lemma ExtendOk(g: Graph, x: Tid, t: TxnId)
    requires GraphOk(g) && MayExtend(g, x, t)
    ensures GraphOk(Extend(g, x, t))
  {
    hide ChainOk, HomeOk, SeatOk;
    var h := Extend(g, x, t);
    forall r | r in h.chains ensures ChainOk(h, r) {
      assert r in g.chains ==> ChainOk(g, r);
      ExtendChain(g, x, t, r);
    }
    forall u | u in h.home ensures HomeOk(h, u) {
      if u != t {
        assert HomeOk(g, u);
        HomeRoot(g, u);
      }
      ExtendHome(g, x, t, u);
    }
    forall y | y in h.seat ensures SeatOk(h, y) {
      if y in g.seat {
        assert SeatOk(g, y);
        SeatRoot(g, y);
      }
      ExtendSeat(g, x, t, y);
    }
  }

  lemma HomeRoot(g: Graph, u: TxnId)
    requires GraphOk(g) && u in g.home && HomeOk(g, u)
    ensures g.home[u].root in g.home
  {
    RootHome(g, g.home[u].root);
  }

  lemma SeatRoot(g: Graph, y: Tid)
    requires GraphOk(g) && y in g.seat && SeatOk(g, y)
    ensures g.seat[y] in g.home
  {
    RootHome(g, g.seat[y]);
  }

  lemma ExtendChain(g: Graph, x: Tid, t: TxnId, r: TxnId)
    requires MayExtend(g, x, t) && r in Extend(g, x, t).chains && (r in g.chains ==> ChainOk(g, r))
    ensures ChainOk(Extend(g, x, t), r)
  {
  }

  lemma ExtendHome(g: Graph, x: Tid, t: TxnId, u: TxnId)
    requires MayExtend(g, x, t) && u in Extend(g, x, t).home
    requires u != t ==> HomeOk(g, u) && g.home[u].root in g.home
    ensures HomeOk(Extend(g, x, t), u)
  {
  }

  lemma ExtendSeat(g: Graph, x: Tid, t: TxnId, y: Tid)
    requires MayExtend(g, x, t) && y in Extend(g, x, t).seat
    requires y in g.seat ==> SeatOk(g, y) && g.seat[y] in g.home
    ensures SeatOk(Extend(g, x, t), y)
  {
  }

  predicate ServesLeaf(c: Chain, x: Tid) {
    Shaped(c) && Closed(c) && c.actors[|c.txns|] == Some(x)
  }

  lemma ServeOk(g: Graph, r: TxnId, x: Tid)
    requires GraphOk(g) && OpenChain(g, r)
    requires x in g.seat ==> g.seat[x] == r
    requires g.chains[r].actors[|g.chains[r].txns| - 1] != Some(x)
    ensures GraphOk(Serve(g, r, x))
  {
    hide ChainOk, HomeOk, SeatOk;
    var h := Serve(g, r, x);
    forall q | q in h.chains ensures ChainOk(h, q) {
      assert ChainOk(g, q);
      ServeChain(g, r, x, q);
    }
    forall u | u in h.home ensures HomeOk(h, u) {
      assert HomeOk(g, u);
      ServeHome(g, r, x, u);
    }
    forall y | y in h.seat ensures SeatOk(h, y) {
      assert y in g.seat ==> SeatOk(g, y);
      ServeSeat(g, r, x, y);
    }
  }

  lemma ServeChain(g: Graph, r: TxnId, x: Tid, q: TxnId)
    requires OpenChain(g, r) && (x in g.seat ==> g.seat[x] == r) && q in g.chains && ChainOk(g, q)
    requires g.chains[r].actors[|g.chains[r].txns| - 1] != Some(x)
    ensures ChainOk(Serve(g, r, x), q)
  {
  }

  lemma ServeHome(g: Graph, r: TxnId, x: Tid, u: TxnId)
    requires OpenChain(g, r) && u in g.home && HomeOk(g, u)
    ensures HomeOk(Serve(g, r, x), u)
  {
  }

  lemma ServeSeat(g: Graph, r: TxnId, x: Tid, y: Tid)
    requires OpenChain(g, r) && y in Serve(g, r, x).seat && (y in g.seat ==> SeatOk(g, y))
    ensures SeatOk(Serve(g, r, x), y)
  {
  }

  lemma ReturnOk(g: Graph, r: TxnId)
    requires GraphOk(g) && r in g.chains && Closed(g.chains[r])
    ensures ChainOk(g, r) && GraphOk(Return(g, r)) && OpenChain(Return(g, r), r)
  {
    assert ChainOk(g, r);
    var h := Return(g, r);
    hide ChainOk, HomeOk, SeatOk;
    forall q | q in h.chains ensures ChainOk(h, q) {
      assert ChainOk(g, q);
      ReturnChain(g, r, q);
    }
    forall u | u in h.home ensures HomeOk(h, u) {
      assert HomeOk(g, u);
      ReturnHome(g, r, u);
    }
    forall y | y in h.seat ensures SeatOk(h, y) {
      assert SeatOk(g, y);
      ReturnSeat(g, r, y);
    }
  }

  lemma ReturnChain(g: Graph, r: TxnId, q: TxnId)
    requires r in g.chains && ChainOk(g, r) && Closed(g.chains[r]) && q in g.chains && ChainOk(g, q)
    ensures ChainOk(Return(g, r), q)
  {
    if q == r {
      var c := g.chains[r];
      assert c.actors == c.actors[..|c.txns|] + [c.actors[|c.txns|]];
    }
  }

  lemma ReturnHome(g: Graph, r: TxnId, u: TxnId)
    requires r in g.chains && ChainOk(g, r) && Closed(g.chains[r]) && u in g.home && HomeOk(g, u)
    ensures HomeOk(Return(g, r), u)
  {
  }

  lemma ReturnSeat(g: Graph, r: TxnId, y: Tid)
    requires r in g.chains && ChainOk(g, r) && Closed(g.chains[r]) && y in Return(g, r).seat && SeatOk(g, y)
    ensures SeatOk(Return(g, r), y)
  {
    var c := g.chains[r];
    assert c.actors == c.actors[..|c.txns|] + [c.actors[|c.txns|]];
  }

  lemma PopLeafOk(g: Graph, r: TxnId)
    requires GraphOk(g) && OpenChain(g, r)
    ensures GraphOk(PopLeaf(g, r))
  {
    hide ChainOk, HomeOk, SeatOk;
    var h := PopLeaf(g, r);
    assert ChainOk(g, r);
    forall q | q in h.chains ensures ChainOk(h, q) {
      assert ChainOk(g, q);
      PopLeafChain(g, r, q);
    }
    forall u | u in h.home ensures HomeOk(h, u) {
      assert HomeOk(g, u);
      PopLeafHome(g, r, u);
    }
    forall y | y in h.seat ensures SeatOk(h, y) {
      assert SeatOk(g, y);
      PopLeafSeat(g, r, y);
    }
  }

  lemma PopLeafHome(g: Graph, r: TxnId, u: TxnId)
    requires OpenChain(g, r) && ChainOk(g, r) && u in PopLeaf(g, r).home && HomeOk(g, u)
    ensures HomeOk(PopLeaf(g, r), u)
  {
  }

  lemma PopLeafSeat(g: Graph, r: TxnId, y: Tid)
    requires OpenChain(g, r) && ChainOk(g, r) && y in PopLeaf(g, r).seat && SeatOk(g, y)
    ensures SeatOk(PopLeaf(g, r), y)
  {
    if g.seat[y] == r {
      var c, n := g.chains[r], |g.chains[r].txns| - 1;
      var k :| 0 <= k < |c.actors| && c.actors[k] == Some(y);
      if c.actors[n].None? {
        assert c.actors[..n][k] == Some(y);
      }
    }
  }

  lemma PopLeafChain(g: Graph, r: TxnId, q: TxnId)
    requires OpenChain(g, r) && ChainOk(g, r) && q in PopLeaf(g, r).chains && ChainOk(g, q)
    ensures ChainOk(PopLeaf(g, r), q)
  {
    if q == r {
      PopLeafRest(g, r);
    } else {
      PopLeafOther(g, r, q);
    }
  }

  lemma PopLeafOther(g: Graph, r: TxnId, q: TxnId)
    requires OpenChain(g, r) && ChainOk(g, r) && q in g.chains && q != r && ChainOk(g, q)
    ensures ChainOk(PopLeaf(g, r), q)
  {
    if g.chains[r].actors[0].Some? {
      assert g.chains[r].actors[0] in g.chains[r].actors;
    }
  }

  lemma PopLeafRest(g: Graph, r: TxnId)
    requires OpenChain(g, r) && ChainOk(g, r) && |g.chains[r].txns| > 1
    ensures ChainOk(PopLeaf(g, r), r)
  {
    var c := g.chains[r];
    var d := PopLeaf(g, r).chains[r];
    assert Formed(d, r);
    assert Seated(d.actors, PopLeaf(g, r).seat, r);
  }

  lemma EmptiedSeats(actors: seq<Option<Tid>>, x: Tid)
    ensures forall a :: a in Emptied(actors, x) ==> a.None? || (a in actors && a != Some(x))
    ensures forall a :: a in actors && a != Some(x) ==> a in Emptied(actors, x)
  {
    var e := Emptied(actors, x);
    forall a | a in actors && a != Some(x) ensures a in e {
      var k :| 0 <= k < |actors| && actors[k] == a;
      assert e[k] == a;
    }
  }

  lemma BuryOk(g: Graph, x: Tid)
    requires GraphOk(g)
    ensures x in g.seat ==> SeatOk(g, x)
    ensures GraphOk(Bury(g, x))
    ensures x !in Bury(g, x).seat
  {
    if x in g.seat {
      assert SeatOk(g, x);
      assert ChainOk(g, g.seat[x]);
      hide ChainOk, HomeOk, SeatOk;
      var h := Bury(g, x);
      forall q | q in h.chains ensures ChainOk(h, q) {
        assert ChainOk(g, q);
        BuryChain(g, x, q);
      }
      forall u | u in h.home ensures HomeOk(h, u) {
        assert HomeOk(g, u);
        BuryHome(g, x, u);
      }
      forall y | y in h.seat ensures SeatOk(h, y) {
        assert SeatOk(g, y);
        BurySeat(g, x, y);
      }
    }
  }

  lemma BuryHome(g: Graph, x: Tid, u: TxnId)
    requires x in g.seat && g.seat[x] in g.chains && u in g.home && HomeOk(g, u)
    ensures HomeOk(Bury(g, x), u)
  {
  }

  lemma BurySeat(g: Graph, x: Tid, y: Tid)
    requires x in g.seat && g.seat[x] in g.chains && ChainOk(g, g.seat[x]) && y in Bury(g, x).seat && SeatOk(g, y)
    ensures SeatOk(Bury(g, x), y)
  {
    var c := g.chains[g.seat[x]];
    var e := Emptied(c.actors, x);
    EmptiedSeats(c.actors, x);
    assert Closed(c) ==> e == e[..|c.txns|] + [e[|c.txns|]];
  }

  lemma BuryChain(g: Graph, x: Tid, q: TxnId)
    requires x in g.seat && g.seat[x] in g.chains && q in Bury(g, x).chains && ChainOk(g, q)
    ensures ChainOk(Bury(g, x), q)
  {
    if q == g.seat[x] {
      BuryHit(g, x);
    }
  }

  lemma BuryHit(g: Graph, x: Tid)
    requires x in g.seat && g.seat[x] in g.chains && ChainOk(g, g.seat[x])
    ensures ChainOk(Bury(g, x), g.seat[x])
  {
    var r := g.seat[x];
    var c, d := g.chains[r], Bury(g, x).chains[r];
    EmptiedSeats(c.actors, x);
    var e := Emptied(c.actors, x);
    assert Apart(e);
    assert Closed(c) ==> e == e[..|c.txns|] + [e[|c.txns|]];
    assert Formed(d, r);
    assert Seated(d.actors, Bury(g, x).seat, r);
  }
}
