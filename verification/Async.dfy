/** One-way transactions to a node: one at a time, in the order they were sent. */
module Async {
  import opened Wrappers

  type NodeId = nat
  type BufferId = nat

  /** A buffer of a one-way transaction; `message` stands for what was sent. */
  datatype AsyncBuffer = AsyncBuffer(node: NodeId, message: nat, userFree: bool)

  /** A node's flag and list, and, to talk about order, all messages sent to it, those whose turn came, and
      those delivered. */
  datatype Line = Line(busy: bool, todo: seq<BufferId>, sent: seq<nat>, started: seq<nat>, delivered: seq<nat>)

  function Messages(buffers: map<BufferId, AsyncBuffer>, bs: seq<BufferId>): seq<nat> {
    seq(|bs|, i requires 0 <= i < |bs| => if bs[i] in buffers then buffers[bs[i]].message else 0)
  }

  /** The buffers of node `n`. */
  function Of(buffers: map<BufferId, AsyncBuffer>, n: NodeId): set<BufferId> {
    set b | b in buffers && buffers[b].node == n
  }

  function Listed(bs: seq<BufferId>): set<BufferId> {
    set b | b in bs
  }

  ghost predicate Waiting(buffers: map<BufferId, AsyncBuffer>, ready: set<BufferId>, n: NodeId, todo: seq<BufferId>) {
    && (forall i, j :: 0 <= i < j < |todo| ==> todo[i] != todo[j])
    && (forall b :: b in todo ==> b in buffers && buffers[b].node == n && !buffers[b].userFree && b !in ready)
  }

  /** The active buffer `a` is the only one not waiting, and carries the last message started; it can be freed
      exactly when that message was delivered. */
  ghost predicate ActiveIs(buffers: map<BufferId, AsyncBuffer>, ready: set<BufferId>, n: NodeId, l: Line, a: BufferId) {
    && a in buffers && a !in l.todo && buffers[a].node == n
    && Of(buffers, n) == {a} + Listed(l.todo)
    && l.started != [] && buffers[a].message == l.started[|l.started| - 1]
    && l.delivered == (if buffers[a].userFree then l.started else l.started[..|l.started| - 1])
    && (buffers[a].userFree ==> a !in ready)
  }

  ghost predicate LineOk(buffers: map<BufferId, AsyncBuffer>, ready: set<BufferId>, n: NodeId, l: Line) {
    && Waiting(buffers, ready, n, l.todo)
    && l.sent == l.started + Messages(buffers, l.todo)
    && if l.busy then exists a: BufferId :: ActiveIs(buffers, ready, n, l, a)
       else l.todo == [] && Of(buffers, n) == {} && l.delivered == l.started
  }

  /** A line is not concerned by what happens to the buffers of other nodes. */
  lemma LineFrame(a: map<BufferId, AsyncBuffer>, ra: set<BufferId>, b: map<BufferId, AsyncBuffer>, rb: set<BufferId>, n: NodeId, l: Line)
    requires LineOk(a, ra, n, l) && Of(b, n) == Of(a, n)
    requires forall x :: x in Of(a, n) ==> b[x] == a[x] && (x in rb <==> x in ra)
    ensures LineOk(b, rb, n, l)
  {
    assert forall x :: x in l.todo ==> x in Of(a, n);
    assert Messages(b, l.todo) == Messages(a, l.todo);
    if l.busy {
      var x: BufferId :| ActiveIs(a, ra, n, l, x);
      assert x in Of(a, n);
      assert ActiveIs(b, rb, n, l, x);
    }
  }

  /** Only buffer `b` of node `n` changed, and perhaps which of its buffers are ready: the other lines are
      as they were. */
  lemma OthersKept(a: map<BufferId, AsyncBuffer>, ra: set<BufferId>, b: map<BufferId, AsyncBuffer>, rb: set<BufferId>,
                   lines: map<NodeId, Line>, dead: set<NodeId>, n: NodeId, x: BufferId)
    requires forall m :: m in lines && m !in dead ==> LineOk(a, ra, m, lines[m])
    requires forall y :: y in a && y != x ==> y in b && b[y] == a[y]
    requires forall y :: y in b && y != x ==> y in a
    requires (x in a ==> a[x].node == n) && (x in b ==> b[x].node == n)
    requires forall y :: y in a && a[y].node != n ==> (y in rb <==> y in ra)
    ensures forall m :: m in lines && m !in dead && m != n ==> LineOk(b, rb, m, lines[m])
  {
    hide LineOk;
    forall m | m in lines && m !in dead && m != n ensures LineOk(b, rb, m, lines[m]) {
      assert Of(b, m) == Of(a, m);
      LineFrame(a, ra, b, rb, m, lines[m]);
    }
  }

  // ---- what follows for every line ----

  /** The buffers of a node are those waiting, and one more exactly when the node is busy. */
  lemma CountExact(buffers: map<BufferId, AsyncBuffer>, ready: set<BufferId>, n: NodeId, l: Line)
    requires LineOk(buffers, ready, n, l)
    ensures |Of(buffers, n)| == |l.todo| + if l.busy then 1 else 0
  {
    Distinct(l.todo);
    if l.busy {
      var a: BufferId :| ActiveIs(buffers, ready, n, l, a);
    }
  }

  lemma {:induction false} Distinct(q: seq<BufferId>)
    requires forall i, j :: 0 <= i < j < |q| ==> q[i] != q[j]
    ensures |Listed(q)| == |q|
  {
    if q != [] {
      Distinct(q[1..]);
      assert q == [q[0]] + q[1..];
      assert Listed(q) == {q[0]} + Listed(q[1..]);
    }
  }

  /** Whatever was delivered is a first part of what was sent, in order. */
  lemma DeliveredInOrder(buffers: map<BufferId, AsyncBuffer>, ready: set<BufferId>, n: NodeId, l: Line)
    requires LineOk(buffers, ready, n, l)
    ensures l.delivered <= l.started <= l.sent && |l.started| <= |l.delivered| + 1
  {
    if l.busy {
      var a: BufferId :| ActiveIs(buffers, ready, n, l, a);
    }
  }

  /** Two buffers of a node whose turn came are one. */
  lemma OneActive(buffers: map<BufferId, AsyncBuffer>, ready: set<BufferId>, n: NodeId, l: Line, a: BufferId, b: BufferId)
    requires LineOk(buffers, ready, n, l) && a in Of(buffers, n) && b in Of(buffers, n) && a !in l.todo && b !in l.todo
    ensures a == b && l.busy
  {
    if l.busy {
      var x: BufferId :| ActiveIs(buffers, ready, n, l, x);
      assert a in {x} + Listed(l.todo) && b in {x} + Listed(l.todo);
    }
  }

  class Nodes {
    var lines: map<NodeId, Line>
    var buffers: map<BufferId, AsyncBuffer>
    /** The buffers of transactions on a process's or a thread's list. */
    var ready: set<BufferId>
    /** The nodes whose owner is gone. */
    var dead: set<NodeId>

    /** The line of every live node is in order; a dead node's is left as it was, and has no buffers. */
    ghost predicate Valid()
      reads this
    {
      && (forall n :: n in lines && n !in dead ==> LineOk(buffers, ready, n, lines[n]))
      && (forall b :: b in buffers ==> buffers[b].node in lines && buffers[b].node !in dead)
      && (forall b :: b in ready ==> b in buffers)
    }

    constructor ()
      ensures Valid() && lines == map[] && dead == {}
    {
      lines, buffers, ready, dead := map[], map[], {}, {};
    }

    method NewNode(n: NodeId)
      requires Valid() && n !in lines && n !in dead
      modifies `lines
      ensures Valid() && lines == old(lines)[n := Line(false, [], [], [], [])]
    {
      assert Of(buffers, n) == {};
      lines := lines[n := Line(false, [], [], [], [])];
    }

    /** The one-way branch at the end of `binder_transaction`: the transaction goes to its process, or waits. */
    method Send(n: NodeId, b: BufferId, message: nat)
      requires Valid() && n in lines && n !in dead && b !in buffers
      modifies this
      ensures Valid() && dead == old(dead) && buffers == old(buffers)[b := AsyncBuffer(n, message, false)]
      ensures var l := old(lines)[n];
              if l.busy then
                lines == old(lines)[n := l.(todo := l.todo + [b], sent := l.sent + [message])] && ready == old(ready)
              else
                lines == old(lines)[n := l.(busy := true, sent := l.sent + [message], started := l.started + [message])]
                && ready == old(ready) + {b}
    {
      hide LineOk;
      ghost var l := lines[n];
      buffers := buffers[b := AsyncBuffer(n, message, false)];
      if lines[n].busy {
        lines := lines[n := lines[n].(todo := lines[n].todo + [b], sent := lines[n].sent + [message])];
        Joined(old(buffers), ready, n, l, b, message);
      } else {
        ready := ready + {b};
        lines := lines[n := lines[n].(busy := true, sent := lines[n].sent + [message], started := lines[n].started + [message])];
        Started(old(buffers), old(ready), n, l, b, message);
      }
      OthersKept(old(buffers), old(ready), buffers, ready, old(lines), dead, n, b);
    }

    /** A transaction on a list is delivered; the receiver may free its buffer now. */
    method Deliver(b: BufferId)
      requires Valid() && b in ready
      modifies this
      ensures Valid() && dead == old(dead) && ready == old(ready) - {b} && buffers == old(buffers)[b := old(buffers)[b].(userFree := true)]
      ensures var n, m := old(buffers)[b].node, old(buffers)[b].message;
              n in old(lines) && lines == old(lines)[n := old(lines)[n].(delivered := old(lines)[n].delivered + [m])]
    {
      hide LineOk;
      var n := buffers[b].node;
      ghost var l := lines[n];
      buffers := buffers[b := buffers[b].(userFree := true)];
      ready := ready - {b};
      lines := lines[n := lines[n].(delivered := lines[n].delivered + [buffers[b].message])];
      Delivered(old(buffers), old(ready), n, l, b);
      OthersKept(old(buffers), old(ready), buffers, ready, old(lines), dead, n, b);
    }

    /** A thread that exits drops the transactions on its list; the node stays busy. */
    method Drop(b: BufferId)
      requires Valid() && b in ready
      modifies `ready
      ensures Valid() && ready == old(ready) - {b}
    {
      ready := ready - {b};
      forall m | m in lines && m !in dead ensures LineOk(buffers, ready, m, lines[m]) {
        Dropped(buffers, old(ready), m, lines[m], b);
      }
    }

    /** The owner of the nodes `owned` is released: all its buffers go, also those of transactions that wait or
        are on its lists; the nodes' flags and lists are not looked at again. */
    method ReleaseOwner(owned: set<NodeId>)
      requires Valid() && owned <= lines.Keys
      modifies `buffers, `ready, `dead
      ensures Valid() && dead == old(dead) + owned
      ensures buffers.Keys == set b | b in old(buffers) && old(buffers)[b].node !in owned
      ensures forall n :: n in dead ==> Of(buffers, n) == {}
    {
      hide LineOk;
      var gone := set b | b in buffers && buffers[b].node in owned;
      forall n | n in lines && n !in dead + owned ensures LineOk(buffers - gone, ready - gone, n, lines[n]) {
        OwnerKept(buffers, ready, gone, owned, n, lines[n]);
      }
      buffers, ready, dead := buffers - gone, ready - gone, dead + owned;
    }

    /** `BC_FREE_BUFFER` on the buffer of a one-way transaction: the node is busy, and the next transaction has
        its turn on the freeing thread's list. */
    method Free(b: BufferId)
      requires Valid() && b in buffers && buffers[b].userFree
      modifies this
      ensures Valid() && dead == old(dead) && buffers == old(buffers) - {b}
      ensures var n := old(buffers)[b].node;
              n in old(lines) && old(lines)[n].busy
              && var l := old(lines)[n];
                 if l.todo == [] then lines == old(lines)[n := l.(busy := false)] && ready == old(ready)
                 else
                   && l.todo[0] in old(buffers)
                   && lines == old(lines)[n := l.(todo := l.todo[1..], started := l.started + [old(buffers)[l.todo[0]].message])]
                   && ready == old(ready) + {l.todo[0]}
    {
      hide LineOk;
      var n := buffers[b].node;
      ghost var l := lines[n];
      FreedIsActive(buffers, ready, n, l, b);
      FirstWaits(buffers, ready, n, l);
      hide ActiveIs;
      assert lines[n].busy;
      if lines[n].todo == [] {
        lines := lines[n := lines[n].(busy := false)];
      } else {
        var next := lines[n].todo[0];
        ready := ready + {next};
        lines := lines[n := lines[n].(todo := lines[n].todo[1..], started := lines[n].started + [buffers[next].message])];
      }
      buffers := buffers - {b};
      Freed(old(buffers), old(ready), n, l, b);
      OthersKept(old(buffers), old(ready), buffers, ready, old(lines), dead, n, b);
    }
  }

  /** The release of an owner's buffers leaves the lines of other nodes alone. */
  lemma OwnerKept(bs: map<BufferId, AsyncBuffer>, ready: set<BufferId>, gone: set<BufferId>, owned: set<NodeId>, n: NodeId, l: Line)
    requires LineOk(bs, ready, n, l) && n !in owned && forall b :: b in gone ==> b in bs && bs[b].node in owned
    ensures LineOk(bs - gone, ready - gone, n, l)
  {
    assert Of(bs - gone, n) == Of(bs, n);
    LineFrame(bs, ready, bs - gone, ready - gone, n, l);
  }

  // ---- the effects on one line ----

  lemma Joined(bs: map<BufferId, AsyncBuffer>, ready: set<BufferId>, n: NodeId, l: Line, b: BufferId, message: nat)
    requires LineOk(bs, ready, n, l) && l.busy && b !in bs && (forall x :: x in ready ==> x in bs)
    ensures LineOk(bs[b := AsyncBuffer(n, message, false)], ready, n, l.(todo := l.todo + [b], sent := l.sent + [message]))
  {
    var bs', l' := bs[b := AsyncBuffer(n, message, false)], l.(todo := l.todo + [b], sent := l.sent + [message]);
    assert Messages(bs', l'.todo) == Messages(bs, l.todo) + [message];
    var a: BufferId :| ActiveIs(bs, ready, n, l, a);
    assert Of(bs', n) == Of(bs, n) + {b};
    assert ActiveIs(bs', ready, n, l', a);
  }

  lemma Started(bs: map<BufferId, AsyncBuffer>, ready: set<BufferId>, n: NodeId, l: Line, b: BufferId, message: nat)
    requires LineOk(bs, ready, n, l) && !l.busy && b !in bs
    ensures LineOk(bs[b := AsyncBuffer(n, message, false)], ready + {b}, n,
                   l.(busy := true, sent := l.sent + [message], started := l.started + [message]))
  {
    var bs', l' := bs[b := AsyncBuffer(n, message, false)], l.(busy := true, sent := l.sent + [message], started := l.started + [message]);
    assert Of(bs', n) == Of(bs, n) + {b};
    assert ActiveIs(bs', ready + {b}, n, l', b);
  }

  lemma Delivered(bs: map<BufferId, AsyncBuffer>, ready: set<BufferId>, n: NodeId, l: Line, b: BufferId)
    requires LineOk(bs, ready, n, l) && b in ready && b in bs && bs[b].node == n
    ensures LineOk(bs[b := bs[b].(userFree := true)], ready - {b}, n, l.(delivered := l.delivered + [bs[b].message]))
  {
    var bs', l' := bs[b := bs[b].(userFree := true)], l.(delivered := l.delivered + [bs[b].message]);
    assert b in Of(bs, n);
    var a: BufferId :| ActiveIs(bs, ready, n, l, a);
    assert a == b;
    assert Of(bs', n) == Of(bs, n);
    assert Messages(bs', l.todo) == Messages(bs, l.todo);
    assert ActiveIs(bs', ready - {b}, n, l', b);
  }

  lemma Dropped(bs: map<BufferId, AsyncBuffer>, ready: set<BufferId>, n: NodeId, l: Line, b: BufferId)
    requires LineOk(bs, ready, n, l)
    ensures LineOk(bs, ready - {b}, n, l)
  {
    if l.busy {
      var a: BufferId :| ActiveIs(bs, ready, n, l, a);
      assert ActiveIs(bs, ready - {b}, n, l, a);
    }
  }

  /** A buffer its receiver may free is the active one. */
  lemma FreedIsActive(bs: map<BufferId, AsyncBuffer>, ready: set<BufferId>, n: NodeId, l: Line, b: BufferId)
    requires LineOk(bs, ready, n, l) && b in bs && bs[b].node == n && bs[b].userFree
    ensures l.busy && ActiveIs(bs, ready, n, l, b) && b !in ready
  {
    assert b in Of(bs, n);
    var a: BufferId :| ActiveIs(bs, ready, n, l, a);
    assert a == b;
  }

  lemma FirstWaits(bs: map<BufferId, AsyncBuffer>, ready: set<BufferId>, n: NodeId, l: Line)
    requires LineOk(bs, ready, n, l)
    ensures l.todo != [] ==> l.todo[0] in bs && bs[l.todo[0]].node == n && !bs[l.todo[0]].userFree
  {
  }

  lemma Freed(bs: map<BufferId, AsyncBuffer>, ready: set<BufferId>, n: NodeId, l: Line, b: BufferId)
    requires LineOk(bs, ready, n, l) && b in bs && bs[b].node == n && bs[b].userFree
    ensures l.todo == [] ==> LineOk(bs - {b}, ready, n, l.(busy := false))
    ensures l.todo != [] ==>
              && l.todo[0] in bs
              && LineOk(bs - {b}, ready + {l.todo[0]}, n,
                        l.(todo := l.todo[1..], started := l.started + [bs[l.todo[0]].message]))
  {
    FreedIsActive(bs, ready, n, l, b);
    assert Of(bs - {b}, n) == Of(bs, n) - {b};
    if l.todo != [] {
      FreedNext(bs, ready, n, l, b);
    }
  }

  lemma FreedNext(bs: map<BufferId, AsyncBuffer>, ready: set<BufferId>, n: NodeId, l: Line, b: BufferId)
    requires LineOk(bs, ready, n, l) && ActiveIs(bs, ready, n, l, b) && bs[b].userFree && l.todo != []
    ensures l.todo[0] in bs
    ensures LineOk(bs - {b}, ready + {l.todo[0]}, n,
                   l.(todo := l.todo[1..], started := l.started + [bs[l.todo[0]].message]))
  {
    var x, rest := l.todo[0], l.todo[1..];
    var l' := l.(todo := rest, started := l.started + [bs[x].message]);
    assert l.todo == [x] + rest;
    assert Of(bs - {b}, n) == Of(bs, n) - {b};
    assert Listed(l.todo) == {x} + Listed(rest);
    assert x !in rest by {
      assert forall k :: 0 <= k < |rest| ==> rest[k] == l.todo[k + 1];
    }
    assert ActiveIs(bs - {b}, ready + {x}, n, l', x);
    FreedOrder(bs, l, b, x);
    assert Waiting(bs - {b}, ready + {x}, n, rest);
  }

  lemma FreedOrder(bs: map<BufferId, AsyncBuffer>, l: Line, b: BufferId, x: BufferId)
    requires l.todo != [] && l.todo[0] == x && x in bs && b !in l.todo
    ensures l.started + Messages(bs, l.todo) == l.started + [bs[x].message] + Messages(bs - {b}, l.todo[1..])
  {
  }
}
