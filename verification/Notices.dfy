/** Death notifications: registered on a reference, delivered at most once, cleared at most once. */
module Notices {
  import opened Wrappers

  type Pid = nat
  type Tid = nat
  type NodeId = nat
  type RefId = nat
  type DeathId = nat

  datatype Kind = Unset | DeadBinder | DeadAndClear | Clear

  datatype Death = Death(cookie: nat, kind: Kind)

  datatype Ref = Ref(proc: Pid, node: NodeId, death: Option<DeathId>)

  /** A list of work: a thread's or a process's. */
  datatype Queue = OfThread(thread: Tid) | OfProc(proc: Pid)

  datatype Place = Queued(queue: Queue) | Delivered(proc: Pid)

  // ---- what a registration may go through ----

  datatype Event = ToldDead | Answered | ToldCleared

  datatype Phase = Phase(dead: bool, answered: bool, cleared: bool)

  /** Told of the death at most once, answered only after that, told of the clearing at most once, and, if told
      of the death, only after the answer; nothing comes after the clearing. */
  function Follow(p: Phase, e: Event): Option<Phase> {
    if p.cleared then None else
    match e
    case ToldDead => if p.dead then None else Some(p.(dead := true))
    case Answered => if p.dead && !p.answered then Some(p.(answered := true)) else None
    case ToldCleared => if p.dead && !p.answered then None else Some(p.(cleared := true))
  }

  function Replay(log: seq<Event>): Option<Phase> {
    if log == [] then Some(Phase(false, false, false))
    else match Replay(log[..|log| - 1])
         case None => None
         case Some(p) => Follow(p, log[|log| - 1])
  }

  lemma ReplayMore(log: seq<Event>, e: Event)
    requires Replay(log).Some?
    ensures Replay(log + [e]) == Follow(Replay(log).value, e)
  {
    assert (log + [e])[..|log|] == log;
  }

  function Count(log: seq<Event>, e: Event): nat {
    if log == [] then 0 else Count(log[..|log| - 1], e) + if log[|log| - 1] == e then 1 else 0
  }

  /** What an accepted history amounts to. */
  lemma {:induction false} AtMostOnce(log: seq<Event>)
    requires Replay(log).Some?
    ensures Count(log, ToldDead) == (if Replay(log).value.dead then 1 else 0)
    ensures Count(log, Answered) == (if Replay(log).value.answered then 1 else 0)
    ensures Count(log, ToldCleared) == (if Replay(log).value.cleared then 1 else 0)
    ensures Replay(log).value.answered ==> Replay(log).value.dead
    ensures Replay(log).value.cleared ==> log[|log| - 1] == ToldCleared && (ToldDead in log ==> Answered in log)
  {
    if log != [] {
      AtMostOnce(log[..|log| - 1]);
      assert log == log[..|log| - 1] + [log[|log| - 1]];
      InCount(log[..|log| - 1]);
    }
  }

  lemma {:induction false} InCount(log: seq<Event>)
    ensures forall e :: e in log <==> Count(log, e) > 0
  {
    if log != [] {
      InCount(log[..|log| - 1]);
      assert log == log[..|log| - 1] + [log[|log| - 1]];
    }
  }

  // ---- what holds ----

  /** The records, and where each notification is: on which list, if any, and on which reference, if any. */
  datatype State = State(refs: map<RefId, Ref>, gone: set<NodeId>, deaths: map<DeathId, Death>,
                         at: map<DeathId, Place>, on: map<DeathId, RefId>, log: map<DeathId, seq<Event>>)

  /** A registered notification is queued only once its node is dead; a cleared one is on its way out. */
  ghost predicate KindOk(s: State, d: DeathId)
    requires d in s.deaths
  {
    var k := s.deaths[d].kind;
    if d in s.on then
      && s.on[d] in s.refs
      && (k == Unset || k == DeadBinder)
      && (d in s.at ==> k == DeadBinder && s.refs[s.on[d]].node in s.gone)
    else
      && (k == DeadAndClear || k == Clear)
      && (k == Clear && d in s.at ==> s.at[d].Queued?)
  }

  ghost predicate HistoryOk(s: State, d: DeathId)
    requires d in s.deaths
  {
    d in s.log && Replay(s.log[d]).Some? &&
    var p := Replay(s.log[d]).value;
    && !p.cleared
    && (p.dead && !p.answered <==> d in s.at && s.at[d].Delivered?)
    && (d in s.at && s.at[d].Queued? && s.deaths[d].kind != Clear ==> !p.dead)
    && (d in s.on && s.on[d] in s.refs && s.refs[s.on[d]].node !in s.gone ==> !p.dead)
  }

  ghost predicate DeathOk(s: State, d: DeathId)
    requires d in s.deaths
  {
    KindOk(s, d) && HistoryOk(s, d)
  }

  /** Notification `e` is as it was. */
  ghost predicate SameDeath(s: State, s': State, e: DeathId)
    requires e in s.deaths
  {
    && e in s'.deaths && s'.deaths[e] == s.deaths[e]
    && (e in s'.at <==> e in s.at) && (e in s.at ==> s'.at[e] == s.at[e])
    && (e in s'.on <==> e in s.on) && (e in s.on ==> s'.on[e] == s.on[e])
    && (e in s.on && s.on[e] in s.refs ==> s.on[e] in s'.refs && s'.refs[s.on[e]].node == s.refs[s.on[e]].node)
    && e in s.log && e in s'.log && s'.log[e] == s.log[e] && s'.gone == s.gone
  }

  lemma DeathFrame(s: State, s': State, e: DeathId)
    requires e in s.deaths && DeathOk(s, e) && SameDeath(s, s', e)
    ensures DeathOk(s', e)
  {
  }

  /** All notifications but `d` are as they were, and `d`, if it is left, is in order. */
  lemma OthersSame(s: State, s': State, d: DeathId)
    requires Records(s) && (d in s'.deaths ==> DeathOk(s', d))
    requires forall e :: e in s'.deaths && e != d ==> e in s.deaths && SameDeath(s, s', e)
    requires forall e :: e in s'.at ==> e in s'.deaths
    requires forall e :: e in s'.log && e != d ==> e in s.log && s'.log[e] == s.log[e]
    requires d in s'.log ==> Replay(s'.log[d]).Some?
    ensures Records(s')
  {
    hide DeathOk, SameDeath, Replay;
    forall e | e in s'.deaths ensures DeathOk(s', e) {
      if e != d {
        DeathFrame(s, s', e);
      }
    }
  }

  lemma Logged(s: State, e: DeathId)
    requires e in s.deaths && DeathOk(s, e)
    ensures e in s.log && Replay(s.log[e]).Some?
  {
  }

  lemma AllLogged(s: State)
    requires Records(s)
    ensures forall e :: e in s.deaths ==> e in s.log
  {
    forall e | e in s.deaths ensures e in s.log {
      Logged(s, e);
    }
  }

  ghost predicate Attached(s: State) {
    && (forall r :: r in s.refs && s.refs[r].death.Some? ==>
          s.refs[r].death.value in s.on && s.on[s.refs[r].death.value] == r && s.refs[r].death.value in s.deaths)
    && (forall d :: d in s.on ==> s.on[d] in s.refs && s.refs[s.on[d]].death == Some(d))
  }

  ghost predicate Records(s: State) {
    && (forall d :: d in s.deaths ==> DeathOk(s, d))
    && (forall d :: d in s.at ==> d in s.deaths)
    && (forall d :: d in s.log ==> Replay(s.log[d]).Some?)
  }

  ghost predicate Once(q: seq<DeathId>) {
    forall i, j :: 0 <= i < j < |q| ==> q[i] != q[j]
  }

  /** Each list holds, once each, the notifications that are on it. */
  ghost predicate ListsOk(queues: map<Queue, seq<DeathId>>, delivered: map<Pid, seq<DeathId>>, at: map<DeathId, Place>) {
    && (forall q :: q in queues ==> Once(queues[q]) && forall d :: d in queues[q] <==> d in at && at[d] == Queued(q))
    && (forall p :: p in delivered ==> Once(delivered[p]) && forall d :: d in delivered[p] <==> d in at && at[d] == Delivered(p))
    && (forall d :: d in at ==> if at[d].Queued? then at[d].queue in queues else at[d].proc in delivered)
  }

  function Without(q: seq<DeathId>, d: DeathId): seq<DeathId> {
    if q == [] then [] else if q[0] == d then q[1..] else [q[0]] + Without(q[1..], d)
  }

  lemma {:induction false} WithoutIs(q: seq<DeathId>, d: DeathId)
    requires Once(q)
    ensures Once(Without(q, d)) && forall e :: e in Without(q, d) <==> e in q && e != d
  {
    if q != [] {
      OnceRest(q);
      if q[0] != d {
        WithoutIs(q[1..], d);
        OnceOnto(q[0], Without(q[1..], d));
      }
    }
  }

  lemma OnceOnto(h: DeathId, rest: seq<DeathId>)
    requires Once(rest) && h !in rest
    ensures Once([h] + rest)
  {
  }

  lemma OnceRest(q: seq<DeathId>)
    requires Once(q) && q != []
    ensures Once(q[1..]) && forall e :: e in q[1..] <==> e in q && e != q[0]
  {
    assert q == [q[0]] + q[1..];
    forall k | 0 <= k < |q[1..]| ensures q[1..][k] != q[0] {
      assert q[1..][k] == q[k + 1];
    }
  }

  // ---- moving a notification between lists ----

  /** `d` goes to the end of list `q`. */
  lemma QueueLists(queues: map<Queue, seq<DeathId>>, delivered: map<Pid, seq<DeathId>>, at: map<DeathId, Place>,
                   d: DeathId, q: Queue)
    requires ListsOk(queues, delivered, at) && d !in at && q in queues
    ensures ListsOk(queues[q := queues[q] + [d]], delivered, at[d := Queued(q)])
  {
  }

  /** `d` leaves the list it is on, if any. */
  function LeaveQueues(queues: map<Queue, seq<DeathId>>, at: map<DeathId, Place>, d: DeathId): map<Queue, seq<DeathId>> {
    if d in at && at[d].Queued? && at[d].queue in queues then queues[at[d].queue := Without(queues[at[d].queue], d)] else queues
  }

  function LeaveDelivered(delivered: map<Pid, seq<DeathId>>, at: map<DeathId, Place>, d: DeathId): map<Pid, seq<DeathId>> {
    if d in at && at[d].Delivered? && at[d].proc in delivered then delivered[at[d].proc := Without(delivered[at[d].proc], d)] else delivered
  }

  lemma LeaveLists(queues: map<Queue, seq<DeathId>>, delivered: map<Pid, seq<DeathId>>, at: map<DeathId, Place>, d: DeathId)
    requires ListsOk(queues, delivered, at)
    ensures ListsOk(LeaveQueues(queues, at, d), LeaveDelivered(delivered, at, d), at - {d})
  {
    if d in at {
      match at[d]
      case Queued(q) => WithoutIs(queues[q], d);
      case Delivered(p) => WithoutIs(delivered[p], d);
    }
  }

  lemma DeliverLists(queues: map<Queue, seq<DeathId>>, delivered: map<Pid, seq<DeathId>>, at: map<DeathId, Place>,
                     d: DeathId, p: Pid)
    requires ListsOk(queues, delivered, at) && d !in at && p in delivered
    ensures ListsOk(queues, delivered[p := [d] + delivered[p]], at[d := Delivered(p)])
  {
  }

  // ---- the steps, as they change the records ----

  /** `BC_REQUEST_DEATH_NOTIFICATION` on a reference without one. */
  function Requested(s: State, r: RefId, cookie: nat, d: DeathId, q: Queue): State
    requires r in s.refs
  {
    var dead := s.refs[r].node in s.gone;
    s.(refs := s.refs[r := s.refs[r].(death := Some(d))], deaths := s.deaths[d := Death(cookie, if dead then DeadBinder else Unset)],
       on := s.on[d := r], at := if dead then s.at[d := Queued(q)] else s.at, log := s.log[d := []])
  }

  lemma RequestedOk(s: State, r: RefId, cookie: nat, d: DeathId, q: Queue)
    requires Records(s) && Attached(s) && r in s.refs && s.refs[r].death.None? && d !in s.deaths && d !in s.on
    ensures d !in s.at && Records(Requested(s, r, cookie, d, q)) && Attached(Requested(s, r, cookie, d, q))
  {
    NotYet(s, d);
    RequestedAttached(s, r, cookie, d, q);
    RequestedSelf(s, r, cookie, d, q);
    AllLogged(s);
    hide Attached, Replay, DeathOk;
    OthersSame(s, Requested(s, r, cookie, d, q), d);
  }

  lemma NotYet(s: State, d: DeathId)
    requires Records(s) && d !in s.deaths
    ensures d !in s.at
  {
  }

  lemma RequestedAttached(s: State, r: RefId, cookie: nat, d: DeathId, q: Queue)
    requires Attached(s) && r in s.refs && s.refs[r].death.None? && d !in s.on
    ensures Attached(Requested(s, r, cookie, d, q))
  {
  }

  lemma RequestedSelf(s: State, r: RefId, cookie: nat, d: DeathId, q: Queue)
    requires r in s.refs && d !in s.deaths && d !in s.at
    ensures DeathOk(Requested(s, r, cookie, d, q), d)
  {
    assert Replay([]) == Some(Phase(false, false, false));
  }

  /** `BC_CLEAR_DEATH_NOTIFICATION` with the right cookie. */
  function Cleared(s: State, r: RefId, d: DeathId, q: Queue): State
    requires r in s.refs && d in s.deaths
  {
    s.(refs := s.refs[r := s.refs[r].(death := None)], on := s.on - {d},
       deaths := s.deaths[d := s.deaths[d].(kind := if d in s.at then DeadAndClear else Clear)],
       at := if d in s.at then s.at else s.at[d := Queued(q)])
  }

  /** The check in the clearing branch cannot fail: a notification still registered that is on a list is one
      of a death. */
  lemma ClearedOk(s: State, r: RefId, d: DeathId, q: Queue)
    requires Records(s) && Attached(s) && r in s.refs && s.refs[r].death == Some(d)
    ensures d in s.deaths && (d in s.at ==> s.deaths[d].kind == DeadBinder)
    ensures Records(Cleared(s, r, d, q)) && Attached(Cleared(s, r, d, q))
  {
    ClearedAttached(s, r, d, q);
    ClearedSelf(s, r, d, q);
    AllLogged(s);
    Logged(s, d);
    hide Attached, Replay, DeathOk;
    OthersSame(s, Cleared(s, r, d, q), d);
  }

  lemma ClearedAttached(s: State, r: RefId, d: DeathId, q: Queue)
    requires Attached(s) && r in s.refs && s.refs[r].death == Some(d)
    ensures d in s.deaths && d in s.on && s.on[d] == r
    ensures Attached(Cleared(s, r, d, q))
  {
  }

  lemma ClearedSelf(s: State, r: RefId, d: DeathId, q: Queue)
    requires r in s.refs && d in s.deaths && d in s.on && s.on[d] == r && DeathOk(s, d)
    ensures d in s.at ==> s.deaths[d].kind == DeadBinder
    ensures DeathOk(Cleared(s, r, d, q), d)
  {
  }

  /** The node of reference `r` died; its notification is queued. */
  function Reported(s: State, d: DeathId, q: Queue): State
    requires d in s.deaths
  {
    s.(deaths := s.deaths[d := s.deaths[d].(kind := DeadBinder)], at := s.at[d := Queued(q)])
  }

  /** What holds while the references to the dead node `n` are gone through: `left` are still to do. */
  ghost predicate Dying(s: State, n: NodeId, left: set<RefId>) {
    && n in s.gone
    && Attached(s)
    && (forall d :: d in s.at ==> d in s.deaths)
    && (forall d :: d in s.log ==> Replay(s.log[d]).Some?)
    && (forall d :: d in s.deaths ==> DyingAt(s, n, left, d))
  }

  ghost predicate DyingAt(s: State, n: NodeId, left: set<RefId>, d: DeathId)
    requires d in s.deaths
  {
    if d in s.on && s.on[d] in left then Fresh(s, d, n) else DeathOk(s, d)
  }

  /** A notification on a live node is on no list, and nothing was told. */
  ghost predicate Fresh(s: State, d: DeathId, n: NodeId)
    requires d in s.deaths && d in s.on
  {
    && s.on[d] in s.refs && s.refs[s.on[d]].node == n && d !in s.at
    && d in s.log && Replay(s.log[d]).Some? && !Replay(s.log[d]).value.dead && !Replay(s.log[d]).value.cleared
    && (s.deaths[d].kind == Unset || s.deaths[d].kind == DeadBinder)
  }

  lemma DiesStart(s: State, n: NodeId, left: set<RefId>)
    requires Records(s) && Attached(s) && n !in s.gone && forall r :: r in left <==> r in s.refs && s.refs[r].node == n
    ensures Dying(s.(gone := s.gone + {n}), n, left)
  {
    var s' := s.(gone := s.gone + {n});
    hide Replay;
    forall d | d in s'.deaths ensures DyingAt(s', n, left, d) {
      assert DeathOk(s, d);
    }
  }

  lemma DiesStep(s: State, n: NodeId, left: set<RefId>, r: RefId, q: Queue)
    requires Dying(s, n, left) && r in left && r in s.refs
    ensures s.refs[r].death.None? ==> Dying(s, n, left - {r})
    ensures s.refs[r].death.Some? ==>
              && s.refs[r].death.value in s.deaths && s.refs[r].death.value !in s.at
              && Dying(Reported(s, s.refs[r].death.value, q), n, left - {r})
  {
    hide Replay, DyingAt, Fresh, DeathOk;
    if s.refs[r].death.Some? {
      var d := s.refs[r].death.value;
      var s' := Reported(s, d, q);
      assert d in s.deaths && d in s.on && s.on[d] == r;
      DyingSelf(s, n, left, d, q);
      forall e | e in s'.deaths ensures DyingAt(s', n, left - {r}, e) {
        if e != d {
          assert DyingAt(s, n, left, e);
          assert e in s.on ==> s.on[e] != r;
          DyingOther(s, n, left, r, d, q, e);
        }
      }
    } else {
      forall e | e in s.deaths ensures DyingAt(s, n, left - {r}, e) {
        assert DyingAt(s, n, left, e);
        assert e in s.on ==> s.on[e] != r;
        DyingLess(s, n, left, r, e);
      }
    }
  }

  /** The notification of the reference at hand. */
  lemma DyingSelf(s: State, n: NodeId, left: set<RefId>, d: DeathId, q: Queue)
    requires d in s.deaths && d in s.on && s.on[d] in left && DyingAt(s, n, left, d) && n in s.gone
    ensures d !in s.at && DyingAt(Reported(s, d, q), n, left - {s.on[d]}, d)
  {
    hide Replay;
  }

  /** Any other. */
  lemma DyingOther(s: State, n: NodeId, left: set<RefId>, r: RefId, d: DeathId, q: Queue, e: DeathId)
    requires d in s.deaths && e in s.deaths && e != d && DyingAt(s, n, left, e) && (e in s.on ==> s.on[e] != r)
    ensures DyingAt(Reported(s, d, q), n, left - {r}, e)
  {
    hide Replay;
  }

  lemma DyingLess(s: State, n: NodeId, left: set<RefId>, r: RefId, e: DeathId)
    requires e in s.deaths && DyingAt(s, n, left, e) && (e in s.on ==> s.on[e] != r)
    ensures DyingAt(s, n, left - {r}, e)
  {
    hide Fresh, DeathOk;
  }

  lemma DiesEnd(s: State, n: NodeId)
    requires Dying(s, n, {})
    ensures Records(s) && Attached(s)
  {
    forall d | d in s.deaths ensures DeathOk(s, d) {
      assert DyingAt(s, n, {}, d);
    }
  }

  /** Notification `d` on queue `q` is read by process `p`. */
  function Read(s: State, d: DeathId, p: Pid): State
    requires d in s.deaths && d in s.log
  {
    if s.deaths[d].kind == Clear then
      s.(deaths := s.deaths - {d}, at := s.at - {d}, log := s.log[d := s.log[d] + [ToldCleared]])
    else
      s.(at := s.at[d := Delivered(p)], log := s.log[d := s.log[d] + [ToldDead]])
  }

  lemma ReadOk(s: State, d: DeathId, p: Pid)
    requires Records(s) && Attached(s) && d in s.at && s.at[d].Queued?
    ensures d in s.deaths && d in s.log
    ensures Records(Read(s, d, p)) && Attached(Read(s, d, p))
  {
    hide Attached, Replay, DeathOk;
    HereOk(s, d);
    ReadAttached(s, d, p);
    ReadSelf(s, d, p);
    AllLogged(s);
    OthersSame(s, Read(s, d, p), d);
  }

  /** A notification on a list is in order. */
  lemma HereOk(s: State, d: DeathId)
    requires Records(s) && d in s.at
    ensures d in s.deaths && DeathOk(s, d) && d in s.log
  {
  }

  lemma ReadAttached(s: State, d: DeathId, p: Pid)
    requires Attached(s) && d in s.deaths && d in s.log && DeathOk(s, d)
    ensures Attached(Read(s, d, p))
  {
  }

  lemma ReadSelf(s: State, d: DeathId, p: Pid)
    requires d in s.deaths && DeathOk(s, d) && d in s.at && s.at[d].Queued?
    ensures d in s.log && Replay(Read(s, d, p).log[d]).Some?
    ensures d in Read(s, d, p).deaths ==> DeathOk(Read(s, d, p), d)
  {
    ReplayMore(s.log[d], ToldCleared);
    ReplayMore(s.log[d], ToldDead);
    hide Replay;
  }

  /** `BC_DEAD_BINDER_DONE` for notification `d`. */
  function Finished(s: State, d: DeathId, q: Queue): State
    requires d in s.deaths && d in s.log
  {
    var log := s.log[d := s.log[d] + [Answered]];
    if s.deaths[d].kind == DeadAndClear then
      s.(deaths := s.deaths[d := s.deaths[d].(kind := Clear)], at := s.at[d := Queued(q)], log := log)
    else s.(at := s.at - {d}, log := log)
  }

  lemma FinishedOk(s: State, d: DeathId, q: Queue)
    requires Records(s) && Attached(s) && d in s.at && s.at[d].Delivered?
    ensures d in s.deaths && d in s.log
    ensures Records(Finished(s, d, q)) && Attached(Finished(s, d, q))
  {
    hide Attached, Replay, DeathOk;
    HereOk(s, d);
    FinishedAttached(s, d, q);
    FinishedSelf(s, d, q);
    AllLogged(s);
    OthersSame(s, Finished(s, d, q), d);
  }

  lemma FinishedAttached(s: State, d: DeathId, q: Queue)
    requires Attached(s) && d in s.deaths && d in s.log
    ensures Attached(Finished(s, d, q))
  {
  }

  lemma FinishedSelf(s: State, d: DeathId, q: Queue)
    requires d in s.deaths && DeathOk(s, d) && d in s.at && s.at[d].Delivered?
    ensures d in s.log && Replay(Finished(s, d, q).log[d]).Some? && DeathOk(Finished(s, d, q), d)
  {
    ReplayMore(s.log[d], Answered);
    hide Replay;
  }

  /** A list is dropped with the thread or process it belongs to. */
  function Lost(s: State, d: DeathId): State {
    s.(at := s.at - {d})
  }

  lemma LostOk(s: State, d: DeathId)
    requires Records(s) && Attached(s) && d in s.at && s.at[d].Queued?
    ensures Records(Lost(s, d)) && Attached(Lost(s, d))
  {
    assert DeathOk(s, d);
    var s' := Lost(s, d);
    hide Replay;
    assert d in s'.deaths ==> DeathOk(s', d);
    AllLogged(s);
    hide DeathOk;
    OthersSame(s, s', d);
  }

  /** `binder_delete_ref` frees the notification wherever it is. */
  function Deleted(s: State, r: RefId): State
    requires r in s.refs
  {
    var d := s.refs[r].death;
    if d.None? then s.(refs := s.refs - {r})
    else s.(refs := s.refs - {r}, deaths := s.deaths - {d.value}, on := s.on - {d.value}, at := s.at - {d.value})
  }

  lemma DeletedOk(s: State, r: RefId)
    requires Records(s) && Attached(s) && r in s.refs
    ensures Records(Deleted(s, r)) && Attached(Deleted(s, r))
  {
    DeletedAttached(s, r);
    AllLogged(s);
    DeletedOthers(s, r);
    hide Attached, Replay, DeathOk, SameDeath;
    OthersSame(s, Deleted(s, r), if s.refs[r].death.Some? then s.refs[r].death.value else 0);
  }

  lemma DeletedAttached(s: State, r: RefId)
    requires Attached(s) && r in s.refs
    ensures Attached(Deleted(s, r))
  {
  }

  lemma DeletedOthers(s: State, r: RefId)
    requires Attached(s) && r in s.refs && forall e :: e in s.deaths ==> e in s.log
    ensures forall e :: e in Deleted(s, r).deaths ==> SameDeath(s, Deleted(s, r), e)
  {
  }

  /** Whatever became of registration `d`, its owner was told of the death at most once and of the clearing at
      most once, and of the clearing after a death only once it had answered. */
  lemma OncePerRegistration(s: State, d: DeathId)
    requires Records(s) && d in s.log
    ensures Count(s.log[d], ToldDead) <= 1 && Count(s.log[d], Answered) <= 1 && Count(s.log[d], ToldCleared) <= 1
    ensures ToldCleared in s.log[d] && ToldDead in s.log[d] ==> Answered in s.log[d]
    ensures ToldCleared in s.log[d] ==> s.log[d][|s.log[d]| - 1] == ToldCleared && d !in s.deaths
  {
    AtMostOnce(s.log[d]);
    InCount(s.log[d]);
    if d in s.deaths {
      assert DeathOk(s, d);
    }
  }

  /** The lists after `d` left the one it was on and went to the end of `q`. */
  lemma MoveLists(queues: map<Queue, seq<DeathId>>, delivered: map<Pid, seq<DeathId>>, at: map<DeathId, Place>, d: DeathId, q: Queue)
    requires ListsOk(queues, delivered, at) && q in queues
    ensures q in LeaveQueues(queues, at, d)
    ensures var qs := LeaveQueues(queues, at, d);
            ListsOk(qs[q := qs[q] + [d]], LeaveDelivered(delivered, at, d), at[d := Queued(q)])
  {
    LeaveLists(queues, delivered, at, d);
    var qs := LeaveQueues(queues, at, d);
    hide ListsOk;
    QueueLists(qs, LeaveDelivered(delivered, at, d), at - {d}, d, q);
    assert (at - {d})[d := Queued(q)] == at[d := Queued(q)];
  }

  // ---- nobody is forgotten ----

  /** Once its node is dead, a registration's notice is on a list or was told; a clearing that is not confirmed yet
      is on a list. */
  ghost predicate Pledge(s: State, d: DeathId)
    requires d in s.deaths
  {
    if d in s.on then s.on[d] in s.refs && s.refs[s.on[d]].node in s.gone ==> d in s.at || (d in s.log && ToldDead in s.log[d])
    else d in s.at
  }

  /** So it is with all, but for those that were lost with the list they were on. */
  ghost predicate Pledged(s: State, lost: set<DeathId>) {
    forall d :: d in s.deaths && d !in lost ==> Pledge(s, d)
  }

  lemma RequestedPledged(s: State, r: RefId, cookie: nat, d: DeathId, q: Queue, lost: set<DeathId>)
    requires Pledged(s, lost) && Attached(s) && r in s.refs && d !in s.deaths && d !in s.on && d !in s.log
    ensures Pledged(Requested(s, r, cookie, d, q), lost)
  {
    var s' := Requested(s, r, cookie, d, q);
    forall e | e in s'.deaths && e !in lost ensures Pledge(s', e) {
      assert e != d ==> Pledge(s, e);
    }
  }

  lemma ClearedPledged(s: State, r: RefId, d: DeathId, q: Queue, lost: set<DeathId>)
    requires Pledged(s, lost) && Attached(s) && r in s.refs && s.refs[r].death == Some(d)
    ensures d in s.deaths && Pledged(Cleared(s, r, d, q), lost)
  {
    var s' := Cleared(s, r, d, q);
    forall e | e in s'.deaths && e !in lost ensures Pledge(s', e) {
      assert Pledge(s, e);
    }
  }

  /** After all notices of a dead node were queued. */
  lemma DiedPledged(s: State, s': State, n: NodeId, lost: set<DeathId>)
    requires Pledged(s, lost) && Attached(s) && s'.deaths.Keys == s.deaths.Keys && s'.refs == s.refs && s'.on == s.on && s'.log == s.log
    requires s'.gone == s.gone + {n}
    requires forall d :: d in s'.at <==> d in s.at || (d in s.on && s.refs[s.on[d]].node == n)
    ensures Pledged(s', lost)
  {
    forall e | e in s'.deaths && e !in lost ensures Pledge(s', e) {
      assert Pledge(s, e);
    }
  }

  lemma ReadPledged(s: State, d: DeathId, p: Pid, lost: set<DeathId>)
    requires Pledged(s, lost) && d in s.deaths && d in s.log
    ensures Pledged(Read(s, d, p), lost)
  {
    var s' := Read(s, d, p);
    forall e | e in s'.deaths && e !in lost ensures Pledge(s', e) {
      assert Pledge(s, e);
    }
  }

  lemma FinishedPledged(s: State, d: DeathId, q: Queue, lost: set<DeathId>)
    requires Pledged(s, lost) && d in s.deaths && DeathOk(s, d) && d in s.at && s.at[d].Delivered?
    ensures d in s.log && Pledged(Finished(s, d, q), lost)
  {
    AtMostOnce(s.log[d]);
    InCount(s.log[d]);
    assert ToldDead in s.log[d];
    hide Replay, Count;
    var s' := Finished(s, d, q);
    forall e | e in s'.deaths && e !in lost ensures Pledge(s', e) {
      assert Pledge(s, e);
    }
  }

  lemma LostPledged(s: State, d: DeathId, lost: set<DeathId>)
    requires Pledged(s, lost)
    ensures Pledged(Lost(s, d), lost + {d})
  {
    var s' := Lost(s, d);
    forall e | e in s'.deaths && e !in lost + {d} ensures Pledge(s', e) {
      assert Pledge(s, e);
    }
  }

  lemma DeletedPledged(s: State, r: RefId, lost: set<DeathId>)
    requires Pledged(s, lost) && Attached(s) && r in s.refs
    ensures Pledged(Deleted(s, r), lost)
  {
    var s' := Deleted(s, r);
    forall e | e in s'.deaths && e !in lost ensures Pledge(s', e) {
      assert Pledge(s, e);
    }
  }

  lemma AddedPledged(s: State, r: RefId, ref: Ref, lost: set<DeathId>)
    requires Pledged(s, lost) && Attached(s) && r !in s.refs
    ensures Pledged(s.(refs := s.refs[r := ref]), lost)
  {
    var s' := s.(refs := s.refs[r := ref]);
    forall e | e in s'.deaths && e !in lost ensures Pledge(s', e) {
      assert Pledge(s, e);
    }
  }

  class Registrations {
    var refs: map<RefId, Ref>
    var gone: set<NodeId>
    var deaths: map<DeathId, Death>
    var queues: map<Queue, seq<DeathId>>
    var delivered: map<Pid, seq<DeathId>>
    /** Registrations are numbered; a number is never used again. */
    var next: DeathId
    ghost var at: map<DeathId, Place>
    ghost var on: map<DeathId, RefId>
    ghost var log: map<DeathId, seq<Event>>
    /** The registrations whose notice was dropped with the list it was on. */
    ghost var lost: set<DeathId>

    ghost function Now(): State
      reads `refs, `gone, `deaths, `at, `on, `log
    {
      State(refs, gone, deaths, at, on, log)
    }

    ghost predicate Tidy()
      reads `refs, `queues, `delivered, `at, `deaths, `next, `log
    {
      ListsOk(queues, delivered, at) && Numbered() && Placed()
    }

    ghost predicate Valid()
      reads this
    {
      Records(Now()) && Attached(Now()) && Tidy() && Pledged(Now(), lost) && forall d :: d in lost ==> d < next
    }

    constructor (queues: map<Queue, seq<DeathId>>, delivered: map<Pid, seq<DeathId>>)
      requires forall q :: q in queues ==> queues[q] == []
      requires forall p :: p in delivered ==> delivered[p] == []
      ensures Valid() && refs == map[] && this.queues == queues && this.delivered == delivered && lost == {}
      ensures gone == {} && deaths == map[] && next == 0 && at == map[] && on == map[] && log == map[]
    {
      refs, gone, deaths, next := map[], {}, map[], 0;
      this.queues, this.delivered := queues, delivered;
      at, on, log, lost := map[], map[], map[], {};
    }

    method AddRef(r: RefId, p: Pid, n: NodeId)
      requires Valid() && r !in refs && OfProc(p) in queues
      modifies `refs
      ensures Valid() && refs == old(refs)[r := Ref(p, n, None)]
    {
      hide ListsOk;
      AddedOk(Now(), r, Ref(p, n, None));
      AddedPledged(Now(), r, Ref(p, n, None), lost);
      hide Records, Attached, Pledged;
      refs := refs[r := Ref(p, n, None)];
    }

    /** `list_add_tail` on a notification's entry. */
    method Enqueue(d: DeathId, q: Queue)
      requires ListsOk(queues, delivered, at) && d !in at && q in queues
      modifies `queues, `at
      ensures ListsOk(queues, delivered, at) && JoinsQueue(old(queues), queues, d, q) && at == old(at)[d := Queued(q)]
    {
      QueueLists(queues, delivered, at, d, q);
      queues := queues[q := queues[q] + [d]];
      at := at[d := Queued(q)];
      hide ListsOk;
    }

    /** The thread's own list if it is a looper, its process's otherwise. */
    function ListFor(t: Tid, p: Pid, looper: bool): Queue {
      if looper then OfThread(t) else OfProc(p)
    }

    /** `BC_REQUEST_DEATH_NOTIFICATION`. */
    method Request(t: Tid, p: Pid, looper: bool, r: RefId, cookie: nat)
      requires Valid() && r in refs && ListFor(t, p, looper) in queues
      modifies this
      ensures Valid()
      ensures old(refs)[r].death.Some? ==> Now() == old(Now())
      ensures old(refs)[r].death.None? ==>
                Now() == Requested(old(Now()), r, cookie, old(next), ListFor(t, p, looper)) && next == old(next) + 1
      ensures lost == old(lost) && queues.Keys == old(queues).Keys
      ensures old(refs)[r].death.None? && old(refs)[r].node in gone ==>
                && old(next) in at && at[old(next)] == Queued(if looper then OfThread(t) else OfProc(p))
                && JoinsQueue(old(queues), queues, old(next), if looper then OfThread(t) else OfProc(p))
      ensures old(refs)[r].death.Some? || old(refs)[r].node !in gone ==> queues == old(queues)
    {
      hide Records, Attached, ListsOk, Pledged;
      if refs[r].death.Some? {
        return;
      }
      Register(r, cookie, ListFor(t, p, looper));
    }

    method Register(r: RefId, cookie: nat, q: Queue)
      requires Valid() && r in refs && refs[r].death.None? && q in queues
      modifies this
      ensures Valid() && lost == old(lost) && Now() == Requested(old(Now()), r, cookie, old(next), q) && next == old(next) + 1
      ensures if old(refs)[r].node in gone then JoinsQueue(old(queues), queues, old(next), q) else queues == old(queues)
    {
      hide Records, Attached, ListsOk, Pledged, Requested;
      ghost var s := Now();
      RequestedAll(s, r, cookie, next, q, lost);
      var death := Death(cookie, Unset);
      if refs[r].node in gone {
        death := Death(cookie, DeadBinder);
        Enqueue(next, q);
      }
      Attach(r, death);
      RequestedIs(s, r, cookie, next - 1, q, Now());
    }

    /** The record of a new registration. */
    method Attach(r: RefId, death: Death)
      requires r in refs && next !in deaths && next !in log && Numbered() && Placed() && (forall d :: d in lost ==> d < next)
      modifies `refs, `deaths, `on, `log, `next
      ensures refs == old(refs)[r := old(refs)[r].(death := Some(old(next)))] && deaths == old(deaths)[old(next) := death]
      ensures on == old(on)[old(next) := r] && log == old(log)[old(next) := []] && next == old(next) + 1
      ensures Numbered() && Placed() && forall d :: d in lost ==> d < next
    {
      refs := refs[r := refs[r].(death := Some(next))];
      deaths := deaths[next := death];
      on, log := on[next := r], log[next := []];
      next := next + 1;
    }

    ghost predicate Numbered()
      reads `deaths, `log, `next
    {
      forall d :: d in deaths || d in log ==> d < next
    }

    /** Each process that holds a reference has a list. */
    ghost predicate Placed()
      reads `refs, `queues
    {
      forall r :: r in refs ==> OfProc(refs[r].proc) in queues
    }

    /** `BC_CLEAR_DEATH_NOTIFICATION`. */
    method Clear(t: Tid, p: Pid, looper: bool, r: RefId, cookie: nat)
      requires Valid() && r in refs && ListFor(t, p, looper) in queues
      modifies `refs, `deaths, `queues, `at, `on
      ensures Valid()
      ensures old(refs)[r].death.None? ==> Now() == old(Now())
      ensures old(refs)[r].death.Some? ==>
                var d := old(refs)[r].death.value;
                d in old(deaths)
                && Now() == (if old(deaths)[d].cookie == cookie then Cleared(old(Now()), r, d, ListFor(t, p, looper)) else old(Now()))
                && (old(deaths)[d].cookie == cookie && d !in old(at) ==>
                      && d in at && at[d] == Queued(if looper then OfThread(t) else OfProc(p)) && d in deaths && deaths[d].kind == Kind.Clear
                      && JoinsQueue(old(queues), queues, d, if looper then OfThread(t) else OfProc(p)))
                && (old(deaths)[d].cookie == cookie && d in old(at) ==> queues == old(queues))
    {
      hide Records, Attached, ListsOk, Pledged;
      if refs[r].death.None? {
        return;
      }
      var d := refs[r].death.value;
      var q := ListFor(t, p, looper);
      ghost var s := Now();
      ClearedOk(s, r, d, q);
      ClearedPledged(s, r, d, q, lost);
      if deaths[d].cookie != cookie {
        return;
      }
      refs := refs[r := refs[r].(death := None)];
      var listed := IsListed(d);
      if !listed {
        deaths := deaths[d := deaths[d].(kind := Kind.Clear)];
        Enqueue(d, q);
      } else {
        assert deaths[d].kind == DeadBinder;
        deaths := deaths[d := deaths[d].(kind := DeadAndClear)];
      }
      on := on - {d};
    }

    /** Is the notification on a list? */
    method IsListed(d: DeathId) returns (r: bool)
      requires ListsOk(queues, delivered, at)
      ensures r <==> d in at
    {
      if q :| q in queues && d in queues[q] {
        return true;
      }
      if p :| p in delivered && d in delivered[p] {
        return true;
      }
      return false;
    }

    /** The loop of `binder_deferred_release` over the references to node `n`: none has a notification on a
        list yet. */
    method NodeDies(n: NodeId)
      requires Valid() && n !in gone
      modifies `gone, `deaths, `queues, `at
      ensures Valid() && gone == old(gone) + {n} && refs == old(refs) && on == old(on) && log == old(log)
      ensures forall d :: d in at <==> d in old(at) || (d in on && on[d] in refs && refs[on[d]].node == n)
      ensures deaths.Keys == old(deaths).Keys
      ensures forall d :: d in old(at) ==> at[d] == old(at)[d]
      ensures forall d :: d in at && d !in old(at) ==> NoticeTo(old(Now()), Now(), d)
      ensures queues.Keys == old(queues).Keys && forall q :: q in queues ==> old(queues)[q] <= queues[q]
    {
      hide Records, Attached, ListsOk, Dying, Pledged, Spread, NoticeTo;
      ghost var s, qs := Now(), queues;
      var left := set r | r in refs && refs[r].node == n;
      DiesStart(Now(), n, left);
      SpreadStart(s, n, left, queues);
      gone := gone + {n};
      ReportRefs(n, left, s, qs);
      DiesAll(s, Now(), n, qs, queues, lost);
    }

    /** The loop itself; `s` and `qs` are what there was before the node died. */
    method ReportRefs(n: NodeId, all: set<RefId>, ghost s: State, ghost qs: map<Queue, seq<DeathId>>)
      requires Dying(Now(), n, all) && Tidy() && (forall r :: r in all ==> r in refs && refs[r].node == n)
      requires Spread(s, Now(), n, all, qs, queues)
      modifies `deaths, `queues, `at
      ensures Dying(Now(), n, {}) && Tidy() && Spread(s, Now(), n, {}, qs, queues)
    {
      hide Records, Attached, ListsOk, Dying, Spread;
      var left := all;
      while left != {}
        invariant Dying(Now(), n, left) && Tidy() && forall r :: r in left ==> r in refs && refs[r].node == n
        invariant Spread(s, Now(), n, left, qs, queues)
        decreases left
      {
        var r :| r in left;
        ghost var t, before := Now(), queues;
        DyingAttached(t, n, left);
        ReportRef(n, left, r);
        SpreadStep(s, t, Now(), n, left, r, qs, before, queues);
        left := left - {r};
      }
    }

    /** One reference to the node that died: its notification, on no list so far, is queued to its process. */
    method ReportRef(n: NodeId, ghost left: set<RefId>, r: RefId)
      requires Dying(Now(), n, left) && Tidy() && r in left && r in refs
      modifies `deaths, `queues, `at
      ensures Dying(Now(), n, left - {r}) && Tidy() && deaths.Keys == old(deaths).Keys
      ensures match refs[r].death
              case None => at == old(at) && queues == old(queues) && deaths == old(deaths)
              case Some(d) =>
                && d !in old(at) && at == old(at)[d := Queued(OfProc(refs[r].proc))]
                && d in old(deaths) && deaths == old(deaths)[d := old(deaths)[d].(kind := DeadBinder)]
                && JoinsQueue(old(queues), queues, d, OfProc(refs[r].proc))
    {
      hide Records, Attached, ListsOk, Dying, Reported, Replay;
      if refs[r].death.None? {
        DiesStep(Now(), n, left, r, OfProc(refs[r].proc));
        return;
      }
      var d := refs[r].death.value;
      var q := OfProc(refs[r].proc);
      ghost var s := Now();
      DiesStep(s, n, left, r, q);
      var listed := IsListed(d);
      if listed {
        assert false;
      }
      deaths := deaths[d := deaths[d].(kind := DeadBinder)];
      Enqueue(d, q);
      ReportedIs(s, d, q, Now());
    }

    /** The notification branch of `binder_thread_read`, for the first item of list `q`; process `p` reads. */
    method ReadWork(q: Queue, p: Pid) returns (cookie: nat, cleared: bool)
      requires Valid() && q in queues && queues[q] != [] && p in delivered
      modifies `deaths, `queues, `delivered, `at, `log
      ensures Valid()
      ensures var d := old(queues)[q][0];
              && d in old(deaths) && d in old(log) && Now() == Read(old(Now()), d, p)
              && cookie == old(deaths)[d].cookie && cleared == old(deaths)[d].kind.Clear?
              && delivered == (if cleared then old(delivered) else old(delivered)[p := [d] + old(delivered)[p]])
              && queues == old(queues)[q := old(queues)[q][1..]]
    {
      hide Records, Attached, ListsOk, Replay, Pledged;
      var d := queues[q][0];
      ghost var s := Now();
      HeadOf(queues, delivered, at, q);
      ReadOk(s, d, p);
      ReadPledged(s, d, p, lost);
      cookie, cleared := deaths[d].cookie, deaths[d].kind.Clear?;
      LeaveLists(queues, delivered, at, d);
      queues := queues[q := queues[q][1..]];
      if cleared {
        deaths := deaths - {d};
        at := at - {d};
        log := log[d := log[d] + [ToldCleared]];
      } else {
        DeliverLists(queues, delivered, at - {d}, d, p);
        assert (at - {d})[d := Delivered(p)] == at[d := Delivered(p)];
        delivered := delivered[p := [d] + delivered[p]];
        at := at[d := Delivered(p)];
        log := log[d := log[d] + [ToldDead]];
      }
    }

    /** The search of `BC_DEAD_BINDER_DONE`: of the delivered notifications with this cookie the first on the list,
        which is the last that was delivered. */
    method FindDelivered(p: Pid, cookie: nat) returns (found: Option<DeathId>)
      requires Valid() && p in delivered
      ensures found.Some? ==> FirstWith(delivered[p], deaths, cookie, found.value)
      ensures found.None? ==> forall d :: d in delivered[p] && d in deaths ==> deaths[d].cookie != cookie
    {
      var i := 0;
      while i < |delivered[p]|
        invariant 0 <= i <= |delivered[p]|
        invariant forall k :: 0 <= k < i && delivered[p][k] in deaths ==> deaths[delivered[p][k]].cookie != cookie
      {
        var d := delivered[p][i];
        assert d in delivered[p];
        if deaths[d].cookie == cookie {
          return Some(d);
        }
        i := i + 1;
      }
      return None;
    }

    /** `BC_DEAD_BINDER_DONE`. */
    method Done(t: Tid, p: Pid, looper: bool, cookie: nat) returns (found: Option<DeathId>)
      requires Valid() && p in delivered && ListFor(t, p, looper) in queues
      modifies `deaths, `queues, `delivered, `at, `log
      ensures Valid()
      ensures found.Some? ==>
                && FirstWith(old(delivered)[p], old(deaths), cookie, found.value)
                && found.value in old(log) && Now() == Finished(old(Now()), found.value, ListFor(t, p, looper))
      ensures found.None? ==> Now() == old(Now()) && forall d :: d in old(delivered)[p] && d in deaths ==> deaths[d].cookie != cookie
      ensures found.Some? && found.value in at ==> JoinsQueue(old(queues), queues, found.value, if looper then OfThread(t) else OfProc(p))
      ensures found.None? || found.value !in at ==> queues == old(queues)
    {
      hide Records, Attached, ListsOk, Replay, Finished, Pledged;
      found := FindDelivered(p, cookie);
      if found.Some? {
        FinishOne(p, found.value, ListFor(t, p, looper));
      }
    }

    method FinishOne(p: Pid, d: DeathId, q: Queue)
      requires Valid() && p in delivered && d in delivered[p] && q in queues
      modifies `deaths, `queues, `delivered, `at, `log
      ensures Valid()
      ensures d in old(deaths) && d in old(log) && Now() == Finished(old(Now()), d, q)
      ensures if d in at then JoinsQueue(old(queues), queues, d, q) else queues == old(queues)
    {
      hide Records, Attached, ListsOk, Replay, LeaveQueues, LeaveDelivered, Pledged;
      DeliveredAt(queues, delivered, at, p, d);
      HereOk(Now(), d);
      FinishedPledged(Now(), d, q, lost);
      FinishedOk(Now(), d, q);
      LeaveLists(queues, delivered, at, d);
      MoveLists(queues, delivered, at, d, q);
      delivered := delivered[p := Without(delivered[p], d)];
      log := log[d := log[d] + [Answered]];
      if deaths[d].kind == DeadAndClear {
        deaths := deaths[d := deaths[d].(kind := Kind.Clear)];
        queues := queues[q := queues[q] + [d]];
        at := at[d := Queued(q)];
      } else {
        at := at - {d};
      }
    }

    /** `binder_release_work`: the notifications on a list are dropped. */
    method ReleaseWork(q: Queue)
      requires Valid() && q in queues
      modifies `queues, `at, `lost
      ensures Valid() && queues == old(queues)[q := []] && lost == old(lost) + set d | d in old(queues)[q]
      ensures forall d :: d in at <==> d in old(at) && old(at)[d] != Queued(q)
      ensures forall d :: d in at ==> at[d] == old(at)[d]
      ensures forall d :: d in old(queues)[q] ==> d in deaths && !Pledge(Now(), d)
    {
      hide Records, Attached, Replay, ListsOk, Pledged, Pledge;
      ghost var s, dropped := Now(), queues[q];
      OnQueue(queues, delivered, at, q);
      while queues[q] != []
        invariant Valid() && q in queues && queues == old(queues)[q := queues[q]]
        invariant lost + (set d | d in queues[q]) == old(lost) + set d | d in old(queues)[q]
        invariant forall d :: d in at ==> d in old(at) && at[d] == old(at)[d]
        invariant forall d :: d in old(at) && old(at)[d] != Queued(q) ==> d in at
        decreases |queues[q]|
      {
        DropFirst(q);
      }
      EmptyList(queues, delivered, at, q);
      forall d | d in dropped ensures d in deaths && !Pledge(Now(), d) {
        DroppedIs(s, Now(), d);
      }
    }

    method DropFirst(q: Queue)
      requires Valid() && q in queues && queues[q] != []
      modifies `queues, `at, `lost
      ensures Valid() && queues == old(queues)[q := old(queues)[q][1..]] && lost == old(lost) + {old(queues)[q][0]}
      ensures var d := old(queues)[q][0]; d in old(at) && old(at)[d] == Queued(q) && at == old(at) - {d}
    {
      hide Records, Attached, Replay, ListsOk, Pledged;
      var d := queues[q][0];
      HeadOf(queues, delivered, at, q);
      LostOk(Now(), d);
      HereOk(Now(), d);
      LostPledged(Now(), d, lost);
      lost := lost + {d};
      LeaveLists(queues, delivered, at, d);
      queues := queues[q := queues[q][1..]];
      at := at - {d};
    }

    /** `list_del` on a notification's entry. */
    method Unlist(d: DeathId)
      requires ListsOk(queues, delivered, at)
      modifies `queues, `delivered
      ensures queues == LeaveQueues(old(queues), at, d) && delivered == LeaveDelivered(old(delivered), at, d)
    {
      hide ListsOk;
      if q :| q in queues && d in queues[q] {
        AtQueue(queues, delivered, at, d, q);
        queues := queues[q := Without(queues[q], d)];
      } else if p :| p in delivered && d in delivered[p] {
        DeliveredAt(queues, delivered, at, p, d);
        delivered := delivered[p := Without(delivered[p], d)];
      } else {
        Nowhere(queues, delivered, at, d);
      }
    }

    /** `binder_delete_ref`. */
    method DeleteRef(r: RefId)
      requires Valid() && r in refs
      modifies `refs, `deaths, `queues, `delivered, `at, `on
      ensures Valid() && Now() == Deleted(old(Now()), r)
    {
      hide Records, Attached, ListsOk, Replay, LeaveDelivered, LeaveQueues, Without, Pledged;
      DeletedPledged(Now(), r, lost);
      DeletedOk(Now(), r);
      if refs[r].death.Some? {
        FreeDeath(refs[r].death.value);
      }
      refs := refs - {r};
    }

    /** A notification is freed, wherever it is. */
    method FreeDeath(d: DeathId)
      requires ListsOk(queues, delivered, at)
      modifies `deaths, `queues, `delivered, `at, `on
      ensures ListsOk(queues, delivered, at) && queues.Keys == old(queues).Keys
      ensures deaths == old(deaths) - {d} && on == old(on) - {d} && at == old(at) - {d}
    {
      hide ListsOk, LeaveDelivered, LeaveQueues, Without;
      LeaveKeys(queues, at, Some(d));
      LeaveLists(queues, delivered, at, d);
      Unlist(d);
      deaths, on, at := deaths - {d}, on - {d}, at - {d};
    }
  }

  /** Since `s`, the notices of node `n` were queued to their processes, but for those on the references in `left`. */
  ghost predicate Spread(s: State, s': State, n: NodeId, left: set<RefId>, a: map<Queue, seq<DeathId>>, b: map<Queue, seq<DeathId>>) {
    && s'.deaths.Keys == s.deaths.Keys && s'.refs == s.refs && s'.on == s.on && s'.log == s.log
    && (forall d :: d in s.on ==> s.on[d] in s.refs)
    && (forall d :: d in s'.at <==> d in s.at || (d in s.on && s.refs[s.on[d]].node == n && s.on[d] !in left))
    && (forall d :: d in s.at && d in s'.at ==> s'.at[d] == s.at[d])
    && (forall d :: d in s'.at && d !in s.at ==> d in s.on && SpreadTo(s, s', d))
    && b.Keys == a.Keys && forall q :: q in b && q in a ==> a[q] <= b[q]
  }

  ghost predicate SpreadTo(s: State, s': State, d: DeathId)
    requires d in s.on && d in s'.at
  {
    && s.on[d] in s.refs && d in s'.deaths && s'.deaths[d].kind == DeadBinder
    && s'.at[d] == Queued(OfProc(s.refs[s.on[d]].proc))
  }

  lemma SpreadStart(s: State, n: NodeId, left: set<RefId>, a: map<Queue, seq<DeathId>>)
    requires Attached(s) && forall r :: r in left <==> r in s.refs && s.refs[r].node == n
    ensures Spread(s, s.(gone := s.gone + {n}), n, left, a, a)
  {
  }

  lemma SpreadStep(s: State, t: State, t': State, n: NodeId, left: set<RefId>, r: RefId, a: map<Queue, seq<DeathId>>,
                   b: map<Queue, seq<DeathId>>, c: map<Queue, seq<DeathId>>)
    requires Spread(s, t, n, left, a, b) && r in left && r in t.refs && t.refs[r].node == n && Attached(t)
    requires t'.refs == t.refs && t'.on == t.on && t'.log == t.log
    requires match t.refs[r].death
             case None => t'.at == t.at && c == b && t'.deaths == t.deaths
             case Some(d) =>
               && d !in t.at && t'.at == t.at[d := Queued(OfProc(t.refs[r].proc))]
               && d in t.deaths && t'.deaths == t.deaths[d := t.deaths[d].(kind := DeadBinder)]
               && JoinsQueue(b, c, d, OfProc(t.refs[r].proc))
    ensures Spread(s, t', n, left - {r}, a, c)
  {
    if t.refs[r].death.Some? {
      var d := t.refs[r].death.value;
      assert t.on[d] == r;
      forall e | e in t'.at && e !in s.at ensures e in s.on && SpreadTo(s, t', e) {
        assert e != d ==> SpreadTo(s, t, e);
      }
      forall q | q in c && q in a ensures a[q] <= c[q] {
        assert a[q] <= b[q];
      }
    }
  }

  lemma SpreadAll(s: State, s': State, n: NodeId, a: map<Queue, seq<DeathId>>, b: map<Queue, seq<DeathId>>)
    requires Spread(s, s', n, {}, a, b)
    ensures s'.deaths.Keys == s.deaths.Keys && s'.refs == s.refs && s'.on == s.on && s'.log == s.log
    ensures forall d :: d in s.on ==> s.on[d] in s.refs
    ensures forall d :: d in s'.at <==> d in s.at || (d in s.on && s.refs[s.on[d]].node == n)
    ensures forall d :: d in s.at ==> d in s'.at && s'.at[d] == s.at[d]
    ensures forall d :: d in s'.at && d !in s.at ==>
              d in s.on && d in s'.deaths && s'.deaths[d].kind == DeadBinder && s'.at[d] == Queued(OfProc(s.refs[s.on[d]].proc))
    ensures b.Keys == a.Keys && forall q :: q in b ==> a[q] <= b[q]
  {
    forall d | d in s'.at && d !in s.at
      ensures d in s.on && d in s'.deaths && s'.deaths[d].kind == DeadBinder && s'.at[d] == Queued(OfProc(s.refs[s.on[d]].proc))
    {
      assert SpreadTo(s, s', d);
    }
  }

  /** `d` goes to the end of queue `q`, and no other queue changes. */
  ghost predicate JoinsQueue(a: map<Queue, seq<DeathId>>, b: map<Queue, seq<DeathId>>, d: DeathId, q: Queue) {
    q in a && b == a[q := a[q] + [d]]
  }

  /** `d` is the first of `q` with this cookie. */
  ghost predicate FirstWith(q: seq<DeathId>, deaths: map<DeathId, Death>, cookie: nat, d: DeathId) {
    && d in deaths && deaths[d].cookie == cookie
    && exists i :: 0 <= i < |q| && q[i] == d && forall k :: 0 <= k < i && q[k] in deaths ==> deaths[q[k]].cookie != cookie
  }

  lemma LeaveKeys(queues: map<Queue, seq<DeathId>>, at: map<DeathId, Place>, d: Option<DeathId>)
    ensures d.Some? ==> LeaveQueues(queues, at, d.value).Keys == queues.Keys
  {
  }

  lemma OnQueue(queues: map<Queue, seq<DeathId>>, delivered: map<Pid, seq<DeathId>>, at: map<DeathId, Place>, q: Queue)
    requires ListsOk(queues, delivered, at) && q in queues
    ensures forall d :: d in queues[q] ==> d in at && at[d] == Queued(q)
  {
  }

  /** What is dropped with its list was not told, and will not be. */
  lemma DroppedIs(s: State, s': State, d: DeathId)
    requires Records(s) && d in s.at && s.at[d].Queued? && d !in s'.at
    requires s'.deaths == s.deaths && s'.on == s.on && s'.refs == s.refs && s'.gone == s.gone && s'.log == s.log
    ensures d in s'.deaths && !Pledge(s', d)
  {
    HereOk(s, d);
    AtMostOnce(s.log[d]);
    InCount(s.log[d]);
    hide Replay, Count, Records;
  }

  lemma EmptyList(queues: map<Queue, seq<DeathId>>, delivered: map<Pid, seq<DeathId>>, at: map<DeathId, Place>, q: Queue)
    requires ListsOk(queues, delivered, at) && q in queues && queues[q] == []
    ensures forall d :: d in at ==> at[d] != Queued(q)
  {
  }

  lemma AddedOk(s: State, r: RefId, ref: Ref)
    requires Records(s) && Attached(s) && r !in s.refs && ref.death.None?
    ensures Records(s.(refs := s.refs[r := ref])) && Attached(s.(refs := s.refs[r := ref]))
  {
    var s' := s.(refs := s.refs[r := ref]);
    AllLogged(s);
    hide DeathOk, Replay;
    forall d | d in s.deaths ensures DeathOk(s', d) {
      DeathFrame(s, s', d);
    }
  }

  lemma NewNumber(s: State, d: DeathId)
    requires Attached(s) && d !in s.deaths
    ensures d !in s.on
  {
  }

  lemma DyingAttached(s: State, n: NodeId, left: set<RefId>)
    requires Dying(s, n, left)
    ensures Attached(s)
  {
    hide Attached;
  }

  lemma DiesAll(s: State, s': State, n: NodeId, a: map<Queue, seq<DeathId>>, b: map<Queue, seq<DeathId>>, lost: set<DeathId>)
    requires Dying(s', n, {}) && Spread(s, s', n, {}, a, b) && Pledged(s, lost) && Attached(s) && s'.gone == s.gone + {n}
    ensures Records(s') && Attached(s') && Pledged(s', lost)
    ensures s'.deaths.Keys == s.deaths.Keys && s'.refs == s.refs && s'.on == s.on && s'.log == s.log
    ensures forall d :: d in s'.at <==> d in s.at || (d in s.on && s.on[d] in s.refs && s.refs[s.on[d]].node == n)
    ensures forall d :: d in s.at ==> d in s'.at && s'.at[d] == s.at[d]
    ensures forall d :: d in s'.at && d !in s.at ==> NoticeTo(s, s', d)
    ensures b.Keys == a.Keys && forall q :: q in b ==> a[q] <= b[q]
  {
    hide Records, Attached, Pledged, Dying, Spread;
    DiesEnd(s', n);
    SpreadAll(s, s', n, a, b);
    DiedPledged(s, s', n, lost);
  }

  /** The notice of a reference to a dead node is on the list of the reference's process. */
  ghost predicate NoticeTo(s: State, s': State, d: DeathId) {
    && d in s.on && s.on[d] in s.refs && d in s'.deaths && s'.deaths[d].kind == DeadBinder
    && d in s'.at && s'.at[d] == Queued(OfProc(s.refs[s.on[d]].proc))
  }

  lemma RequestedAll(s: State, r: RefId, cookie: nat, d: DeathId, q: Queue, lost: set<DeathId>)
    requires Records(s) && Attached(s) && Pledged(s, lost) && r in s.refs && s.refs[r].death.None? && d !in s.deaths && d !in s.log
    ensures d !in s.at && Records(Requested(s, r, cookie, d, q)) && Attached(Requested(s, r, cookie, d, q))
    ensures Pledged(Requested(s, r, cookie, d, q), lost)
  {
    NewNumber(s, d);
    hide Records, Attached, Pledged, Requested;
    RequestedOk(s, r, cookie, d, q);
    RequestedPledged(s, r, cookie, d, q, lost);
  }

  lemma RequestedIs(s: State, r: RefId, cookie: nat, d: DeathId, q: Queue, s': State)
    requires r in s.refs
    requires s' == s.(refs := s.refs[r := s.refs[r].(death := Some(d))], on := s.on[d := r], log := s.log[d := []],
                      deaths := s.deaths[d := Death(cookie, if s.refs[r].node in s.gone then DeadBinder else Unset)],
                      at := if s.refs[r].node in s.gone then s.at[d := Queued(q)] else s.at)
    ensures s' == Requested(s, r, cookie, d, q)
  {
  }

  lemma ReportedIs(s: State, d: DeathId, q: Queue, s': State)
    requires d in s.deaths
    requires s' == s.(deaths := s.deaths[d := s.deaths[d].(kind := DeadBinder)], at := s.at[d := Queued(q)])
    ensures s' == Reported(s, d, q)
  {
  }

  lemma HeadOf(queues: map<Queue, seq<DeathId>>, delivered: map<Pid, seq<DeathId>>, at: map<DeathId, Place>, q: Queue)
    requires ListsOk(queues, delivered, at) && q in queues && queues[q] != []
    ensures queues[q][0] in at && at[queues[q][0]] == Queued(q)
    ensures LeaveQueues(queues, at, queues[q][0]) == queues[q := queues[q][1..]]
    ensures LeaveDelivered(delivered, at, queues[q][0]) == delivered
  {
    assert queues[q][0] in queues[q];
  }

  lemma DeliveredAt(queues: map<Queue, seq<DeathId>>, delivered: map<Pid, seq<DeathId>>, at: map<DeathId, Place>, p: Pid, d: DeathId)
    requires ListsOk(queues, delivered, at) && p in delivered && d in delivered[p]
    ensures d in at && at[d] == Delivered(p)
    ensures LeaveQueues(queues, at, d) == queues
    ensures LeaveDelivered(delivered, at, d) == delivered[p := Without(delivered[p], d)]
  {
  }

  lemma AtQueue(queues: map<Queue, seq<DeathId>>, delivered: map<Pid, seq<DeathId>>, at: map<DeathId, Place>, d: DeathId, q: Queue)
    requires ListsOk(queues, delivered, at) && q in queues && d in queues[q]
    ensures LeaveQueues(queues, at, d) == queues[q := Without(queues[q], d)]
    ensures LeaveDelivered(delivered, at, d) == delivered
  {
  }

  lemma Nowhere(queues: map<Queue, seq<DeathId>>, delivered: map<Pid, seq<DeathId>>, at: map<DeathId, Place>, d: DeathId)
    requires ListsOk(queues, delivered, at)
    requires (forall q :: q in queues ==> d !in queues[q]) && (forall p :: p in delivered ==> d !in delivered[p])
    ensures d !in at
    ensures LeaveQueues(queues, at, d) == queues && LeaveDelivered(delivered, at, d) == delivered
  {
  }

  /** A looper asks to be told of a node that is dead already, and exits before it reads the notice: it is lost with the
      thread's list, and nobody in its process will be told. */
  method Forgotten() returns (m: Registrations)
    ensures fresh(m) && m.Valid() && 0 in m.deaths && 0 in m.log && m.log[0] == [] && !Pledge(m.Now(), 0)
  {
    hide Registrations.Valid, Pledge, NoticeTo, JoinsQueue;
    m := DeadNode();
    m.Request(0, 0, true, 0, 9);
    m.ReleaseWork(OfThread(0));
    NotPledged(m.Now(), 0);
  }

  method DeadNode() returns (m: Registrations)
    ensures fresh(m) && m.Valid() && m.refs == map[0 := Ref(0, 5, None)] && m.gone == {5} && m.next == 0
    ensures OfThread(0) in m.queues && m.at == map[] && m.log == map[]
  {
    hide Registrations.Valid, NoticeTo;
    m := new Registrations(map[OfThread(0) := [], OfProc(0) := []], map[0 := []]);
    m.AddRef(0, 0, 5);
    m.NodeDies(5);
  }

  lemma NotPledged(s: State, d: DeathId)
    requires d in s.deaths && d in s.on && s.on[d] in s.refs && s.refs[s.on[d]].node in s.gone && d !in s.at && d in s.log && s.log[d] == []
    ensures !Pledge(s, d)
  {
  }
}
