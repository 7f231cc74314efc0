/** The work lists over whole runs: what joins a list goes to its end, and what leaves leaves from its front. */
module Lines {
  import opened Wrappers
  import opened Chains
  import opened Stacks
  import opened States
  import opened Popping
  import opened Lists
  import opened Transactions
  import opened Deaths

  /** The work lists, what waits where, and the number the next transaction gets. */
  datatype Line = Line(threads: map<Tid, Thread>, procs: map<Pid, seq<TxnId>>, at: map<TxnId, Where>, nextTxn: TxnId)

  function LineOf(s: World, n: TxnId): Line {
    Line(s.threads, s.procs, s.at, n)
  }

  /** The list at `where`; what is parked waits on none. */
  function ListAt(a: Line, where: Where): Option<seq<TxnId>> {
    match where
    case OnThread(x) => if x in a.threads then Some(a.threads[x].todo) else None
    case OnProc(p) => if p in a.procs then Some(a.procs[p]) else None
    case Parked(_) => None
  }

  /** What was parked, or not sent yet. */
  predicate Comes(a: Line, t: TxnId) {
    t >= a.nextTxn || (t in a.at && a.at[t].Parked?)
  }

  /** `q` became `q'`: its first `k` are gone, and what came since is behind the rest. */
  predicate Served(a: Line, q: seq<TxnId>, q': seq<TxnId>, k: nat) {
    k <= |q| && q[k..] <= q' && forall i :: |q| - k <= i < |q'| ==> Comes(a, q'[i])
  }

  ghost predicate ListServed(a: Line, b: Line, where: Where) {
    ListAt(a, where).Some? && ListAt(b, where).Some? ==> exists k: nat :: Served(a, ListAt(a, where).value, ListAt(b, where).value, k)
  }

  /** Every list that is there before and after a step was served from its front and filled at its end. */
  ghost predicate InLine(a: Line, b: Line) {
    && a.nextTxn <= b.nextTxn
    && (forall t :: t in b.at && b.at[t].Parked? ==> Comes(a, t))
    && (forall where :: ListServed(a, b, where))
  }

  ghost predicate LineRun(r: seq<Line>) {
    forall i, j :: 0 <= i < |r| && j == i + 1 < |r| ==> InLine(r[i], r[j])
  }

  /** A list that is there throughout a run is served in the order it is filled. */
  lemma {:induction false} FirstComeFirstServed(r: seq<Line>, i: nat, j: nat, where: Where)
    requires LineRun(r) && i <= j < |r|
    requires forall k: nat :: i <= k <= j ==> ListAt(r[k], where).Some?
    ensures exists k: nat :: Served(r[i], ListAt(r[i], where).value, ListAt(r[j], where).value, k)
    ensures r[i].nextTxn <= r[j].nextTxn && forall t :: t in r[j].at && r[j].at[t].Parked? ==> Comes(r[i], t)
    decreases j
  {
    var q := ListAt(r[i], where).value;
    if i == j {
      assert Served(r[i], q, q, 0);
    } else {
      FirstComeFirstServed(r, i, j - 1, where);
      var k: nat :| Served(r[i], q, ListAt(r[j - 1], where).value, k);
      assert InLine(r[j - 1], r[j]);
      assert ListServed(r[j - 1], r[j], where);
      var l: nat :| Served(r[j - 1], ListAt(r[j - 1], where).value, ListAt(r[j], where).value, l);
      BetweenTwice(r[i], r[j - 1], r[j], q, ListAt(r[j - 1], where).value, ListAt(r[j], where).value, k, l);
    }
  }

  lemma BetweenTwice(a: Line, b: Line, c: Line, q: seq<TxnId>, q1: seq<TxnId>, q2: seq<TxnId>, j: nat, k: nat)
    requires a.nextTxn <= b.nextTxn && InLine(b, c) && forall t :: t in b.at && b.at[t].Parked? ==> Comes(a, t)
    requires Served(a, q, q1, j) && Served(b, q1, q2, k)
    ensures exists l: nat :: Served(a, q, q2, l)
    ensures a.nextTxn <= c.nextTxn && forall t :: t in c.at && c.at[t].Parked? ==> Comes(a, t)
  {
    var l := if j + k <= |q| then j + k else |q|;
    assert q[j..] == q1[..|q| - j];
    if j + k <= |q| {
      assert q[l..] == q1[k..|q| - j];
      assert q1[k..|q| - j] <= q1[k..];
    }
    forall i | |q| - l <= i < |q2| ensures Comes(a, q2[i]) {
      if i < |q1| - k {
        assert q2[i] == q1[k..][i] == q1[k + i];
      }
    }
    assert Served(a, q, q2, l);
  }

  /** What waits on a list was sent before and is on it once. */
  ghost predicate Orderly(a: Line) {
    forall where :: ListAt(a, where).Some? ==> Distinct(ListAt(a, where).value) && forall t :: t in ListAt(a, where).value ==> !Comes(a, t)
  }

  /** Nobody overtakes: over any run, if a transaction left a list, so did those before it. */
  lemma NoneOvertakes(r: seq<Line>, i: nat, j: nat, where: Where, u: nat, v: nat)
    requires LineRun(r) && i <= j < |r| && Orderly(r[i])
    requires forall k: nat :: i <= k <= j ==> ListAt(r[k], where).Some?
    requires u < v < |ListAt(r[i], where).value|
    ensures var q, q' := ListAt(r[i], where).value, ListAt(r[j], where).value; q[v] !in q' ==> q[u] !in q'
  {
    FirstComeFirstServed(r, i, j, where);
    var q, q' := ListAt(r[i], where).value, ListAt(r[j], where).value;
    var k: nat :| Served(r[i], q, q', k);
    if v >= k {
      assert q'[v - k] == q[k..][v - k] == q[v];
    } else {
      assert !Comes(r[i], q[u]);
      forall l | 0 <= l < |q'| ensures q'[l] != q[u] {
        if l < |q| - k {
          assert q'[l] == q[k..][l] == q[k + l];
        }
      }
    }
  }

  // ---- single steps ----

  /** Nothing but `t` joins a list, and that goes to the end of the one at `where`. */
  ghost predicate Joins(a: Line, b: Line, t: TxnId, where: Where) {
    && t == a.nextTxn && b.nextTxn == t + 1 && b.at == a.at[t := where]
    && (where.Parked? || ListAt(b, where).Some?)
    && forall l :: match ListAt(a, l)
                   case Some(q) => ListAt(b, l) == Some(if l == where then q + [t] else q)
                   case None => ListAt(b, l).None?
  }

  lemma JoinsInLine(a: Line, b: Line, t: TxnId, where: Where)
    requires Joins(a, b, t, where)
    ensures InLine(a, b)
  {
    forall l ensures ListServed(a, b, l) {
      if ListAt(a, l).Some? {
        assert Served(a, ListAt(a, l).value, ListAt(b, l).value, 0);
      }
    }
  }

  /** No list changes that is there before and after. */
  ghost predicate Idle(a: Line, b: Line) {
    && a.nextTxn == b.nextTxn && (forall t :: t in b.at ==> t in a.at && b.at[t] == a.at[t])
    && forall l :: ListAt(a, l).Some? && ListAt(b, l).Some? ==> ListAt(b, l) == ListAt(a, l)
  }

  lemma IdleInLine(a: Line, b: Line)
    requires Idle(a, b)
    ensures InLine(a, b)
  {
    forall l ensures ListServed(a, b, l) {
      if ListAt(a, l).Some? && ListAt(b, l).Some? {
        assert Served(a, ListAt(a, l).value, ListAt(b, l).value, 0);
      }
    }
  }

  /** The first of the list at `where` leaves. */
  ghost predicate Heads(a: Line, b: Line, t: TxnId, where: Where) {
    && a.nextTxn == b.nextTxn && b.at == a.at - {t}
    && ListAt(a, where).Some? && ListAt(a, where).value != [] && ListAt(a, where).value[0] == t
    && forall l :: match ListAt(a, l)
                   case Some(q) => ListAt(b, l) == Some(if l == where then ListAt(a, where).value[1..] else q)
                   case None => ListAt(b, l).None?
  }

  lemma HeadsInLine(a: Line, b: Line, t: TxnId, where: Where)
    requires Heads(a, b, t, where)
    ensures InLine(a, b)
  {
    forall l ensures ListServed(a, b, l) {
      if ListAt(a, l).Some? {
        assert Served(a, ListAt(a, l).value, ListAt(b, l).value, if l == where then 1 else 0);
      }
    }
  }

  /** What was parked goes to the end of the list of thread `x`. */
  lemma PromoteInLine(s: World, t: TxnId, x: Tid, n: TxnId)
    requires t in s.at && s.at[t].Parked? && x in s.threads
    ensures InLine(LineOf(s, n), LineOf(Promote(s, t, x), n))
  {
    var a, b := LineOf(s, n), LineOf(Promote(s, t, x), n);
    forall l ensures ListServed(a, b, l) {
      if ListAt(a, l).Some? {
        assert Served(a, ListAt(a, l).value, ListAt(b, l).value, 0);
      }
    }
  }

  lemma OrderlyIs(s: World, n: TxnId)
    requires ListsOk(s.threads, s.procs, s.at) && (forall t :: t in s.at ==> t < n)
    ensures Orderly(LineOf(s, n))
  {
    var a := LineOf(s, n);
    forall where | ListAt(a, where).Some? ensures Distinct(ListAt(a, where).value) && forall t :: t in ListAt(a, where).value ==> !Comes(a, t) {
      match where
      case OnThread(x) => assert ThreadList(s.threads, s.at, x);
      case OnProc(p) => assert ProcList(s.procs, s.at, p);
    }
  }

  // ---- the effects of the driver's steps ----

  lemma PostJoins(s: World, t: TxnId, w: Txn, where: Where, b: BufferId, p: Pid)
    requires Held(s.threads, s.procs, where, p)
    ensures Joins(LineOf(s, t), LineOf(Post(s, t, w, where, b, p), t + 1), t, where)
  {
  }

  lemma SendJoins(s: World, x: Tid, t: TxnId, w: Txn, where: Where, b: BufferId, p: Pid)
    requires Held(s.threads, s.procs, where, p) && x in s.threads && (x in s.graph.seat ==> s.graph.seat[x] in s.graph.chains)
    ensures Joins(LineOf(s, t), LineOf(Send(s, x, t, w, where, b, p), t + 1), t, where)
  {
    hide Extend;
  }

  /** `s'` has the lists of `s`. */
  ghost predicate SameLists(s: World, s': World) {
    && s'.procs == s.procs && s'.at == s.at && s'.threads.Keys == s.threads.Keys
    && forall x :: x in s.threads ==> s'.threads[x].todo == s.threads[x].todo && s'.threads[x].proc == s.threads[x].proc
  }

  lemma SameIdle(s: World, s': World, n: TxnId)
    requires SameLists(s, s')
    ensures Idle(LineOf(s, n), LineOf(s', n))
  {
  }

  lemma SameJoins(s: World, s1: World, s': World, t: TxnId, where: Where)
    requires SameLists(s, s1) && Joins(LineOf(s1, t), LineOf(s', t + 1), t, where)
    ensures Joins(LineOf(s, t), LineOf(s', t + 1), t, where)
  {
    forall l ensures ListAt(LineOf(s1, t), l) == ListAt(LineOf(s, t), l) {
    }
    hide ListAt;
  }

  lemma PopLists(s: World, t: TxnId)
    requires t in s.txns && Leaf(s.graph, t)
    ensures SameLists(s, Pop(s, t))
  {
    hide PopLeaf;
  }

  lemma {:induction false} FailSame(s: World, t: TxnId, code: Code)
    requires t in s.txns && Leaf(s.graph, t)
    ensures SameLists(s, Fail(s, t, code))
    decreases s.txns.Keys
  {
    hide Leaf, PopLeaf, Above;
    if s.txns[t].from.Some? && s.txns[t].from.value in s.threads {
    } else {
      PopLists(s, t);
      if Above(s, t).Some? {
        FailSame(Pop(s, t), Above(s, t).value, code);
      }
    }
  }

  lemma BackSame(s: World, x: Tid, t: TxnId)
    requires x in s.threads && t in s.txns && Serving(s.graph, x, t)
    ensures SameLists(s, HandBack(s, x, t))
  {
    hide Return;
  }

  lemma TakeHeads(s: World, x: Tid, t: TxnId, s': World, n: TxnId)
    requires t in s.at && First(s.threads, s.procs, s.at[t], t) && !s.at[t].Parked? && SameLists(Take(s, t), s')
    ensures Heads(LineOf(s, n), LineOf(s', n), t, s.at[t])
  {
    var where := s.at[t];
    forall l ensures ListAt(LineOf(s', n), l) == ListAt(LineOf(Take(s, t), n), l) {
    }
  }

  lemma TakenSame(s: World, x: Tid, t: TxnId)
    requires t in s.txns && x in s.threads
    ensures SameLists(s, Finish(s, t)) && (Leaf(s.graph, t) ==> SameLists(s, TakeUp(s, x, t)))
  {
    hide Serve, Leaf;
  }

  lemma DieIdle(s: World, x: Tid, n: TxnId)
    requires x in s.graph.seat ==> s.graph.seat[x] in s.graph.chains
    ensures Idle(LineOf(s, n), LineOf(Die(s, x), n))
  {
    hide Bury, Buried, Untied;
  }

  lemma ShutIdle(s: World, p: Pid, n: TxnId)
    ensures Idle(LineOf(s, n), LineOf(Shut(s, p), n))
  {
  }

  lemma IdleSame(s: World, s1: World, s': World, n: TxnId)
    requires Idle(LineOf(s, n), LineOf(s1, n)) && SameLists(s1, s')
    ensures Idle(LineOf(s, n), LineOf(s', n))
  {
    forall l ensures ListAt(LineOf(s', n), l) == ListAt(LineOf(s1, n), l) {
    }
    hide ListAt;
  }
}
