/** Each effect leads from one snapshot to the next. */
module RunSteps {
  import opened Wrappers
  import opened Chains
  import opened Stacks
  import opened States
  import opened Popping
  import opened Lists
  import opened Transactions
  import opened Deaths
  import opened Failures
  import opened Runs

  /** No transaction begins or ends. */
  lemma SameTxns(a: Snapshot, b: Snapshot)
    requires Numbered(a) && b.nextTxn == a.nextTxn && b.txns.Keys == a.txns.Keys
    requires forall t :: t in a.txns ==> b.txns[t].kind == a.txns[t].kind && b.txns[t].fromParent == a.txns[t].fromParent
                                         && b.txns[t].from == a.txns[t].from
    ensures Leads(a, b)
  {
  }

  lemma SendLeads(s: World, x: Tid, t: TxnId, w: Txn, where: Where, b: BufferId, p: Pid)
    requires Numbered(Snap(s, t)) && x in s.threads && (x in s.graph.seat ==> s.graph.seat[x] in s.graph.chains)
    requires w.from == Some(x) && w.fromParent == s.threads[x].stack
    ensures Leads(Snap(s, t), Snap(Send(s, x, t, w, where, b, p), t + 1))
  {
  }

  lemma PostLeads(a: Snapshot, s: World, t: TxnId, w: Txn, where: Where, b: BufferId, p: Pid)
    requires Leads(a, Snap(s, t)) && !w.kind.Call? && w.from.None?
    ensures Leads(a, Snap(Post(s, t, w, where, b, p), t + 1))
  {
    var m, c := Snap(s, t), Snap(Post(s, t, w, where, b, p), t + 1);
    forall u | u in c.txns && u !in a.txns ensures Born(a, c, u) {
      assert u != t ==> Born(a, m, u);
    }
    forall u | u in c.txns && u in a.txns ensures Carried(a, c, u) {
      assert Carried(a, m, u);
    }
    forall u | u in a.txns && u !in c.txns ensures Settled(a, c, u) {
      assert Settled(a, m, u);
    }
  }

  lemma PopLeads(a: Snapshot, s: World, n: TxnId, t: TxnId)
    requires t in s.txns && Leaf(s.graph, t) && s.txns[t].from.Some? && s.txns[t].kind.Call?
    requires Waits(s.threads, s.txns, s.txns[t].from.value)
    requires !Waits(WithPopped(s.threads, s.txns[t]), s.txns - {t}, s.txns[t].from.value)
    requires Leads(a, Snap(s, n))
    ensures Leads(a, Snap(Pop(s, t), n))
  {
    var b, c := Snap(s, n), Snap(Pop(s, t), n);
    forall u | u in c.txns && u !in a.txns ensures Born(a, c, u) {
      assert Born(a, b, u);
    }
    forall u | u in c.txns && u in a.txns ensures Carried(a, c, u) {
      assert Carried(a, b, u);
    }
    forall u | u in a.txns && u !in c.txns ensures Settled(a, c, u) {
      if u == t {
        assert Carried(a, b, u);
      } else {
        assert Settled(a, b, u);
      }
    }
  }

  /** A thread that dies takes its name off the calls it made; no call ends by that. */
  lemma DieLeads(s: World, n: TxnId, x: Tid)
    requires Numbered(Snap(s, n)) && GraphOk(s.graph) && CallsOk(s.txns, s.graph)
    requires x in s.graph.seat ==> s.graph.seat[x] in s.graph.chains
    ensures Leads(Snap(s, n), Snap(Die(s, x), n))
  {
    var b := Snap(Die(s, x), n);
    hide GraphOk, CallsOk;
    forall t | t in b.txns ensures Carried(Snap(s, n), b, t) {
      DieCarries(s, x, t);
    }
  }

  lemma DieCarries(s: World, x: Tid, t: TxnId)
    requires GraphOk(s.graph) && CallsOk(s.txns, s.graph) && t in s.txns
    requires x in s.graph.seat ==> s.graph.seat[x] in s.graph.chains
    ensures var w := Die(s, x).txns[t];
            && w.kind == s.txns[t].kind && w.fromParent == s.txns[t].fromParent
            && (w.from == s.txns[t].from || (w.from.None? && s.txns[t].from == Some(x)))
  {
    BuriedFields(s.txns, s.graph, x, 0, 0, t);
    if Beside(s.graph, x, t) {
      CallHere(s, t);
      hide GraphOk, CallsOk, ChainOk, HomeOk;
    }
  }

  lemma FinishLeads(s: World, n: TxnId, t: TxnId)
    requires Numbered(Snap(s, n)) && t in s.txns && !s.txns[t].kind.Call?
    ensures Leads(Snap(s, n), Snap(Finish(s, t), n))
  {
  }

  /** A change of lists or slots alone does not show in what a step leads to. */
  lemma StillLeads(a: Snapshot, s: World, s': World, n: TxnId)
    requires Leads(a, Snap(s, n)) && s'.txns == s.txns && s'.threads.Keys == s.threads.Keys
    requires forall x :: x in s.threads ==> s'.threads[x].stack == s.threads[x].stack
    ensures Leads(a, Snap(s', n))
  {
    NextStays(a, Snap(s, n), Snap(s', n));
  }
}
