/** What every step does to the calls under way, and what follows for whole runs. */
module Runs {
  import opened Wrappers
  import opened Chains
  import opened Stacks
  import opened States

  /** The part of the state that runs talk about. Call numbers are given out in order. */
  datatype Snapshot = Snapshot(threads: map<Tid, Thread>, txns: map<TxnId, Txn>, nextTxn: TxnId)

  ghost predicate Numbered(a: Snapshot) {
    forall t :: t in a.txns ==> t < a.nextTxn
  }

  /** A new call is on top of what its caller had on its stack. */
  ghost predicate Born(a: Snapshot, b: Snapshot, t: TxnId)
    requires t in b.txns
  {
    && a.nextTxn <= t < b.nextTxn
    && (b.txns[t].kind.Call? ==>
          b.txns[t].from.Some? && b.txns[t].from.value in a.threads
          && b.txns[t].fromParent == a.threads[b.txns[t].from.value].stack)
  }

  /** A call under way keeps its caller, unless the caller died, and what was below it on the stack. */
  ghost predicate Carried(a: Snapshot, b: Snapshot, t: TxnId)
    requires t in a.txns && t in b.txns
  {
    && b.txns[t].kind == a.txns[t].kind && b.txns[t].fromParent == a.txns[t].fromParent
    && (b.txns[t].from == a.txns[t].from
        || (b.txns[t].from.None? && a.txns[t].from.Some? && a.txns[t].from.value !in b.threads))
  }

  /** The caller of a call that is over has on its stack what was below the call, and no longer waits. */
  ghost predicate Settled(a: Snapshot, b: Snapshot, t: TxnId)
    requires t in a.txns
  {
    a.txns[t].kind.Call? && a.txns[t].from.Some? && a.txns[t].from.value in b.threads ==>
      && b.threads[a.txns[t].from.value].stack == a.txns[t].fromParent
      && !Waits(b.threads, b.txns, a.txns[t].from.value)
  }

  ghost predicate Leads(a: Snapshot, b: Snapshot) {
    && Numbered(a) && Numbered(b) && a.nextTxn <= b.nextTxn
    && (forall t :: t in b.txns && t !in a.txns ==> Born(a, b, t))
    && (forall t :: t in b.txns && t in a.txns ==> Carried(a, b, t))
    && (forall t :: t in a.txns && t !in b.txns ==> Settled(a, b, t))
  }

  ghost predicate Run(r: seq<Snapshot>) {
    forall i, j :: 0 <= i < |r| && j == i + 1 < |r| ==> Leads(r[i], r[j])
  }

  /** A call is completed at most once: when it is over it never comes back. */
  lemma {:induction false} OverForGood(r: seq<Snapshot>, i: nat, j: nat, t: TxnId)
    requires Run(r) && i < j < |r| && t < r[i].nextTxn && t !in r[i].txns
    ensures t !in r[j].txns && t < r[j].nextTxn
  {
    if i + 1 < j {
      OverForGood(r, i, j - 1, t);
    }
    assert Leads(r[j - 1], r[j]);
  }

  lemma {:induction false} CarriedAlong(r: seq<Snapshot>, i: nat, j: nat, t: TxnId, x: Tid)
    requires Run(r) && i <= j < |r|
    requires forall k: nat :: i <= k <= j ==> t in r[k].txns && x in r[k].threads
    requires r[i].txns[t].kind.Call? && r[i].txns[t].from == Some(x)
    ensures r[j].txns[t].kind.Call? && r[j].txns[t].from == Some(x) && r[j].txns[t].fromParent == r[i].txns[t].fromParent
  {
    if i < j {
      CarriedAlong(r, i, j - 1, t, x);
      assert Leads(r[j - 1], r[j]);
      assert Carried(r[j - 1], r[j], t);
    }
  }

  /** Whatever ends the call that thread `x` makes in the step after `i`, be it a reply or a failure,
      leaves `x` with the stack it had before the call. */
  lemma RestoresStack(r: seq<Snapshot>, i: nat, j: nat, t: TxnId, x: Tid)
    requires Run(r) && i + 1 < j < |r|
    requires t !in r[i].txns && t in r[i + 1].txns && r[i + 1].txns[t].kind.Call? && r[i + 1].txns[t].from == Some(x)
    requires forall k: nat :: i < k < j ==> t in r[k].txns
    requires forall k: nat :: i <= k <= j ==> x in r[k].threads
    requires t !in r[j].txns
    ensures r[j].threads[x].stack == r[i].threads[x].stack
    ensures !Waits(r[j].threads, r[j].txns, x)
    ensures forall k: nat :: j <= k < |r| ==> t !in r[k].txns
  {
    assert Leads(r[i], r[i + 1]);
    assert Born(r[i], r[i + 1], t);
    CarriedAlong(r, i + 1, j - 1, t, x);
    assert Leads(r[j - 1], r[j]);
    assert Settled(r[j - 1], r[j], t);
    forall k: nat | j < k < |r| ensures t !in r[k].txns {
      OverForGood(r, j, k, t);
    }
  }

  // ---- steps in parts ----

  /** Nothing but slots, lists and stacks of threads that end no call changes. */
  lemma NextStays(a: Snapshot, b: Snapshot, c: Snapshot)
    requires Leads(a, b) && c.txns == b.txns && c.nextTxn == b.nextTxn && c.threads.Keys == b.threads.Keys
    requires forall x :: x in b.threads ==> c.threads[x].stack == b.threads[x].stack
    ensures Leads(a, c)
  {
    forall t | t in c.txns && t !in a.txns ensures Born(a, c, t) {
      assert Born(a, b, t);
    }
    forall t | t in c.txns && t in a.txns ensures Carried(a, c, t) {
      assert Carried(a, b, t);
    }
    forall t | t in a.txns && t !in c.txns ensures Settled(a, c, t) {
      assert Settled(a, b, t);
    }
  }

  lemma NextSame(a: Snapshot)
    requires Numbered(a)
    ensures Leads(a, a)
  {
  }
}
