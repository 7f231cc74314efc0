/** The thread pool of one process: how many threads are asked for, started and waiting. */
module Pool {
  import opened Wrappers

  type Tid = nat

  /** Where a thread is in `binder_thread_read`: outside it, waiting without the lock, or picking work. */
  datatype Where = Outside | Waiting(forProc: bool) | Picking(forProc: bool)

  datatype Thread = Thread(registered: bool, entered: bool, invalid: bool, place: Where)

  /** `highest` is the largest limit ever set. */
  datatype State = State(threads: map<Tid, Thread>, maxThreads: nat, requested: int, started: int, ready: int, highest: nat)

  function Waiters(threads: map<Tid, Thread>): set<Tid> {
    set t | t in threads && threads[t].place == Waiting(true)
  }

  ghost predicate Inv(s: State) {
    && s.ready == |Waiters(s.threads)|
    && 0 <= s.requested <= 1 && 0 <= s.started
    && s.requested + s.started <= s.highest
    && s.maxThreads <= s.highest
  }

  function Place(s: State, t: Tid, place: Where): State
    requires t in s.threads
  {
    s.(threads := s.threads[t := s.threads[t].(place := place)])
  }

  /** The waiters are counted exactly, whatever the other threads do in the meantime. */
  lemma PlaceCounts(s: State, t: Tid, place: Where)
    requires t in s.threads
    ensures |Waiters(Place(s, t, place).threads)| ==
              |Waiters(s.threads)| + (if place == Waiting(true) then 1 else 0) - (if s.threads[t].place == Waiting(true) then 1 else 0)
  {
    var a, b := Waiters(s.threads), Waiters(Place(s, t, place).threads);
    forall u | u != t ensures u in a <==> u in b {
    }
    assert t in a <==> s.threads[t].place == Waiting(true);
    assert t in b <==> place == Waiting(true);
    hide Waiters, Place;
    OneApart(a, b, t);
  }

  /** Two sets that differ in `t` at most. */
  lemma OneApart(a: set<Tid>, b: set<Tid>, t: Tid)
    requires forall u :: u != t ==> (u in a <==> u in b)
    ensures |b| == |a| + (if t in b then 1 else 0) - (if t in a then 1 else 0)
  {
    assert a - {t} == b - {t};
    assert |a - {t}| == |a| - if t in a then 1 else 0;
    assert |b - {t}| == |b| - if t in b then 1 else 0;
  }

  /** A thread that waits for nothing can leave: no count depends on it. */
  lemma LeavingKeeps(s: State, t: Tid)
    requires Inv(s) && t in s.threads && s.threads[t].place == Outside
    ensures Inv(s.(threads := s.threads - {t}))
  {
    assert Waiters(s.threads - {t}) == Waiters(s.threads);
  }

  /** `BC_REGISTER_LOOPER`: a thread that was asked for has come. */
  function Registered(s: State, t: Tid): State
    requires t in s.threads
  {
    var th := s.threads[t].(registered := true);
    if th.entered || s.requested == 0 then s.(threads := s.threads[t := th.(invalid := true)])
    else s.(threads := s.threads[t := th], requested := s.requested - 1, started := s.started + 1)
  }

  lemma RegisteredKeeps(s: State, t: Tid)
    requires Inv(s) && t in s.threads
    ensures Inv(Registered(s, t))
  {
    assert Waiters(Registered(s, t).threads) == Waiters(s.threads);
  }

  /** The check at the end of a read: no thread waits and none was asked for. */
  predicate Spawns(s: State, t: Tid)
    requires t in s.threads
  {
    s.requested + s.ready == 0 && s.started < s.maxThreads && (s.threads[t].registered || s.threads[t].entered)
  }

  function Finished(s: State, t: Tid): State
    requires t in s.threads
  {
    var s' := Place(s, t, Outside);
    if Spawns(s, t) then s'.(requested := s.requested + 1) else s'
  }

  lemma FinishedKeeps(s: State, t: Tid)
    requires Inv(s) && t in s.threads && s.threads[t].place != Waiting(true)
    ensures Inv(Finished(s, t))
    ensures s.requested + s.started <= s.maxThreads ==> Finished(s, t).requested + Finished(s, t).started <= s.maxThreads
  {
    PlaceCounts(s, t, Outside);
  }

  /** A limit that is never lowered is kept. */
  lemma LimitKept(s: State)
    requires Inv(s) && s.maxThreads == s.highest
    ensures s.requested + s.started <= s.maxThreads
  {
  }

  class Process {
    var threads: map<Tid, Thread>
    var maxThreads: nat
    var requested: int
    var started: int
    var ready: int
    ghost var highest: nat

    ghost function Now(): State
      reads this
    {
      State(threads, maxThreads, requested, started, ready, highest)
    }

    ghost predicate Valid()
      reads this
    {
      Inv(Now())
    }

    constructor ()
      ensures Valid() && threads == map[] && maxThreads == 0 && requested == 0 && started == 0 && ready == 0
    {
      threads, maxThreads, requested, started, ready, highest := map[], 0, 0, 0, 0, 0;
    }

    method NewThread(t: Tid)
      requires Valid() && t !in threads
      modifies `threads
      ensures Valid() && threads == old(threads)[t := Thread(false, false, false, Outside)]
    {
      threads := threads[t := Thread(false, false, false, Outside)];
      assert Waiters(threads) == Waiters(old(threads));
    }

    /** `binder_free_thread`: a thread that leaves stays counted as started. */
    method FreeThread(t: Tid)
      requires Valid() && t in threads && threads[t].place == Outside
      modifies `threads
      ensures Valid() && threads == old(threads) - {t}
    {
      LeavingKeeps(Now(), t);
      threads := threads - {t};
    }

    /** `BINDER_SET_MAX_THREADS`. The threads that were started stay: a limit below their number is not kept. */
    method SetMaxThreads(limit: nat)
      requires Valid()
      modifies `maxThreads, `highest
      ensures Valid() && maxThreads == limit && requested == old(requested) && started == old(started)
      ensures LimitHolds() <==> limit >= old(requested) + old(started)
      ensures limit >= old(highest) ==> LimitHolds()
    {
      maxThreads := limit;
      if limit > highest {
        highest := limit;
      }
    }

    ghost predicate LimitHolds()
      reads this
    {
      requested + started <= maxThreads
    }

    method RegisterLooper(t: Tid)
      requires Valid() && t in threads
      modifies `threads, `requested, `started
      ensures Valid() && Now() == Registered(old(Now()), t)
    {
      RegisteredKeeps(Now(), t);
      var th := threads[t];
      if th.entered {
        th := th.(invalid := true);
      } else if requested == 0 {
        th := th.(invalid := true);
      } else {
        requested := requested - 1;
        started := started + 1;
      }
      threads := threads[t := th.(registered := true)];
    }

    method EnterLooper(t: Tid)
      requires Valid() && t in threads
      modifies `threads
      ensures Valid()
      ensures threads == old(threads)[t := old(threads)[t].(entered := true, invalid := old(threads)[t].invalid || old(threads)[t].registered)]
    {
      var th := threads[t];
      if th.registered {
        th := th.(invalid := true);
      }
      threads := threads[t := th.(entered := true)];
      assert Waiters(threads) == Waiters(old(threads));
    }

    /** `binder_thread_read` up to the point where it drops the lock; also its `retry`. */
    method BeginWait(t: Tid, forProc: bool)
      requires Valid() && t in threads && !threads[t].place.Waiting?
      modifies `threads, `ready
      ensures Valid() && Now() == Place(old(Now()), t, Waiting(forProc)).(ready := old(ready) + if forProc then 1 else 0)
    {
      PlaceCounts(Now(), t, Waiting(forProc));
      if forProc {
        ready := ready + 1;
      }
      threads := threads[t := threads[t].(place := Waiting(forProc))];
    }

    /** The lock is taken again; `failed` if the wait was interrupted or would have blocked. The count was
        never below zero. */
    method EndWait(t: Tid, failed: bool)
      requires Valid() && t in threads && threads[t].place.Waiting?
      modifies `threads, `ready
      ensures Valid() && ready >= 0
      ensures var w := old(threads)[t].place.forProc;
              Now() == Place(old(Now()), t, if failed then Outside else Picking(w)).(ready := old(ready) - if w then 1 else 0)
    {
      var forProc := threads[t].place.forProc;
      PlaceCounts(Now(), t, if failed then Outside else Picking(forProc));
      if forProc {
        ready := ready - 1;
      }
      threads := threads[t := threads[t].(place := if failed then Outside else Picking(forProc))];
    }

    /** The end of `binder_thread_read`: perhaps one more thread is asked for. */
    method Finish(t: Tid) returns (spawn: bool)
      requires Valid() && t in threads && !threads[t].place.Waiting?
      modifies `threads, `requested
      ensures Valid() && Now() == Finished(old(Now()), t) && spawn == Spawns(old(Now()), t)
      ensures spawn ==> old(requested) == 0 && old(ready) == 0 && LimitHolds()
      ensures !spawn ==> old(requested) + old(ready) != 0 || started >= maxThreads || !(threads[t].registered || threads[t].entered)
      ensures requested == old(requested) + (if spawn then 1 else 0) && started == old(started)
    {
      FinishedKeeps(Now(), t);
      if requested + ready == 0 && started < maxThreads && (threads[t].registered || threads[t].entered) {
        requested := requested + 1;
        spawn := true;
      } else {
        spawn := false;
      }
      threads := threads[t := threads[t].(place := Outside)];
    }
  }

  /** A limit of one, a thread asked for and come, and then a limit of none. */
  method Lowered() returns (m: Process)
    ensures fresh(m) && m.Valid() && m.maxThreads == 0 && m.started == 1 && !m.LimitHolds()
  {
    m := new Process();
    m.SetMaxThreads(1);
    m.NewThread(0);
    m.EnterLooper(0);
    var spawn := m.Finish(0);
    assert spawn;
    m.NewThread(1);
    m.RegisterLooper(1);
    m.SetMaxThreads(0);
  }
}
