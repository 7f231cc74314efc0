/** A transaction under construction: which references its objects have put counts on so far. */
module Tallies {
  import opened Wrappers
  import opened Store
  import opened Counts
  import opened Owners
  import opened Rollback
  import opened Transfers
  import opened Undo

  /** One of the objects received is a handle for descriptor `d`. */
  ghost predicate Asked(out: seq<Obj>, d: nat) {
    exists j :: 0 <= j < |out| && out[j].Handle? && out[j].desc == d
  }

  /** One of the objects received is a handle for descriptor `d`, and its count could not be refused. */
  ghost predicate HitBy(s0: State, p: Pid, objs: seq<Option<Obj>>, out: seq<Obj>, d: nat) {
    exists j :: 0 <= j < |out| && j < |objs| && objs[j].Some? && out[j].Handle? && out[j].desc == d && Countable(s0, p, objs[j].value)
  }

  /** A reference of process `q` that counted nothing before is counted now just if one of the objects could
      not be refused. */
  ghost predicate TallyAt(s0: State, s: State, p: Pid, q: Pid, objs: seq<Option<Obj>>, out: seq<Obj>, more: multiset<Pin>, r: RefId)
    requires r in s.refs
  {
    && (r !in s0.refs ==> Asked(out, s.refs[r].desc))
    && (s.refs[r].proc == q && Base(s0, r, true) == 0 && Base(s0, r, false) == 0 ==>
          (PinsOn(more, s.refs[r]) > 0 <==> HitBy(s0, p, objs, out, s.refs[r].desc)))
  }

  /** A node's work item was put on a list only along with a count on the receiver's reference to the node. */
  ghost predicate QueuedFor(s0: State, s: State, q: Pid, more: multiset<Pin>) {
    forall m :: m in s0.nodes && m in s.nodes && s.nodes[m].queued && !s0.nodes[m].queued ==>
      ForKey(q, m) in s.refFor && s.refFor[ForKey(q, m)] in s.refs && PinsOn(more, s.refs[s.refFor[ForKey(q, m)]]) > 0
  }

  ghost predicate PinsAsked(q: Pid, out: seq<Obj>, more: multiset<Pin>) {
    forall k: Pin :: k in more && k.RefPin? ==> k.proc == q && Asked(out, k.desc)
  }

  /** What is received is a handle just for what is passed on. */
  ghost predicate KindsOk(s0: State, p: Pid, q: Pid, objs: seq<Option<Obj>>, out: seq<Obj>) {
    |out| <= |objs| && forall i :: 0 <= i < |out| ==>
      objs[i].Some? && (out[i].Handle? <==> PassedOn(s0, p, q, objs[i].value))
  }

  ghost predicate NoneLost(s0: State, s: State) {
    && s0.nodes.Keys <= s.nodes.Keys && s0.refs.Keys <= s.refs.Keys
    && forall n :: n in s.nodes && n !in s0.nodes ==> !s.nodes[n].stray
  }

  ghost predicate Tally(s0: State, s: State, p: Pid, q: Pid, objs: seq<Option<Obj>>, out: seq<Obj>, more: multiset<Pin>) {
    && NoneLost(s0, s) && NamesKept(s0, s) && BornOwn(s0, s, p, q)
    && KindsOk(s0, p, q, objs, out) && PinsAsked(q, out, more) && QueuedFor(s0, s, q, more)
    && forall r :: r in s.refs ==> TallyAt(s0, s, p, q, objs, out, more, r)
  }

  /** The reference `r` of process `q` to node `m` is found or made, and may have got a count. */
  ghost predicate Passing(s: State, s': State, q: Pid, m: NodeId, r: RefId, list: bool) {
    && r in s'.refs && s'.refs[r].proc == q && s'.refs[r].node == m
    && (r in s.refs ==> s.refs[r].proc == q && s.refs[r].desc == s'.refs[r].desc && s.refs[r].node == m)
    && (forall b :: b != r ==> (b in s'.refs <==> b in s.refs) && (b in s.refs ==> s'.refs[b] == s.refs[b]))
    && ForKey(q, m) in s'.refFor && s'.refFor[ForKey(q, m)] == r
    && (forall k :: k in s.refFor ==> k in s'.refFor && s'.refFor[k] == s.refFor[k])
    && s'.nodes.Keys == s.nodes.Keys
    && (forall x :: x in s.nodes ==> s'.nodes[x].stray == s.nodes[x].stray)
    && (forall x :: x in s.nodes && !(list && x == m) ==> s'.nodes[x].queued == s.nodes[x].queued)
  }

  lemma PassingIs(s: State, q: Pid, m: NodeId, r: RefId, strong: bool, list: bool, pins: multiset<Pin>)
    requires Sound(s, pins) && m in s.nodes && q in s.descs && r !in s.refs
    ensures Passing(s, WithPin(s, q, m, r, strong, list), q, m, RefTo(s, q, m, r), list)
    ensures var s1, r1 := Linked(s, q, m, r), RefTo(s, q, m, r);
            r1 in s1.refs && WithPin(s, q, m, r, strong, list).refs[r1].desc == s1.refs[r1].desc
  {
    hide Sound, Linked, RefTo, IncRef, RefRefused, SameStanding;
    var s1, r1 := Linked(s, q, m, r), RefTo(s, q, m, r);
    LinkedIs(s, q, m, r, pins);
    LinkedStray(s, q, m, r);
    LinkedNodes(s, q, m, r, pins);
    LinkedQueued(s, q, m, r);
    LinkedFor(s, q, m, r);
    IncRefNodes(s1, r1, strong, list);
    IncRefShape(s1, r1, strong, list);
    IncRefQueued(s1, r1, strong, list);
  }

  lemma LinkedStray(s: State, q: Pid, m: NodeId, r: RefId)
    requires m in s.nodes && q in s.descs
    ensures m in Linked(s, q, m, r).nodes && Linked(s, q, m, r).nodes[m].stray == s.nodes[m].stray
  {
    hide FirstFree, Inserted;
  }

  lemma LinkedFor(s: State, q: Pid, m: NodeId, r: RefId)
    requires m in s.nodes && q in s.descs
    ensures var s1 := Linked(s, q, m, r);
            ForKey(q, m) in s1.refFor && s1.refFor[ForKey(q, m)] == RefTo(s, q, m, r)
            && forall k :: k in s.refFor ==> k in s1.refFor && s1.refFor[k] == s.refFor[k]
  {
    hide FirstFree, Inserted;
  }

  /** A new reference changes nothing its node is judged by. */
  lemma LinkedQueued(s: State, q: Pid, m: NodeId, r: RefId)
    requires m in s.nodes && q in s.descs
    ensures var s1 := Linked(s, q, m, r);
            s1.manager == s.manager && m in s1.nodes
            && s1.nodes[m].internalStrong == s.nodes[m].internalStrong && s1.nodes[m].queued == s.nodes[m].queued
            && s1.nodes[m].hasStrong == s.nodes[m].hasStrong && s1.nodes[m].hasWeak == s.nodes[m].hasWeak
  {
    hide FirstFree, Inserted;
  }

  lemma IncRefQueued(s: State, r: RefId, strong: bool, list: bool)
    requires r in s.refs && s.refs[r].node in s.nodes
    ensures var s' := IncRef(s, r, strong, list);
            && s'.refFor == s.refFor
            && forall b :: b != r && b in s.refs ==> s'.refs[b] == s.refs[b]
    ensures var m := s.refs[r].node;
            IncRef(s, r, strong, list).nodes[m].stray == s.nodes[m].stray
            && (!list ==> IncRef(s, r, strong, list).nodes[m].queued == s.nodes[m].queued)
  {
  }

  // ---- whether a count is refused ----

  /** The receiver's reference to node `m`, if it has one, counts nothing yet. */
  ghost predicate Uncounted(s0: State, s: State, q: Pid, more: multiset<Pin>, m: NodeId) {
    ForKey(q, m) in s.refFor ==>
      var r := s.refFor[ForKey(q, m)];
      r in s.refs && Base(s0, r, true) == 0 && Base(s0, r, false) == 0 && PinsOn(more, s.refs[r]) == 0
  }

  /** The reference of another process counts what it counted before. */
  lemma OtherCount(s0: State, s: State, q: Pid, out: seq<Obj>, more: multiset<Pin>, r: RefId)
    requires RefsGrown(s0, s, more) && PinsAsked(q, out, more) && r in s0.refs && r in s.refs && s.refs[r].proc != q
    ensures s.refs[r] == s0.refs[r]
  {
    assert RefPin(s.refs[r].proc, s.refs[r].desc, true) !in more && RefPin(s.refs[r].proc, s.refs[r].desc, false) !in more;
  }

  lemma OneFor(s: State, r: RefId, pins: multiset<Pin>)
    requires Sound(s, pins) && r in s.refs
    ensures ForKey(s.refs[r].proc, s.refs[r].node) in s.refFor && s.refFor[ForKey(s.refs[r].proc, s.refs[r].node)] == r
  {
    assert RefOk(s, r);
  }

  /** Until the receiver's reference to it is counted, a node has the strong references it had. */
  lemma StrongThen(s0: State, s: State, p: Pid, q: Pid, out: seq<Obj>, more: multiset<Pin>, m: NodeId, pins0: multiset<Pin>, pins: multiset<Pin>)
    requires Sound(s0, pins0) && Sound(s, pins) && RefsGrown(s0, s, more) && PinsAsked(q, out, more) && BornOwn(s0, s, p, q)
    requires s0.refs.Keys <= s.refs.Keys && m in s0.nodes && m in s.nodes && Uncounted(s0, s, q, more, m)
    ensures s.nodes[m].internalStrong == s0.nodes[m].internalStrong
  {
    hide Sound, RefsGrown, StrongRefs, PinsAsked, BornOwn, Uncounted;
    var a, b := StrongRefs(s0.refs, s0.nodes[m].refs), StrongRefs(s.refs, s.nodes[m].refs);
    forall r | r in a ensures r in b {
      StrongStill(s0, s, more, m, pins0, pins, r);
    }
    forall r | r in b ensures r in a {
      StrongBefore(s0, s, p, q, out, more, m, pins0, pins, r);
    }
    assert a == b;
    StrongIs(s0, m, pins0);
    StrongIs(s, m, pins);
  }

  lemma StrongIs(s: State, m: NodeId, pins: multiset<Pin>)
    requires Sound(s, pins) && m in s.nodes
    ensures s.nodes[m].internalStrong == |StrongRefs(s.refs, s.nodes[m].refs)|
  {
    hide Sound, StrongRefs;
    Here(s, m, pins);
  }

  lemma StrongStill(s0: State, s: State, more: multiset<Pin>, m: NodeId, pins0: multiset<Pin>, pins: multiset<Pin>, r: RefId)
    requires Sound(s0, pins0) && Sound(s, pins) && RefsGrown(s0, s, more)
    requires s0.refs.Keys <= s.refs.Keys && m in s0.nodes && m in s.nodes && r in StrongRefs(s0.refs, s0.nodes[m].refs)
    ensures r in StrongRefs(s.refs, s.nodes[m].refs)
  {
    assert RefGrown(s0.refs[r], s.refs[r], more);
    hide Sound, RefsGrown;
    Here(s0, m, pins0);
    RefHere(s, r, pins);
  }

  lemma StrongBefore(s0: State, s: State, p: Pid, q: Pid, out: seq<Obj>, more: multiset<Pin>, m: NodeId, pins0: multiset<Pin>,
                     pins: multiset<Pin>, r: RefId)
    requires Sound(s0, pins0) && Sound(s, pins) && RefsGrown(s0, s, more) && PinsAsked(q, out, more) && BornOwn(s0, s, p, q)
    requires m in s0.nodes && m in s.nodes && Uncounted(s0, s, q, more, m) && r in StrongRefs(s.refs, s.nodes[m].refs)
    ensures r in StrongRefs(s0.refs, s0.nodes[m].refs)
  {
    hide Sound, RefsGrown, PinsAsked;
    Here(s, m, pins);
    OneFor(s, r, pins);
    if s.refs[r].proc == q {
      CountIs(s0, s, more, r, true);
      assert false;
    } else {
      OtherCount(s0, s, q, out, more, r);
      hide PinsOn, Base;
      RefHere(s0, r, pins0);
    }
  }

  /** A count on a reference that counts nothing yet is refused just when the object could tell beforehand. */
  lemma RefusedIs(s0: State, s: State, p: Pid, q: Pid, out: seq<Obj>, more: multiset<Pin>, o: Obj, m: NodeId, r: RefId,
                  pins0: multiset<Pin>, pins: multiset<Pin>)
    requires Sound(s0, pins0) && Sound(s, pins) && Grown(s0, s, more, None) && PinsAsked(q, out, more) && BornOwn(s0, s, p, q)
    requires s0.refs.Keys <= s.refs.Keys && QueuedFor(s0, s, q, more) && m in s0.nodes && m in s.nodes && q in s.descs && r !in s.refs
    requires Uncounted(s0, s, q, more, m) && o.Handle? && Named(s0, p, o) == Some(m) && Named(s, p, o) == Some(m) && s.nodes[m].proc != Some(q)
    ensures Refusing(s, p, q, o, r) <==> !Countable(s0, p, o)
  {
    var s1, r1 := Linked(s, q, m, r), RefTo(s, q, m, r);
    GrownRefs(s0, s, more);
    StrongThen(s0, s, p, q, out, more, m, pins0, pins);
    LinkedIs(s, q, m, r, pins);
    LinkedQueued(s, q, m, r);
    StandsAs(s0, s, more, m);
    ZeroThere(s0, s, q, more, m, r, pins);
    hide Sound, Grown, RefsGrown, PinsAsked, BornOwn, Linked, RefTo, Named;
    assert RefRefused(s1, r1, o.strong, false) <==> Refused(s1, m, o.strong, true, false);
  }

  lemma StandsAs(s0: State, s: State, more: multiset<Pin>, m: NodeId)
    requires Grown(s0, s, more, None) && m in s0.nodes && m in s.nodes
    ensures s.nodes[m].hasStrong == s0.nodes[m].hasStrong && s.nodes[m].hasWeak == s0.nodes[m].hasWeak && s.nodes[m].proc == s0.nodes[m].proc
    ensures s.manager == s0.manager && (s0.nodes[m].queued ==> s.nodes[m].queued)
  {
    assert NodeGrown(s0.nodes[m], s.nodes[m], more);
  }

  lemma ZeroThere(s0: State, s: State, q: Pid, more: multiset<Pin>, m: NodeId, r: RefId, pins: multiset<Pin>)
    requires Sound(s, pins) && RefsGrown(s0, s, more) && m in s.nodes && q in s.descs && r !in s.refs && Uncounted(s0, s, q, more, m)
    ensures var s1, r1 := Linked(s, q, m, r), RefTo(s, q, m, r);
            r1 in s1.refs && s1.refs[r1].strong == 0 && s1.refs[r1].weak == 0
  {
    hide Sound;
    LinkedIs(s, q, m, r, pins);
    if ForKey(q, m) in s.refFor {
      var a := s.refFor[ForKey(q, m)];
      CountIs(s0, s, more, a, true);
      CountIs(s0, s, more, a, false);
    }
    hide RefsGrown;
  }

  // ---- one more object ----

  lemma AskedMore(out: seq<Obj>, ou: Obj, d: nat)
    ensures Asked(out + [ou], d) <==> Asked(out, d) || (ou.Handle? && ou.desc == d)
  {
    if Asked(out, d) {
      var j :| 0 <= j < |out| && out[j].Handle? && out[j].desc == d;
      assert (out + [ou])[j] == out[j];
    }
    assert (out + [ou])[|out|] == ou;
  }

  lemma HitMore(s0: State, p: Pid, objs: seq<Option<Obj>>, out: seq<Obj>, ou: Obj, d: nat)
    requires |out| < |objs| && objs[|out|].Some?
    ensures HitBy(s0, p, objs, out + [ou], d) <==>
              HitBy(s0, p, objs, out, d) || (ou.Handle? && ou.desc == d && Countable(s0, p, objs[|out|].value))
  {
    hide Countable;
    if HitBy(s0, p, objs, out, d) {
      var j :| 0 <= j < |out| && j < |objs| && objs[j].Some? && out[j].Handle? && out[j].desc == d && Countable(s0, p, objs[j].value);
      assert (out + [ou])[j] == out[j];
    }
    assert (out + [ou])[|out|] == ou;
  }

  lemma KindsMore(s0: State, p: Pid, q: Pid, objs: seq<Option<Obj>>, out: seq<Obj>, ou: Obj)
    requires KindsOk(s0, p, q, objs, out) && |out| < |objs| && objs[|out|].Some?
    requires ou.Handle? <==> PassedOn(s0, p, q, objs[|out|].value)
    ensures KindsOk(s0, p, q, objs, out + [ou])
  {
    hide PassedOn;
  }

  lemma PinsAskedMore(q: Pid, out: seq<Obj>, more: multiset<Pin>, ou: Obj, pin: multiset<Pin>)
    requires PinsAsked(q, out, more) && (pin == multiset{} || pin == multiset{PinFor(q, ou)})
    ensures PinsAsked(q, out + [ou], more + pin)
  {
    forall k: Pin | k in more + pin && k.RefPin? ensures k.proc == q && Asked(out + [ou], k.desc) {
      AskedMore(out, ou, k.desc);
      assert k in more || k in pin;
    }
  }

  /** A handle for a descriptor was asked for only if it is in use. */
  lemma AskedHere(s: State, p: Pid, q: Pid, objs: seq<Option<Obj>>, out: seq<Obj>, d: nat)
    requires SameNames(s, p, q, objs, out) && Asked(out, d)
    ensures DescKey(q, d) in s.refAt
  {
    var j :| 0 <= j < |out| && out[j].Handle? && out[j].desc == d;
    assert Named(s, q, out[j]).Some?;
  }

  /** One object passed on: `r` is the reference the receiver got for it, `counted` whether it got a count. */
  ghost predicate PassStep(s0: State, s: State, s': State, p: Pid, q: Pid, objs: seq<Option<Obj>>, out: seq<Obj>, more: multiset<Pin>,
                           m: NodeId, r: RefId, ou: Obj, list: bool, counted: bool)
    requires |out| < |objs| && objs[|out|].Some?
  {
    && Passing(s, s', q, m, r, list) && ou == Handle(s'.refs[r].desc, objs[|out|].value.strong)
    && SameNames(s, p, q, objs, out) && (list ==> counted)
    && (r !in s.refs ==> DescKey(q, ou.desc) !in s.refAt)
    && (Uncounted(s0, s, q, more, m) ==> (counted <==> Countable(s0, p, objs[|out|].value)))
  }

  function CountedPin(q: Pid, ou: Obj, counted: bool): multiset<Pin> {
    if counted then multiset{PinFor(q, ou)} else multiset{}
  }

  /** The receiver's reference itself. */
  lemma PassSelf(s0: State, s: State, s': State, p: Pid, q: Pid, objs: seq<Option<Obj>>, out: seq<Obj>, more: multiset<Pin>,
                 m: NodeId, r: RefId, ou: Obj, list: bool, counted: bool, pins: multiset<Pin>)
    requires Sound(s, pins) && RefsGrown(s0, s, more) && m in s.nodes && s0.refs.Keys <= s.refs.Keys
    requires |out| < |objs| && objs[|out|].Some? && PassStep(s0, s, s', p, q, objs, out, more, m, r, ou, list, counted)
    requires r in s.refs ==> TallyAt(s0, s, p, q, objs, out, more, r) && s.refs[r].node == m
    ensures TallyAt(s0, s', p, q, objs, out + [ou], more + CountedPin(q, ou, counted), r)
  {
    hide Sound;
    AskedMore(out, ou, ou.desc);
    HitMore(s0, p, objs, out, ou, ou.desc);
    hide SameNames;
    if r in s.refs {
      OneFor(s, r, pins);
      hide RefsGrown, Countable, HitBy, Asked;
    } else {
      assert ForKey(q, m) !in s.refFor by {
        if ForKey(q, m) in s.refFor {
          ForHere(s, q, m, pins);
        }
      }
      FreshHere(s0, s, p, q, objs, out, more, ou.desc);
      hide RefsGrown, Countable, HitBy, Asked;
    }
  }

  /** A descriptor not in use has neither been counted nor asked for. */
  lemma FreshHere(s0: State, s: State, p: Pid, q: Pid, objs: seq<Option<Obj>>, out: seq<Obj>, more: multiset<Pin>, d: nat)
    requires RefsGrown(s0, s, more) && SameNames(s, p, q, objs, out) && DescKey(q, d) !in s.refAt
    ensures !HitBy(s0, p, objs, out, d) && more[RefPin(q, d, true)] == 0 && more[RefPin(q, d, false)] == 0
  {
    assert RefPin(q, d, true) !in more && RefPin(q, d, false) !in more;
    hide RefsGrown;
    if HitBy(s0, p, objs, out, d) {
      assert Asked(out, d);
      AskedHere(s, p, q, objs, out, d);
    }
  }

  /** Any other reference. */
  lemma PassOther(s0: State, s: State, s': State, p: Pid, q: Pid, objs: seq<Option<Obj>>, out: seq<Obj>, more: multiset<Pin>,
                  r: RefId, ou: Obj, counted: bool, b: RefId, pins': multiset<Pin>)
    requires Sound(s', pins') && r in s'.refs && s'.refs[r].proc == q && ou.Handle? && ou.desc == s'.refs[r].desc
    requires |out| < |objs| && objs[|out|].Some? && b != r && b in s.refs && b in s'.refs && s'.refs[b] == s.refs[b]
    requires TallyAt(s0, s, p, q, objs, out, more, b)
    ensures TallyAt(s0, s', p, q, objs, out + [ou], more + CountedPin(q, ou, counted), b)
  {
    hide Sound, HitBy, Asked, PinsOn, Base, Countable;
    DescApart(s', b, r, pins');
    AskedMore(out, ou, s.refs[b].desc);
    HitMore(s0, p, objs, out, ou, s.refs[b].desc);
    PinsApart(more, s.refs[b], q, ou.desc, ou.strong);
    assert more + multiset{} == more;
  }

  lemma QueuedPass(s0: State, s: State, s': State, p: Pid, q: Pid, objs: seq<Option<Obj>>, out: seq<Obj>, more: multiset<Pin>,
                   m: NodeId, r: RefId, ou: Obj, list: bool, counted: bool, pins: multiset<Pin>)
    requires QueuedFor(s0, s, q, more) && |out| < |objs| && objs[|out|].Some? && s0.nodes.Keys <= s.nodes.Keys
    requires PassStep(s0, s, s', p, q, objs, out, more, m, r, ou, list, counted) && Sound(s, pins) && m in s.nodes
    ensures QueuedFor(s0, s', q, more + CountedPin(q, ou, counted))
  {
    hide Sound, SameNames, Countable, Uncounted;
    var more' := more + CountedPin(q, ou, counted);
    forall x | x in s0.nodes && x in s'.nodes && s'.nodes[x].queued && !s0.nodes[x].queued
      ensures ForKey(q, x) in s'.refFor && s'.refFor[ForKey(q, x)] in s'.refs && PinsOn(more', s'.refs[s'.refFor[ForKey(q, x)]]) > 0
    {
      if s.nodes[x].queued {
        var a := s.refFor[ForKey(q, x)];
        assert a in s'.refs && s'.refs[a].desc == s.refs[a].desc && s'.refs[a].proc == s.refs[a].proc by {
          ForHere(s, q, x, pins);
        }
      }
    }
  }

  lemma TallyPass(s0: State, s: State, s': State, p: Pid, q: Pid, objs: seq<Option<Obj>>, out: seq<Obj>, more: multiset<Pin>,
                  m: NodeId, r: RefId, ou: Obj, list: bool, counted: bool, pins: multiset<Pin>, pins': multiset<Pin>)
    requires Tally(s0, s, p, q, objs, out, more) && |out| < |objs| && objs[|out|].Some? && m in s.nodes
    requires PassStep(s0, s, s', p, q, objs, out, more, m, r, ou, list, counted)
    requires Sound(s, pins) && Sound(s', pins') && RefsGrown(s0, s, more)
    requires PassedOn(s0, p, q, objs[|out|].value) && NamesKept(s0, s') && BornOwn(s0, s', p, q)
    ensures Tally(s0, s', p, q, objs, out + [ou], more + CountedPin(q, ou, counted))
  {
    hide Sound, NamesKept, BornOwn, KindsOk, PinsAsked, QueuedFor, TallyAt, RefsGrown, PassedOn;
    PassParts(s0, s, s', p, q, objs, out, more, m, r, ou, list, counted);
    KindsMore(s0, p, q, objs, out, ou);
    PinsAskedMore(q, out, more, ou, CountedPin(q, ou, counted));
    QueuedPass(s0, s, s', p, q, objs, out, more, m, r, ou, list, counted, pins);
    PassSelf(s0, s, s', p, q, objs, out, more, m, r, ou, list, counted, pins);
    hide PassStep, CountedPin;
    forall b | b in s'.refs ensures TallyAt(s0, s', p, q, objs, out + [ou], more + CountedPin(q, ou, counted), b) {
      if b != r {
        PassOther(s0, s, s', p, q, objs, out, more, r, ou, counted, b, pins');
      }
    }
  }

  lemma PassParts(s0: State, s: State, s': State, p: Pid, q: Pid, objs: seq<Option<Obj>>, out: seq<Obj>, more: multiset<Pin>,
                  m: NodeId, r: RefId, ou: Obj, list: bool, counted: bool)
    requires |out| < |objs| && objs[|out|].Some? && PassStep(s0, s, s', p, q, objs, out, more, m, r, ou, list, counted)
    requires NoneLost(s0, s)
    ensures NoneLost(s0, s') && r in s'.refs && s'.refs[r].proc == q && ou.Handle? && ou.desc == s'.refs[r].desc
    ensures forall b :: b != r ==> (b in s'.refs <==> b in s.refs) && (b in s.refs ==> s'.refs[b] == s.refs[b])
    ensures r in s.refs ==> s.refs[r].node == m
  {
    hide SameNames, Uncounted, Countable;
  }

  lemma NamesTwice(a: State, b: State, c: State)
    requires NamesKept(a, b) && NamesKept(b, c)
    ensures NamesKept(a, c)
  {
  }

  /** A handle that is passed on was there before the transaction. */
  lemma NamedThen(s0: State, s: State, more: multiset<Pin>, p: Pid, q: Pid, o: Obj, pins0: multiset<Pin>, pins: multiset<Pin>)
    requires Sound(s0, pins0) && Sound(s, pins) && Grown(s0, s, more, None) && NamesKept(s0, s) && BornOwn(s0, s, p, q)
    requires o.Handle? && Named(s, p, o).Some? && s0.nodes.Keys <= s.nodes.Keys
    ensures Named(s, p, o).value in s.nodes
    ensures PassedOn(s0, p, q, o) <==> s.nodes[Named(s, p, o).value].proc != Some(q)
    ensures PassedOn(s0, p, q, o) ==> Named(s0, p, o) == Named(s, p, o) && Named(s, p, o).value in s0.nodes
  {
    hide Sound;
    DescHere(s, p, o.desc, pins);
    var a := s.refAt[DescKey(p, o.desc)];
    RefHere(s, a, pins);
    if DescKey(p, o.desc) in s0.refAt {
      DescHere(s0, p, o.desc, pins0);
      RefHere(s0, s0.refAt[DescKey(p, o.desc)], pins0);
      StandsAs(s0, s, more, s.refs[a].node);
    } else {
      NotOld(s0, s, more, a, p, o.desc, pins0);
    }
  }

  lemma NotOld(s0: State, s: State, more: multiset<Pin>, a: RefId, p: Pid, desc: nat, pins0: multiset<Pin>)
    requires Sound(s0, pins0) && Grown(s0, s, more, None) && a in s.refs && s.refs[a].proc == p && s.refs[a].desc == desc
    ensures a in s0.refs ==> DescKey(p, desc) in s0.refAt
  {
    if a in s0.refs {
      assert RefGrown(s0.refs[a], s.refs[a], more) && RefOk(s0, a);
    }
  }

  lemma TallyNew(s0: State, s: State, p: Pid, q: Pid, objs: seq<Option<Obj>>, out: seq<Obj>, more: multiset<Pin>, ptr: Ptr, cookie: nat, n: NodeId)
    requires Tally(s0, s, p, q, objs, out, more) && n !in s.nodes && NodeKey(p, ptr) !in s.nodeAt
    ensures Tally(s0, NewNode(s, p, ptr, cookie, n), p, q, objs, out, more) && NamesKept(s, NewNode(s, p, ptr, cookie, n))
  {
    var s1 := NewNode(s, p, ptr, cookie, n);
    hide KindsOk, PinsAsked, TallyAt, NoneLost, NamesKept, BornOwn, QueuedFor, NewNode;
    NewSame(s0, s, p, q, more, ptr, cookie, n);
    NewFields(s, p, ptr, cookie, n);
    forall r | r in s1.refs ensures TallyAt(s0, s1, p, q, objs, out, more, r) {
      assert TallyAt(s0, s, p, q, objs, out, more, r);
      TallyFrame(s0, s, s1, p, q, objs, out, more, r);
    }
  }

  lemma NewFields(s: State, p: Pid, ptr: Ptr, cookie: nat, n: NodeId)
    ensures var s1 := NewNode(s, p, ptr, cookie, n); s1.refs == s.refs && s1.refAt == s.refAt && s1.refFor == s.refFor
  {
  }

  lemma NewSame(s0: State, s: State, p: Pid, q: Pid, more: multiset<Pin>, ptr: Ptr, cookie: nat, n: NodeId)
    requires NoneLost(s0, s) && NamesKept(s0, s) && BornOwn(s0, s, p, q) && QueuedFor(s0, s, q, more)
    requires n !in s.nodes && NodeKey(p, ptr) !in s.nodeAt
    ensures var s1 := NewNode(s, p, ptr, cookie, n);
            NoneLost(s0, s1) && NamesKept(s0, s1) && BornOwn(s0, s1, p, q) && QueuedFor(s0, s1, q, more) && NamesKept(s, s1)
  {
    hide PinsOn;
  }

  lemma TallyFrame(s0: State, s: State, s': State, p: Pid, q: Pid, objs: seq<Option<Obj>>, out: seq<Obj>, more: multiset<Pin>, r: RefId)
    requires r in s.refs && r in s'.refs && s'.refs[r] == s.refs[r] && TallyAt(s0, s, p, q, objs, out, more, r)
    ensures TallyAt(s0, s', p, q, objs, out, more, r)
  {
  }

  /** The node the receiver owns itself. */
  lemma TallyLocal(s0: State, s: State, p: Pid, q: Pid, objs: seq<Option<Obj>>, out: seq<Obj>, more: multiset<Pin>, m: NodeId,
                   ou: Obj, strong: bool)
    requires Tally(s0, s, p, q, objs, out, more) && m in s.nodes && |out| < |objs| && objs[|out|].Some?
    requires !PassedOn(s0, p, q, objs[|out|].value) && ou.Binder?
    ensures Tally(s0, WithNode(s, m, Incremented(s, m, strong, false, false)), p, q, objs, out + [ou], more + multiset{PinFor(q, ou)})
  {
    var s', more' := WithNode(s, m, Incremented(s, m, strong, false, false)), more + multiset{PinFor(q, ou)};
    assert SameWork(s, s') by {
      hide Tally;
    }
    hide PassedOn, TallyAt, Incremented, SameWork, NoneLost, NamesKept, BornOwn, KindsOk, PinsAsked, QueuedFor;
    KindsMore(s0, p, q, objs, out, ou);
    PinsAskedMore(q, out, more, ou, multiset{PinFor(q, ou)});
    SameWorkStill(s0, s, s', p, q, more, more');
    forall r | r in s'.refs ensures TallyAt(s0, s', p, q, objs, out + [ou], more', r) {
      LocalAt(s0, s, s', p, q, objs, out, more, r, ou);
    }
  }

  /** Nothing but local counts changed. */
  ghost predicate SameWork(s: State, s': State) {
    && s'.refs == s.refs && s'.refAt == s.refAt && s'.refFor == s.refFor && s'.nodeAt == s.nodeAt && s'.nodes.Keys == s.nodes.Keys
    && forall x :: x in s.nodes ==>
         s'.nodes[x].queued == s.nodes[x].queued && s'.nodes[x].stray == s.nodes[x].stray && s'.nodes[x].proc == s.nodes[x].proc
  }

  lemma SameWorkStill(s0: State, s: State, s': State, p: Pid, q: Pid, more: multiset<Pin>, more': multiset<Pin>)
    requires SameWork(s, s') && NoneLost(s0, s) && NamesKept(s0, s) && BornOwn(s0, s, p, q) && QueuedFor(s0, s, q, more) && more <= more'
    ensures NoneLost(s0, s') && NamesKept(s0, s') && BornOwn(s0, s', p, q) && QueuedFor(s0, s', q, more')
  {
  }

  lemma LocalAt(s0: State, s: State, s': State, p: Pid, q: Pid, objs: seq<Option<Obj>>, out: seq<Obj>, more: multiset<Pin>, r: RefId, ou: Obj)
    requires r in s.refs && s'.refs == s.refs && TallyAt(s0, s, p, q, objs, out, more, r) && ou.Binder?
    requires |out| < |objs| && objs[|out|].Some?
    ensures TallyAt(s0, s', p, q, objs, out + [ou], more + multiset{PinFor(q, ou)}, r)
  {
    AskedMore(out, ou, s.refs[r].desc);
    HitMore(s0, p, objs, out, ou, s.refs[r].desc);
    hide Asked, HitBy, Countable;
  }

  lemma TallyPassOn(s0: State, s: State, p: Pid, q: Pid, objs: seq<Option<Obj>>, out: seq<Obj>, more: multiset<Pin>, m: NodeId, r: RefId,
                    list: bool, counted: bool, pins: multiset<Pin>, pins': multiset<Pin>)
    requires Tally(s0, s, p, q, objs, out, more) && SameNames(s, p, q, objs, out) && |out| < |objs| && objs[|out|].Some?
    requires Sound(s, pins) && RefsGrown(s0, s, more) && m in s.nodes && q in s.descs && r !in s.refs && (list ==> counted)
    requires PassedOn(s0, p, q, objs[|out|].value)
    requires Uncounted(s0, s, q, more, m) ==> (counted <==> Countable(s0, p, objs[|out|].value))
    requires var s' := WithPin(s, q, m, r, objs[|out|].value.strong, list);
             Sound(s', pins') && NamesKept(s0, s') && BornOwn(s0, s', p, q)
    ensures RefTo(s, q, m, r) in Linked(s, q, m, r).refs
    ensures var ou := Handle(Linked(s, q, m, r).refs[RefTo(s, q, m, r)].desc, objs[|out|].value.strong);
            Tally(s0, WithPin(s, q, m, r, ou.strong, list), p, q, objs, out + [ou], more + CountedPin(q, ou, counted))
  {
    hide Sound, Tally, RefsGrown, SameNames, NamesKept, BornOwn, PassedOn, Uncounted, Countable, CountedPin, Linked, RefTo, WithPin, Passing;
    var r1 := RefTo(s, q, m, r);
    LinkedIs(s, q, m, r, pins);
    var strong := objs[|out|].value.strong;
    PassingIs(s, q, m, r, strong, list, pins);
    var s' := WithPin(s, q, m, r, strong, list);
    var ou := Handle(Linked(s, q, m, r).refs[r1].desc, strong);
    PassingHere(s, s', q, m, r1, list);
    TallyPass(s0, s, s', p, q, objs, out, more, m, r1, ou, list, counted, pins, pins');
  }

  lemma PassingHere(s: State, s': State, q: Pid, m: NodeId, r: RefId, list: bool)
    requires Passing(s, s', q, m, r, list)
    ensures r in s'.refs
  {
  }

  lemma GrownStill(s0: State, s: State, s': State, more: multiset<Pin>)
    requires Grown(s0, s, more, None) && s'.refs == s.refs && s'.refAt == s.refAt
    ensures RefsGrown(s0, s', more)
  {
  }

  lemma TallyBinder(s0: State, s: State, s1: State, p: Pid, q: Pid, objs: seq<Option<Obj>>, out: seq<Obj>, more: multiset<Pin>,
                    ptr: Ptr, cookie: nat, strong: bool, m: NodeId, r: RefId, pins: multiset<Pin>, pins': multiset<Pin>)
    requires Tally(s0, s1, p, q, objs, out, more) && SameNames(s1, p, q, objs, out)
    requires |out| < |objs| && objs[|out|] == Some(Binder(ptr, cookie, strong))
    requires Sound(s1, pins) && RefsGrown(s0, s1, more) && m in s1.nodes && q in s1.descs && r !in s1.refs
    requires var s' := WithPin(s1, q, m, r, strong, true); Sound(s', pins') && NamesKept(s0, s') && BornOwn(s0, s', p, q)
    ensures RefTo(s1, q, m, r) in Linked(s1, q, m, r).refs
    ensures var ou := Handle(Linked(s1, q, m, r).refs[RefTo(s1, q, m, r)].desc, strong);
            Tally(s0, WithPin(s1, q, m, r, strong, true), p, q, objs, out + [ou], more + multiset{PinFor(q, ou)})
  {
    hide Sound, Tally, RefsGrown, SameNames, NamesKept, BornOwn, Uncounted, Linked, RefTo, WithPin;
    TallyPassOn(s0, s1, p, q, objs, out, more, m, r, true, true, pins, pins');
  }

  lemma TallyHandle(s0: State, s: State, p: Pid, q: Pid, objs: seq<Option<Obj>>, out: seq<Obj>, more: multiset<Pin>,
                    m: NodeId, r: RefId, pins0: multiset<Pin>, pins: multiset<Pin>, pins': multiset<Pin>)
    requires Tally(s0, s, p, q, objs, out, more) && SameNames(s, p, q, objs, out) && Grown(s0, s, more, None)
    requires |out| < |objs| && objs[|out|].Some? && objs[|out|].value.Handle? && Named(s, p, objs[|out|].value) == Some(m)
    requires Sound(s0, pins0) && Sound(s, pins) && m in s.nodes && s.nodes[m].proc != Some(q) && q in s.descs && r !in s.refs
    requires var s' := WithPin(s, q, m, r, objs[|out|].value.strong, false);
             Sound(s', pins') && NamesKept(s0, s') && BornOwn(s0, s', p, q)
    ensures RefTo(s, q, m, r) in Linked(s, q, m, r).refs
    ensures var ou := Handle(Linked(s, q, m, r).refs[RefTo(s, q, m, r)].desc, objs[|out|].value.strong);
            Tally(s0, WithPin(s, q, m, r, ou.strong, false), p, q, objs, out + [ou], more + Paid(s, p, q, objs[|out|].value, r, Some(ou)))
  {
    hide Sound, Grown, RefsGrown, SameNames, NamesKept, BornOwn, Uncounted, Countable, Linked, RefTo, WithPin, PassedOn, Named,
         Refusing, KindsOk, PinsAsked, QueuedFor, TallyAt;
    var o := objs[|out|].value;
    NamedThen(s0, s, more, p, q, o, pins0, pins);
    GrownRefs(s0, s, more);
    if Uncounted(s0, s, q, more, m) {
      RefusedIs(s0, s, p, q, out, more, o, m, r, pins0, pins);
    }
    TallyPassOn(s0, s, p, q, objs, out, more, m, r, false, !Refusing(s, p, q, o, r), pins, pins');
  }

  /** Each object translated keeps the tally; a refused one changes nothing. */
  lemma TallyStep(s0: State, s: State, p: Pid, q: Pid, objs: seq<Option<Obj>>, out: seq<Obj>, more: multiset<Pin>, n: NodeId, r: RefId,
                  pins0: multiset<Pin>, pins: multiset<Pin>)
    requires Tally(s0, s, p, q, objs, out, more) && Inv(s0, pins0) && Inv(s, pins) && Grown(s0, s, more, None)
    requires SameNames(s, p, q, objs, out) && |out| < |objs| && objs[|out|].Some?
    requires p in s.descs && q in s.descs && n !in s.nodes && r !in s.refs
    ensures var (s', ou) := Translated(s, p, q, objs[|out|].value, n, r);
            if ou.None? then s' == s
            else Tally(s0, s', p, q, objs, out + [ou.value], more + Paid(s, p, q, objs[|out|].value, r, ou))
  {
    hide Tally, Grown, SameNames, Inv, Sound, NamesKept, BornOwn;
    var o := objs[|out|].value;
    var s' := Translated(s, p, q, o, n, r).0;
    var ou := Translated(s, p, q, o, n, r).1;
    var pins' := pins + if ou.Some? then multiset{PinFor(q, ou.value)} else multiset{};
    TranslatedKeeps(s, p, q, o, n, r, pins);
    TranslatedStable(s, p, q, o, n, r, pins);
    InvSound(s', pins');
    TallyParts(s0, s, p, q, objs, out, more);
    NamesTwice(s0, s, s');
    TranslatedOwn(s0, s, p, q, o, n, r, pins);
    hide Translated;
    match o
    case Binder(ptr, cookie, strong) => BinderStep(s0, s, p, q, objs, out, more, ptr, cookie, strong, n, r, pins, pins');
    case Handle(desc, strong) => HandleStep(s0, s, p, q, objs, out, more, n, r, pins0, pins, pins');
  }

  lemma BinderStep(s0: State, s: State, p: Pid, q: Pid, objs: seq<Option<Obj>>, out: seq<Obj>, more: multiset<Pin>,
                   ptr: Ptr, cookie: nat, strong: bool, n: NodeId, r: RefId, pins: multiset<Pin>, pins': multiset<Pin>)
    requires Tally(s0, s, p, q, objs, out, more) && Inv(s, pins) && Grown(s0, s, more, None)
    requires SameNames(s, p, q, objs, out) && |out| < |objs| && objs[|out|] == Some(Binder(ptr, cookie, strong))
    requires p in s.descs && q in s.descs && n !in s.nodes && r !in s.refs
    requires var s' := Translated(s, p, q, Binder(ptr, cookie, strong), n, r).0;
             Sound(s', pins') && NamesKept(s0, s') && BornOwn(s0, s', p, q)
    ensures var (s', ou) := Translated(s, p, q, Binder(ptr, cookie, strong), n, r);
            if ou.None? then s' == s else Tally(s0, s', p, q, objs, out + [ou.value], more + multiset{PinFor(q, ou.value)})
  {
    hide Sound, Tally, Grown, RefsGrown, SameNames, NamesKept, BornOwn, Linked, RefTo, WithPin;
    var s1, m := s, n;
    if NodeKey(p, ptr) in s.nodeAt {
      KeyHere(s, p, ptr, pins);
      m := s.nodeAt[NodeKey(p, ptr)];
    } else {
      s1 := NewNode(s, p, ptr, cookie, n);
      NewNodeKeeps(s, p, ptr, cookie, n, pins);
      TallyNew(s0, s, p, q, objs, out, more, ptr, cookie, n);
      NamesCarry(s, s1, p, q, objs, out);
    }
    GrownStill(s0, s, s1, more);
    LinkedIs(s1, q, m, r, pins);
    if cookie == s1.nodes[m].cookie {
      TallyBinder(s0, s, s1, p, q, objs, out, more, ptr, cookie, strong, m, r, pins, pins');
    }
  }

  lemma TallyParts(s0: State, s: State, p: Pid, q: Pid, objs: seq<Option<Obj>>, out: seq<Obj>, more: multiset<Pin>)
    requires Tally(s0, s, p, q, objs, out, more)
    ensures NoneLost(s0, s) && NamesKept(s0, s) && BornOwn(s0, s, p, q)
  {
  }

  lemma HandleStep(s0: State, s: State, p: Pid, q: Pid, objs: seq<Option<Obj>>, out: seq<Obj>, more: multiset<Pin>,
                   n: NodeId, r: RefId, pins0: multiset<Pin>, pins: multiset<Pin>, pins': multiset<Pin>)
    requires Tally(s0, s, p, q, objs, out, more) && Inv(s0, pins0) && Inv(s, pins) && Grown(s0, s, more, None)
    requires SameNames(s, p, q, objs, out) && |out| < |objs| && objs[|out|].Some? && objs[|out|].value.Handle?
    requires p in s.descs && q in s.descs && n !in s.nodes && r !in s.refs
    requires var s' := Translated(s, p, q, objs[|out|].value, n, r).0;
             Sound(s', pins') && NamesKept(s0, s') && BornOwn(s0, s', p, q)
    ensures var (s', ou) := Translated(s, p, q, objs[|out|].value, n, r);
            if ou.None? then s' == s
            else Tally(s0, s', p, q, objs, out + [ou.value], more + Paid(s, p, q, objs[|out|].value, r, ou))
  {
    hide Sound, Tally, Grown, RefsGrown, SameNames, NamesKept, BornOwn, Linked, RefTo, WithPin, Incremented, RefRefused;
    var o := objs[|out|].value;
    TallyParts(s0, s, p, q, objs, out, more);
    if Named(s, p, o).Some? {
      var m := Named(s, p, o).value;
      NamedThen(s0, s, more, p, q, o, pins0, pins);
      if s.nodes[m].proc == Some(q) {
        TallyLocal(s0, s, p, q, objs, out, more, m, Binder(s.nodes[m].ptr, s.nodes[m].cookie, o.strong), o.strong);
      } else {
        LinkedIs(s, q, m, r, pins);
        TallyHandle(s0, s, p, q, objs, out, more, m, r, pins0, pins, pins');
      }
    }
  }

  lemma InvSound(s: State, pins: multiset<Pin>)
    requires Inv(s, pins)
    ensures Sound(s, pins) && WantedBut(s, None)
  {
  }

  // ---- what is left at the end ----

  /** What holds when the last object has been translated. */
  ghost predicate Tallied(s0: State, t: State, p: Pid, q: Pid, objs: seq<Option<Obj>>, out: seq<Obj>, all: multiset<Pin>,
                          pins0: multiset<Pin>, pins: multiset<Pin>) {
    && Tally(s0, t, p, q, objs, out, all) && Grown(s0, t, all, None) && SameNames(t, p, q, objs, out)
    && Sound(s0, pins0) && Sound(t, pins)
  }

  /** The reference the receiver got for object `i`. */
  ghost predicate Got(t: State, p: Pid, q: Pid, objs: seq<Option<Obj>>, out: seq<Obj>, i: nat, r: RefId) {
    && i < |out| && i < |objs| && objs[i].Some? && out[i].Handle? && r in t.refs && t.refs[r].proc == q
    && t.refs[r].desc == out[i].desc && Named(t, p, objs[i].value) == Some(t.refs[r].node) && t.refs[r].node in t.nodes
  }

  lemma GotFor(s0: State, t: State, p: Pid, q: Pid, objs: seq<Option<Obj>>, out: seq<Obj>, all: multiset<Pin>,
               pins0: multiset<Pin>, pins: multiset<Pin>, i: nat) returns (r: RefId)
    requires Tallied(s0, t, p, q, objs, out, all, pins0, pins) && i < |out| && out[i].Handle?
    ensures Got(t, p, q, objs, out, i, r) && PassedOn(s0, p, q, objs[i].value)
  {
    hide Sound, Grown, PassedOn, NamesKept, TallyAt, QueuedFor, PinsAsked, NoneLost, BornOwn;
    assert Named(t, q, out[i]).Some? && Named(t, q, out[i]) == Named(t, p, objs[i].value);
    DescHere(t, q, out[i].desc, pins);
    r := t.refAt[DescKey(q, out[i].desc)];
    RefHere(t, r, pins);
  }

  /** A node named before is the node named now; one not named before is new. */
  lemma NamedBefore(s0: State, t: State, p: Pid, q: Pid, all: multiset<Pin>, o: Obj, pins0: multiset<Pin>, pins: multiset<Pin>)
    requires Sound(s0, pins0) && Sound(t, pins) && Grown(s0, t, all, None) && NamesKept(s0, t) && BornOwn(s0, t, p, q)
    requires s0.nodes.Keys <= t.nodes.Keys && PassedOn(s0, p, q, o) && Named(t, p, o).Some?
    ensures Named(s0, p, o).Some? ==> Named(s0, p, o) == Named(t, p, o) && Named(t, p, o).value in s0.nodes
    ensures Named(s0, p, o).None? ==> o.Binder? && Named(t, p, o).value !in s0.nodes
  {
    hide Sound;
    if o.Handle? {
      NamedThen(s0, t, all, p, q, o, pins0, pins);
    } else {
      KeyHere(t, p, o.ptr, pins);
      var m := t.nodeAt[NodeKey(p, o.ptr)];
      if NodeKey(p, o.ptr) in s0.nodeAt {
        KeyHere(s0, p, o.ptr, pins0);
      } else if m in s0.nodes {
        SameOwner(s0, t, all, m);
        Here(s0, m, pins0);
        assert false;
      }
    }
  }

  lemma SameOwner(s0: State, t: State, all: multiset<Pin>, m: NodeId)
    requires Grown(s0, t, all, None) && m in s0.nodes && m in t.nodes
    ensures t.nodes[m].proc == s0.nodes[m].proc && t.nodes[m].ptr == s0.nodes[m].ptr
  {
    assert NodeGrown(s0.nodes[m], t.nodes[m], all);
  }

  /** Objects that name the same node are passed on as the same descriptor. */
  lemma AlikeIs(s0: State, t: State, p: Pid, q: Pid, objs: seq<Option<Obj>>, out: seq<Obj>, all: multiset<Pin>,
                pins0: multiset<Pin>, pins: multiset<Pin>, i: nat, j: nat)
    requires Tallied(s0, t, p, q, objs, out, all, pins0, pins) && i < |out| && j < |out| && out[i].Handle? && out[j].Handle?
    ensures i < |objs| && j < |objs| && objs[i].Some? && objs[j].Some?
    ensures Alike(s0, p, objs[i].value, objs[j].value) <==> out[i].desc == out[j].desc
  {
    hide Sound, Grown, TallyAt, QueuedFor, PinsAsked, PassedOn, Named, NamesKept, SameNames, BornOwn;
    var a := GotFor(s0, t, p, q, objs, out, all, pins0, pins, i);
    var b := GotFor(s0, t, p, q, objs, out, all, pins0, pins, j);
    OneDesc(t, a, b, pins);
    NamedBefore(s0, t, p, q, all, objs[i].value, pins0, pins);
    NamedBefore(s0, t, p, q, all, objs[j].value, pins0, pins);
    if objs[i].value.Binder? && objs[j].value.Binder? {
      OneName(t, p, objs[i].value, objs[j].value, pins);
    }
  }

  /** References of one process: same descriptor, same node. */
  lemma OneDesc(t: State, a: RefId, b: RefId, pins: multiset<Pin>)
    requires Sound(t, pins) && a in t.refs && b in t.refs && t.refs[a].proc == t.refs[b].proc
    ensures t.refs[a].desc == t.refs[b].desc <==> a == b
    ensures t.refs[a].node == t.refs[b].node <==> a == b
  {
    hide Sound;
    if a != b {
      DescApart(t, a, b, pins);
    }
    OneFor(t, a, pins);
    OneFor(t, b, pins);
  }

  lemma OneName(t: State, p: Pid, a: Obj, b: Obj, pins: multiset<Pin>)
    requires Sound(t, pins) && a.Binder? && b.Binder? && Named(t, p, a).Some? && Named(t, p, b).Some?
    ensures Named(t, p, a) == Named(t, p, b) <==> a.ptr == b.ptr
  {
    hide Sound;
    KeyHere(t, p, a.ptr, pins);
    KeyHere(t, p, b.ptr, pins);
  }

  /** The reference the receiver held before for what object `i` names is the one it got now. */
  lemma HeldIs(s0: State, t: State, p: Pid, q: Pid, objs: seq<Option<Obj>>, out: seq<Obj>, all: multiset<Pin>,
               pins0: multiset<Pin>, pins: multiset<Pin>, i: nat, r: RefId)
    requires Tallied(s0, t, p, q, objs, out, all, pins0, pins) && Got(t, p, q, objs, out, i, r) && PassedOn(s0, p, q, objs[i].value)
    ensures HeldFor(s0, p, q, objs[i].value) == if r in s0.refs then Some(r) else None
  {
    hide Sound, Grown, TallyAt, QueuedFor, PinsAsked, PassedOn, Named, NamesKept, SameNames, BornOwn, KindsOk;
    var o := objs[i].value;
    NamedBefore(s0, t, p, q, all, o, pins0, pins);
    if r in s0.refs {
      SameRef(s0, t, all, r);
      RefHere(s0, r, pins0);
      OneFor(s0, r, pins0);
    } else if HeldFor(s0, p, q, o).Some? {
      var a := HeldFor(s0, p, q, o).value;
      ForThere(s0, q, Named(s0, p, o).value, pins0);
      SameRef(s0, t, all, a);
      OneDesc(t, a, r, pins);
      assert false;
    }
  }

  lemma ForThere(s: State, q: Pid, m: NodeId, pins: multiset<Pin>)
    requires Sound(s, pins) && ForKey(q, m) in s.refFor
    ensures var a := s.refFor[ForKey(q, m)]; a in s.refs && s.refs[a].proc == q && s.refs[a].node == m
  {
    assert ForKeyOk(s, ForKey(q, m));
  }

  lemma SameRef(s0: State, t: State, all: multiset<Pin>, r: RefId)
    requires Grown(s0, t, all, None) && r in s0.refs && r in t.refs
    ensures t.refs[r].proc == s0.refs[r].proc && t.refs[r].node == s0.refs[r].node && t.refs[r].desc == s0.refs[r].desc
  {
    assert RefGrown(s0.refs[r], t.refs[r], all);
  }

  lemma CountedIs(s0: State, t: State, p: Pid, q: Pid, objs: seq<Option<Obj>>, out: seq<Obj>, all: multiset<Pin>,
                  pins0: multiset<Pin>, pins: multiset<Pin>, i: nat)
    requires Tallied(s0, t, p, q, objs, out, all, pins0, pins) && i < |out| && out[i].Handle?
    ensures |out| <= |objs| && objs[i].Some?
    ensures CountedOnce(s0, p, q, objs, |out|, i) <==> HitBy(s0, p, objs, out, out[i].desc)
  {
    hide Sound, Grown, TallyAt, QueuedFor, PinsAsked, PassedOn, Alike, Countable, NamesKept, SameNames, BornOwn, NoneLost;
    forall j: nat | j < |out| && out[j].Handle?
      ensures objs[j].Some? && PassedOn(s0, p, q, objs[j].value)
      ensures Alike(s0, p, objs[i].value, objs[j].value) <==> out[i].desc == out[j].desc
    {
      AlikeIs(s0, t, p, q, objs, out, all, pins0, pins, i, j);
    }
    if CountedOnce(s0, p, q, objs, |out|, i) {
      var j :| 0 <= j < |out| && objs[j].Some? && PassedOn(s0, p, q, objs[j].value) && Alike(s0, p, objs[i].value, objs[j].value)
               && Countable(s0, p, objs[j].value);
      assert out[j].Handle?;
    }
    if HitBy(s0, p, objs, out, out[i].desc) {
      var j :| 0 <= j < |out| && j < |objs| && objs[j].Some? && out[j].Handle? && out[j].desc == out[i].desc && Countable(s0, p, objs[j].value);
      assert PassedOn(s0, p, q, objs[j].value);
    }
  }

  /** A reference is left as it was when it counted before, or came with the transaction and got a count, or
      was there and got none. */
  ghost predicate LeftAsWas(s0: State, t: State, all: multiset<Pin>, r: RefId)
    requires r in t.refs
  {
    if r in s0.refs then Base(s0, r, true) + Base(s0, r, false) > 0 || PinsOn(all, t.refs[r]) == 0
    else PinsOn(all, t.refs[r]) > 0
  }

  /** What the sender could tell about object `i` says what becomes of the reference for it. */
  lemma UndoneIs(s0: State, t: State, p: Pid, q: Pid, objs: seq<Option<Obj>>, out: seq<Obj>, all: multiset<Pin>,
                 pins0: multiset<Pin>, pins: multiset<Pin>, i: nat, r: RefId)
    requires Tallied(s0, t, p, q, objs, out, all, pins0, pins) && Got(t, p, q, objs, out, i, r) && PassedOn(s0, p, q, objs[i].value)
    ensures |out| <= |objs| && (UndoneAt(s0, p, q, objs, |out|, i) <==> LeftAsWas(s0, t, all, r))
  {
    hide Sound, Grown, QueuedFor, PinsAsked, PassedOn, Alike, Countable, NamesKept, SameNames, BornOwn, NoneLost;
    HeldIs(s0, t, p, q, objs, out, all, pins0, pins, i, r);
    CountedIs(s0, t, p, q, objs, out, all, pins0, pins, i);
    assert TallyAt(s0, t, p, q, objs, out, all, r);
    hide CountedOnce, HitBy, HeldFor, PinsOn;
  }

  /** A reference no object was passed on as is as it was. */
  lemma NotAsked(s0: State, t: State, p: Pid, q: Pid, objs: seq<Option<Obj>>, out: seq<Obj>, all: multiset<Pin>,
                 pins0: multiset<Pin>, pins: multiset<Pin>, r: RefId)
    requires Tallied(s0, t, p, q, objs, out, all, pins0, pins) && r in t.refs && !(t.refs[r].proc == q && Asked(out, t.refs[r].desc))
    ensures LeftAsWas(s0, t, all, r)
  {
    hide Sound, Grown, QueuedFor, NamesKept, SameNames, NoneLost, KindsOk;
    assert TallyAt(s0, t, p, q, objs, out, all, r);
    assert RefPin(t.refs[r].proc, t.refs[r].desc, true) !in all && RefPin(t.refs[r].proc, t.refs[r].desc, false) !in all;
  }

  /** All references are left as they were exactly if the sender could tell that the objects can be undone. */
  lemma UndoneAll(s0: State, t: State, p: Pid, q: Pid, objs: seq<Option<Obj>>, out: seq<Obj>, all: multiset<Pin>,
                  pins0: multiset<Pin>, pins: multiset<Pin>)
    requires Tallied(s0, t, p, q, objs, out, all, pins0, pins)
    ensures |out| <= |objs| && (Undone(s0, p, q, objs, |out|) <==> forall r :: r in t.refs ==> LeftAsWas(s0, t, all, r))
  {
    TalliedKinds(s0, t, p, q, objs, out, all, pins0, pins);
    hide Tallied, LeftAsWas, PassedOn, UndoneAt;
    if Undone(s0, p, q, objs, |out|) {
      forall r | r in t.refs ensures LeftAsWas(s0, t, all, r) {
        if t.refs[r].proc == q && Asked(out, t.refs[r].desc) {
          var i :| 0 <= i < |out| && out[i].Handle? && out[i].desc == t.refs[r].desc;
          var a := GotFor(s0, t, p, q, objs, out, all, pins0, pins, i);
          SameGot(s0, t, p, q, objs, out, all, pins0, pins, a, r);
          UndoneIs(s0, t, p, q, objs, out, all, pins0, pins, i, a);
        } else {
          NotAsked(s0, t, p, q, objs, out, all, pins0, pins, r);
        }
      }
    }
    if forall r :: r in t.refs ==> LeftAsWas(s0, t, all, r) {
      forall i | 0 <= i < |out| && objs[i].Some? && PassedOn(s0, p, q, objs[i].value) ensures UndoneAt(s0, p, q, objs, |out|, i) {
        var a := GotFor(s0, t, p, q, objs, out, all, pins0, pins, i);
        UndoneIs(s0, t, p, q, objs, out, all, pins0, pins, i, a);
      }
    }
  }

  lemma TalliedKinds(s0: State, t: State, p: Pid, q: Pid, objs: seq<Option<Obj>>, out: seq<Obj>, all: multiset<Pin>,
                     pins0: multiset<Pin>, pins: multiset<Pin>)
    requires Tallied(s0, t, p, q, objs, out, all, pins0, pins)
    ensures KindsOk(s0, p, q, objs, out)
  {
  }

  lemma SameGot(s0: State, t: State, p: Pid, q: Pid, objs: seq<Option<Obj>>, out: seq<Obj>, all: multiset<Pin>,
                pins0: multiset<Pin>, pins: multiset<Pin>, a: RefId, r: RefId)
    requires Tallied(s0, t, p, q, objs, out, all, pins0, pins) && a in t.refs && r in t.refs
    requires t.refs[a].proc == t.refs[r].proc && t.refs[a].desc == t.refs[r].desc
    ensures a == r
  {
    hide Tally, Grown, SameNames, Sound;
    OneDesc(t, a, r, pins);
  }

  // ---- running out of memory ----

  /** What the allocator has for one object: it may fail for a new node, or for a new reference. */
  datatype Memory = Enough | NoNode | NoRef

  /** The driver needs a record for the object and does not get it. */
  ghost predicate Starved(s: State, p: Pid, q: Pid, o: Obj, memory: Memory) {
    match o
    case Binder(ptr, cookie, _) =>
      if NodeKey(p, ptr) !in s.nodeAt then memory != Enough
      else var m := s.nodeAt[NodeKey(p, ptr)];
           m in s.nodes && cookie == s.nodes[m].cookie && ForKey(q, m) !in s.refFor && memory == NoRef
    case Handle(_, _) =>
      Named(s, p, o).Some? && Named(s, p, o).value in s.nodes && s.nodes[Named(s, p, o).value].proc != Some(q)
      && ForKey(q, Named(s, p, o).value) !in s.refFor && memory == NoRef
  }

  /** The object is the first of a new node, for which there is memory, but not for the reference to it. */
  ghost predicate Strays(s: State, p: Pid, o: Obj, memory: Memory) {
    o.Binder? && NodeKey(p, o.ptr) !in s.nodeAt && memory == NoRef
  }

  /** A new node that is left behind: no reference, no count, no work item. */
  function Stranded(s: State, p: Pid, ptr: Ptr, cookie: nat, n: NodeId): State {
    WithNode(NewNode(s, p, ptr, cookie, n), n,
             Node(Some(p), ptr, cookie, 0, 0, 0, false, false, false, false, {}, false, true))
  }

  ghost function AfterStarved(s: State, p: Pid, o: Obj, memory: Memory, n: NodeId): State {
    if Strays(s, p, o, memory) then Stranded(s, p, o.ptr, o.cookie, n) else s
  }

  lemma StrandedIs(s: State, p: Pid, ptr: Ptr, cookie: nat, n: NodeId)
    ensures var s1 := NewNode(s, p, ptr, cookie, n);
            n in s1.nodes && s1.nodes[n].proc == Some(p) && Stranded(s, p, ptr, cookie, n) == WithNode(s1, n, s1.nodes[n].(stray := true))
  {
  }

  lemma MarkedKeeps(s: State, n: NodeId, pins: multiset<Pin>)
    requires Sound(s, pins) && WantedBut(s, Some(n)) && n in s.nodes && s.nodes[n].proc.Some?
    ensures Inv(WithNode(s, n, s.nodes[n].(stray := true)), pins)
  {
    hide Sound, MayReplace, WantedBut, Wanted;
    MarkedMay(s, n, pins);
    ReplaceNode(s, n, s.nodes[n].(stray := true), pins, pins);
    MarkedWanted(s, n);
  }

  lemma MarkedMay(s: State, n: NodeId, pins: multiset<Pin>)
    requires Sound(s, pins) && n in s.nodes && s.nodes[n].proc.Some?
    ensures MayReplace(s, n, s.nodes[n].(stray := true), pins) && PinsBut(s, n, pins, pins)
  {
    hide Sound;
    Here(s, n, pins);
    ManagerFlags(s, n, pins);
  }

  lemma MarkedWanted(s: State, n: NodeId)
    requires WantedBut(s, Some(n)) && n in s.nodes && s.nodes[n].proc.Some?
    ensures WantedBut(WithNode(s, n, s.nodes[n].(stray := true)), None)
  {
  }

  lemma ManagerFlags(s: State, n: NodeId, pins: multiset<Pin>)
    requires Sound(s, pins) && n in s.nodes
    ensures s.manager == Some(n) ==> s.nodes[n].hasStrong && s.nodes[n].hasWeak
  {
    hide NodesOk, KeysOk, RefsOk;
  }

  lemma MarkedGrown(s0: State, s: State, more: multiset<Pin>, n: NodeId)
    requires Grown(s0, s, more, Some(n)) && n in s.nodes && n !in s0.nodes
    ensures Grown(s0, WithNode(s, n, s.nodes[n].(stray := true)), more, None)
  {
    var s' := WithNode(s, n, s.nodes[n].(stray := true));
    RefsFrame(s0, s, s', more);
    hide RefsGrown, NodeGrown;
  }

  lemma StrandedKeeps(s: State, p: Pid, ptr: Ptr, cookie: nat, n: NodeId, pins: multiset<Pin>)
    requires Inv(s, pins) && p in s.descs && NodeKey(p, ptr) !in s.nodeAt && n !in s.nodes
    ensures Inv(Stranded(s, p, ptr, cookie, n), pins)
  {
    hide Inv, Sound, NewNode, Stranded;
    StrandedIs(s, p, ptr, cookie, n);
    NewNodeKeeps(s, p, ptr, cookie, n, pins);
    MarkedKeeps(NewNode(s, p, ptr, cookie, n), n, pins);
  }

  lemma StrandedGrown(s0: State, s: State, more: multiset<Pin>, p: Pid, ptr: Ptr, cookie: nat, n: NodeId, pins: multiset<Pin>)
    requires Grown(s0, s, more, None) && Sound(s, pins) && more <= pins
    requires n !in s.nodes && s0.nodes.Keys <= s.nodes.Keys && NodeKey(p, ptr) !in s.nodeAt
    ensures Grown(s0, Stranded(s, p, ptr, cookie, n), more, None)
  {
    hide Grown, Sound, NewNode, Stranded;
    StrandedIs(s, p, ptr, cookie, n);
    GrowNew(s0, s, more, p, ptr, cookie, n, pins);
    MarkedGrown(s0, NewNode(s, p, ptr, cookie, n), more, n);
  }

  /** Of the nodes, those left over from a starved object are alone; nothing else came of it. */
  ghost predicate LeftOver(t: State, s1: State, stray: bool) {
    s1.refs == t.refs && if stray then exists n :: n in s1.nodes && n !in t.nodes && Alone(s1.nodes[n]) else s1 == t
  }

  lemma StarvedLeft(s: State, p: Pid, o: Obj, memory: Memory, n: NodeId)
    requires n !in s.nodes
    ensures LeftOver(s, AfterStarved(s, p, o, memory, n), Strays(s, p, o, memory))
  {
    if Strays(s, p, o, memory) {
      var s1 := Stranded(s, p, o.ptr, o.cookie, n);
      assert n in s1.nodes && Alone(s1.nodes[n]);
    }
  }

  // ---- the nodes that came with the objects ----

  ghost predicate SentBinder(objs: seq<Option<Obj>>, k: nat, ptr: Ptr) {
    exists i :: 0 <= i < k && i < |objs| && objs[i].Some? && objs[i].value.Binder? && objs[i].value.ptr == ptr
  }

  /** Every address in use was so before, or is the sender's and came with an object. */
  ghost predicate KeysFrom(s0: State, s: State, p: Pid, objs: seq<Option<Obj>>, k: nat) {
    forall x :: x in s.nodeAt ==> x in s0.nodeAt || (x.proc == p && SentBinder(objs, k, x.ptr))
  }

  lemma SentMore(objs: seq<Option<Obj>>, k: nat, ptr: Ptr)
    requires k < |objs|
    ensures SentBinder(objs, k, ptr) ==> SentBinder(objs, k + 1, ptr)
    ensures objs[k].Some? && objs[k].value.Binder? && objs[k].value.ptr == ptr ==> SentBinder(objs, k + 1, ptr)
  {
  }

  lemma KeysStep(s0: State, s: State, p: Pid, q: Pid, objs: seq<Option<Obj>>, k: nat, n: NodeId, r: RefId, pins: multiset<Pin>)
    requires KeysFrom(s0, s, p, objs, k) && k < |objs| && objs[k].Some? && Inv(s, pins)
    requires p in s.descs && q in s.descs && n !in s.nodes && r !in s.refs
    ensures KeysFrom(s0, Translated(s, p, q, objs[k].value, n, r).0, p, objs, k + 1)
  {
    var s' := Translated(s, p, q, objs[k].value, n, r).0;
    TranslatedAt(s, p, q, objs[k].value, n, r);
    hide Inv, Translated, SentBinder;
    forall x | x in s'.nodeAt ensures x in s0.nodeAt || (x.proc == p && SentBinder(objs, k + 1, x.ptr)) {
      SentMore(objs, k, x.ptr);
    }
  }

  lemma TranslatedAt(s: State, p: Pid, q: Pid, o: Obj, n: NodeId, r: RefId)
    requires q in s.descs
    ensures Translated(s, p, q, o, n, r).0.nodeAt.Keys <= s.nodeAt.Keys + if o.Binder? then {NodeKey(p, o.ptr)} else {}
  {
    hide Linked, RefTo, WithPin, Incremented;
    match o
    case Binder(ptr, cookie, strong) =>
      var s1 := if NodeKey(p, ptr) in s.nodeAt then s else NewNode(s, p, ptr, cookie, n);
      var m := s1.nodeAt[NodeKey(p, ptr)];
      if m in s1.nodes {
        LinkKeys(s1, q, m, r, strong, true);
        LinkedAt(s1, q, m, r);
      }
    case Handle(desc, strong) =>
      if Named(s, p, o).Some? && Named(s, p, o).value in s.nodes {
        LinkKeys(s, q, Named(s, p, o).value, r, strong, false);
        LinkedAt(s, q, Named(s, p, o).value, r);
      }
  }

  /** The address of an object is not in use just if it was not before, and no object brought it since. */
  lemma KeyIs(s0: State, s: State, p: Pid, q: Pid, objs: seq<Option<Obj>>, out: seq<Obj>, ptr: Ptr)
    requires KeysFrom(s0, s, p, objs, |out|) && SameNames(s, p, q, objs, out) && NamesKept(s0, s)
    ensures NodeKey(p, ptr) !in s.nodeAt <==> NodeKey(p, ptr) !in s0.nodeAt && !SentBinder(objs, |out|, ptr)
  {
    if SentBinder(objs, |out|, ptr) {
      var i :| 0 <= i < |out| && i < |objs| && objs[i].Some? && objs[i].value.Binder? && objs[i].value.ptr == ptr;
      assert Named(s, p, objs[i].value).Some?;
    }
  }

  /** Object `k` leaves a stray node: the sender can tell from what memory there is. */
  ghost predicate StraysAt(s0: State, p: Pid, objs: seq<Option<Obj>>, k: nat, memory: seq<Memory>) {
    k < |objs| && k < |memory| && memory[k] == NoRef && objs[k].Some? && objs[k].value.Binder?
    && NodeKey(p, objs[k].value.ptr) !in s0.nodeAt && !SentBinder(objs, k, objs[k].value.ptr)
  }

  // ---- the end of a failed transaction ----

  /** The references are those of before exactly if each is left as it was. */
  lemma KeysBack(s0: State, t: State, s1: State, s: State, all: multiset<Pin>)
    requires s1.refs == t.refs && s0.refs.Keys <= t.refs.Keys && KeptRefs(s0, s1, s, all, multiset{})
    ensures s.refs.Keys == s0.refs.Keys <==> forall r :: r in t.refs ==> LeftAsWas(s0, t, all, r)
  {
    forall r | r in t.refs ensures LeftAsWas(s0, t, all, r) <==> (r in s.refs <==> r in s0.refs) {
      assert KeptAt(s0, s1, s, all, multiset{}, r);
    }
    hide KeptAt, LeftAsWas;
    if forall r :: r in t.refs ==> LeftAsWas(s0, t, all, r) {
      assert forall r :: r in s.refs <==> r in s0.refs;
    }
  }

  /** Whatever a failed transaction did to the counts is taken back exactly if the sender could tell that its
      objects can be undone, and no stray node was left. */
  lemma RestoredIs(s0: State, t: State, s1: State, s: State, p: Pid, q: Pid, objs: seq<Option<Obj>>, out: seq<Obj>, all: multiset<Pin>,
                   stray: bool, pins0: multiset<Pin>, pins1: multiset<Pin>, pins: multiset<Pin>)
    requires Tallied(s0, t, p, q, objs, out, all, pins0, pins1) && LeftOver(t, s1, stray) && Inv(s0, pins0) && Inv(s, pins)
    requires Kept(s0, s1, s, all, multiset{}) && Grown(s0, s, multiset{}, None)
    ensures |out| <= |objs| && (Restored(s0, s) <==> Undone(s0, p, q, objs, |out|) && !stray)
  {
    hide Inv, Grown, Tally, Sound, Undone, KeptRefs, SameNames;
    TallyParts(s0, t, p, q, objs, out, all);
    hide NamesKept, BornOwn;
    UndoneAll(s0, t, p, q, objs, out, all, pins0, pins1);
    KeysBack(s0, t, s1, s, all);
    hide LeftAsWas;
    if stray {
      var n :| n in s1.nodes && n !in t.nodes && Alone(s1.nodes[n]);
      assert n in s.nodes && n !in s0.nodes;
    } else if s.refs.Keys == s0.refs.Keys {
      hide Restored, Alone;
      GrownBack(s0, s, pins0, pins);
    }
  }

  // ---- a transaction so far ----

  /** The objects `out` translated so far are accounted for, with `extra` asked for and `more` counted since `s0`. */
  ghost predicate Pending(s0: State, s: State, p: Pid, q: Pid, objs: seq<Option<Obj>>, out: seq<Obj>, more: multiset<Pin>,
                          extra: multiset<Pin>, pins0: multiset<Pin>, pins: multiset<Pin>) {
    && Inv(s0, pins0) && Tallied(s0, s, p, q, objs, out, more, pins0, pins)
    && Square(s0, s, extra, more) && KeysFrom(s0, s, p, objs, |out|)
  }

  lemma PendingStep(s0: State, s: State, p: Pid, q: Pid, objs: seq<Option<Obj>>, out: seq<Obj>, more: multiset<Pin>,
                    extra: multiset<Pin>, n: NodeId, r: RefId, pins0: multiset<Pin>, pins: multiset<Pin>)
    requires Pending(s0, s, p, q, objs, out, more, extra, pins0, pins) && Inv(s, pins) && extra <= pins
    requires |out| < |objs| && objs[|out|].Some? && p in s.descs && q in s.descs && n !in s.nodes && r !in s.refs
    ensures var (s', ou) := Translated(s, p, q, objs[|out|].value, n, r);
            if ou.None? then s' == s
            else Pending(s0, s', p, q, objs, out + [ou.value], more + Paid(s, p, q, objs[|out|].value, r, ou),
                         extra + multiset{PinFor(q, ou.value)}, pins0, pins + multiset{PinFor(q, ou.value)})
  {
    hide Inv, Tally, Grown, SameNames, Square, KeysFrom, Sound, Paid, Translated;
    var o := objs[|out|].value;
    var s' := Translated(s, p, q, o, n, r).0;
    var ou := Translated(s, p, q, o, n, r).1;
    TallyStep(s0, s, p, q, objs, out, more, n, r, pins0, pins);
    if ou.Some? {
      TallyParts(s0, s, p, q, objs, out, more);
      TranslatedKeeps(s, p, q, o, n, r, pins);
      InvSound(s', pins + multiset{PinFor(q, ou.value)});
      SquareStep(s0, s, p, q, o, n, r, extra, more, pins);
      SquareLeast(s0, s, extra, more);
      TranslatedGrows(s0, s, more, p, q, o, n, r, pins);
      KeysStep(s0, s, p, q, objs, |out|, n, r, pins);
      NamesOn(s, p, q, objs, out, n, r, pins);
    }
  }

  lemma SquareLeast(s0: State, s: State, extra: multiset<Pin>, more: multiset<Pin>)
    requires Square(s0, s, extra, more)
    ensures more <= extra
  {
  }

  lemma NamesOn(s: State, p: Pid, q: Pid, objs: seq<Option<Obj>>, out: seq<Obj>, n: NodeId, r: RefId, pins: multiset<Pin>)
    requires Inv(s, pins) && SameNames(s, p, q, objs, out) && |out| < |objs| && objs[|out|].Some?
    requires p in s.descs && q in s.descs && n !in s.nodes && r !in s.refs
    ensures var (s', ou) := Translated(s, p, q, objs[|out|].value, n, r);
            ou.Some? ==> SameNames(s', p, q, objs, out + [ou.value])
  {
    hide Inv, Translated, Named, NamesKept;
    TranslatedStable(s, p, q, objs[|out|].value, n, r, pins);
    TranslatedNames(s, p, q, objs[|out|].value, n, r, pins);
    NamesCarry(s, Translated(s, p, q, objs[|out|].value, n, r).0, p, q, objs, out);
  }

  /** The empty transaction. */
  lemma PendingStart(s0: State, s: State, p: Pid, q: Pid, objs: seq<Option<Obj>>, extra: multiset<Pin>, pins0: multiset<Pin>, pins: multiset<Pin>)
    requires Inv(s0, pins0) && Sound(s, pins) && Grown(s0, s, extra, None) && SameWork(s0, s)
    requires forall k: Pin :: k in extra ==> k.NodePin?
    ensures Pending(s0, s, p, q, objs, [], extra, extra, pins0, pins)
  {
    hide Sound, Grown;
    forall r | r in s.refs ensures TallyAt(s0, s, p, q, objs, [], extra, r) {
      assert RefPin(s.refs[r].proc, s.refs[r].desc, true) !in extra && RefPin(s.refs[r].proc, s.refs[r].desc, false) !in extra;
    }
    hide TallyAt;
  }

  // ---- letting go of what was translated ----

  /** A failed transaction: the state before it, the state its objects are let go from, and what was counted. */
  datatype Attempt = Attempt(before: State, failed: State, counted: multiset<Pin>, pinsBefore: multiset<Pin>, pinsFailed: multiset<Pin>)

  ghost predicate TakingBack(a: Attempt, s: State, extra: multiset<Pin>, more: multiset<Pin>) {
    && Inv(a.before, a.pinsBefore) && Sound(a.failed, a.pinsFailed)
    && Undoing(a.before, a.failed, s, extra, a.counted, more)
  }

  lemma TakeBackStep(a: Attempt, s: State, extra: multiset<Pin>, more: multiset<Pin>, q: Pid, o: Obj, bufs: seq<Buf>,
                     log: map<NodeId, seq<Event>>)
    requires TakingBack(a, s, extra, more) && Held(s, bufs, log, extra) && PinFor(q, o) in extra
    ensures TakingBack(a, Released(s, q, o), extra - multiset{PinFor(q, o)}, more - multiset{PinFor(q, o)})
  {
    hide Inv, Sound, Undoing, TargetsOk, LogsOk, Released;
    UndoStep(a.before, a.failed, s, extra, a.counted, more, q, o, a.pinsBefore, a.pinsFailed, AllPins(bufs) + extra);
  }

  lemma TakenBack(a: Attempt, s: State, more: multiset<Pin>)
    requires TakingBack(a, s, multiset{}, more)
    ensures more == multiset{}
  {
    hide Inv, Sound, Grown, Kept;
    assert more <= multiset{};
  }
}
