/** Which transactions fail, and at which object: the sender can tell from what it sends. */
module Outcomes {
  import opened Wrappers
  import opened Store
  import opened Counts
  import opened Owners
  import opened Rollback
  import opened Transfers
  import opened Undo
  import opened Tallies

  /** An object before object `k` has the receiver handed a reference to the same node. */
  ghost predicate EarlierFor(s: State, p: Pid, q: Pid, objs: seq<Option<Obj>>, k: nat)
    requires k < |objs| && objs[k].Some?
  {
    exists j :: 0 <= j < k && objs[j].Some? && PassedOn(s, p, q, objs[j].value) && Alike(s, p, objs[k].value, objs[j].value)
  }

  /** Object `k` takes a new reference of the receiver's. */
  ghost predicate Makes(s: State, p: Pid, q: Pid, objs: seq<Option<Obj>>, k: nat)
    requires k < |objs| && objs[k].Some?
  {
    PassedOn(s, p, q, objs[k].value) && HeldFor(s, p, q, objs[k].value).None? && !EarlierFor(s, p, q, objs, k)
  }

  /** Where the search for a descriptor starts for the node the object names. */
  ghost function StartOf(s: State, p: Pid, o: Obj): nat {
    if s.manager.Some? && Named(s, p, o) == s.manager then 0 else 1
  }

  /** The receiver's descriptors once the first `k` objects are translated. */
  ghost function DescsAfter(s: State, p: Pid, q: Pid, objs: seq<Option<Obj>>, k: nat): seq<nat>
    requires k <= |objs| && q in s.descs
  {
    if k == 0 then s.descs[q]
    else
      var ds := DescsAfter(s, p, q, objs, k - 1);
      if objs[k - 1].Some? && Makes(s, p, q, objs, k - 1)
      then Inserted(ds, FirstFree(ds, StartOf(s, p, objs[k - 1].value))) else ds
  }

  /** The sender has this descriptor when its turn comes. A process that sends to itself also has those the
      objects before brought it. */
  ghost predicate Known(s: State, p: Pid, q: Pid, objs: seq<Option<Obj>>, k: nat, desc: nat)
    requires k <= |objs| && p in s.descs && q in s.descs
  {
    desc in if p == q then DescsAfter(s, p, q, objs, k) else s.descs[p]
  }

  /** The cookie is not that of the node at this address, or not the one it was first sent with. */
  ghost predicate CookieDiffers(s: State, p: Pid, objs: seq<Option<Obj>>, k: nat, ptr: Ptr, cookie: nat)
    requires k <= |objs|
  {
    || (NodeKey(p, ptr) in s.nodeAt && s.nodeAt[NodeKey(p, ptr)] in s.nodes && s.nodes[s.nodeAt[NodeKey(p, ptr)]].cookie != cookie)
    || exists j :: 0 <= j < k && objs[j].Some? && objs[j].value.Binder? && objs[j].value.ptr == ptr && objs[j].value.cookie != cookie
  }

  /** Object `k` cannot be translated, those before it being fine: it is none at all, its cookie is wrong, its
      descriptor is unknown, or there is no memory for a node or reference it needs. */
  ghost predicate FailsAt(s: State, p: Pid, q: Pid, objs: seq<Option<Obj>>, memory: seq<Memory>, k: nat)
    requires k < |objs| == |memory| && p in s.descs && q in s.descs
  {
    match objs[k]
    case None => true
    case Some(Binder(ptr, cookie, _)) =>
      || CookieDiffers(s, p, objs, k, ptr, cookie)
      || (NodeKey(p, ptr) !in s.nodeAt && !SentBinder(objs, k, ptr) && memory[k] == NoNode)
      || (Makes(s, p, q, objs, k) && memory[k] == NoRef)
    case Some(Handle(desc, _)) =>
      !Known(s, p, q, objs, k, desc) || (Makes(s, p, q, objs, k) && memory[k] == NoRef)
  }

  // ---- what the sender foresees ----

  ghost predicate CookiesOk(s: State, p: Pid, objs: seq<Option<Obj>>, k: nat)
    requires k <= |objs|
  {
    forall i :: 0 <= i < k && objs[i].Some? && objs[i].value.Binder? ==>
      && NodeKey(p, objs[i].value.ptr) in s.nodeAt && s.nodeAt[NodeKey(p, objs[i].value.ptr)] in s.nodes
      && s.nodes[s.nodeAt[NodeKey(p, objs[i].value.ptr)]].cookie == objs[i].value.cookie
  }

  ghost predicate DescsAs(s0: State, s: State, p: Pid, q: Pid, objs: seq<Option<Obj>>, k: nat)
    requires k <= |objs|
  {
    && q in s0.descs && s.descs.Keys == s0.descs.Keys && s.descs[q] == DescsAfter(s0, p, q, objs, k)
    && forall x :: x in s0.descs && x != q ==> s.descs[x] == s0.descs[x]
  }

  /** After `k` objects, descriptors and cookies are as the sender foresees. */
  ghost predicate Foreseen(s0: State, s: State, p: Pid, q: Pid, objs: seq<Option<Obj>>, k: nat) {
    k <= |objs| && CookiesOk(s, p, objs, k) && DescsAs(s0, s, p, q, objs, k)
  }

  lemma ForeseenStart(s0: State, s: State, p: Pid, q: Pid, objs: seq<Option<Obj>>)
    requires q in s0.descs && s.descs == s0.descs
    ensures Foreseen(s0, s, p, q, objs, 0)
  {
  }

  /** An object that is passed on takes a new reference just if the receiver has none by then. */
  lemma MakesIs(s0: State, s: State, p: Pid, q: Pid, objs: seq<Option<Obj>>, out: seq<Obj>, all: multiset<Pin>,
                pins0: multiset<Pin>, pins: multiset<Pin>, m: NodeId)
    requires Tallied(s0, s, p, q, objs, out, all, pins0, pins) && |out| < |objs| && objs[|out|].Some?
    requires PassedOn(s0, p, q, objs[|out|].value) && Named(s, p, objs[|out|].value) == Some(m)
    ensures Makes(s0, p, q, objs, |out|) <==> ForKey(q, m) !in s.refFor
  {
    if ForKey(q, m) in s.refFor {
      HasFor(s0, s, p, q, objs, out, all, pins0, pins, m);
    }
    if HeldFor(s0, p, q, objs[|out|].value).Some? {
      HeldThen(s0, s, p, q, objs, out, all, pins0, pins, m);
    }
    if EarlierFor(s0, p, q, objs, |out|) {
      EarlierHas(s0, s, p, q, objs, out, all, pins0, pins, m);
    }
  }

  /** Objects of which the second was translated name the same node before just if they do now. */
  lemma AlikeNow(s0: State, s: State, p: Pid, q: Pid, all: multiset<Pin>, a: Obj, b: Obj, pins0: multiset<Pin>, pins: multiset<Pin>)
    requires Sound(s0, pins0) && Sound(s, pins) && Grown(s0, s, all, None) && NamesKept(s0, s) && BornOwn(s0, s, p, q)
    requires s0.nodes.Keys <= s.nodes.Keys && PassedOn(s0, p, q, a) && PassedOn(s0, p, q, b)
    requires Named(s, p, a).Some? && Named(s, p, b).Some?
    ensures Alike(s0, p, a, b) <==> Named(s, p, a) == Named(s, p, b)
  {
    hide Sound, Grown, PassedOn, Named, NamesKept, BornOwn;
    NamedBefore(s0, s, p, q, all, a, pins0, pins);
    NamedBefore(s0, s, p, q, all, b, pins0, pins);
    if a.Binder? && b.Binder? {
      OneName(s, p, a, b, pins);
    }
  }

  lemma HasFor(s0: State, s: State, p: Pid, q: Pid, objs: seq<Option<Obj>>, out: seq<Obj>, all: multiset<Pin>,
               pins0: multiset<Pin>, pins: multiset<Pin>, m: NodeId)
    requires Tallied(s0, s, p, q, objs, out, all, pins0, pins) && |out| < |objs| && objs[|out|].Some?
    requires PassedOn(s0, p, q, objs[|out|].value) && Named(s, p, objs[|out|].value) == Some(m) && ForKey(q, m) in s.refFor
    ensures HeldFor(s0, p, q, objs[|out|].value).Some? || EarlierFor(s0, p, q, objs, |out|)
  {
    hide Sound, Grown, QueuedFor, PinsAsked, PassedOn, Named, NamesKept, SameNames, BornOwn, Alike, HitBy, Base, PinsOn;
    var o := objs[|out|].value;
    ForThere(s, q, m, pins);
    var r := s.refFor[ForKey(q, m)];
    NamedBefore(s0, s, p, q, all, o, pins0, pins);
    if r in s0.refs {
      SameRef(s0, s, all, r);
      RefHere(s0, r, pins0);
      OneFor(s0, r, pins0);
    } else {
      assert TallyAt(s0, s, p, q, objs, out, all, r);
      var i :| 0 <= i < |out| && out[i].Handle? && out[i].desc == s.refs[r].desc;
      var a := GotFor(s0, s, p, q, objs, out, all, pins0, pins, i);
      OneDesc(s, a, r, pins);
      AlikeNow(s0, s, p, q, all, o, objs[i].value, pins0, pins);
    }
  }

  lemma HeldThen(s0: State, s: State, p: Pid, q: Pid, objs: seq<Option<Obj>>, out: seq<Obj>, all: multiset<Pin>,
                 pins0: multiset<Pin>, pins: multiset<Pin>, m: NodeId)
    requires Tallied(s0, s, p, q, objs, out, all, pins0, pins) && |out| < |objs| && objs[|out|].Some?
    requires PassedOn(s0, p, q, objs[|out|].value) && Named(s, p, objs[|out|].value) == Some(m)
    requires HeldFor(s0, p, q, objs[|out|].value).Some?
    ensures ForKey(q, m) in s.refFor
  {
    hide Sound, Grown, QueuedFor, PinsAsked, PassedOn, Named, NamesKept, SameNames, BornOwn, TallyAt, KindsOk;
    var o := objs[|out|].value;
    NamedBefore(s0, s, p, q, all, o, pins0, pins);
    ForThere(s0, q, m, pins0);
    var a := s0.refFor[ForKey(q, m)];
    SameRef(s0, s, all, a);
    OneFor(s, a, pins);
  }

  lemma EarlierHas(s0: State, s: State, p: Pid, q: Pid, objs: seq<Option<Obj>>, out: seq<Obj>, all: multiset<Pin>,
                   pins0: multiset<Pin>, pins: multiset<Pin>, m: NodeId)
    requires Tallied(s0, s, p, q, objs, out, all, pins0, pins) && |out| < |objs| && objs[|out|].Some?
    requires PassedOn(s0, p, q, objs[|out|].value) && Named(s, p, objs[|out|].value) == Some(m)
    requires EarlierFor(s0, p, q, objs, |out|)
    ensures ForKey(q, m) in s.refFor
  {
    hide Sound, Grown, QueuedFor, PinsAsked, PassedOn, Named, NamesKept, SameNames, BornOwn, TallyAt, Alike;
    var o := objs[|out|].value;
    var j :| 0 <= j < |out| && objs[j].Some? && PassedOn(s0, p, q, objs[j].value) && Alike(s0, p, o, objs[j].value);
    var a := GotFor(s0, s, p, q, objs, out, all, pins0, pins, j);
    AlikeNow(s0, s, p, q, all, o, objs[j].value, pins0, pins);
    OneFor(s, a, pins);
  }

  /** A node that is yet to come takes a new reference. */
  lemma MakesNew(s0: State, p: Pid, q: Pid, objs: seq<Option<Obj>>, k: nat)
    requires k < |objs| && objs[k].Some? && objs[k].value.Binder?
    requires NodeKey(p, objs[k].value.ptr) !in s0.nodeAt && !SentBinder(objs, k, objs[k].value.ptr)
    ensures Makes(s0, p, q, objs, k)
  {
  }

  /** Exactly the pins `extra` came on top of `s0`, but for counts that were refused. */
  ghost predicate Added(s0: State, s: State, extra: multiset<Pin>) {
    exists more: multiset<Pin> :: Grown(s0, s, more, None) && Square(s0, s, extra, more)
  }

  lemma AddedIs(s0: State, s: State, p: Pid, q: Pid, objs: seq<Option<Obj>>, out: seq<Obj>, more: multiset<Pin>,
                extra: multiset<Pin>, pins0: multiset<Pin>, pins: multiset<Pin>)
    requires Pending(s0, s, p, q, objs, out, more, extra, pins0, pins)
    ensures Added(s0, s, extra)
  {
    hide Grown, Square, Tally, Sound, Inv, SameNames, KeysFrom;
  }

  // ---- one object ----

  /** An object is refused for its cookie or its descriptor, and for nothing else. */
  ghost predicate RefusedFor(s: State, p: Pid, o: Obj) {
    match o
    case Binder(ptr, cookie, _) =>
      NodeKey(p, ptr) in s.nodeAt && s.nodeAt[NodeKey(p, ptr)] in s.nodes && s.nodes[s.nodeAt[NodeKey(p, ptr)]].cookie != cookie
    case Handle(desc, _) => DescKey(p, desc) !in s.refAt
  }

  lemma TranslatedNone(s: State, p: Pid, q: Pid, o: Obj, n: NodeId, r: RefId, pins: multiset<Pin>)
    requires Inv(s, pins) && p in s.descs && q in s.descs && n !in s.nodes && r !in s.refs
    ensures Translated(s, p, q, o, n, r).1.None? <==> RefusedFor(s, p, o)
  {
    hide Sound, Linked, RefTo, WithPin, ListOk, LocalOk, NodeOk, FlagsOk, Incremented;
    match o
    case Binder(ptr, cookie, strong) =>
      if NodeKey(p, ptr) in s.nodeAt {
        KeyHere(s, p, ptr, pins);
        LinkedIs(s, q, s.nodeAt[NodeKey(p, ptr)], r, pins);
      } else {
        NewNodeKeeps(s, p, ptr, cookie, n, pins);
        LinkedIs(NewNode(s, p, ptr, cookie, n), q, n, r, pins);
      }
    case Handle(desc, strong) =>
      if DescKey(p, desc) in s.refAt {
        DescHere(s, p, desc, pins);
        RefHere(s, s.refAt[DescKey(p, desc)], pins);
        LinkedIs(s, q, s.refs[s.refAt[DescKey(p, desc)]].node, r, pins);
      }
  }

  /** A cookie that was right before is right now. */
  lemma CookieIs(s0: State, s: State, p: Pid, q: Pid, objs: seq<Option<Obj>>, out: seq<Obj>, all: multiset<Pin>,
                 pins0: multiset<Pin>, pins: multiset<Pin>, ptr: Ptr, cookie: nat)
    requires Tallied(s0, s, p, q, objs, out, all, pins0, pins) && CookiesOk(s, p, objs, |out|) && KeysFrom(s0, s, p, objs, |out|)
    ensures RefusedFor(s, p, Binder(ptr, cookie, true)) <==> CookieDiffers(s0, p, objs, |out|, ptr, cookie)
  {
    hide Sound, Grown, QueuedFor, PinsAsked, TallyAt, KindsOk, BornOwn, SameNames;
    if NodeKey(p, ptr) in s.nodeAt {
      KeyHere(s, p, ptr, pins);
      if NodeKey(p, ptr) in s0.nodeAt {
        KeyHere(s0, p, ptr, pins0);
        SameCookie(s0, s, all, s.nodeAt[NodeKey(p, ptr)]);
      }
    }
  }

  lemma SameCookie(s0: State, s: State, all: multiset<Pin>, m: NodeId)
    requires Grown(s0, s, all, None) && m in s0.nodes && m in s.nodes
    ensures s.nodes[m].cookie == s0.nodes[m].cookie
  {
    assert NodeGrown(s0.nodes[m], s.nodes[m], all);
  }

  lemma KnownIs(s0: State, s: State, p: Pid, q: Pid, objs: seq<Option<Obj>>, k: nat, pins: multiset<Pin>, desc: nat)
    requires Sound(s, pins) && k <= |objs| && DescsAs(s0, s, p, q, objs, k) && p in s0.descs
    ensures Known(s0, p, q, objs, k, desc) <==> DescKey(p, desc) in s.refAt
  {
    hide NodesOk, RefsOk, ManagerOk, PinsOk, DescsAfter;
    assert DescsOk(s, p);
  }

  /** Object `k` fails as the sender could tell. */
  lemma OutcomeIs(s0: State, s: State, p: Pid, q: Pid, objs: seq<Option<Obj>>, out: seq<Obj>, all: multiset<Pin>, extra: multiset<Pin>,
                  memory: seq<Memory>, n: NodeId, r: RefId, pins0: multiset<Pin>, pins: multiset<Pin>)
    requires Pending(s0, s, p, q, objs, out, all, extra, pins0, pins) && Inv(s, pins) && Foreseen(s0, s, p, q, objs, |out|)
    requires |out| < |objs| == |memory| && objs[|out|].Some? && p in s0.descs && n !in s.nodes && r !in s.refs
    requires p in s.descs && q in s.descs
    ensures q in s0.descs
    ensures (Starved(s, p, q, objs[|out|].value, memory[|out|]) || Translated(s, p, q, objs[|out|].value, n, r).1.None?)
            <==> FailsAt(s0, p, q, objs, memory, |out|)
  {
    hide Inv, Tally, Grown, SameNames, Square, KeysFrom, Sound, Translated, CookiesOk, DescsAs;
    var o := objs[|out|].value;
    TranslatedNone(s, p, q, o, n, r, pins);
    DescsThere(s0, s, p, q, objs, |out|);
    match o
    case Binder(ptr, cookie, strong) => BinderOutcome(s0, s, p, q, objs, out, all, memory, pins0, pins);
    case Handle(desc, strong) => HandleOutcome(s0, s, p, q, objs, out, all, memory, pins0, pins);
  }

  lemma DescsThere(s0: State, s: State, p: Pid, q: Pid, objs: seq<Option<Obj>>, k: nat)
    requires k <= |objs| && DescsAs(s0, s, p, q, objs, k)
    ensures q in s0.descs && s.descs.Keys == s0.descs.Keys
  {
  }

  lemma BinderOutcome(s0: State, s: State, p: Pid, q: Pid, objs: seq<Option<Obj>>, out: seq<Obj>, all: multiset<Pin>,
                      memory: seq<Memory>, pins0: multiset<Pin>, pins: multiset<Pin>)
    requires Tallied(s0, s, p, q, objs, out, all, pins0, pins) && CookiesOk(s, p, objs, |out|) && KeysFrom(s0, s, p, objs, |out|)
    requires |out| < |objs| == |memory| && objs[|out|].Some? && objs[|out|].value.Binder? && p in s0.descs && q in s0.descs
    ensures (Starved(s, p, q, objs[|out|].value, memory[|out|]) || RefusedFor(s, p, objs[|out|].value))
            <==> FailsAt(s0, p, q, objs, memory, |out|)
  {
    hide Grown, SameNames, Tally, KeysFrom, CookiesOk, Sound, Makes, CookieDiffers, SentBinder;
    var o := objs[|out|].value;
    TallyParts(s0, s, p, q, objs, out, all);
    hide NamesKept;
    KeyIs(s0, s, p, q, objs, out, o.ptr);
    CookieIs(s0, s, p, q, objs, out, all, pins0, pins, o.ptr, o.cookie);
    if NodeKey(p, o.ptr) in s.nodeAt {
      KeyHere(s, p, o.ptr, pins);
      MakesIs(s0, s, p, q, objs, out, all, pins0, pins, s.nodeAt[NodeKey(p, o.ptr)]);
    } else {
      MakesNew(s0, p, q, objs, |out|);
    }
  }

  lemma HandleOutcome(s0: State, s: State, p: Pid, q: Pid, objs: seq<Option<Obj>>, out: seq<Obj>, all: multiset<Pin>,
                      memory: seq<Memory>, pins0: multiset<Pin>, pins: multiset<Pin>)
    requires Tallied(s0, s, p, q, objs, out, all, pins0, pins) && DescsAs(s0, s, p, q, objs, |out|)
    requires |out| < |objs| == |memory| && objs[|out|].Some? && objs[|out|].value.Handle? && p in s0.descs && q in s0.descs
    ensures (Starved(s, p, q, objs[|out|].value, memory[|out|]) || RefusedFor(s, p, objs[|out|].value))
            <==> FailsAt(s0, p, q, objs, memory, |out|)
  {
    hide Grown, SameNames, Tally, Sound, Makes, Known;
    var o := objs[|out|].value;
    TallyParts(s0, s, p, q, objs, out, all);
    KnownIs(s0, s, p, q, objs, |out|, pins, o.desc);
    hide NamesKept, DescsAs, BornOwn;
    if DescKey(p, o.desc) in s.refAt {
      DescHere(s, p, o.desc, pins);
      NamedThen(s0, s, all, p, q, o, pins0, pins);
      if PassedOn(s0, p, q, o) {
        MakesIs(s0, s, p, q, objs, out, all, pins0, pins, Named(s, p, o).value);
      }
      MakesPassed(s0, p, q, objs, |out|);
    }
  }

  lemma MakesPassed(s0: State, p: Pid, q: Pid, objs: seq<Option<Obj>>, k: nat)
    requires k < |objs| && objs[k].Some?
    ensures Makes(s0, p, q, objs, k) ==> PassedOn(s0, p, q, objs[k].value)
  {
  }

  // ---- the next object ----

  /** No address came to mean another node, and no node got another cookie. */
  ghost predicate CookiesKept(s: State, s': State) {
    forall k :: k in s.nodeAt && s.nodeAt[k] in s.nodes ==>
      k in s'.nodeAt && s'.nodeAt[k] == s.nodeAt[k] && s.nodeAt[k] in s'.nodes && s'.nodes[s.nodeAt[k]].cookie == s.nodes[s.nodeAt[k]].cookie
  }

  lemma CookiesCarry(s: State, s': State, p: Pid, objs: seq<Option<Obj>>, k: nat)
    requires k <= |objs| && CookiesOk(s, p, objs, k) && CookiesKept(s, s')
    ensures CookiesOk(s', p, objs, k)
  {
  }

  lemma PinCookies(s: State, q: Pid, m: NodeId, r: RefId, strong: bool, list: bool, pins: multiset<Pin>)
    requires Sound(s, pins) && q in s.descs && m in s.nodes && r !in s.refs
    ensures CookiesKept(s, WithPin(s, q, m, r, strong, list)) && WithPin(s, q, m, r, strong, list).nodeAt == s.nodeAt
  {
    hide Sound, WithPin;
    WithPinNodes(s, q, m, r, strong, list, pins);
    LinkKeys(s, q, m, r, strong, list);
  }

  /** What the new reference, if there is one, does to the descriptors. */
  lemma PinDescsAs(s: State, q: Pid, m: NodeId, r: RefId, strong: bool, list: bool, pins: multiset<Pin>)
    requires Sound(s, pins) && q in s.descs && m in s.nodes && r !in s.refs
    ensures WithPin(s, q, m, r, strong, list).descs ==
              if ForKey(q, m) in s.refFor then s.descs else s.descs[q := Inserted(s.descs[q], FirstFree(s.descs[q], StartFor(s, m)))]
  {
    hide Sound, Inserted, FirstFree;
    LinkedIs(s, q, m, r, pins);
    IncRefAt(Linked(s, q, m, r), RefTo(s, q, m, r), strong, list);
    hide IncRef;
  }

  /** What translating an object does to cookies and descriptors. */
  ghost predicate Carries(s: State, s': State, q: Pid, m: NodeId, passed: bool)
    requires q in s.descs
  {
    && CookiesKept(s, s')
    && s'.descs == if passed && ForKey(q, m) !in s.refFor then s.descs[q := Inserted(s.descs[q], FirstFree(s.descs[q], StartFor(s, m)))]
                   else s.descs
  }

  lemma NewCookies(s: State, p: Pid, ptr: Ptr, cookie: nat, n: NodeId, pins: multiset<Pin>)
    requires Sound(s, pins) && n !in s.nodes && NodeKey(p, ptr) !in s.nodeAt
    ensures CookiesKept(s, NewNode(s, p, ptr, cookie, n))
    ensures NewNode(s, p, ptr, cookie, n).descs == s.descs && NewNode(s, p, ptr, cookie, n).refFor == s.refFor
    ensures StartFor(NewNode(s, p, ptr, cookie, n), n) == StartFor(s, n)
  {
    hide Sound;
  }

  lemma CookiesOver(a: State, b: State, c: State)
    requires CookiesKept(a, b) && CookiesKept(b, c)
    ensures CookiesKept(a, c)
  {
  }

  lemma BinderCarries(s: State, p: Pid, q: Pid, ptr: Ptr, cookie: nat, strong: bool, n: NodeId, r: RefId, pins: multiset<Pin>)
    requires Inv(s, pins) && p in s.descs && q in s.descs && n !in s.nodes && r !in s.refs
    requires !RefusedFor(s, p, Binder(ptr, cookie, strong))
    ensures var s' := Translated(s, p, q, Binder(ptr, cookie, strong), n, r).0;
            && Carries(s, s', q, if NodeKey(p, ptr) in s.nodeAt then s.nodeAt[NodeKey(p, ptr)] else n, true)
            && NodeKey(p, ptr) in s'.nodeAt && s'.nodeAt[NodeKey(p, ptr)] in s'.nodes
            && s'.nodes[s'.nodeAt[NodeKey(p, ptr)]].cookie == cookie
  {
    hide Sound, Linked, RefTo, WithPin, Inserted, FirstFree;
    var s1, m := s, n;
    if NodeKey(p, ptr) in s.nodeAt {
      KeyHere(s, p, ptr, pins);
      m := s.nodeAt[NodeKey(p, ptr)];
    } else {
      NewNodeKeeps(s, p, ptr, cookie, n, pins);
      s1 := NewNode(s, p, ptr, cookie, n);
      NewCookies(s, p, ptr, cookie, n, pins);
    }
    LinkedIs(s1, q, m, r, pins);
    PinCookies(s1, q, m, r, strong, true, pins);
    PinDescsAs(s1, q, m, r, strong, true, pins);
    if NodeKey(p, ptr) !in s.nodeAt {
      CookiesOver(s, s1, WithPin(s1, q, m, r, strong, true));
    }
  }

  lemma HandleCarries(s: State, p: Pid, q: Pid, desc: nat, strong: bool, n: NodeId, r: RefId, pins: multiset<Pin>)
    requires Inv(s, pins) && p in s.descs && q in s.descs && n !in s.nodes && r !in s.refs
    requires !RefusedFor(s, p, Handle(desc, strong))
    ensures Named(s, p, Handle(desc, strong)).Some? && Named(s, p, Handle(desc, strong)).value in s.nodes
    ensures var m := Named(s, p, Handle(desc, strong)).value;
            Carries(s, Translated(s, p, q, Handle(desc, strong), n, r).0, q, m, s.nodes[m].proc != Some(q))
  {
    hide Sound, Linked, RefTo, WithPin, Inserted, FirstFree, ListOk, LocalOk, NodeOk, FlagsOk;
    DescHere(s, p, desc, pins);
    RefHere(s, s.refAt[DescKey(p, desc)], pins);
    var m := s.refs[s.refAt[DescKey(p, desc)]].node;
    LinkedIs(s, q, m, r, pins);
    PinCookies(s, q, m, r, strong, false, pins);
    PinDescsAs(s, q, m, r, strong, false, pins);
    IncrementedSame(s, m, strong, false);
    hide Incremented;
  }

  /** The search for a descriptor starts where the sender foresees. */
  lemma StartIs(s0: State, s: State, p: Pid, q: Pid, all: multiset<Pin>, o: Obj, m: NodeId, pins0: multiset<Pin>, pins: multiset<Pin>)
    requires Sound(s0, pins0) && Sound(s, pins) && Grown(s0, s, all, None) && NamesKept(s0, s) && BornOwn(s0, s, p, q)
    requires s0.nodes.Keys <= s.nodes.Keys && PassedOn(s0, p, q, o) && Named(s, p, o) == Some(m)
    ensures StartFor(s, m) == StartOf(s0, p, o)
  {
    hide Sound, Grown, NamesKept, BornOwn, PassedOn, Named;
    NamedBefore(s0, s, p, q, all, o, pins0, pins);
    ManagerIn(s0, pins0);
    SameManager(s0, s, all);
  }

  lemma ManagerIn(s: State, pins: multiset<Pin>)
    requires Sound(s, pins)
    ensures s.manager.Some? ==> s.manager.value in s.nodes
  {
    hide NodesOk, KeysOk, RefsOk, PinsOk;
  }

  lemma SameManager(s0: State, s: State, all: multiset<Pin>)
    requires Grown(s0, s, all, None)
    ensures s.manager == s0.manager
  {
    hide NodesGrown, RefsGrown;
  }

  lemma DescsNext(s0: State, s: State, s': State, p: Pid, q: Pid, objs: seq<Option<Obj>>, k: nat)
    requires k < |objs| && objs[k].Some? && DescsAs(s0, s, p, q, objs, k)
    requires s'.descs == if Makes(s0, p, q, objs, k)
                         then s.descs[q := Inserted(s.descs[q], FirstFree(s.descs[q], StartOf(s0, p, objs[k].value)))] else s.descs
    ensures DescsAs(s0, s', p, q, objs, k + 1)
  {
    hide Makes, Inserted, FirstFree;
  }

  lemma ForeseenStep(s0: State, s: State, p: Pid, q: Pid, objs: seq<Option<Obj>>, out: seq<Obj>, all: multiset<Pin>, extra: multiset<Pin>,
                     n: NodeId, r: RefId, pins0: multiset<Pin>, pins: multiset<Pin>)
    requires Pending(s0, s, p, q, objs, out, all, extra, pins0, pins) && Inv(s, pins) && Foreseen(s0, s, p, q, objs, |out|)
    requires |out| < |objs| && objs[|out|].Some? && p in s.descs && q in s.descs && n !in s.nodes && r !in s.refs
    requires !RefusedFor(s, p, objs[|out|].value)
    ensures Foreseen(s0, Translated(s, p, q, objs[|out|].value, n, r).0, p, q, objs, |out| + 1)
  {
    hide Inv, Tally, Grown, SameNames, Square, Sound, Translated, KeysFrom;
    match objs[|out|].value
    case Binder(ptr, cookie, strong) => BinderForeseen(s0, s, p, q, objs, out, all, ptr, cookie, strong, n, r, pins0, pins);
    case Handle(desc, strong) => HandleForeseen(s0, s, p, q, objs, out, all, desc, strong, n, r, pins0, pins);
  }

  lemma BinderForeseen(s0: State, s: State, p: Pid, q: Pid, objs: seq<Option<Obj>>, out: seq<Obj>, all: multiset<Pin>,
                       ptr: Ptr, cookie: nat, strong: bool, n: NodeId, r: RefId, pins0: multiset<Pin>, pins: multiset<Pin>)
    requires Tallied(s0, s, p, q, objs, out, all, pins0, pins) && Inv(s, pins) && Foreseen(s0, s, p, q, objs, |out|)
    requires KeysFrom(s0, s, p, objs, |out|)
    requires |out| < |objs| && objs[|out|] == Some(Binder(ptr, cookie, strong)) && p in s.descs && q in s.descs
    requires n !in s.nodes && r !in s.refs && !RefusedFor(s, p, Binder(ptr, cookie, strong))
    ensures Foreseen(s0, Translated(s, p, q, Binder(ptr, cookie, strong), n, r).0, p, q, objs, |out| + 1)
  {
    hide Inv, Tally, Grown, SameNames, Sound, Translated, KeysFrom, DescsAs, CookiesOk, Makes, RefusedFor, CookiesKept, StartFor, Inserted, FirstFree;
    var o := objs[|out|].value;
    var s' := Translated(s, p, q, o, n, r).0;
    BinderCarries(s, p, q, ptr, cookie, strong, n, r, pins);
    CookiesCarry(s, s', p, objs, |out|);
    CookieMore(s', p, objs, |out|);
    TallyParts(s0, s, p, q, objs, out, all);
    if NodeKey(p, ptr) in s.nodeAt {
      MakesIs(s0, s, p, q, objs, out, all, pins0, pins, s.nodeAt[NodeKey(p, ptr)]);
      StartIs(s0, s, p, q, all, o, s.nodeAt[NodeKey(p, ptr)], pins0, pins);
    } else {
      KeyIs(s0, s, p, q, objs, out, ptr);
      MakesNew(s0, p, q, objs, |out|);
      NoRefTo(s, q, n, pins);
      StartNew(s0, s, p, all, o, n, pins);
    }
    DescsNext(s0, s, s', p, q, objs, |out|);
  }

  lemma StartNew(s0: State, s: State, p: Pid, all: multiset<Pin>, o: Obj, n: NodeId, pins: multiset<Pin>)
    requires Sound(s, pins) && Grown(s0, s, all, None) && n !in s.nodes && o.Binder? && NodeKey(p, o.ptr) !in s0.nodeAt
    ensures StartFor(s, n) == 1 == StartOf(s0, p, o)
  {
    hide NodesOk, KeysOk, RefsOk, PinsOk, NodesGrown, RefsGrown;
  }

  lemma CookieMore(s: State, p: Pid, objs: seq<Option<Obj>>, k: nat)
    requires k < |objs| && CookiesOk(s, p, objs, k)
    requires objs[k].Some? && objs[k].value.Binder? ==>
               NodeKey(p, objs[k].value.ptr) in s.nodeAt && s.nodeAt[NodeKey(p, objs[k].value.ptr)] in s.nodes
               && s.nodes[s.nodeAt[NodeKey(p, objs[k].value.ptr)]].cookie == objs[k].value.cookie
    ensures CookiesOk(s, p, objs, k + 1)
  {
  }

  lemma HandleForeseen(s0: State, s: State, p: Pid, q: Pid, objs: seq<Option<Obj>>, out: seq<Obj>, all: multiset<Pin>,
                       desc: nat, strong: bool, n: NodeId, r: RefId, pins0: multiset<Pin>, pins: multiset<Pin>)
    requires Tallied(s0, s, p, q, objs, out, all, pins0, pins) && Inv(s, pins) && Foreseen(s0, s, p, q, objs, |out|)
    requires |out| < |objs| && objs[|out|] == Some(Handle(desc, strong)) && p in s.descs && q in s.descs
    requires n !in s.nodes && r !in s.refs && !RefusedFor(s, p, Handle(desc, strong))
    ensures Foreseen(s0, Translated(s, p, q, Handle(desc, strong), n, r).0, p, q, objs, |out| + 1)
  {
    hide Inv, Tally, Grown, SameNames, Sound, Translated, DescsAs, CookiesOk, Makes, RefusedFor, CookiesKept, StartFor, Inserted, FirstFree;
    var o := objs[|out|].value;
    var s' := Translated(s, p, q, o, n, r).0;
    HandleCarries(s, p, q, desc, strong, n, r, pins);
    CookiesCarry(s, s', p, objs, |out|);
    CookieMore(s', p, objs, |out|);
    TallyParts(s0, s, p, q, objs, out, all);
    hide NamesKept, BornOwn;
    NamedThen(s0, s, all, p, q, o, pins0, pins);
    var m := Named(s, p, o).value;
    MakesPassed(s0, p, q, objs, |out|);
    if PassedOn(s0, p, q, o) {
      MakesIs(s0, s, p, q, objs, out, all, pins0, pins, m);
      StartIs(s0, s, p, q, all, o, m, pins0, pins);
    }
    DescsNext(s0, s, s', p, q, objs, |out|);
  }

  // ---- what the receiver gets ----

  /** A node the receiver gets back comes with its own cookie. */
  ghost predicate CookiesGot(s: State, q: Pid, out: seq<Obj>) {
    forall i :: 0 <= i < |out| && out[i].Binder? ==> CookieGot(s, q, out[i])
  }

  ghost predicate CookieGot(s: State, q: Pid, o: Obj)
    requires o.Binder?
  {
    NodeKey(q, o.ptr) in s.nodeAt && s.nodeAt[NodeKey(q, o.ptr)] in s.nodes && s.nodes[s.nodeAt[NodeKey(q, o.ptr)]].cookie == o.cookie
  }

  lemma GotStep(s: State, p: Pid, q: Pid, o: Obj, n: NodeId, r: RefId, pins: multiset<Pin>, out: seq<Obj>)
    requires Inv(s, pins) && p in s.descs && q in s.descs && n !in s.nodes && r !in s.refs && CookiesGot(s, q, out)
    requires !RefusedFor(s, p, o)
    ensures var (s', o') := Translated(s, p, q, o, n, r); o'.Some? && CookiesGot(s', q, out + [o'.value])
  {
    hide Inv, Translated, CookieGot, RefusedFor;
    TranslatedNone(s, p, q, o, n, r, pins);
    var s', o' := Translated(s, p, q, o, n, r).0, Translated(s, p, q, o, n, r).1;
    match o {
      case Binder(ptr, cookie, strong) => BinderCarries(s, p, q, ptr, cookie, strong, n, r, pins);
      case Handle(desc, strong) => HandleCarries(s, p, q, desc, strong, n, r, pins);
    }
    forall i | 0 <= i < |out| && out[i].Binder? ensures CookieGot(s', q, out[i]) {
      GotKept(s, s', q, out[i]);
    }
    LastGot(s, p, q, o, n, r, pins);
  }

  lemma GotKept(s: State, s': State, q: Pid, o: Obj)
    requires o.Binder? && CookieGot(s, q, o) && CookiesKept(s, s')
    ensures CookieGot(s', q, o)
  {
  }

  lemma LastGot(s: State, p: Pid, q: Pid, o: Obj, n: NodeId, r: RefId, pins: multiset<Pin>)
    requires Inv(s, pins) && p in s.descs && q in s.descs && !RefusedFor(s, p, o) && n !in s.nodes && r !in s.refs
    ensures var (s', o') := Translated(s, p, q, o, n, r); o'.Some? && o'.value.Binder? ==> CookieGot(s', q, o'.value)
  {
    hide Sound, WithPin, Linked, RefTo;
    if o.Handle? {
      DescHere(s, p, o.desc, pins);
      RefHere(s, s.refAt[DescKey(p, o.desc)], pins);
      IncrementedCookie(s, s.refs[s.refAt[DescKey(p, o.desc)]].node, o.strong);
      hide ListOk, LocalOk, FlagsOk, Incremented;
    }
  }

  lemma IncrementedCookie(s: State, m: NodeId, strong: bool)
    requires m in s.nodes
    ensures Incremented(s, m, strong, false, false).cookie == s.nodes[m].cookie
  {
  }
}
