/** Nodes and the references to them: the records, the primitive operations, and what holds of them. */
module Store {
  import opened Wrappers

  type Pid = nat
  type Ptr = nat
  type NodeId = nat
  type RefId = nat

  /** A node; `proc` is None once its owner is gone. `refs` is its list of references; `queued` says whether
      its work item is on a list. `stray` is no field of the driver's: it marks a node that was left behind
      with nothing standing for it, by a transaction that ran out of memory for the reference to a node it had just
      made, or by a thread that exited with the node's work item on its list. */
  datatype Node = Node(proc: Option<Pid>, ptr: Ptr, cookie: nat, internalStrong: int, localStrong: int, localWeak: int,
                       hasStrong: bool, hasWeak: bool, pendingStrong: bool, pendingWeak: bool,
                       refs: set<RefId>, queued: bool, stray: bool)

  datatype Ref = Ref(proc: Pid, desc: nat, node: NodeId, strong: nat, weak: nat)

  datatype NodeKey = NodeKey(proc: Pid, ptr: Ptr)
  datatype DescKey = DescKey(proc: Pid, desc: nat)
  datatype ForKey = ForKey(proc: Pid, node: NodeId)

  /** All nodes and references; each process's tree of nodes and its two trees of references. `descs` is the
      in-order walk of a process's references by descriptor; its keys are the processes that exist. */
  datatype State = State(nodes: map<NodeId, Node>, refs: map<RefId, Ref>, nodeAt: map<NodeKey, NodeId>,
                         refAt: map<DescKey, RefId>, refFor: map<ForKey, RefId>, descs: map<Pid, seq<nat>>,
                         manager: Option<NodeId>)

  /** What an allocated buffer of process `proc` keeps alive: a node of that process, or a reference it holds. */
  datatype Pin = NodePin(proc: Pid, ptr: Ptr, strong: bool) | RefPin(proc: Pid, desc: nat, strong: bool)

  function One(b: bool): nat {
    if b then 1 else 0
  }

  // ---- what holds ----

  ghost function StrongRefs(refs: map<RefId, Ref>, rs: set<RefId>): set<RefId> {
    set r | r in rs && r in refs && refs[r].strong > 0
  }

  ghost predicate NodeOk(s: State, n: NodeId)
    requires n in s.nodes
  {
    match s.nodes[n].proc
    case Some(p) =>
      p in s.descs && NodeKey(p, s.nodes[n].ptr) in s.nodeAt && s.nodeAt[NodeKey(p, s.nodes[n].ptr)] == n
    case None =>
      s.nodes[n].localStrong == 0 && s.nodes[n].localWeak == 0 && !s.nodes[n].queued
  }

  ghost predicate NodeKeyOk(s: State, k: NodeKey)
    requires k in s.nodeAt
  {
    s.nodeAt[k] in s.nodes && s.nodes[s.nodeAt[k]].proc == Some(k.proc) && s.nodes[s.nodeAt[k]].ptr == k.ptr
  }

  ghost predicate RefOk(s: State, r: RefId)
    requires r in s.refs
  {
    var ref := s.refs[r];
    && ref.proc in s.descs
    && DescKey(ref.proc, ref.desc) in s.refAt && s.refAt[DescKey(ref.proc, ref.desc)] == r
    && ForKey(ref.proc, ref.node) in s.refFor && s.refFor[ForKey(ref.proc, ref.node)] == r
    && ref.node in s.nodes && r in s.nodes[ref.node].refs
  }

  ghost predicate DescKeyOk(s: State, k: DescKey)
    requires k in s.refAt
  {
    s.refAt[k] in s.refs && s.refs[s.refAt[k]].proc == k.proc && s.refs[s.refAt[k]].desc == k.desc
  }

  ghost predicate ForKeyOk(s: State, k: ForKey)
    requires k in s.refFor
  {
    s.refFor[k] in s.refs && s.refs[s.refFor[k]].proc == k.proc && s.refs[s.refFor[k]].node == k.node
  }

  ghost predicate Sorted(ds: seq<nat>) {
    forall i, j :: 0 <= i < j < |ds| ==> ds[i] < ds[j]
  }

  ghost predicate DescsOk(s: State, p: Pid)
    requires p in s.descs
  {
    Sorted(s.descs[p]) && forall d: nat :: d in s.descs[p] <==> DescKey(p, d) in s.refAt
  }

  /** The references of a node are the ones that name it, and its internal count is of those held strongly. */
  ghost predicate ListOk(s: State, n: NodeId)
    requires n in s.nodes
  {
    && (forall r :: r in s.nodes[n].refs ==> r in s.refs && s.refs[r].node == n)
    && s.nodes[n].internalStrong == |StrongRefs(s.refs, s.nodes[n].refs)|
  }

  /** The local counts of a live node are the pins on it, the acknowledgements its owner owes, and one each
      for the context manager. */
  ghost predicate LocalOk(s: State, n: NodeId, pins: multiset<Pin>)
    requires n in s.nodes
  {
    var w := s.nodes[n];
    w.proc.Some? ==>
      && w.localStrong == pins[NodePin(w.proc.value, w.ptr, true)] + One(w.pendingStrong) + One(s.manager == Some(n))
      && w.localWeak == pins[NodePin(w.proc.value, w.ptr, false)] + One(w.pendingWeak) + One(s.manager == Some(n))
  }

  /** What the owner was told: a strong reference only on top of a weak one, and only what it was told is
      waiting to be acknowledged. */
  predicate FlagsOk(w: Node) {
    && (w.hasStrong ==> w.hasWeak)
    && (w.pendingStrong ==> w.hasStrong)
    && (w.pendingWeak ==> w.hasWeak)
  }

  /** Something still stands for the node; if only its work item does, the node goes with it. A stray node
      stays without. */
  predicate Wanted(w: Node) {
    w.refs != {} || w.localStrong > 0 || w.localWeak > 0 || (w.proc.Some? && (w.hasWeak || w.queued || w.stray))
  }

  ghost predicate ManagerOk(s: State) {
    s.manager.Some? ==>
      && s.manager.value in s.nodes && s.nodes[s.manager.value].proc.Some?
      && s.nodes[s.manager.value].hasStrong && s.nodes[s.manager.value].hasWeak
  }

  /** A pinned node is there. */
  ghost predicate PinsOk(s: State, pins: multiset<Pin>) {
    forall k: Pin :: k in pins && k.NodePin? ==> NodeKey(k.proc, k.ptr) in s.nodeAt
  }

  ghost predicate NodeSound(s: State, n: NodeId, pins: multiset<Pin>)
    requires n in s.nodes
  {
    NodeOk(s, n) && ListOk(s, n) && LocalOk(s, n, pins) && FlagsOk(s.nodes[n])
  }

  ghost predicate NodesOk(s: State, pins: multiset<Pin>) {
    forall n :: n in s.nodes ==> NodeSound(s, n, pins)
  }

  ghost predicate KeysOk(s: State) {
    && (forall k :: k in s.nodeAt ==> NodeKeyOk(s, k))
    && (forall k :: k in s.refAt ==> DescKeyOk(s, k))
    && (forall k :: k in s.refFor ==> ForKeyOk(s, k))
    && (forall p :: p in s.descs ==> DescsOk(s, p))
  }

  ghost predicate RefsOk(s: State) {
    forall r :: r in s.refs ==> RefOk(s, r)
  }

  /** Records and indexes agree and all counts are exact, when the buffers pin `pins`. */
  ghost predicate Sound(s: State, pins: multiset<Pin>) {
    NodesOk(s, pins) && KeysOk(s) && RefsOk(s) && ManagerOk(s) && PinsOk(s, pins)
  }

  /** Every node but perhaps `but` is there for a reason. */
  predicate WantedBut(s: State, but: Option<NodeId>) {
    forall n :: n in s.nodes && Some(n) != but ==> Wanted(s.nodes[n])
  }

  /** What holds of nodes and references between steps. */
  ghost predicate Inv(s: State, pins: multiset<Pin>) {
    Sound(s, pins) && WantedBut(s, None)
  }

  // ---- the primitive operations ----

  function WithNode(s: State, n: NodeId, w: Node): State {
    s.(nodes := s.nodes[n := w])
  }

  function DropNode(s: State, n: NodeId): State
    requires n in s.nodes
  {
    var w := s.nodes[n];
    s.(nodes := s.nodes - {n},
       nodeAt := if w.proc.Some? then s.nodeAt - {NodeKey(w.proc.value, w.ptr)} else s.nodeAt)
  }

  /** An increment of the internal strong count is refused when nobody could tell the owner. */
  predicate Refused(s: State, n: NodeId, strong: bool, internal: bool, list: bool)
    requires n in s.nodes
  {
    var w := s.nodes[n];
    !list && if strong then internal && w.internalStrong == 0 && !(s.manager == Some(n) && w.hasStrong)
             else !w.hasWeak && !w.queued
  }

  /** The node after `binder_inc_node`; `list` says whether there is a list to put its work item on. A weak
      local count goes up even when the increment is refused. */
  function Incremented(s: State, n: NodeId, strong: bool, internal: bool, list: bool): Node
    requires n in s.nodes
  {
    var w := s.nodes[n];
    if strong then
      if Refused(s, n, strong, internal, list) then w
      else
        var w' := if internal then w.(internalStrong := w.internalStrong + 1) else w.(localStrong := w.localStrong + 1);
        w'.(queued := w.queued || (!w.hasStrong && list))
    else
      var w' := if internal then w else w.(localWeak := w.localWeak + 1);
      w'.(queued := w.queued || (!w.hasWeak && list))
  }

  function Lowered(w: Node, strong: bool, internal: bool): Node {
    if strong then
      if internal then w.(internalStrong := w.internalStrong - 1) else w.(localStrong := w.localStrong - 1)
    else if internal then w else w.(localWeak := w.localWeak - 1)
  }

  /** The state after `binder_dec_node`: at zero the owner is told, or, if it need not be, the node goes. */
  function DecNode(s: State, n: NodeId, strong: bool, internal: bool): State
    requires n in s.nodes
  {
    var w := Lowered(s.nodes[n], strong, internal);
    if (if strong then w.localStrong != 0 || w.internalStrong != 0 else w.localWeak != 0 || w.refs != {}) then
      WithNode(s, n, w)
    else if w.proc.Some? && (w.hasStrong || w.hasWeak) then
      WithNode(s, n, w.(queued := true))
    else if w.refs == {} && w.localStrong == 0 && w.localWeak == 0 then
      DropNode(s, n)
    else
      WithNode(s, n, w)
  }

  // ---- descriptors ----

  /** The least number from `d` on that is not in `ds`. */
  predicate LeastFree(ds: seq<nat>, start: nat, d: nat) {
    start <= d && d !in ds && forall e: nat :: start <= e < d ==> e in ds
  }

  function Inserted(ds: seq<nat>, d: nat): seq<nat> {
    if ds == [] || d < ds[0] then [d] + ds else [ds[0]] + Inserted(ds[1..], d)
  }

  function Removed(ds: seq<nat>, d: nat): seq<nat> {
    if ds == [] then [] else if ds[0] == d then ds[1..] else [ds[0]] + Removed(ds[1..], d)
  }

  lemma SortedOnto(h: nat, rest: seq<nat>)
    requires Sorted(rest) && forall e: nat :: e in rest ==> h < e
    ensures Sorted([h] + rest)
  {
    var ds := [h] + rest;
    forall i, j | 0 <= i < j < |ds| ensures ds[i] < ds[j] {
      assert ds[j] == rest[j - 1] && rest[j - 1] in rest;
    }
  }

  lemma HasSome(b: seq<nat>)
    requires b != []
    ensures exists d: nat :: d in b
  {
    assert b[0] in b;
  }

  lemma {:induction false} InsertedIs(ds: seq<nat>, d: nat)
    requires Sorted(ds) && d !in ds
    ensures Sorted(Inserted(ds, d)) && forall e: nat :: e in Inserted(ds, d) <==> e in ds || e == d
  {
    if ds != [] && d >= ds[0] {
      InsertedIs(ds[1..], d);
      var rest := Inserted(ds[1..], d);
      assert ds == [ds[0]] + ds[1..];
      forall e: nat | e in rest ensures ds[0] < e {
        if e in ds[1..] {
          var k :| 0 <= k < |ds[1..]| && ds[1..][k] == e;
          assert ds[k + 1] == e;
        }
      }
      SortedOnto(ds[0], rest);
    } else {
      forall e: nat | e in ds ensures d < e {
        var k :| 0 <= k < |ds| && ds[k] == e;
      }
      SortedOnto(d, ds);
    }
  }

  lemma {:induction false} RemovedIs(ds: seq<nat>, d: nat)
    requires Sorted(ds) && d in ds
    ensures Sorted(Removed(ds, d)) && forall e: nat :: e in Removed(ds, d) <==> e in ds && e != d
  {
    assert ds == [ds[0]] + ds[1..];
    if ds[0] != d {
      RemovedIs(ds[1..], d);
      var rest := Removed(ds[1..], d);
      forall e: nat | e in rest ensures ds[0] < e {
        var k :| 0 <= k < |ds[1..]| && ds[1..][k] == e;
        assert ds[k + 1] == e;
      }
      SortedOnto(ds[0], rest);
    } else {
      forall e: nat | e in ds[1..] ensures e != d {
        var k :| 0 <= k < |ds[1..]| && ds[1..][k] == e;
        assert ds[k + 1] == e;
      }
    }
  }

  /** Two sorted walks over the same descriptors are the same walk. */
  lemma {:induction false} SortedUnique(a: seq<nat>, b: seq<nat>)
    requires Sorted(a) && Sorted(b) && forall d: nat :: d in a <==> d in b
    ensures a == b
  {
    if a == [] {
      if b != [] {
        HasSome(b);
      }
    } else {
      assert a[0] in b;
      assert b[0] in a;
      var i :| 0 <= i < |a| && a[i] == b[0];
      var j :| 0 <= j < |b| && b[j] == a[0];
      assert a[0] == b[0];
      forall d: nat ensures d in a[1..] <==> d in b[1..] {
        InRest(a, d);
        InRest(b, d);
      }
      SortedUnique(a[1..], b[1..]);
      assert a == [a[0]] + a[1..] && b == [b[0]] + b[1..];
    }
  }

  lemma InRest(a: seq<nat>, d: nat)
    requires Sorted(a) && a != []
    ensures d in a[1..] <==> d in a && d != a[0]
  {
    assert a == [a[0]] + a[1..];
    if d in a[1..] {
      var k :| 0 <= k < |a[1..]| && a[1..][k] == d;
      assert a[k + 1] == d;
    }
  }

  lemma RestAbove(ds: seq<nat>)
    requires Sorted(ds) && ds != []
    ensures forall e: nat :: e in ds[1..] ==> ds[0] < e
    ensures forall e: nat :: e in ds ==> ds[0] <= e
  {
    forall e: nat | e in ds[1..] ensures ds[0] < e {
      var k :| 0 <= k < |ds[1..]| && ds[1..][k] == e;
      assert ds[k + 1] == e;
    }
  }

  /** The descriptor `binder_get_ref_for_node` settles on, walking the rest `ds` of the tree with `d` in hand. */
  function FirstFree(ds: seq<nat>, d: nat): nat {
    if ds == [] || ds[0] > d then d else FirstFree(ds[1..], ds[0] + 1)
  }

  /** 0 is kept for the context manager. */
  function StartFor(s: State, n: NodeId): nat {
    if s.manager == Some(n) then 0 else 1
  }

  lemma {:induction false} FirstFreeIs(ds: seq<nat>, d: nat, low: nat)
    requires Sorted(ds) && low <= d && forall e: nat :: e in ds && e < d ==> e + 1 == d && low == d
    ensures LeastFree(ds, low, FirstFree(ds, d)) || d > low
    ensures FirstFree(ds, d) >= d && FirstFree(ds, d) !in ds && forall e: nat :: d <= e < FirstFree(ds, d) ==> e in ds
  {
    if ds != [] {
      assert ds == [ds[0]] + ds[1..];
      assert ds[0] in ds;
      if ds[0] <= d {
        RestAbove(ds);
        FirstFreeIs(ds[1..], ds[0] + 1, ds[0] + 1);
      } else {
        RestAbove(ds);
      }
    }
  }

  /** The new descriptor is the least unused one from the start on. */
  lemma DescriptorIsLeast(ds: seq<nat>, start: nat)
    requires Sorted(ds) && start <= 1
    ensures LeastFree(ds, start, FirstFree(ds, start))
  {
    FirstFreeIs(ds, start, start);
  }

  // ---- references ----

  /** Reference `r` and its node get new counts. */
  function WithCounts(s: State, r: RefId, ref: Ref, w: Node): State {
    s.(refs := s.refs[r := ref], nodes := s.nodes[ref.node := w])
  }

  /** `binder_inc_ref`: refused when the node refuses. */
  predicate RefRefused(s: State, r: RefId, strong: bool, list: bool)
    requires r in s.refs && s.refs[r].node in s.nodes
  {
    (if strong then s.refs[r].strong == 0 else s.refs[r].weak == 0) && Refused(s, s.refs[r].node, strong, true, list)
  }

  function Raised(ref: Ref, strong: bool): Ref {
    if strong then ref.(strong := ref.strong + 1) else ref.(weak := ref.weak + 1)
  }

  function IncRef(s: State, r: RefId, strong: bool, list: bool): State
    requires r in s.refs && s.refs[r].node in s.nodes
  {
    var ref := s.refs[r];
    if RefRefused(s, r, strong, list) then s
    else WithCounts(s, r, Raised(ref, strong),
                    if (if strong then ref.strong == 0 else ref.weak == 0) then Incremented(s, ref.node, strong, true, list)
                    else s.nodes[ref.node])
  }

  /** A node, still referred to, that lost one strong reference. */
  function LostStrong(w: Node): Node {
    var w' := w.(internalStrong := w.internalStrong - 1);
    if w'.localStrong == 0 && w'.internalStrong == 0 && w.proc.Some? && (w.hasStrong || w.hasWeak)
    then w'.(queued := true) else w'
  }

  /** The reference leaves both trees and its node's list. */
  function Unref(s: State, r: RefId): State
    requires r in s.refs && s.refs[r].node in s.nodes
  {
    var ref := s.refs[r];
    var w := s.nodes[ref.node];
    s.(refs := s.refs - {r}, refAt := s.refAt - {DescKey(ref.proc, ref.desc)}, refFor := s.refFor - {ForKey(ref.proc, ref.node)},
       descs := if ref.proc in s.descs then s.descs[ref.proc := Removed(s.descs[ref.proc], ref.desc)] else s.descs,
       nodes := s.nodes[ref.node := w.(refs := w.refs - {r})])
  }

  function Weakened(s: State, r: RefId): State
    requires r in s.refs && s.refs[r].node in s.nodes
  {
    if s.refs[r].strong == 0 then s else WithCounts(s, r, s.refs[r].(strong := 0), LostStrong(s.nodes[s.refs[r].node]))
  }

  /** `binder_delete_ref`. */
  function DeleteRef(s: State, r: RefId): State
    requires r in s.refs && s.refs[r].node in s.nodes
  {
    DecNode(Unref(Weakened(s, r), r), s.refs[r].node, false, true)
  }

  /** `binder_dec_ref`: an error when the count is zero; at zero the reference goes. */
  function DecRef(s: State, r: RefId, strong: bool): State
    requires r in s.refs && s.refs[r].node in s.nodes
  {
    var ref := s.refs[r];
    if (if strong then ref.strong == 0 else ref.weak == 0) then s
    else
      var s1 := if !strong then s.(refs := s.refs[r := ref.(weak := ref.weak - 1)])
                else WithCounts(s, r, ref.(strong := ref.strong - 1),
                                if ref.strong == 1 then LostStrong(s.nodes[ref.node]) else s.nodes[ref.node]);
      if s1.refs[r].strong == 0 && s1.refs[r].weak == 0 then DeleteRef(s1, r) else s1
  }

  /** A new reference of process `p` to node `n`. */
  function NewRef(s: State, p: Pid, n: NodeId, r: RefId): State
    requires n in s.nodes && p in s.descs
  {
    var d := FirstFree(s.descs[p], StartFor(s, n));
    s.(refs := s.refs[r := Ref(p, d, n, 0, 0)], refAt := s.refAt[DescKey(p, d) := r], refFor := s.refFor[ForKey(p, n) := r],
       descs := s.descs[p := Inserted(s.descs[p], d)],
       nodes := s.nodes[n := s.nodes[n].(refs := s.nodes[n].refs + {r})])
  }

  /** A new node of process `p`. */
  function NewNode(s: State, p: Pid, ptr: Ptr, cookie: nat, n: NodeId): State {
    s.(nodes := s.nodes[n := Node(Some(p), ptr, cookie, 0, 0, 0, false, false, false, false, {}, false, false)],
       nodeAt := s.nodeAt[NodeKey(p, ptr) := n])
  }
}
