/** Balanced search trees as the driver uses them. Rebalancing is left open: after a node is linked
    or erased the tree may be any tree with the same in-order sequence of keys. Keys are compared by
    a weight that lives outside the tree. */
module Trees {

  import opened Wrappers

  datatype Tree = Leaf | Node(left: Tree, key: nat, right: Tree)

  function InOrder(t: Tree): seq<nat> {
    match t
    case Leaf => []
    case Node(l, k, r) => InOrder(l) + [k] + InOrder(r)
  }

  /** A tree with a given in-order sequence: there always is one. */
  function Spine(s: seq<nat>): (t: Tree)
    ensures InOrder(t) == s
  {
    if s == [] then Leaf else Node(Leaf, s[0], Spine(s[1..]))
  }

  method Rebalanced(s: seq<nat>) returns (t: Tree)
    ensures InOrder(t) == s
  {
    assert InOrder(Spine(s)) == s;
    var u: Tree :| InOrder(u) == s;
    t := u;
  }

  ghost predicate Sorted(s: seq<nat>, weight: nat -> int) {
    forall x, y :: 0 <= x < y < |s| ==> weight(s[x]) <= weight(s[y])
  }

  lemma SortedParts(t: Tree, weight: nat -> int)
    requires t.Node? && Sorted(InOrder(t), weight)
    ensures Sorted(InOrder(t.left), weight) && Sorted(InOrder(t.right), weight)
    ensures forall a :: a in InOrder(t.left) ==> weight(a) <= weight(t.key)
    ensures forall a :: a in InOrder(t.right) ==> weight(t.key) <= weight(a)
  {
    var o, m := InOrder(t), |InOrder(t.left)|;
    assert InOrder(t.left) == o[..m] && InOrder(t.right) == o[m + 1..] && o[m] == t.key;
  }

  // ---- erasing ----

  function Without(s: seq<nat>, a: nat): seq<nat> {
    if s == [] then [] else if s[0] == a then s[1..] else [s[0]] + Without(s[1..], a)
  }

  /** `rb_erase`: takes the node out by identity, never comparing keys. */
  method Erase(t: Tree, a: nat) returns (u: Tree)
    ensures InOrder(u) == Without(InOrder(t), a)
  {
    u := Rebalanced(Without(InOrder(t), a));
  }

  lemma {:induction false} WithoutCounts(s: seq<nat>, a: nat)
    ensures multiset(Without(s, a)) == multiset(s) - multiset{a}
    ensures a in s ==> |Without(s, a)| == |s| - 1
  {
    if s != [] {
      assert s == [s[0]] + s[1..];
      WithoutCounts(s[1..], a);
    }
  }

  lemma {:induction false} WithoutSorted(s: seq<nat>, a: nat, weight: nat -> int)
    requires Sorted(s, weight)
    ensures Sorted(Without(s, a), weight)
  {
    if s != [] && s[0] != a {
      WithoutSorted(s[1..], a, weight);
      WithoutCounts(s[1..], a);
      var r := Without(s[1..], a);
      forall y | 0 <= y < |r| ensures weight(s[0]) <= weight(r[y]) {
        assert r[y] in multiset(r);
        assert r[y] in s[1..];
      }
    }
  }

  // ---- linking ----

  /** How many keys stay before the place where the descent for weight `x` ends. */
  function Locate(t: Tree, weight: nat -> int, x: int): (at: nat)
    ensures at <= |InOrder(t)|
  {
    match t
    case Leaf => 0
    case Node(l, k, r) =>
      if x < weight(k) then Locate(l, weight, x) else |InOrder(l)| + 1 + Locate(r, weight, x)
  }

  ghost predicate Splits(s: seq<nat>, at: nat, weight: nat -> int, x: int) {
    && at <= |s|
    && (forall i :: 0 <= i < at ==> weight(s[i]) <= x)
    && (forall i :: at <= i < |s| ==> x < weight(s[i]))
  }

  lemma {:induction false} LocateSplits(t: Tree, weight: nat -> int, x: int)
    requires Sorted(InOrder(t), weight)
    ensures Splits(InOrder(t), Locate(t, weight, x), weight, x)
  {
    if t.Node? {
      SortedParts(t, weight);
      var o, l, r := InOrder(t), InOrder(t.left), InOrder(t.right);
      assert forall i :: 0 <= i < |l| ==> o[i] == l[i];
      assert o[|l|] == t.key;
      assert forall i :: |l| < i < |o| ==> o[i] == r[i - |l| - 1];
      LocateSplits(t.left, weight, x);
      LocateSplits(t.right, weight, x);
    }
  }

  function Placed(s: seq<nat>, at: nat, a: nat): seq<nat>
    requires at <= |s|
  {
    s[..at] + [a] + s[at..]
  }

  /** Linking where the descent ends keeps the order. */
  lemma LinkSorted(t: Tree, weight: nat -> int, a: nat)
    requires Sorted(InOrder(t), weight)
    ensures var o := Placed(InOrder(t), Locate(t, weight, weight(a)), a);
            Sorted(o, weight) && multiset(o) == multiset(InOrder(t)) + multiset{a}
  {
    LocateSplits(t, weight, weight(a));
    PlacedSorted(InOrder(t), Locate(t, weight, weight(a)), a, weight);
  }

  lemma PlacedSorted(o: seq<nat>, at: nat, a: nat, weight: nat -> int)
    requires Sorted(o, weight) && Splits(o, at, weight, weight(a))
    ensures Sorted(Placed(o, at, a), weight)
    ensures multiset(Placed(o, at, a)) == multiset(o) + multiset{a}
  {
    assert o == o[..at] + o[at..];
    forall x, y | 0 <= x < y < |o| + 1 ensures weight(Placed(o, at, a)[x]) <= weight(Placed(o, at, a)[y]) {
      PlacedAt(o, at, a, x);
      PlacedAt(o, at, a, y);
    }
  }

  lemma PlacedAt(o: seq<nat>, at: nat, a: nat, x: nat)
    requires at <= |o| && x <= |o|
    ensures Placed(o, at, a)[x] == if x < at then o[x] else if x == at then a else o[x - 1]
  {
  }

  /** `rb_link_node` and `rb_insert_color` at the place where a descent ended. */
  method Link(t: Tree, at: nat, a: nat, ghost weight: nat -> int) returns (u: Tree)
    requires Sorted(InOrder(t), weight) && at == Locate(t, weight, weight(a))
    ensures Sorted(InOrder(u), weight)
    ensures multiset(InOrder(u)) == multiset(InOrder(t)) + multiset{a}
  {
    LinkSorted(t, weight, a);
    u := Rebalanced(Placed(InOrder(t), at, a));
  }

  // ---- searching ----

  function Find(t: Tree, a: int): Option<nat> {
    match t
    case Leaf => None
    case Node(l, k, r) => if a < k then Find(l, a) else if a > k then Find(r, a) else Some(k)
  }

  function Self(): nat -> int {
    (a: nat) => a
  }

  lemma {:induction false} FindExact(t: Tree, a: int)
    requires Sorted(InOrder(t), Self())
    ensures Find(t, a).Some? ==> Find(t, a).value == a && Find(t, a).value in InOrder(t)
    ensures Find(t, a).None? ==> forall b :: b in InOrder(t) ==> b != a
  {
    if t.Node? {
      SortedParts(t, Self());
      FindExact(t.left, a);
      FindExact(t.right, a);
    }
  }

  /** The descent for a key of at least weight `x`, remembering the last one that was larger. */
  function Best(t: Tree, weight: nat -> int, x: int, best: Option<nat>): Option<nat> {
    match t
    case Leaf => best
    case Node(l, k, r) =>
      if x < weight(k) then Best(l, weight, x, Some(k))
      else if x > weight(k) then Best(r, weight, x, best)
      else Some(k)
  }

  ghost predicate IsLeast(s: seq<nat>, weight: nat -> int, x: int, a: nat) {
    && a in s && x <= weight(a)
    && forall b :: b in s && x <= weight(b) ==> weight(a) <= weight(b)
  }

  lemma {:induction false} BestIsLeast(t: Tree, weight: nat -> int, x: int, best: Option<nat>)
    requires Sorted(InOrder(t), weight)
    ensures var found := Best(t, weight, x, best);
            if exists b :: b in InOrder(t) && x <= weight(b)
            then found.Some? && IsLeast(InOrder(t), weight, x, found.value)
            else found == best
  {
    if t.Node? {
      SortedParts(t, weight);
      if x < weight(t.key) {
        BestIsLeast(t.left, weight, x, Some(t.key));
      } else if x > weight(t.key) {
        BestIsLeast(t.right, weight, x, best);
      } else {
        assert t.key in InOrder(t);
      }
      assert forall b :: b in InOrder(t) <==> b in InOrder(t.left) || b == t.key || b in InOrder(t.right);
    }
  }
}
