/** The forest that items and containers make up, as a value: who holds whom, and the weight each
    container has cached for its contents. The operations here say what the methods in
    Container.dfy do to the objects, and that they keep the forest a forest and the caches exact.
    Facts about every node are wrapped in predicates that serve as triggers, so that a proof looks
    only at the nodes it names. */
module ItemTree {
  import opened Common

  /** What matters about an item's type and attributes. Items that `equals` finds alike are of one kind. */
  datatype Kind = Kind(id: nat, stackable: bool, weight: nat, pickupable: bool, moveable: bool, attributes: int)

  /** An item; `list`, `total`, `capacity` and `unlocked` matter for containers. */
  datatype Node<K> = Node(parent: Option<K>, list: seq<K>, holder: bool, kind: Kind, count: nat, total: int,
                          capacity: nat, unlocked: bool)

  type Forest<K> = map<K, Node<K>>

  function Own(kind: Kind, count: nat): (w: nat)
  {
    if kind.stackable then kind.weight * (if count > 1 then count else 1) else kind.weight
  }

  /** An item's weight, with the cached weight of what it holds. */
  function Weight<K>(f: Forest<K>, x: K): int
    requires x in f
  {
    Own(f[x].kind, f[x].count) + (if f[x].holder then f[x].total else 0)
  }

  ghost predicate Inside<K>(f: Forest<K>, l: seq<K>)
  {
    forall i :: 0 <= i < |l| ==> l[i] in f
  }

  function Sum<K>(f: Forest<K>, l: seq<K>): int
    requires Inside(f, l)
  {
    if l == [] then 0 else Weight(f, l[0]) + Sum(f, l[1..])
  }

  /** Everything in the list of `x` has `x` for a parent. */
  ghost predicate Holds<K>(f: Forest<K>, x: K)
    requires x in f
  {
    && NoDup(f[x].list) && Inside(f, f[x].list) && (!f[x].holder ==> f[x].list == [])
    && (forall i :: 0 <= i < |f[x].list| ==> f[f[x].list[i]].parent == Some(x))
  }

  /** The parent of `x` has `x` in its list. */
  ghost predicate Held<K>(f: Forest<K>, x: K)
    requires x in f
  {
    f[x].parent.Some? ==> f[x].parent.value in f && x in f[f[x].parent.value].list
  }

  /** Holding and being held agree. */
  ghost predicate Linked<K>(f: Forest<K>)
  {
    && (forall x {:trigger Holds(f, x)} :: x in f ==> Holds(f, x))
    && (forall x {:trigger Held(f, x)} :: x in f ==> Held(f, x))
  }

  ghost predicate Below<K>(f: Forest<K>, rank: map<K, nat>, x: K)
    requires rank.Keys == f.Keys && x in f
  {
    f[x].parent.Some? ==> f[x].parent.value in f && rank[f[x].parent.value] < rank[x]
  }

  /** `rank` grows from holders to what they hold, so nothing holds itself. */
  ghost predicate Ranked<K>(f: Forest<K>, rank: map<K, nat>)
  {
    rank.Keys == f.Keys && forall x {:trigger Below(f, rank, x)} :: x in f ==> Below(f, rank, x)
  }

  /** The contents of `x` weigh `off` more than its cache says. */
  ghost predicate Off<K>(f: Forest<K>, x: K, off: int)
    requires x in f
  {
    f[x].holder ==> Inside(f, f[x].list) && Sum(f, f[x].list) == f[x].total + off
  }

  /** Every cached weight is the weight of what the container holds. */
  ghost predicate Weighed<K>(f: Forest<K>)
  {
    forall x {:trigger Off(f, x, 0)} :: x in f ==> Off(f, x, 0)
  }

  /** All caches are exact, but that of `c` still misses `diff`. */
  ghost predicate WeighedBut<K>(f: Forest<K>, c: K, diff: int)
  {
    c in f && Off(f, c, diff) && forall x {:trigger Off(f, x, 0)} :: x in f && x != c ==> Off(f, x, 0)
  }

  ghost predicate Good<K>(f: Forest<K>, rank: map<K, nat>)
  {
    Linked(f) && Ranked(f, rank) && Weighed(f)
  }

  /** `a` is `x` or holds it, directly or not. */
  ghost predicate Above<K>(f: Forest<K>, rank: map<K, nat>, a: K, x: K)
    requires Ranked(f, rank) && x in f
    decreases rank[x]
  {
    assert Below(f, rank, x);
    a == x || (f[x].parent.Some? && Above(f, rank, a, f[x].parent.value))
  }

  lemma {:induction false} AboveRank<K>(f: Forest<K>, rank: map<K, nat>, a: K, x: K)
    requires Ranked(f, rank) && x in f && Above(f, rank, a, x)
    ensures a in f && rank[a] <= rank[x] && (a != x ==> rank[a] < rank[x])
    decreases rank[x]
  {
    assert Below(f, rank, x);
    if a != x {
      AboveRank(f, rank, a, f[x].parent.value);
    }
  }

  /** Chains of holders depend on parents only. */
  lemma {:induction false} AboveSame<K>(f: Forest<K>, g: Forest<K>, rank: map<K, nat>, a: K, x: K)
    requires Ranked(f, rank) && Ranked(g, rank) && x in f
    requires forall y :: y in f && Above(f, rank, y, x) ==> f[y].parent == g[y].parent
    ensures Above(f, rank, a, x) == Above(g, rank, a, x)
    decreases rank[x]
  {
    assert Below(f, rank, x);
    assert Above(f, rank, x, x);
    if f[x].parent.Some? {
      var p := f[x].parent.value;
      forall y | y in f && Above(f, rank, y, p) ensures f[y].parent == g[y].parent {
        assert Above(f, rank, y, x);
      }
      AboveSame(f, g, rank, a, p);
    }
  }

  // ----- Changing the weight of a container and of all above it

  /** What `updateItemWeight` does: `diff` is added to a container's cached weight and to all above it. */
  ghost function AddUp<K>(f: Forest<K>, rank: map<K, nat>, c: K, diff: int): (g: Forest<K>)
    requires Ranked(f, rank) && c in f
    ensures g.Keys == f.Keys
  {
    map y | y in f :: f[y].(total := f[y].total + if Above(f, rank, y, c) then diff else 0)
  }

  function Heavier<K>(f: Forest<K>, c: K, diff: int): (g: Forest<K>)
    requires c in f
  {
    f[c := f[c].(total := f[c].total + diff)]
  }

  lemma {:induction false} HeavierRanked<K>(f: Forest<K>, rank: map<K, nat>, c: K, diff: int)
    requires Ranked(f, rank) && c in f
    ensures Ranked(Heavier(f, c, diff), rank) && Below(f, rank, c)
  {
    var g := Heavier(f, c, diff);
    assert rank.Keys == g.Keys;
    forall x | x in g ensures Below(g, rank, x) {
      assert Below(f, rank, x);
    }
  }

  /** One container is corrected at a time. */
  lemma {:induction false} AddUpStep<K>(f: Forest<K>, rank: map<K, nat>, c: K, diff: int)
    requires Ranked(f, rank) && c in f && Below(f, rank, c) && Ranked(Heavier(f, c, diff), rank)
    ensures AddUp(f, rank, c, diff)
      == if f[c].parent.None? then Heavier(f, c, diff) else AddUp(Heavier(f, c, diff), rank, f[c].parent.value, diff)
  {
    var g := Heavier(f, c, diff);
    if f[c].parent.Some? {
      var p := f[c].parent.value;
      if Above(f, rank, c, p) {
        AboveRank(f, rank, c, p);
      }
      forall y | y in f ensures Above(f, rank, y, p) == Above(g, rank, y, p) {
        AboveSame(f, g, rank, y, p);
      }
    }
  }

  lemma {:induction false} SumSame<K>(f: Forest<K>, g: Forest<K>, l: seq<K>)
    requires Inside(f, l) && Inside(g, l)
    requires forall i :: 0 <= i < |l| ==> Weight(f, l[i]) == Weight(g, l[i])
    ensures Sum(f, l) == Sum(g, l)
  {
    if l != [] {
      SumSame(f, g, l[1..]);
    }
  }

  /** One member of a list becomes heavier, and so does the list. */
  lemma {:induction false} SumChanged<K>(f: Forest<K>, g: Forest<K>, l: seq<K>, k: nat, diff: int)
    requires Inside(f, l) && Inside(g, l) && k < |l|
    requires forall i :: 0 <= i < |l| ==> Weight(g, l[i]) == Weight(f, l[i]) + if i == k then diff else 0
    ensures Sum(g, l) == Sum(f, l) + diff
  {
    if k == 0 {
      SumSame(f, g, l[1..]);
    } else {
      SumChanged(f, g, l[1..], k - 1, diff);
    }
  }

  lemma {:induction false} SumAppend<K>(f: Forest<K>, a: seq<K>, b: seq<K>)
    requires Inside(f, a) && Inside(f, b)
    ensures Inside(f, a + b) && Sum(f, a + b) == Sum(f, a) + Sum(f, b)
  {
    if a == [] {
      assert a + b == b;
    } else {
      assert (a + b)[1..] == a[1..] + b;
      SumAppend(f, a[1..], b);
    }
  }

  /** Only `c` changed its weight, by `diff`; lists and parents are as before. */
  ghost predicate Changed<K>(f: Forest<K>, g: Forest<K>, c: K, diff: int)
  {
    && g.Keys == f.Keys && c in f
    && (forall x :: x in f ==> g[x].list == f[x].list && g[x].parent == f[x].parent && g[x].holder == f[x].holder)
    && (forall x :: x in f ==> Weight(g, x) == Weight(f, x) + if x == c then diff else 0)
  }

  lemma {:induction false} ChangedLinked<K>(f: Forest<K>, g: Forest<K>, c: K, diff: int)
    requires Linked(f) && Changed(f, g, c, diff)
    ensures Linked(g)
  {
    forall x | x in g ensures Holds(g, x) {
      assert Holds(f, x);
    }
    forall x | x in g ensures Held(g, x) {
      assert Held(f, x);
    }
  }

  /** The list of the changed item's holder weighs `diff` more, every other list what it did. */
  lemma {:induction false} ChangedSum<K>(f: Forest<K>, g: Forest<K>, c: K, diff: int, x: K)
    requires Linked(f) && Changed(f, g, c, diff) && x in f
    ensures Inside(f, f[x].list) && Inside(g, f[x].list)
    ensures Sum(g, f[x].list) == Sum(f, f[x].list) + if f[c].parent == Some(x) then diff else 0
  {
    assert Holds(f, x);
    var l := f[x].list;
    if f[c].parent == Some(x) {
      assert Held(f, c);
      var k :| 0 <= k < |l| && l[k] == c;
      SumChanged(f, g, l, k, diff);
    } else {
      SumSame(f, g, l);
    }
  }

  /** Correcting one cache passes the difference on to the container above. */
  lemma {:induction false} PassUp<K>(f: Forest<K>, rank: map<K, nat>, c: K, diff: int)
    requires Linked(f) && Ranked(f, rank) && c in f && f[c].holder && WeighedBut(f, c, diff)
    ensures var g := Heavier(f, c, diff);
      && Linked(g)
      && (f[c].parent.None? ==> Weighed(g))
      && (f[c].parent.Some? ==> WeighedBut(g, f[c].parent.value, diff) && g[f[c].parent.value].holder)
  {
    var g := Heavier(f, c, diff);
    assert Changed(f, g, c, diff);
    ChangedLinked(f, g, c, diff);
    assert Below(f, rank, c);
    forall x | x in g ensures Off(g, x, if f[c].parent == Some(x) then diff else 0) {
      assert x != c ==> Off(f, x, 0);
      ChangedSum(f, g, c, diff, x);
    }
    if f[c].parent.Some? {
      assert Held(f, c) && Holds(f, f[c].parent.value);
      assert Off(g, f[c].parent.value, diff);
    }
  }

  /** Passing a difference all the way up makes every cache exact. */
  lemma {:induction false} AddUpGood<K>(f: Forest<K>, rank: map<K, nat>, c: K, diff: int)
    requires Linked(f) && Ranked(f, rank) && c in f && f[c].holder && WeighedBut(f, c, diff)
    ensures Good(AddUp(f, rank, c, diff), rank)
    decreases rank[c]
  {
    PassUp(f, rank, c, diff);
    HeavierRanked(f, rank, c, diff);
    AddUpStep(f, rank, c, diff);
    if f[c].parent.Some? {
      AddUpGood(Heavier(f, c, diff), rank, f[c].parent.value, diff);
    }
  }

  // ----- Putting an item into a container

  /** `x` joins the items of `c`, first or last. */
  function Attach<K>(f: Forest<K>, c: K, x: K, front: bool): (g: Forest<K>)
    requires c in f && x in f && c != x
  {
    var list := if front then [x] + f[c].list else f[c].list + [x];
    f[c := f[c].(list := list)][x := f[x].(parent := Some(c))]
  }

  /** Ranks once `x` hangs `drop` deeper. */
  ghost function Deeper<K>(f: Forest<K>, rank: map<K, nat>, x: K, drop: nat): (r: map<K, nat>)
    requires Ranked(f, rank)
    ensures r.Keys == f.Keys
  {
    map y | y in f :: if Above(f, rank, x, y) then rank[y] + drop else rank[y]
  }

  ghost function Added<K>(f: Forest<K>, rank: map<K, nat>, c: K, x: K, front: bool): (g: Forest<K>)
    requires Ranked(f, rank) && c in f && x in f && f[x].parent.None? && !Above(f, rank, x, c)
  {
    AttachRanked(f, rank, c, x, front);
    AddUp(Attach(f, c, x, front), Deeper(f, rank, x, rank[c] + 1), c, Weight(f, x))
  }

  lemma {:induction false} AttachRanked<K>(f: Forest<K>, rank: map<K, nat>, c: K, x: K, front: bool)
    requires Ranked(f, rank) && c in f && x in f && f[x].parent.None? && !Above(f, rank, x, c)
    ensures c != x && Ranked(Attach(f, c, x, front), Deeper(f, rank, x, rank[c] + 1))
  {
    var g, r := Attach(f, c, x, front), Deeper(f, rank, x, rank[c] + 1);
    assert r.Keys == g.Keys;
    forall y | y in g ensures Below(g, r, y) {
      assert Below(f, rank, y);
      if y != x && f[y].parent.Some? {
        assert Above(f, rank, x, y) == Above(f, rank, x, f[y].parent.value);
      }
    }
  }

  lemma {:induction false} AttachHolds<K>(f: Forest<K>, c: K, x: K, front: bool, y: K)
    requires Linked(f) && c in f && f[c].holder && x in f && f[x].parent.None? && c != x && y in f
    ensures Holds(Attach(f, c, x, front), y)
  {
    assert Holds(f, y);
    forall i | 0 <= i < |f[y].list| ensures f[y].list[i] != x {
      assert f[f[y].list[i]].parent == Some(y);
    }
  }

  lemma {:induction false} AttachHeld<K>(f: Forest<K>, c: K, x: K, front: bool, y: K)
    requires Linked(f) && c in f && x in f && f[x].parent.None? && c != x && y in f
    ensures Held(Attach(f, c, x, front), y)
  {
    var g := Attach(f, c, x, front);
    assert Held(f, y);
    if y == x {
      assert g[c].list[if front then 0 else |f[c].list|] == x;
    } else if f[y].parent == Some(c) {
      var k :| 0 <= k < |f[c].list| && f[c].list[k] == y;
      assert g[c].list[if front then k + 1 else k] == y;
    }
  }

  lemma {:induction false} AttachLinked<K>(f: Forest<K>, c: K, x: K, front: bool)
    requires Linked(f) && c in f && f[c].holder && x in f && f[x].parent.None? && c != x
    ensures Linked(Attach(f, c, x, front))
  {
    var g := Attach(f, c, x, front);
    forall y | y in g ensures Holds(g, y) {
      AttachHolds(f, c, x, front, y);
    }
    forall y | y in g ensures Held(g, y) {
      AttachHeld(f, c, x, front, y);
    }
  }

  lemma {:induction false} AttachWeighed<K>(f: Forest<K>, c: K, x: K, front: bool)
    requires Weighed(f) && c in f && f[c].holder && x in f && c != x
    ensures WeighedBut(Attach(f, c, x, front), c, Weight(f, x))
  {
    var g := Attach(f, c, x, front);
    forall y | y in g ensures Off(g, y, if y == c then Weight(f, x) else 0) {
      assert Off(f, y, 0);
      if f[y].holder {
        SumSame(f, g, f[y].list);
      }
      if y == c {
        assert [x][1..] == [];
        assert Sum(g, [x]) == Weight(f, x);
        SumAppend(g, if front then [x] else f[c].list, if front then f[c].list else [x]);
      }
    }
    assert Off(g, c, Weight(f, x));
  }

  /** Adding an item that does not hold the container keeps the forest good. */
  lemma {:induction false} AddedGood<K>(f: Forest<K>, rank: map<K, nat>, c: K, x: K, front: bool)
    requires Good(f, rank) && c in f && f[c].holder && x in f && f[x].parent.None? && !Above(f, rank, x, c)
    ensures Good(Added(f, rank, c, x, front), Deeper(f, rank, x, rank[c] + 1))
  {
    AttachRanked(f, rank, c, x, front);
    AttachLinked(f, c, x, front);
    AttachWeighed(f, c, x, front);
    AddUpGood(Attach(f, c, x, front), Deeper(f, rank, x, rank[c] + 1), c, Weight(f, x));
  }

  // ----- Taking an item out

  function Without<K>(l: seq<K>, k: nat): (r: seq<K>)
    requires k < |l|
    ensures |r| == |l| - 1
  {
    l[..k] + l[k + 1..]
  }

  /** The `k`th item of `c` leaves. */
  function Unlink<K>(f: Forest<K>, c: K, k: nat): (g: Forest<K>)
    requires c in f && k < |f[c].list| && f[c].list[k] in f && f[c].list[k] != c
  {
    var x := f[c].list[k];
    f[c := f[c].(list := Without(f[c].list, k))][x := f[x].(parent := None)]
  }

  lemma {:induction false} ChildFacts<K>(f: Forest<K>, rank: map<K, nat>, c: K, k: nat)
    requires Linked(f) && Ranked(f, rank) && c in f && k < |f[c].list|
    ensures var x := f[c].list[k]; x in f && x != c && f[x].parent == Some(c) && !Above(f, rank, x, c) && f[c].holder
  {
    var x := f[c].list[k];
    assert Holds(f, c) && Below(f, rank, x);
    if Above(f, rank, x, c) {
      AboveRank(f, rank, x, c);
    }
  }

  /** The weight goes first, from the container and all above it, and then the item. */
  ghost function Removed<K>(f: Forest<K>, rank: map<K, nat>, c: K, k: nat): (g: Forest<K>)
    requires Ranked(f, rank) && c in f && k < |f[c].list| && f[c].list[k] in f && f[c].list[k] != c
  {
    Unlink(AddUp(f, rank, c, -Weight(f, f[c].list[k])), c, k)
  }

  lemma {:induction false} UnlinkHolds<K>(f: Forest<K>, c: K, k: nat, y: K)
    requires Linked(f) && c in f && k < |f[c].list| && f[c].list[k] in f && f[c].list[k] != c && y in f
    ensures Holds(Unlink(f, c, k), y)
  {
    var g, x := Unlink(f, c, k), f[c].list[k];
    assert Holds(f, y) && Holds(f, c);
    forall i | 0 <= i < |g[y].list| ensures g[y].list[i] in g && g[g[y].list[i]].parent == Some(y) {
      var j := if y == c && i >= k then i + 1 else i;
      assert g[y].list[i] == f[y].list[j] && f[f[y].list[j]].parent == Some(y);
      if y == c {
        assert f[c].list[j] != x;
      }
    }
  }

  lemma {:induction false} UnlinkHeld<K>(f: Forest<K>, c: K, k: nat, y: K)
    requires Linked(f) && c in f && k < |f[c].list| && f[c].list[k] in f && f[c].list[k] != c && y in f
    ensures Held(Unlink(f, c, k), y)
  {
    var g, x := Unlink(f, c, k), f[c].list[k];
    assert Held(f, y);
    if f[y].parent == Some(c) && y != x {
      var i :| 0 <= i < |f[c].list| && f[c].list[i] == y;
      assert Without(f[c].list, k)[if i < k then i else i - 1] == y;
    }
  }

  lemma {:induction false} UnlinkLinked<K>(f: Forest<K>, rank: map<K, nat>, c: K, k: nat)
    requires Linked(f) && Ranked(f, rank) && c in f && k < |f[c].list| && f[c].list[k] in f && f[c].list[k] != c
    ensures Linked(Unlink(f, c, k)) && Ranked(Unlink(f, c, k), rank)
  {
    var g := Unlink(f, c, k);
    forall y | y in g ensures Holds(g, y) {
      UnlinkHolds(f, c, k, y);
    }
    forall y | y in g ensures Held(g, y) {
      UnlinkHeld(f, c, k, y);
    }
    assert rank.Keys == g.Keys;
    forall y | y in g ensures Below(g, rank, y) {
      assert Below(f, rank, y);
    }
  }

  lemma {:induction false} SumWithout<K>(f: Forest<K>, l: seq<K>, k: nat)
    requires Inside(f, l) && k < |l|
    ensures Inside(f, Without(l, k)) && Sum(f, Without(l, k)) == Sum(f, l) - Weight(f, l[k])
  {
    if k == 0 {
      assert Without(l, 0) == l[1..];
    } else {
      SumWithout(f, l[1..], k - 1);
      assert Without(l, k)[1..] == Without(l[1..], k - 1);
    }
  }

  lemma {:induction false} UnlinkWeighed<K>(f: Forest<K>, c: K, k: nat)
    requires Weighed(f) && c in f && k < |f[c].list| && f[c].list[k] in f && f[c].list[k] != c
    ensures WeighedBut(Unlink(f, c, k), c, -Weight(f, f[c].list[k]))
  {
    var g, x := Unlink(f, c, k), f[c].list[k];
    forall y | y in g ensures Off(g, y, if y == c then -Weight(f, x) else 0) {
      assert Off(f, y, 0);
      if f[y].holder {
        SumSame(f, g, f[y].list);
        if y == c {
          SumWithout(g, f[c].list, k);
        }
      }
    }
    assert Off(g, c, -Weight(f, x));
  }

  /** Passing a difference up and unlinking can be done in either order. */
  lemma {:induction false} UnlinkAddUp<K>(f: Forest<K>, rank: map<K, nat>, c: K, k: nat, diff: int)
    requires Ranked(f, rank) && c in f && k < |f[c].list| && f[c].list[k] in f && f[c].list[k] != c
    requires !Above(f, rank, f[c].list[k], c) && Ranked(Unlink(f, c, k), rank)
    ensures Unlink(AddUp(f, rank, c, diff), c, k) == AddUp(Unlink(f, c, k), rank, c, diff)
  {
    var g := Unlink(f, c, k);
    var one, other := Unlink(AddUp(f, rank, c, diff), c, k), AddUp(g, rank, c, diff);
    forall y | y in f ensures one[y] == other[y] {
      AboveSame(f, g, rank, y, c);
    }
  }

  /** Removing an item keeps the forest good, although its weight is taken off before it is unlinked. */
  lemma {:induction false} RemovedGood<K>(f: Forest<K>, rank: map<K, nat>, c: K, k: nat)
    requires Good(f, rank) && c in f && k < |f[c].list|
    ensures f[c].list[k] in f && f[c].list[k] != c && Good(Removed(f, rank, c, k), rank)
  {
    ChildFacts(f, rank, c, k);
    UnlinkLinked(f, rank, c, k);
    var diff := -Weight(f, f[c].list[k]);
    UnlinkWeighed(f, c, k);
    AddUpGood(Unlink(f, c, k), rank, c, diff);
    UnlinkAddUp(f, rank, c, k, diff);
  }

  // ----- Changing an item

  function Recount<K>(f: Forest<K>, x: K, kind: Kind, count: nat): (g: Forest<K>)
    requires x in f
  {
    f[x := f[x].(kind := kind, count := count)]
  }

  /** An item gets another type or count; the containers above it follow. */
  ghost function Updated<K>(f: Forest<K>, rank: map<K, nat>, x: K, kind: Kind, count: nat): (g: Forest<K>)
    requires Ranked(f, rank) && x in f
  {
    RecountRanked(f, rank, x, kind, count);
    var g := Recount(f, x, kind, count);
    if f[x].parent.None? then g else AddUp(g, rank, f[x].parent.value, Weight(g, x) - Weight(f, x))
  }

  lemma {:induction false} RecountRanked<K>(f: Forest<K>, rank: map<K, nat>, x: K, kind: Kind, count: nat)
    requires Ranked(f, rank) && x in f
    ensures Ranked(Recount(f, x, kind, count), rank) && Below(f, rank, x)
  {
    var g := Recount(f, x, kind, count);
    assert rank.Keys == g.Keys;
    forall y | y in g ensures Below(g, rank, y) {
      assert Below(f, rank, y);
    }
  }

  lemma {:induction false} RecountWeighed<K>(f: Forest<K>, x: K, kind: Kind, count: nat)
    requires Linked(f) && Weighed(f) && x in f
    ensures var g := Recount(f, x, kind, count);
      && Linked(g)
      && (f[x].parent.None? ==> Weighed(g))
      && (f[x].parent.Some? ==>
        f[x].parent.value in f && f[f[x].parent.value].holder
        && WeighedBut(g, f[x].parent.value, Weight(g, x) - Weight(f, x)))
  {
    var g := Recount(f, x, kind, count);
    var diff := Weight(g, x) - Weight(f, x);
    assert Changed(f, g, x, diff);
    ChangedLinked(f, g, x, diff);
    forall y | y in g ensures Off(g, y, if f[x].parent == Some(y) then diff else 0) {
      assert Off(f, y, 0);
      ChangedSum(f, g, x, diff, y);
    }
    if f[x].parent.Some? {
      assert Held(f, x) && Holds(f, f[x].parent.value);
      assert Off(g, f[x].parent.value, diff);
    }
  }

  /** Changing an item in place keeps the forest good. */
  lemma {:induction false} UpdatedGood<K>(f: Forest<K>, rank: map<K, nat>, x: K, kind: Kind, count: nat)
    requires Good(f, rank) && x in f
    ensures Good(Updated(f, rank, x, kind, count), rank)
  {
    RecountRanked(f, rank, x, kind, count);
    RecountWeighed(f, x, kind, count);
    if f[x].parent.Some? {
      var g := Recount(f, x, kind, count);
      AddUpGood(g, rank, f[x].parent.value, Weight(g, x) - Weight(f, x));
    }
  }

  // ----- Putting an item in another's place

  /** `x` takes the place of the `k`th item of `c`, which for now still names `c` as its parent. */
  function Displace<K>(f: Forest<K>, c: K, k: nat, x: K): (g: Forest<K>)
    requires c in f && x in f && c != x && k < |f[c].list|
  {
    f[c := f[c].(list := f[c].list[k := x])][x := f[x].(parent := Some(c))]
  }

  function Orphan<K>(f: Forest<K>, x: K): (g: Forest<K>)
    requires x in f
  {
    f[x := f[x].(parent := None)]
  }

  ghost predicate Placeable<K>(f: Forest<K>, rank: map<K, nat>, c: K, k: nat, x: K)
  {
    && Linked(f) && Ranked(f, rank) && c in f && k < |f[c].list| && f[c].list[k] in f && f[c].list[k] != c
    && x in f && x != c && x != f[c].list[k] && f[x].parent.None? && !Above(f, rank, x, c)
  }

  lemma {:induction false} DisplaceRanked<K>(f: Forest<K>, rank: map<K, nat>, c: K, k: nat, x: K)
    requires Placeable(f, rank, c, k, x)
    ensures Ranked(Displace(f, c, k, x), Deeper(f, rank, x, rank[c] + 1))
    ensures Ranked(Orphan(Displace(f, c, k, x), f[c].list[k]), Deeper(f, rank, x, rank[c] + 1))
  {
    var g, r := Displace(f, c, k, x), Deeper(f, rank, x, rank[c] + 1);
    var h := Orphan(g, f[c].list[k]);
    assert r.Keys == g.Keys == h.Keys;
    forall y | y in g ensures Below(g, r, y) && Below(h, r, y) {
      assert Below(f, rank, y);
      if y != x && f[y].parent.Some? {
        assert Above(f, rank, x, y) == Above(f, rank, x, f[y].parent.value);
      }
    }
  }

  lemma {:induction false} DisplaceHolds<K>(f: Forest<K>, rank: map<K, nat>, c: K, k: nat, x: K, y: K)
    requires Placeable(f, rank, c, k, x) && y in f
    ensures Holds(Orphan(Displace(f, c, k, x), f[c].list[k]), y)
  {
    var g := Orphan(Displace(f, c, k, x), f[c].list[k]);
    assert Holds(f, y) && Holds(f, c);
    forall i | 0 <= i < |g[y].list| ensures g[y].list[i] in g && g[g[y].list[i]].parent == Some(y) {
      if y != c || i != k {
        assert f[f[y].list[i]].parent == Some(y);
      }
    }
    forall i, j | 0 <= i < j < |g[y].list| ensures g[y].list[i] != g[y].list[j] {
      assert f[f[y].list[i]].parent == Some(y) && f[f[y].list[j]].parent == Some(y);
    }
  }

  lemma {:induction false} DisplaceHeld<K>(f: Forest<K>, rank: map<K, nat>, c: K, k: nat, x: K, y: K)
    requires Placeable(f, rank, c, k, x) && y in f
    ensures Held(Orphan(Displace(f, c, k, x), f[c].list[k]), y)
  {
    var g := Orphan(Displace(f, c, k, x), f[c].list[k]);
    assert Held(f, y);
    if y == x {
      assert g[c].list[k] == x;
    } else if y != f[c].list[k] && f[y].parent == Some(c) {
      var i :| 0 <= i < |f[c].list| && f[c].list[i] == y;
      assert g[c].list[i] == y;
    }
  }

  lemma {:induction false} DisplaceLinked<K>(f: Forest<K>, rank: map<K, nat>, c: K, k: nat, x: K)
    requires Placeable(f, rank, c, k, x)
    ensures Linked(Orphan(Displace(f, c, k, x), f[c].list[k]))
  {
    var h := Orphan(Displace(f, c, k, x), f[c].list[k]);
    forall y | y in h ensures Holds(h, y) {
      DisplaceHolds(f, rank, c, k, x, y);
    }
    forall y | y in h ensures Held(h, y) {
      DisplaceHeld(f, rank, c, k, x, y);
    }
  }

  lemma {:induction false} SumPut<K>(f: Forest<K>, l: seq<K>, k: nat, x: K)
    requires Inside(f, l) && k < |l| && x in f
    ensures Inside(f, l[k := x]) && Sum(f, l[k := x]) == Sum(f, l) - Weight(f, l[k]) + Weight(f, x)
  {
    if k == 0 {
      assert l[0 := x][1..] == l[1..];
    } else {
      SumPut(f, l[1..], k - 1, x);
      assert l[k := x][1..] == l[1..][k - 1 := x];
    }
  }

  lemma {:induction false} DisplaceWeighed<K>(f: Forest<K>, rank: map<K, nat>, c: K, k: nat, x: K)
    requires Placeable(f, rank, c, k, x) && Weighed(f) && f[c].holder
    ensures WeighedBut(Orphan(Displace(f, c, k, x), f[c].list[k]), c, Weight(f, x) - Weight(f, f[c].list[k]))
  {
    var old' := f[c].list[k];
    var g, diff := Orphan(Displace(f, c, k, x), old'), Weight(f, x) - Weight(f, old');
    forall y | y in g ensures Off(g, y, if y == c then diff else 0) {
      assert Off(f, y, 0);
      if f[y].holder {
        SumSame(f, g, f[y].list);
        if y == c {
          SumPut(g, f[c].list, k, x);
        }
      }
    }
    assert Off(g, c, diff);
  }

  /** What `replaceThing` does, in its order: the swap, the weights, and last the old item's parent. */
  ghost function Replaced<K>(f: Forest<K>, rank: map<K, nat>, c: K, k: nat, x: K): (g: Forest<K>)
    requires Placeable(f, rank, c, k, x)
  {
    DisplaceRanked(f, rank, c, k, x);
    Orphan(AddUp(Displace(f, c, k, x), Deeper(f, rank, x, rank[c] + 1), c, Weight(f, x) - Weight(f, f[c].list[k])),
           f[c].list[k])
  }

  lemma {:induction false} OrphanAddUp<K>(f: Forest<K>, rank: map<K, nat>, c: K, x: K, diff: int)
    requires Ranked(f, rank) && c in f && x in f && f[x].parent == Some(c) && Ranked(Orphan(f, x), rank)
    ensures Orphan(AddUp(f, rank, c, diff), x) == AddUp(Orphan(f, x), rank, c, diff)
  {
    var g := Orphan(f, x);
    assert Below(f, rank, x);
    if Above(f, rank, x, c) {
      AboveRank(f, rank, x, c);
    }
    forall y | y in f ensures Above(f, rank, y, c) == Above(g, rank, y, c) {
      AboveSame(f, g, rank, y, c);
    }
  }

  lemma {:induction false} HasRank<K>(f: Forest<K>, rank: map<K, nat>, c: K)
    requires Ranked(f, rank) && c in f
    ensures c in rank
  {
  }

  /** Replacing an item keeps the forest good, and the old item comes out without a parent. */
  lemma {:induction false} ReplacedGood<K>(f: Forest<K>, rank: map<K, nat>, c: K, k: nat, x: K)
    requires Placeable(f, rank, c, k, x) && Weighed(f)
    ensures Good(Replaced(f, rank, c, k, x), Deeper(f, rank, x, rank[c] + 1))
  {
    hide Linked, Ranked, Weighed, WeighedBut, Above, Deeper, Weight;
    HasRank(f, rank, c);
    var old', r := f[c].list[k], Deeper(f, rank, x, rank[c] + 1);
    var g, diff := Displace(f, c, k, x), Weight(f, x) - Weight(f, old');
    var h := Orphan(g, old');
    ChildFacts(f, rank, c, k);
    DisplaceRanked(f, rank, c, k, x);
    DisplaceLinked(f, rank, c, k, x);
    DisplaceWeighed(f, rank, c, k, x);
    AddUpGood(h, r, c, diff);
    OrphanAddUp(g, r, c, old', diff);
  }

  // ----- The cached weight is the whole weight

  /** The weight of an item and of everything in it, down to `depth` levels. */
  ghost function WholeWeight<K>(f: Forest<K>, x: K, depth: nat): int
    requires Linked(f) && x in f
    decreases depth, 0
  {
    assert Holds(f, x);
    Own(f[x].kind, f[x].count) + if depth == 0 then 0 else WholeSum(f, f[x].list, depth - 1)
  }

  ghost function WholeSum<K>(f: Forest<K>, l: seq<K>, depth: nat): int
    requires Linked(f) && Inside(f, l)
    decreases depth, 1, |l|
  {
    if l == [] then 0 else WholeWeight(f, l[0], depth) + WholeSum(f, l[1..], depth)
  }

  lemma {:induction false} ListRank<K>(f: Forest<K>, rank: map<K, nat>, x: K, i: nat)
    requires Linked(f) && Ranked(f, rank) && x in f && i < |f[x].list|
    ensures f[x].list[i] in f && rank[x] < rank[f[x].list[i]]
  {
    assert Holds(f, x) && Below(f, rank, f[x].list[i]);
  }

  /** With exact caches, `getWeight` is the weight of the item and of everything in it, however deep. */
  lemma {:induction false} CachedIsWhole<K>(f: Forest<K>, rank: map<K, nat>, x: K, depth: nat, top: nat)
    requires Good(f, rank) && x in f && forall y :: y in f ==> rank[y] <= top
    requires depth + rank[x] >= top
    ensures WholeWeight(f, x, depth) == Weight(f, x)
    decreases depth, 0
  {
    assert Holds(f, x) && Off(f, x, 0);
    forall i | 0 <= i < |f[x].list| ensures rank[f[x].list[i]] > rank[x] {
      ListRank(f, rank, x, i);
    }
    if depth > 0 {
      CachedIsWholeSum(f, rank, f[x].list, depth - 1, top);
    }
  }

  lemma {:induction false} CachedIsWholeSum<K>(f: Forest<K>, rank: map<K, nat>, l: seq<K>, depth: nat, top: nat)
    requires Good(f, rank) && Inside(f, l) && forall y :: y in f ==> rank[y] <= top
    requires forall i :: 0 <= i < |l| ==> depth + rank[l[i]] >= top
    ensures WholeSum(f, l, depth) == Sum(f, l)
    decreases depth, 1, |l|
  {
    if l != [] {
      CachedIsWhole(f, rank, l[0], depth, top);
      CachedIsWholeSum(f, rank, l[1..], depth, top);
    }
  }
}
