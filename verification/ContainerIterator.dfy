/** The breadth-first walk over everything in a container, kept in a queue of containers and a position. */
module ContainerIteration {
  import opened Common
  import opened ItemTree
  import opened Container

  // ----- The walk as a value

  /** The lists of the containers of `q`, one after another. */
  function Concat<K>(f: Forest<K>, q: seq<K>): seq<K>
    requires Inside(f, q)
  {
    if q == [] then [] else Concat(f, q[..|q| - 1]) + f[q[|q| - 1]].list
  }

  predicate Full<K>(n: Node<K>)
  {
    n.holder && n.list != []
  }

  /** The containers of `l` that are not empty. */
  function NonEmpty<K>(f: Forest<K>, l: seq<K>): (r: seq<K>)
    requires Inside(f, l)
  {
    if l == [] then [] else NonEmpty(f, l[..|l| - 1]) + if Full(f[l[|l| - 1]]) then [l[|l| - 1]] else []
  }

  /** How many containers `x` lies in. */
  ghost function Depth<K>(f: Forest<K>, rank: map<K, nat>, x: K): nat
    requires Ranked(f, rank) && x in f
    decreases rank[x]
  {
    assert Below(f, rank, x);
    if f[x].parent.None? then 0 else 1 + Depth(f, rank, f[x].parent.value)
  }

  /** All that `c` holds, directly or not. */
  ghost function Descendants<K>(f: Forest<K>, rank: map<K, nat>, c: K): set<K>
    requires Ranked(f, rank)
  {
    set x | x in f && x != c && Above(f, rank, c, x)
  }

  ghost predicate ByDepth<K>(f: Forest<K>, rank: map<K, nat>, l: seq<K>)
    requires Ranked(f, rank) && Inside(f, l)
  {
    forall i, j :: 0 <= i < j < |l| ==> Depth(f, rank, l[i]) <= Depth(f, rank, l[j])
  }

  /** `seen` has been visited: the lists of the first `h` containers of `q`, and `cur` items of the next. */
  ghost predicate Progress<K>(f: Forest<K>, c: K, q: seq<K>, h: nat, cur: nat, seen: seq<K>)
  {
    && Inside(f, q) && Inside(f, seen) && h <= |q| && c in f
    && q == [c] + NonEmpty(f, seen)
    && (h < |q| ==> cur < |f[q[h]].list|)
    && seen == Concat(f, q[..h]) + if h < |q| then f[q[h]].list[..cur] else []
  }

  /** Nothing has been visited twice, and deeper items come later. */
  ghost predicate Orderly<K>(f: Forest<K>, rank: map<K, nat>, c: K, q: seq<K>, seen: seq<K>)
    requires Ranked(f, rank)
  {
    && Inside(f, q) && Inside(f, seen) && c in f && |q| > 0
    && NoDup(seen) && NoDup(q) && c !in seen
    && (forall i :: 0 <= i < |seen| ==> Above(f, rank, c, seen[i]))
    && ByDepth(f, rank, [c] + seen) && ByDepth(f, rank, q)
  }

  lemma {:induction false} NonEmptyFrom<K>(f: Forest<K>, l: seq<K>, x: K)
    requires Inside(f, l)
    ensures Inside(f, NonEmpty(f, l))
    ensures x in NonEmpty(f, l) <==> x in l && Full(f[x])
  {
    if l != [] {
      NonEmptyFrom(f, l[..|l| - 1], x);
      assert l == l[..|l| - 1] + [l[|l| - 1]];
    }
  }

  lemma {:induction false} ConcatFrom<K>(f: Forest<K>, q: seq<K>, x: K)
    requires Linked(f) && Inside(f, q)
    ensures x in Concat(f, q) <==> x in f && f[x].parent.Some? && f[x].parent.value in q
  {
    if q != [] {
      var last := q[|q| - 1];
      ConcatFrom(f, q[..|q| - 1], x);
      assert q == q[..|q| - 1] + [last];
      assert Holds(f, last);
      if x in f {
        assert Held(f, x);
      }
    }
  }

  /** The item visited next has not been visited, and lies as deep as any before or deeper. */
  lemma {:induction false} NextIsNew<K>(f: Forest<K>, rank: map<K, nat>, c: K, q: seq<K>, h: nat, cur: nat,
        seen: seq<K>)
    requires Linked(f) && Ranked(f, rank) && Progress(f, c, q, h, cur, seen) && Orderly(f, rank, c, q, seen) && h < |q|
    ensures var x := f[q[h]].list[cur];
      && x in f && x !in seen && x != c && f[x].parent == Some(q[h]) && x !in q
  {
    var x := f[q[h]].list[cur];
    assert Holds(f, q[h]) && Below(f, rank, x);
    if x in seen {
      ConcatFrom(f, q[..h], x);
    }
    NonEmptyFrom(f, seen, x);
    QueueBelow(f, rank, c, q, seen, h);
    if x == c {
      AboveRank(f, rank, c, q[h]);
    }
  }

  lemma {:induction false} QueueBelow<K>(f: Forest<K>, rank: map<K, nat>, c: K, q: seq<K>, seen: seq<K>, h: nat)
    requires Ranked(f, rank) && Orderly(f, rank, c, q, seen) && q == [c] + NonEmpty(f, seen) && h < |q|
    ensures Above(f, rank, c, q[h])
  {
    if h > 0 {
      NonEmptyFrom(f, seen, q[h]);
    }
  }

  /** One visit keeps the order. */
  lemma {:induction false} VisitOrderly<K>(f: Forest<K>, rank: map<K, nat>, c: K, q: seq<K>, h: nat, cur: nat,
        seen: seq<K>)
    requires Linked(f) && Ranked(f, rank) && Progress(f, c, q, h, cur, seen) && Orderly(f, rank, c, q, seen) && h < |q|
    ensures var x := f[q[h]].list[cur];
      x in f && Orderly(f, rank, c, q + (if Full(f[x]) then [x] else []), seen + [x])
  {
    hide Depth, Concat, NonEmpty, Linked, ByDepth;
    var x := f[q[h]].list[cur];
    NextIsNew(f, rank, c, q, h, cur, seen);
    QueueBelow(f, rank, c, q, seen, h);
    NotDeeper(f, rank, c, q, h, cur, seen);
    ByDepthAppend(f, rank, [c] + seen, x);
    assert [c] + seen + [x] == [c] + (seen + [x]);
    ByDepthAppend(f, rank, q, x);
    assert q + [] == q;
  }

  lemma {:induction false} ByDepthAppend<K>(f: Forest<K>, rank: map<K, nat>, l: seq<K>, x: K)
    requires Ranked(f, rank) && Inside(f, l) && ByDepth(f, rank, l) && x in f
    requires forall i :: 0 <= i < |l| ==> Depth(f, rank, l[i]) <= Depth(f, rank, x)
    ensures ByDepth(f, rank, l + [x])
  {
  }

  /** Everything visited so far, and everything waiting, lies no deeper than the next item. */
  lemma {:induction false} NotDeeper<K>(f: Forest<K>, rank: map<K, nat>, c: K, q: seq<K>, h: nat, cur: nat,
        seen: seq<K>)
    requires Linked(f) && Ranked(f, rank) && Progress(f, c, q, h, cur, seen) && Orderly(f, rank, c, q, seen) && h < |q|
    ensures var x := f[q[h]].list[cur];
      && x in f
      && (forall i :: 0 <= i < |seen| ==> Depth(f, rank, seen[i]) <= Depth(f, rank, x))
      && (forall i :: 0 <= i < |q| ==> Depth(f, rank, q[i]) <= Depth(f, rank, x))
      && Depth(f, rank, c) <= Depth(f, rank, x)
  {
    var x := f[q[h]].list[cur];
    NextIsNew(f, rank, c, q, h, cur, seen);
    assert Below(f, rank, x);
    assert Depth(f, rank, x) == 1 + Depth(f, rank, q[h]);
    forall i | 0 <= i < |seen| ensures Depth(f, rank, seen[i]) <= Depth(f, rank, x) {
      SeenDepth(f, rank, c, q, h, cur, seen, i);
    }
    assert Depth(f, rank, q[0]) <= Depth(f, rank, q[h]);
    forall i | 0 <= i < |q| ensures Depth(f, rank, q[i]) <= Depth(f, rank, x) {
      if i > 0 {
        NonEmptyFrom(f, seen, q[i]);
      }
    }
  }

  lemma {:induction false} SeenDepth<K>(f: Forest<K>, rank: map<K, nat>, c: K, q: seq<K>, h: nat, cur: nat,
        seen: seq<K>, i: nat)
    requires Linked(f) && Ranked(f, rank) && Progress(f, c, q, h, cur, seen) && Orderly(f, rank, c, q, seen) && h < |q|
    requires i < |seen|
    ensures Depth(f, rank, seen[i]) <= 1 + Depth(f, rank, q[h])
  {
    var y, older := seen[i], Concat(f, q[..h]);
    assert Below(f, rank, y) && Holds(f, q[h]);
    if i < |older| {
      ConcatFrom(f, q[..h], y);
      var k :| 0 <= k < h && q[..h][k] == f[y].parent.value;
      assert Depth(f, rank, q[k]) <= Depth(f, rank, q[h]);
    } else {
      assert y == f[q[h]].list[i - |older|];
    }
  }

  lemma {:induction false} QueueGrows<K>(f: Forest<K>, c: K, q: seq<K>, seen: seq<K>, x: K)
    requires Inside(f, seen) && x in f && q == [c] + NonEmpty(f, seen)
    ensures Inside(f, seen + [x]) && q + (if Full(f[x]) then [x] else []) == [c] + NonEmpty(f, seen + [x])
  {
    assert (seen + [x])[..|seen|] == seen;
  }

  lemma {:induction false} SeenGrows<K>(f: Forest<K>, q: seq<K>, q': seq<K>, h: nat, cur: nat, seen: seq<K>)
    requires Inside(f, q) && Inside(f, q') && q <= q' && h < |q| && cur < |f[q[h]].list|
    requires seen == Concat(f, q[..h]) + f[q[h]].list[..cur]
    ensures var x := f[q[h]].list[cur];
      if cur + 1 < |f[q[h]].list| then seen + [x] == Concat(f, q'[..h]) + f[q'[h]].list[..cur + 1]
      else seen + [x] == Concat(f, q'[..h + 1])
  {
    var l := f[q[h]].list;
    assert q'[h] == q[h] && q'[..h] == q[..h] && q'[..h + 1][..h] == q[..h];
    assert l[..cur] + [l[cur]] == l[..cur + 1];
    assert l[..|l|] == l;
  }

  /** One visit is progress. */
  lemma {:induction false} VisitProgress<K>(f: Forest<K>, c: K, q: seq<K>, h: nat, cur: nat, seen: seq<K>)
    requires Linked(f) && Progress(f, c, q, h, cur, seen) && h < |q|
    ensures var x := f[q[h]].list[cur];
      && x in f
      && var q' := q + if Full(f[x]) then [x] else [];
         if cur + 1 < |f[q[h]].list| then Progress(f, c, q', h, cur + 1, seen + [x])
         else Progress(f, c, q', h + 1, 0, seen + [x])
  {
    var x := f[q[h]].list[cur];
    assert x in f by { assert Holds(f, q[h]); }
    var q' := q + if Full(f[x]) then [x] else [];
    QueueGrows(f, c, q, seen, x);
    SeenGrows(f, q, q', h, cur, seen);
    if h + 1 < |q| {
      NonEmptyFrom(f, seen, q[h + 1]);
    }
    assert f[q[h]].list[..0] == [];
    if h + 1 < |q'| {
      assert f[q'[h + 1]].list[..0] == [];
    }
  }

  /** Once the queue is used up, exactly the descendants have been visited, each once. */
  lemma {:induction false} AllVisited<K>(f: Forest<K>, rank: map<K, nat>, c: K, q: seq<K>, seen: seq<K>)
    requires Linked(f) && Ranked(f, rank) && Progress(f, c, q, |q|, 0, seen) && Orderly(f, rank, c, q, seen)
    ensures forall x :: x in seen <==> x in Descendants(f, rank, c)
    ensures |seen| == |Descendants(f, rank, c)|
  {
    assert q[..|q|] == q;
    forall x | x in Descendants(f, rank, c) ensures x in seen {
      Reached(f, rank, c, q, seen, x);
    }
    SetOf(seen, Descendants(f, rank, c));
  }

  lemma {:induction false} Reached<K>(f: Forest<K>, rank: map<K, nat>, c: K, q: seq<K>, seen: seq<K>, x: K)
    requires Linked(f) && Ranked(f, rank) && c in f && Inside(f, q) && Inside(f, seen)
    requires q == [c] + NonEmpty(f, seen) && seen == Concat(f, q)
    requires x in f && x != c && Above(f, rank, c, x)
    ensures x in seen
    decreases rank[x]
  {
    assert Below(f, rank, x) && Held(f, x);
    var p := f[x].parent.value;
    if p != c {
      Reached(f, rank, c, q, seen, p);
    }
    assert Holds(f, p);
    NonEmptyFrom(f, seen, p);
    ConcatFrom(f, q, x);
  }

  lemma {:induction false} SetOf<K>(l: seq<K>, s: set<K>)
    requires NoDup(l) && forall x :: x in l <==> x in s
    ensures |l| == |s|
  {
    if l == [] {
      assert s == {};
    } else {
      var last := l[|l| - 1];
      assert l == l[..|l| - 1] + [last];
      SetOf(l[..|l| - 1], s - {last});
    }
  }

  /** An empty container has nothing to visit, and any other is the first in the queue. */
  lemma {:induction false} Start<K>(f: Forest<K>, rank: map<K, nat>, c: K)
    requires Linked(f) && Ranked(f, rank) && c in f
    ensures Progress(f, c, [c], if f[c].list != [] then 0 else 1, 0, []) && Orderly(f, rank, c, [c], [])
  {
    assert [c][..0] == [] && [c][..1] == [c];
    assert Concat(f, [c]) == [] + f[c].list;
  }

  /** Where one visit leaves the walk: the position in the queue, and in the list there. */
  lemma {:induction false} Visit<K>(f: Forest<K>, rank: map<K, nat>, c: K, q: seq<K>, h: nat, cur: nat, seen: seq<K>)
    returns (q': seq<K>, h': nat, cur': nat)
    requires Linked(f) && Ranked(f, rank) && Progress(f, c, q, h, cur, seen) && Orderly(f, rank, c, q, seen) && h < |q|
    ensures f[q[h]].list[cur] in f
    ensures q' == q + if Full(f[f[q[h]].list[cur]]) then [f[q[h]].list[cur]] else []
    ensures if cur + 1 < |f[q[h]].list| then h' == h && cur' == cur + 1 else h' == h + 1 && cur' == 0
    ensures Progress(f, c, q', h', cur', seen + [f[q[h]].list[cur]])
    ensures Orderly(f, rank, c, q', seen + [f[q[h]].list[cur]])
  {
    VisitOrderly(f, rank, c, q, h, cur, seen);
    VisitProgress(f, c, q, h, cur, seen);
    q' := q + if Full(f[f[q[h]].list[cur]]) then [f[q[h]].list[cur]] else [];
    h', cur' := if cur + 1 < |f[q[h]].list| then h else h + 1, if cur + 1 < |f[q[h]].list| then cur + 1 else 0;
  }

  lemma {:induction false} SubsetSize<K>(a: set<K>, b: set<K>)
    requires a <= b
    ensures |a| <= |b|
  {
    if a != {} {
      var x :| x in a;
      SubsetSize(a - {x}, b - {x});
    }
  }

  lemma {:induction false} SeenAtMost<K>(f: Forest<K>, rank: map<K, nat>, c: K, q: seq<K>, seen: seq<K>)
    requires Ranked(f, rank) && Orderly(f, rank, c, q, seen)
    ensures |seen| <= |Descendants(f, rank, c)|
  {
    var s := set i | 0 <= i < |seen| :: seen[i];
    SetOf(seen, s);
    SubsetSize(s, Descendants(f, rank, c));
  }

  /** The queue that is left, the position, and what has been done so far fit together. */
  ghost predicate Walk<K>(f: Forest<K>, rank: map<K, nat>, c: K, over: seq<K>, cur: nat, queue: seq<K>, seen: seq<K>)
  {
    && Linked(f) && Ranked(f, rank)
    && |over| <= |queue| && over == queue[|queue| - |over|..]
    && Progress(f, c, queue, |queue| - |over|, cur, seen) && Orderly(f, rank, c, queue, seen)
    && |seen| <= |Descendants(f, rank, c)|
  }

  lemma {:induction false} WalkStarts<K>(f: Forest<K>, rank: map<K, nat>, c: K, over: seq<K>)
    requires Linked(f) && Ranked(f, rank) && c in f && over == if f[c].list != [] then [c] else []
    ensures Walk(f, rank, c, over, 0, [c], [])
  {
    hide Linked, Ranked, Progress, Orderly, Descendants;
    Start(f, rank, c);
  }

  lemma {:induction false} Suffix<K>(queue: seq<K>, over: seq<K>, more: seq<K>, k: nat)
    requires |over| <= |queue| && over == queue[|queue| - |over|..] && k <= |over|
    ensures (queue + more)[|queue| - |over| + k..] == (over + more)[k..]
  {
  }

  /** One visit: a container that is not empty joins the queue, and the front one leaves it when used up. */
  lemma {:induction false} WalkOn<K>(f: Forest<K>, rank: map<K, nat>, c: K, over: seq<K>, cur: nat, queue: seq<K>,
        seen: seq<K>)
    returns (over': seq<K>, cur': nat, queue': seq<K>)
    requires Walk(f, rank, c, over, cur, queue, seen) && over != []
    ensures over[0] in f && cur < |f[over[0]].list| && f[over[0]].list[cur] in f
    ensures var x := f[over[0]].list[cur];
      && queue' == queue + (if Full(f[x]) then [x] else [])
      && over' == (over + (if Full(f[x]) then [x] else []))[if cur + 1 == |f[over[0]].list| then 1 else 0..]
      && cur' == (if cur + 1 == |f[over[0]].list| then 0 else cur + 1)
      && Walk(f, rank, c, over', cur', queue', seen + [x])
  {
    var h := |queue| - |over|;
    assert over[0] == queue[h];
    hide Progress, Orderly, Linked, Descendants, Full;
    var h';
    queue', h', cur' := Visit(f, rank, c, queue, h, cur, seen);
    over' := queue'[h'..];
    Suffix(queue, over, if Full(f[f[over[0]].list[cur]]) then [f[over[0]].list[cur]] else [], h' - h);
    SeenAtMost(f, rank, c, queue', seen + [f[queue[h]].list[cur]]);
  }

  /** At its end the walk has visited every descendant exactly once, level after level. */
  lemma {:induction false} WalkDone<K>(f: Forest<K>, rank: map<K, nat>, c: K, over: seq<K>, cur: nat, queue: seq<K>,
        seen: seq<K>)
    requires Walk(f, rank, c, over, cur, queue, seen) && over == []
    ensures forall x :: x in seen <==> x in Descendants(f, rank, c)
    ensures |seen| == |Descendants(f, rank, c)| && NoDup(seen) && ByDepth(f, rank, seen)
  {
    assert Progress(f, c, queue, |queue|, 0, seen);
    AllVisited(f, rank, c, queue, seen);
    forall i, j | 0 <= i < j < |seen| ensures Depth(f, rank, seen[i]) <= Depth(f, rank, seen[j]) {
      assert ([c] + seen)[i + 1] == seen[i] && ([c] + seen)[j + 1] == seen[j];
    }
  }

  // ----- The walk as an object

  class ContainerIterator {
    var over: seq<Item>
    var cur: nat
    /** All containers ever queued, and all items visited. */
    ghost var queue: seq<Item>
    ghost var seen: seq<Item>

    ghost predicate Valid(f: Forest<Item>, rank: map<Item, nat>, c: Item)
      reads this
    {
      Walk(f, rank, c, over, cur, queue, seen)
    }

    /** The iterator of a container, before its first item. */
    constructor (c: Item, ghost s: set<Item>, ghost rank: map<Item, nat>)
      requires c in s && Linked(Snap(s)) && Ranked(Snap(s), rank)
      ensures Valid(Snap(s), rank, c) && seen == []
    {
      over := if c.itemlist != [] then [c] else [];
      cur := 0;
      queue, seen := [c], [];
      new;
      hide Walk, Linked, Ranked, Progress, Orderly, Descendants;
      WalkStarts(Snap(s), rank, c, over);
    }

    predicate HasNext()
      reads this
    {
      over != []
    }

    /** The item the iterator stands at. */
    function At(ghost s: set<Item>, ghost rank: map<Item, nat>, ghost c: Item): Item
      requires Valid(Snap(s), rank, c) && HasNext()
      reads this, over, s
    {
      assert over[0] == queue[|queue| - |over|] && over[0] in s;
      over[0].itemlist[cur]
    }

    method Advance(ghost s: set<Item>, ghost rank: map<Item, nat>, ghost c: Item)
      requires Valid(Snap(s), rank, c) && HasNext()
      modifies this
      ensures Valid(Snap(s), rank, c) && seen == old(seen) + [old(At(s, rank, c))]
      ensures |old(seen)| < |Descendants(Snap(s), rank, c)| && old(At(s, rank, c)) in Descendants(Snap(s), rank, c)
    {
      assert over[0] == queue[|queue| - |over|];
      ghost var over', cur', queue' := WalkOn(Snap(s), rank, c, over, cur, queue, seen);
      Step(over[0].itemlist[cur], over[0]);
      assert seen[|seen| - 1] == old(At(s, rank, c));
    }

    /** A container that is not empty joins the queue; the front one leaves it when used up. */
    method Step(i: Item, front: Item)
      requires over != [] && over[0] == front
      modifies this
      ensures seen == old(seen) + [i]
      ensures queue == old(queue) + if i.holder && i.itemlist != [] then [i] else []
      ensures over == (old(over) + (if i.holder && i.itemlist != [] then [i] else []))
                        [if old(cur) + 1 == |front.itemlist| then 1 else 0..]
      ensures cur == if old(cur) + 1 == |front.itemlist| then 0 else old(cur) + 1
    {
      seen := seen + [i];
      if i.holder && i.itemlist != [] {
        over := over + [i];
        queue := queue + [i];
      }
      cur := cur + 1;
      if cur == |front.itemlist| {
        over := over[1..];
        cur := 0;
      }
    }
  }

  /** The number of items in a container, however deep. */
  method GetItemHoldingCount(c: Item, ghost s: set<Item>, ghost rank: map<Item, nat>) returns (counter: nat)
    requires c in s && Linked(Snap(s)) && Ranked(Snap(s), rank)
    ensures counter == |Descendants(Snap(s), rank, c)|
  {
    hide Walk, Linked, Ranked, Descendants, Snap;
    ghost var f := Snap(s);
    ghost var all := |Descendants(f, rank, c)|;
    counter := 0;
    var it := new ContainerIterator(c, s, rank);
    while it.HasNext()
      invariant it.Valid(f, rank, c) && fresh(it) && counter == |it.seen|
      decreases all - |it.seen|
    {
      counter := counter + 1;
      it.Advance(s, rank, c);
    }
    WalkDone(f, rank, c, it.over, it.cur, it.queue, it.seen);
  }

  /** Whether an item lies in a container, however deep. */
  method IsHoldingItem(c: Item, item: Item, ghost s: set<Item>, ghost rank: map<Item, nat>) returns (r: bool)
    requires c in s && Linked(Snap(s)) && Ranked(Snap(s), rank)
    ensures r <==> item in Descendants(Snap(s), rank, c)
  {
    hide Walk, Linked, Ranked, Descendants, Snap;
    ghost var f := Snap(s);
    ghost var all := |Descendants(f, rank, c)|;
    var it := new ContainerIterator(c, s, rank);
    while it.HasNext()
      invariant it.Valid(f, rank, c) && fresh(it) && item !in it.seen
      decreases all - |it.seen|
    {
      var visited := it.At(s, rank, c);
      it.Advance(s, rank, c);
      if visited == item {
        return true;
      }
    }
    WalkDone(f, rank, c, it.over, it.cur, it.queue, it.seen);
    return false;
  }
}
