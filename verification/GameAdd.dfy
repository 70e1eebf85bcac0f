/** Adding an item to a container: `internalAddItem` fills one stack after another, and what is accepted
    at first arrives to the last unit. */
module GameAdd {
  import opened Common
  import opened ItemTree
  import opened ContainerOps
  import Ops = ContainerOps
  import opened Moves
  import opened Container
  import opened GameMoves

  /** The answer to adding `x`: room is asked of the container named, admission of the one it is sent to. */
  ghost function AddAnswer<K>(w: World<K>, dest: K, index: int, x: K, flags: Flags): ReturnValue
    requires Sound(w) && dest in w.f && x in w.f
  {
    var p := Destination(w.f, dest, index, x, flags);
    DestinationFacts(w.f, dest, index, x, flags);
    var ret := QueryAdd(w, p.to, p.index, x, flags);
    if ret != NoError then ret
    else MaxCountReturn(w.f[x].kind, w.f[x].count, MaxCount(w, dest, WHEREEVER, x, w.f[x].count, flags), flags)
  }

  predicate Plain(flags: Flags)
  {
    !flags.noLimit && !flags.childIsOwner && !flags.ignoreAutoStack
  }

  /** Where no stack has room, the list has none. */
  lemma {:induction false} NoStackNoRoom<K>(f: Forest<K>, l: seq<K>, x: K)
    requires Inside(f, l) && x in f
    ensures FindStack(f, l, x) == |l| ==> Room(f, l, x) == 0
  {
    if l != [] {
      NoStackNoRoom(f, l[1..], x);
    }
  }

  /** What an accepted addition can rely on: where it goes, and that a new place in the list is free if one is
      needed. */
  lemma {:induction false} AcceptedFits<K>(w: World<K>, dest: K, index: int, x: K, flags: Flags)
    requires Sound(w) && Stacked(w.f) && dest in w.f && w.f[dest].holder && x in w.f && w.f[x].parent.None?
    requires Plain(flags) && AddAnswer(w, dest, index, x, flags) == NoError
    ensures var p := Destination(w.f, dest, index, x, flags);
      && Settled(w.f, x, p) && w.f[p.to].holder && Fits(w, p.to, x)
      && (p.item.Some? ==>
            p.to == dest && p.item != Some(x) && p.item.value in w.f && w.f[p.item.value].parent == Some(dest))
      && (Onto(w.f, p, x, w.f[x].count) == 0 ==>
            |w.f[p.to].list| < w.f[p.to].capacity && p.index < w.f[p.to].capacity)
  {
    var p := Destination(w.f, dest, index, x, flags);
    DestinationFacts(w.f, dest, index, x, flags);
    assert Holds(w.f, dest) && Holds(w.f, p.to);
    if w.f[x].kind.stackable {
      assert StackOk(w.f[x]);
    }
    if p.item.Some? {
      assert w.f[p.item.value].parent == Some(p.to);
      assert StackOk(w.f[p.item.value]);
    }
    NoStackNoRoom(w.f, w.f[dest].list, x);
  }

  /** Room shrinks by what one of the stacks has taken. */
  lemma {:induction false} RoomAfter<K>(f: Forest<K>, g: Forest<K>, l: seq<K>, x: K, x': K, k: nat, n: nat)
    requires Inside(f, l) && Inside(g, l) && x in f && x' in g && k < |l| && g[x'].kind == f[x].kind && NoDup(l)
    requires forall i :: 0 <= i < |l| ==> l[i] != x && l[i] != x'
    requires forall i :: 0 <= i < |l| ==>
      g[l[i]].kind == f[l[i]].kind && g[l[i]].count == f[l[i]].count + if i == k then n else 0
    requires StacksOn(f, x, l[k]) && n <= STACK - f[l[k]].count
    ensures Room(g, l, x') == Room(f, l, x) - n
  {
    if k == 0 {
      RoomSame(f, g, l[1..], x, x');
    } else {
      RoomAfter(f, g, l[1..], x, x', k - 1, n);
    }
  }

  lemma {:induction false} RoomSame<K>(f: Forest<K>, g: Forest<K>, l: seq<K>, x: K, x': K)
    requires Inside(f, l) && Inside(g, l) && x in f && x' in g && g[x'].kind == f[x].kind
    requires forall i :: 0 <= i < |l| ==> l[i] != x && l[i] != x'
    requires forall i :: 0 <= i < |l| ==>
      g[l[i]].kind == f[l[i]].kind && g[l[i]].count == f[l[i]].count
    ensures Room(g, l, x') == Room(f, l, x)
  {
    if l != [] {
      RoomSame(f, g, l[1..], x, x');
    }
  }

  /** The world in which the rest `x'` of `x` is added, after `n` units went onto the stack found. */
  ghost predicate RestOf<K>(w: World<K>, dest: K, p: Place<K>, x: K, n: nat, x': K, w': World<K>)
  {
    && Sound(w) && Sound(w') && Stacked(w.f) && dest in w.f && x in w.f && w.f[x].parent.None? && x' !in w.f
    && w.f[x].kind.stackable && p.to == dest && Settled(w.f, x, p) && p.item.Some? && p.item.value in w.f
    && w.f[p.item.value].kind == w.f[x].kind && w.f[p.item.value].count + n == STACK && 0 < n < w.f[x].count
    && w'.f.Keys == w.f.Keys + {x'}
    && w'.f[x'].kind == w.f[x].kind && w'.f[x'].count == w.f[x].count - n && Fits(w', dest, x')
    && w'.f[dest].list == w.f[dest].list && w'.f[dest].capacity == w.f[dest].capacity
    && w'.f[dest].unlocked == w.f[dest].unlocked
    && forall y :: y in w.f ==>
         w'.f[y].kind == w.f[y].kind && w'.f[y].count == w.f[y].count + if y == p.item.value then n else 0
  }

  /** The rest is accepted too, and in the same container. */
  lemma {:induction false} RestAccepted<K>(w: World<K>, dest: K, index: int, x: K, flags: Flags, n: nat, x': K,
        w': World<K>)
    requires Sound(w) && dest in w.f && x in w.f && Plain(flags) && AddAnswer(w, dest, index, x, flags) == NoError
    requires RestOf(w, dest, Destination(w.f, dest, index, x, flags), x, n, x', w')
    ensures AddAnswer(w', dest, WHEREEVER, x', flags) == NoError
    ensures Destination(w'.f, dest, WHEREEVER, x', flags).to == dest
  {
    var p := Destination(w.f, dest, index, x, flags);
    var l := w.f[dest].list;
    assert Holds(w.f, dest) && Holds(w'.f, dest);
    forall i | 0 <= i < |l| ensures l[i] != x && l[i] != x' {
      assert w.f[l[i]].parent == Some(dest);
    }
    RoomAfter(w.f, w'.f, l, x, x', p.index, n);
    NoStackNoRoom(w'.f, l, x');
  }

  /** When an addition is accepted, said by the places and the stacks alone: it may go where it is sent, where a place
      is free if there is no index, and the container named has a free place or, for a stack, room for all of it in
      the stacks there. */
  lemma {:induction false} AddIff<K>(w: World<K>, dest: K, index: int, x: K, flags: Flags)
    requires Sound(w) && Stacked(w.f) && dest in w.f && x in w.f && Plain(flags)
    ensures Inside(w.f, w.f[dest].list)
    ensures var p := Destination(w.f, dest, index, x, flags);
      && p.to in w.f
      && (AddAnswer(w, dest, index, x, flags) == NoError
          <==> && w.f[p.to].unlocked && w.f[x].kind.pickupable && !Above(w.f, w.rank, x, p.to)
               && (p.index == WHEREEVER ==> HasSlot(w.f, p.to))
               && (HasSlot(w.f, dest)
                   || (w.f[x].kind.stackable && !Above(w.f, w.rank, x, dest)
                       && w.f[x].count <= Room(w.f, w.f[dest].list, x))))
  {
    hide Above, Ranked, Weighed, Room;
    DestinationFacts(w.f, dest, index, x, flags);
    assert Holds(w.f, dest) && StackOk(w.f[x]);
  }

  // ----- Stacks are filled in order

  /** What has become of the stack `y` in a list that is longer now or not: it may have grown, and if `x` could be put
      onto it, it is full before the list grows. */
  ghost predicate TopsUp<K>(w: World<K>, w': World<K>, x: K, y: K, longer: bool)
    requires x in w.f && y in w.f && y in w'.f
  {
    && w'.f[y].kind == w.f[y].kind && w'.f[y].count >= w.f[y].count
    && (StacksOn(w.f, x, y) && longer ==> w'.f[y].count == STACK)
  }

  /** A stack that `x` can be put onto is full before one behind it grows. */
  ghost predicate Earlier<K>(w: World<K>, w': World<K>, x: K, y: K, z: K)
    requires x in w.f && y in w.f && y in w'.f && z in w.f && z in w'.f
  {
    StacksOn(w.f, x, y) && w'.f[z].count > w.f[z].count ==> w'.f[y].count == STACK
  }

  /** Stacks of the list that `x` can be put onto are filled one after the other, the first ones first, and the list
      gets a new member only when all of them are full. */
  ghost predicate FilledInOrder<K>(w: World<K>, w': World<K>, c: K, x: K)
    requires c in w.f && x in w.f && Inside(w.f, w.f[c].list)
  {
    var l := w.f[c].list;
    && c in w'.f && Inside(w'.f, l) && |l| <= |w'.f[c].list| && w'.f[c].list[|w'.f[c].list| - |l|..] == l
    && AllTopUp(w, w', x, l, |w'.f[c].list| > |l|)
  }

  ghost predicate AllTopUp<K>(w: World<K>, w': World<K>, x: K, l: seq<K>, longer: bool)
    requires x in w.f && Inside(w.f, l) && Inside(w'.f, l)
  {
    && (forall i {:trigger TopsUp(w, w', x, l[i], longer)} :: 0 <= i < |l| ==> TopsUp(w, w', x, l[i], longer))
    && (forall i, j {:trigger Earlier(w, w', x, l[i], l[j])} :: 0 <= i < j < |l| ==> Earlier(w, w', x, l[i], l[j]))
  }

  /** What is said of the stacks, when the item stays in the container named. */
  ghost predicate Fills<K>(w: World<K>, dest: K, index: int, x: K, flags: Flags, w': World<K>)
    requires Sound(w) && dest in w.f && x in w.f
  {
    assert Holds(w.f, dest);
    (index != MOVE_UP && w.f[x].kind.stackable && w.f[dest].unlocked
     && Destination(w.f, dest, index, x, flags).to == dest)
    ==> FilledInOrder(w, w', dest, x)
  }

  /** All goes onto the first stack found. */
  lemma {:induction false} MergeFills<K>(w: World<K>, p: Place<K>, x: K, n: nat, w': World<K>)
    requires Sound(w) && p.to in w.f && x in w.f && Inside(w.f, w.f[p.to].list) && p.item.Some? && p.item.value in w.f
    requires FirstStack(w.f, w.f[p.to].list, x, p.index) && p.item.value == w.f[p.to].list[p.index]
    requires w'.f.Keys >= w.f.Keys && forall y {:trigger w'.f[y]} :: y in w.f ==>
      w'.f[y].list == w.f[y].list && w'.f[y].kind == w.f[y].kind
      && w'.f[y].count == w.f[y].count + if y == p.item.value then n else 0
    ensures FilledInOrder(w, w', p.to, x)
  {
    var l := w.f[p.to].list;
    assert Holds(w.f, p.to);
    assert w'.f[p.to].list == l && l[0..] == l;
    forall i, j | 0 <= i < j < |l| ensures Earlier(w, w', x, l[i], l[j]) {
      assert j != p.index ==> l[j] != p.item.value;
    }
  }

  /** An item that is merged goes onto the first stack that can take it. */
  lemma {:induction false} FirstFound<K>(w: World<K>, dest: K, index: int, x: K, flags: Flags, p: Place<K>)
    requires Sound(w) && dest in w.f && x in w.f && w.f[x].parent.None? && Plain(flags)
    requires p == Destination(w.f, dest, index, x, flags) && p.to == dest && p.item.Some? && p.item.value in w.f
    requires p.item.value != x && w.f[x].kind.stackable && StacksOn(w.f, x, p.item.value)
    ensures Inside(w.f, w.f[dest].list) && FirstStack(w.f, w.f[dest].list, x, p.index)
    ensures p.index == FindStack(w.f, w.f[dest].list, x) && p.item.value == w.f[dest].list[p.index]
  {
    assert Holds(w.f, dest);
    DestinationFacts(w.f, dest, index, x, flags);
  }

  lemma {:induction false} FilledFirst<K>(w: World<K>, dest: K, p: Place<K>, x: K, n: nat, rest: K, w1: World<K>)
    requires RestOf(w, dest, p, x, n, rest, w1) && Inside(w.f, w.f[dest].list)
    requires FirstStack(w.f, w.f[dest].list, x, p.index) && p.item.value == w.f[dest].list[p.index]
    ensures FirstFull(w, dest, x, p.index, w1, rest)
  {
    assert Holds(w.f, dest);
  }

  /** With no stack to put it onto, it goes to the front. */
  lemma {:induction false} NewFills<K>(w: World<K>, c: K, x: K, w': World<K>)
    requires Sound(w) && c in w.f && x in w.f && Inside(w.f, w.f[c].list) && OneMoreIn(w.f, w'.f, c, x)
    requires forall i {:trigger w.f[c].list[i]} :: 0 <= i < |w.f[c].list| ==> !StacksOn(w.f, x, w.f[c].list[i])
    ensures FilledInOrder(w, w', c, x)
  {
    var l := w.f[c].list;
    assert w'.f[c].list == [x] + l;
    assert w'.f[c].list[1..] == l;
  }

  /** One stack has been filled, and the rest goes on. */
  lemma {:induction false} RestFills<K>(w: World<K>, c: K, x: K, k: nat, w1: World<K>, rest: K, w2: World<K>)
    requires FirstFull(w, c, x, k, w1, rest) && FilledInOrder(w1, w2, c, rest) && Stacked(w2.f)
    ensures FilledInOrder(w, w2, c, x)
  {
    hide AllTopUp, FirstStack, Stacked;
    RestTopsUp(w, c, x, k, w1, rest, w2, w.f[c].list, |w2.f[c].list| > |w.f[c].list|);
  }

  lemma {:induction false} RestTopsUp<K>(w: World<K>, c: K, x: K, k: nat, w1: World<K>, rest: K, w2: World<K>,
        l: seq<K>, longer: bool)
    requires FirstFull(w, c, x, k, w1, rest) && l == w.f[c].list && Inside(w2.f, l) && Stacked(w2.f)
    requires AllTopUp(w1, w2, rest, l, longer)
    ensures AllTopUp(w, w2, x, l, longer)
  {
    hide TopsUp, Earlier, FirstFull, Stacked;
    assert Inside(w.f, l) && Inside(w1.f, l) && x in w.f && rest in w1.f by { FirstInside(w, c, x, k, w1, rest); }
    forall i | 0 <= i < |l| ensures TopsUp(w, w2, x, l[i], longer) {
      assert TopsUp(w1, w2, rest, l[i], longer);
      RestGrown(w, c, x, k, w1, rest, w2, i, longer);
    }
    forall i, j | 0 <= i < j < |l| ensures Earlier(w, w2, x, l[i], l[j]) {
      assert TopsUp(w1, w2, rest, l[i], longer) && TopsUp(w1, w2, rest, l[j], longer);
      assert Earlier(w1, w2, rest, l[i], l[j]);
      RestEarlier(w, c, x, k, w1, rest, w2, i, j, longer);
    }
  }

  lemma {:induction false} FirstInside<K>(w: World<K>, c: K, x: K, k: nat, w1: World<K>, rest: K)
    requires FirstFull(w, c, x, k, w1, rest)
    ensures c in w.f && x in w.f && rest in w1.f && Inside(w.f, w.f[c].list) && Inside(w1.f, w.f[c].list)
  {
  }

  /** In `w1` the first stack of `w` is full, and nothing else in the list is new. */
  ghost predicate FirstFull<K>(w: World<K>, c: K, x: K, k: nat, w1: World<K>, rest: K)
  {
    && c in w.f && x in w.f && c in w1.f && rest in w1.f && rest !in w.f && Inside(w.f, w.f[c].list)
    && FirstStack(w.f, w.f[c].list, x, k) && w1.f[c].list == w.f[c].list && Inside(w1.f, w1.f[c].list)
    && w1.f[rest].kind == w.f[x].kind && w.f[x].kind.stackable && w1.f[c].unlocked == w.f[c].unlocked
    && forall i {:trigger w.f[c].list[i]} :: 0 <= i < |w.f[c].list| ==>
      w1.f[w.f[c].list[i]].kind == w.f[w.f[c].list[i]].kind
      && w1.f[w.f[c].list[i]].count == if i == k then STACK else w.f[w.f[c].list[i]].count
  }

  lemma {:induction false} RestGrown<K>(w: World<K>, c: K, x: K, k: nat, w1: World<K>, rest: K, w2: World<K>, i: nat,
        longer: bool)
    requires FirstFull(w, c, x, k, w1, rest) && i < |w.f[c].list| && w.f[c].list[i] in w2.f && Stacked(w2.f)
    requires TopsUp(w1, w2, rest, w.f[c].list[i], longer)
    ensures TopsUp(w, w2, x, w.f[c].list[i], longer) && (i == k ==> w2.f[w.f[c].list[i]].count == STACK)
  {
    assert StackOk(w2.f[w.f[c].list[i]]);
  }

  lemma {:induction false} RestEarlier<K>(w: World<K>, c: K, x: K, k: nat, w1: World<K>, rest: K, w2: World<K>, i: nat,
        j: nat, longer: bool)
    requires FirstFull(w, c, x, k, w1, rest) && i < j < |w.f[c].list| && Stacked(w2.f)
    requires w.f[c].list[i] in w2.f && w.f[c].list[j] in w2.f
    requires TopsUp(w1, w2, rest, w.f[c].list[i], longer) && TopsUp(w1, w2, rest, w.f[c].list[j], longer)
    requires Earlier(w1, w2, rest, w.f[c].list[i], w.f[c].list[j])
    ensures Earlier(w, w2, x, w.f[c].list[i], w.f[c].list[j])
  {
    RestGrown(w, c, x, k, w1, rest, w2, i, longer);
    RestGrown(w, c, x, k, w1, rest, w2, j, longer);
    if i == k {
    } else if j == k {
      assert !StacksOn(w.f, x, w.f[c].list[i]);
    }
  }

  // ----- What each step adds

  /** `w'` is `w` with `count` units of a kind more in `to`; a forest within its limits stays so. */
  ghost predicate Arrived<K>(w: World<K>, w': World<K>, to: K, kind: Kind, count: nat)
    requires Sound(w)
  {
    && Sound(w') && Stacked(w'.f) && w.f.Keys <= w'.f.Keys
    && Gains(w.f, w'.f, to, kind, count)
    && (Within(w.f) ==> Within(w'.f))
  }

  lemma {:induction false} ArrivedTwice<K>(w: World<K>, w1: World<K>, w2: World<K>, to: K, kind: Kind, a: nat, b: nat)
    requires Sound(w) && Sound(w1) && to in w.f && Arrived(w, w1, to, kind, a) && Arrived(w1, w2, to, kind, b)
    ensures Arrived(w, w2, to, kind, a + b)
  {
    GainsTwice(w.f, w1.f, w2.f, to, kind, a, b);
  }

  lemma {:induction false} MergeArrives<K>(w: World<K>, p: Place<K>, kind: Kind, n: nat)
    requires Mergeable(w, p, kind, n)
    ensures Arrived(w, Merge(w, p, kind, n), p.to, kind, n) && SamePlaces(w, Merge(w, p, kind, n))
  {
    var w1 := Merge(w, p, kind, n);
    MergeKeeps(w, p, kind, n, w1);
    if Within(w.f) {
      SameWithin(w, w1);
    }
  }

  lemma {:induction false} SameWithin<K>(w: World<K>, w1: World<K>)
    requires SamePlaces(w, w1) && Within(w.f)
    ensures Within(w1.f)
  {
    forall d | d in w1.f ensures Roomy(w1.f[d]) {
      assert Roomy(w.f[d]);
    }
  }

  lemma {:induction false} CreatedArrives<K>(w: World<K>, n: K, kind: Kind, count: nat, c: K)
    requires Sound(w) && Stacked(w.f) && n !in w.f && c in w.f && w.f[c].holder && kind.stackable && 1 <= count <= STACK
    ensures Arrived(w, Created(w, n, kind, count), c, kind, 0) && Fits(Created(w, n, kind, count), c, n)
  {
    var w1 := Created(w, n, kind, count);
    CreatedSound(w, n, kind, count);
    CreatedFits(w, n, kind, count, c);
    CreatedGains(w, n, kind, count, c);
    forall y | y in w1.f ensures StackOk(w1.f[y]) {
      assert y != n ==> StackOk(w.f[y]);
    }
    if Within(w.f) {
      forall d | d in w1.f ensures Roomy(w1.f[d]) {
        assert d != n ==> Roomy(w.f[d]);
      }
    }
  }

  lemma {:induction false} AddThingArrives<K>(w: World<K>, c: K, index: int, x: K)
    requires Sound(w) && Stacked(w.f) && Fits(w, c, x) && index < w.f[c].capacity && |w.f[c].list| < w.f[c].capacity
    ensures Arrived(w, Ops.AddThing(w, c, index, x), c, w.f[x].kind, Units(w.f[x]))
  {
    AddItemGains(w, c, index, x);
    if Within(w.f) {
      WithinKept(w.f, Ops.AddThing(w, c, index, x).f, c, 1);
    }
  }

  /** After a merge and the creation of the rest, the rest stands as `RestOf` says. */
  lemma {:induction false} RestStands<K>(w: World<K>, dest: K, p: Place<K>, x: K, n: nat, x': K)
    requires Sound(w) && Stacked(w.f) && dest in w.f && w.f[dest].holder
    requires x in w.f && w.f[x].parent.None? && x' !in w.f
    requires w.f[x].kind.stackable && p.to == dest && Settled(w.f, x, p) && p.item.Some? && p.item.value in w.f
    requires w.f[p.item.value].kind == w.f[x].kind && w.f[p.item.value].count + n == STACK && 0 < n < w.f[x].count
    requires w.f[p.item.value].parent == Some(dest) && w.f[x].count <= STACK
    ensures var w' := Created(Merge(w, p, w.f[x].kind, n), x', w.f[x].kind, w.f[x].count - n);
      RestOf(w, dest, p, x, n, x', w') && Arrived(w, w', dest, w.f[x].kind, n)
  {
    hide Merge, Arrived, Gains, Within, Weighed, Linked, Above, StackOk;
    var w1 := Merge(w, p, w.f[x].kind, n);
    var w' := Created(w1, x', w.f[x].kind, w.f[x].count - n);
    MergeArrives(w, p, w.f[x].kind, n);
    CreatedArrives(w1, x', w.f[x].kind, w.f[x].count - n, dest);
    ArrivedTwice(w, w1, w', dest, w.f[x].kind, n, 0);
    MergeCounts(w, p, w.f[x].kind, n);
  }

  lemma {:induction false} MergeCounts<K>(w: World<K>, p: Place<K>, kind: Kind, n: nat)
    requires Mergeable(w, p, kind, n) && n > 0
    ensures var g := Merge(w, p, kind, n).f;
      && g.Keys == w.f.Keys && g[p.to].unlocked == w.f[p.to].unlocked
      && forall y :: y in w.f ==> g[y].count == w.f[y].count + if y == p.item.value then n else 0
  {
    RecountRanked(w.f, w.rank, p.item.value, kind, w.f[p.item.value].count + n);
    assert Held(w.f, p.item.value);
  }

  // ----- The addition on the objects

  /** All that is asked before anything is added. */
  method AskAdd(destCylinder: Item, item: Item, index0: int, flags: Flags, ghost s: set<Item>,
        ghost rank: map<Item, nat>)
    returns (ret: ReturnValue, toCylinder: Item, index: int, toItem: Item?, maxQueryCount: nat)
    requires destCylinder in s && item in s && Good(Snap(s), rank)
    ensures toCylinder in s && (toItem != null ==> toItem in s)
    ensures PlaceOf(toCylinder, index, toItem) == Destination(Snap(s), destCylinder, index0, item, flags)
    ensures ret == AddAnswer(WorldOf(s, rank), destCylinder, index0, item, flags)
    ensures ret == NoError ==> MaxCountReturn(item.kind, item.count, maxQueryCount, flags) == NoError
  {
    maxQueryCount := 0;
    toCylinder, index, toItem := destCylinder.QueryDestination(index0, item, flags, s);
    ret := toCylinder.QueryAdd(index, item, flags, s, rank);
    if ret == NoError {
      ret, maxQueryCount := destCylinder.QueryMaxCount(WHEREEVER, item, item.count, flags, s, rank);
    }
  }

  /** Merges `n` units and makes the rest a new item. */
  method SplitOff(item: Item, to: Item, toItem: Item, n: nat, ghost index: int, ghost s: set<Item>,
        ghost rank: map<Item, nat>, ghost w: World<Item>)
    returns (remainderItem: Item, ghost s': set<Item>, ghost rank': map<Item, nat>)
    requires w == WorldOf(s, rank) && Sound(w) && Stacked(w.f) && item in s && to in s && toItem in s && to.holder
    requires item.kind.stackable && toItem.kind == item.kind && toItem.count + n == STACK && 0 < n < item.count
    modifies s`totalWeight, toItem`kind, toItem`count
    ensures fresh(remainderItem) && s' == s + {remainderItem}
    ensures WorldOf(s', rank')
      == Created(Merge(w, PlaceOf(to, index, toItem), w.f[item].kind, n), remainderItem, w.f[item].kind,
                 w.f[item].count - n)
  {
    hide Weighed, Linked, Ranked, Merge, Stacked;
    var kind, count := item.kind, item.count - n;
    FillStack(item, to, toItem, n, index, s, rank, w);
    remainderItem, s', rank' := NewRest(kind, count, s, rank);
  }

  method FillStack(item: Item, to: Item, toItem: Item, n: nat, ghost index: int, ghost s: set<Item>,
        ghost rank: map<Item, nat>, ghost w: World<Item>)
    requires w == WorldOf(s, rank) && Sound(w) && item in s && to in s && toItem in s
    requires item.kind.stackable && toItem.kind == item.kind
    modifies s`totalWeight, toItem`kind, toItem`count
    ensures WorldOf(s, rank) == Merge(w, PlaceOf(to, index, toItem), w.f[item].kind, n)
  {
    hide Weighed, Linked, Updated, Ops.UpdateThing;
    to.UpdateThing(toItem, item.kind, toItem.count + n, s, rank);
  }

  method NewRest(kind: Kind, count: nat, ghost s: set<Item>, ghost rank: map<Item, nat>)
    returns (remainderItem: Item, ghost s': set<Item>, ghost rank': map<Item, nat>)
    ensures fresh(remainderItem) && s' == s + {remainderItem}
    ensures WorldOf(s', rank') == Created(WorldOf(s, rank), remainderItem, kind, count)
  {
    remainderItem := new Item(false, 0, false, kind, count);
    s' := s + {remainderItem};
    rank' := rank[remainderItem := 0];
  }

  /** What an accepted addition comes to. */
  ghost predicate AddedAll(w: World<Item>, dest: Item, index: int, item: Item, flags: Flags, w': World<Item>)
    requires Sound(w) && dest in w.f && item in w.f
  {
    && Arrived(w, w', Destination(w.f, dest, index, item, flags).to, w.f[item].kind, Units(w.f[item]))
    && Fills(w, dest, index, item, flags, w')
  }

  /** The rest is a plain addition to the same container, and what it adds completes the whole. */
  ghost predicate RestReady(w: World<Item>, dest: Item, index: int, item: Item, flags: Flags, n: nat, rest: Item,
        w1: World<Item>)
  {
    && Sound(w) && dest in w.f && item in w.f && Sound(w1) && Stacked(w1.f) && dest in w1.f && rest in w1.f
    && Destination(w.f, dest, index, item, flags).to == dest
    && w.f[item].kind.stackable && w1.f[rest].kind == w.f[item].kind && w1.f[rest].count == w.f[item].count - n
    && AddAnswer(w1, dest, WHEREEVER, rest, flags) == NoError
    && Destination(w1.f, dest, WHEREEVER, rest, flags).to == dest
    && Arrived(w, w1, dest, w.f[item].kind, n)
    && Inside(w.f, w.f[dest].list)
    && FirstFull(w, dest, item, FindStack(w.f, w.f[dest].list, item), w1, rest)
  }

  lemma {:induction false} RestIsReady(w: World<Item>, dest: Item, index: int, item: Item, flags: Flags,
        p: Place<Item>, n: nat, rest: Item, w1: World<Item>)
    requires Sound(w) && Stacked(w.f) && Plain(flags) && dest in w.f && w.f[dest].holder
    requires item in w.f && w.f[item].parent.None? && rest !in w.f
    requires AddAnswer(w, dest, index, item, flags) == NoError && p == Destination(w.f, dest, index, item, flags)
    requires p.to == dest && p.item.Some? && p.item.value in w.f && w.f[item].kind.stackable
    requires w.f[p.item.value].kind == w.f[item].kind && w.f[p.item.value].count + n == STACK && 0 < n < w.f[item].count
    requires w1 == Created(Merge(w, p, w.f[item].kind, n), rest, w.f[item].kind, w.f[item].count - n)
    ensures RestReady(w, dest, index, item, flags, n, rest, w1)
  {
    AcceptedFits(w, dest, index, item, flags);
    assert w.f[item].count <= STACK by { assert StackOk(w.f[item]); }
    hide Arrived, Destination, AddAnswer, Merge, Gains, Within, Created, Settled, Fits;
    RestStands(w, dest, p, item, n, rest);
    RestAccepted(w, dest, index, item, flags, n, rest, w1);
    FirstFound(w, dest, index, item, flags, p);
    FilledFirst(w, dest, p, item, n, rest, w1);
  }

  lemma {:induction false} RestCompletes(w: World<Item>, dest: Item, index: int, item: Item, flags: Flags, n: nat,
        rest: Item, w1: World<Item>, w2: World<Item>)
    requires RestReady(w, dest, index, item, flags, n, rest, w1) && n <= w.f[item].count
    requires AddedAll(w1, dest, WHEREEVER, rest, flags, w2)
    ensures AddedAll(w, dest, index, item, flags, w2)
  {
    hide Arrived, FilledInOrder, FirstFull, Gains, Within, AddAnswer, Linked, Ranked, Weighed, FindStack;
    ArrivedTwice(w, w1, w2, dest, w.f[item].kind, n, w.f[item].count - n);
    RestCompletesOrder(w, dest, index, item, flags, FindStack(w.f, w.f[dest].list, item), n, rest, w1, w2);
  }

  lemma {:induction false} SameLock(w: World<Item>, dest: Item, item: Item, k: nat, w1: World<Item>, rest: Item)
    requires FirstFull(w, dest, item, k, w1, rest)
    ensures dest in w.f && dest in w1.f && w1.f[dest].unlocked == w.f[dest].unlocked
  {
  }

  lemma {:induction false} RestCompletesOrder(w: World<Item>, dest: Item, index: int, item: Item, flags: Flags, k: nat,
        n: nat, rest: Item, w1: World<Item>, w2: World<Item>)
    requires RestReady(w, dest, index, item, flags, n, rest, w1) && FirstFull(w, dest, item, k, w1, rest)
    requires Fills(w1, dest, WHEREEVER, rest, flags, w2) && Stacked(w2.f)
    ensures Fills(w, dest, index, item, flags, w2)
  {
    hide Arrived, FilledInOrder, FirstFull, Gains, Within, AddAnswer, Linked, Ranked, Weighed, Destination, FindStack;
    if index != MOVE_UP && w.f[item].kind.stackable && w.f[dest].unlocked {
      SameLock(w, dest, item, k, w1, rest);
      RestFills(w, dest, item, k, w1, rest, w2);
    }
  }

  /** Fills the stack found, and adds the rest, if any, once more. */
  method AddOnto(destCylinder: Item, item: Item, index: int, flags: Flags, to: int, toItem: Item, m: nat,
        ghost s: set<Item>, ghost rank: map<Item, nat>, ghost w: World<Item>)
    returns (remainderCount: nat, ghost s': set<Item>, ghost rank': map<Item, nat>)
    requires w == WorldOf(s, rank) && Sound(w) && Stacked(w.f) && Plain(flags)
    requires destCylinder in s && destCylinder.holder && item in s && item.parent == null && toItem in s
    requires AddAnswer(w, destCylinder, index, item, flags) == NoError
    requires PlaceOf(destCylinder, to, toItem) == Destination(w.f, destCylinder, index, item, flags)
    requires item.kind.stackable && toItem.kind == item.kind && m == item.count
    modifies s
    ensures remainderCount == 0 && s <= s' && fresh(s' - s)
    ensures AddedAll(w, destCylinder, index, item, flags, WorldOf(s', rank'))
    decreases item.count, 0
  {
    assert toItem.count <= STACK by { assert StackOk(w.f[toItem]); }
    remainderCount, s', rank' := 0, s, rank;
    var n := Min(STACK - toItem.count, m);
    var count := m - n;
    if count == 0 {
      MergeAll(destCylinder, item, index, flags, to, toItem, n, s, rank, w);
    } else if item.count != count {
      remainderCount, s', rank' := AddRest(destCylinder, item, index, flags, to, toItem, n, s, rank, w);
    } else {
      rank' := AddNew(destCylinder, item, index, flags, destCylinder, to, toItem, s, rank, w);
    }
  }

  lemma {:induction false} MergedFills(w: World<Item>, dest: Item, index: int, item: Item, flags: Flags,
        p: Place<Item>, n: nat)
    requires Sound(w) && Stacked(w.f) && Plain(flags) && dest in w.f
    requires item in w.f && w.f[item].parent.None? && p == Destination(w.f, dest, index, item, flags)
    requires p.to == dest && p.item.Some? && p.item.value in w.f && w.f[item].kind.stackable && p.item != Some(item)
    requires w.f[p.item.value].kind == w.f[item].kind && w.f[p.item.value].count + n <= STACK && n > 0
    requires w.f[p.item.value].parent == Some(dest)
    ensures Fills(w, dest, index, item, flags,
                  Ops.UpdateThing(w, dest, p.item.value, w.f[item].kind, w.f[p.item.value].count + n))
  {
    hide Updated, Weighed, FilledInOrder, Destination, FirstStack, Ranked, Above, Weight, Stacked;
    var y := p.item.value;
    assert Held(w.f, y) && Holds(w.f, dest);
    UpdatedFields(w.f, w.rank, y, w.f[item].kind, w.f[y].count + n);
    FirstFound(w, dest, index, item, flags, p);
    MergeFills(w, p, item, n, Ops.UpdateThing(w, dest, y, w.f[item].kind, w.f[y].count + n));
  }

  /** All of the item goes onto the stack found. */
  lemma {:induction false} MergedAll(w: World<Item>, dest: Item, index: int, item: Item, flags: Flags, p: Place<Item>,
        n: nat)
    requires Sound(w) && Stacked(w.f) && Plain(flags) && dest in w.f && w.f[dest].holder
    requires item in w.f && w.f[item].parent.None?
    requires AddAnswer(w, dest, index, item, flags) == NoError && p == Destination(w.f, dest, index, item, flags)
    requires p.to == dest && p.item.Some? && p.item.value in w.f && w.f[item].kind.stackable
    requires w.f[p.item.value].kind == w.f[item].kind && w.f[p.item.value].count + n <= STACK && n == w.f[item].count
    ensures AddedAll(w, dest, index, item, flags,
                     Ops.UpdateThing(w, dest, p.item.value, w.f[item].kind, w.f[p.item.value].count + n))
  {
    hide Arrived, Gains, Within, Destination, AddAnswer, Ops.UpdateThing, Weighed, Linked, Ranked, Above, Fills;
    AcceptedFits(w, dest, index, item, flags);
    assert 0 < n by { assert StackOk(w.f[item]); }
    MergeArrives(w, p, w.f[item].kind, n);
    MergedFills(w, dest, index, item, flags, p, n);
  }

  /** All of the item goes to a place of its own. */
  lemma {:induction false} AddedNew(w: World<Item>, dest: Item, index: int, item: Item, flags: Flags, p: Place<Item>)
    requires Sound(w) && Stacked(w.f) && Plain(flags) && dest in w.f && w.f[dest].holder
    requires item in w.f && w.f[item].parent.None?
    requires AddAnswer(w, dest, index, item, flags) == NoError && p == Destination(w.f, dest, index, item, flags)
    requires Settled(w.f, item, p) && Onto(w.f, p, item, w.f[item].count) == 0
    ensures Fits(w, p.to, item) && AddedAll(w, dest, index, item, flags, Ops.AddThing(w, p.to, p.index, item))
  {
    hide Arrived, Fills, Ops.AddThing, AddAnswer, Destination, Above, Ranked, Weighed, Linked;
    AcceptedFits(w, dest, index, item, flags);
    AddThingArrives(w, p.to, p.index, item);
    AddedNewFills(w, dest, index, item, flags, p);
  }

  lemma {:induction false} AddedNewFills(w: World<Item>, dest: Item, index: int, item: Item, flags: Flags,
        p: Place<Item>)
    requires Sound(w) && Stacked(w.f) && Plain(flags) && dest in w.f && item in w.f && w.f[item].parent.None?
    requires p == Destination(w.f, dest, index, item, flags) && Settled(w.f, item, p) && Fits(w, p.to, item)
    requires p.index < w.f[p.to].capacity && Onto(w.f, p, item, w.f[item].count) == 0
    ensures Fills(w, dest, index, item, flags, Ops.AddThing(w, p.to, p.index, item))
  {
    hide FilledInOrder, Put, Above, Ranked, Weighed, OneMoreIn;
    assert Holds(w.f, dest);
    if index != MOVE_UP && w.f[item].kind.stackable && w.f[dest].unlocked && p.to == dest {
      NoneFound(w, dest, index, item, flags, p);
      PutChanges(w, dest, item);
      NewFills(w, dest, item, Put(w, dest, item, true));
    }
  }

  lemma {:induction false} NoneFound(w: World<Item>, dest: Item, index: int, item: Item, flags: Flags, p: Place<Item>)
    requires Sound(w) && Stacked(w.f) && Plain(flags) && dest in w.f && item in w.f && w.f[item].parent.None?
    requires p == Destination(w.f, dest, index, item, flags) && Settled(w.f, item, p) && p.to == dest
    requires index != MOVE_UP && w.f[item].kind.stackable && w.f[dest].unlocked
    requires Onto(w.f, p, item, w.f[item].count) == 0
    ensures Inside(w.f, w.f[dest].list)
    ensures forall i {:trigger w.f[dest].list[i]} :: 0 <= i < |w.f[dest].list| ==>
      !StacksOn(w.f, item, w.f[dest].list[i])
  {
    assert Holds(w.f, dest) && StackOk(w.f[item]);
    assert FindStack(w.f, w.f[dest].list, item) <= |w.f[dest].list|;
  }

  method MergeAll(destCylinder: Item, item: Item, ghost index: int, ghost flags: Flags, ghost to: int, toItem: Item,
        n: nat, ghost s: set<Item>, ghost rank: map<Item, nat>, ghost w: World<Item>)
    requires w == WorldOf(s, rank) && Sound(w) && Stacked(w.f) && Plain(flags)
    requires destCylinder in s && destCylinder.holder && item in s && item.parent == null && toItem in s
    requires AddAnswer(w, destCylinder, index, item, flags) == NoError
    requires PlaceOf(destCylinder, to, toItem) == Destination(w.f, destCylinder, index, item, flags)
    requires item.kind.stackable && toItem.kind == item.kind && n == item.count && toItem.count + n <= STACK
    modifies s
    ensures AddedAll(w, destCylinder, index, item, flags, WorldOf(s, rank))
  {
    hide AddedAll, AddAnswer, Ops.UpdateThing, Linked, Ranked, Weighed, Stacked;
    MergedAll(w, destCylinder, index, item, flags, PlaceOf(destCylinder, to, toItem), n);
    destCylinder.UpdateThing(toItem, item.kind, toItem.count + n, s, rank);
  }

  method AddNew(ghost destCylinder: Item, item: Item, ghost index: int, ghost flags: Flags, toCylinder: Item, to: int,
        ghost toItem: Item?, ghost s: set<Item>, ghost rank: map<Item, nat>, ghost w: World<Item>)
    returns (ghost rank': map<Item, nat>)
    requires w == WorldOf(s, rank) && Sound(w) && Stacked(w.f) && Plain(flags) && toCylinder in s
    requires destCylinder in s && destCylinder.holder && item in s && item.parent == null
    requires AddAnswer(w, destCylinder, index, item, flags) == NoError
    requires PlaceOf(toCylinder, to, toItem) == Destination(w.f, destCylinder, index, item, flags)
    requires item.kind.stackable && toItem != null && toItem in s && toItem.kind == item.kind ==> toItem.count == STACK
    modifies s
    ensures AddedAll(w, destCylinder, index, item, flags, WorldOf(s, rank'))
  {
    AcceptedFits(w, destCylinder, index, item, flags);
    AddedNew(w, destCylinder, index, item, flags, PlaceOf(toCylinder, to, toItem));
    rank' := toCylinder.AddThing(to, item, s, rank);
  }

  method AddRest(destCylinder: Item, item: Item, index: int, flags: Flags, to: int, toItem: Item, n: nat,
        ghost s: set<Item>, ghost rank: map<Item, nat>, ghost w: World<Item>)
    returns (remainderCount: nat, ghost s': set<Item>, ghost rank': map<Item, nat>)
    requires w == WorldOf(s, rank) && Sound(w) && Stacked(w.f) && Plain(flags)
    requires destCylinder in s && destCylinder.holder && item in s && item.parent == null && toItem in s
    requires AddAnswer(w, destCylinder, index, item, flags) == NoError
    requires PlaceOf(destCylinder, to, toItem) == Destination(w.f, destCylinder, index, item, flags)
    requires item.kind.stackable && toItem.kind == item.kind && toItem.count + n == STACK && 0 < n < item.count
    modifies s
    ensures remainderCount == 0 && s <= s' && fresh(s' - s)
    ensures AddedAll(w, destCylinder, index, item, flags, WorldOf(s', rank'))
    decreases item.count - n, 2
  {
    hide AddedAll, Arrived, Destination, AddAnswer, Merge, Weighed, Linked, Ranked, Above, Fits, Stacked;
    var count: nat := item.count - n;
    var remainderItem, r;
    ghost var s1, rank1;
    remainderItem, s1, rank1 := SplitOff(item, destCylinder, toItem, n, to, s, rank, w);
    ghost var w1 := WorldOf(s1, rank1);
    RestIsReady(w, destCylinder, index, item, flags, PlaceOf(destCylinder, to, toItem), n, remainderItem, w1);
    r, remainderCount, s', rank' :=
      InternalAddItem(destCylinder, remainderItem, WHEREEVER, flags, false, s1, rank1, w1);
    if r != NoError {
      remainderCount := count;
    }
    RestCompletes(w, destCylinder, index, item, flags, n, remainderItem, w1, WorldOf(s', rank'));
  }

  /** Adds an item. What is accepted arrives in full; nothing is left over. */
  method InternalAddItem(destCylinder: Item, item: Item, index: int, flags: Flags, test: bool, ghost s: set<Item>,
        ghost rank: map<Item, nat>, ghost w: World<Item>)
    returns (ret: ReturnValue, remainderCount: nat, ghost s': set<Item>, ghost rank': map<Item, nat>)
    requires w == WorldOf(s, rank) && Sound(w) && Stacked(w.f) && Plain(flags)
    requires destCylinder in s && destCylinder.holder && item in s && (!test ==> item.parent == null)
    modifies s
    ensures ret == AddAnswer(w, destCylinder, index, item, flags) && remainderCount == 0
    ensures s <= s' && fresh(s' - s)
    ensures ret != NoError || test ==> WorldOf(s', rank') == w
    ensures ret == NoError && !test ==> AddedAll(w, destCylinder, index, item, flags, WorldOf(s', rank'))
    decreases item.count, 1
  {
    remainderCount, s', rank' := 0, s, rank;
    var toCylinder, to, toItem, maxQueryCount;
    ret, toCylinder, to, toItem, maxQueryCount := AskAdd(destCylinder, item, index, flags, s, rank);
    if ret != NoError || test {
      return;
    }
    AcceptedFits(w, destCylinder, index, item, flags);
    assert item.kind.stackable ==> item.count > 0 by { assert StackOk(w.f[item]); }
    if item.kind.stackable && toItem != null && toItem.kind == item.kind {
      var m := Min(item.count, maxQueryCount);
      remainderCount, s', rank' := AddOnto(destCylinder, item, index, flags, to, toItem, m, s, rank, w);
    } else {
      rank' := AddNew(destCylinder, item, index, flags, toCylinder, to, toItem, s, rank, w);
    }
  }
}
