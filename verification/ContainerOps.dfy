/** What containers answer and do, said on the forest of items: the queries that decide a move, and the
    operations that carry it out. */
module ContainerOps {
  import opened Common
  import opened ItemTree

  datatype Flags = Flags(noLimit: bool, childIsOwner: bool, ignoreNotMoveable: bool, ignoreAutoStack: bool)

  const NO_FLAGS := Flags(false, false, false, false)

  datatype ReturnValue =
    NoError | NotPossible | CannotPickup | ThisIsImpossible | ContainerNotEnoughRoom | NotMoveable | NotEnoughRoom

  const WHEREEVER := -1

  const MOVE_UP := 254

  const ADD_WHEREVER := 255

  const STACK := 100

  /** A forest with the ranks that show it is one. */
  datatype World<K> = World(f: Forest<K>, rank: map<K, nat>)

  ghost predicate Sound<K>(w: World<K>)
  {
    Good(w.f, w.rank)
  }

  // ----- The queries

  ghost function QueryAdd<K>(w: World<K>, c: K, index: int, x: K, flags: Flags): ReturnValue
    requires Ranked(w.f, w.rank) && c in w.f && x in w.f
  {
    if flags.childIsOwner then NoError
    else if !w.f[c].unlocked then NotPossible
    else if !w.f[x].kind.pickupable then CannotPickup
    else if Above(w.f, w.rank, x, c) then ThisIsImpossible
    else if !flags.noLimit && index == WHEREEVER && |w.f[c].list| >= w.f[c].capacity then ContainerNotEnoughRoom
    else NoError
  }

  /** `x` can be put onto the stack `y`. */
  predicate StacksOn<K(==)>(f: Forest<K>, x: K, y: K)
    requires x in f && y in f
  {
    y != x && f[y].kind == f[x].kind && f[y].count < STACK
  }

  /** How much of `x` the stacks of a list can take. */
  function Room<K(==)>(f: Forest<K>, l: seq<K>, x: K): nat
    requires Inside(f, l) && x in f
  {
    if l == [] then 0 else (if StacksOn(f, x, l[0]) then STACK - f[l[0]].count else 0) + Room(f, l[1..], x)
  }

  function FreeSlots<K>(f: Forest<K>, c: K): nat
    requires c in f
  {
    if f[c].capacity > |f[c].list| then f[c].capacity - |f[c].list| else 0
  }

  ghost function MaxCount<K>(w: World<K>, c: K, index: int, x: K, count: nat, flags: Flags): (n: nat)
    requires Good(w.f, w.rank) && c in w.f && x in w.f
  {
    var f := w.f;
    assert Holds(f, c);
    if flags.noLimit then
      if count > 1 then count else 1
    else if !f[x].kind.stackable then
      FreeSlots(f, c)
    else if index == WHEREEVER then
      FreeSlots(f, c) * STACK + if QueryAdd(w, c, 0, x, flags) == NoError then Room(f, f[c].list, x) else 0
    else
      FreeSlots(f, c) * STACK
      + if 0 <= index < |f[c].list| && f[f[c].list[index]].kind == f[x].kind && f[f[c].list[index]].count < STACK
           && QueryAdd(w, c, index, x, flags) == NoError
        then STACK - f[f[c].list[index]].count else 0
  }

  /** What `queryMaxCount` returns beside the number. */
  function MaxCountReturn(kind: Kind, count: nat, max: nat, flags: Flags): ReturnValue
  {
    if !flags.noLimit && (if kind.stackable then max < count else max == 0) then ContainerNotEnoughRoom else NoError
  }

  function QueryRemove<K(==)>(f: Forest<K>, c: K, x: K, count: nat, flags: Flags): ReturnValue
    requires c in f && x in f
  {
    if x !in f[c].list || count == 0 || (f[x].kind.stackable && count > f[x].count) then NotPossible
    else if !f[x].kind.moveable && !flags.ignoreNotMoveable then NotMoveable
    else NoError
  }

  /** Where `queryDestination` sends an item: a container, an index in it and the item found there. */
  datatype Place<K> = Place(to: K, index: int, item: Option<K>)

  /** `k` is the first stack of `l` that `x` can be put onto. */
  predicate FirstStack<K(==)>(f: Forest<K>, l: seq<K>, x: K, k: int)
    requires Inside(f, l) && x in f
  {
    0 <= k < |l| && StacksOn(f, x, l[k]) && forall i :: 0 <= i < k ==> !StacksOn(f, x, l[i])
  }

  /** The first stack of `l` that `x` can be put onto, or `|l|`. */
  function FindStack<K(==)>(f: Forest<K>, l: seq<K>, x: K): (k: nat)
    requires Inside(f, l) && x in f
    ensures k <= |l|
    ensures forall i :: 0 <= i < k ==> !StacksOn(f, x, l[i])
    ensures k < |l| ==> FirstStack(f, l, x, k)
  {
    if l == [] || StacksOn(f, x, l[0]) then 0 else 1 + FindStack(f, l[1..], x)
  }

  ghost function Destination<K>(f: Forest<K>, c: K, index: int, x: K, flags: Flags): Place<K>
    requires Linked(f) && c in f && x in f
  {
    assert Holds(f, c);
    var l := f[c].list;
    var i := if index == ADD_WHEREVER || index >= f[c].capacity then WHEREEVER else index;
    if !f[c].unlocked then
      Place(c, index, None)
    else if index == MOVE_UP then
      Place(if f[c].parent.Some? then f[c].parent.value else c, WHEREEVER, None)
    else if !flags.ignoreAutoStack && f[x].kind.stackable && f[x].parent != Some(c) && FindStack(f, l, x) < |l| then
      Place(c, FindStack(f, l, x), Some(l[FindStack(f, l, x)]))
    else if 0 <= i < |l| then
      if f[l[i]].holder then Place(l[i], WHEREEVER, None) else Place(c, i, Some(l[i]))
    else
      Place(c, i, None)
  }

  // ----- The operations

  ghost predicate Fits<K>(w: World<K>, c: K, x: K)
  {
    && Ranked(w.f, w.rank) && c in w.f && w.f[c].holder && x in w.f && w.f[x].parent.None?
    && !Above(w.f, w.rank, x, c)
  }

  /** `addThing`: first in the list, unless the index is past the capacity. */
  ghost function AddThing<K>(w: World<K>, c: K, index: int, x: K): World<K>
  {
    if Fits(w, c, x) && index < w.f[c].capacity then Put(w, c, x, true) else w
  }

  ghost function Put<K>(w: World<K>, c: K, x: K, front: bool): World<K>
    requires Fits(w, c, x)
  {
    World(Added(w.f, w.rank, c, x, front), Deeper(w.f, w.rank, x, w.rank[c] + 1))
  }

  /** `addItemBack`: last in the list. */
  ghost function AddItemBack<K>(w: World<K>, c: K, x: K): World<K>
  {
    if Fits(w, c, x) then Put(w, c, x, false) else w
  }

  /** `internalAddThing`: first in the list, whatever the capacity. */
  ghost function InternalAddThing<K>(w: World<K>, c: K, x: K): World<K>
  {
    if Fits(w, c, x) then Put(w, c, x, true) else w
  }

  ghost function UpdateThing<K>(w: World<K>, c: K, x: K, kind: Kind, count: nat): World<K>
    requires Ranked(w.f, w.rank) && c in w.f && x in w.f
  {
    if x in w.f[c].list then World(Updated(w.f, w.rank, x, kind, count), w.rank) else w
  }

  ghost function ReplaceThing<K>(w: World<K>, c: K, index: nat, x: K): World<K>
  {
    if Placeable(w.f, w.rank, c, index, x) then
      World(Replaced(w.f, w.rank, c, index, x), Deeper(w.f, w.rank, x, w.rank[c] + 1))
    else w
  }

  /** The place of `x` in a list, or -1. */
  function IndexOf<K(==)>(l: seq<K>, x: K): (k: int)
    ensures -1 <= k < |l|
    ensures k == -1 <==> x !in l
    ensures k >= 0 ==> l[k] == x && x !in l[..k]
  {
    if l == [] then -1 else if l[0] == x then 0
    else var k := IndexOf(l[1..], x); if k == -1 then -1 else k + 1
  }

  /** `removeThing`: some of a stack, or the whole item. */
  ghost function RemoveThing<K>(w: World<K>, c: K, x: K, count: nat): World<K>
    requires Linked(w.f) && Ranked(w.f, w.rank) && c in w.f && x in w.f
  {
    if x !in w.f[c].list then w
    else if w.f[x].kind.stackable && count != w.f[x].count then
      World(Updated(w.f, w.rank, x, w.f[x].kind, if w.f[x].count > count then w.f[x].count - count else 0), w.rank)
    else
      var k := IndexOf(w.f[c].list, x);
      ChildFacts(w.f, w.rank, c, k);
      World(Removed(w.f, w.rank, c, k), w.rank)
  }

  // ----- Whatever is done, the forest stays a forest and the caches stay exact

  lemma {:induction false} PutSound<K>(w: World<K>, c: K, x: K, front: bool)
    requires Sound(w) && Fits(w, c, x)
    ensures Sound(Put(w, c, x, front))
  {
    AddedGood(w.f, w.rank, c, x, front);
  }

  lemma {:induction false} UpdateThingSound<K>(w: World<K>, c: K, x: K, kind: Kind, count: nat)
    requires Sound(w) && c in w.f && x in w.f
    ensures Sound(UpdateThing(w, c, x, kind, count))
  {
    UpdatedGood(w.f, w.rank, x, kind, count);
  }

  lemma {:induction false} ReplaceThingSound<K>(w: World<K>, c: K, index: nat, x: K)
    requires Sound(w)
    ensures Sound(ReplaceThing(w, c, index, x))
  {
    if Placeable(w.f, w.rank, c, index, x) {
      ReplacedGood(w.f, w.rank, c, index, x);
    }
  }

  lemma {:induction false} RemoveThingSound<K>(w: World<K>, c: K, x: K, count: nat)
    requires Sound(w) && c in w.f && x in w.f
    ensures Sound(RemoveThing(w, c, x, count))
  {
    if x in w.f[c].list {
      if w.f[x].kind.stackable && count != w.f[x].count {
        UpdatedGood(w.f, w.rank, x, w.f[x].kind, if w.f[x].count > count then w.f[x].count - count else 0);
      } else {
        RemovedGood(w.f, w.rank, c, IndexOf(w.f[c].list, x));
      }
    }
  }

  /** One guarded use of a container. */
  datatype Use<K> =
    | Add(c: K, index: int, x: K, flags: Flags)
    | AddBack(c: K, x: K)
    | Update(c: K, x: K, kind: Kind, count: nat)
    | Replace(c: K, at: nat, x: K)
    | Remove(c: K, x: K, count: nat)

  /** Items are put in only where `queryAdd` accepts them, and when nothing holds them yet. */
  ghost function Step<K>(w: World<K>, u: Use<K>): World<K>
    requires Sound(w)
  {
    if u.c !in w.f || u.x !in w.f then w else
    match u
    case Add(c, index, x, flags) =>
      if w.f[c].holder && w.f[x].parent.None? && !flags.childIsOwner && QueryAdd(w, c, index, x, flags) == NoError
      then AddThing(w, c, index, x) else w
    case AddBack(c, x) =>
      if w.f[c].holder && w.f[x].parent.None? && QueryAdd(w, c, WHEREEVER, x, NO_FLAGS) == NoError
      then AddItemBack(w, c, x) else w
    case Update(c, x, kind, count) => UpdateThing(w, c, x, kind, count)
    case Replace(c, index, x) =>
      if w.f[x].parent.None? && QueryAdd(w, c, index, x, NO_FLAGS) == NoError then ReplaceThing(w, c, index, x) else w
    case Remove(c, x, count) => RemoveThing(w, c, x, count)
  }

  lemma {:induction false} StepSound<K>(w: World<K>, u: Use<K>)
    requires Sound(w)
    ensures Sound(Step(w, u))
  {
    if u.c in w.f && u.x in w.f {
      match u {
        case Add(c, index, x, flags) => if Fits(w, c, x) { PutSound(w, c, x, true); }
        case AddBack(c, x) => if Fits(w, c, x) { PutSound(w, c, x, false); }
        case Update(c, x, kind, count) => UpdateThingSound(w, c, x, kind, count);
        case Replace(c, index, x) => ReplaceThingSound(w, c, index, x);
        case Remove(c, x, count) => RemoveThingSound(w, c, x, count);
      }
    }
  }

  ghost predicate SoundAll<K>(w: World<K>, uses: seq<Use<K>>)
    decreases |uses|
  {
    Sound(w) && (uses == [] || SoundAll(Step(w, uses[0]), uses[1..]))
  }

  /** Over every run of guarded uses, the forest is one after each step, with every cache exact. */
  lemma {:induction false} RunSound<K>(w: World<K>, uses: seq<Use<K>>)
    requires Sound(w)
    ensures SoundAll(w, uses)
    decreases |uses|
  {
    if uses != [] {
      StepSound(w, uses[0]);
      RunSound(Step(w, uses[0]), uses[1..]);
    }
  }

  /** What a successful `queryAdd` promises: the item can be put there without holding itself. */
  lemma {:induction false} QueryAddSafe<K>(w: World<K>, c: K, index: int, x: K, flags: Flags)
    requires Sound(w) && c in w.f && w.f[c].holder && x in w.f && w.f[x].parent.None? && !flags.childIsOwner
    ensures QueryAdd(w, c, index, x, flags) == NoError ==> Fits(w, c, x)
    ensures QueryAdd(w, c, WHEREEVER, x, NO_FLAGS) == NoError ==>
      |AddThing(w, c, WHEREEVER, x).f[c].list| <= w.f[c].capacity
  {
    if Fits(w, c, x) {
      AttachRanked(w.f, w.rank, c, x, true);
    }
  }

  // ----- How many of each kind a container has

  function Units<K>(n: Node<K>): nat
  {
    if n.kind.stackable then n.count else 1
  }

  function UnitsOf<K>(n: Node<K>, kind: Kind): nat
  {
    if n.kind == kind then Units(n) else 0
  }

  function Tally<K>(f: Forest<K>, l: seq<K>, kind: Kind): nat
    requires Inside(f, l)
  {
    if l == [] then 0 else UnitsOf(f[l[0]], kind) + Tally(f, l[1..], kind)
  }

  /** How many units of a kind lie directly in `c`. */
  ghost function Has<K>(f: Forest<K>, c: K, kind: Kind): nat
    requires Linked(f) && c in f
  {
    assert Holds(f, c);
    Tally(f, f[c].list, kind)
  }

  lemma {:induction false} TallySame<K>(f: Forest<K>, g: Forest<K>, l: seq<K>, kind: Kind)
    requires Inside(f, l) && Inside(g, l)
    requires forall i :: 0 <= i < |l| ==> UnitsOf(f[l[i]], kind) == UnitsOf(g[l[i]], kind)
    ensures Tally(f, l, kind) == Tally(g, l, kind)
  {
    if l != [] {
      TallySame(f, g, l[1..], kind);
    }
  }

  lemma {:induction false} TallyChanged<K>(f: Forest<K>, g: Forest<K>, l: seq<K>, k: nat, kind: Kind, diff: int)
    requires Inside(f, l) && Inside(g, l) && k < |l|
    requires forall i :: 0 <= i < |l| ==> UnitsOf(g[l[i]], kind) == UnitsOf(f[l[i]], kind) + if i == k then diff else 0
    ensures Tally(g, l, kind) == Tally(f, l, kind) + diff
  {
    if k == 0 {
      TallySame(f, g, l[1..], kind);
    } else {
      TallyChanged(f, g, l[1..], k - 1, kind, diff);
    }
  }

  lemma {:induction false} TallyWithout<K>(f: Forest<K>, l: seq<K>, k: nat, kind: Kind)
    requires Inside(f, l) && k < |l|
    ensures Inside(f, Without(l, k)) && Tally(f, Without(l, k), kind) == Tally(f, l, kind) - UnitsOf(f[l[k]], kind)
  {
    if k == 0 {
      assert Without(l, 0) == l[1..];
    } else {
      TallyWithout(f, l[1..], k - 1, kind);
      assert Without(l, k)[1..] == Without(l[1..], k - 1);
    }
  }

  /** Every container has what it had, but `c` has `diff` more of one kind. */
  ghost predicate Gains<K>(f: Forest<K>, g: Forest<K>, c: K, kind: Kind, diff: int)
    requires Linked(f) && Linked(g)
  {
    && f.Keys <= g.Keys
    && (forall d, k {:trigger Has(g, d, k)} :: d in f ==>
          Has(g, d, k) == Has(f, d, k) + if d == c && k == kind then diff else 0)
    && (forall d {:trigger Holds(g, d)} :: d in f ==>
          g[d].capacity == f[d].capacity && g[d].unlocked == f[d].unlocked && g[d].holder == f[d].holder)
  }

  /** No container is another one; what it holds may be. */
  ghost predicate SameContainers<K>(f: Forest<K>, g: Forest<K>)
  {
    && g.Keys == f.Keys
    && forall y :: y in f ==>
         && g[y].kind == f[y].kind && g[y].holder == f[y].holder
         && g[y].capacity == f[y].capacity && g[y].unlocked == f[y].unlocked
  }

  lemma {:induction false} PutChanges<K>(w: World<K>, c: K, x: K)
    requires Fits(w, c, x)
    ensures OneMoreIn(w.f, Put(w, c, x, true).f, c, x)
  {
    var h, rank', diff := Attach(w.f, c, x, true), Deeper(w.f, w.rank, x, w.rank[c] + 1), Weight(w.f, x);
    AttachRanked(w.f, w.rank, c, x, true);
    assert Put(w, c, x, true).f == AddUp(h, rank', c, diff);
    hide AddUp, Ranked, Above, Own, Added, Put;
    AddUpFields(h, rank', c, diff);
    AttachFields(w.f, c, x);
    hide Attach, Deeper, Weight;
    OnlyTotals(w.f, h, AddUp(h, rank', c, diff), c, x);
  }

  ghost predicate OneMoreIn<K>(f: Forest<K>, g: Forest<K>, c: K, x: K)
    requires c in f
  {
    && SameContainers(f, g) && forall y {:trigger g[y]} :: y in f ==>
      && g[y].count == f[y].count && g[y].list == (if y == c then [x] + f[c].list else f[y].list)
      && g[y].parent == if y == x then Some(c) else f[y].parent
  }

  lemma {:induction false} AttachFields<K>(f: Forest<K>, c: K, x: K)
    requires c in f && x in f && c != x
    ensures OneMoreIn(f, Attach(f, c, x, true), c, x)
  {
  }

  lemma {:induction false} OnlyTotals<K>(f: Forest<K>, h: Forest<K>, g: Forest<K>, c: K, x: K)
    requires c in f && OneMoreIn(f, h, c, x) && g.Keys == h.Keys
    requires forall y {:trigger g[y]} :: y in h ==> g[y] == h[y].(total := g[y].total)
    ensures OneMoreIn(f, g, c, x)
  {
  }

  lemma {:induction false} AddUpFields<K>(f: Forest<K>, rank: map<K, nat>, c: K, diff: int)
    requires Ranked(f, rank) && c in f
    ensures var g := AddUp(f, rank, c, diff);
      forall y {:trigger g[y]} :: y in f ==> g[y] == f[y].(total := g[y].total)
  {
  }

  lemma {:induction false} ListGains<K>(f: Forest<K>, g: Forest<K>, c: K, x: K)
    requires Linked(f) && Linked(g) && c in f && x in f && OneMoreIn(f, g, c, x)
    ensures Gains(f, g, c, f[x].kind, Units(f[x]))
  {
    forall d, k | d in f ensures Has(g, d, k) == Has(f, d, k) + if d == c && k == f[x].kind then Units(f[x]) else 0 {
      assert Holds(f, d) && Holds(g, d);
      TallySame(f, g, f[d].list, k);
      if d == c {
        assert g[c].list == [x] + f[c].list;
        assert g[c].list[1..] == f[c].list;
      }
    }
  }

  lemma {:induction false} PutGains<K>(w: World<K>, c: K, x: K)
    requires Sound(w) && Fits(w, c, x) && Linked(Put(w, c, x, true).f)
    ensures Gains(w.f, Put(w, c, x, true).f, c, w.f[x].kind, Units(w.f[x]))
  {
    hide Gains, Put, OneMoreIn, Weighed;
    PutChanges(w, c, x);
    ListGains(w.f, Put(w, c, x, true).f, c, x);
  }

  /** A change of type and count changes nothing else but totals. */
  lemma {:induction false} UpdatedFields<K>(f: Forest<K>, rank: map<K, nat>, x: K, kind: Kind, count: nat)
    requires Linked(f) && Ranked(f, rank) && x in f
    ensures var g := Updated(f, rank, x, kind, count);
      && g.Keys == f.Keys && forall y {:trigger g[y]} :: y in f ==>
        g[y] == (if y == x then f[x].(kind := kind, count := count) else f[y]).(total := g[y].total)
  {
    hide Own, Weight;
    RecountRanked(f, rank, x, kind, count);
    if f[x].parent.Some? {
      assert Held(f, x);
      var h, diff := Recount(f, x, kind, count), Weight(Recount(f, x, kind, count), x) - Weight(f, x);
      AddUpFields(h, rank, f[x].parent.value, diff);
    }
  }

  /** A removal changes a list and a parent, and nothing else but totals. */
  lemma {:induction false} RemovedFields<K>(f: Forest<K>, rank: map<K, nat>, c: K, k: nat)
    requires Linked(f) && Ranked(f, rank) && c in f && k < |f[c].list|
    ensures f[c].list[k] in f && f[c].list[k] != c
    ensures var g, x := Removed(f, rank, c, k), f[c].list[k];
      && g.Keys == f.Keys && forall y {:trigger g[y]} :: y in f ==>
        g[y] == (if y == c then f[c].(list := Without(f[c].list, k)) else if y == x then f[x].(parent := None)
                 else f[y]).(total := g[y].total)
  {
    hide Own, Weight;
    ChildFacts(f, rank, c, k);
    AddUpFields(f, rank, c, -Weight(f, f[c].list[k]));
  }

  lemma {:induction false} CountGains<K>(f: Forest<K>, g: Forest<K>, c: K, x: K, diff: int)
    requires Linked(f) && Linked(g) && c in f && x in f && SameContainers(f, g)
    requires f[x].kind.stackable && f[x].parent == Some(c)
    requires forall y :: y in f ==> g[y].list == f[y].list && g[y].count == f[y].count + if y == x then diff else 0
    ensures Gains(f, g, c, f[x].kind, diff)
  {
    assert Held(f, x);
    forall d, k | d in f ensures Has(g, d, k) == Has(f, d, k) + if d == c && k == f[x].kind then diff else 0 {
      assert Holds(f, d) && Holds(g, d);
      if d == c && k == f[x].kind {
        TallyChanged(f, g, f[d].list, IndexOf(f[c].list, x), k, diff);
      } else {
        TallySame(f, g, f[d].list, k);
      }
    }
  }

  lemma {:induction false} UpdateGains<K>(w: World<K>, c: K, x: K, count: nat)
    requires Sound(w) && c in w.f && x in w.f && w.f[x].parent == Some(c) && w.f[x].kind.stackable
    requires Linked(Updated(w.f, w.rank, x, w.f[x].kind, count))
    ensures Gains(w.f, Updated(w.f, w.rank, x, w.f[x].kind, count), c, w.f[x].kind, count - w.f[x].count)
  {
    hide Gains, Linked, Weighed, Updated;
    UpdatedFields(w.f, w.rank, x, w.f[x].kind, count);
    CountGains(w.f, Updated(w.f, w.rank, x, w.f[x].kind, count), c, x, count - w.f[x].count);
  }

  lemma {:induction false} RemovedGains<K>(w: World<K>, c: K, k: nat)
    requires Sound(w) && c in w.f && k < |w.f[c].list| && w.f[c].list[k] in w.f && w.f[c].list[k] != c
    requires Linked(Removed(w.f, w.rank, c, k))
    ensures var x := w.f[c].list[k]; Gains(w.f, Removed(w.f, w.rank, c, k), c, w.f[x].kind, 0 - Units(w.f[x]))
  {
    var g, x := Removed(w.f, w.rank, c, k), w.f[c].list[k];
    forall d, kind | d in w.f
      ensures Has(g, d, kind) == Has(w.f, d, kind) - if d == c && kind == w.f[x].kind then Units(w.f[x]) else 0
    {
      assert Holds(w.f, d) && Holds(g, d);
      TallySame(w.f, g, w.f[d].list, kind);
      if d == c {
        TallyWithout(g, w.f[c].list, k, kind);
      }
    }
  }
}
