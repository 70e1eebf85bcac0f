/** Moving an item between containers: what `internalMoveItem` decides and does, and that nothing is
    lost, no stack grows past 100 and no container past its capacity. */
module Moves {
  import opened Common
  import opened ItemTree
  import opened ContainerOps

  const LAYERS := 16

  /** Where an item goes, and the flags that still hold there. */
  datatype Goal<K> = Goal(place: Place<K>, flags: Flags)

  lemma {:induction false} DestinationFacts<K>(f: Forest<K>, c: K, index: int, x: K, flags: Flags)
    requires Linked(f) && c in f && x in f
    ensures var p := Destination(f, c, index, x, flags);
      && p.to in f
      && (p.to != c ==> p.index == WHEREEVER && p.item == None)
      && (p.item.Some? ==> p.to == c && 0 <= p.index < |f[c].list| && p.item.value == f[c].list[p.index])
      && (p.to == c && p.item.None? && f[c].unlocked && p.index >= 0 ==> |f[c].list| <= p.index < f[c].capacity)
      && (f[c].holder ==> f[p.to].holder)
  {
    assert Holds(f, c) && Held(f, c);
    if f[c].parent.Some? {
      assert Holds(f, f[c].parent.value);
    }
  }

  /** The destination is asked again as long as it names another container, at most 16 times. */
  ghost function Settle<K>(f: Forest<K>, c: K, index: int, x: K, flags: Flags, layers: nat): Goal<K>
    requires Linked(f) && c in f && x in f
    decreases layers
  {
    var p := Destination(f, c, index, x, flags);
    DestinationFacts(f, c, index, x, flags);
    if p.to == c then Goal(p, flags)
    else if layers <= 1 then Goal(p, NO_FLAGS)
    else Settle(f, p.to, p.index, x, NO_FLAGS, layers - 1)
  }

  /** The container named first answers for itself: the bound on the layers is never reached. */
  lemma {:induction false} SettleOnce<K>(f: Forest<K>, c: K, index: int, x: K, flags: Flags, layers: nat)
    requires Linked(f) && c in f && x in f && layers >= 2
    ensures var p := Destination(f, c, index, x, flags);
      && p.to in f
      && Settle(f, c, index, x, flags, layers)
         == (if p.to == c then Goal(p, flags) else Goal(Destination(f, p.to, WHEREEVER, x, NO_FLAGS), NO_FLAGS))
      && Settle(f, c, index, x, flags, layers).place.to == p.to
  {
    var p := Destination(f, c, index, x, flags);
    DestinationFacts(f, c, index, x, flags);
    if p.to != c {
      DestinationFacts(f, p.to, WHEREEVER, x, NO_FLAGS);
    }
  }

  /** What is known of the place an item is sent to. */
  ghost predicate Settled<K>(f: Forest<K>, x: K, p: Place<K>)
  {
    && p.to in f && x in f
    && (p.item.Some? ==> 0 <= p.index < |f[p.to].list| && p.item.value == f[p.to].list[p.index])
    && (p.item.None? && f[p.to].unlocked && p.index >= 0 ==> |f[p.to].list| <= p.index < f[p.to].capacity)
  }

  lemma {:induction false} SettleFacts<K>(f: Forest<K>, c: K, index: int, x: K, flags: Flags)
    requires Linked(f) && c in f && x in f
    ensures Settled(f, x, Settle(f, c, index, x, flags, LAYERS).place)
    ensures f[c].holder ==> f[Settle(f, c, index, x, flags, LAYERS).place.to].holder
    ensures flags.noLimit || !Settle(f, c, index, x, flags, LAYERS).flags.noLimit
    ensures flags.childIsOwner || !Settle(f, c, index, x, flags, LAYERS).flags.childIsOwner
  {
    SettleOnce(f, c, index, x, flags, LAYERS);
    var p := Destination(f, c, index, x, flags);
    DestinationFacts(f, c, index, x, flags);
    if p.to != c {
      DestinationFacts(f, p.to, WHEREEVER, x, NO_FLAGS);
    }
  }

  /** What a move comes to: nothing, or `m` units of `x` go to `place`, `n` of them onto the item there. */
  datatype Plan<K> =
    | Keep(ret: ReturnValue)
    | Move(place: Place<K>, m: nat, n: nat, ret: ReturnValue)

  function Min(a: nat, b: nat): nat
  {
    if a < b then a else b
  }

  ghost function MovePlan<K>(w: World<K>, from: K, to: K, index: int, x: K, count: nat, flags: Flags,
        trade: Option<K>): Plan<K>
    requires Sound(w) && from in w.f && to in w.f && x in w.f
  {
    var s := Settle(w.f, to, index, x, flags, LAYERS);
    SettleFacts(w.f, to, index, x, flags);
    var p := s.place;
    if p.item == Some(x) then Keep(NoError) else
    var ret := QueryAdd(w, p.to, p.index, x, s.flags);
    if ret != NoError then Keep(ret) else
    var max := MaxCount(w, p.to, p.index, x, count, s.flags);
    var retMax := MaxCountReturn(w.f[x].kind, count, max, s.flags);
    if retMax != NoError && max == 0 then Keep(retMax) else
    var m := if w.f[x].kind.stackable then Min(count, max) else max;
    var retRemove := QueryRemove(w.f, from, x, m, s.flags);
    if retRemove != NoError then Keep(retRemove)
    else if trade.Some? && Above(w.f, w.rank, trade.value, p.to) then Keep(NotEnoughRoom)
    else Move(p, m, Onto(w.f, p, x, m), if w.f[x].kind.stackable && max < count then retMax else NoError)
  }

  /** How many of `m` units go onto the item already there. */
  ghost function Onto<K>(f: Forest<K>, p: Place<K>, x: K, m: nat): nat
    requires Linked(f) && Settled(f, x, p)
  {
    assert Holds(f, p.to);
    if f[x].kind.stackable && p.item.Some? && f[p.item.value].kind == f[x].kind && f[p.item.value].count <= STACK
    then Min(STACK - f[p.item.value].count, m) else 0
  }

  /** A new stack, held by nothing. */
  function Created<K>(w: World<K>, fresh': K, kind: Kind, count: nat): World<K>
  {
    World(w.f[fresh' := Node(None, [], false, kind, count, 0, 0, false)], w.rank[fresh' := 0])
  }

  /** What does not fit onto the item there becomes a new stack. */
  ghost function Deliver<K>(w: World<K>, c: K, index: int, kind: Kind, count: nat, fresh': K): World<K>
  {
    if count > 0 then AddStack(w, c, index, kind, count, fresh') else w
  }

  ghost function AddStack<K>(w: World<K>, c: K, index: int, kind: Kind, count: nat, fresh': K): World<K>
  {
    AddThing(Created(w, fresh', kind, count), c, index, fresh')
  }

  /** The units that go onto an item already there. */
  ghost function Merge<K>(w: World<K>, p: Place<K>, kind: Kind, n: nat): World<K>
    requires Ranked(w.f, w.rank) && p.to in w.f && (p.item.Some? ==> p.item.value in w.f)
  {
    if kind.stackable && p.item.Some? && w.f[p.item.value].kind == kind
    then UpdateThing(w, p.to, p.item.value, kind, w.f[p.item.value].count + n) else w
  }

  /** The move itself: out of `from`, onto the item there, and what is left as a new stack in front. */
  ghost function Carry<K>(w: World<K>, from: K, x: K, plan: Plan<K>, fresh': K): World<K>
    requires Sound(w) && from in w.f && x in w.f && plan.Move? && Settled(w.f, x, plan.place)
  {
    RemoveThingSound(w, from, x, plan.m);
    assert Holds(w.f, plan.place.to);
    var kind, to := w.f[x].kind, plan.place.to;
    var w2 := Merge(RemoveThing(w, from, x, plan.m), plan.place, kind, plan.n);
    if !kind.stackable then AddThing(w2, to, plan.place.index, x)
    else Deliver(w2, to, plan.place.index, kind, if plan.m > plan.n then plan.m - plan.n else 0, fresh')
  }

  /** Every stack holds 1 to 100 units, and containers are no stacks. */
  ghost predicate StackOk<K>(n: Node<K>)
  {
    n.kind.stackable ==> 1 <= n.count <= STACK && !n.holder
  }

  ghost predicate Stacked<K>(f: Forest<K>)
  {
    forall x {:trigger StackOk(f[x])} :: x in f ==> StackOk(f[x])
  }

  /** What can be relied on when a move goes ahead. */
  ghost predicate Fair<K>(w: World<K>, from: K, x: K, plan: Plan<K>, noLimit: bool)
    requires Sound(w) && from in w.f && x in w.f
  {
    && plan.Move? && Settled(w.f, x, plan.place)
    && plan.place.item != Some(x) && w.f[plan.place.to].unlocked && !Above(w.f, w.rank, x, plan.place.to)
    && x in w.f[from].list
    && plan.m > 0 && plan.n == Onto(w.f, plan.place, x, plan.m)
    && (w.f[x].kind.stackable ==> plan.m <= w.f[x].count)
    && (!noLimit && (plan.m > plan.n || !w.f[x].kind.stackable) ==>
          |w.f[plan.place.to].list| < w.f[plan.place.to].capacity)
  }

  lemma {:induction false} PlanFair<K>(w: World<K>, from: K, to: K, index: int, x: K, count: nat, flags: Flags,
        trade: Option<K>)
    requires Sound(w) && Stacked(w.f) && from in w.f && to in w.f && x in w.f && !flags.childIsOwner && w.f[to].holder
    ensures var plan := MovePlan(w, from, to, index, x, count, flags, trade);
      plan.Move? ==> Fair(w, from, x, plan, flags.noLimit) && w.f[plan.place.to].holder
  {
    var s := Settle(w.f, to, index, x, flags, LAYERS);
    SettleFacts(w.f, to, index, x, flags);
    var p := s.place;
    var plan := MovePlan(w, from, to, index, x, count, flags, trade);
    if plan.Move? {
      assert Holds(w.f, p.to);
      if p.item.Some? {
        assert StackOk(w.f[p.item.value]);
      }
    }
  }

  // ----- Step by step, a move keeps the units

  /** The units a removal takes: `m` of a stack, or the one item. */
  function Moved(kind: Kind, m: nat): nat
  {
    if kind.stackable then m else 1
  }

  /** What a removal leaves for the steps after it. */
  ghost predicate Taken<K>(w: World<K>, from: K, x: K, m: nat, w1: World<K>)
    requires from in w.f && x in w.f
  {
    && w1.f.Keys == w.f.Keys && w1.rank == w.rank
    && (forall y :: y in w.f ==>
          w1.f[y].kind == w.f[y].kind && w1.f[y].holder == w.f[y].holder && w1.f[y].capacity == w.f[y].capacity)
    && (forall y :: y in w.f && y != x ==> w1.f[y].count == w.f[y].count && w1.f[y].parent == w.f[y].parent)
    && (forall y :: y in w.f && y != from ==> w1.f[y].list == w.f[y].list)
    && |w1.f[from].list| <= |w.f[from].list|
    && (w.f[x].kind.stackable && m != w.f[x].count ==>
          w1.f[x].count == w.f[x].count - m && w1.f[x].parent == w.f[x].parent)
    && (!w.f[x].kind.stackable || m == w.f[x].count ==> w1.f[x].count == w.f[x].count && w1.f[x].parent == None)
  }

  ghost predicate Takeable<K>(w: World<K>, from: K, x: K, m: nat)
  {
    && Sound(w) && Stacked(w.f) && from in w.f && x in w.f && x in w.f[from].list
    && m > 0 && (w.f[x].kind.stackable ==> m <= w.f[x].count)
  }

  lemma {:induction false} TakenAfter<K>(w: World<K>, from: K, x: K, m: nat)
    requires Takeable(w, from, x, m)
    ensures Taken(w, from, x, m, RemoveThing(w, from, x, m))
  {
    hide Weighed, Linked, Ranked, Updated, Removed, StackOk;
    if w.f[x].kind.stackable && m != w.f[x].count {
      UpdatedFields(w.f, w.rank, x, w.f[x].kind, w.f[x].count - m);
    } else {
      RemovedFields(w.f, w.rank, from, IndexOf(w.f[from].list, x));
    }
  }

  lemma {:induction false} TakenGains<K>(w: World<K>, from: K, x: K, m: nat)
    requires Takeable(w, from, x, m) && Sound(RemoveThing(w, from, x, m))
    ensures Gains(w.f, RemoveThing(w, from, x, m).f, from, w.f[x].kind, 0 - Moved(w.f[x].kind, m))
  {
    assert Holds(w.f, from);
    if w.f[x].kind.stackable && m != w.f[x].count {
      UpdateGains(w, from, x, w.f[x].count - m);
    } else {
      ChildFacts(w.f, w.rank, from, IndexOf(w.f[from].list, x));
      RemovedGains(w, from, IndexOf(w.f[from].list, x));
    }
  }

  lemma {:induction false} TakenStacked<K>(w: World<K>, from: K, x: K, m: nat, w1: World<K>)
    requires Takeable(w, from, x, m) && Taken(w, from, x, m, w1)
    ensures Stacked(w1.f)
  {
    forall y | y in w1.f ensures StackOk(w1.f[y]) {
      assert StackOk(w.f[y]);
    }
  }

  /** An item taken out is still above nothing it was not above before. */
  lemma {:induction false} TakenAbove<K>(w: World<K>, from: K, x: K, m: nat, w1: World<K>, a: K, y: K)
    requires from in w.f && x in w.f && Taken(w, from, x, m, w1) && Ranked(w.f, w.rank) && Ranked(w1.f, w.rank)
    requires y in w.f && !Above(w.f, w.rank, x, y)
    ensures Above(w1.f, w.rank, a, y) == Above(w.f, w.rank, a, y)
  {
    AboveSame(w.f, w1.f, w.rank, a, y);
  }

  /** Only cached weights and one count differ. */
  ghost predicate SamePlaces<K>(w: World<K>, w1: World<K>)
  {
    && w1.f.Keys == w.f.Keys && w1.rank == w.rank
    && forall y :: y in w.f ==>
      && w1.f[y].kind == w.f[y].kind && w1.f[y].holder == w.f[y].holder
      && w1.f[y].parent == w.f[y].parent && w1.f[y].list == w.f[y].list && w1.f[y].capacity == w.f[y].capacity
  }

  ghost predicate Mergeable<K>(w: World<K>, p: Place<K>, kind: Kind, n: nat)
  {
    && Sound(w) && Stacked(w.f) && p.to in w.f
    && (p.item.Some? ==> p.item.value in w.f && w.f[p.item.value].parent == Some(p.to))
    && (n > 0 ==>
          kind.stackable && p.item.Some? && w.f[p.item.value].kind == kind && w.f[p.item.value].count + n <= STACK)
  }

  lemma {:induction false} MergedAfter<K>(w: World<K>, p: Place<K>, kind: Kind, n: nat)
    requires Mergeable(w, p, kind, n)
    ensures SamePlaces(w, Merge(w, p, kind, n)) && Stacked(Merge(w, p, kind, n).f)
  {
    var w1 := Merge(w, p, kind, n);
    if p.item.Some? {
      RecountRanked(w.f, w.rank, p.item.value, kind, w.f[p.item.value].count + n);
      assert StackOk(w.f[p.item.value]);
    }
    forall y | y in w1.f ensures StackOk(w1.f[y]) {
      assert StackOk(w.f[y]);
    }
  }

  lemma {:induction false} MergedGains<K>(w: World<K>, p: Place<K>, kind: Kind, n: nat)
    requires Mergeable(w, p, kind, n)
    ensures Sound(Merge(w, p, kind, n)) && Gains(w.f, Merge(w, p, kind, n).f, p.to, kind, n)
  {
    hide Weighed, Ranked, Stacked, Updated, Gains;
    if kind.stackable && p.item.Some? && w.f[p.item.value].kind == kind {
      var y := p.item.value;
      assert Held(w.f, y);
      hide Linked;
      UpdatedGood(w.f, w.rank, y, kind, w.f[y].count + n);
      UpdateGains(w, p.to, y, w.f[y].count + n);
      assert Merge(w, p, kind, n) == World(Updated(w.f, w.rank, y, kind, w.f[y].count + n), w.rank);
    } else {
      NothingGains(w.f, p.to, kind);
    }
  }

  lemma {:induction false} NothingGains<K>(f: Forest<K>, c: K, kind: Kind)
    requires Linked(f)
    ensures Gains(f, f, c, kind, 0)
  {
  }

  // ----- A new stack

  lemma {:induction false} NewNotAbove<K>(f: Forest<K>, rank: map<K, nat>, n: K, y: K)
    requires Ranked(f, rank) && y in f && y != n && forall z :: z in f ==> f[z].parent != Some(n)
    ensures !Above(f, rank, n, y)
    decreases rank[y]
  {
    assert Below(f, rank, y);
    if f[y].parent.Some? {
      NewNotAbove(f, rank, n, f[y].parent.value);
    }
  }

  lemma {:induction false} CreatedSound<K>(w: World<K>, n: K, kind: Kind, count: nat)
    requires Sound(w) && n !in w.f
    ensures Sound(Created(w, n, kind, count))
  {
    var g := Created(w, n, kind, count);
    assert g.rank.Keys == g.f.Keys;
    forall y | y in g.f ensures Holds(g.f, y) && Held(g.f, y) && Below(g.f, g.rank, y) && Off(g.f, y, 0) {
      if y != n {
        assert Holds(w.f, y) && Held(w.f, y) && Below(w.f, w.rank, y) && Off(w.f, y, 0);
        SumSame(w.f, g.f, w.f[y].list);
      }
    }
  }

  lemma {:induction false} CreatedFits<K>(w: World<K>, n: K, kind: Kind, count: nat, c: K)
    requires Sound(w) && n !in w.f && c in w.f && w.f[c].holder && Sound(Created(w, n, kind, count))
    ensures Fits(Created(w, n, kind, count), c, n)
  {
    var g := Created(w, n, kind, count);
    forall z | z in g.f ensures g.f[z].parent != Some(n) {
      if z != n {
        assert Held(w.f, z);
      }
    }
    NewNotAbove(g.f, g.rank, n, c);
  }

  lemma {:induction false} CreatedGains<K>(w: World<K>, n: K, kind: Kind, count: nat, c: K)
    requires Sound(w) && n !in w.f && Sound(Created(w, n, kind, count)) && c in w.f
    ensures Gains(w.f, Created(w, n, kind, count).f, c, kind, 0)
  {
    var g := Created(w, n, kind, count).f;
    forall d, k | d in w.f ensures Has(g, d, k) == Has(w.f, d, k) {
      assert Holds(w.f, d) && Holds(g, d);
      TallySame(w.f, g, w.f[d].list, k);
    }
  }

  // ----- The whole move

  /** `mu` units of a kind left `from` and arrived in `to`; nothing else came or went. */
  ghost predicate Carried<K>(f: Forest<K>, g: Forest<K>, from: K, to: K, kind: Kind, mu: nat)
    requires Linked(f) && Linked(g)
  {
    && f.Keys <= g.Keys
    && (forall d, k {:trigger Has(g, d, k)} :: d in f ==>
          Has(g, d, k)
          == Has(f, d, k) + (if d == to && k == kind then mu else 0) - (if d == from && k == kind then mu else 0))
  }

  /** No list of `f` is longer in `g`, but that of `c` may be by `more`; what is new holds nothing. */
  ghost predicate Grown<K>(f: Forest<K>, g: Forest<K>, c: K, more: nat)
  {
    && f.Keys <= g.Keys
    && (forall d :: d in f ==> |g[d].list| <= |f[d].list| + if d == c then more else 0)
    && (forall d :: d in f ==> g[d].capacity == f[d].capacity && g[d].holder == f[d].holder)
    && (forall d :: d in g && d !in f ==> g[d].list == [])
  }

  lemma {:induction false} PutAfter<K>(w: World<K>, c: K, x: K)
    requires Sound(w) && Fits(w, c, x) && Stacked(w.f)
    ensures Sound(Put(w, c, x, true)) && Stacked(Put(w, c, x, true).f) && Grown(w.f, Put(w, c, x, true).f, c, 1)
  {
    PutSound(w, c, x, true);
    PutChanges(w, c, x);
    hide Put, Weighed, Linked, Ranked, Above;
    var g := Put(w, c, x, true).f;
    forall y | y in g ensures StackOk(g[y]) {
      assert StackOk(w.f[y]);
    }
  }

  lemma {:induction false} GainsTwice<K>(f: Forest<K>, g: Forest<K>, h: Forest<K>, c: K, kind: Kind, a: int, b: int)
    requires Linked(f) && Linked(g) && Linked(h) && c in f
    requires Gains(f, g, c, kind, a) && Gains(g, h, c, kind, b)
    ensures Gains(f, h, c, kind, a + b)
  {
    forall d | d in f
      ensures h[d].capacity == f[d].capacity && h[d].unlocked == f[d].unlocked && h[d].holder == f[d].holder
    {
      assert Holds(g, d) && Holds(h, d);
    }
  }

  lemma {:induction false} AddItemGains<K>(w: World<K>, c: K, index: int, x: K)
    requires Sound(w) && Stacked(w.f) && Fits(w, c, x) && index < w.f[c].capacity
    ensures var g := AddThing(w, c, index, x);
      && Sound(g) && Stacked(g.f) && Grown(w.f, g.f, c, 1)
      && Gains(w.f, g.f, c, w.f[x].kind, Units(w.f[x]))
  {
    PutAfter(w, c, x);
    PutGains(w, c, x);
  }

  lemma {:induction false} CreatedThenPut<K>(f: Forest<K>, g: Forest<K>, h: Forest<K>, c: K, kind: Kind, count: nat,
        n: K)
    requires Linked(f) && Linked(g) && Linked(h) && c in f && n !in f && g.Keys == f.Keys + {n}
    requires g[n].list == [] && n != c && forall d :: d in f ==> g[d] == f[d]
    requires Gains(f, g, c, kind, 0) && Gains(g, h, c, kind, count) && Grown(g, h, c, 1)
    ensures Gains(f, h, c, kind, count) && (h.Keys == g.Keys ==> Grown(f, h, c, 1))
  {
    GainsTwice(f, g, h, c, kind, 0, count);
  }

  lemma {:induction false} AddStackGains<K>(w: World<K>, c: K, index: int, kind: Kind, count: nat, fresh': K)
    requires Sound(w) && Stacked(w.f) && c in w.f && w.f[c].holder && index < w.f[c].capacity && fresh' !in w.f
    requires kind.stackable && 1 <= count <= STACK
    ensures var g := AddStack(w, c, index, kind, count, fresh');
      && Sound(g) && Stacked(g.f) && Grown(w.f, g.f, c, 1)
      && Gains(w.f, g.f, c, kind, count)
  {
    var w1 := Created(w, fresh', kind, count);
    CreatedSound(w, fresh', kind, count);
    CreatedFits(w, fresh', kind, count, c);
    assert Stacked(w1.f) by {
      forall y | y in w1.f ensures StackOk(w1.f[y]) {
        assert y != fresh' ==> StackOk(w.f[y]);
      }
    }
    CreatedGains(w, fresh', kind, count, c);
    AddItemGains(w1, c, index, fresh');
    CreatedThenPut(w.f, w1.f, AddThing(w1, c, index, fresh').f, c, kind, count, fresh');
  }

  /** The first two steps: out of `from`, and onto the item already in `to`. */
  lemma {:induction false} TakeAndMerge<K>(w: World<K>, from: K, x: K, plan: Plan<K>, noLimit: bool)
    requires Sound(w) && Stacked(w.f) && from in w.f && x in w.f && Fair(w, from, x, plan, noLimit)
    ensures Takeable(w, from, x, plan.m) && Taken(w, from, x, plan.m, RemoveThing(w, from, x, plan.m))
    ensures Mergeable(RemoveThing(w, from, x, plan.m), plan.place, w.f[x].kind, plan.n)
  {
    var w1 := RemoveThing(w, from, x, plan.m);
    assert Holds(w.f, plan.place.to) && StackOk(w.f[x]);
    TakenAfter(w, from, x, plan.m);
    RemoveThingSound(w, from, x, plan.m);
    TakenStacked(w, from, x, plan.m, w1);
    if plan.place.item.Some? {
      assert StackOk(w.f[plan.place.item.value]);
    }
  }

  /** `fresh'` is new, if the move makes a new stack of it. */
  predicate NewFor<K(==)>(w: World<K>, x: K, plan: Plan<K>, fresh': K)
    requires x in w.f
  {
    plan.Move? && w.f[x].kind.stackable && plan.m > plan.n ==> fresh' !in w.f
  }

  /** Where the whole move ends: sound, with the units carried from one container to the other. */
  ghost predicate MovedWell<K>(w: World<K>, from: K, x: K, plan: Plan<K>, g: World<K>)
    requires Linked(w.f) && x in w.f && plan.Move?
  {
    && Sound(g) && Stacked(g.f)
    && Carried(w.f, g.f, from, plan.place.to, w.f[x].kind, Moved(w.f[x].kind, plan.m))
  }

  lemma {:induction false} Delivered<K>(w: World<K>, c: K, index: int, kind: Kind, count: nat, fresh': K)
    requires Sound(w) && Stacked(w.f) && c in w.f && w.f[c].holder && (count > 0 ==> fresh' !in w.f)
    requires kind.stackable && count <= STACK && (count > 0 ==> index < w.f[c].capacity)
    ensures var g := Deliver(w, c, index, kind, count, fresh');
      && Sound(g) && Stacked(g.f) && Grown(w.f, g.f, c, if count > 0 then 1 else 0)
      && Gains(w.f, g.f, c, kind, count)
  {
    if count > 0 {
      AddStackGains(w, c, index, kind, count, fresh');
    } else {
      NothingGains(w.f, c, kind);
    }
  }

  /** `m` units have left `from`, and `n` of them have arrived. */
  ghost predicate Midway<K>(w: World<K>, from: K, to: K, kind: Kind, m: nat, n: nat, w2: World<K>)
  {
    && Linked(w.f) && to in w.f
    && Sound(w2) && Stacked(w2.f) && w2.f.Keys == w.f.Keys
    && Grown(w.f, w2.f, to, 0)
    && forall d, k {:trigger Has(w2.f, d, k)} :: d in w.f ==>
         Has(w2.f, d, k)
         == Has(w.f, d, k) + (if d == to && k == kind then n else 0) - (if d == from && k == kind then m else 0)
  }

  lemma {:induction false} GetsMidway<K>(w: World<K>, from: K, x: K, p: Place<K>, m: nat, n: nat, w1: World<K>,
        w2: World<K>)
    requires Linked(w.f) && from in w.f && x in w.f && p.to in w.f && Sound(w1) && Sound(w2) && Stacked(w2.f)
    requires Taken(w, from, x, m, w1) && SamePlaces(w1, w2)
    requires Gains(w.f, w1.f, from, w.f[x].kind, 0 - Moved(w.f[x].kind, m)) && Gains(w1.f, w2.f, p.to, w.f[x].kind, n)
    ensures Midway(w, from, p.to, w.f[x].kind, Moved(w.f[x].kind, m), n, w2)
  {
    assert Holds(w2.f, p.to) && Holds(w1.f, p.to);
    forall d, k | d in w.f
      ensures Has(w2.f, d, k) == Has(w.f, d, k) + (if d == p.to && k == w.f[x].kind then n else 0)
        - (if d == from && k == w.f[x].kind then Moved(w.f[x].kind, m) else 0)
    {
      assert Has(w2.f, d, k) == Has(w1.f, d, k) + if d == p.to && k == w.f[x].kind then n else 0;
    }
  }

  lemma {:induction false} MergeKeeps<K>(w: World<K>, p: Place<K>, kind: Kind, n: nat, w1: World<K>)
    requires Mergeable(w, p, kind, n) && w1 == Merge(w, p, kind, n)
    ensures Sound(w1) && Stacked(w1.f) && SamePlaces(w, w1) && Gains(w.f, w1.f, p.to, kind, n)
  {
    MergedAfter(w, p, kind, n);
    MergedGains(w, p, kind, n);
  }

  lemma {:induction false} TakeAndMergeMidway<K>(w: World<K>, from: K, x: K, plan: Plan<K>, noLimit: bool)
    requires Sound(w) && Stacked(w.f) && from in w.f && x in w.f && Fair(w, from, x, plan, noLimit)
    ensures Sound(RemoveThing(w, from, x, plan.m)) && Taken(w, from, x, plan.m, RemoveThing(w, from, x, plan.m))
    ensures Mergeable(RemoveThing(w, from, x, plan.m), plan.place, w.f[x].kind, plan.n)
    ensures Midway(w, from, plan.place.to, w.f[x].kind, Moved(w.f[x].kind, plan.m), plan.n,
                   Merge(RemoveThing(w, from, x, plan.m), plan.place, w.f[x].kind, plan.n))
  {
    hide Weighed, Gains, RemoveThing, Merge, Taken, StackOk, Above;
    TakeAndMerge(w, from, x, plan, noLimit);
    var w1 := RemoveThing(w, from, x, plan.m);
    TakenGains(w, from, x, plan.m);
    MergeKeeps(w1, plan.place, w.f[x].kind, plan.n, Merge(w1, plan.place, w.f[x].kind, plan.n));
    GetsMidway(w, from, x, plan.place, plan.m, plan.n, w1, Merge(w1, plan.place, w.f[x].kind, plan.n));
  }

  lemma {:induction false} FromMidway<K>(w: World<K>, from: K, to: K, kind: Kind, m: nat, n: nat, w2: World<K>,
        g: World<K>)
    requires Midway(w, from, to, kind, m, n, w2) && n <= m && from in w.f
    requires Sound(g) && Gains(w2.f, g.f, to, kind, m - n)
    ensures Carried(w.f, g.f, from, to, kind, m)
  {
    forall d, k | d in w.f
      ensures Has(g.f, d, k)
        == Has(w.f, d, k) + (if d == to && k == kind then m else 0) - (if d == from && k == kind then m else 0)
    {
      assert Has(g.f, d, k) == Has(w2.f, d, k) + if d == to && k == kind then m - n else 0;
    }
  }

  /** An item that is no stack is moved with all it holds. */
  lemma {:induction false} CarryItem<K>(w: World<K>, from: K, x: K, plan: Plan<K>, noLimit: bool, w1: World<K>)
    requires Sound(w) && from in w.f && x in w.f && Fair(w, from, x, plan, noLimit) && !w.f[x].kind.stackable
    requires Taken(w, from, x, plan.m, w1) && Midway(w, from, plan.place.to, w.f[x].kind, 1, 0, w1)
    requires w.f[plan.place.to].holder && plan.place.index < w.f[plan.place.to].capacity
    ensures var g := AddThing(w1, plan.place.to, plan.place.index, x);
      && Sound(g) && Stacked(g.f) && Carried(w.f, g.f, from, plan.place.to, w.f[x].kind, 1)
      && Grown(w.f, g.f, plan.place.to, 1)
  {
    var to := plan.place.to;
    TakenAbove(w, from, x, plan.m, w1, x, to);
    AddItemGains(w1, to, plan.place.index, x);
    FromMidway(w, from, to, w.f[x].kind, 1, 0, w1, AddThing(w1, to, plan.place.index, x));
  }

  lemma {:induction false} CarryIsDeliver<K>(w: World<K>, from: K, x: K, plan: Plan<K>, fresh': K, w2: World<K>)
    requires Sound(w) && from in w.f && x in w.f && plan.Move? && Settled(w.f, x, plan.place) && plan.n <= plan.m
    requires Mergeable(RemoveThing(w, from, x, plan.m), plan.place, w.f[x].kind, plan.n) && w.f[x].kind.stackable
    requires w2 == Merge(RemoveThing(w, from, x, plan.m), plan.place, w.f[x].kind, plan.n)
    ensures Carry(w, from, x, plan, fresh')
      == Deliver(w2, plan.place.to, plan.place.index, w.f[x].kind, plan.m - plan.n, fresh')
  {
  }

  lemma {:induction false} CarryIsAdd<K>(w: World<K>, from: K, x: K, plan: Plan<K>, fresh': K, w1: World<K>)
    requires Sound(w) && from in w.f && x in w.f && plan.Move? && Settled(w.f, x, plan.place)
    requires Mergeable(RemoveThing(w, from, x, plan.m), plan.place, w.f[x].kind, plan.n) && !w.f[x].kind.stackable
    requires w1 == RemoveThing(w, from, x, plan.m)
    ensures Merge(w1, plan.place, w.f[x].kind, plan.n) == w1
    ensures Carry(w, from, x, plan, fresh') == AddThing(w1, plan.place.to, plan.place.index, x)
  {
  }

  /** Units added to the list of the destination: none when all go onto the item there. */
  function Extra(kind: Kind, m: nat, n: nat): nat
  {
    if kind.stackable && m <= n then 0 else 1
  }

  /** Where a move ends, with the list of the destination longer by at most `extra`. */
  ghost predicate EndsWell<K>(w: World<K>, from: K, x: K, plan: Plan<K>, g: World<K>, extra: nat)
    requires Linked(w.f) && x in w.f && plan.Move?
  {
    MovedWell(w, from, x, plan, g) && Grown(w.f, g.f, plan.place.to, extra)
  }

  lemma {:induction false} StackEnds<K>(w: World<K>, from: K, x: K, plan: Plan<K>, w2: World<K>, g: World<K>)
    requires Sound(w) && from in w.f && x in w.f && plan.Move? && w.f[x].kind.stackable && plan.n <= plan.m
    requires Midway(w, from, plan.place.to, w.f[x].kind, plan.m, plan.n, w2)
    requires Sound(g) && Stacked(g.f) && Gains(w2.f, g.f, plan.place.to, w.f[x].kind, plan.m - plan.n)
    requires Grown(w2.f, g.f, plan.place.to, if plan.m > plan.n then 1 else 0)
    ensures EndsWell(w, from, x, plan, g, Extra(w.f[x].kind, plan.m, plan.n))
  {
    FromMidway(w, from, plan.place.to, w.f[x].kind, plan.m, plan.n, w2, g);
  }

  lemma {:induction false} CarryItemEnds<K>(w: World<K>, from: K, x: K, plan: Plan<K>, noLimit: bool, w1: World<K>)
    requires Sound(w) && Stacked(w.f) && from in w.f && x in w.f && Fair(w, from, x, plan, noLimit)
    requires w.f[plan.place.to].holder && !w.f[x].kind.stackable
    requires plan.place.index < w.f[plan.place.to].capacity
    requires Taken(w, from, x, plan.m, w1) && Midway(w, from, plan.place.to, w.f[x].kind, 1, 0, w1)
    ensures EndsWell(w, from, x, plan, AddThing(w1, plan.place.to, plan.place.index, x), 1)
  {
    CarryItem(w, from, x, plan, noLimit, w1);
  }

  lemma {:induction false} CarryKeepsStack<K>(w: World<K>, from: K, x: K, plan: Plan<K>, fresh': K, w2: World<K>)
    requires Sound(w) && Stacked(w.f) && from in w.f && x in w.f && plan.Move? && plan.n <= plan.m
    requires NewFor(w, x, plan, fresh')
    requires plan.place.to in w.f && w.f[plan.place.to].holder && w.f[x].kind.stackable && plan.m <= STACK
    requires plan.m > plan.n ==> plan.place.index < w.f[plan.place.to].capacity
    requires Midway(w, from, plan.place.to, w.f[x].kind, plan.m, plan.n, w2)
    ensures EndsWell(w, from, x, plan,
                     Deliver(w2, plan.place.to, plan.place.index, w.f[x].kind, plan.m - plan.n, fresh'),
                     Extra(w.f[x].kind, plan.m, plan.n))
  {
    Delivered(w2, plan.place.to, plan.place.index, w.f[x].kind, plan.m - plan.n, fresh');
    StackEnds(w, from, x, plan, w2,
              Deliver(w2, plan.place.to, plan.place.index, w.f[x].kind, plan.m - plan.n, fresh'));
  }

  lemma {:induction false} CarryKeeps<K>(w: World<K>, from: K, x: K, plan: Plan<K>, noLimit: bool, fresh': K)
    requires Sound(w) && Stacked(w.f) && from in w.f && x in w.f && Fair(w, from, x, plan, noLimit)
    requires NewFor(w, x, plan, fresh')
    requires w.f[plan.place.to].holder
    requires Extra(w.f[x].kind, plan.m, plan.n) > 0 ==> plan.place.index < w.f[plan.place.to].capacity
    ensures EndsWell(w, from, x, plan, Carry(w, from, x, plan, fresh'), Extra(w.f[x].kind, plan.m, plan.n))
  {
    var w1 := RemoveThing(w, from, x, plan.m);
    TakeAndMergeMidway(w, from, x, plan, noLimit);
    if w.f[x].kind.stackable {
      assert plan.m <= STACK by { assert StackOk(w.f[x]); }
      var w2 := Merge(w1, plan.place, w.f[x].kind, plan.n);
      CarryKeepsStack(w, from, x, plan, fresh', w2);
      CarryIsDeliver(w, from, x, plan, fresh', w2);
    } else {
      CarryIsAdd(w, from, x, plan, fresh', w1);
      CarryItemEnds(w, from, x, plan, noLimit, w1);
    }
  }

  /** What `internalMoveItem` does. */
  ghost function MoveItem<K>(w: World<K>, from: K, to: K, index: int, x: K, count: nat, flags: Flags,
        trade: Option<K>, fresh': K): (World<K>, ReturnValue)
    requires Sound(w) && from in w.f && to in w.f && x in w.f
  {
    SettleFacts(w.f, to, index, x, flags);
    var plan := MovePlan(w, from, to, index, x, count, flags, trade);
    (if plan.Move? then Carry(w, from, x, plan, fresh') else w, plan.ret)
  }

  ghost predicate Within<K>(f: Forest<K>)
  {
    forall c {:trigger Roomy(f[c])} :: c in f ==> Roomy(f[c])
  }

  ghost predicate Roomy<K>(n: Node<K>)
  {
    |n.list| <= n.capacity
  }

  /** The rest of a move that needs a place of its own has one: the index found is not behind the capacity. */
  ghost predicate HasPlace<K>(w: World<K>, x: K, plan: Plan<K>)
    requires x in w.f && plan.Move? && plan.place.to in w.f
  {
    Extra(w.f[x].kind, plan.m, plan.n) > 0 ==> plan.place.index < w.f[plan.place.to].capacity
  }

  /** `m` units of a kind left `from`, and `n` of them arrived in `to`; nothing else came or went. */
  ghost predicate CarriedPart<K>(f: Forest<K>, g: Forest<K>, from: K, to: K, kind: Kind, m: nat, n: nat)
    requires Linked(f) && Linked(g)
  {
    && f.Keys <= g.Keys
    && (forall d, k {:trigger Has(g, d, k)} :: d in f ==>
          Has(g, d, k)
          == Has(f, d, k) + (if d == to && k == kind then n else 0) - (if d == from && k == kind then m else 0))
  }

  /** What is not for the stack that was found: the rest of a stack, or an item that is no stack. */
  function Rest(kind: Kind, plan: Plan): nat
    requires plan.Move?
  {
    if !kind.stackable then 1 else if plan.m > plan.n then plan.m - plan.n else 0
  }

  /** Where a move ends that has lost what had no place. */
  ghost predicate MovedPartly<K>(w: World<K>, from: K, x: K, plan: Plan<K>, g: World<K>)
    requires Linked(w.f) && x in w.f && plan.Move?
  {
    var kind := w.f[x].kind;
    && Sound(g) && Stacked(g.f) && 0 < Rest(kind, plan) <= Moved(kind, plan.m)
    && CarriedPart(w.f, g.f, from, plan.place.to, kind, Moved(kind, plan.m), Moved(kind, plan.m) - Rest(kind, plan))
  }

  lemma {:induction false} FairCount<K>(w: World<K>, from: K, x: K, plan: Plan<K>, noLimit: bool)
    requires Sound(w) && Stacked(w.f) && from in w.f && x in w.f && Fair(w, from, x, plan, noLimit)
    ensures w.f[x].kind.stackable ==> plan.m <= STACK
  {
    assert StackOk(w.f[x]);
  }

  /** Without a place for it, exactly the rest is gone: it has left and not arrived. */
  lemma {:induction false} CarryLoses<K>(w: World<K>, from: K, x: K, plan: Plan<K>, noLimit: bool, fresh': K)
    requires Sound(w) && Stacked(w.f) && from in w.f && x in w.f && Fair(w, from, x, plan, noLimit)
    requires NewFor(w, x, plan, fresh')
    requires !HasPlace(w, x, plan)
    ensures MovedPartly(w, from, x, plan, Carry(w, from, x, plan, fresh'))
    ensures !MovedWell(w, from, x, plan, Carry(w, from, x, plan, fresh'))
  {
    hide Carry, RemoveThing, Merge, Deliver, AddThing, Stacked, Gains, Linked, Weighed, Ranked, Taken, Above;
    var to, kind, m, n := plan.place.to, w.f[x].kind, plan.m, plan.n;
    var w1 := RemoveThing(w, from, x, m);
    assert kind.stackable ==> m <= STACK by { FairCount(w, from, x, plan, noLimit); }
    TakeAndMergeMidway(w, from, x, plan, noLimit);
    if kind.stackable {
      var w2 := Merge(w1, plan.place, kind, n);
      CarryIsDeliver(w, from, x, plan, fresh', w2);
      StackDropped(w2, to, plan.place.index, kind, m - n, fresh');
      Missing(w, from, to, kind, m, n, w2, Deliver(w2, to, plan.place.index, kind, m - n, fresh'));
    } else {
      CarryIsAdd(w, from, x, plan, fresh', w1);
      ItemDropped(w1, to, plan.place.index, x, kind);
      Missing(w, from, to, kind, 1, 0, w1, AddThing(w1, to, plan.place.index, x));
    }
  }

  lemma {:induction false} StackDropped<K>(w: World<K>, c: K, index: int, kind: Kind, count: nat, fresh': K)
    requires Sound(w) && Stacked(w.f) && c in w.f && index >= w.f[c].capacity && fresh' !in w.f
    requires kind.stackable && 0 < count <= STACK
    ensures var g := Deliver(w, c, index, kind, count, fresh');
      Sound(g) && Stacked(g.f) && Gains(w.f, g.f, c, kind, 0)
  {
    CreatedSound(w, fresh', kind, count);
    CreatedGains(w, fresh', kind, count, c);
    var g := Created(w, fresh', kind, count);
    forall y | y in g.f ensures StackOk(g.f[y]) {
      assert y != fresh' ==> StackOk(w.f[y]);
    }
  }

  lemma {:induction false} ItemDropped<K>(w: World<K>, c: K, index: int, x: K, kind: Kind)
    requires Sound(w) && c in w.f && index >= w.f[c].capacity
    ensures AddThing(w, c, index, x) == w && Gains(w.f, w.f, c, kind, 0)
  {
    NothingGains(w.f, c, kind);
  }

  lemma {:induction false} Missing<K>(w: World<K>, from: K, to: K, kind: Kind, m: nat, n: nat, w2: World<K>,
        g: World<K>)
    requires Midway(w, from, to, kind, m, n, w2) && n < m && from in w.f
    requires Sound(g) && Gains(w2.f, g.f, to, kind, 0)
    ensures CarriedPart(w.f, g.f, from, to, kind, m, n) && !Carried(w.f, g.f, from, to, kind, m)
  {
    forall d, k | d in w.f ensures Has(g.f, d, k) == Has(w2.f, d, k) {
    }
    assert Has(g.f, to, kind) == Has(w2.f, to, kind);
  }

  /** Moves keep the forest sound, stacks within 1 to 100 and, without FLAG_NOLIMIT, every container within
      its capacity; what leaves one container arrives in the other, which may be the same. With that flag,
      it does if and only if there is a place for it. */
  lemma {:induction false} MoveItemKeeps<K>(w: World<K>, from: K, to: K, index: int, x: K, count: nat, flags: Flags,
        trade: Option<K>, fresh': K)
    requires Sound(w) && Stacked(w.f) && from in w.f && to in w.f && w.f[to].holder && x in w.f
    requires NewFor(w, x, MovePlan(w, from, to, index, x, count, flags, trade), fresh')
    requires !flags.childIsOwner
    ensures var g, plan := MoveItem(w, from, to, index, x, count, flags, trade, fresh').0,
                           MovePlan(w, from, to, index, x, count, flags, trade);
      && (plan.Keep? ==> g == w)
      && (plan.Move? ==> plan.place.to in w.f && x in w.f[from].list && 0 < plan.m)
      && (plan.Move? && w.f[x].kind.stackable ==> plan.m <= count && plan.m <= w.f[x].count)
      && (plan.Move? ==> (MovedWell(w, from, x, plan, g) <==> HasPlace(w, x, plan)))
      && (plan.Move? && !HasPlace(w, x, plan) ==> MovedPartly(w, from, x, plan, g))
      && (plan.Move? && !flags.noLimit ==> HasPlace(w, x, plan))
      && (!flags.noLimit && Within(w.f) ==> Within(g.f))
  {
    var g, plan := MoveItem(w, from, to, index, x, count, flags, trade, fresh').0,
                   MovePlan(w, from, to, index, x, count, flags, trade);
    SettleFacts(w.f, to, index, x, flags);
    if plan.Move? {
      PlanFair(w, from, to, index, x, count, flags, trade);
      assert Settled(w.f, x, plan.place);
      if HasPlace(w, x, plan) {
        CarryKeeps(w, from, x, plan, flags.noLimit, fresh');
        if !flags.noLimit && Within(w.f) {
          WithinKept(w.f, g.f, plan.place.to, Extra(w.f[x].kind, plan.m, plan.n));
        }
      } else {
        CarryLoses(w, from, x, plan, flags.noLimit, fresh');
      }
    }
  }

  lemma {:induction false} WithinKept<K>(f: Forest<K>, g: Forest<K>, c: K, more: nat)
    requires c in f && Within(f) && Grown(f, g, c, more) && (more > 0 ==> |f[c].list| + more <= f[c].capacity)
    ensures Within(g)
  {
    forall d | d in g ensures Roomy(g[d]) {
      if d in f {
        assert Roomy(f[d]);
      }
    }
  }

  // ----- A move takes as much as fits

  /** There is a free place in a list. */
  predicate HasSlot<K>(f: Forest<K>, c: K)
    requires c in f
  {
    |f[c].list| < f[c].capacity
  }

  /** What the stack at a place can still take of `x`. */
  function RoomAt<K(==)>(f: Forest<K>, p: Place<K>, x: K): nat
    requires x in f && (p.item.Some? ==> p.item.value in f)
  {
    if p.item.Some? && f[x].kind.stackable && f[p.item.value].kind == f[x].kind && f[p.item.value].count < STACK
    then STACK - f[p.item.value].count else 0
  }

  /** What is asked of a move besides room. */
  ghost predicate Movable<K>(w: World<K>, from: K, x: K, p: Place<K>, flags: Flags, trade: Option<K>)
    requires Sound(w) && from in w.f && x in w.f && p.to in w.f
  {
    && w.f[p.to].unlocked && w.f[x].kind.pickupable && !Above(w.f, w.rank, x, p.to)
    && x in w.f[from].list && (w.f[x].kind.moveable || flags.ignoreNotMoveable)
    && !(trade.Some? && Above(w.f, w.rank, trade.value, p.to))
  }

  lemma {:induction false} PlaceInside<K>(f: Forest<K>, x: K, p: Place<K>)
    requires Linked(f) && Settled(f, x, p)
    ensures p.item.Some? ==> p.item.value in f && f[p.item.value].parent == Some(p.to)
  {
    assert Holds(f, p.to);
  }

  /** A move goes ahead if it may, and there is a free place or room in the stack there. */
  ghost predicate Goes<K>(w: World<K>, from: K, x: K, s: Goal<K>, trade: Option<K>)
    requires Sound(w) && from in w.f && x in w.f && s.place.to in w.f
    requires s.place.item.Some? ==> s.place.item.value in w.f
  {
    Movable(w, from, x, s.place, s.flags, trade) && (HasSlot(w.f, s.place.to) || RoomAt(w.f, s.place, x) > 0)
  }

  /** How much of a stack a move takes and what it answers: with a free place all of it fits, and without one what the
      stack at the place can take; the answer is success exactly if all asked for was taken. */
  ghost predicate StackTaken<K>(w: World<K>, x: K, count: nat, p: Place<K>, plan: Plan<K>)
    requires x in w.f && p.to in w.f && plan.Move? && (p.item.Some? ==> p.item.value in w.f)
  {
    && plan.m == Min(count, if HasSlot(w.f, p.to) then w.f[x].count else RoomAt(w.f, p, x))
    && plan.n == Min(plan.m, RoomAt(w.f, p, x)) && (plan.ret == NoError <==> plan.m == count)
  }

  lemma {:induction false} GoalInside<K>(w: World<K>, to: K, index: int, x: K, flags: Flags)
    requires Sound(w) && to in w.f && x in w.f
    ensures var p := Settle(w.f, to, index, x, flags, LAYERS).place;
      p.to in w.f && (p.item.Some? ==> p.item.value in w.f)
  {
    SettleFacts(w.f, to, index, x, flags);
    PlaceInside(w.f, x, Settle(w.f, to, index, x, flags, LAYERS).place);
  }

  /** Whether a move goes ahead, how much it takes and what it answers, said by the places and the stack alone. Of more
      than there is, it may refuse to move any. */
  lemma {:induction false} TakesWhatFits<K>(w: World<K>, from: K, to: K, index: int, x: K, count: nat, flags: Flags,
        trade: Option<K>)
    requires Sound(w) && Stacked(w.f) && from in w.f && to in w.f && x in w.f && !flags.noLimit && !flags.childIsOwner
    requires 0 < count
    ensures var s, plan := Settle(w.f, to, index, x, flags, LAYERS),
                           MovePlan(w, from, to, index, x, count, flags, trade);
      && s.place.to in w.f && (s.place.item.Some? ==> s.place.item.value in w.f)
      && (s.place.item == Some(x) ==> plan == Keep(NoError))
      && (s.place.item != Some(x) ==>
            && (plan.Move? ==> Goes(w, from, x, s, trade) && plan.place == s.place)
            && (Goes(w, from, x, s, trade) && (w.f[x].kind.stackable ==> count <= w.f[x].count) ==> plan.Move?)
            && (plan.Keep? ==> plan.ret != NoError)
            && (plan.Move? && w.f[x].kind.stackable ==> StackTaken(w, x, count, s.place, plan))
            && (plan.Move? && !w.f[x].kind.stackable ==> plan.ret == NoError && plan.n == 0))
  {
    GoalInside(w, to, index, x, flags);
    if w.f[x].kind.stackable {
      StackTakesWhatFits(w, from, to, index, x, count, flags, trade);
    } else {
      SettleFacts(w.f, to, index, x, flags);
      hide Settle, Linked, Ranked, Above;
    }
  }

  lemma {:induction false} StackTakesWhatFits<K>(w: World<K>, from: K, to: K, index: int, x: K, count: nat,
        flags: Flags, trade: Option<K>)
    requires Sound(w) && Stacked(w.f) && from in w.f && to in w.f && x in w.f && !flags.noLimit && !flags.childIsOwner
    requires 0 < count && w.f[x].kind.stackable
    ensures var s, plan := Settle(w.f, to, index, x, flags, LAYERS),
                           MovePlan(w, from, to, index, x, count, flags, trade);
      && s.place.to in w.f && (s.place.item.Some? ==> s.place.item.value in w.f)
      && (s.place.item != Some(x) ==>
            && (plan.Move? ==> Goes(w, from, x, s, trade) && plan.place == s.place)
            && (Goes(w, from, x, s, trade) && count <= w.f[x].count ==> plan.Move?)
            && (plan.Keep? ==> plan.ret != NoError)
            && (plan.Move? ==> StackTaken(w, x, count, s.place, plan)))
  {
    hide Ranked, Above, Weighed, MaxCount, Settle, Linked, Room;
    SettleFacts(w.f, to, index, x, flags);
    GoalInside(w, to, index, x, flags);
    var s := Settle(w.f, to, index, x, flags, LAYERS);
    assert StackOk(w.f[x]);
    if s.place.item.Some? {
      assert StackOk(w.f[s.place.item.value]);
    }
    if s.place.item != Some(x) && QueryAdd(w, s.place.to, s.place.index, x, s.flags) == NoError {
      RoomCounted(w, s.place, x, count, s.flags);
    }
  }

  /** With a free place there is room for a whole stack; without one, what is left in the stack at the place. */
  lemma {:induction false} RoomCounted<K>(w: World<K>, p: Place<K>, x: K, count: nat, flags: Flags)
    requires Sound(w) && x in w.f && Settled(w.f, x, p) && (p.item.Some? ==> p.item.value in w.f)
    requires w.f[x].kind.stackable && p.item != Some(x) && !flags.noLimit && !flags.childIsOwner
    requires QueryAdd(w, p.to, p.index, x, flags) == NoError
    ensures HasSlot(w.f, p.to) ==> MaxCount(w, p.to, p.index, x, count, flags) >= STACK
    ensures !HasSlot(w.f, p.to) ==> MaxCount(w, p.to, p.index, x, count, flags) == RoomAt(w.f, p, x)
  {
    hide Ranked, Above, Weighed, Room;
    assert Holds(w.f, p.to);
  }

  /** Nothing in a list can take `x`, or it is not to be stacked there. */
  ghost predicate NotStacked<K>(f: Forest<K>, c: K, x: K, flags: Flags)
    requires c in f && x in f
  {
    flags.ignoreAutoStack || !f[x].kind.stackable || f[x].parent == Some(c)
    || forall y :: y in f[c].list && y in f ==> !StacksOn(f, x, y)
  }

  /** What an index means: that of a container in the list leads into it, that of another item to that item; 254 leads
      out to the container around, and an index that names nothing to the front of the list. */
  lemma {:induction false} IndexLeads<K>(f: Forest<K>, c: K, index: int, x: K, flags: Flags)
    requires Linked(f) && c in f && x in f && f[c].unlocked
    ensures var p := Settle(f, c, index, x, flags, LAYERS).place;
      && (index == MOVE_UP ==> p.to == if f[c].parent.Some? then f[c].parent.value else c)
      && (NotStacked(f, c, x, flags) && 0 <= index < |f[c].list| && index < f[c].capacity && f[c].list[index] in f
            && index != MOVE_UP && index != ADD_WHEREVER ==>
            if f[f[c].list[index]].holder then p.to == f[c].list[index]
            else p == Place(c, index, Some(f[c].list[index])))
      && (NotStacked(f, c, x, flags) && index != MOVE_UP && (index < 0 || index >= |f[c].list|) ==>
            p.to == c && p.item == None)
  {
    SettleOnce(f, c, index, x, flags, LAYERS);
    assert Holds(f, c);
    if FindStack(f, f[c].list, x) < |f[c].list| {
      assert f[c].list[FindStack(f, f[c].list, x)] in f[c].list;
    }
  }

  /** With FLAG_NOLIMIT all fits. */
  lemma {:induction false} TakesAllWithoutLimit<K>(w: World<K>, from: K, to: K, index: int, x: K, count: nat,
        flags: Flags, trade: Option<K>)
    requires Sound(w) && Stacked(w.f) && from in w.f && to in w.f && x in w.f && flags.noLimit && !flags.childIsOwner
    requires 0 < count && (w.f[x].kind.stackable ==> count <= w.f[x].count)
    ensures var s, plan := Settle(w.f, to, index, x, flags, LAYERS),
                           MovePlan(w, from, to, index, x, count, flags, trade);
      s.place.to in w.f && (s.place.item != Some(x) && s.flags.noLimit ==>
        && (plan.Move? <==> Movable(w, from, x, s.place, s.flags, trade)) && (plan.ret == NoError <==> plan.Move?)
        && (plan.Move? ==> plan.m == count))
  {
    SettleFacts(w.f, to, index, x, flags);
    PlaceInside(w.f, x, Settle(w.f, to, index, x, flags, LAYERS).place);
  }

  /** Without an index, a stack from elsewhere tops up the first stack in the list that has room, and goes to the front
      of the list only when there is none. */
  lemma {:induction false} TopsUpFirst<K>(w: World<K>, from: K, to: K, x: K, count: nat, flags: Flags,
        trade: Option<K>)
    requires Sound(w) && Stacked(w.f) && from in w.f && to in w.f && x in w.f && w.f[to].unlocked
    requires w.f[x].kind.stackable && w.f[x].parent != Some(to) && !flags.ignoreAutoStack && !flags.childIsOwner
    requires MovePlan(w, from, to, WHEREEVER, x, count, flags, trade).Move?
    ensures Inside(w.f, w.f[to].list)
    ensures var plan, l := MovePlan(w, from, to, WHEREEVER, x, count, flags, trade), w.f[to].list;
      && plan.place.to == to
      && (forall k {:trigger l[k]} :: 0 <= k < |l| && StacksOn(w.f, x, l[k]) ==>
            plan.place.item.Some? && 0 <= plan.place.index <= k && plan.n > 0)
      && (plan.place.item.Some? ==>
            0 <= plan.place.index < |l| && plan.place.item == Some(l[plan.place.index])
            && StacksOn(w.f, x, l[plan.place.index]))
  {
    SettleOnce(w.f, to, WHEREEVER, x, flags, LAYERS);
    SettleFacts(w.f, to, WHEREEVER, x, flags);
    assert Holds(w.f, to) && StackOk(w.f[x]);
    var l := w.f[to].list;
    var k := FindStack(w.f, l, x);
    if k < |l| {
      assert StackOk(w.f[l[k]]);
    }
  }

  /** A stack that does not all fit leaves no room behind: the list is full, and so is the stack it was put onto. */
  lemma {:induction false} LeavesNoRoom<K>(w: World<K>, from: K, to: K, index: int, x: K, count: nat, flags: Flags,
        trade: Option<K>, fresh': K)
    requires Sound(w) && Stacked(w.f) && from in w.f && to in w.f && x in w.f && !flags.noLimit && !flags.childIsOwner
    requires w.f[to].holder && w.f[x].kind.stackable && 0 < count <= w.f[x].count
    requires MovePlan(w, from, to, index, x, count, flags, trade).Move?
    requires MovePlan(w, from, to, index, x, count, flags, trade).m < count
    ensures var p, g := MovePlan(w, from, to, index, x, count, flags, trade).place,
                        MoveItem(w, from, to, index, x, count, flags, trade, fresh').0;
      && p.to in w.f && g.f.Keys == w.f.Keys && p.item.Some? && p.item.value in w.f
      && |g.f[p.to].list| >= g.f[p.to].capacity && g.f[p.item.value].count == STACK
      && g.f[x].count == w.f[x].count - MovePlan(w, from, to, index, x, count, flags, trade).m
  {
    hide MovePlan, Settle, Linked, Ranked, Weighed, Above, StackOk, Stacked, RemoveThing, Merge;
    TakesWhatFits(w, from, to, index, x, count, flags, trade);
    PlanFair(w, from, to, index, x, count, flags, trade);
    var plan := MovePlan(w, from, to, index, x, count, flags, trade);
    SettleFacts(w.f, to, index, x, flags);
    TakeAndMerge(w, from, x, plan, false);
    var w1 := RemoveThing(w, from, x, plan.m);
    CarryIsDeliver(w, from, x, plan, fresh', Merge(w1, plan.place, w.f[x].kind, plan.n));
    PartTaken(w, from, x, plan.m, w1);
    Topped(w1, plan.place, w.f[x].kind, plan.n);
  }

  lemma {:induction false} PartTaken<K>(w: World<K>, from: K, x: K, m: nat, w1: World<K>)
    requires Sound(w) && from in w.f && x in w.f && w.f[x].kind.stackable && m < w.f[x].count && x in w.f[from].list
    requires w1 == RemoveThing(w, from, x, m)
    ensures w1.f.Keys == w.f.Keys && forall y {:trigger w1.f[y]} :: y in w.f ==>
      w1.f[y].list == w.f[y].list && w1.f[y].capacity == w.f[y].capacity
      && w1.f[y].count == w.f[y].count - if y == x then m else 0
  {
    hide Updated, Weighed;
    UpdatedFields(w.f, w.rank, x, w.f[x].kind, w.f[x].count - m);
  }

  lemma {:induction false} Topped<K>(w: World<K>, p: Place<K>, kind: Kind, n: nat)
    requires Mergeable(w, p, kind, n) && n > 0
    ensures var g := Merge(w, p, kind, n).f;
      && g.Keys == w.f.Keys && p.item.Some? && forall y {:trigger g[y]} :: y in w.f ==>
        g[y].list == w.f[y].list && g[y].capacity == w.f[y].capacity
        && g[y].count == w.f[y].count + if y == p.item.value then n else 0
  {
    hide Updated, Weighed;
    assert Held(w.f, p.item.value);
    UpdatedFields(w.f, w.rank, p.item.value, kind, w.f[p.item.value].count + n);
  }

  // ----- A move that loses units

  const BOX := Kind(1, false, 0, true, true, 0)

  const COIN := Kind(2, true, 0, true, true, 0)

  /** Container 0 holds stack 1 of a hundred coins. Container 2 has room for one item and holds two, a box and,
      behind it, stack 4 of fifty coins. */
  const CROWDED: Forest<nat> := map[
    0 := Node(None, [1], true, BOX, 1, 0, 8, true),
    1 := Node(Some(0), [], false, COIN, 100, 0, 0, false),
    2 := Node(None, [3, 4], true, BOX, 1, 0, 1, true),
    3 := Node(Some(2), [], false, BOX, 1, 0, 0, false),
    4 := Node(Some(2), [], false, COIN, 50, 0, 0, false)]

  const CROWD := World(CROWDED, map[0 := 0, 1 := 1, 2 := 0, 3 := 1, 4 := 1])

  lemma {:induction false} CrowdSums()
    ensures Inside(CROWDED, [1]) && Inside(CROWDED, [3, 4]) && Sum(CROWDED, [1]) == 0 && Sum(CROWDED, [3, 4]) == 0
    ensures Tally(CROWDED, [1], COIN) == 100 && Tally(CROWDED, [3, 4], COIN) == 50
  {
    var f := CROWDED;
    var one, two, last := [1], [3, 4], [4];
    assert one[1..] == [] && two[1..] == last && last[1..] == [];
    assert Weight(f, 1) == 0 && Weight(f, 3) == 0 && Weight(f, 4) == 0;
    assert Sum(f, []) == 0 && Sum(f, one) == Sum(f, []) && Sum(f, last) == Sum(f, []) && Sum(f, two) == Sum(f, last);
    assert Tally(f, [], COIN) == 0 && Tally(f, last, COIN) == 50;
  }

  lemma {:induction false} CrowdSound()
    ensures Sound(CROWD) && Stacked(CROWDED)
    ensures Has(CROWDED, 0, COIN) == 100 && Has(CROWDED, 2, COIN) == 50
  {
    hide Sum, Tally, Holds, Held, Below, StackOk, Off;
    CrowdSums();
    var f := CROWDED;
    forall y | y in f
      ensures Holds(f, y) && Held(f, y) && Below(f, CROWD.rank, y) && StackOk(f[y]) && Off(f, y, 0)
    {
      CrowdLinked(y);
      CrowdWeighed(y);
    }
  }

  lemma {:induction false} CrowdLinked(y: nat)
    requires y in CROWDED
    ensures Holds(CROWDED, y) && Held(CROWDED, y)
  {
    assert y in {0, 1, 2, 3, 4};
  }

  lemma {:induction false} CrowdWeighed(y: nat)
    requires y in CROWDED
    ensures Below(CROWDED, CROWD.rank, y) && StackOk(CROWDED[y]) && Off(CROWDED, y, 0)
  {
    hide Sum;
    CrowdSums();
    assert y in {0, 1, 2, 3, 4};
  }

  /** Moving the hundred coins into the second container with FLAG_NOLIMIT fills stack 4 and loses the rest:
      of 150 coins 100 are left. */
  lemma {:induction false} FiftyLost()
    ensures Sound(CROWD) && CROWD.f.Keys == {0, 1, 2, 3, 4}
    ensures var flags := Flags(true, false, false, false);
      var (g, ret) := MoveItem(CROWD, 0, 2, WHEREEVER, 1, 100, flags, None, 5);
      && ret == NoError && Sound(g) && 0 in g.f && 2 in g.f && Has(g.f, 0, COIN) == 0 && Has(g.f, 2, COIN) == 100
  {
    hide Carry, Gains, Weighed, Ranked, Above, RemoveThing, Merge;
    CrowdSound();
    var flags := Flags(true, false, false, false);
    var plan := MovePlan(CROWD, 0, 2, WHEREEVER, 1, 100, flags, None);
    SettleOnce(CROWDED, 2, WHEREEVER, 1, flags, LAYERS);
    FindSecond();
    NotAboveRoot(CROWD, 1, 2);
    assert plan == Move(Place(2, 1, Some(4)), 100, 50, NoError);
    PlanFair(CROWD, 0, 2, WHEREEVER, 1, 100, flags, None);
    SettleFacts(CROWDED, 2, WHEREEVER, 1, flags);
    CarryLoses(CROWD, 0, 1, plan, true, 5);
    var g := MoveItem(CROWD, 0, 2, WHEREEVER, 1, 100, flags, None, 5).0;
    assert CarriedPart(CROWDED, g.f, 0, 2, COIN, 100, 50);
    assert Has(g.f, 0, COIN) == 0 && Has(g.f, 2, COIN) == 100;
  }

  lemma {:induction false} FindSecond()
    ensures Inside(CROWDED, CROWDED[2].list) && FindStack(CROWDED, CROWDED[2].list, 1) == 1
  {
    assert CROWDED[2].list[1..] == [4];
  }

  lemma {:induction false} NotAboveRoot<K>(w: World<K>, a: K, x: K)
    requires Ranked(w.f, w.rank) && x in w.f && w.f[x].parent.None? && a != x
    ensures !Above(w.f, w.rank, a, x)
  {
  }
}
