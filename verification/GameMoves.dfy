/** `internalMoveItem` on the objects themselves, proved to do what Moves says. */
module GameMoves {
  import opened Common
  import opened ItemTree
  import opened ContainerOps
  import Ops = ContainerOps
  import opened Moves
  import opened Container

  /** Asks for the destination until a container names itself. */
  method FindGoal(to0: Item, index0: int, item: Item, flags0: Flags, ghost s: set<Item>)
    returns (to: Item, index: int, toItem: Item?, flags: Flags)
    requires to0 in s && item in s && Linked(Snap(s))
    ensures to in s && (toItem != null ==> toItem in s)
    ensures Goal(PlaceOf(to, index, toItem), flags) == Settle(Snap(s), to0, index0, item, flags0, LAYERS)
  {
    ghost var f := Snap(s);
    to, flags := to0, flags0;
    ghost var asked := index0;
    var floorN := 0;
    var subCylinder;
    subCylinder, index, toItem := to.QueryDestination(index0, item, flags, s);
    while subCylinder != to
      invariant 0 <= floorN < LAYERS
      invariant to in s && subCylinder in s && (toItem != null ==> toItem in s)
      invariant PlaceOf(subCylinder, index, toItem) == Destination(f, to, asked, item, flags)
      invariant Settle(f, to0, index0, item, flags0, LAYERS) == Settle(f, to, asked, item, flags, LAYERS - floorN)
      decreases LAYERS - floorN
    {
      to, flags := subCylinder, NO_FLAGS;
      floorN := floorN + 1;
      if floorN >= LAYERS {
        break;
      }
      asked := index;
      subCylinder, index, toItem := to.QueryDestination(index, item, flags, s);
    }
  }

  /** Whether `a` is `c` or holds it. */
  method Encloses(a: Item, c: Item, ghost s: set<Item>, ghost rank: map<Item, nat>) returns (r: bool)
    requires c in s && Ranked(Snap(s), rank)
    ensures r == Above(Snap(s), rank, a, c)
  {
    ghost var f := Snap(s);
    var tmpCylinder: Item? := c;
    while tmpCylinder != null
      invariant tmpCylinder != null ==> tmpCylinder in s
      invariant Above(f, rank, a, c) <==> tmpCylinder != null && Above(f, rank, a, tmpCylinder)
      decreases if tmpCylinder == null then 0 else rank[tmpCylinder] + 1
    {
      if tmpCylinder == a {
        return true;
      }
      assert Below(f, rank, tmpCylinder);
      tmpCylinder := tmpCylinder.parent;
    }
    return false;
  }

  ghost function Maybe(x: Item?): Option<Item>
  {
    var found: Option<Item> := if x == null then None else Some(x);
    found
  }

  /** All that is asked before anything is moved. */
  method Decide(from: Item, to0: Item, index0: int, item: Item, count: nat, flags0: Flags, tradeItem: Item?,
        ghost s: set<Item>, ghost rank: map<Item, nat>)
    returns (go: bool, ret: ReturnValue, to: Item, index: int, toItem: Item?, m: nat, ghost plan: Plan<Item>)
    requires Good(Snap(s), rank) && from in s && to0 in s && item in s
    ensures to in s && (toItem != null ==> toItem in s)
    ensures plan == MovePlan(WorldOf(s, rank), from, to0, index0, item, count, flags0, Maybe(tradeItem))
    ensures !go ==> plan == Keep(ret)
    ensures go ==> plan.Move? && plan.place == PlaceOf(to, index, toItem) && plan.m == m && plan.ret == ret
  {
    hide Linked, Ranked, Weighed, Settle, QueryAdd, MaxCount, QueryRemove, Above, Onto, MaxCountReturn;
    go, m := false, 0;
    plan := MovePlan(WorldOf(s, rank), from, to0, index0, item, count, flags0, Maybe(tradeItem));
    SettleFacts(Snap(s), to0, index0, item, flags0);
    var flags;
    to, index, toItem, flags := FindGoal(to0, index0, item, flags0, s);
    if item == toItem {
      ret := NoError;
      return;
    }
    ret := to.QueryAdd(index, item, flags, s, rank);
    if ret != NoError {
      return;
    }
    var retMaxCount, maxQueryCount := to.QueryMaxCount(index, item, count, flags, s, rank);
    if retMaxCount != NoError && maxQueryCount == 0 {
      ret := retMaxCount;
      return;
    }
    m := if item.kind.stackable then Min(count, maxQueryCount) else maxQueryCount;
    ret := from.QueryRemove(item, m, flags, s);
    if ret != NoError {
      return;
    }
    if tradeItem != null {
      var inside := Encloses(tradeItem, to, s, rank);
      if inside {
        ret := NotEnoughRoom;
        return;
      }
    }
    go := true;
    if item.kind.stackable && maxQueryCount < count {
      ret := retMaxCount;
    }
  }

  /** Onto the item already there. */
  method MergeOnto(kind: Kind, to: Item, toItem: Item?, m: nat, ghost index: int, ghost s: set<Item>,
        ghost rank: map<Item, nat>)
    returns (n: nat)
    requires to in s && (toItem != null ==> toItem in s) && Good(Snap(s), rank)
    requires kind.stackable && toItem != null && toItem.kind == kind ==> toItem.count <= STACK
    modifies s`totalWeight, s`kind, s`count
    ensures n ==
      if kind.stackable && toItem != null && old(toItem.kind) == kind then Min(STACK - old(toItem.count), m) else 0
    ensures WorldOf(s, rank) == Merge(old(WorldOf(s, rank)), PlaceOf(to, index, toItem), kind, n)
  {
    hide Linked, Ranked, Weighed, Ops.UpdateThing;
    n := 0;
    if kind.stackable && toItem != null && toItem.kind == kind {
      n := Min(STACK - toItem.count, m);
      to.UpdateThing(toItem, kind, toItem.count + n, s, rank);
    }
  }

  /** The rest as a new stack. */
  method DeliverStack(to: Item, index: int, kind: Kind, count: nat, ghost s: set<Item>, ghost rank: map<Item, nat>)
    returns (moveItem: Item, ghost s': set<Item>, ghost rank': map<Item, nat>)
    requires Good(Snap(s), rank) && to in s && to.holder && count > 0
    modifies s
    ensures fresh(moveItem) && s' == s + {moveItem}
    ensures WorldOf(s', rank') == AddStack(old(WorldOf(s, rank)), to, index, kind, count, moveItem)
  {
    ghost var w := WorldOf(s, rank);
    moveItem := new Item(false, 0, false, kind, count);
    s' := s + {moveItem};
    rank' := rank[moveItem := 0];
    assert WorldOf(s', rank') == Created(w, moveItem, kind, count);
    CreatedSound(w, moveItem, kind, count);
    CreatedFits(w, moveItem, kind, count, to);
    rank' := to.AddThing(index, moveItem, s', rank');
  }

  method DeliverRest(item: Item, to: Item, index: int, kind: Kind, count: nat, ghost s: set<Item>,
        ghost rank: map<Item, nat>, ghost w: World<Item>)
    returns (moveItem: Item, ghost s': set<Item>, ghost rank': map<Item, nat>)
    requires w == WorldOf(s, rank) && Sound(w) && to in s && to.holder
    modifies s
    ensures if count > 0 then fresh(moveItem) && s' == s + {moveItem} else s' == s && moveItem == item
    ensures WorldOf(s', rank') == Deliver(w, to, index, kind, count, moveItem)
  {
    moveItem, s', rank' := item, s, rank;
    if count > 0 {
      moveItem, s', rank' := DeliverStack(to, index, kind, count, s, rank);
    }
  }

  /** Takes out and merges: the two steps before the rest is delivered. */
  method TakeAndMergeItem(from: Item, item: Item, to: Item, toItem: Item?, m: nat, ghost plan: Plan<Item>,
        ghost s: set<Item>, ghost rank: map<Item, nat>)
    returns (n: nat)
    requires from in s && item in s && to in s && (toItem != null ==> toItem in s)
    requires Good(Snap(s), rank) && Stacked(Snap(s)) && Fair(WorldOf(s, rank), from, item, plan, true)
    requires plan.place.to == to && plan.place.item == Maybe(toItem) && plan.m == m
    modifies s
    ensures n == plan.n
    ensures var w, w1 := old(WorldOf(s, rank)), Ops.RemoveThing(old(WorldOf(s, rank)), from, item, m);
      Mergeable(w1, plan.place, w.f[item].kind, n) && WorldOf(s, rank) == Merge(w1, plan.place, w.f[item].kind, n)
  {
    ghost var w := WorldOf(s, rank);
    TakeAndMerge(w, from, item, plan, true);
    var kind := item.kind;
    from.RemoveThing(item, m, s, rank);
    ghost var w1 := WorldOf(s, rank);
    assert w1 == Ops.RemoveThing(w, from, item, m);
    if toItem != null {
      assert StackOk(w1.f[toItem]);
      assert w1.f[toItem].kind == w.f[toItem].kind && w1.f[toItem].count == w.f[toItem].count;
    }
    n := MergeOnto(kind, to, toItem, m, plan.place.index, s, rank);
  }

  /** `w2` is what taking and merging make of `w`. */
  ghost predicate HalfDone(w: World<Item>, from: Item, item: Item, plan: Plan<Item>, w2: World<Item>)
    requires Sound(w) && from in w.f && item in w.f && plan.Move?
  {
    && Mergeable(Ops.RemoveThing(w, from, item, plan.m), plan.place, w.f[item].kind, plan.n)
    && w2 == Merge(Ops.RemoveThing(w, from, item, plan.m), plan.place, w.f[item].kind, plan.n)
  }

  method TakeAndMergeWorld(from: Item, item: Item, to: Item, toItem: Item?, m: nat, ghost plan: Plan<Item>,
        ghost s: set<Item>, ghost rank: map<Item, nat>, ghost w: World<Item>)
    returns (n: nat, ghost w2: World<Item>)
    requires w == WorldOf(s, rank)
    requires from in s && item in s && to in s && (toItem != null ==> toItem in s)
    requires Sound(w) && Stacked(w.f) && Fair(w, from, item, plan, true)
    requires plan.place.to == to && plan.place.item == Maybe(toItem) && plan.m == m
    modifies s
    ensures n == plan.n && w2 == WorldOf(s, rank) && Sound(w2)
    ensures HalfDone(w, from, item, plan, w2)
  {
    TakeAndMergeMidway(w, from, item, plan, true);
    n := TakeAndMergeItem(from, item, to, toItem, m, plan, s, rank);
    w2 := WorldOf(s, rank);
  }

  method CarryOutStack(from: Item, item: Item, to: Item, index: int, toItem: Item?, m: nat, ghost plan: Plan<Item>,
        ghost s: set<Item>, ghost rank: map<Item, nat>, ghost w: World<Item>)
    returns (moveItem: Item, ghost s': set<Item>, ghost rank': map<Item, nat>, ghost w2: World<Item>)
    requires w == WorldOf(s, rank)
    requires from in s && item in s && to in s && to.holder && (toItem != null ==> toItem in s)
    requires Sound(w) && Stacked(w.f) && Fair(w, from, item, plan, true)
    requires plan.place.to == to && plan.place.item == Maybe(toItem) && plan.m == m && plan.n <= m
    modifies s
    ensures s <= s' && (s' == s || (fresh(moveItem) && s' == s + {moveItem}))
    ensures m > plan.n ==> fresh(moveItem)
    ensures HalfDone(w, from, item, plan, w2)
    ensures WorldOf(s', rank') == Deliver(w2, to, index, old(item.kind), m - plan.n, moveItem)
  {
    hide *;
    var kind := item.kind;
    var n;
    n, w2 := TakeAndMergeWorld(from, item, to, toItem, m, plan, s, rank, w);
    moveItem, s', rank' := DeliverRest(item, to, index, kind, m - n, s, rank, w2);
  }

  method CarryOutItem(from: Item, item: Item, to: Item, index: int, toItem: Item?, m: nat, ghost plan: Plan<Item>,
        ghost s: set<Item>, ghost rank: map<Item, nat>)
    returns (ghost s': set<Item>, ghost rank': map<Item, nat>)
    requires from in s && item in s && to in s && to.holder && (toItem != null ==> toItem in s)
    requires Good(Snap(s), rank) && Stacked(Snap(s)) && Fair(WorldOf(s, rank), from, item, plan, true)
    requires plan.place == PlaceOf(to, index, toItem) && plan.m == m && plan.n <= m && !item.kind.stackable
    modifies s
    ensures s' == s && WorldOf(s', rank') == Carry(old(WorldOf(s, rank)), from, item, plan, item)
  {
    ghost var w := WorldOf(s, rank);
    TakeAndMergeMidway(w, from, item, plan, true);
    from.RemoveThing(item, m, s, rank);
    ghost var w1 := WorldOf(s, rank);
    CarryIsAdd(w, from, item, plan, item, w1);
    TakenAbove(w, from, item, m, w1, item, to);
    s' := s;
    rank' := to.AddThing(index, item, s, rank);
  }

  lemma {:induction false} MoveItemSound(w: World<Item>, from: Item, to: Item, index: int, item: Item, count: nat,
        flags: Flags, trade: Option<Item>, fresh': Item)
    requires Sound(w) && Stacked(w.f) && from in w.f && to in w.f && w.f[to].holder && item in w.f
    requires !flags.childIsOwner
    requires NewFor(w, item, MovePlan(w, from, to, index, item, count, flags, trade), fresh')
    ensures var g := MoveItem(w, from, to, index, item, count, flags, trade, fresh').0; Sound(g) && Stacked(g.f)
  {
    MoveItemKeeps(w, from, to, index, item, count, flags, trade, fresh');
  }

  method CarryStack(from: Item, item: Item, to: Item, index: int, toItem: Item?, m: nat, ghost plan: Plan<Item>,
        ghost s: set<Item>, ghost rank: map<Item, nat>, ghost w: World<Item>)
    returns (moveItem: Item, ghost s': set<Item>, ghost rank': map<Item, nat>)
    requires w == WorldOf(s, rank)
    requires from in s && item in s && to in s && to.holder && (toItem != null ==> toItem in s)
    requires Sound(w) && Stacked(w.f) && Fair(w, from, item, plan, true) && item.kind.stackable
    requires plan.place == PlaceOf(to, index, toItem) && plan.m == m
    modifies s
    ensures s <= s' && (s' == s || (fresh(moveItem) && s' == s + {moveItem}))
    ensures NewFor(w, item, plan, moveItem) && WorldOf(s', rank') == Carry(w, from, item, plan, moveItem)
  {
    hide Carry, Linked, Ranked, Weighed, StackOk, Stacked, Fair, HalfDone, Deliver, Settled, NewFor, Above, Sound;
    ghost var w2;
    FairStack(w, from, item, plan);
    moveItem, s', rank', w2 := CarryOutStack(from, item, to, index, toItem, m, plan, s, rank, w);
    StackCarried(w, from, item, plan, moveItem, w2);
  }

  lemma {:induction false} FairStack(w: World<Item>, from: Item, item: Item, plan: Plan<Item>)
    requires Sound(w) && Stacked(w.f) && from in w.f && item in w.f && Fair(w, from, item, plan, true)
    ensures plan.Move? && plan.n <= plan.m && Settled(w.f, item, plan.place)
  {
    hide Linked, Ranked, Weighed, Above;
  }

  lemma {:induction false} StackCarried(w: World<Item>, from: Item, item: Item, plan: Plan<Item>, moveItem: Item,
        w2: World<Item>)
    requires Sound(w) && Stacked(w.f) && from in w.f && item in w.f && Fair(w, from, item, plan, true)
    requires w.f[item].kind.stackable && HalfDone(w, from, item, plan, w2)
    requires plan.m > plan.n ==> moveItem !in w.f
    ensures plan.n <= plan.m && Settled(w.f, item, plan.place) && NewFor(w, item, plan, moveItem)
    ensures Carry(w, from, item, plan, moveItem)
      == Deliver(w2, plan.place.to, plan.place.index, w.f[item].kind, plan.m - plan.n, moveItem)
  {
    hide Carry, Linked, Ranked, Weighed, Above, Deliver;
    FairStack(w, from, item, plan);
    CarryIsDeliver(w, from, item, plan, moveItem, w2);
  }

  /** Decides, and carries out what has been decided. */
  method CarryOut(from: Item, to: Item, index: int, item: Item, count: nat, flags: Flags, tradeItem: Item?,
        ghost s: set<Item>, ghost rank: map<Item, nat>, ghost w: World<Item>)
    returns (ret: ReturnValue, moveItem: Item, ghost s': set<Item>, ghost rank': map<Item, nat>)
    requires w == WorldOf(s, rank) && from in s && to in s && to.holder && item in s
    requires Sound(w) && Stacked(w.f) && !flags.childIsOwner
    modifies s
    ensures s <= s' && (s' == s || (fresh(moveItem) && s' == s + {moveItem}))
    ensures (WorldOf(s', rank'), ret) == MoveItem(w, from, to, index, item, count, flags, Maybe(tradeItem), moveItem)
    ensures NewFor(w, item, MovePlan(w, from, to, index, item, count, flags, Maybe(tradeItem)), moveItem)
  {
    hide Carry, MovePlan, Linked, Ranked, Weighed, StackOk, Settled;
    PlanFair(w, from, to, index, item, count, flags, Maybe(tradeItem));
    var go, to', index', toItem, m;
    ghost var plan;
    go, ret, to', index', toItem, m, plan := Decide(from, to, index, item, count, flags, tradeItem, s, rank);
    moveItem, s', rank' := item, s, rank;
    if go {
      if item.kind.stackable {
        moveItem, s', rank' := CarryStack(from, item, to', index', toItem, m, plan, s, rank, w);
      } else {
        s', rank' := CarryOutItem(from, item, to', index', toItem, m, plan, s, rank);
      }
    }
  }

  /** Moves `count` of an item, or as much as fits, and answers with what `_moveItem` is set to. */
  method InternalMoveItem(from: Item, to: Item, index: int, item: Item, count: nat, flags: Flags, tradeItem: Item?,
        ghost s: set<Item>, ghost rank: map<Item, nat>)
    returns (ret: ReturnValue, moveItem: Item, ghost s': set<Item>, ghost rank': map<Item, nat>)
    requires from in s && to in s && to.holder && item in s
    requires Good(Snap(s), rank) && Stacked(Snap(s)) && !flags.childIsOwner
    modifies s
    ensures s <= s' && (s' == s || (fresh(moveItem) && s' == s + {moveItem}))
    ensures var w := old(WorldOf(s, rank));
      && (WorldOf(s', rank'), ret) == MoveItem(w, from, to, index, item, count, flags, Maybe(tradeItem), moveItem)
      && NewFor(w, item, MovePlan(w, from, to, index, item, count, flags, Maybe(tradeItem)), moveItem)
    ensures Good(Snap(s'), rank') && Stacked(Snap(s'))
  {
    hide MoveItem, MovePlan, Linked, Ranked, Weighed, StackOk;
    ghost var w := WorldOf(s, rank);
    ret, moveItem, s', rank' := CarryOut(from, to, index, item, count, flags, tradeItem, s, rank, w);
    MoveItemSound(w, from, to, index, item, count, flags, Maybe(tradeItem), moveItem);
  }
}
