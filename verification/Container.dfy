/** Items and containers as objects. Each method is tied to what ContainerOps says of the forest that
    the objects of `s` make up; `s` and `rank` are ghosts, all else is the state of the program. */
module Container {
  import opened Common
  import opened ItemTree
  import Ops = ContainerOps
  import opened ContainerOps

  /** An item; a container is an item that is a `holder`. `parent` is null for what lies in no container. */
  class Item {
    const holder: bool
    const capacity: nat
    const unlocked: bool
    var kind: Kind
    var count: nat
    var parent: Item?
    var itemlist: seq<Item>
    var totalWeight: int

    constructor (holder: bool, capacity: nat, unlocked: bool, kind: Kind, count: nat)
      ensures NodeOf() == Node(None, [], holder, kind, count, 0, capacity, unlocked)
    {
      this.holder, this.capacity, this.unlocked, this.kind, this.count := holder, capacity, unlocked, kind, count;
      parent, itemlist, totalWeight := null, [], 0;
    }

    ghost function NodeOf(): Node<Item>
      reads this
    {
      var holding: Option<Item> := if parent == null then None else Some(parent);
      Node(holding, itemlist, holder, kind, count, totalWeight, capacity, unlocked)
    }

    function GetWeight(): int
      reads this
    {
      Own(kind, count) + if holder then totalWeight else 0
    }

    method UpdateItemWeight(diff: int, ghost s: set<Item>, ghost rank: map<Item, nat>)
      requires this in s && Ranked(Snap(s), rank)
      modifies s`totalWeight
      ensures Snap(s) == AddUp(old(Snap(s)), rank, this, diff)
      decreases rank[this]
    {
      ghost var f := Snap(s);
      HeavierRanked(f, rank, this, diff);
      AddUpStep(f, rank, this, diff);
      totalWeight := totalWeight + diff;
      assert Snap(s) == Heavier(f, this, diff);
      if parent != null {
        parent.UpdateItemWeight(diff, s, rank);
      }
    }

    method AddThing(index: int, item: Item, ghost s: set<Item>, ghost rank: map<Item, nat>)
      returns (ghost rank': map<Item, nat>)
      requires Fits(WorldOf(s, rank), this, item)
      modifies s`totalWeight, this`itemlist, item`parent
      ensures WorldOf(s, rank') == Ops.AddThing(old(WorldOf(s, rank)), this, index, item)
    {
      if index >= capacity {
        return rank;
      }
      rank' := Join(item, true, s, rank);
    }

    method AddItemBack(item: Item, ghost s: set<Item>, ghost rank: map<Item, nat>) returns (ghost rank': map<Item, nat>)
      requires Fits(WorldOf(s, rank), this, item)
      modifies s`totalWeight, this`itemlist, item`parent
      ensures WorldOf(s, rank') == Ops.AddItemBack(old(WorldOf(s, rank)), this, item)
    {
      rank' := Join(item, false, s, rank);
    }

    method InternalAddThing(item: Item, ghost s: set<Item>, ghost rank: map<Item, nat>)
      returns (ghost rank': map<Item, nat>)
      requires Fits(WorldOf(s, rank), this, item)
      modifies s`totalWeight, this`itemlist, item`parent
      ensures WorldOf(s, rank') == Ops.InternalAddThing(old(WorldOf(s, rank)), this, item)
    {
      rank' := Join(item, true, s, rank);
    }

    /** The three steps that all ways of adding share. */
    method Join(item: Item, front: bool, ghost s: set<Item>, ghost rank: map<Item, nat>)
      returns (ghost rank': map<Item, nat>)
      requires Fits(WorldOf(s, rank), this, item)
      modifies s`totalWeight, this`itemlist, item`parent
      ensures WorldOf(s, rank') == Put(old(WorldOf(s, rank)), this, item, front)
    {
      ghost var f := Snap(s);
      AttachRanked(f, rank, this, item, front);
      rank' := Deeper(f, rank, item, rank[this] + 1);
      PutIs(f, rank, this, item, front);
      Link(item, front, s);
      UpdateItemWeight(item.GetWeight(), s, rank');
    }

    method Link(item: Item, front: bool, ghost s: set<Item>)
      requires this in s && item in s && item != this
      modifies this`itemlist, item`parent
      ensures Snap(s) == Attach(old(Snap(s)), this, item, front)
      ensures item.GetWeight() == Weight(old(Snap(s)), item)
    {
      item.parent := this;
      itemlist := if front then [item] + itemlist else itemlist + [item];
    }

    method Unlink(index: nat, item: Item, ghost s: set<Item>)
      requires this in s && item in s && item != this && index < |itemlist| && item == itemlist[index]
      modifies this`itemlist, item`parent
      ensures Snap(s) == ItemTree.Unlink(old(Snap(s)), this, index)
    {
      item.parent := null;
      itemlist := itemlist[..index] + itemlist[index + 1..];
    }

    method Displace(index: nat, item: Item, ghost s: set<Item>)
      requires this in s && item in s && item != this && index < |itemlist|
      modifies this`itemlist, item`parent
      ensures Snap(s) == ItemTree.Displace(old(Snap(s)), this, index, item)
    {
      itemlist := itemlist[index := item];
      item.parent := this;
    }

    method Recount(kind: Kind, count: nat, ghost s: set<Item>) returns (diff: int)
      requires this in s
      modifies this`kind, this`count
      ensures Snap(s) == ItemTree.Recount(old(Snap(s)), this, kind, count)
      ensures diff == Weight(Snap(s), this) - Weight(old(Snap(s)), this)
    {
      var oldWeight := GetWeight();
      this.kind, this.count := kind, count;
      diff := -oldWeight + GetWeight();
    }

    method Orphan(ghost s: set<Item>)
      requires this in s
      modifies this`parent
      ensures Snap(s) == ItemTree.Orphan(old(Snap(s)), this)
    {
      parent := null;
    }

    method GetThingIndex(item: Item) returns (index: int)
      ensures index == IndexOf(itemlist, item)
    {
      index := 0;
      while index < |itemlist|
        invariant 0 <= index <= |itemlist|
        invariant item !in itemlist[..index]
      {
        if itemlist[index] == item {
          IndexIs(itemlist, item, index);
          return;
        }
        index := index + 1;
      }
      index := -1;
    }

    /** Another type or count for an item of this container. */
    method UpdateThing(item: Item, kind: Kind, count: nat, ghost s: set<Item>, ghost rank: map<Item, nat>)
      requires this in s && item in s && Good(Snap(s), rank)
      modifies s`totalWeight, item`kind, item`count
      ensures WorldOf(s, rank) == Ops.UpdateThing(old(WorldOf(s, rank)), this, item, kind, count)
    {
      var index := GetThingIndex(item);
      if index == -1 {
        return;
      }
      Change(item, kind, count, s, rank);
    }

    method Change(item: Item, kind: Kind, count: nat, ghost s: set<Item>, ghost rank: map<Item, nat>)
      requires this in s && item in s && Good(Snap(s), rank) && item in itemlist
      modifies s`totalWeight, item`kind, item`count
      ensures Snap(s) == Updated(old(Snap(s)), rank, item, kind, count)
    {
      hide AddUp, Weighed, ItemTree.Recount, Own;
      ghost var f := Snap(s);
      assert Holds(f, this);
      RecountRanked(f, rank, item, kind, count);
      var diff := item.Recount(kind, count, s);
      UpdateItemWeight(diff, s, rank);
    }

    method ReplaceThing(index: nat, item: Item, ghost s: set<Item>, ghost rank: map<Item, nat>)
      returns (ghost rank': map<Item, nat>)
      requires index < |itemlist| ==> Placeable(Snap(s), rank, this, index, item)
      requires this in s && Ranked(Snap(s), rank)
      modifies s
      ensures WorldOf(s, rank') == Ops.ReplaceThing(old(WorldOf(s, rank)), this, index, item)
    {
      if index >= |itemlist| {
        return rank;
      }
      ghost var f := Snap(s);
      DisplaceRanked(f, rank, this, index, item);
      rank' := Deeper(f, rank, item, rank[this] + 1);
      ReplacedIs(f, rank, this, index, item);
      ghost var diff := -Weight(f, itemlist[index]) + Weight(f, item);
      ReplaceAt(index, item, itemlist[index], s, rank', ItemTree.Displace(f, this, index, item), diff);
    }

    method ReplaceAt(index: nat, item: Item, replacedItem: Item, ghost s: set<Item>, ghost rank: map<Item, nat>,
          ghost g: Forest<Item>, ghost diff': int)
      requires this in s && item in s && replacedItem in s && item != this
      requires index < |itemlist| && itemlist[index] == replacedItem
      requires g == ItemTree.Displace(Snap(s), this, index, item) && Ranked(g, rank)
      requires diff' == -replacedItem.GetWeight() + item.GetWeight()
      modifies s`totalWeight, this`itemlist, item`parent, replacedItem`parent
      ensures Snap(s) == ItemTree.Orphan(AddUp(g, rank, this, diff'), replacedItem)
    {
      hide AddUp, Ranked, ItemTree.Displace, ItemTree.Orphan, Own;
      var diff := -replacedItem.GetWeight() + item.GetWeight();
      Displace(index, item, s);
      SwapWeight(diff, replacedItem, s, rank);
    }

    method SwapWeight(diff: int, replacedItem: Item, ghost s: set<Item>, ghost rank: map<Item, nat>)
      requires this in s && replacedItem in s && Ranked(Snap(s), rank)
      modifies s`totalWeight, replacedItem`parent
      ensures Snap(s) == ItemTree.Orphan(AddUp(old(Snap(s)), rank, this, diff), replacedItem)
    {
      UpdateItemWeight(diff, s, rank);
      replacedItem.Orphan(s);
    }

    method RemoveThing(item: Item, count: nat, ghost s: set<Item>, ghost rank: map<Item, nat>)
      requires this in s && item in s && Good(Snap(s), rank)
      modifies s`totalWeight, this`itemlist, item`kind, item`count, item`parent
      ensures WorldOf(s, rank) == Ops.RemoveThing(old(WorldOf(s, rank)), this, item, count)
    {
      var index := GetThingIndex(item);
      if index == -1 {
        return;
      }
      if item.kind.stackable && count != item.count {
        Change(item, item.kind, if item.count > count then item.count - count else 0, s, rank);
      } else {
        TakeOut(index, item, s, rank);
      }
    }

    method TakeOut(index: nat, item: Item, ghost s: set<Item>, ghost rank: map<Item, nat>)
      requires this in s && Good(Snap(s), rank) && index < |itemlist| && item == itemlist[index]
      modifies s`totalWeight, this`itemlist, item`parent
      ensures item in s && item != this
      ensures Snap(s) == Removed(old(Snap(s)), rank, this, index)
    {
      hide AddUp, Linked, Weighed, ItemTree.Unlink, Own;
      ghost var f := Snap(s);
      ChildFacts(f, rank, this, index);
      assert item in s && item != this && f[this].list[index] == item;
      UpdateItemWeight(-item.GetWeight(), s, rank);
      Unlink(index, item, s);
    }

    // ----- The queries

    /** Whether an item can be put here: above all, not into itself. The carrier of the outermost container,
        asked with FLAG_CHILDISOWNER, has no objection. */
    method QueryAdd(index: int, item: Item, flags: Flags, ghost s: set<Item>, ghost rank: map<Item, nat>)
      returns (r: ReturnValue)
      requires this in s && item in s && Ranked(Snap(s), rank)
      ensures r == Ops.QueryAdd(WorldOf(s, rank), this, index, item, flags)
    {
      if flags.childIsOwner {
        return NoError;
      }
      if !unlocked {
        return NotPossible;
      }
      if !item.kind.pickupable {
        return CannotPickup;
      }
      if item == this {
        return ThisIsImpossible;
      }
      ghost var f := Snap(s);
      assert Below(f, rank, this);
      var cylinder := parent;
      while cylinder != null
        invariant cylinder != null ==> cylinder in s
        invariant Above(f, rank, item, this) <==> cylinder != null && Above(f, rank, item, cylinder)
        decreases if cylinder == null then 0 else rank[cylinder] + 1
      {
        if cylinder == item {
          return ThisIsImpossible;
        }
        assert Below(f, rank, cylinder);
        cylinder := cylinder.parent;
      }
      if !flags.noLimit && index == WHEREEVER && |itemlist| >= capacity {
        return ContainerNotEnoughRoom;
      }
      return NoError;
    }

    /** How much of an item can be put here. */
    method QueryMaxCount(index: int, item: Item, count: nat, flags: Flags, ghost s: set<Item>,
        ghost rank: map<Item, nat>)
      returns (r: ReturnValue, maxQueryCount: nat)
      requires this in s && item in s && Good(Snap(s), rank)
      ensures maxQueryCount == MaxCount(WorldOf(s, rank), this, index, item, count, flags)
      ensures r == MaxCountReturn(item.kind, count, maxQueryCount, flags)
    {
      if flags.noLimit {
        return NoError, if count > 1 then count else 1;
      }
      var freeSlots := if capacity > |itemlist| then capacity - |itemlist| else 0;
      if item.kind.stackable {
        var n := 0;
        if index == WHEREEVER {
          n := StackRoom(item, flags, s, rank);
        } else if 0 <= index < |itemlist| {
          var destItem := itemlist[index];
          assert Holds(Snap(s), this) && destItem in s;
          if destItem.kind == item.kind && destItem.count < STACK {
            var ret := QueryAdd(index, item, flags, s, rank);
            if ret == NoError {
              n := STACK - destItem.count;
            }
          }
        }
        maxQueryCount := freeSlots * STACK + n;
        r := if maxQueryCount < count then ContainerNotEnoughRoom else NoError;
      } else {
        maxQueryCount := freeSlots;
        r := if maxQueryCount == 0 then ContainerNotEnoughRoom else NoError;
      }
    }

    /** What the stacks here can still take of an item. */
    method StackRoom(item: Item, flags: Flags, ghost s: set<Item>, ghost rank: map<Item, nat>) returns (n: nat)
      requires this in s && item in s && Good(Snap(s), rank)
      ensures Inside(Snap(s), itemlist)
      ensures var accepted := Ops.QueryAdd(WorldOf(s, rank), this, 0, item, flags) == NoError;
        n == if accepted then Room(Snap(s), itemlist, item) else 0
    {
      n := 0;
      ghost var f := Snap(s);
      ghost var accepted := Ops.QueryAdd(WorldOf(s, rank), this, 0, item, flags) == NoError;
      assert Holds(f, this);
      var i, slotIndex := 0, 0;
      while i < |itemlist|
        invariant 0 <= i <= |itemlist| && slotIndex >= 0
        invariant n + (if accepted then Room(f, itemlist[i..], item) else 0)
          == if accepted then Room(f, itemlist, item) else 0
      {
        var containerItem := itemlist[i];
        assert containerItem in s && itemlist[i..][1..] == itemlist[i + 1..];
        if containerItem != item && containerItem.kind == item.kind && containerItem.count < STACK {
          var ret := QueryAdd(slotIndex, item, flags, s, rank);
          slotIndex := slotIndex + 1;
          if ret == NoError {
            n := n + (STACK - containerItem.count);
          }
        }
        i := i + 1;
      }
    }

    method QueryRemove(item: Item, count: nat, flags: Flags, ghost s: set<Item>) returns (r: ReturnValue)
      requires this in s && item in s
      ensures r == Ops.QueryRemove(Snap(s), this, item, count, flags)
    {
      var index := GetThingIndex(item);
      if index == -1 {
        return NotPossible;
      }
      if count == 0 || (item.kind.stackable && count > item.count) {
        return NotPossible;
      }
      if !item.kind.moveable && !flags.ignoreNotMoveable {
        return NotMoveable;
      }
      return NoError;
    }

    /** The first stack here that an item can be put onto, or the number of items. */
    method FindStackFor(item: Item, ghost s: set<Item>) returns (n: nat)
      requires item in s && Inside(Snap(s), itemlist)
      ensures n == FindStack(Snap(s), itemlist, item)
    {
      ghost var f := Snap(s);
      n := 0;
      while n < |itemlist|
        invariant 0 <= n <= |itemlist|
        invariant n + FindStack(f, itemlist[n..], item) == FindStack(f, itemlist, item)
      {
        var listItem := itemlist[n];
        assert listItem in s && itemlist[n..][1..] == itemlist[n + 1..];
        if listItem != item && listItem.kind == item.kind && listItem.count < STACK {
          return;
        }
        n := n + 1;
      }
    }

    method QueryDestination(index: int, item: Item, flags: Flags, ghost s: set<Item>)
      returns (to: Item, index': int, destItem: Item?)
      requires this in s && item in s && Linked(Snap(s))
      ensures to in s && (destItem != null ==> destItem in s)
      ensures PlaceOf(to, index', destItem) == Destination(Snap(s), this, index, item, flags)
    {
      ghost var f := Snap(s);
      assert Holds(f, this) && Held(f, this);
      if !unlocked {
        return this, index, null;
      }
      if index == MOVE_UP {
        if parent != null {
          return parent, WHEREEVER, null;
        }
        return this, WHEREEVER, null;
      }
      index' := if index == ADD_WHEREVER || index >= capacity then WHEREEVER else index;
      if !flags.ignoreAutoStack && item.kind.stackable && item.parent != this {
        var n := FindStackFor(item, s);
        if n < |itemlist| {
          assert itemlist[n] in s;
          return this, n, itemlist[n];
        }
      }
      to, destItem := this, null;
      if 0 <= index' < |itemlist| {
        destItem := itemlist[index'];
        assert destItem in s;
        if destItem.holder {
          to, index', destItem := destItem, WHEREEVER, null;
        }
      }
    }
  }

  ghost function PlaceOf(to: Item, index: int, destItem: Item?): Place<Item>
  {
    var found: Option<Item> := if destItem == null then None else Some(destItem);
    Place(to, index, found)
  }

  ghost function Snap(s: set<Item>): (f: Forest<Item>)
    reads s
    ensures f.Keys == s
  {
    map x | x in s :: x.NodeOf()
  }

  ghost function WorldOf(s: set<Item>, rank: map<Item, nat>): World<Item>
    reads s
  {
    World(Snap(s), rank)
  }

  lemma {:induction false} IndexIs<K>(l: seq<K>, x: K, k: nat)
    requires k < |l| && l[k] == x && x !in l[..k]
    ensures IndexOf(l, x) == k
  {
    if k > 0 {
      assert l[0] == l[..k][0] && l[1..][..k - 1] == l[..k][1..];
      IndexIs(l[1..], x, k - 1);
    }
  }

  lemma {:induction false} PutIs(f: Forest<Item>, rank: map<Item, nat>, c: Item, x: Item, front: bool)
    requires Fits(World(f, rank), c, x)
    requires Ranked(Attach(f, c, x, front), Deeper(f, rank, x, rank[c] + 1))
    ensures Put(World(f, rank), c, x, front)
      == World(AddUp(Attach(f, c, x, front), Deeper(f, rank, x, rank[c] + 1), c, Weight(f, x)),
               Deeper(f, rank, x, rank[c] + 1))
  {
  }

  lemma {:induction false} ReplacedIs(f: Forest<Item>, rank: map<Item, nat>, c: Item, k: nat, x: Item)
    requires Placeable(f, rank, c, k, x)
    requires Ranked(Displace(f, c, k, x), Deeper(f, rank, x, rank[c] + 1))
    ensures Ops.ReplaceThing(World(f, rank), c, k, x)
      == World(Orphan(AddUp(Displace(f, c, k, x), Deeper(f, rank, x, rank[c] + 1), c,
                            -Weight(f, f[c].list[k]) + Weight(f, x)),
                      f[c].list[k]),
               Deeper(f, rank, x, rank[c] + 1))
  {
  }
}
