/** The four buckets in which decaying items wait, one of which is looked at every 250 milliseconds. */
module DecayWheel {
  import opened Common

  /** Milliseconds between two looks, and the number of buckets. */
  const INTERVAL := 250

  const BUCKETS := 4

  const ROUND := INTERVAL * BUCKETS

  /** How many ticks after its filing an item with a given duration decays. */
  function FiresIn(duration: nat): nat
  {
    if duration < ROUND then 1
    else BUCKETS * (duration / ROUND) + if duration % ROUND >= ROUND - INTERVAL / 2 then 1 else 0
  }

  /** That is never a quarter second too late, nor seven eighths of a second too early. */
  lemma {:induction false} FiresInTime(duration: nat)
    requires duration > 0
    ensures -INTERVAL < duration - INTERVAL * FiresIn(duration) < ROUND - INTERVAL / 2
  {
  }

  /** The ticks until bucket `b` is looked at, when `last` was the last one. */
  function Wait(b: nat, last: nat): (w: nat)
    requires b < BUCKETS && last < BUCKETS
    ensures 1 <= w <= BUCKETS
  {
    (b + BUCKETS - 1 - last) % BUCKETS + 1
  }

  /** The ticks that pass after the next look at an item before it decays. */
  function After(duration: nat): nat
  {
    if duration <= ROUND then 0
    else if duration - ROUND < ROUND then if duration - ROUND >= ROUND - INTERVAL / 2 then 1 else 0
    else BUCKETS + After(duration - ROUND)
  }

  lemma {:induction false} AfterIs(duration: nat)
    ensures duration < ROUND ==> After(duration) + 1 == FiresIn(duration)
    ensures duration >= ROUND ==> After(duration) + BUCKETS == FiresIn(duration)
  {
    if duration >= 2 * ROUND {
      AfterIs(duration - ROUND);
      assert duration / ROUND == (duration - ROUND) / ROUND + 1;
      assert duration % ROUND == (duration - ROUND) % ROUND;
    }
  }

  /** What a look does to an item of which `duration` was left: a second passes; then it decays if nothing is
      left, or less than a second and no more than to be rounded down; it moves on, or it stays. */
  lemma {:induction false} Passes(duration: nat, bucket: nat)
    requires duration > 0 && bucket < BUCKETS
    ensures var left := duration - if ROUND < duration then ROUND else duration;
      var newBucket := (bucket + (left + INTERVAL / 2) / 1000) % BUCKETS;
      if left == 0 then After(duration) == 0
      else if left >= ROUND then After(duration) == Wait(bucket, bucket) + After(left)
      else if newBucket == bucket then After(duration) == 0
      else newBucket < BUCKETS && After(duration) == 1 == Wait(newBucket, bucket) + After(left)
  {
    if ROUND < duration < 2 * ROUND {
      var left := duration - ROUND;
      if left < ROUND - INTERVAL / 2 {
        assert (left + INTERVAL / 2) / 1000 == 0;
      } else {
        assert (left + INTERVAL / 2) / 1000 == 1;
      }
    }
  }

  /** The bucket that an item is filed in, and when it decays there. */
  lemma {:induction false} FilesIn(duration: nat, last: nat)
    requires last < BUCKETS
    ensures duration >= ROUND ==> Wait(last, last) + After(duration) == FiresIn(duration)
    ensures duration < ROUND ==> var b := (last + 1 + duration / 1000) % BUCKETS;
      b < BUCKETS && Wait(b, last) + After(duration) == FiresIn(duration)
  {
    AfterIs(duration);
    if duration < ROUND {
      assert duration / 1000 == 0;
    }
  }

  // ----- The timetable: what the buckets are there for, without buckets

  /** Where an item stands: it is gone or cannot decay, it is not decaying, it has been noted, or it has been
      filed and will decay at a tick. What it still turns into are durations. */
  datatype Clock =
    | Gone
    | Idle(left: nat, stages: seq<nat>)
    | Noted(left: nat, stages: seq<nat>)
    | Filed(due: nat, stages: seq<nat>)

  /** An item begins to decay; one without time left turns into the next at once. */
  function Begun(left: nat, stages: seq<nat>): Clock
    decreases |stages|
  {
    if left > 0 then Noted(left, stages) else if stages == [] then Gone else Begun(stages[0], stages[1..])
  }

  function Started(c: Clock): Clock
  {
    if c.Idle? then Begun(c.left, c.stages) else c
  }

  /** An item turns into the next, which begins to decay, or is removed. */
  function Turned(stages: seq<nat>): Clock
  {
    if stages == [] then Gone else Begun(stages[0], stages[1..])
  }

  function FiledAt(c: Clock, now: nat): Clock
  {
    if c.Noted? then Filed(now + FiresIn(c.left), c.stages) else c
  }

  predicate IsDue(c: Clock, now: nat)
  {
    c.Filed? && c.due == now
  }

  function DueTurned(c: Clock, now: nat): Clock
  {
    if IsDue(c, now) then Turned(c.stages) else c
  }

  /** What a look, which makes it tick `now`, does to an item. */
  function LookedAt(c: Clock, now: nat): Clock
  {
    FiledAt(DueTurned(c, now), now)
  }

  // ----- The buckets

  class Item {
    var duration: nat
    /** The decay state `DECAYING_TRUE`. */
    var decaying: bool
    /** Whether `canDecay` holds. */
    var alive: bool
    /** The durations of the items it will still turn into; after the last it is removed. */
    var stages: seq<nat>
    /** The list it is in: a bucket, the list of new items (4), or none (-1). */
    ghost var where: int
    /** The tick at which it decays, known once it is in a bucket. */
    ghost var due: nat

    constructor (duration: nat, stages: seq<nat>)
      ensures this.duration == duration && this.stages == stages && alive && !decaying && where == -1
    {
      this.duration, this.stages, alive, decaying, where, due := duration, stages, true, false, -1, 0;
    }
  }

  const NEW_ITEMS := 4

  ghost function ClockOf(x: Item): Clock
    reads x
  {
    if !x.alive then Gone
    else if x.where == -1 then Idle(x.duration, x.stages)
    else if x.where == NEW_ITEMS then Noted(x.duration, x.stages)
    else Filed(x.due, x.stages)
  }

  /** An item of bucket `b` will decay when it is due; `t` looks have been made, the last at bucket `last`. */
  ghost predicate Waits(x: Item, b: nat, t: nat, last: nat)
    requires b < BUCKETS && last < BUCKETS
    reads x
  {
    x.where == b && x.duration > 0 && x.due == t + Wait(b, last) + After(x.duration)
  }

  ghost predicate AllWait(l: seq<Item>, b: nat, t: nat, last: nat)
    requires b < BUCKETS && last < BUCKETS
    reads l
  {
    NoDup(l) && forall i :: 0 <= i < |l| ==> Waits(l[i], b, t, last)
  }

  /** An item of the bucket that is being looked at, for the `t`th time. */
  ghost predicate Pending(x: Item, bucket: nat, t: nat)
    reads x
  {
    x.where == bucket && x.duration > 0 && x.due == t + After(x.duration)
  }

  /** Of the bucket looked at, `i` items are done and wait for the next round. */
  ghost predicate Looking(l: seq<Item>, bucket: nat, i: nat, t: nat)
    requires bucket < BUCKETS
    reads l
  {
    && NoDup(l) && i <= |l|
    && (forall k :: 0 <= k < i ==> Waits(l[k], bucket, t, bucket))
    && (forall k :: i <= k < |l| ==> Pending(l[k], bucket, t))
  }

  /** The bucket looked at next, and what that does to the time the others wait. */
  lemma {:induction false} NextBucket(b: nat, last: nat)
    requires b < BUCKETS && last < BUCKETS
    ensures var bucket := (last + 1) % BUCKETS; Wait(b, last) == if b == bucket then 1 else 1 + Wait(b, bucket)
  {
  }

  ghost predicate AllNew(l: seq<Item>)
    reads l
  {
    NoDup(l) && forall i :: 0 <= i < |l| ==> l[i].where == NEW_ITEMS && l[i].duration > 0
  }

  ghost predicate Inside(l: seq<Item>, items: set<Item>)
  {
    forall i :: 0 <= i < |l| ==> l[i] in items
  }

  class Wheel {
    const decayItems: array<seq<Item>>
    var toDecayItems: seq<Item>
    var lastBucket: nat
    /** The number of looks so far. */
    ghost var now: nat
    ghost const items: set<Item>

    constructor (ghost items: set<Item>)
      requires forall x :: x in items ==> !x.decaying && x.where == -1
      ensures Valid() && fresh(decayItems) && now == 0 && toDecayItems == [] && this.items == items
    {
      decayItems := new seq<Item>[BUCKETS](i => []);
      toDecayItems, lastBucket, now, this.items := [], 0, 0, items;
      new;
      forall x | x in items ensures Placed(x) {
      }
    }

    ghost predicate Shape()
      reads this, decayItems
    {
      && decayItems.Length == BUCKETS && lastBucket < BUCKETS
      && Inside(toDecayItems, items) && forall b :: 0 <= b < BUCKETS ==> Inside(decayItems[b], items)
    }

    ghost predicate Buckets(t: nat, last: nat)
      requires Shape() && last < BUCKETS
      reads this, decayItems, items
    {
      forall b {:trigger decayItems[b]} :: 0 <= b < BUCKETS ==> AllWait(decayItems[b], b, t, last)
    }

    /** An item is in the list it should be in, and marked as decaying exactly if it is in one. */
    ghost predicate Placed(x: Item)
      requires Shape()
      reads this, decayItems, x
    {
      && x.decaying == (x.where != -1) && -1 <= x.where <= NEW_ITEMS
      && (x.where == NEW_ITEMS ==> x in toDecayItems)
      && (0 <= x.where < BUCKETS ==> x in decayItems[x.where])
    }

    ghost predicate AllPlaced()
      requires Shape()
      reads this, decayItems, items
    {
      forall x {:trigger Placed(x)} :: x in items ==> Placed(x)
    }

    /** Every item is in the list it should be in and in no other, and each in a bucket will decay when it is
        due. */
    ghost predicate Valid()
      reads this, decayItems, items
    {
      Shape() && AllNew(toDecayItems) && Buckets(now, lastBucket) && AllPlaced()
    }

    /** Marks an item as decaying and notes it as new, unless it is marked already; one without time left
        decays at once. */
    method StartDecay(item: Item)
      requires Shape() && AllNew(toDecayItems) && item in items && Placed(item)
      modifies this`toDecayItems, item
      ensures Shape() && AllNew(toDecayItems) && Placed(item)
      ensures ClockOf(item) == Started(old(ClockOf(item)))
      ensures old(item.decaying) || !old(item.alive) ==> toDecayItems == old(toDecayItems) && unchanged(item)
      ensures !old(item.decaying) && old(item.alive) && old(item.duration) > 0 ==>
        item.decaying && toDecayItems == [item] + old(toDecayItems) && item.duration == old(item.duration)
      ensures toDecayItems == old(toDecayItems) || toDecayItems == [item] + old(toDecayItems)
      decreases |item.stages|, 1
    {
      if !item.alive {
        return;
      }
      if item.decaying {
        return;
      }
      if item.duration > 0 {
        item.decaying := true;
        item.where := NEW_ITEMS;
        toDecayItems := [item] + toDecayItems;
      } else {
        InternalDecayItem(item);
      }
    }

    /** An item in no list turns into the next, which starts to decay in turn, or is removed. */
    method InternalDecayItem(item: Item)
      requires Shape() && AllNew(toDecayItems) && item in items && item.where == -1 && item.alive
      modifies this`toDecayItems, item
      ensures Shape() && AllNew(toDecayItems) && Placed(item)
      ensures ClockOf(item) == Turned(old(item.stages))
      ensures toDecayItems == old(toDecayItems) || toDecayItems == [item] + old(toDecayItems)
      decreases |item.stages|, 0
    {
      if item.stages == [] {
        item.alive := false;
        item.decaying := false;
      } else {
        item.duration, item.stages := item.stages[0], item.stages[1..];
        item.decaying := false;
        StartDecay(item);
      }
    }

    /** Puts an item that is in no bucket at the end of one. */
    method PushBack(b: nat, item: Item, ghost t: nat, ghost last: nat)
      requires Shape() && b < BUCKETS && last < BUCKETS && AllWait(decayItems[b], b, t, last)
      requires item in items && item.where !in {0, 1, 2, 3} && item.decaying && item.duration > 0
      modifies decayItems, item`where, item`due
      ensures Shape() && AllWait(decayItems[b], b, t, last) && item.where == b && Placed(item)
      ensures item.due == t + Wait(b, last) + After(item.duration)
      ensures decayItems[b] == old(decayItems[b]) + [item]
      ensures forall b' :: 0 <= b' < BUCKETS && b' != b ==> decayItems[b'] == old(decayItems[b'])
    {
      decayItems[b] := decayItems[b] + [item];
      item.where := b;
      item.due := t + Wait(b, last) + After(item.duration);
    }

    /** Files the items that have started to decay since the last time, and touches no other. */
    method Cleanup()
      requires Valid()
      modifies this`toDecayItems, decayItems, items
      ensures Valid() && toDecayItems == []
      ensures forall x :: x in items ==> ClockOf(x) == FiledAt(old(ClockOf(x)), now)
      ensures forall x :: x in items && x !in old(toDecayItems) ==> unchanged(x)
      ensures forall x :: x in old(toDecayItems) ==>
        x.where in {0, 1, 2, 3} && x.due == now + FiresIn(x.duration) && x.duration == old(x.duration)
    {
      hide FiresIn, AllWait;
      var i: nat := 0;
      while i < |toDecayItems|
        invariant 0 <= i <= |toDecayItems| && toDecayItems == old(toDecayItems) && NoDup(toDecayItems)
        invariant Shape() && Buckets(now, lastBucket) && AllPlaced()
        invariant forall x :: x in items && x !in toDecayItems[..i] ==> unchanged(x)
        invariant forall k :: 0 <= k < i ==> NewlyFiled(toDecayItems[k])
      {
        assert toDecayItems[i] !in toDecayItems[..i] && Placed(toDecayItems[i]);
        FileItem(toDecayItems[i]);
        i := i + 1;
      }
      forall x | x in items ensures x.where != NEW_ITEMS && ClockOf(x) == FiledAt(old(ClockOf(x)), now) {
        assert Placed(x) && old(Placed(x));
        if x in toDecayItems[..i] {
          assert NewlyFiled(x);
        }
      }
      Empty();
    }

    /** No item is new any more. */
    method Empty()
      requires Shape() && Buckets(now, lastBucket) && AllPlaced() && forall x :: x in items ==> x.where != NEW_ITEMS
      modifies this`toDecayItems
      ensures Valid() && toDecayItems == []
    {
      toDecayItems := [];
      forall x | x in items ensures Placed(x) {
        assert old(Placed(x));
      }
    }

    /** An item that has been new is in a bucket and will decay when its duration says. */
    twostate predicate NewlyFiled(x: Item)
      reads this, x
    {
      x.where in {0, 1, 2, 3} && x.due == now + FiresIn(x.duration)
      && x.duration == old(x.duration) && x.alive == old(x.alive) && x.stages == old(x.stages)
    }

    method FileItem(item: Item)
      requires Shape() && Buckets(now, lastBucket) && AllPlaced()
      requires item in items && item.where !in {0, 1, 2, 3} && item.decaying && item.duration > 0
      modifies decayItems, item`where, item`due
      ensures Shape() && Buckets(now, lastBucket) && AllPlaced()
      ensures item.where in {0, 1, 2, 3} && item.due == now + FiresIn(item.duration)
    {
      FilesIn(item.duration, lastBucket);
      assert Placed(item);
      if item.duration >= ROUND {
        PushBack(lastBucket, item, now, lastBucket);
      } else {
        PushBack((lastBucket + 1 + item.duration / 1000) % BUCKETS, item, now, lastBucket);
      }
      forall x | x in items ensures Placed(x) {
        assert x != item ==> old(Placed(x));
      }
    }

    /** What holds of all other buckets and items while a bucket is looked at. */
    ghost predicate Elsewhere(bucket: nat, t: nat, but: set<Item>)
      reads this, decayItems, items
    {
      && Shape() && AllNew(toDecayItems) && bucket < BUCKETS
      && (forall b {:trigger decayItems[b]} :: 0 <= b < BUCKETS && b != bucket ==> AllWait(decayItems[b], b, t, bucket))
      && (forall x {:trigger Placed(x)} :: x in items && x !in but ==> Placed(x))
    }

    ghost predicate Halfway(bucket: nat, i: nat, t: nat)
      reads this, decayItems, items
    {
      Elsewhere(bucket, t, {}) && Looking(decayItems[bucket], bucket, i, t)
    }

    /** Item `i` of the bucket is in hand. */
    ghost predicate InHand(bucket: nat, i: nat, t: nat, item: Item)
      reads this, decayItems, items
    {
      && Elsewhere(bucket, t, {item}) && item in items && item.where == bucket && item.decaying
      && var l := decayItems[bucket];
      && NoDup(l) && i < |l| && l[i] == item
      && (forall k :: 0 <= k < i ==> Waits(l[k], bucket, t, bucket))
      && (forall k :: i < k < |l| ==> Pending(l[k], bucket, t))
    }

    /** It has been taken out. */
    ghost predicate TakenOut(bucket: nat, i: nat, t: nat, item: Item)
      reads this, decayItems, items
    {
      && Elsewhere(bucket, t, {item}) && item in items && item.where == -1 && item.decaying
      && Looking(decayItems[bucket], bucket, i, t)
    }

    /** Takes an item out of the bucket that is being looked at. */
    method Erase(bucket: nat, i: nat, ghost t: nat, ghost item: Item)
      requires InHand(bucket, i, t, item)
      modifies decayItems, item`where
      ensures TakenOut(bucket, i, t, item)
      ensures decayItems[bucket] == old(decayItems[bucket][..i] + decayItems[bucket][i + 1..])
    {
      ghost var l := decayItems[bucket];
      decayItems[bucket] := decayItems[bucket][..i] + decayItems[bucket][i + 1..];
      item.where := -1;
      Others(l, i);
      forall x | x in items && x != item ensures Placed(x) {
        assert old(Placed(x));
      }
    }

    /** An item taken out decays. */
    method Decay(bucket: nat, i: nat, ghost t: nat, item: Item)
      requires TakenOut(bucket, i, t, item) && item.alive
      modifies this`toDecayItems, item
      ensures Halfway(bucket, i, t) && ClockOf(item) == Turned(old(item.stages))
    {
      InternalDecayItem(item);
      forall x | x in items ensures Placed(x) {
        assert x != item ==> old(Placed(x));
      }
    }

    /** An item taken out goes to another bucket. */
    method MoveTo(newBucket: nat, bucket: nat, i: nat, ghost t: nat, item: Item)
      requires TakenOut(bucket, i, t, item) && newBucket < BUCKETS && newBucket != bucket && item.duration > 0
      modifies decayItems, item`where, item`due
      ensures Halfway(bucket, i, t) && decayItems[bucket] == old(decayItems[bucket])
      ensures item.where == newBucket && item.due == t + Wait(newBucket, bucket) + After(item.duration)
    {
      PushBack(newBucket, item, t, bucket);
      forall x | x in items ensures Placed(x) {
        assert x != item ==> old(Placed(x));
      }
    }

    /** The item looked at next. */
    lemma {:induction false} Grasp(bucket: nat, i: nat, t: nat, item: Item)
      requires Halfway(bucket, i, t) && i < |decayItems[bucket]| && item == decayItems[bucket][i]
      ensures InHand(bucket, i, t, item) && Pending(item, bucket, t)
    {
      assert Placed(item);
    }

    /** Time passes for the item in hand. */
    method DecreaseDuration(bucket: nat, i: nat, ghost t: nat, item: Item, time: nat)
      requires InHand(bucket, i, t, item) && time <= item.duration
      modifies item`duration
      ensures InHand(bucket, i, t, item) && item.duration == old(item.duration) - time
    {
      item.duration := item.duration - time;
      forall x | x in items && x != item ensures Placed(x) {
        assert old(Placed(x));
      }
    }

    /** An item that stays waits for the next round. */
    lemma {:induction false} Stays(bucket: nat, i: nat, t: nat, item: Item)
      requires InHand(bucket, i, t, item) && Waits(item, bucket, t, bucket)
      ensures Halfway(bucket, i + 1, t)
    {
      assert Placed(item);
    }

    /** An item that can no longer decay is dropped. */
    method Drop(bucket: nat, i: nat, ghost t: nat, item: Item)
      requires InHand(bucket, i, t, item)
      modifies decayItems, item
      ensures Halfway(bucket, i, t) && item.alive == old(item.alive)
      ensures decayItems[bucket] == old(decayItems[bucket][..i] + decayItems[bucket][i + 1..])
    {
      Erase(bucket, i, t, item);
      item.decaying := false;
      forall x | x in items ensures Placed(x) {
        assert x != item ==> old(Placed(x));
      }
    }

    /** One look at one item: it decays, moves on, is dropped or stays for another round. */
    method LookAt(bucket: nat, i: nat, ghost t: nat) returns (erased: bool, fired: bool)
      requires Halfway(bucket, i, t) && i < |decayItems[bucket]|
      modifies this`toDecayItems, decayItems, decayItems[bucket][i]
      ensures Halfway(bucket, if erased then i else i + 1, t)
      ensures decayItems[bucket] ==
        old(if erased then decayItems[bucket][..i] + decayItems[bucket][i + 1..] else decayItems[bucket])
      ensures fired == IsDue(old(ClockOf(decayItems[bucket][i])), t)
      ensures ClockOf(old(decayItems[bucket][i])) == DueTurned(old(ClockOf(decayItems[bucket][i])), t)
    {
      var item := decayItems[bucket][i];
      Grasp(bucket, i, t, item);
      hide Halfway, After, Wait, Turned, TakenOut;
      if !item.alive {
        Drop(bucket, i, t, item);
        return true, false;
      }
      Passes(item.duration, bucket);
      var decreaseTime := if ROUND < item.duration then ROUND else item.duration;
      assert item.where == bucket && item.due == t + After(item.duration) && bucket < BUCKETS;
      hide InHand;
      DecreaseDuration(bucket, i, t, item, decreaseTime);
      if item.duration == 0 {
        Erase(bucket, i, t, item);
        Decay(bucket, i, t, item);
        return true, true;
      }
      if item.duration < ROUND {
        Erase(bucket, i, t, item);
        var newBucket := (bucket + (item.duration + INTERVAL / 2) / 1000) % BUCKETS;
        if newBucket == bucket {
          Decay(bucket, i, t, item);
          return true, true;
        }
        MoveTo(newBucket, bucket, i, t, item);
        return true, false;
      }
      Stays(bucket, i, t, item);
      return false, false;
    }

    /** The next item of those in `todo`; erased or not, the items after it follow. */
    method LookOn(bucket: nat, i: nat, ghost t: nat, ghost todo: seq<Item>, ghost n: nat)
      returns (i': nat, decayed: bool)
      requires Halfway(bucket, i, t) && i < |decayItems[bucket]|
      requires n < |todo| && decayItems[bucket][i..] == todo[n..]
      modifies this`toDecayItems, decayItems, todo[n]
      ensures Halfway(bucket, i', t) && i' <= |decayItems[bucket]| && decayItems[bucket][i'..] == todo[n + 1..]
      ensures decayed == IsDue(old(ClockOf(todo[n])), t)
      ensures ClockOf(todo[n]) == DueTurned(old(ClockOf(todo[n])), t)
    {
      assert decayItems[bucket][i] == todo[n..][0] && decayItems[bucket][i..][1..] == todo[n..][1..];
      var erased;
      erased, decayed := LookAt(bucket, i, t);
      i' := if erased then i else i + 1;
    }

    /** Looks at every item of a bucket. */
    method LookThrough(bucket: nat, ghost t: nat) returns (ghost fired: set<Item>)
      requires Halfway(bucket, 0, t)
      modifies this`toDecayItems, decayItems, items
      ensures Shape() && Halfway(bucket, |decayItems[bucket]|, t)
      ensures forall x :: x in old(decayItems[bucket]) ==> ClockOf(x) == DueTurned(old(ClockOf(x)), t)
      ensures forall x :: x in items && x !in old(decayItems[bucket]) ==> unchanged(x)
      ensures forall x :: x in fired <==> x in old(decayItems[bucket]) && IsDue(old(ClockOf(x)), t)
    {
      fired := {};
      ghost var todo := decayItems[bucket];
      var i: nat := 0;
      ghost var n: nat := 0;
      while i < |decayItems[bucket]|
        invariant Halfway(bucket, i, t) && i <= |decayItems[bucket]|
        invariant n <= |todo| && decayItems[bucket][i..] == todo[n..] && NoDup(todo)
        invariant forall k :: 0 <= k < n ==> ClockOf(todo[k]) == DueTurned(old(ClockOf(todo[k])), t)
        invariant forall x :: x in items && x !in todo[..n] ==> unchanged(x)
        invariant forall x :: x in fired <==> x in todo[..n] && IsDue(old(ClockOf(x)), t)
        decreases |todo| - n
      {
        var decayed;
        assert todo[n] !in todo[..n];
        i, decayed := LookOn(bucket, i, t, todo, n);
        if decayed {
          fired := fired + {todo[n]};
        }
        n := n + 1;
      }
      assert todo[..n] == todo;
    }

    /** The look every 250 milliseconds. Exactly the items that are due now decay, and those that have started
        to decay are filed. */
    method CheckDecay() returns (ghost fired: set<Item>)
      requires Valid()
      modifies this`toDecayItems, this`lastBucket, this`now, decayItems, items
      ensures Valid() && now == old(now) + 1 && lastBucket == (old(lastBucket) + 1) % BUCKETS && toDecayItems == []
      ensures forall x :: x in fired <==> x in items && IsDue(old(ClockOf(x)), now)
      ensures forall x :: x in items ==> ClockOf(x) == LookedAt(old(ClockOf(x)), now)
    {
      hide Halfway, Turned, FiresIn, AllWait, AllNew, AllPlaced;
      var bucket := (lastBucket + 1) % BUCKETS;
      ghost var t := now + 1;
      StartLook(bucket, t);
      fired := LookThrough(bucket, t);
      EndLook(bucket, t);
      Cleanup();
    }

    /** All items of the bucket have been looked at. */
    method EndLook(bucket: nat, ghost t: nat)
      requires bucket < BUCKETS && Shape() && Halfway(bucket, |decayItems[bucket]|, t)
      modifies this`lastBucket, this`now
      ensures Valid() && lastBucket == bucket && now == t
    {
      assert AllWait(decayItems[bucket], bucket, t, bucket);
      lastBucket := bucket;
      now := t;
      forall x | x in items ensures Placed(x) {
        assert old(Placed(x));
      }
    }

    /** When a bucket is looked at, its items are the only ones that may be due. */
    lemma {:induction false} StartLook(bucket: nat, t: nat)
      requires Valid() && bucket == (lastBucket + 1) % BUCKETS && t == now + 1
      ensures Halfway(bucket, 0, t)
      ensures forall x :: x in items && IsDue(ClockOf(x), t) ==> x in decayItems[bucket]
    {
      forall b | 0 <= b < BUCKETS ensures Wait(b, lastBucket) == if b == bucket then 1 else 1 + Wait(b, bucket) {
        NextBucket(b, lastBucket);
      }
      forall x | x in items && IsDue(ClockOf(x), t) ensures x in decayItems[bucket] {
        assert Placed(x);
      }
    }
  }

  /** What is not erased from a list stays in it. */
  lemma {:induction false} Others(l: seq<Item>, i: nat)
    requires i < |l| && NoDup(l)
    ensures NoDup(l[..i] + l[i + 1..]) && l[i] !in l[..i] + l[i + 1..]
    ensures forall x :: x in l && x != l[i] ==> x in l[..i] + l[i + 1..]
  {
    forall x | x in l && x != l[i] ensures x in l[..i] + l[i + 1..] {
      var k :| 0 <= k < |l| && l[k] == x;
      assert (l[..i] + l[i + 1..])[if k < i then k else k - 1] == x;
    }
  }

  // ----- Runs

  /** What happens to the wheel: an item is told to decay, a look, the tidying up after other events, or an item
      is removed by someone else. */
  datatype Step = Start(item: Item) | Look | Tidy | Remove(item: Item)

  function Looks(steps: seq<Step>): nat
  {
    if steps == [] then 0 else Looks(steps[..|steps| - 1]) + if steps[|steps| - 1].Look? then 1 else 0
  }

  /** What a step makes of an item, by the timetable, when `now` looks have been made. */
  function Then(x: Item, c: Clock, now: nat, s: Step): Clock
  {
    match s
    case Start(y) => if x == y then Started(c) else c
    case Look => LookedAt(c, now + 1)
    case Tidy => FiledAt(c, now)
    case Remove(y) => if x == y then Gone else c
  }

  /** What steps make of an item, by the timetable. */
  function Course(x: Item, c: Clock, now: nat, steps: seq<Step>): Clock
  {
    if steps == [] then c
    else
      var before := steps[..|steps| - 1];
      Then(x, Course(x, c, now, before), now + Looks(before), steps[|steps| - 1])
  }

  /** Whether an item decays in step `k`, by the timetable. */
  predicate DecaysIn(x: Item, c: Clock, now: nat, steps: seq<Step>, k: nat)
    requires k < |steps|
  {
    steps[k].Look? && IsDue(Course(x, c, now, steps[..k]), now + Looks(steps[..k]) + 1)
  }

  lemma {:induction false} LooksMore(steps: seq<Step>, n: nat)
    requires n < |steps|
    ensures Looks(steps[..n + 1]) == Looks(steps[..n]) + if steps[n].Look? then 1 else 0
  {
    assert steps[..n + 1][..n] == steps[..n] && steps[..n + 1][n] == steps[n];
  }

  lemma {:induction false} OneMore(x: Item, c: Clock, now: nat, steps: seq<Step>, n: nat)
    requires n < |steps|
    ensures Course(x, c, now, steps[..n + 1])
      == Then(x, Course(x, c, now, steps[..n]), now + Looks(steps[..n]), steps[n])
  {
    assert steps[..n + 1][..n] == steps[..n] && steps[..n + 1][n] == steps[n];
  }

  /** Over every run, the wheel keeps to the timetable: exactly the items that are due decay in a step. */
  method Run(wheel: Wheel, steps: seq<Step>) returns (ghost fired: seq<set<Item>>)
    requires wheel.Valid()
    requires forall k :: 0 <= k < |steps| && (steps[k].Start? || steps[k].Remove?) ==> steps[k].item in wheel.items
    modifies wheel, wheel.decayItems, wheel.items
    ensures wheel.Valid() && wheel.now == old(wheel.now) + Looks(steps) && |fired| == |steps|
    ensures forall x :: x in wheel.items ==> ClockOf(x) == Course(x, old(ClockOf(x)), old(wheel.now), steps)
    ensures forall k, x :: 0 <= k < |steps| && x in wheel.items ==>
      (x in fired[k] <==> DecaysIn(x, old(ClockOf(x)), old(wheel.now), steps, k))
  {
    fired := [];
    var i := 0;
    while i < |steps|
      invariant 0 <= i == |fired| <= |steps| && wheel.Valid() && wheel.now == old(wheel.now) + Looks(steps[..i])
      invariant forall x :: x in wheel.items ==> ClockOf(x) == Course(x, old(ClockOf(x)), old(wheel.now), steps[..i])
      invariant forall k, x :: 0 <= k < i && x in wheel.items ==>
        (x in fired[k] <==> DecaysIn(x, old(ClockOf(x)), old(wheel.now), steps, k))
    {
      hide Course, Then, IsDue;
      ghost var f := DoStep(wheel, steps[i]);
      forall x | x in wheel.items
        ensures ClockOf(x) == Course(x, old(ClockOf(x)), old(wheel.now), steps[..i + 1])
        ensures x in f <==> DecaysIn(x, old(ClockOf(x)), old(wheel.now), steps, i)
      {
        OneMore(x, old(ClockOf(x)), old(wheel.now), steps, i);
      }
      LooksMore(steps, i);
      fired := fired + [f];
      i := i + 1;
    }
    assert steps[..i] == steps;
  }

  method DoStep(wheel: Wheel, s: Step) returns (ghost fired: set<Item>)
    requires wheel.Valid() && (s.Start? || s.Remove? ==> s.item in wheel.items)
    modifies wheel, wheel.decayItems, wheel.items
    ensures wheel.Valid() && wheel.now == old(wheel.now) + if s.Look? then 1 else 0
    ensures forall x :: x in wheel.items ==> ClockOf(x) == Then(x, old(ClockOf(x)), old(wheel.now), s)
    ensures forall x :: x in wheel.items ==>
      (x in fired <==> s.Look? && IsDue(old(ClockOf(x)), old(wheel.now) + 1))
  {
    fired := {};
    match s {
      case Start(item) =>
        assert wheel.Placed(item);
        wheel.StartDecay(item);
        forall x | x in wheel.items ensures wheel.Placed(x) {
          assert x != item ==> old(wheel.Placed(x));
        }
      case Look =>
        fired := wheel.CheckDecay();
      case Tidy =>
        wheel.Cleanup();
      case Remove(item) =>
        item.alive := false;
        forall x | x in wheel.items ensures wheel.Placed(x) {
          assert old(wheel.Placed(x));
        }
    }
  }

  predicate NotRemoved(x: Item, steps: seq<Step>)
  {
    forall k :: 0 <= k < |steps| ==> steps[k] != Remove(x)
  }

  /** An item with time left that is told to decay in the first step, is filed in step `f` and is not removed
      decays at the tick of its filing plus the ticks of its duration, and at none before; whatever else
      happens meanwhile, and however often it is told to decay again. */
  lemma {:induction false} DecaysWhenDue(x: Item, c: Clock, now: nat, steps: seq<Step>, f: nat, k: nat)
    requires c.Idle? && c.left > 0 && 0 < f < |steps| && steps[0] == Start(x)
    requires steps[f].Look? || steps[f].Tidy?
    requires forall j :: 0 < j < f ==> !steps[j].Look? && !steps[j].Tidy?
    requires k < |steps| && NotRemoved(x, steps[..k])
    requires now + Looks(steps[..k]) < now + Looks(steps[..f + 1]) + FiresIn(c.left)
    ensures DecaysIn(x, c, now, steps, k) <==>
      steps[k].Look? && now + Looks(steps[..k + 1]) == now + Looks(steps[..f + 1]) + FiresIn(c.left)
  {
    assert steps[..k + 1][..k] == steps[..k];
    InTime(x, c, now, steps, f, k);
  }

  /** Until it decays, the item has been noted before the filing and is filed after it. */
  lemma {:induction false} InTime(x: Item, c: Clock, now: nat, steps: seq<Step>, f: nat, k: nat)
    requires c.Idle? && c.left > 0 && 0 < f < |steps| && steps[0] == Start(x)
    requires steps[f].Look? || steps[f].Tidy?
    requires forall j :: 0 < j < f ==> !steps[j].Look? && !steps[j].Tidy?
    requires k <= |steps| && NotRemoved(x, steps[..k])
    requires Looks(steps[..k]) < Looks(steps[..f + 1]) + FiresIn(c.left)
    ensures k <= f ==> Looks(steps[..k]) == 0
    ensures Course(x, c, now, steps[..k]) ==
      if k == 0 then c
      else if k <= f then Noted(c.left, c.stages)
      else Filed(now + Looks(steps[..f + 1]) + FiresIn(c.left), c.stages)
  {
    if k > 0 {
      assert steps[..k][..k - 1] == steps[..k - 1];
      assert steps[..k][k - 1] == steps[k - 1];
      InTime(x, c, now, steps, f, k - 1);
    }
  }

  // ----- Through all stages

  /** The stages that last any time; others are passed over. */
  function Lasting(stages: seq<nat>): (ds: seq<nat>)
  {
    if stages == [] then [] else (if stages[0] > 0 then [stages[0]] else []) + Lasting(stages[1..])
  }

  /** `tick` is one of those at which an item decays that is filed at tick `filed` and lasts for `ds`, one duration
      after the other. */
  predicate Falls(filed: nat, ds: seq<nat>, tick: nat)
    decreases |ds|
  {
    ds != [] && (tick == filed + FiresIn(ds[0]) || Falls(filed + FiresIn(ds[0]), ds[1..], tick))
  }

  /** The tick at which it is gone. */
  function Ends(filed: nat, ds: seq<nat>): nat
    decreases |ds|
  {
    if ds == [] then filed else Ends(filed + FiresIn(ds[0]), ds[1..])
  }

  /** After `tick` looks, `c` is where such an item should be. */
  ghost predicate OnTime(c: Clock, filed: nat, ds: seq<nat>, tick: nat)
    decreases |ds|
  {
    if ds == [] then c == Gone
    else
      var due := filed + FiresIn(ds[0]);
      if tick < due then c.Filed? && c.due == due && Lasting(c.stages) == ds[1..] else OnTime(c, due, ds[1..], tick)
  }

  lemma {:induction false} FallsLater(filed: nat, ds: seq<nat>, tick: nat)
    requires Falls(filed, ds, tick)
    ensures tick > filed
    decreases |ds|
  {
    if tick != filed + FiresIn(ds[0]) {
      FallsLater(filed + FiresIn(ds[0]), ds[1..], tick);
    }
  }

  /** An item that begins goes on with the first stage that lasts. */
  lemma {:induction false} BegunIs(left: nat, stages: seq<nat>)
    ensures var c, ds := Begun(left, stages), Lasting([left] + stages);
      if ds == [] then c == Gone else c.Noted? && c.left == ds[0] && Lasting(c.stages) == ds[1..]
    decreases |stages|
  {
    assert ([left] + stages)[1..] == stages;
    if left == 0 && stages != [] {
      BegunIs(stages[0], stages[1..]);
      assert [stages[0]] + stages[1..] == stages;
    }
  }

  lemma {:induction false} TurnedIs(stages: seq<nat>, now: nat)
    ensures OnTime(FiledAt(Turned(stages), now), now, Lasting(stages), now)
  {
    if stages != [] {
      BegunIs(stages[0], stages[1..]);
      assert [stages[0]] + stages[1..] == stages;
    }
  }

  /** One step keeps it on time, and it decays in the step exactly if the tick is one of its own. */
  lemma {:induction false} StepOnTime(x: Item, c: Clock, filed: nat, ds: seq<nat>, tick: nat, s: Step)
    requires OnTime(c, filed, ds, tick) && filed <= tick && s != Remove(x)
    ensures OnTime(Then(x, c, tick, s), filed, ds, tick + if s.Look? then 1 else 0)
    ensures s.Look? ==> (IsDue(c, tick + 1) <==> Falls(filed, ds, tick + 1))
    decreases |ds|
  {
    if ds != [] {
      var due := filed + FiresIn(ds[0]);
      if tick >= due {
        StepOnTime(x, c, due, ds[1..], tick, s);
      } else if s.Look? {
        TurnedIs(c.stages, tick + 1);
        if Falls(due, ds[1..], tick + 1) {
          FallsLater(due, ds[1..], tick + 1);
        }
      }
    }
  }

  lemma {:induction false} GoneInTheEnd(c: Clock, filed: nat, ds: seq<nat>, tick: nat)
    requires OnTime(c, filed, ds, tick)
    ensures filed <= Ends(filed, ds) && (tick >= Ends(filed, ds) ==> c == Gone)
    decreases |ds|
  {
    if ds != [] {
      var due := filed + FiresIn(ds[0]);
      if tick >= due {
        GoneInTheEnd(c, due, ds[1..], tick);
      } else {
        EndsLater(due, ds[1..]);
      }
    }
  }

  lemma {:induction false} EndsLater(filed: nat, ds: seq<nat>)
    ensures filed <= Ends(filed, ds)
    decreases |ds|
  {
    if ds != [] {
      EndsLater(filed + FiresIn(ds[0]), ds[1..]);
    }
  }

  /** An item is told to decay in the first step, and step `f` is the first that files. */
  predicate FirstFiled(x: Item, steps: seq<Step>, f: nat)
  {
    && 0 < f < |steps| && steps[0] == Start(x) && (steps[f].Look? || steps[f].Tidy?)
    && forall j :: 0 < j < f ==> !steps[j].Look? && !steps[j].Tidy?
  }

  /** Before the filing the item is noted, or gone if nothing lasts. */
  lemma {:induction false} UntilFiled(x: Item, c: Clock, now: nat, steps: seq<Step>, f: nat, k: nat)
    requires c.Idle? && FirstFiled(x, steps, f) && 0 < k <= f && NotRemoved(x, steps[..k])
    ensures Looks(steps[..k]) == 0 && Course(x, c, now, steps[..k]) == Begun(c.left, c.stages)
  {
    assert steps[..k][..k - 1] == steps[..k - 1] && steps[..k][k - 1] == steps[k - 1];
    if k > 1 {
      UntilFiled(x, c, now, steps, f, k - 1);
      BegunIs(c.left, c.stages);
    } else {
      assert steps[..0] == [];
    }
  }

  lemma {:induction false} FiledOnTime(x: Item, left: nat, stages: seq<nat>, now: nat, s: Step)
    requires s.Look? || s.Tidy?
    ensures var filed := now + if s.Look? then 1 else 0;
      OnTime(Then(x, Begun(left, stages), now, s), filed, Lasting([left] + stages), filed)
  {
    BegunIs(left, stages);
  }

  lemma {:induction false} StillThere(x: Item, steps: seq<Step>, k: nat)
    requires 0 < k <= |steps| && NotRemoved(x, steps[..k])
    ensures NotRemoved(x, steps[..k - 1]) && steps[k - 1] != Remove(x)
  {
    assert steps[..k][k - 1] == steps[k - 1];
    assert steps[..k][..k - 1] == steps[..k - 1];
  }

  lemma {:induction false} AfterFiled(x: Item, c: Clock, now: nat, steps: seq<Step>, f: nat, k: nat)
    requires c.Idle? && FirstFiled(x, steps, f) && f < k <= |steps| && NotRemoved(x, steps[..k])
    ensures var filed := now + Looks(steps[..f + 1]);
      && filed <= now + Looks(steps[..k])
      && OnTime(Course(x, c, now, steps[..k]), filed, Lasting([c.left] + c.stages), now + Looks(steps[..k]))
  {
    hide Then, Begun, OnTime, Course, Looks, Lasting;
    var filed, ds := now + Looks(steps[..f + 1]), Lasting([c.left] + c.stages);
    OneMore(x, c, now, steps, k - 1);
    LooksMore(steps, k - 1);
    if k == f + 1 {
      UntilFiled(x, c, now, steps, f, f);
      FiledOnTime(x, c.left, c.stages, now, steps[f]);
    } else {
      assert steps[..k - 1] == steps[..k][..k - 1];
      StillThere(x, steps, k);
      AfterFiled(x, c, now, steps, f, k - 1);
      StepOnTime(x, Course(x, c, now, steps[..k - 1]), filed, ds, now + Looks(steps[..k - 1]), steps[k - 1]);
    }
  }

  /** An item told to decay, and not removed, decays at the tick of its filing plus the ticks of its duration, again
      after those of the next stage and so on, and at no other tick; stages of no time are passed over at once. After
      the last it is gone. */
  lemma {:induction false} DecaysThroughStages(x: Item, c: Clock, now: nat, steps: seq<Step>, f: nat, k: nat)
    requires c.Idle? && FirstFiled(x, steps, f) && k < |steps| && NotRemoved(x, steps[..k])
    ensures var filed, ds := now + Looks(steps[..f + 1]), Lasting([c.left] + c.stages);
      && (DecaysIn(x, c, now, steps, k) <==> steps[k].Look? && Falls(filed, ds, now + Looks(steps[..k + 1])))
      && (k > f && now + Looks(steps[..k]) >= Ends(filed, ds) ==> Course(x, c, now, steps[..k]) == Gone)
  {
    var filed, ds := now + Looks(steps[..f + 1]), Lasting([c.left] + c.stages);
    LooksMore(steps, k);
    if k > f {
      AfterFiled(x, c, now, steps, f, k);
      var before, tick := Course(x, c, now, steps[..k]), now + Looks(steps[..k]);
      GoneInTheEnd(before, filed, ds, tick);
      if steps[k].Look? {
        StepOnTime(x, before, filed, ds, tick, steps[k]);
      }
    } else {
      NoneBefore(x, c, now, steps, f, k);
    }
  }

  lemma {:induction false} NoneBefore(x: Item, c: Clock, now: nat, steps: seq<Step>, f: nat, k: nat)
    requires c.Idle? && FirstFiled(x, steps, f) && k <= f && NotRemoved(x, steps[..k])
    ensures !DecaysIn(x, c, now, steps, k)
    ensures var filed, ds := now + Looks(steps[..f + 1]), Lasting([c.left] + c.stages);
      steps[k].Look? ==> !Falls(filed, ds, now + Looks(steps[..k + 1]))
  {
    var filed, ds := now + Looks(steps[..f + 1]), Lasting([c.left] + c.stages);
    if k > 0 {
      UntilFiled(x, c, now, steps, f, k);
      BegunIs(c.left, c.stages);
    }
    if steps[k].Look? && Falls(filed, ds, now + Looks(steps[..k + 1])) {
      FallsLater(filed, ds, now + Looks(steps[..k + 1]));
    }
  }
}
