/** What happens to the two items of a trade: what is asked before, the two moves, and when both change hands. */
module TradeMoves {
  import opened Common
  import opened ItemTree
  import opened ContainerOps
  import opened Moves
  import opened GameAdd

  /** The player who accepts last offers `x`, the partner `y`; each receives in a container. */
  datatype Deal<K> = Deal(player: K, partner: K, x: K, y: K)

  /** FLAG_IGNOREAUTOSTACK: the moves put no item onto a stack, ... */
  const MOVE_FLAGS := Flags(false, false, false, true)

  /** ... but the tests before them count the room in stacks. */
  const TEST_FLAGS := NO_FLAGS

  const REMOVE_FLAGS := Flags(false, false, true, false)

  ghost predicate Involved<K>(w: World<K>, d: Deal<K>)
  {
    d.player in w.f && d.partner in w.f && d.x in w.f && d.y in w.f
  }

  /** Whether an item can be taken from where it lies. */
  predicate MayRemove<K(==)>(f: Forest<K>, x: K)
    requires x in f
  {
    f[x].parent.Some? && f[x].parent.value in f
    && QueryRemove(f, f[x].parent.value, x, f[x].count, REMOVE_FLAGS) == NoError
  }

  /** All that is asked before anything is moved. */
  ghost predicate Passes<K>(w: World<K>, d: Deal<K>)
    requires Sound(w) && Involved(w, d)
  {
    && AddAnswer(w, d.partner, WHEREEVER, d.x, TEST_FLAGS) == NoError
    && AddAnswer(w, d.player, WHEREEVER, d.y, TEST_FLAGS) == NoError
    && MayRemove(w.f, d.x) && MayRemove(w.f, d.y)
  }

  // ----- One move

  ghost function Decision<K>(w: World<K>, from: K, to: K, x: K, trade: Option<K>): Plan<K>
    requires Sound(w) && from in w.f && to in w.f && x in w.f
  {
    MovePlan(w, from, to, WHEREEVER, x, w.f[x].count, MOVE_FLAGS, trade)
  }

  /** What of a test still counts for the move. */
  ghost predicate Receivable<K>(w: World<K>, from: K, to: K, x: K)
    requires Sound(w) && from in w.f && to in w.f && x in w.f
  {
    && w.f[to].unlocked && w.f[x].kind.pickupable && !Above(w.f, w.rank, x, to)
    && x in w.f[from].list && w.f[x].count > 0
  }

  /** A whole item is moved exactly if it may be moved at all, there is a place for it in the list, and it does not
      go into the item it is traded for; then it goes to the front of the list, and otherwise nothing happens. */
  lemma {:induction false} MovesIff<K>(w: World<K>, from: K, to: K, x: K, trade: Option<K>)
    requires Sound(w) && Stacked(w.f) && from in w.f && to in w.f && x in w.f && Receivable(w, from, to, x)
    ensures var plan := Decision(w, from, to, x, trade);
      && (plan.Move? <==> w.f[x].kind.moveable && HasSlot(w.f, to)
                          && !(trade.Some? && Above(w.f, w.rank, trade.value, to)))
      && (plan.ret == NoError <==> plan.Move?)
      && (plan.Move? ==> plan.place == Place(to, WHEREEVER, None) && plan.n == 0)
      && (plan.Move? && w.f[x].kind.stackable ==> plan.m == w.f[x].count)
  {
    SettleOnce(w.f, to, WHEREEVER, x, MOVE_FLAGS, LAYERS);
    SettleFacts(w.f, to, WHEREEVER, x, MOVE_FLAGS);
    assert StackOk(w.f[x]) && Holds(w.f, to);
  }

  // ----- What one move leaves for the other

  /** What an item's list is once `x` has left `from`. */
  ghost function ListLeft<K>(w: World<K>, from: K, x: K, y: K): seq<K>
    requires from in w.f && y in w.f && x in w.f[from].list
  {
    if y == from then Without(w.f[y].list, IndexOf(w.f[from].list, x)) else w.f[y].list
  }

  /** What has become of `y` when `x` has gone. */
  ghost predicate GoneAt<K>(w: World<K>, from: K, to: K, x: K, z: K, g: World<K>, y: K)
    requires from in w.f && y in w.f && x in w.f[from].list && y in g.f
  {
    && g.f[y].kind == w.f[y].kind && g.f[y].holder == w.f[y].holder
    && g.f[y].capacity == w.f[y].capacity && g.f[y].unlocked == w.f[y].unlocked
    && (y != x ==> g.f[y].count == w.f[y].count && g.f[y].parent == w.f[y].parent)
    && (y == x ==> g.f[y].parent.None? || g.f[y].parent == Some(to))
    && g.f[y].list == if y == to then [z] + ListLeft(w, from, x, y) else ListLeft(w, from, x, y)
  }

  /** Between two worlds an item has gone from one list to the front of another, as itself or as a new stack `z`. */
  ghost predicate Gone<K>(w: World<K>, from: K, to: K, x: K, z: K, g: World<K>)
    requires from in w.f && x in w.f[from].list
  {
    && g.f.Keys == w.f.Keys + {z} && (z == x || (z !in w.f && !g.f[z].holder))
    && forall y {:trigger GoneAt(w, from, to, x, z, g, y)} :: y in w.f ==> GoneAt(w, from, to, x, z, g, y)
  }

  ghost predicate OutAt<K>(w: World<K>, from: K, x: K, h: World<K>, y: K)
    requires from in w.f && y in w.f && x in w.f[from].list && y in h.f
  {
    h.f[y] == (if y == from then w.f[y].(list := ListLeft(w, from, x, y))
               else if y == x then w.f[y].(parent := None) else w.f[y]).(total := h.f[y].total)
  }

  /** `h` is `w` without the item `x` in the list of `from`; only cached weights differ besides. */
  ghost predicate Out<K>(w: World<K>, from: K, x: K, h: World<K>)
    requires from in w.f && x in w.f && x in w.f[from].list
  {
    && h.rank == w.rank && h.f.Keys == w.f.Keys && x != from
    && forall y {:trigger OutAt(w, from, x, h, y)} :: y in w.f ==> OutAt(w, from, x, h, y)
  }

  /** An item that is taken out whole. */
  lemma {:induction false} TakenWhole<K>(w: World<K>, from: K, x: K, m: nat)
    requires Sound(w) && from in w.f && x in w.f && x in w.f[from].list
    requires w.f[x].kind.stackable ==> m == w.f[x].count
    ensures var h := RemoveThing(w, from, x, m); Sound(h) && Out(w, from, x, h)
  {
    hide Removed, Weighed;
    RemoveThingSound(w, from, x, m);
    RemovedFields(w.f, w.rank, from, IndexOf(w.f[from].list, x));
    var h := RemoveThing(w, from, x, m);
    forall y | y in w.f ensures OutAt(w, from, x, h, y) {
      assert y in h.f && h.f[y].total == h.f[y].total;
    }
  }

  lemma {:induction false} OutAndInAt<K>(w: World<K>, from: K, to: K, x: K, z: K, h: World<K>, h': World<K>,
        g: World<K>, y: K)
    requires from in w.f && to in h'.f && y in w.f && y in h.f && y in h'.f && x in w.f[from].list && x != from
    requires OutAt(w, from, x, h, y) && h'.f[y] == h.f[y] && OneMoreIn(h'.f, g.f, to, z)
    requires z == x || z != y
    ensures y in g.f && GoneAt(w, from, to, x, z, g, y)
  {
    hide Without, IndexOf;
    assert y in g.f && g.f[y].count == h'.f[y].count;
  }

  lemma {:induction false} OutAndIn<K>(w: World<K>, from: K, to: K, x: K, h: World<K>, g: World<K>)
    requires Sound(w) && from in w.f && to in w.f && x in w.f && x in w.f[from].list
    requires Out(w, from, x, h) && OneMoreIn(h.f, g.f, to, x)
    ensures Gone(w, from, to, x, x, g)
  {
    hide Sound, GoneAt, OutAt;
    assert g.f.Keys == w.f.Keys + {x};
    hide OneMoreIn;
    forall y | y in w.f ensures y in g.f && GoneAt(w, from, to, x, x, g, y) {
      OutAndInAt(w, from, to, x, x, h, h, g, y);
    }
  }

  lemma {:induction false} OutAndNew<K>(w: World<K>, from: K, to: K, x: K, z: K, h: World<K>, h': World<K>,
        g: World<K>)
    requires Sound(w) && from in w.f && to in w.f && x in w.f && x in w.f[from].list && z !in w.f
    requires Out(w, from, x, h) && h'.f.Keys == h.f.Keys + {z} && forall y :: y in h.f ==> h'.f[y] == h.f[y]
    requires OneMoreIn(h'.f, g.f, to, z) && !h'.f[z].holder
    ensures Gone(w, from, to, x, z, g)
  {
    hide Sound, GoneAt, OutAt;
    assert g.f.Keys == h'.f.Keys && !g.f[z].holder;
    hide OneMoreIn;
    forall y | y in w.f ensures y in g.f && GoneAt(w, from, to, x, z, g, y) {
      OutAndInAt(w, from, to, x, z, h, h', g, y);
    }
  }

  /** What an item taken out was not above, it is still not above. */
  lemma {:induction false} OutAbove<K>(w: World<K>, from: K, x: K, h: World<K>, c: K)
    requires Sound(w) && Sound(h) && from in w.f && x in w.f && x in w.f[from].list && c in w.f
    requires Out(w, from, x, h) && !Above(w.f, w.rank, x, c)
    ensures !Above(h.f, h.rank, x, c)
  {
    forall y | y in w.f && Above(w.f, w.rank, y, c) ensures w.f[y].parent == h.f[y].parent {
      assert OutAt(w, from, x, h, y);
    }
    AboveSame(w.f, h.f, w.rank, x, c);
  }

  lemma {:induction false} ItemGone<K>(w: World<K>, from: K, to: K, x: K, m: nat)
    requires Sound(w) && from in w.f && to in w.f && x in w.f && x in w.f[from].list && !Above(w.f, w.rank, x, to)
    requires w.f[to].holder && !w.f[x].kind.stackable && 0 < w.f[to].capacity
    ensures Gone(w, from, to, x, x, AddThing(RemoveThing(w, from, x, m), to, WHEREEVER, x))
  {
    hide RemoveThing, Above, Put, OneMoreIn, Linked, Weighed, Below, Gone;
    TakenWhole(w, from, x, m);
    var h := RemoveThing(w, from, x, m);
    OutAbove(w, from, x, h, to);
    assert OutAt(w, from, x, h, x) && OutAt(w, from, x, h, to);
    PutChanges(h, to, x);
    OutAndIn(w, from, to, x, h, Put(h, to, x, true));
  }

  lemma {:induction false} StackGone<K>(w: World<K>, from: K, to: K, x: K, fresh': K)
    requires Sound(w) && from in w.f && to in w.f && x in w.f && x in w.f[from].list && fresh' !in w.f
    requires w.f[to].holder && w.f[x].kind.stackable && 0 < w.f[to].capacity
    ensures Gone(w, from, to, x, fresh',
                 AddStack(RemoveThing(w, from, x, w.f[x].count), to, WHEREEVER, w.f[x].kind, w.f[x].count, fresh'))
  {
    hide RemoveThing, Above, Put, OneMoreIn, Linked, Weighed, Ranked, Gone;
    TakenWhole(w, from, x, w.f[x].count);
    var h := RemoveThing(w, from, x, w.f[x].count);
    var h' := Created(h, fresh', w.f[x].kind, w.f[x].count);
    CreatedSound(h, fresh', w.f[x].kind, w.f[x].count);
    assert OutAt(w, from, x, h, to);
    CreatedFits(h, fresh', w.f[x].kind, w.f[x].count, to);
    PutChanges(h', to, fresh');
    OutAndNew(w, from, to, x, fresh', h, h', Put(h', to, fresh', true));
  }

  /** Who is above an item afterwards was so before, or was above the place that the item went to with what it
      holds. */
  lemma {:induction false} AboveGone<K>(w: World<K>, g: World<K>, x: K, a: K, c: K, to: K)
    requires Ranked(w.f, w.rank) && Ranked(g.f, g.rank) && w.f.Keys <= g.f.Keys && c in w.f && to in w.f
    requires forall y {:trigger g.f[y]} :: y in w.f && y != x ==> g.f[y].parent == w.f[y].parent
    requires x in w.f && (g.f[x].parent.None? || g.f[x].parent == Some(to))
    requires Above(g.f, g.rank, a, c)
    ensures Above(w.f, w.rank, a, c) || (Above(w.f, w.rank, x, c) && Above(w.f, w.rank, a, to))
    decreases g.rank[c]
  {
    assert Below(g.f, g.rank, c) && Below(w.f, w.rank, c);
    if a != c {
      AboveGone(w, g, x, a, g.f[c].parent.value, to);
    }
  }

  /** The item that stands for `x` once it is moved: a stack is made anew. */
  function Arriving<K>(f: Forest<K>, x: K, fresh': K): K
    requires x in f
  {
    if f[x].kind.stackable then fresh' else x
  }

  lemma {:induction false} CarryGone<K>(w: World<K>, from: K, to: K, x: K, plan: Plan<K>, fresh': K)
    requires Sound(w) && from in w.f && to in w.f && x in w.f && Receivable(w, from, to, x)
    requires w.f[to].holder && HasSlot(w.f, to) && plan.Move? && Settled(w.f, x, plan.place)
    requires plan.place == Place(to, WHEREEVER, None) && plan.n == 0
    requires w.f[x].kind.stackable ==> plan.m == w.f[x].count && fresh' !in w.f
    ensures Gone(w, from, to, x, Arriving(w.f, x, fresh'), Carry(w, from, x, plan, fresh'))
  {
    hide RemoveThing, AddThing, Created, Above, Linked, Ranked, Weighed, Gone;
    RemoveThingSound(w, from, x, plan.m);
    if w.f[x].kind.stackable {
      StackGone(w, from, to, x, fresh');
    } else {
      ItemGone(w, from, to, x, plan.m);
    }
  }

  /** Where a move of a whole item ends. */
  ghost predicate MovedAll<K>(w: World<K>, from: K, to: K, x: K, fresh': K, g: World<K>)
    requires Sound(w) && from in w.f && x in w.f && x in w.f[from].list
  {
    && Sound(g) && Stacked(g.f) && (Within(w.f) ==> Within(g.f))
    && Gone(w, from, to, x, Arriving(w.f, x, fresh'), g)
    && Carried(w.f, g.f, from, to, w.f[x].kind, Units(w.f[x]))
  }

  lemma {:induction false} MoveGone<K>(w: World<K>, from: K, to: K, x: K, trade: Option<K>, fresh': K)
    requires Sound(w) && Stacked(w.f) && from in w.f && to in w.f && w.f[to].holder && x in w.f
    requires Receivable(w, from, to, x) && NewFor(w, x, Decision(w, from, to, x, trade), fresh')
    ensures var (g, ret) := MoveItem(w, from, to, WHEREEVER, x, w.f[x].count, MOVE_FLAGS, trade, fresh');
      && (ret == NoError <==> Decision(w, from, to, x, trade).Move?)
      && if ret == NoError then MovedAll(w, from, to, x, fresh', g) else g == w
  {
    hide MovePlan, Settle, Carry, Gone, Carried, Linked, Ranked, Weighed, StackOk, Above;
    var plan := Decision(w, from, to, x, trade);
    MovesIff(w, from, to, x, trade);
    MoveItemKeeps(w, from, to, WHEREEVER, x, w.f[x].count, MOVE_FLAGS, trade, fresh');
    SettleFacts(w.f, to, WHEREEVER, x, MOVE_FLAGS);
    if plan.Move? {
      PlanFair(w, from, to, WHEREEVER, x, w.f[x].count, MOVE_FLAGS, trade);
      CarryGone(w, from, to, x, plan, fresh');
    }
  }

  // ----- The tests

  /** The tests count a free place in the list, or room in the stacks already there. */
  lemma {:induction false} TestIff<K>(w: World<K>, to: K, x: K)
    requires Sound(w) && Stacked(w.f) && to in w.f && x in w.f
    ensures Inside(w.f, w.f[to].list)
    ensures AddAnswer(w, to, WHEREEVER, x, TEST_FLAGS) == NoError
      <==> && w.f[to].unlocked && w.f[x].kind.pickupable && !Above(w.f, w.rank, x, to)
           && (HasSlot(w.f, to)
               || (w.f[x].kind.stackable && w.f[x].parent != Some(to)
                   && w.f[x].count <= Room(w.f, w.f[to].list, x)))
  {
    assert Holds(w.f, to) && StackOk(w.f[x]);
    NoStackNoRoom(w.f, w.f[to].list, x);
    DestinationFacts(w.f, to, WHEREEVER, x, TEST_FLAGS);
  }

  lemma {:induction false} TestGives<K>(w: World<K>, to: K, x: K)
    requires Sound(w) && to in w.f && x in w.f && AddAnswer(w, to, WHEREEVER, x, TEST_FLAGS) == NoError
    ensures w.f[to].unlocked && w.f[x].kind.pickupable && !Above(w.f, w.rank, x, to)
  {
    DestinationFacts(w.f, to, WHEREEVER, x, TEST_FLAGS);
  }

  // ----- The exchange

  datatype Outcome = Nothing | OnlyFirst | Both

  ghost function FirstPlan<K>(w: World<K>, d: Deal<K>): Plan<K>
    requires Sound(w) && Involved(w, d) && Passes(w, d)
  {
    Decision(w, w.f[d.x].parent.value, d.partner, d.x, Some(d.y))
  }

  ghost function FirstMove<K>(w: World<K>, d: Deal<K>, fresh': K): (World<K>, ReturnValue)
    requires Sound(w) && Involved(w, d) && Passes(w, d)
  {
    MoveItem(w, w.f[d.x].parent.value, d.partner, WHEREEVER, d.x, w.f[d.x].count, MOVE_FLAGS, Some(d.y), fresh')
  }

  /** What is there for the second move, which takes the other item from where it was before the first. */
  ghost predicate Left<K>(w: World<K>, d: Deal<K>, w1: World<K>)
    requires Sound(w) && Involved(w, d) && Passes(w, d)
  {
    Sound(w1) && Involved(w1, d) && w.f[d.y].parent.value in w1.f && w1.f[d.y].count == w.f[d.y].count
  }

  ghost function SecondPlan<K>(w: World<K>, d: Deal<K>, w1: World<K>): Plan<K>
    requires Sound(w) && Involved(w, d) && Passes(w, d) && Left(w, d, w1)
  {
    Decision(w1, w.f[d.y].parent.value, d.player, d.y, None)
  }

  ghost function SecondMove<K>(w: World<K>, d: Deal<K>, w1: World<K>, fresh': K): (World<K>, ReturnValue)
    requires Sound(w) && Involved(w, d) && Passes(w, d) && Left(w, d, w1)
  {
    MoveItem(w1, w.f[d.y].parent.value, d.player, WHEREEVER, d.y, w1.f[d.y].count, MOVE_FLAGS, None, fresh')
  }

  /** How far it came, the world between the two moves, and the stacks that the moves made. */
  datatype Course<K> = Course(outcome: Outcome, between: World<K>, fresh1: K, fresh2: K)

  /** How the items of a deal come to change hands: all the tests, one move, and if that succeeds the other. */
  ghost predicate Exchanged<K>(w: World<K>, d: Deal<K>, c: Course<K>, g: World<K>)
    requires Sound(w) && Involved(w, d)
  {
    if !Passes(w, d) then g == w && c.outcome == Nothing
    else
      && NewFor(w, d.x, FirstPlan(w, d), c.fresh1) && c.between == FirstMove(w, d, c.fresh1).0
      && if FirstMove(w, d, c.fresh1).1 != NoError then g == c.between && c.outcome == Nothing
         else
           && Left(w, d, c.between) && NewFor(c.between, d.y, SecondPlan(w, d, c.between), c.fresh2)
           && g == SecondMove(w, d, c.between, c.fresh2).0
           && c.outcome == if SecondMove(w, d, c.between, c.fresh2).1 == NoError then Both else OnlyFirst
  }

  /** Whether the first item can be moved: it has a free place in the list of the partner. */
  ghost predicate FirstFits<K>(w: World<K>, d: Deal<K>)
    requires Sound(w) && Involved(w, d)
  {
    w.f[d.x].kind.moveable && HasSlot(w.f, d.partner) && !Above(w.f, w.rank, d.y, d.partner)
  }

  /** Whether the second can: its place may be the one that the first has left. */
  ghost predicate SecondFits<K>(w: World<K>, d: Deal<K>)
    requires Sound(w) && Involved(w, d)
  {
    && w.f[d.y].kind.moveable
    && |w.f[d.player].list| < w.f[d.player].capacity + if w.f[d.x].parent == Some(d.player) then 1 else 0
  }

  /** What a deal needs of the players: they are two, with two items. */
  ghost predicate Proper<K>(w: World<K>, d: Deal<K>)
  {
    && Sound(w) && Stacked(w.f) && Involved(w, d) && d.player != d.partner && d.x != d.y
    && w.f[d.player].holder && w.f[d.partner].holder
  }

  lemma {:induction false} PassesGives<K>(w: World<K>, d: Deal<K>)
    requires Proper(w, d) && Passes(w, d)
    ensures Receivable(w, w.f[d.x].parent.value, d.partner, d.x)
    ensures Receivable(w, w.f[d.y].parent.value, d.player, d.y)
  {
    TestGives(w, d.partner, d.x);
    TestGives(w, d.player, d.y);
  }

  lemma {:induction false} FirstIff<K>(w: World<K>, d: Deal<K>, fresh': K)
    requires Proper(w, d) && Passes(w, d) && NewFor(w, d.x, FirstPlan(w, d), fresh')
    ensures var (g, ret) := FirstMove(w, d, fresh');
      && (ret == NoError <==> FirstFits(w, d))
      && if ret == NoError then MovedAll(w, w.f[d.x].parent.value, d.partner, d.x, fresh', g) else g == w
  {
    hide Above, Linked, Ranked, Weighed, StackOk, AddAnswer, MoveItem, MovePlan, MovedAll, Receivable;
    PassesGives(w, d);
    var from := w.f[d.x].parent.value;
    MovesIff(w, from, d.partner, d.x, Some(d.y));
    MoveGone(w, from, d.partner, d.x, Some(d.y), fresh');
  }

  lemma {:induction false} GoneOf<K>(w: World<K>, from: K, to: K, x: K, z: K, g: World<K>, y: K)
    requires from in w.f && to in w.f && x in w.f[from].list && y in w.f && Gone(w, from, to, x, z, g)
    ensures y in g.f && g.f[y].kind == w.f[y].kind && g.f[y].holder == w.f[y].holder
    ensures g.f[y].capacity == w.f[y].capacity && g.f[y].unlocked == w.f[y].unlocked
    ensures y != x ==> g.f[y].count == w.f[y].count && g.f[y].parent == w.f[y].parent
    ensures y == x ==> g.f[y].parent.None? || g.f[y].parent == Some(to)
    ensures |g.f[y].list| == |w.f[y].list| + (if y == to then 1 else 0) - if y == from then 1 else 0
  {
    assert GoneAt(w, from, to, x, z, g, y);
  }

  lemma {:induction false} StillHeld<K>(w: World<K>, y: K)
    requires Linked(w.f) && y in w.f && w.f[y].parent.Some?
    ensures w.f[y].parent.value in w.f && y in w.f[w.f[y].parent.value].list
  {
    assert Held(w.f, y);
  }

  lemma {:induction false} AboveAfter<K>(w: World<K>, from: K, to: K, x: K, z: K, g: World<K>, a: K, c: K)
    requires Sound(w) && Sound(g) && from in w.f && to in w.f && x in w.f && x in w.f[from].list
    requires Gone(w, from, to, x, z, g) && c in w.f && c in g.f && Above(g.f, g.rank, a, c)
    ensures Above(w.f, w.rank, a, c) || (Above(w.f, w.rank, x, c) && Above(w.f, w.rank, a, to))
  {
    hide Above, Linked, Weighed, Below, GoneAt;
    forall y {:trigger g.f[y]} | y in w.f
      ensures y in g.f && (y != x ==> g.f[y].parent == w.f[y].parent)
      ensures y == x ==> g.f[y].parent.None? || g.f[y].parent == Some(to)
    {
      GoneOf(w, from, to, x, z, g, y);
    }
    AboveGone(w, g, x, a, c, to);
  }

  /** What the first move leaves for the second: the other item where it was, and a list one shorter if that
      player is the one who gave. */
  lemma {:induction false} SecondReady<K>(w: World<K>, d: Deal<K>, fresh': K, w1: World<K>)
    requires Proper(w, d) && Passes(w, d) && FirstFits(w, d)
    requires MovedAll(w, w.f[d.x].parent.value, d.partner, d.x, fresh', w1)
    ensures Proper(w1, d) && Left(w, d, w1) && Receivable(w1, w.f[d.y].parent.value, d.player, d.y)
    ensures w1.f[d.y].kind == w.f[d.y].kind
    ensures HasSlot(w1.f, d.player) && w.f[d.y].kind.moveable <==> SecondFits(w, d)
  {
    hide Above, Linked, Ranked, Weighed, StackOk, AddAnswer, GoneAt;
    PassesGives(w, d);
    GoneOf(w, w.f[d.x].parent.value, d.partner, d.x, Arriving(w.f, d.x, fresh'), w1, d.y);
    GoneOf(w, w.f[d.x].parent.value, d.partner, d.x, Arriving(w.f, d.x, fresh'), w1, d.player);
    GoneOf(w, w.f[d.x].parent.value, d.partner, d.x, Arriving(w.f, d.x, fresh'), w1, d.partner);
    StillHeld(w1, d.y);
    if Above(w1.f, w1.rank, d.y, d.player) {
      AboveAfter(w, w.f[d.x].parent.value, d.partner, d.x, Arriving(w.f, d.x, fresh'), w1, d.y, d.player);
    }
  }

  lemma {:induction false} SecondIff<K>(w: World<K>, d: Deal<K>, fresh1: K, w1: World<K>, fresh2: K)
    requires Proper(w, d) && Passes(w, d) && FirstFits(w, d)
    requires MovedAll(w, w.f[d.x].parent.value, d.partner, d.x, fresh1, w1)
    requires Left(w, d, w1) ==> NewFor(w1, d.y, SecondPlan(w, d, w1), fresh2)
    ensures Left(w, d, w1) && w.f[d.y].parent.value in w1.f && d.y in w1.f[w.f[d.y].parent.value].list
    ensures var (g, ret) := SecondMove(w, d, w1, fresh2);
      && (ret == NoError <==> SecondFits(w, d))
      && if ret == NoError then MovedAll(w1, w.f[d.y].parent.value, d.player, d.y, fresh2, g) else g == w1
  {
    hide Above, Linked, Ranked, Weighed, StackOk, AddAnswer, MoveItem, MovePlan, MovedAll, SecondFits;
    SecondReady(w, d, fresh1, w1);
    var from := w.f[d.y].parent.value;
    MovesIff(w1, from, d.player, d.y, None);
    MoveGone(w1, from, d.player, d.y, None, fresh2);
  }

  /** What `c` has more of a kind once units of that kind went from one container to another. */
  function Shift<K(==)>(c: K, kind: Kind, from: K, to: K, moved: Kind, units: nat): int
  {
    (if c == to && kind == moved then units else 0) - if c == from && kind == moved then units else 0
  }

  /** The first item is with the partner and the second where it was. */
  ghost predicate OneCarried<K>(w: World<K>, d: Deal<K>, g: World<K>)
    requires Proper(w, d) && Linked(g.f) && w.f[d.x].parent.Some?
  {
    && w.f.Keys <= g.f.Keys && g.f[d.y].parent == w.f[d.y].parent
    && forall c, k {:trigger Has(g.f, c, k)} :: c in w.f ==>
      Has(g.f, c, k)
      == Has(w.f, c, k) + Shift(c, k, w.f[d.x].parent.value, d.partner, w.f[d.x].kind, Units(w.f[d.x]))
  }

  /** Each item is with the other player. */
  ghost predicate BothCarried<K>(w: World<K>, d: Deal<K>, g: World<K>)
    requires Proper(w, d) && Linked(g.f) && w.f[d.x].parent.Some? && w.f[d.y].parent.Some?
  {
    && w.f.Keys <= g.f.Keys
    && forall c, k {:trigger Has(g.f, c, k)} :: c in w.f ==>
      Has(g.f, c, k)
      == Has(w.f, c, k) + Shift(c, k, w.f[d.x].parent.value, d.partner, w.f[d.x].kind, Units(w.f[d.x]))
         + Shift(c, k, w.f[d.y].parent.value, d.player, w.f[d.y].kind, Units(w.f[d.y]))
  }

  /** When a trade exchanges both items, when it gives away only the one and when it does nothing; and that units
      are only ever carried over. The tests do not decide it: they count room in stacks, where the moves need a
      free place, and they overlook that an item cannot be moved. */
  lemma {:induction false} SwappedIff<K>(w: World<K>, d: Deal<K>, c: Course<K>, g: World<K>)
    requires Proper(w, d) && Exchanged(w, d, c, g)
    ensures c.outcome == Both <==> Passes(w, d) && FirstFits(w, d) && SecondFits(w, d)
    ensures c.outcome == OnlyFirst <==> Passes(w, d) && FirstFits(w, d) && !SecondFits(w, d)
    ensures Sound(g) && Stacked(g.f) && (Within(w.f) ==> Within(g.f))
    ensures c.outcome == Nothing ==> g == w
    ensures c.outcome == OnlyFirst ==> OneCarried(w, d, g)
    ensures c.outcome == Both ==> BothCarried(w, d, g)
  {
    hide Above, Linked, Ranked, Weighed, StackOk, Has, FirstMove, SecondMove, FirstFits, SecondFits, MovedAll, NewFor,
      FirstPlan, SecondPlan, Left;
    if Passes(w, d) {
      FirstIff(w, d, c.fresh1);
      if FirstFits(w, d) {
        SecondIff(w, d, c.fresh1, c.between, c.fresh2);
        Effects(w, d, c.fresh1, c.between, c.fresh2, g, c.outcome == Both);
      }
    }
  }

  lemma {:induction false} Effects<K>(w: World<K>, d: Deal<K>, fresh1: K, w1: World<K>, fresh2: K, g: World<K>,
        both: bool)
    requires Proper(w, d) && Passes(w, d) && FirstFits(w, d)
    requires MovedAll(w, w.f[d.x].parent.value, d.partner, d.x, fresh1, w1)
    requires Left(w, d, w1) && d.y in w1.f[w.f[d.y].parent.value].list
    requires if both then MovedAll(w1, w.f[d.y].parent.value, d.player, d.y, fresh2, g) else g == w1
    ensures Sound(g) && Stacked(g.f) && (Within(w.f) ==> Within(g.f))
    ensures if both then BothCarried(w, d, g) else OneCarried(w, d, g)
  {
    hide Above, Linked, Ranked, Weighed, StackOk, Has, FirstFits, Gone, AddAnswer;
    var from := w.f[d.x].parent.value;
    GoneOf(w, from, d.partner, d.x, Arriving(w.f, d.x, fresh1), w1, d.y);
    assert Units(w1.f[d.y]) == Units(w.f[d.y]);
    forall c, k | c in w.f ensures Has(w1.f, c, k)
      == Has(w.f, c, k) + Shift(c, k, from, d.partner, w.f[d.x].kind, Units(w.f[d.x]))
    {
    }
    if both {
      forall c, k | c in w.f ensures Has(g.f, c, k)
        == Has(w1.f, c, k) + Shift(c, k, w.f[d.y].parent.value, d.player, w.f[d.y].kind, Units(w.f[d.y]))
      {
      }
    }
  }

  // ----- What an exchange leaves as it was

  /** Nothing disappears, what is a container stays one, and no new container appears. */
  ghost predicate Lasting<K>(f: Forest<K>, g: Forest<K>)
  {
    && f.Keys <= g.Keys && (forall y {:trigger g[y]} :: y in f ==> g[y].holder == f[y].holder)
    && forall y {:trigger g[y]} :: y in g && y !in f ==> !g[y].holder
  }

  lemma {:induction false} GoneLasting<K>(w: World<K>, from: K, to: K, x: K, z: K, g: World<K>)
    requires from in w.f && to in w.f && x in w.f && x in w.f[from].list && Gone(w, from, to, x, z, g)
    ensures Lasting(w.f, g.f)
  {
    hide GoneAt;
    forall y {:trigger g.f[y]} | y in w.f ensures y in g.f && g.f[y].holder == w.f[y].holder {
      GoneOf(w, from, to, x, z, g, y);
    }
    forall y {:trigger g.f[y]} | y in g.f && y !in w.f ensures !g.f[y].holder {
      assert y == z;
    }
  }

  /** Items that do not lie in each other, nor in the two of the deal, do not lie in each other afterwards. */
  ghost predicate StillApart<K>(w: World<K>, d: Deal<K>, g: World<K>)
    requires Sound(w) && Sound(g) && w.f.Keys <= g.f.Keys
  {
    forall a, b {:trigger Above(g.f, g.rank, a, b)} ::
      a in w.f && b in w.f && !Above(w.f, w.rank, d.x, b) && !Above(w.f, w.rank, d.y, b) && Above(g.f, g.rank, a, b)
      ==> Above(w.f, w.rank, a, b)
  }

  lemma {:induction false} ExchangeKeeps<K>(w: World<K>, d: Deal<K>, c: Course<K>, g: World<K>)
    requires Proper(w, d) && Exchanged(w, d, c, g)
    ensures Sound(g) && Stacked(g.f) && Lasting(w.f, g.f) && StillApart(w, d, g)
  {
    hide Above, Linked, Ranked, Weighed, StackOk, FirstMove, SecondMove, FirstFits, SecondFits, MovedAll, NewFor,
      FirstPlan, SecondPlan, Left, Gone, StillApart, Lasting;
    SwappedIff(w, d, c, g);
    if Passes(w, d) {
      FirstIff(w, d, c.fresh1);
      if FirstFits(w, d) {
        SecondIff(w, d, c.fresh1, c.between, c.fresh2);
        BothKeep(w, d, c, g);
      }
    }
    if g == w {
      SameKeeps(w, d);
    }
  }

  lemma {:induction false} SameKeeps<K>(w: World<K>, d: Deal<K>)
    requires Sound(w)
    ensures Lasting(w.f, w.f) && StillApart(w, d, w)
  {
  }

  lemma {:induction false} BothKeep<K>(w: World<K>, d: Deal<K>, c: Course<K>, g: World<K>)
    requires Proper(w, d) && Passes(w, d) && Sound(g)
    requires MovedAll(w, w.f[d.x].parent.value, d.partner, d.x, c.fresh1, c.between)
    requires Left(w, d, c.between) && d.y in c.between.f[w.f[d.y].parent.value].list
    requires g == c.between || MovedAll(c.between, w.f[d.y].parent.value, d.player, d.y, c.fresh2, g)
    ensures Lasting(w.f, g.f) && StillApart(w, d, g)
  {
    hide Above, Linked, Ranked, Weighed, StackOk, Gone, AddAnswer, Has, Within;
    var w1, from, from' := c.between, w.f[d.x].parent.value, w.f[d.y].parent.value;
    var z, z' := Arriving(w.f, d.x, c.fresh1), Arriving(w1.f, d.y, c.fresh2);
    GoneLasting(w, from, d.partner, d.x, z, w1);
    if g != w1 {
      GoneLasting(w1, from', d.player, d.y, z', g);
    }
    forall a, b {:trigger Above(g.f, g.rank, a, b)} |
      a in w.f && b in w.f && !Above(w.f, w.rank, d.x, b) && !Above(w.f, w.rank, d.y, b) && Above(g.f, g.rank, a, b)
      ensures Above(w.f, w.rank, a, b)
    {
      if Above(w1.f, w1.rank, d.y, b) {
        AboveAfter(w, from, d.partner, d.x, z, w1, d.y, b);
      }
      if g != w1 {
        AboveAfter(w1, from', d.player, d.y, z', g, a, b);
      }
      AboveAfter(w, from, d.partner, d.x, z, w1, a, b);
    }
  }

  // ----- Nothing is lost or made

  /** How many units of a kind lie directly in the containers of a list. */
  ghost function InAll<K>(f: Forest<K>, l: seq<K>, kind: Kind): nat
    requires Linked(f) && Inside(f, l)
  {
    if l == [] then 0 else Has(f, l[0], kind) + InAll(f, l[1..], kind)
  }

  /** The list names every container once. */
  ghost predicate AllHolders<K>(f: Forest<K>, l: seq<K>)
  {
    NoDup(l) && Inside(f, l) && forall c {:trigger f[c]} :: c in f && f[c].holder ==> c in l
  }

  lemma {:induction false} InAllShifted<K>(f: Forest<K>, g: Forest<K>, l: seq<K>, kind: Kind, from: K, to: K,
        moved: Kind, units: nat)
    requires Linked(f) && Linked(g) && Inside(f, l) && Inside(g, l) && NoDup(l)
    requires forall c {:trigger Has(g, c, kind)} :: c in l ==>
      Has(g, c, kind) == Has(f, c, kind) + Shift(c, kind, from, to, moved, units)
    ensures InAll(g, l, kind) == InAll(f, l, kind)
      + (if kind == moved && to in l then units else 0) - if kind == moved && from in l then units else 0
  {
    if l != [] {
      InAllShifted(f, g, l[1..], kind, from, to, moved, units);
      assert Has(g, l[0], kind) == Has(f, l[0], kind) + Shift(l[0], kind, from, to, moved, units);
      assert l[0] !in l[1..];
    }
  }

  /** One item carried over changes no total. */
  lemma {:induction false} MovedTotal<K>(w: World<K>, from: K, to: K, x: K, fresh': K, g: World<K>, l: seq<K>,
        kind: Kind)
    requires Sound(w) && from in w.f && to in w.f && x in w.f && x in w.f[from].list && w.f[to].holder
    requires MovedAll(w, from, to, x, fresh', g) && AllHolders(w.f, l)
    ensures AllHolders(g.f, l) && InAll(g.f, l, kind) == InAll(w.f, l, kind)
  {
    hide Linked, Ranked, Weighed, StackOk, Gone, Within, Has, NoDup;
    GoneLasting(w, from, to, x, Arriving(w.f, x, fresh'), g);
    HoldsSome(w.f, from, x);
    InAllShifted(w.f, g.f, l, kind, from, to, w.f[x].kind, Units(w.f[x]));
  }

  lemma {:induction false} HoldsSome<K>(f: Forest<K>, c: K, x: K)
    requires Linked(f) && c in f && x in f[c].list
    ensures f[c].holder
  {
    assert Holds(f, c);
  }

  /** However far a trade comes, all containers together hold as many units of each kind as before. */
  lemma {:induction false} ExchangeTotal<K>(w: World<K>, d: Deal<K>, c: Course<K>, g: World<K>, l: seq<K>, kind: Kind)
    requires Proper(w, d) && Exchanged(w, d, c, g) && AllHolders(w.f, l)
    ensures Sound(g) && AllHolders(g.f, l) && InAll(g.f, l, kind) == InAll(w.f, l, kind)
  {
    hide Above, Linked, Ranked, Weighed, StackOk, FirstMove, SecondMove, FirstFits, SecondFits, MovedAll, NewFor,
      FirstPlan, SecondPlan, Left, InAll, AllHolders;
    SwappedIff(w, d, c, g);
    if Passes(w, d) {
      FirstIff(w, d, c.fresh1);
      if FirstFits(w, d) {
        SecondIff(w, d, c.fresh1, c.between, c.fresh2);
        BothTotal(w, d, c, g, l, kind);
      }
    }
  }

  lemma {:induction false} BothTotal<K>(w: World<K>, d: Deal<K>, c: Course<K>, g: World<K>, l: seq<K>, kind: Kind)
    requires Proper(w, d) && Passes(w, d) && FirstFits(w, d) && Sound(g) && AllHolders(w.f, l)
    requires MovedAll(w, w.f[d.x].parent.value, d.partner, d.x, c.fresh1, c.between)
    requires Left(w, d, c.between) && d.y in c.between.f[w.f[d.y].parent.value].list
    requires g == c.between || MovedAll(c.between, w.f[d.y].parent.value, d.player, d.y, c.fresh2, g)
    ensures AllHolders(g.f, l) && InAll(g.f, l, kind) == InAll(w.f, l, kind)
  {
    hide Above, Linked, Ranked, Weighed, StackOk, MovedAll, Gone, InAll, AllHolders, AddAnswer, FirstFits;
    MovedTotal(w, w.f[d.x].parent.value, d.partner, d.x, c.fresh1, c.between, l, kind);
    if g != c.between {
      SecondReady(w, d, c.fresh1, c.between);
      MovedTotal(c.between, w.f[d.y].parent.value, d.player, d.y, c.fresh2, g, l, kind);
    }
  }

  /** What becomes of the forest in one step of trading: nothing, or a deal is carried out. */
  datatype Change<K> = Idle | Swap(deal: Deal<K>, course: Course<K>)

  ghost predicate Follows<K>(w: World<K>, change: Change<K>, g: World<K>)
  {
    match change
    case Idle => g == w
    case Swap(d, c) => Proper(w, d) && Exchanged(w, d, c, g)
  }

  // ----- A trade that gives away one item for nothing

  /** Player 2 has room for one item and has one, stack 3 of fifty coins, and offers box 1, which lies in 0.
      Player 4 has room for eight and offers stack 5 of fifty coins. */
  const SHORT: Forest<nat> := map[
    0 := Node(None, [1], true, BOX, 1, 0, 8, true),
    1 := Node(Some(0), [], false, BOX, 1, 0, 0, false),
    2 := Node(None, [3], true, BOX, 1, 0, 1, true),
    3 := Node(Some(2), [], false, COIN, 50, 0, 0, false),
    4 := Node(None, [5], true, BOX, 1, 0, 8, true),
    5 := Node(Some(4), [], false, COIN, 50, 0, 0, false)]

  const SHORT_WORLD := World(SHORT, map[0 := 0, 1 := 1, 2 := 0, 3 := 1, 4 := 0, 5 := 1])

  const SHORT_DEAL := Deal(2, 4, 1, 5)

  lemma {:induction false} ShortSums()
    ensures forall y :: y in SHORT ==> Inside(SHORT, [y]) && Sum(SHORT, [y]) == 0
    ensures Tally(SHORT, [3], COIN) == 50 && Tally(SHORT, [5], COIN) == 50
    ensures Tally(SHORT, [3], BOX) == 0 && Tally(SHORT, [5], BOX) == 0
    ensures Room(SHORT, [3], 5) == 50
  {
    var f := SHORT;
    forall y | y in f ensures Inside(f, [y]) && Sum(f, [y]) == 0 {
      assert Sum(f, [y][1..]) == 0;
    }
    assert [3][1..] == [] && [5][1..] == [];
    assert forall k :: Tally(f, [], k) == 0;
  }

  lemma {:induction false} ShortNode(y: nat)
    requires y in SHORT
    ensures Holds(SHORT, y) && Held(SHORT, y) && Below(SHORT, SHORT_WORLD.rank, y) && StackOk(SHORT[y])
    ensures Off(SHORT, y, 0)
  {
    hide Sum;
    ShortSums();
    assert y in {0, 1, 2, 3, 4, 5};
    assert 0 in SHORT && 1 in SHORT && 2 in SHORT && 3 in SHORT && 4 in SHORT && 5 in SHORT;
  }

  lemma {:induction false} ShortProper()
    ensures Proper(SHORT_WORLD, SHORT_DEAL)
    ensures Has(SHORT, 2, COIN) == 50 && Has(SHORT, 2, BOX) == 0 && Has(SHORT, 4, COIN) == 50 && Has(SHORT, 4, BOX) == 0
  {
    hide Sum, Tally, Holds, Held, Below, StackOk, Off;
    ShortSums();
    forall y | y in SHORT
      ensures Holds(SHORT, y) && Held(SHORT, y) && Below(SHORT, SHORT_WORLD.rank, y) && StackOk(SHORT[y])
        && Off(SHORT, y, 0)
    {
      ShortNode(y);
    }
  }

  lemma {:induction false} ShortPasses()
    ensures Proper(SHORT_WORLD, SHORT_DEAL) && Passes(SHORT_WORLD, SHORT_DEAL)
    ensures FirstFits(SHORT_WORLD, SHORT_DEAL) && !SecondFits(SHORT_WORLD, SHORT_DEAL)
  {
    hide Linked, Ranked, Weighed, StackOk, AddAnswer, Above;
    ShortProper();
    ShortSums();
    NotAboveRoot(SHORT_WORLD, 1, 4);
    NotAboveRoot(SHORT_WORLD, 5, 2);
    NotAboveRoot(SHORT_WORLD, 5, 4);
    TestIff(SHORT_WORLD, 4, 1);
    TestIff(SHORT_WORLD, 2, 5);
  }

  /** All that is asked says yes, the box goes to player 4, and the coins stay there too. */
  lemma {:induction false} OneSided()
    ensures Proper(SHORT_WORLD, SHORT_DEAL) && Passes(SHORT_WORLD, SHORT_DEAL)
    ensures var w1 := FirstMove(SHORT_WORLD, SHORT_DEAL, 6).0;
      && Exchanged(SHORT_WORLD, SHORT_DEAL, Course(OnlyFirst, w1, 6, 7), w1)
      && Linked(w1.f) && 2 in w1.f && 4 in w1.f
      && Has(w1.f, 2, COIN) == 50 && Has(w1.f, 2, BOX) == 0 && Has(w1.f, 4, COIN) == 50 && Has(w1.f, 4, BOX) == 1
  {
    hide Linked, Ranked, Weighed, StackOk, AddAnswer, Above, Has, FirstMove, SecondMove, FirstFits, SecondFits, Gone,
      Passes, MovedAll;
    ShortPasses();
    ShortProper();
    var w1 := FirstMove(SHORT_WORLD, SHORT_DEAL, 6).0;
    FirstIff(SHORT_WORLD, SHORT_DEAL, 6);
    SecondReady(SHORT_WORLD, SHORT_DEAL, 6, w1);
    MovesIff(w1, 4, 2, 5, None);
    SecondIff(SHORT_WORLD, SHORT_DEAL, 6, w1, 7);
    SwappedIff(SHORT_WORLD, SHORT_DEAL, Course(OnlyFirst, w1, 6, 7), w1);
  }
}
