/** Trading between players: who trades with whom, which items are offered, and when they change hands. */
module Trade {
  import opened Common
  import opened ItemTree
  import opened ContainerOps
  import opened Moves
  import opened Container
  import opened ContainerIteration
  import opened GameMoves
  import opened GameAdd
  import opened TradeBook
  import opened TradeMoves

  class Player {
    /** Where the player receives items. */
    const inventory: Item
    var tradeState: TradeState
    var tradePartner: Player?
    var tradeItem: Option<Item>

    constructor (inventory: Item)
      ensures SeatOf() == Seat(NONE, None, None) && this.inventory == inventory
    {
      this.inventory, tradeState, tradePartner, tradeItem := inventory, NONE, null, None;
    }

    ghost function SeatOf(): Seat<Player, Item>
      reads this
    {
      Seat(tradeState, Chosen(tradePartner), tradeItem)
    }
  }

  // ----- The items change hands

  /** Asks whether an item could be added, which changes nothing. */
  method TestAdd(toCylinder: Item, item: Item, ghost s: set<Item>, ghost rank: map<Item, nat>, ghost w: World<Item>)
    returns (ret: ReturnValue)
    requires w == WorldOf(s, rank) && Sound(w) && Stacked(w.f) && toCylinder in s && toCylinder.holder && item in s
    modifies s
    ensures WorldOf(s, rank) == w && ret == AddAnswer(w, toCylinder, WHEREEVER, item, TEST_FLAGS)
  {
    var remainderCount;
    ghost var s', rank';
    ret, remainderCount, s', rank' := InternalAddItem(toCylinder, item, WHEREEVER, TEST_FLAGS, true, s, rank, w);
    assert s' == Snap(s').Keys == s;
  }

  /** Asks whether an item could be removed. */
  method TestRemove(item: Item, ghost s: set<Item>) returns (ret: ReturnValue)
    requires item in s && Linked(Snap(s))
    ensures ret == NoError <==> MayRemove(Snap(s), item)
  {
    var cylinder := item.parent;
    if cylinder == null {
      return NotPossible;
    }
    assert Held(Snap(s), item);
    ret := cylinder.QueryRemove(item, item.count, REMOVE_FLAGS, s);
  }

  /** All that is asked before anything is moved. */
  method TestTrade(d: Deal<Item>, ghost s: set<Item>, ghost rank: map<Item, nat>, ghost w: World<Item>)
    returns (ok: bool)
    requires w == WorldOf(s, rank) && Proper(w, d)
    modifies s
    ensures WorldOf(s, rank) == w && ok == Passes(w, d)
  {
    hide AddAnswer, Linked, Ranked, Weighed, StackOk;
    var ret1 := TestAdd(d.partner, d.x, s, rank, w);
    var ret2 := TestAdd(d.player, d.y, s, rank, w);
    if ret1 != NoError || ret2 != NoError {
      return false;
    }
    ret1 := TestRemove(d.x, s);
    ret2 := TestRemove(d.y, s);
    ok := ret1 == NoError && ret2 == NoError;
  }

  /** The first item goes to the partner. */
  method MoveFirst(d: Deal<Item>, ghost s: set<Item>, ghost rank: map<Item, nat>, ghost w: World<Item>)
    returns (ret: ReturnValue, ghost s': set<Item>, ghost rank': map<Item, nat>, ghost fresh': Item,
             ghost w1: World<Item>)
    requires w == WorldOf(s, rank) && Proper(w, d) && Passes(w, d)
    modifies s
    ensures s <= s' && fresh(s' - s) && w1 == WorldOf(s', rank')
    ensures NewFor(w, d.x, FirstPlan(w, d), fresh') && (w1, ret) == FirstMove(w, d, fresh')
    ensures ret == NoError ==> Left(w, d, w1) && Proper(w1, d)
  {
    hide MoveItem, AddAnswer, Linked, Ranked, Weighed, StackOk, MovePlan, Above;
    var cylinder1 := d.x.parent;
    var moveItem;
    ret, moveItem, s', rank' :=
      InternalMoveItem(cylinder1, d.partner, WHEREEVER, d.x, d.x.count, MOVE_FLAGS, d.y, s, rank);
    w1, fresh' := WorldOf(s', rank'), moveItem;
    FirstIff(w, d, fresh');
    if ret == NoError {
      SecondReady(w, d, fresh', w1);
    }
  }

  /** The second item goes to the player, from where it was before the first was moved. */
  method MoveSecond(d: Deal<Item>, cylinder2: Item, ghost s: set<Item>, ghost rank: map<Item, nat>,
        ghost w: World<Item>, ghost w1: World<Item>)
    returns (ret: ReturnValue, ghost s': set<Item>, ghost rank': map<Item, nat>, ghost fresh': Item)
    requires Proper(w, d) && Passes(w, d) && w.f[d.y].parent == Some(cylinder2)
    requires w1 == WorldOf(s, rank) && Left(w, d, w1) && Proper(w1, d)
    modifies s
    ensures s <= s' && fresh(s' - s)
    ensures NewFor(w1, d.y, SecondPlan(w, d, w1), fresh')
    ensures (WorldOf(s', rank'), ret) == SecondMove(w, d, w1, fresh')
  {
    hide MoveItem, AddAnswer, Linked, Ranked, Weighed, StackOk, MovePlan, Above;
    var moveItem;
    ret, moveItem, s', rank' :=
      InternalMoveItem(cylinder2, d.player, WHEREEVER, d.y, d.y.count, MOVE_FLAGS, null, s, rank);
    fresh' := moveItem;
  }

  /** Both items change hands, or one, or none; what the second move returns is not looked at. */
  method MoveItems(d: Deal<Item>, ghost s: set<Item>, ghost rank: map<Item, nat>, ghost w: World<Item>)
    returns (ghost s': set<Item>, ghost rank': map<Item, nat>, ghost course: Course<Item>)
    requires w == WorldOf(s, rank) && Proper(w, d)
    modifies s
    ensures s <= s' && fresh(s' - s) && Exchanged(w, d, course, WorldOf(s', rank'))
  {
    hide Linked, Ranked, Weighed, StackOk, FirstMove, SecondMove, Left, NewFor, FirstPlan, SecondPlan, Passes;
    s', rank', course := s, rank, Course(Nothing, w, d.x, d.y);
    var ok := TestTrade(d, s, rank, w);
    if ok {
      var cylinder2 := SecondParent(d, s, rank, w);
      var ret;
      ghost var fresh1, fresh2, w1;
      ret, s', rank', fresh1, w1 := MoveFirst(d, s, rank, w);
      course := Course(Nothing, w1, fresh1, d.y);
      if ret == NoError {
        ret, s', rank', fresh2 := MoveSecond(d, cylinder2, s', rank', w, w1);
        course := Course(if ret == NoError then Both else OnlyFirst, w1, fresh1, fresh2);
      }
    }
  }

  method SecondParent(d: Deal<Item>, ghost s: set<Item>, ghost rank: map<Item, nat>, ghost w: World<Item>)
    returns (cylinder2: Item)
    requires w == WorldOf(s, rank) && Proper(w, d) && Passes(w, d)
    ensures w.f[d.y].parent == Some(cylinder2)
  {
    cylinder2 := d.y.parent;
  }

  // ----- Items that do not lie in each other

  /** Whether one item is the other or holds it, however deep. */
  ghost predicate Related(w: World<Item>, i: Item, j: Item)
    requires Ranked(w.f, w.rank) && i in w.f && j in w.f
  {
    Above(w.f, w.rank, i, j) || Above(w.f, w.rank, j, i)
  }

  /** No item of a set lies in another. */
  ghost predicate Apart(w: World<Item>, items: set<Item>)
    requires Ranked(w.f, w.rank) && items <= w.f.Keys
  {
    forall i, j {:trigger Above(w.f, w.rank, i, j)} ::
      i in items && j in items && i != j ==> !Above(w.f, w.rank, i, j)
  }

  /** What holds nothing has nothing inside. */
  lemma {:induction false} OnlyHolders(w: World<Item>, i: Item, j: Item)
    requires Linked(w.f) && Ranked(w.f, w.rank) && j in w.f && i != j && Above(w.f, w.rank, i, j)
    ensures i in w.f && w.f[i].holder
    decreases w.rank[j]
  {
    assert Below(w.f, w.rank, j) && Held(w.f, j);
    var p := w.f[j].parent.value;
    if i == p {
      assert Holds(w.f, p);
    } else {
      OnlyHolders(w, i, p);
    }
  }

  lemma {:induction false} ItselfRelated(w: World<Item>, item: Item)
    requires Ranked(w.f, w.rank) && item in w.f
    ensures Related(w, item, item)
  {
  }

  lemma {:induction false} MoreApart(w: World<Item>, offered: set<Item>, item: Item)
    requires Ranked(w.f, w.rank) && item in w.f && offered <= w.f.Keys && Apart(w, offered)
    requires forall i :: i in offered ==> !Related(w, i, item)
    ensures Apart(w, offered + {item})
  {
    forall i, j {:trigger Above(w.f, w.rank, i, j)} | i in offered + {item} && j in offered + {item} && i != j
      ensures !Above(w.f, w.rank, i, j)
    {
      assert i == item || !Related(w, i, item);
      assert j == item || !Related(w, j, item);
    }
  }

  // ----- The state of all trades and items

  ghost function Chosen(partner: Player?): Option<Player>
  {
    var chosen: Option<Player> := if partner == null then None else Some(partner);
    chosen
  }

  ghost function WithSeat(b: Book<Player, Item>, p: Player, seat: Seat<Player, Item>): Book<Player, Item>
  {
    Book(b.offers, b.seats[p := seat])
  }

  datatype State = State(book: Book<Player, Item>, world: World<Item>)

  /** What a player may offer: something free, with at most 100 items counting what it holds. */
  ghost predicate Offerable(st: State, item: Item)
    requires Sound(st.world) && st.book.offers.Keys <= st.world.f.Keys && item in st.world.f
  {
    && st.world.f[item].kind.pickupable && (forall i :: i in st.book.offers ==> !Related(st.world, i, item))
    && |Descendants(st.world.f, st.world.rank, item)| + 1 <= 100
  }

  /** The trades are in order, the items offered lie in the forest and not in each other, and every player has a
      place of their own to receive in. */
  ghost predicate Fit(st: State)
  {
    && Sane(st.book) && Sound(st.world) && Stacked(st.world.f)
    && st.book.offers.Keys <= st.world.f.Keys && Apart(st.world, st.book.offers.Keys)
    && (forall p :: p in st.book.seats ==> p.inventory in st.world.f && st.world.f[p.inventory].holder)
    && (forall p, q :: p in st.book.seats && q in st.book.seats && p.inventory == q.inventory ==> p == q)
  }

  ghost function DealOf(b: Book<Player, Item>, p: Player, a: Answers): Deal<Item>
    requires p in b.seats && Trades(b, p, a)
  {
    var q := b.seats[p].partner.value;
    Deal(p.inventory, q.inventory, b.seats[p].item.value, b.seats[q].item.value)
  }

  /** Two players who trade have two items and two places to receive in. */
  lemma {:induction false} DealProper(st: State, p: Player, a: Answers)
    requires Fit(st) && p in st.book.seats && Trades(st.book, p, a)
    ensures Proper(st.world, DealOf(st.book, p, a))
    ensures DealOf(st.book, p, a).x in st.book.offers && DealOf(st.book, p, a).y in st.book.offers
  {
    assert Fine(st.book, p) && Fine(st.book, st.book.seats[p].partner.value);
  }

  /** What is granted to one who asks to trade. */
  ghost predicate Granted(st: State, player: Player, partner: Player, item: Item, allowed: bool)
    requires Fit(st) && player in st.book.seats && partner in st.book.seats && item in st.world.f
  {
    partner != player && Offerable(st, item) && allowed && MayOffer(st.book, player, partner)
  }

  lemma {:induction false} OfferFit(st: State, player: Player, partner: Player, item: Item, allowed: bool)
    requires Fit(st) && player in st.book.seats && partner in st.book.seats && item in st.world.f
    requires Granted(st, player, partner, item, allowed)
    ensures item !in st.book.offers && Fit(State(Offer(st.book, player, partner, item), st.world))
  {
    hide Linked, Ranked, Weighed, Stacked, Above, Apart, Related, Sane, Descendants;
    ItselfRelated(st.world, item);
    OfferSane(st.book, player, partner, item);
    MoreApart(st.world, st.book.offers.Keys, item);
    var g := Offer(st.book, player, partner, item);
    assert g.offers.Keys == st.book.offers.Keys + {item} && g.seats.Keys == st.book.seats.Keys;
  }

  lemma {:induction false} FewerFit(st: State, g: Book<Player, Item>)
    requires Fit(st) && Sane(g) && g.offers.Keys <= st.book.offers.Keys && g.seats.Keys == st.book.seats.Keys
    ensures Fit(State(g, st.world))
  {
    hide Linked, Ranked, Weighed, Stacked, Above, Sane;
  }

  /** Once the items of a deal are no longer offered, those that are still do not lie in each other. */
  lemma {:induction false} DealFit(st: State, d: Deal<Item>, c: Course<Item>, w: World<Item>, g: Book<Player, Item>)
    requires Fit(st) && Proper(st.world, d) && Exchanged(st.world, d, c, w)
    requires d.x in st.book.offers && d.y in st.book.offers
    requires Sane(g) && g.seats.Keys == st.book.seats.Keys && g.offers.Keys <= st.book.offers.Keys - {d.x, d.y}
    ensures Fit(State(g, w))
  {
    hide Above, Linked, Ranked, Weighed, StackOk, Exchanged, Sane;
    ExchangeKeeps(st.world, d, c, w);
    forall i, j {:trigger Above(w.f, w.rank, i, j)} | i in g.offers && j in g.offers && i != j
      ensures !Above(w.f, w.rank, i, j)
    {
      assert !Above(st.world.f, st.world.rank, i, j);
      assert !Above(st.world.f, st.world.rank, d.x, j) && !Above(st.world.f, st.world.rank, d.y, j);
    }
  }

  /** What an acceptance comes to: what becomes of the trades, and of the forest, which only a deal changes. Both items
      change hands exactly if all tests pass and each item has a place to go. */
  ghost predicate Agreed(st: State, p: Player, a: Answers, closed: seq<Player>, change: Change<Item>, st': State)
    requires p in st.book.seats && forall k :: 0 <= k < |closed| ==> closed[k] in st.book.seats
  {
    && st'.book == Accept(st.book, p, a, closed) && Follows(st.world, change, st'.world)
    && change.Swap? == Trades(st.book, p, a)
    && (change.Swap? ==>
          && change.deal == DealOf(st.book, p, a)
          && (change.course.outcome == Both <==>
                Passes(st.world, change.deal) && FirstFits(st.world, change.deal) && SecondFits(st.world, change.deal)))
  }

  lemma {:induction false} AgreedFit(st: State, p: Player, a: Answers, closed: seq<Player>, change: Change<Item>,
        st': State)
    requires Fit(st) && p in st.book.seats && forall k :: 0 <= k < |closed| ==> closed[k] in st.book.seats
    requires st'.book == Accept(st.book, p, a, closed) && Follows(st.world, change, st'.world)
    requires change.Swap? == Trades(st.book, p, a) && (change.Swap? ==> change.deal == DealOf(st.book, p, a))
    ensures Fit(st') && Agreed(st, p, a, closed, change, st')
  {
    hide Fit, Linked, Ranked, Weighed, Stacked, Sane, Apart, Exchanged, Accept, Passes, FirstFits, SecondFits;
    FitGives(st);
    AcceptSane(st.book, p, a, closed);
    if change.Swap? {
      DealProper(st, p, a);
      SwappedIff(st.world, change.deal, change.course, st'.world);
      DealFit(st, change.deal, change.course, st'.world, st'.book);
    } else {
      FewerFit(st, st'.book);
    }
  }

  lemma {:induction false} KeptFit(st: State, p: Player, a: Answers, closed: seq<Player>)
    requires Fit(st) && p in st.book.seats && forall k :: 0 <= k < |closed| ==> closed[k] in st.book.seats
    ensures Follows(st.world, Idle, st.world)
    ensures !Accepts(st.book, p, a) ==> Agreed(st, p, a, closed, Idle, st)
  {
    hide Fit;
  }

  lemma {:induction false} FitGives(st: State)
    requires Fit(st)
    ensures Sane(st.book) && Sound(st.world) && st.book.offers.Keys <= st.world.f.Keys
  {
  }

  // ----- What players do

  /** To offer the item found by a way through containers, to accept, or to end one's trade. */
  datatype Event =
    | Requested(player: Player, partner: Player, root: Item, route: seq<nat>, allowed: bool)
    | Accepted(player: Player, answers: Answers, closed: seq<Player>)
    | Closed(player: Player)

  /** Where a way through containers leads. */
  ghost function Found(f: Forest<Item>, root: Item, route: seq<nat>): (found: Option<Item>)
    requires Linked(f) && root in f
    ensures found.Some? ==> found.value in f
  {
    assert Holds(f, root);
    if route == [] then Some(root)
    else if route[0] >= |f[root].list| then None
    else Found(f, f[root].list[route[0]], route[1..])
  }

  ghost predicate Present(e: Event, st: State)
  {
    && e.player in st.book.seats && (e.Requested? ==> e.partner in st.book.seats && e.root in st.world.f)
    && (e.Accepted? ==> forall k :: 0 <= k < |e.closed| ==> e.closed[k] in st.book.seats)
  }

  /** What an event makes of the trades and of the forest. */
  ghost predicate Told(e: Event, st: State, change: Change<Item>, st': State)
  {
    && Fit(st) && Present(e, st)
    && match e
       case Requested(player, partner, root, route, allowed) =>
         var found := Found(st.world.f, root, route);
         && change == Idle && st'.world == st.world
         && st'.book == (if found.Some? && Granted(st, player, partner, found.value, allowed)
                         then Offer(st.book, player, partner, found.value) else st.book)
       case Accepted(player, answers, closed) => Agreed(st, player, answers, closed, change, st')
       case Closed(player) => change == Idle && st' == State(Close(st.book, player), st.world)
  }

  /** Whatever is traded, all containers together hold as many units of each kind at the end as at the start. */
  lemma {:induction false} RunKeeps(events: seq<Event>, trace: seq<State>, changes: seq<Change<Item>>, l: seq<Item>,
        kind: Kind)
    requires |trace| == |events| + 1 && |changes| == |events| && Fit(trace[0]) && AllHolders(trace[0].world.f, l)
    requires forall k :: 0 <= k < |events| ==> Told(events[k], trace[k], changes[k], trace[k + 1])
    ensures var f := trace[|events|].world.f;
      Linked(f) && AllHolders(f, l) && InAll(f, l, kind) == InAll(trace[0].world.f, l, kind)
    decreases |events|
  {
    hide Told, Fit, AllHolders, InAll, Linked, Ranked, Weighed;
    FitGives(trace[0]);
    if events != [] {
      var n := |events| - 1;
      assert Told(events[n], trace[n], changes[n], trace[n + 1]);
      RunKeeps(events[..n], trace[..n + 1], changes[..n], l, kind);
      EventKeeps(events[n], trace[n], changes[n], trace[n + 1], l, kind);
    }
  }

  lemma {:induction false} EventKeeps(e: Event, st: State, change: Change<Item>, st': State, l: seq<Item>, kind: Kind)
    requires Told(e, st, change, st') && AllHolders(st.world.f, l)
    ensures Sound(st.world) && Sound(st'.world) && AllHolders(st'.world.f, l)
    ensures InAll(st'.world.f, l, kind) == InAll(st.world.f, l, kind)
  {
    hide Fit, Exchanged, Accept, Granted, Found, AllHolders, InAll, Linked, Ranked, Weighed;
    FitGives(st);
    if change.Swap? {
      ExchangeTotal(st.world, change.deal, change.course, st'.world, l, kind);
    }
  }

  // ----- Trades come about

  /** Two players who do not trade, and two items that may be offered and do not lie in each other. */
  ghost predicate MayTrade(st: State, p: Player, q: Player, x: Item, y: Item)
    requires Fit(st)
  {
    && p in st.book.seats && q in st.book.seats && p != q && st.book.seats[p].state == st.book.seats[q].state == NONE
    && x in st.world.f && y in st.world.f && Offerable(st, x) && Offerable(st, y) && !Related(st.world, x, y)
  }

  /** Both offers are granted, and nothing moves yet. */
  lemma {:induction false} OffersGranted(e: Event, e': Event, st: State, st1: State, st2: State,
        c: Change<Item>, c': Change<Item>, x: Item, y: Item)
    requires Fit(st) && e.Requested? && e'.Requested? && e.allowed && e'.allowed
    requires e'.player == e.partner && e'.partner == e.player && MayTrade(st, e.player, e.partner, x, y)
    requires Told(e, st, c, st1) && Told(e', st1, c', st2)
    requires Found(st.world.f, e.root, e.route) == Some(x) && Found(st.world.f, e'.root, e'.route) == Some(y)
    ensures c == c' == Idle && st1.world == st2.world == st.world
    ensures st2.book == Offer(Offer(st.book, e.player, e.partner, x), e.partner, e.player, y)
  {
    hide Above, Linked, Ranked, Weighed, Stacked, Apart, Found, Offer, Sane, MayOffer;
    Unseated(st.book, e.player);
    Unseated(st.book, e.partner);
    BothOffered(st.book, e.player, e.partner, x, y);
    assert Granted(st, e.player, e.partner, x, true);
    assert st1.world == st.world && st1.book == Offer(st.book, e.player, e.partner, x);
    OneMoreOffered(st, e.player, e.partner, x, y);
    assert Granted(st1, e.partner, e.player, y, true);
  }

  lemma {:induction false} Unseated(b: Book<Player, Item>, p: Player)
    requires Sane(b) && p in b.seats && b.seats[p].state == NONE
    ensures b.seats[p] == Seat(NONE, None, None)
  {
    assert Fine(b, p);
  }

  lemma {:induction false} OneMoreOffered(st: State, p: Player, q: Player, x: Item, y: Item)
    requires Fit(st) && MayTrade(st, p, q, x, y)
    ensures var g := State(Offer(st.book, p, q, x), st.world);
      g.book.offers.Keys <= st.world.f.Keys && g.book.seats.Keys == st.book.seats.Keys && Offerable(g, y)
  {
    hide Above, Linked, Ranked, Weighed, Stacked, Apart, Sane;
  }

  /** Whenever two players who do not trade offer to each other and both accept, in whatever order, with reach and
      leave, there is a deal over just these items: both are free again, nothing of theirs is offered, and the items
      have changed hands exactly if all tests pass and each has a place to go. */
  lemma {:induction false} TradeHappens(events: seq<Event>, trace: seq<State>, changes: seq<Change<Item>>, x: Item,
        y: Item)
    requires |events| == |changes| == 4 && |trace| == 5 && Fit(trace[0])
    requires forall k :: 0 <= k < 4 ==> Told(events[k], trace[k], changes[k], trace[k + 1])
    requires events[0].Requested? && events[0].allowed && events[1].Requested? && events[1].allowed
    requires events[1].player == events[0].partner && events[1].partner == events[0].player
    requires events[2].Accepted? && events[2].answers == YES && events[3].Accepted? && events[3].answers == YES
    requires {events[2].player, events[3].player} == {events[0].player, events[1].player}
    requires MayTrade(trace[0], events[0].player, events[0].partner, x, y)
    requires events[0].root in trace[0].world.f
    requires Found(trace[0].world.f, events[0].root, events[0].route) == Some(x)
    requires events[1].root in trace[0].world.f
    requires Found(trace[0].world.f, events[1].root, events[1].route) == Some(y)
    ensures changes[0] == changes[1] == changes[2] == Idle && trace[3].world == trace[0].world && changes[3].Swap?
    ensures var p, q, d, w := events[0].player, events[0].partner, changes[3].deal, trace[0].world;
      && d == (if events[3].player == q then Deal(q.inventory, p.inventory, y, x)
               else Deal(p.inventory, q.inventory, x, y))
      && Proper(w, d) && Exchanged(w, d, changes[3].course, trace[4].world)
      && (changes[3].course.outcome == Both <==> Passes(w, d) && FirstFits(w, d) && SecondFits(w, d))
      && p in trace[4].book.seats && q in trace[4].book.seats
      && trace[4].book.seats[p].state == trace[4].book.seats[q].state == NONE
      && x !in trace[4].book.offers && y !in trace[4].book.offers
  {
    hide Fit, Offer, MayTrade, Found, Exchanged, Passes, FirstFits, SecondFits, Accept, Sane;
    var p, q := events[0].player, events[0].partner;
    assert Told(events[0], trace[0], changes[0], trace[1]) && Told(events[1], trace[1], changes[1], trace[2]);
    assert Told(events[2], trace[2], changes[2], trace[3]) && Told(events[3], trace[3], changes[3], trace[4]);
    OffersGranted(events[0], events[1], trace[0], trace[1], trace[2], changes[0], changes[1], x, y);
    OffersSeated(trace[0], p, q, x, y);
    var first, second := events[2].player, events[3].player;
    assert first != second;
    BothAccepted(trace[2].book, first, second, if first == p then x else y, if first == p then y else x,
                 events[2].closed);
    FitGives(trace[3]);
    AcceptSane(trace[3].book, second, YES, events[3].closed);
  }

  lemma {:induction false} OffersSeated(st: State, p: Player, q: Player, x: Item, y: Item)
    requires Fit(st) && MayTrade(st, p, q, x, y)
    ensures p != q && p in st.book.seats && q in st.book.seats
    ensures var g := Offer(Offer(st.book, p, q, x), q, p, y);
      && g.seats.Keys == st.book.seats.Keys
      && g.seats[p] == Seat(INITIATED, Some(q), Some(x)) && g.seats[q] == Seat(INITIATED, Some(p), Some(y))
  {
    Unseated(st.book, p);
    Unseated(st.book, q);
    BothOffered(st.book, p, q, x, y);
  }

  // ----- The trades

  class Game {
    /** The items offered, each with the player who offers it. */
    var tradeItems: map<Item, Player>
    ghost const players: set<Player>

    constructor (ghost players: set<Player>)
      requires forall p :: p in players ==> p.SeatOf() == Seat(NONE, None, None)
      ensures this.players == players && tradeItems == map[] && Sane(BookOf())
    {
      this.players, tradeItems := players, map[];
    }

    ghost function BookOf(): (b: Book<Player, Item>)
      reads this`tradeItems, players
      ensures b.seats.Keys == players
    {
      Book(tradeItems, map p | p in players :: p.SeatOf())
    }

    ghost function StateOf(s: set<Item>, rank: map<Item, nat>): State
      reads this`tradeItems, players, s
    {
      State(BookOf(), WorldOf(s, rank))
    }

    /** Whether an item is, holds or lies in another one that is offered. */
    method Touches(item: Item, offered: Item, ghost s: set<Item>, ghost rank: map<Item, nat>) returns (r: bool)
      requires item in s && offered in s && Linked(Snap(s)) && Ranked(Snap(s), rank)
      ensures r == Related(WorldOf(s, rank), offered, item)
    {
      if item == offered {
        return true;
      }
      if item.holder {
        r := IsHoldingItem(item, offered, s, rank);
        if r {
          return;
        }
      } else if Above(Snap(s), rank, item, offered) {
        OnlyHolders(WorldOf(s, rank), item, offered);
      }
      if offered.holder {
        r := IsHoldingItem(offered, item, s, rank);
      } else {
        r := false;
        if Above(Snap(s), rank, offered, item) {
          OnlyHolders(WorldOf(s, rank), offered, item);
        }
      }
    }

    /** Whether an item is free to be offered: neither it nor anything it holds or lies in is. */
    method Free(item: Item, ghost s: set<Item>, ghost rank: map<Item, nat>) returns (free: bool)
      requires tradeItems.Keys <= s && item in s && Linked(Snap(s)) && Ranked(Snap(s), rank)
      ensures free <==> forall i :: i in tradeItems ==> !Related(WorldOf(s, rank), i, item)
    {
      ghost var w := WorldOf(s, rank);
      var left := tradeItems.Keys;
      while left != {}
        invariant left <= tradeItems.Keys
        invariant forall i :: i in tradeItems && i !in left ==> !Related(w, i, item)
        decreases left
      {
        var i :| i in left;
        var touches := Touches(item, i, s, rank);
        if touches {
          return false;
        }
        left := left - {i};
      }
      return true;
    }

    method CountItems(item: Item, ghost s: set<Item>, ghost rank: map<Item, nat>) returns (count: nat)
      requires item in s && Linked(Snap(s)) && Ranked(Snap(s), rank)
      ensures count == |Descendants(Snap(s), rank, item)|
    {
      if item.holder {
        count := GetItemHoldingCount(item, s, rank);
      } else {
        forall i | i in Descendants(Snap(s), rank, item) ensures false {
          OnlyHolders(WorldOf(s, rank), item, i);
        }
        assert Descendants(Snap(s), rank, item) == {};
        count := 0;
      }
    }

    method MayBeOffered(item: Item, ghost s: set<Item>, ghost rank: map<Item, nat>, ghost st: State)
      returns (may: bool)
      requires st == StateOf(s, rank) && Fit(st) && item in s
      ensures may == Offerable(st, item)
    {
      hide Weighed, Above, Descendants, Related, Sane;
      if !item.kind.pickupable {
        return false;
      }
      may := Free(item, s, rank);
      if may {
        var count := CountItems(item, s, rank);
        may := count + 1 <= 100;
      }
    }

    /** A player offers an item to another. */
    method RequestTrade(player: Player, partner: Player, item: Item, allowed: bool, ghost s: set<Item>,
          ghost rank: map<Item, nat>, ghost st: State)
      returns (ok: bool)
      requires st == StateOf(s, rank) && Fit(st) && player in players && partner in players && item in s
      modifies this`tradeItems, players
      ensures Fit(State(BookOf(), st.world)) && ok == Granted(st, player, partner, item, allowed)
      ensures BookOf() == if ok then Offer(st.book, player, partner, item) else st.book
    {
      hide Linked, Ranked, Weighed, Stacked, Above, Apart, Related, Sane, Offer, Descendants, Offerable;
      if partner == player {
        return false;
      }
      var may := MayBeOffered(item, s, rank, st);
      if !may || !allowed {
        return false;
      }
      ok := InternalStartTrade(player, partner, item);
      if ok {
        OfferFit(st, player, partner, item, allowed);
      }
    }

    method InternalStartTrade(player: Player, partner: Player, item: Item) returns (ok: bool)
      requires player in players && partner in players && partner != player
      modifies this`tradeItems, player, partner
      ensures ok == old(MayOffer(BookOf(), player, partner))
      ensures BookOf() == if ok then Offer(old(BookOf()), player, partner, item) else old(BookOf())
    {
      if player.tradeState != NONE && !(player.tradeState == ACKNOWLEDGE && player.tradePartner == partner) {
        return false;
      } else if partner.tradeState != NONE && partner.tradePartner != player {
        return false;
      }
      hide BookOf;
      Sit(player, INITIATED, partner, Some(item));
      List(item, player);
      if partner.tradeState == NONE {
        Sit(partner, ACKNOWLEDGE, player, partner.tradeItem);
      }
      return true;
    }

    method Sit(player: Player, state: TradeState, partner: Player?, item: Option<Item>)
      requires player in players
      modifies player
      ensures player.SeatOf() == Seat(state, Chosen(partner), item)
      ensures BookOf() == WithSeat(old(BookOf()), player, Seat(state, Chosen(partner), item))
    {
      player.tradeState, player.tradePartner, player.tradeItem := state, partner, item;
    }

    method List(item: Item, player: Player)
      modifies this`tradeItems
      ensures BookOf() == Book(old(BookOf()).offers[item := player], old(BookOf()).seats)
    {
      tradeItems := tradeItems[item := player];
    }

    /** Strikes an item off the list of those offered, if it is there. */
    method Strike(item: Option<Item>)
      modifies this`tradeItems
      ensures BookOf() == Book(Struck(old(BookOf()).offers, item), old(BookOf()).seats)
    {
      if item.Some? && item.value in tradeItems {
        tradeItems := tradeItems - {item.value};
      }
    }

    method Release(player: Player)
      requires player in players
      modifies this`tradeItems, player
      ensures BookOf() == Leave(old(BookOf()), player)
    {
      Seated(player);
      hide BookOf;
      Strike(player.tradeItem);
      Sit(player, NONE, null, None);
    }

    lemma {:induction false} Seated(player: Player)
      requires player in players
      ensures BookOf().seats[player] == player.SeatOf()
    {
    }

    /** Ends a trade for both partners; while the items are being moved, it does nothing. */
    method InternalCloseTrade(player: Player)
      requires player in players && Sane(BookOf())
      modifies this`tradeItems, players
      ensures Sane(BookOf()) && BookOf() == Close(old(BookOf()), player)
      ensures tradeItems.Keys <= old(tradeItems.Keys)
    {
      hide Sane, Leave;
      ghost var b := BookOf();
      CloseSane(b, player);
      PartnerSits(b, player);
      var partner := player.tradePartner;
      if (partner != null && partner.tradeState == TRANSFER) || player.tradeState == TRANSFER {
        return;
      }
      Release(player);
      if partner != null {
        Release(partner);
      }
    }

    lemma {:induction false} PartnerSits(b: Book<Player, Item>, p: Player)
      requires Sane(b) && p in b.seats
      ensures b.seats[p].partner.Some? ==> b.seats[p].partner.value in b.seats && b.seats[p].partner.value != p
    {
      assert Fine(b, p);
    }

    /** Both have accepted. */
    method BeginTransfer(player: Player, partner: Player)
      requires player in players && partner in players && partner != player
      modifies this`tradeItems, player, partner
      ensures unchanged(player`tradeItem) && unchanged(partner`tradeItem)
      ensures BookOf() == Begin(old(BookOf()), player, partner)
    {
      Seated(player);
      Seated(partner);
      hide BookOf;
      Sit(player, TRANSFER, player.tradePartner, player.tradeItem);
      Sit(partner, TRANSFER, partner.tradePartner, partner.tradeItem);
      Strike(player.tradeItem);
      Strike(partner.tradeItem);
    }

    method EndTransfer(player: Player, partner: Player)
      requires player in players && partner in players
      modifies player, partner
      ensures BookOf() == End(old(BookOf()), player, partner)
    {
      hide BookOf;
      Sit(player, NONE, null, None);
      Sit(partner, NONE, null, None);
    }

    /** What the moving of items brings about elsewhere: any number of trades are told to close. */
    method Callbacks(closed: seq<Player>)
      requires Sane(BookOf()) && forall k :: 0 <= k < |closed| ==> closed[k] in players
      modifies this`tradeItems, players
      ensures BookOf() == CloseAll(old(BookOf()), closed)
    {
      hide Sane, Close;
      ghost var b := BookOf();
      assert closed[..0] == [];
      for k := 0 to |closed|
        invariant Sane(BookOf()) && BookOf() == CloseAll(b, closed[..k])
      {
        InternalCloseTrade(closed[k]);
        assert closed[..k + 1][..k] == closed[..k];
      }
      assert closed[..|closed|] == closed;
    }

    /** Moves the items if both have offered one. */
    method MoveOffered(player: Player, partner: Player, ghost a: Answers, ghost s: set<Item>,
          ghost rank: map<Item, nat>, ghost st: State)
      returns (ghost s': set<Item>, ghost rank': map<Item, nat>, ghost change: Change<Item>)
      requires Fit(st) && st.world == WorldOf(s, rank) && player in st.book.seats
      requires Ends(st.book, player, a) && a.allowed && st.book.seats[player].partner == Some(partner)
      requires st.book.seats[player].item == player.tradeItem && st.book.seats[partner].item == partner.tradeItem
      modifies s
      ensures s <= s' && fresh(s' - s) && Follows(st.world, change, WorldOf(s', rank'))
      ensures change.Swap? == Trades(st.book, player, a)
      ensures change.Swap? ==> change.deal == DealOf(st.book, player, a)
    {
      hide Fit, Exchanged;
      FitGives(st);
      s', rank', change := s, rank, Idle;
      if player.tradeItem.Some? && partner.tradeItem.Some? {
        DealProper(st, player, a);
        var d := Deal(player.inventory, partner.inventory, player.tradeItem.value, partner.tradeItem.value);
        ghost var course;
        s', rank', course := MoveItems(d, s, rank, st.world);
        change := Swap(d, course);
      }
    }

    /** Moves the items, tells other trades to close, and ends this one. */
    method Transfer(player: Player, partner: Player, closed: seq<Player>, ghost a: Answers, ghost s: set<Item>,
          ghost rank: map<Item, nat>, ghost st: State)
      returns (ghost s': set<Item>, ghost rank': map<Item, nat>, ghost change: Change<Item>)
      requires st == StateOf(s, rank) && Fit(st) && player in players && player.tradePartner == partner
      requires Ends(st.book, player, a) && a.allowed && forall k :: 0 <= k < |closed| ==> closed[k] in players
      modifies this`tradeItems, players, s
      ensures s <= s' && fresh(s' - s) && Follows(st.world, change, WorldOf(s', rank'))
      ensures BookOf() == End(CloseAll(Begin(st.book, player, partner), closed), player, partner)
      ensures change.Swap? == Trades(st.book, player, a)
      ensures change.Swap? ==> change.deal == DealOf(st.book, player, a)
    {
      hide Fit, Sane, CloseAll, Begin, End, Follows, Trades, Ends, DealOf, WorldOf, Snap;
      FitGives(st);
      Seated(player);
      PartnerSits(st.book, player);
      Seated(partner);
      hide BookOf;
      BeginSane(st.book, player, a);
      BeginTransfer(player, partner);
      s', rank', change := MoveOffered(player, partner, a, s, rank, st);
      CloseAndEnd(player, partner, closed);
    }

    method CloseAndEnd(player: Player, partner: Player, closed: seq<Player>)
      requires player in players && partner in players
      requires Sane(BookOf()) && forall k :: 0 <= k < |closed| ==> closed[k] in players
      modifies this`tradeItems, players
      ensures BookOf() == End(CloseAll(old(BookOf()), closed), player, partner)
    {
      hide Sane, CloseAll, End, BookOf;
      Callbacks(closed);
      EndTransfer(player, partner);
    }

    /** A player accepts. If the partner has accepted too, the trade ends, with the items moved or not. */
    method AcceptTrade(player: Player, answers: Answers, closed: seq<Player>, ghost s: set<Item>,
          ghost rank: map<Item, nat>, ghost st: State)
      returns (ghost s': set<Item>, ghost rank': map<Item, nat>, ghost change: Change<Item>)
      requires st == StateOf(s, rank) && Fit(st)
      requires player in players && forall k :: 0 <= k < |closed| ==> closed[k] in players
      modifies this`tradeItems, players, s
      ensures s <= s' && fresh(s' - s) && Fit(StateOf(s', rank'))
      ensures Agreed(st, player, answers, closed, change, StateOf(s', rank'))
    {
      hide Fit, Sane, Follows, CloseAll, Begin, End, Close, Agreed, DealOf, WorldOf;
      FitGives(st);
      KeptFit(st, player, answers, closed);
      s', rank', change := s, rank, Idle;
      PartnerSits(st.book, player);
      if !(player.tradeState == ACKNOWLEDGE || player.tradeState == INITIATED) {
        return;
      }
      var partner := player.tradePartner;
      if partner == null || !answers.reachable {
        return;
      }
      if partner.tradeState == ACCEPT {
        if !answers.allowed {
          InternalCloseTrade(player);
        } else {
          s', rank', change := Transfer(player, partner, closed, answers, s, rank, st);
        }
      } else {
        Sit(player, ACCEPT, player.tradePartner, player.tradeItem);
      }
      AgreedFit(st, player, answers, closed, change, StateOf(s', rank'));
    }

    // ----- Over every run

    /** The event names players of the game and an item of the forest to start from. */
    ghost predicate Known(e: Event, s: set<Item>)
    {
      && e.player in players && (e.Requested? ==> e.partner in players && e.root in s)
      && (e.Accepted? ==> forall k :: 0 <= k < |e.closed| ==> e.closed[k] in players)
    }

    method Find(root: Item, route: seq<nat>, ghost s: set<Item>) returns (item: Item?)
      requires root in s && Linked(Snap(s))
      ensures Maybe(item) == Found(Snap(s), root, route)
      ensures item != null ==> item in s
    {
      item := root;
      for i := 0 to |route|
        invariant item != null && item in s && Found(Snap(s), root, route) == Found(Snap(s), item, route[i..])
      {
        assert Holds(Snap(s), item);
        if route[i] >= |item.itemlist| {
          return null;
        }
        item := item.itemlist[route[i]];
      }
    }

    method HandleRequest(player: Player, partner: Player, root: Item, route: seq<nat>, allowed: bool, ghost e: Event,
          ghost s: set<Item>, ghost rank: map<Item, nat>, ghost st: State)
      requires e == Requested(player, partner, root, route, allowed)
      requires st == StateOf(s, rank) && Fit(st) && player in players && partner in players && root in s
      modifies this`tradeItems, players
      ensures Fit(State(BookOf(), st.world)) && Told(e, st, Idle, State(BookOf(), st.world))
    {
      hide Fit, Offer, Granted, Found, BookOf;
      FitGives(st);
      var item := Find(root, route, s);
      if item != null {
        var ok := RequestTrade(player, partner, item, allowed, s, rank, st);
      }
    }

    method HandleClose(player: Player, ghost e: Event, ghost s: set<Item>, ghost rank: map<Item, nat>, ghost st: State)
      requires e == Closed(player) && st == StateOf(s, rank) && Fit(st) && player in players
      modifies this`tradeItems, players
      ensures Fit(State(BookOf(), st.world)) && Told(e, st, Idle, State(BookOf(), st.world))
    {
      hide Fit, Sane, Close;
      FitGives(st);
      InternalCloseTrade(player);
      FewerFit(st, BookOf());
    }

    method Handle(e: Event, ghost s: set<Item>, ghost rank: map<Item, nat>, ghost st: State)
      returns (ghost s': set<Item>, ghost rank': map<Item, nat>, ghost change: Change<Item>)
      requires st == StateOf(s, rank) && Fit(st) && Known(e, s)
      modifies this`tradeItems, players, s
      ensures s <= s' && fresh(s' - s) && Fit(StateOf(s', rank'))
      ensures Told(e, st, change, StateOf(s', rank'))
    {
      hide Fit, Agreed, Granted, Found, BookOf, WorldOf;
      s', rank', change := s, rank, Idle;
      match e {
        case Requested(player, partner, root, route, allowed) =>
          HandleRequest(player, partner, root, route, allowed, e, s, rank, st);
        case Accepted(player, answers, closed) =>
          s', rank', change := AcceptTrade(player, answers, closed, s, rank, st);
        case Closed(player) =>
          HandleClose(player, e, s, rank, st);
      }
    }

    /** Whatever players do, and in whatever order, each event does what it should, and at any time every trade is
        between two, no item is offered twice, and none that is offered lies in another. */
    method Run(events: seq<Event>, ghost s: set<Item>, ghost rank: map<Item, nat>, ghost st: State)
      returns (ghost s': set<Item>, ghost rank': map<Item, nat>, ghost trace: seq<State>,
               ghost changes: seq<Change<Item>>)
      requires st == StateOf(s, rank) && Fit(st) && forall k :: 0 <= k < |events| ==> Known(events[k], s)
      modifies this`tradeItems, players, s
      ensures |trace| == |events| + 1 && |changes| == |events|
      ensures trace[0] == st && trace[|events|] == StateOf(s', rank')
      ensures forall k :: 0 <= k < |trace| ==> Fit(trace[k])
      ensures forall k :: 0 <= k < |events| ==> Told(events[k], trace[k], changes[k], trace[k + 1])
    {
      hide Fit, Told, StateOf;
      s', rank', trace, changes := s, rank, [st], [];
      for k := 0 to |events|
        invariant s <= s' && fresh(s' - s) && |trace| == k + 1 && |changes| == k
        invariant trace[0] == st && trace[k] == StateOf(s', rank')
        invariant forall i :: 0 <= i <= k ==> Fit(trace[i])
        invariant forall i :: 0 <= i < k ==> Told(events[i], trace[i], changes[i], trace[i + 1])
      {
        ghost var change;
        assert Known(events[k], s');
        s', rank', change := Handle(events[k], s', rank', trace[k]);
        trace, changes := trace + [StateOf(s', rank')], changes + [change];
      }
    }
  }
}
