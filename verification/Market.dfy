/** The market: offers to buy hold gold, offers to sell hold items, and whatever happens to an offer, gold and
    items only change hands. */
module Market {
  import opened Common

  type Ware = nat

  /** Items of one ware that lie in a player's depot or inbox. */
  datatype Stack = Stack(ware: Ware, count: nat)

  /** A row of the table of offers. */
  datatype Offer = Offer(player: nat, sell: bool, ware: Ware, amount: nat, price: nat)

  /** A row as it was when the expired offers were looked up, with its number. */
  datatype Row = Row(id: nat, offer: Offer)

  const MAX_AMOUNT := 64000
  const MAX_SINGLE_AMOUNT := 2000
  const MAX_PRICE := 999999999
  const MIN_FEE := 20
  const MAX_FEE := 1000
  const STACK := 100

  /** One hundredth of the price, at least 20 and at most 1000. */
  function Fee(price: nat, amount: nat): (fee: nat)
    ensures MIN_FEE <= fee <= MAX_FEE
    ensures MIN_FEE <= price * amount / 100 <= MAX_FEE ==> fee == price * amount / 100
  {
    var fee := price * amount / 100;
    if fee < MIN_FEE then MIN_FEE else if fee > MAX_FEE then MAX_FEE else fee
  }

  // ----- Sums

  function Sum(l: seq<nat>): nat
  {
    if l == [] then 0 else Sum(l[..|l| - 1]) + l[|l| - 1]
  }

  /** Gold went from one player, if any, to another, if any. */
  predicate Paid(b: seq<nat>, b': seq<nat>, payer: Option<nat>, payee: Option<nat>, gold: nat)
  {
    && |b'| == |b|
    && forall q {:trigger b'[q]} :: 0 <= q < |b| ==>
         b'[q] == b[q] + (if Some(q) == payee then gold else 0) - (if Some(q) == payer then gold else 0)
  }

  /** Whether a player is among the first `n`. */
  predicate Among(player: Option<nat>, n: nat)
  {
    player.Some? && player.value < n
  }

  lemma {:induction false} PaidSum(b: seq<nat>, b': seq<nat>, payer: Option<nat>, payee: Option<nat>, gold: nat)
    requires Paid(b, b', payer, payee, gold)
    ensures Sum(b') == Sum(b) + (if Among(payee, |b|) then gold else 0) - (if Among(payer, |b|) then gold else 0)
  {
    if b != [] {
      PaidSum(b[..|b| - 1], b'[..|b| - 1], payer, payee, gold);
    }
  }

  function Held(l: seq<Stack>, w: Ware): nat
  {
    if l == [] then 0 else Held(l[..|l| - 1], w) + if l[|l| - 1].ware == w then l[|l| - 1].count else 0
  }

  lemma {:induction false} HeldUpdate(l: seq<Stack>, k: nat, s: Stack, w: Ware)
    requires k < |l|
    ensures Held(l[k := s], w)
      == Held(l, w) - (if l[k].ware == w then l[k].count else 0) + if s.ware == w then s.count else 0
  {
    if k == |l| - 1 {
      assert l[k := s][..|l| - 1] == l[..|l| - 1];
    } else {
      HeldUpdate(l[..|l| - 1], k, s, w);
      assert l[k := s][..|l| - 1] == l[..|l| - 1][k := s];
    }
  }

  function HeldByAll(d: seq<seq<Stack>>, w: Ware): nat
  {
    if d == [] then 0 else HeldByAll(d[..|d| - 1], w) + Held(d[|d| - 1], w)
  }

  /** Items went from one player, if any, to another, if any. */
  ghost predicate Delivered(d: seq<seq<Stack>>, d': seq<seq<Stack>>, giver: Option<nat>, taker: Option<nat>,
        ware: Ware, amount: nat)
  {
    && |d'| == |d|
    && forall q, w {:trigger Held(d'[q], w)} :: 0 <= q < |d| ==>
         Held(d'[q], w) == Held(d[q], w) + (if Some(q) == taker && w == ware then amount else 0)
           - (if Some(q) == giver && w == ware then amount else 0)
  }

  lemma {:induction false} DeliveredSum(d: seq<seq<Stack>>, d': seq<seq<Stack>>, giver: Option<nat>,
        taker: Option<nat>, ware: Ware, amount: nat, w: Ware)
    requires Delivered(d, d', giver, taker, ware, amount)
    ensures HeldByAll(d', w) == HeldByAll(d, w) + (if Among(taker, |d|) && w == ware then amount else 0)
      - (if Among(giver, |d|) && w == ware then amount else 0)
  {
    if d != [] {
      var n: nat := |d| - 1;
      assert Held(d'[n], w) == Held(d'[..n + 1][n], w);
      forall q, v | 0 <= q < n ensures Held(d'[..n][q], v) == Held(d[..n][q], v)
        + (if Some(q) == taker && v == ware then amount else 0) - (if Some(q) == giver && v == ware then amount else 0)
      {
        assert Held(d'[q], v) == Held(d'[..n][q], v);
      }
      DeliveredSum(d[..n], d'[..n], giver, taker, ware, amount, w);
    }
  }

  /** The gold an offer to buy holds. */
  function Gold(o: Option<Offer>): nat
  {
    if o.Some? && !o.value.sell then o.value.price * o.value.amount else 0
  }

  /** The items an offer to sell holds. */
  function Units(o: Option<Offer>, w: Ware): nat
  {
    if o.Some? && o.value.sell && o.value.ware == w then o.value.amount else 0
  }

  function AllGold(t: seq<Option<Offer>>): nat
  {
    if t == [] then 0 else AllGold(t[..|t| - 1]) + Gold(t[|t| - 1])
  }

  function AllUnits(t: seq<Option<Offer>>, w: Ware): nat
  {
    if t == [] then 0 else AllUnits(t[..|t| - 1], w) + Units(t[|t| - 1], w)
  }

  lemma {:induction false} TableUpdate(t: seq<Option<Offer>>, id: nat, o: Option<Offer>, w: Ware)
    requires id < |t|
    ensures AllGold(t[id := o]) == AllGold(t) - Gold(t[id]) + Gold(o)
    ensures AllUnits(t[id := o], w) == AllUnits(t, w) - Units(t[id], w) + Units(o, w)
  {
    if id == |t| - 1 {
      assert t[id := o][..|t| - 1] == t[..|t| - 1];
    } else {
      TableUpdate(t[..|t| - 1], id, o, w);
      assert t[id := o][..|t| - 1] == t[..|t| - 1][id := o];
    }
  }

  lemma {:induction false} TableAppend(t: seq<Option<Offer>>, o: Option<Offer>, w: Ware)
    ensures AllGold(t + [o]) == AllGold(t) + Gold(o)
    ensures AllUnits(t + [o], w) == AllUnits(t, w) + Units(o, w)
  {
    assert (t + [o])[..|t|] == t;
  }

  // ----- Items in and out

  /** The stacks that are to be taken for an amount, the last found first; none at all if there is too little. */
  method GetMarketItemList(l: seq<Stack>, ware: Ware, sufficientCount: nat) returns (found: bool, itemList: seq<nat>)
    requires sufficientCount > 0
    ensures found <==> Held(l, ware) >= sufficientCount
    ensures found ==> Listed(itemList, l, ware) && itemList != []
    ensures found ==> sufficientCount <= Picked(itemList, l) < sufficientCount + l[itemList[0]].count
  {
    hide Held, Picked, Listed;
    itemList := [];
    Nothing(l, ware);
    var count, i := 0, 0;
    while i < |l|
      invariant 0 <= i <= |l| && Listed(itemList, l, ware)
      invariant forall k :: 0 <= k < |itemList| ==> itemList[k] < i
      invariant count == Picked(itemList, l) == Held(l[..i], ware)
      invariant count < sufficientCount
    {
      HeldMore(l, i, ware);
      if l[i].ware == ware {
        PickFirst(itemList, l, ware, i);
        itemList := [i] + itemList;
        count := count + l[i].count;
        if count >= sufficientCount {
          HeldGrows(l, i + 1, ware);
          return true, itemList;
        }
      }
      i := i + 1;
    }
    assert l[..|l|] == l;
    found := false;
  }

  lemma {:induction false} Nothing(l: seq<Stack>, w: Ware)
    ensures Held(l[..0], w) == 0 && Listed([], l, w) && Picked([], l) == 0
  {
  }

  lemma {:induction false} HeldMore(l: seq<Stack>, i: nat, w: Ware)
    requires i < |l|
    ensures Held(l[..i + 1], w) == Held(l[..i], w) + if l[i].ware == w then l[i].count else 0
  {
    assert l[..i + 1][..i] == l[..i];
  }

  lemma {:induction false} PickFirst(itemList: seq<nat>, l: seq<Stack>, w: Ware, i: nat)
    requires Listed(itemList, l, w) && i < |l| && l[i].ware == w
    requires forall k :: 0 <= k < |itemList| ==> itemList[k] < i
    ensures Listed([i] + itemList, l, w) && Picked([i] + itemList, l) == l[i].count + Picked(itemList, l)
  {
    assert ([i] + itemList)[1..] == itemList;
  }

  lemma {:induction false} HeldGrows(l: seq<Stack>, i: nat, w: Ware)
    requires i <= |l|
    ensures Held(l[..i], w) <= Held(l, w)
  {
    if i < |l| {
      assert l[..|l| - 1][..i] == l[..i];
      HeldGrows(l[..|l| - 1], i, w);
    } else {
      assert l[..i] == l;
    }
  }

  /** Positions of stacks of a ware, each named once. */
  predicate Listed(itemList: seq<nat>, l: seq<Stack>, ware: Ware)
  {
    && (forall k :: 0 <= k < |itemList| ==> itemList[k] < |l| && l[itemList[k]].ware == ware)
    && (forall j, k :: 0 <= j < k < |itemList| ==> itemList[j] != itemList[k])
  }

  function Picked(itemList: seq<nat>, l: seq<Stack>): nat
    requires forall k :: 0 <= k < |itemList| ==> itemList[k] < |l|
  {
    if itemList == [] then 0 else l[itemList[0]].count + Picked(itemList[1..], l)
  }

  lemma {:induction false} PickedSame(itemList: seq<nat>, l: seq<Stack>, l': seq<Stack>)
    requires |l| == |l'| && forall k :: 0 <= k < |itemList| ==> itemList[k] < |l| && l[itemList[k]] == l'[itemList[k]]
    ensures Picked(itemList, l) == Picked(itemList, l')
  {
    if itemList != [] {
      PickedSame(itemList[1..], l, l');
    }
  }

  /** Stacks of the same wares, none of which is larger. */
  predicate NoLarger(l': seq<Stack>, l: seq<Stack>)
  {
    |l'| == |l| && forall k :: 0 <= k < |l| ==> l'[k].ware == l[k].ware && l'[k].count <= l[k].count
  }

  /** Takes an amount from the items listed: of stacks as much as is needed, of others all that are listed. */
  method TakeItems(l: seq<Stack>, itemList: seq<nat>, ghost ware: Ware, stackable: bool, amount: nat)
    returns (l': seq<Stack>)
    requires Listed(itemList, l, ware)
    requires if stackable then Picked(itemList, l) >= amount else Picked(itemList, l) == amount
    ensures NoLarger(l', l)
    ensures forall w :: Held(l', w) == Held(l, w) - if w == ware then amount else 0
  {
    if stackable {
      l' := TakeSome(l, itemList, ware, amount);
    } else {
      l' := TakeAll(l, itemList, ware);
    }
  }

  method TakeAll(l: seq<Stack>, itemList: seq<nat>, ghost ware: Ware) returns (l': seq<Stack>)
    requires Listed(itemList, l, ware)
    ensures NoLarger(l', l)
    ensures forall w :: Held(l', w) == Held(l, w) - if w == ware then Picked(itemList, l) else 0
  {
    l' := l;
    var i := 0;
    ghost var left := Picked(itemList, l);
    while i < |itemList|
      invariant 0 <= i <= |itemList| && NoLarger(l', l)
      invariant Listed(itemList[i..], l', ware) && Picked(itemList[i..], l') == left
      invariant forall w :: Held(l', w) == Held(l, w) - if w == ware then Picked(itemList, l) - left else 0
    {
      assert itemList[i..][0] == itemList[i] && itemList[i..][1..] == itemList[i + 1..];
      var k := itemList[i];
      ghost var before := l';
      l' := l'[k := l'[k].(count := 0)];
      forall w ensures Held(l', w) == Held(before, w) - if w == ware then before[k].count else 0 {
        HeldUpdate(before, k, before[k].(count := 0), w);
      }
      assert forall j :: i < j < |itemList| ==> itemList[j] == itemList[i..][j - i];
      PickedSame(itemList[i + 1..], before, l');
      left := left - before[k].count;
      i := i + 1;
    }
  }

  method TakeSome(l: seq<Stack>, itemList: seq<nat>, ghost ware: Ware, amount: nat) returns (l': seq<Stack>)
    requires Listed(itemList, l, ware) && Picked(itemList, l) >= amount
    ensures NoLarger(l', l)
    ensures forall w :: Held(l', w) == Held(l, w) - if w == ware then amount else 0
  {
    l' := l;
    var tmpAmount, i := amount, 0;
    while i < |itemList| && tmpAmount > 0
      invariant 0 <= i <= |itemList| && 0 <= tmpAmount <= amount && NoLarger(l', l)
      invariant Listed(itemList[i..], l', ware) && Picked(itemList[i..], l') >= tmpAmount
      invariant forall w :: Held(l', w) == Held(l, w) - if w == ware then amount - tmpAmount else 0
    {
      assert itemList[i..][0] == itemList[i] && itemList[i..][1..] == itemList[i + 1..];
      l', tmpAmount := TakeOne(l', itemList[i], itemList[i + 1..], ware, tmpAmount);
      i := i + 1;
    }
  }

  method TakeOne(l: seq<Stack>, k: nat, ghost rest: seq<nat>, ghost ware: Ware, tmpAmount: nat)
    returns (l': seq<Stack>, left: nat)
    requires Listed([k] + rest, l, ware) && Picked([k] + rest, l) >= tmpAmount
    ensures NoLarger(l', l) && left <= tmpAmount && Listed(rest, l', ware) && Picked(rest, l') >= left
    ensures forall w :: Held(l', w) == Held(l, w) - if w == ware then tmpAmount - left else 0
  {
    assert ([k] + rest)[0] == k && ([k] + rest)[1..] == rest;
    assert forall j :: 0 <= j < |rest| ==> rest[j] == ([k] + rest)[j + 1];
    var removeCount := if tmpAmount < l[k].count then tmpAmount else l[k].count;
    left := tmpAmount - removeCount;
    l' := l[k := l[k].(count := l[k].count - removeCount)];
    forall w ensures Held(l', w) == Held(l, w) - if w == ware then removeCount else 0 {
      HeldUpdate(l, k, l[k].(count := l[k].count - removeCount), w);
    }
    PickedSame(rest, l, l');
  }

  predicate IsNew(s: Stack, ware: Ware, stackable: bool)
  {
    s.ware == ware && 1 <= s.count <= if stackable then STACK else 1
  }

  /** Puts an amount into an inbox: in stacks of 100, or one by one. */
  method GiveItems(l: seq<Stack>, ware: Ware, stackable: bool, amount: nat) returns (l': seq<Stack>)
    ensures |l'| >= |l| && l'[..|l|] == l
    ensures forall k :: |l| <= k < |l'| ==> IsNew(l'[k], ware, stackable)
    ensures forall w :: Held(l', w) == Held(l, w) + if w == ware then amount else 0
  {
    l' := l;
    var tmpAmount := amount;
    while tmpAmount > 0
      invariant 0 <= tmpAmount <= amount && |l'| >= |l| && l'[..|l|] == l
      invariant forall k :: |l| <= k < |l'| ==> IsNew(l'[k], ware, stackable)
      invariant forall w :: Held(l', w) == Held(l, w) + if w == ware then amount - tmpAmount else 0
    {
      var stackCount := if !stackable then 1 else if tmpAmount < STACK then tmpAmount else STACK;
      ghost var before := l';
      l' := l' + [Stack(ware, stackCount)];
      assert l'[..|before|] == before;
      assert forall w :: Held(l', w) == Held(before, w) + if w == ware then stackCount else 0;
      tmpAmount := tmpAmount - stackCount;
    }
  }

  // ----- The market as a value

  /** Bank balances and items by player; the offers by number, where a deleted row is None; the rows found to have
      expired whose offers have not been dealt with yet; the fees paid; and which wares come in stacks. */
  datatype State = State(bank: seq<nat>, depots: seq<seq<Stack>>, offers: seq<Option<Offer>>, fetched: seq<Row>,
    fees: nat, stackable: Ware -> bool)

  /** A row of the table is what was made of an offer when it was created. */
  predicate Sane(o: Option<Offer>, players: nat)
  {
    o.Some? ==> o.value.player < players && o.value.price > 0 && o.value.amount > 0
  }

  /** A fetched row is the offer of that number, of which some may have been accepted since, or which may
      be gone. */
  predicate Fits(row: Row, offers: seq<Option<Offer>>, players: nat)
  {
    && row.offer.player < players && row.id < |offers| && row.offer.price > 0 && row.offer.amount > 0
    && (offers[row.id].Some? ==>
          && 0 < offers[row.id].value.amount <= row.offer.amount
          && offers[row.id].value == row.offer.(amount := offers[row.id].value.amount))
  }

  /** Items that do not come in stacks count one each. */
  predicate Singles(l: seq<Stack>, stackable: Ware -> bool)
  {
    forall k :: 0 <= k < |l| && !stackable(l[k].ware) ==> l[k].count <= 1
  }

  predicate Good(s: State)
  {
    && |s.bank| == |s.depots|
    && (forall id :: 0 <= id < |s.offers| ==> Sane(s.offers[id], |s.bank|))
    && (forall k :: 0 <= k < |s.fetched| ==> Fits(s.fetched[k], s.offers, |s.bank|))
    && (forall q :: 0 <= q < |s.depots| ==> Singles(s.depots[q], s.stackable))
  }

  /** All gold there is: in the bank, in offers and paid as fees. */
  function AllTheGold(s: State): nat
  {
    Sum(s.bank) + AllGold(s.offers) + s.fees
  }

  /** All items of a ware, held or offered. */
  function AllTheUnits(s: State, w: Ware): nat
  {
    HeldByAll(s.depots, w) + AllUnits(s.offers, w)
  }

  /** What an offer has to satisfy. */
  predicate MayCreate(s: State, player: nat, sell: bool, ware: Ware, amount: nat, price: nat)
    requires player < |s.bank| && player < |s.depots|
  {
    && 0 < amount <= MAX_AMOUNT && 0 < price <= MAX_PRICE && (s.stackable(ware) || amount <= MAX_SINGLE_AMOUNT)
    && if sell then Fee(price, amount) <= s.bank[player] && Held(s.depots[player], ware) >= amount
       else price * amount + Fee(price, amount) <= s.bank[player]
  }

  /** The offer stands in the table; the fee, and the gold or the items offered, are gone from the player. */
  ghost predicate Created(s: State, player: nat, sell: bool, ware: Ware, amount: nat, price: nat, s': State)
  {
    var fee := Fee(price, amount);
    && s'.offers == s.offers + [Some(Offer(player, sell, ware, amount, price))] && s'.fees == s.fees + fee
    && Paid(s.bank, s'.bank, Some(player), None, fee + if sell then 0 else price * amount)
    && (if sell then Delivered(s.depots, s'.depots, Some(player), None, ware, amount) else s'.depots == s.depots)
    && s'.fetched == s.fetched && s'.stackable == s.stackable
  }

  predicate MayCancel(s: State, player: nat, id: nat)
  {
    id < |s.offers| && s.offers[id].Some? && s.offers[id].value.player == player
  }

  /** The offer is gone, and its owner has what it held. */
  ghost predicate Cancelled(s: State, player: nat, id: nat, s': State)
    requires MayCancel(s, player, id)
  {
    var o := s.offers[id].value;
    && s'.offers == s.offers[id := None]
    && (if o.sell then s'.bank == s.bank && Delivered(s.depots, s'.depots, None, Some(player), o.ware, o.amount)
        else s'.depots == s.depots && Paid(s.bank, s'.bank, None, Some(player), o.price * o.amount))
    && s'.fees == s.fees && s'.fetched == s.fetched && s'.stackable == s.stackable
  }

  /** An offer is there, large enough, and the one who accepts has the gold or the items. */
  predicate MayAccept(s: State, player: nat, id: nat, amount: nat)
    requires player < |s.bank| && player < |s.depots|
  {
    && 0 < amount <= MAX_AMOUNT && id < |s.offers| && s.offers[id].Some? && amount <= s.offers[id].value.amount
    && if s.offers[id].value.sell then s.offers[id].value.price * amount <= s.bank[player]
       else Held(s.depots[player], s.offers[id].value.ware) >= amount
  }

  /** What is left of an offer, or nothing. */
  function Reduced(o: Offer, amount: nat): Option<Offer>
    requires amount <= o.amount
  {
    if amount == o.amount then None else Some(o.(amount := o.amount - amount))
  }

  /** Who buys has got the items, who sells the gold. What the one who offered gives was in the offer, which has
      shrunk by it. */
  ghost predicate Accepted(s: State, player: nat, id: nat, amount: nat, s': State)
    requires player < |s.bank| && player < |s.depots| && MayAccept(s, player, id, amount)
  {
    var o := s.offers[id].value;
    && s'.offers == s.offers[id := Reduced(o, amount)]
    && Paid(s.bank, s'.bank, if o.sell then Some(player) else None, Some(if o.sell then o.player else player),
            o.price * amount)
    && Delivered(s.depots, s'.depots, if o.sell then None else Some(player),
                 Some(if o.sell then player else o.player), o.ware, amount)
    && s'.fees == s.fees && s'.fetched == s.fetched && s'.stackable == s.stackable
  }

  /** The rows of the numbers given, as they stand in the table. */
  function RowsOf(offers: seq<Option<Offer>>, ids: seq<nat>): seq<Row>
  {
    if ids == [] then []
    else
      var id := ids[|ids| - 1];
      RowsOf(offers, ids[..|ids| - 1]) + if id < |offers| && offers[id].Some? then [Row(id, offers[id].value)] else []
  }

  /** If the offer of a fetched row is still there it is gone now, and its owner has what the row says; but items
      only if the owner could be loaded. */
  ghost predicate Expired(s: State, known: bool, s': State)
    requires s.fetched != [] && s.fetched[0].id < |s.offers|
  {
    var row := s.fetched[0];
    var o := row.offer;
    if s.offers[row.id].None? then s' == s.(fetched := s.fetched[1..])
    else
      && s'.offers == s.offers[row.id := None] && s'.fetched == s.fetched[1..]
      && (if o.sell then s'.bank == s.bank else Paid(s.bank, s'.bank, None, Some(o.player), o.price * o.amount))
      && (if o.sell && known then Delivered(s.depots, s'.depots, None, Some(o.player), o.ware, o.amount)
          else s'.depots == s.depots)
      && s'.fees == s.fees && s'.stackable == s.stackable
  }

  // ----- The market as an object

  class Market {
    var bank: seq<nat>
    var depots: seq<seq<Stack>>
    var offers: seq<Option<Offer>>
    var fetched: seq<Row>
    const stackable: Ware -> bool
    ghost var fees: nat

    ghost function Value(): State
      reads this
    {
      State(bank, depots, offers, fetched, fees, stackable)
    }

    ghost predicate Valid()
      reads this
    {
      Good(Value())
    }

    constructor (bank: seq<nat>, depots: seq<seq<Stack>>, stackable: Ware -> bool)
      requires |bank| == |depots| && forall q :: 0 <= q < |depots| ==> Singles(depots[q], stackable)
      ensures Valid() && Value() == State(bank, depots, [], [], 0, stackable)
    {
      this.bank, this.depots, this.stackable := bank, depots, stackable;
      offers, fetched, fees := [], [], 0;
    }

    /** Takes items out of a depot, if there are enough. */
    method Take(player: nat, ware: Ware, amount: nat) returns (ok: bool)
      requires Valid() && player < |depots| && amount > 0
      modifies this`depots
      ensures Valid() && ok == (old(Held(depots[player], ware)) >= amount)
      ensures if ok then Delivered(old(depots), depots, Some(player), None, ware, amount) else depots == old(depots)
    {
      var itemList;
      ok, itemList := GetMarketItemList(depots[player], ware, amount);
      if ok {
        assert Singles(depots[player], stackable);
        var l := TakeItems(depots[player], itemList, ware, stackable(ware), amount);
        depots := depots[player := l];
      }
    }

    method Give(player: nat, ware: Ware, amount: nat)
      requires Valid() && player < |depots|
      modifies this`depots
      ensures Valid() && Delivered(old(depots), depots, None, Some(player), ware, amount)
    {
      var l := GiveItems(depots[player], ware, stackable(ware), amount);
      assert Singles(depots[player], stackable);
      forall k | 0 <= k < |l| && !stackable(l[k].ware) ensures l[k].count <= 1 {
        assert k < |depots[player]| ==> l[k] == l[..|depots[player]|][k];
      }
      depots := depots[player := l];
    }

    method Pay(player: nat, amount: nat)
      requires Valid() && player < |bank|
      modifies this`bank
      ensures Valid() && Paid(old(bank), bank, None, Some(player), amount)
    {
      bank := bank[player := bank[player] + amount];
    }

    method Charge(player: nat, amount: nat)
      requires Valid() && player < |bank| && amount <= bank[player]
      modifies this`bank
      ensures Valid() && Paid(old(bank), bank, Some(player), None, amount)
    {
      bank := bank[player := bank[player] - amount];
    }

    method SetOffer(id: nat, o: Option<Offer>)
      requires Valid() && id < |offers| && Sane(o, |bank|)
      requires o.Some? ==> offers[id].Some? && o.value == offers[id].value.(amount := o.value.amount)
      requires o.Some? ==> o.value.amount <= offers[id].value.amount
      modifies this`offers
      ensures Valid() && offers == old(offers)[id := o]
    {
      offers := offers[id := o];
      forall k | 0 <= k < |fetched| ensures Fits(fetched[k], offers, |bank|) {
        assert Fits(fetched[k], old(offers), |bank|);
      }
    }

    method AddOffer(o: Offer)
      requires Valid() && Sane(Some(o), |bank|)
      modifies this`offers
      ensures Valid() && offers == old(offers) + [Some(o)]
    {
      offers := offers + [Some(o)];
      forall k | 0 <= k < |fetched| ensures Fits(fetched[k], offers, |bank|) {
        assert Fits(fetched[k], old(offers), |bank|);
      }
    }

    /** A player makes an offer: the fee is paid, and what is offered leaves bank or depot. */
    method CreateOffer(player: nat, sell: bool, ware: Ware, amount: nat, price: nat) returns (ok: bool)
      requires Valid() && player < |bank|
      modifies this
      ensures Valid() && ok == MayCreate(old(Value()), player, sell, ware, amount, price)
      ensures if ok then Created(old(Value()), player, sell, ware, amount, price, Value()) else Value() == old(Value())
    {
      if amount == 0 || amount > MAX_AMOUNT {
        return false;
      }
      if price == 0 || price > MAX_PRICE {
        return false;
      }
      if !stackable(ware) && amount > MAX_SINGLE_AMOUNT {
        return false;
      }
      var fee := Fee(price, amount);
      if sell {
        if fee > bank[player] {
          return false;
        }
        var taken := Take(player, ware, amount);
        if !taken {
          return false;
        }
        Charge(player, fee);
      } else {
        var totalPrice := price * amount + fee;
        if totalPrice > bank[player] {
          return false;
        }
        Charge(player, totalPrice);
      }
      fees := fees + fee;
      AddOffer(Offer(player, sell, ware, amount, price));
      ok := true;
    }

    /** A player takes back an own offer, and gets back what it holds. */
    method CancelOffer(player: nat, id: nat) returns (ok: bool)
      requires Valid() && player < |bank|
      modifies this
      ensures Valid() && ok == MayCancel(old(Value()), player, id)
      ensures if ok then Cancelled(old(Value()), player, id, Value()) else Value() == old(Value())
    {
      if id >= |offers| || offers[id].None? || offers[id].value.player != player {
        return false;
      }
      assert Sane(offers[id], |bank|);
      var offer := offers[id].value;
      if !offer.sell {
        Pay(player, offer.price * offer.amount);
      } else {
        Give(player, offer.ware, offer.amount);
      }
      SetOffer(id, None);
      ok := true;
    }

    /** A player accepts an offer, or part of one. */
    method AcceptOffer(player: nat, id: nat, amount: nat) returns (ok: bool)
      requires Valid() && player < |bank|
      modifies this
      ensures Valid() && ok == MayAccept(old(Value()), player, id, amount)
      ensures if ok then Accepted(old(Value()), player, id, amount, Value()) else Value() == old(Value())
    {
      if amount == 0 || amount > MAX_AMOUNT || id >= |offers| || offers[id].None? {
        return false;
      }
      var offer := offers[id].value;
      if amount > offer.amount {
        return false;
      }
      assert Sane(offers[id], |bank|);
      var totalPrice := offer.price * amount;
      if !offer.sell {
        ok := SellTo(player, offer.player, offer.ware, amount, totalPrice);
      } else {
        ok := BuyFrom(player, offer.player, offer.ware, amount, totalPrice);
      }
      if ok {
        SetOffer(id, Reduced(offer, amount));
      }
    }

    /** The items go from depot to inbox, and the one who sells gets the gold. */
    method SellTo(player: nat, buyer: nat, ware: Ware, amount: nat, totalPrice: nat) returns (ok: bool)
      requires Valid() && player < |bank| && buyer < |bank| && amount > 0
      modifies this`bank, this`depots
      ensures Valid() && ok == (old(Held(depots[player], ware)) >= amount)
      ensures !ok ==> bank == old(bank) && depots == old(depots)
      ensures ok ==> Paid(old(bank), bank, None, Some(player), totalPrice)
      ensures ok ==> Delivered(old(depots), depots, Some(player), Some(buyer), ware, amount)
    {
      ok := Take(player, ware, amount);
      if ok {
        ghost var between := depots;
        Pay(player, totalPrice);
        Give(buyer, ware, amount);
        assert forall q, w {:trigger Held(depots[q], w)} :: 0 <= q < |depots| ==> Held(between[q], w) >= 0;
      }
    }

    /** The gold goes from one player to the other, and the one who buys gets the items. */
    method BuyFrom(player: nat, seller: nat, ware: Ware, amount: nat, totalPrice: nat) returns (ok: bool)
      requires Valid() && player < |bank| && seller < |bank|
      modifies this`bank, this`depots
      ensures Valid() && ok == (totalPrice <= old(bank[player]))
      ensures !ok ==> bank == old(bank) && depots == old(depots)
      ensures ok ==> Paid(old(bank), bank, Some(player), Some(seller), totalPrice)
      ensures ok ==> Delivered(old(depots), depots, None, Some(player), ware, amount)
    {
      if totalPrice > bank[player] {
        return false;
      }
      Charge(player, totalPrice);
      ghost var between := bank;
      Give(player, ware, amount);
      Pay(seller, totalPrice);
      assert forall q {:trigger bank[q]} :: 0 <= q < |bank| ==> between[q] >= 0;
      ok := true;
    }

    /** Looks up offers that have expired; what is done about them follows later. */
    method FetchExpired(ids: seq<nat>)
      requires Valid()
      modifies this`fetched
      ensures Valid() && fetched == old(fetched) + RowsOf(offers, ids)
    {
      var i := 0;
      while i < |ids|
        invariant 0 <= i <= |ids| && Valid() && fetched == old(fetched) + RowsOf(offers, ids[..i])
      {
        assert ids[..i + 1][..i] == ids[..i];
        if ids[i] < |offers| && offers[ids[i]].Some? {
          assert Sane(offers[ids[i]], |bank|);
          assert Fits(Row(ids[i], offers[ids[i]].value), offers, |bank|);
          fetched := fetched + [Row(ids[i], offers[ids[i]].value)];
        }
        i := i + 1;
      }
      assert ids[..i] == ids;
    }

    /** Deals with the first row fetched; `known` is whether the owner of items can be loaded. */
    method ProcessExpired(known: bool)
      requires Valid() && fetched != []
      modifies this
      ensures Valid() && Fits(old(fetched)[0], old(offers), |old(bank)|) && Expired(old(Value()), known, Value())
    {
      var row := fetched[0];
      assert Fits(row, offers, |bank|);
      fetched := fetched[1..];
      if offers[row.id].None? {
        return;
      }
      SetOffer(row.id, None);
      if row.offer.sell {
        if known {
          Give(row.offer.player, row.offer.ware, row.offer.amount);
        }
      } else {
        Pay(row.offer.player, row.offer.price * row.offer.amount);
      }
    }
  }

  // ----- What each operation does to all gold and all items

  lemma {:induction false} CreatedKeeps(s: State, player: nat, sell: bool, ware: Ware, amount: nat, price: nat,
        s': State, w: Ware)
    requires Good(s) && player < |s.bank| && Created(s, player, sell, ware, amount, price, s')
    ensures AllTheGold(s') == AllTheGold(s) && AllTheUnits(s', w) == AllTheUnits(s, w)
  {
    var offer := Offer(player, sell, ware, amount, price);
    TableAppend(s.offers, Some(offer), w);
    PaidSum(s.bank, s'.bank, Some(player), None, Fee(price, amount) + if sell then 0 else price * amount);
    if sell {
      DeliveredSum(s.depots, s'.depots, Some(player), None, ware, amount, w);
    }
  }

  lemma {:induction false} CancelledKeeps(s: State, player: nat, id: nat, s': State, w: Ware)
    requires Good(s) && player < |s.bank| && MayCancel(s, player, id) && Cancelled(s, player, id, s')
    ensures AllTheGold(s') == AllTheGold(s) && AllTheUnits(s', w) == AllTheUnits(s, w)
  {
    var o := s.offers[id].value;
    TableUpdate(s.offers, id, None, w);
    if o.sell {
      DeliveredSum(s.depots, s'.depots, None, Some(player), o.ware, o.amount, w);
    } else {
      PaidSum(s.bank, s'.bank, None, Some(player), o.price * o.amount);
    }
  }

  /** What is left of an offer holds less by what was accepted. */
  lemma {:induction false} ReducedHolds(o: Offer, amount: nat, w: Ware)
    requires amount <= o.amount
    ensures Gold(Reduced(o, amount)) == Gold(Some(o)) - if o.sell then 0 else o.price * amount
    ensures Units(Reduced(o, amount), w) == Units(Some(o), w) - if o.sell && o.ware == w then amount else 0
  {
    assert o.price * (o.amount - amount) == o.price * o.amount - o.price * amount;
  }

  lemma {:induction false} AcceptedKeeps(s: State, player: nat, id: nat, amount: nat, s': State, w: Ware)
    requires Good(s) && player < |s.bank| && MayAccept(s, player, id, amount) && Accepted(s, player, id, amount, s')
    ensures AllTheGold(s') == AllTheGold(s) && AllTheUnits(s', w) == AllTheUnits(s, w)
  {
    hide Gold, Units, Reduced;
    var o := s.offers[id].value;
    assert Sane(s.offers[id], |s.bank|);
    TableUpdate(s.offers, id, Reduced(o, amount), w);
    ReducedHolds(o, amount, w);
    PaidSum(s.bank, s'.bank, if o.sell then Some(player) else None, Some(if o.sell then o.player else player),
      o.price * amount);
    DeliveredSum(s.depots, s'.depots, if o.sell then None else Some(player), Some(if o.sell then player else o.player),
      o.ware, amount, w);
  }

  /** The gold that comes from nowhere when an offer to buy expires: the price of what has been accepted since the
      row was fetched. */
  function GoldFromNowhere(s: State): (gold: nat)
    requires Good(s) && s.fetched != []
  {
    var row := s.fetched[0];
    assert Fits(row, s.offers, |s.bank|);
    if s.offers[row.id].None? || row.offer.sell then 0
    else row.offer.price * (row.offer.amount - s.offers[row.id].value.amount)
  }

  /** The items that come from nowhere, or are lost, when an offer to sell expires: those that have been accepted
      since come twice, and all that were left are lost if the owner cannot be loaded. */
  function UnitsFromNowhere(s: State, known: bool, w: Ware): int
    requires Good(s) && s.fetched != []
  {
    var row := s.fetched[0];
    assert Fits(row, s.offers, |s.bank|);
    if s.offers[row.id].None? || !row.offer.sell || row.offer.ware != w then 0
    else (if known then row.offer.amount else 0) - s.offers[row.id].value.amount
  }

  lemma {:induction false} ExpiredChanges(s: State, known: bool, s': State, w: Ware)
    requires Good(s) && s.fetched != [] && Fits(s.fetched[0], s.offers, |s.bank|) && Expired(s, known, s')
    ensures AllTheGold(s') == AllTheGold(s) + GoldFromNowhere(s)
    ensures AllTheUnits(s', w) == AllTheUnits(s, w) + UnitsFromNowhere(s, known, w)
  {
    var row := s.fetched[0];
    var o := row.offer;
    if s.offers[row.id].Some? {
      var live := s.offers[row.id].value;
      TableUpdate(s.offers, row.id, None, w);
      if o.sell {
        if known {
          DeliveredSum(s.depots, s'.depots, None, Some(o.player), o.ware, o.amount, w);
        }
      } else {
        PaidSum(s.bank, s'.bank, None, Some(o.player), o.price * o.amount);
        assert o.price * (o.amount - live.amount) == o.price * o.amount - o.price * live.amount;
      }
    }
  }

  /** The offer of the first row fetched is gone, or nothing of it has been accepted since and its owner gets back
      what it holds. */
  predicate Fair(s: State, known: bool)
    requires Good(s) && s.fetched != []
  {
    var row := s.fetched[0];
    assert Fits(row, s.offers, |s.bank|);
    s.offers[row.id].Some? ==> s.offers[row.id].value.amount == row.offer.amount && (row.offer.sell ==> known)
  }

  /** Gold and items stay as many, when an offer expires, exactly if that is fair. */
  lemma {:induction false} FairIff(s: State, known: bool)
    requires Good(s) && s.fetched != []
    ensures Fair(s, known) <==> GoldFromNowhere(s) == 0 && forall w :: UnitsFromNowhere(s, known, w) == 0
  {
    var row := s.fetched[0];
    assert Fits(row, s.offers, |s.bank|);
    if s.offers[row.id].Some? {
      var live := s.offers[row.id].value;
      if !row.offer.sell && live.amount < row.offer.amount {
        Positive(row.offer.price, row.offer.amount - live.amount);
      }
      assert UnitsFromNowhere(s, known, row.offer.ware) == 0 ==> !row.offer.sell || Fair(s, known);
    }
  }

  lemma {:induction false} Positive(price: nat, n: nat)
    requires price > 0 && n > 0
    ensures price * n > 0
  {
  }

  // ----- Runs

  datatype Step =
    | Create(player: nat, sell: bool, ware: Ware, amount: nat, price: nat)
    | Cancel(player: nat, id: nat)
    | Accept(player: nat, id: nat, amount: nat)
    | Fetch(ids: seq<nat>)
    | Expire(known: bool)

  /** What a step makes of the market; one that is not possible changes nothing. */
  ghost predicate Next(s: State, step: Step, s': State)
    requires Good(s)
  {
    match step
    case Create(player, sell, ware, amount, price) =>
      if player < |s.bank| && MayCreate(s, player, sell, ware, amount, price)
      then Created(s, player, sell, ware, amount, price, s') else s' == s
    case Cancel(player, id) =>
      if player < |s.bank| && MayCancel(s, player, id) then Cancelled(s, player, id, s') else s' == s
    case Accept(player, id, amount) =>
      if player < |s.bank| && MayAccept(s, player, id, amount) then Accepted(s, player, id, amount, s') else s' == s
    case Fetch(ids) =>
      s' == s.(fetched := s.fetched + RowsOf(s.offers, ids))
    case Expire(known) =>
      if s.fetched != [] then assert Fits(s.fetched[0], s.offers, |s.bank|); Expired(s, known, s') else s' == s
  }

  function StepGold(s: State, step: Step): nat
    requires Good(s)
  {
    if step.Expire? && s.fetched != [] then GoldFromNowhere(s) else 0
  }

  function StepUnits(s: State, step: Step, w: Ware): int
    requires Good(s)
  {
    if step.Expire? && s.fetched != [] then UnitsFromNowhere(s, step.known, w) else 0
  }

  lemma {:induction false} NextChanges(s: State, step: Step, s': State, w: Ware)
    requires Good(s) && Next(s, step, s')
    ensures AllTheGold(s') == AllTheGold(s) + StepGold(s, step)
    ensures AllTheUnits(s', w) == AllTheUnits(s, w) + StepUnits(s, step, w)
  {
    hide Created, Cancelled, Accepted, Expired, MayCreate, MayAccept;
    hide GoldFromNowhere, UnitsFromNowhere, AllTheGold, AllTheUnits;
    match step {
      case Create(player, sell, ware, amount, price) =>
        if player < |s.bank| && MayCreate(s, player, sell, ware, amount, price) {
          CreatedKeeps(s, player, sell, ware, amount, price, s', w);
        }
      case Cancel(player, id) =>
        if player < |s.bank| && MayCancel(s, player, id) {
          CancelledKeeps(s, player, id, s', w);
        }
      case Accept(player, id, amount) =>
        if player < |s.bank| && MayAccept(s, player, id, amount) {
          AcceptedKeeps(s, player, id, amount, s', w);
        }
      case Fetch(ids) =>
        SameTables(s, s', w);
      case Expire(known) =>
        if s.fetched != [] {
          ExpiredChanges(s, known, s', w);
        }
    }
  }

  lemma {:induction false} SameTables(s: State, s': State, w: Ware)
    requires s'.bank == s.bank && s'.depots == s.depots && s'.offers == s.offers && s'.fees == s.fees
    ensures AllTheGold(s') == AllTheGold(s) && AllTheUnits(s', w) == AllTheUnits(s, w)
  {
  }

  /** The states of a market between the steps of a run. */
  ghost predicate IsRun(trace: seq<State>, steps: seq<Step>)
  {
    && |trace| == |steps| + 1 && (forall k :: 0 <= k < |trace| ==> Good(trace[k]))
    && forall k :: 0 <= k < |steps| ==> Next(trace[k], steps[k], trace[k + 1])
  }

  ghost function RunGold(trace: seq<State>, steps: seq<Step>, n: nat): nat
    requires IsRun(trace, steps) && n <= |steps|
  {
    if n == 0 then 0 else RunGold(trace, steps, n - 1) + StepGold(trace[n - 1], steps[n - 1])
  }

  ghost function RunUnits(trace: seq<State>, steps: seq<Step>, n: nat, w: Ware): int
    requires IsRun(trace, steps) && n <= |steps|
  {
    if n == 0 then 0 else RunUnits(trace, steps, n - 1, w) + StepUnits(trace[n - 1], steps[n - 1], w)
  }

  /** Over every run, gold and items stay as many, but for what unfair expiries add or lose. */
  lemma {:induction false} RunChanges(trace: seq<State>, steps: seq<Step>, n: nat, w: Ware)
    requires IsRun(trace, steps) && n <= |steps|
    ensures AllTheGold(trace[n]) == AllTheGold(trace[0]) + RunGold(trace, steps, n)
    ensures AllTheUnits(trace[n], w) == AllTheUnits(trace[0], w) + RunUnits(trace, steps, n, w)
  {
    hide Next, StepGold, StepUnits, AllTheGold, AllTheUnits;
    if n > 0 {
      RunChanges(trace, steps, n - 1, w);
      NextChanges(trace[n - 1], steps[n - 1], trace[n], w);
    }
  }

  ghost predicate FairStep(s: State, step: Step)
    requires Good(s)
  {
    step.Expire? && s.fetched != [] ==> Fair(s, step.known)
  }

  ghost predicate FairRun(trace: seq<State>, steps: seq<Step>)
    requires IsRun(trace, steps)
  {
    forall k :: 0 <= k < |steps| ==> FairStep(trace[k], steps[k])
  }

  lemma {:induction false} FairKeeps(trace: seq<State>, steps: seq<Step>, n: nat, w: Ware)
    requires IsRun(trace, steps) && FairRun(trace, steps) && n <= |steps|
    ensures RunGold(trace, steps, n) == 0 && RunUnits(trace, steps, n, w) == 0
  {
    if n > 0 {
      FairKeeps(trace, steps, n - 1, w);
      assert FairStep(trace[n - 1], steps[n - 1]);
      if steps[n - 1].Expire? && trace[n - 1].fetched != [] {
        FairIff(trace[n - 1], steps[n - 1].known);
      }
    }
  }

  /** Once an offer to buy has expired of which part had been accepted since it was fetched, there is more gold
      for ever. */
  lemma {:induction false} GoldStays(trace: seq<State>, steps: seq<Step>, n: nat, k: nat)
    requires IsRun(trace, steps) && k <= n <= |steps|
    ensures AllTheGold(trace[k]) <= AllTheGold(trace[n])
    ensures k < n && StepGold(trace[k], steps[k]) > 0 ==> AllTheGold(trace[k]) < AllTheGold(trace[n])
    decreases n
  {
    hide Next, StepGold, StepUnits, AllTheGold, AllTheUnits;
    if k < n {
      NextChanges(trace[n - 1], steps[n - 1], trace[n], 0);
      GoldStays(trace, steps, n - 1, k);
    }
  }

  /** Runs the market. Gold never gets less; if every expiry is fair, all gold and all items of every ware are as
      many as before. */
  method Run(market: Market, steps: seq<Step>) returns (ghost trace: seq<State>)
    requires market.Valid()
    modifies market
    ensures market.Valid() && IsRun(trace, steps) && trace[0] == old(market.Value()) && trace[|steps|] == market.Value()
    ensures AllTheGold(old(market.Value())) <= AllTheGold(market.Value())
    ensures FairRun(trace, steps) || (forall k :: 0 <= k < |steps| ==> !steps[k].Expire?) ==>
      && AllTheGold(market.Value()) == AllTheGold(old(market.Value()))
      && forall w :: AllTheUnits(market.Value(), w) == AllTheUnits(old(market.Value()), w)
  {
    trace := [market.Value()];
    var i := 0;
    while i < |steps|
      invariant 0 <= i <= |steps| && market.Valid() && IsRun(trace, steps[..i])
      invariant trace[0] == old(market.Value()) && trace[i] == market.Value()
    {
      DoStep(market, steps[i]);
      trace := trace + [market.Value()];
      i := i + 1;
    }
    assert steps[..i] == steps;
    GoldStays(trace, steps, |steps|, 0);
    if (forall k :: 0 <= k < |steps| ==> !steps[k].Expire?) {
      assert FairRun(trace, steps);
    }
    if FairRun(trace, steps) {
      forall w ensures AllTheUnits(trace[|steps|], w) == AllTheUnits(trace[0], w)
        && AllTheGold(trace[|steps|]) == AllTheGold(trace[0])
      {
        RunChanges(trace, steps, |steps|, w);
        FairKeeps(trace, steps, |steps|, w);
      }
      assert AllTheUnits(trace[|steps|], 0) == AllTheUnits(trace[0], 0);
    }
  }

  // ----- An offer from beginning to end

  /** Who gained how much, against what they had. */
  ghost predicate Gained(s: State, s': State, p: nat, gold: int, q: nat, gold': int)
  {
    && |s'.bank| == |s.bank|
    && forall r {:trigger s'.bank[r]} :: 0 <= r < |s.bank| ==>
         s'.bank[r] == s.bank[r] + (if r == p then gold else 0) + if r == q then gold' else 0
  }

  ghost predicate Got(s: State, s': State, p: nat, units: int, q: nat, units': int, ware: Ware)
  {
    && |s'.depots| == |s.depots|
    && forall r, w {:trigger Held(s'.depots[r], w)} :: 0 <= r < |s.depots| ==>
         Held(s'.depots[r], w) == Held(s.depots[r], w)
           + if w == ware then (if r == p then units else 0) + (if r == q then units' else 0) else 0
  }

  /** What one needs to make an offer. */
  ghost predicate CanPay(s: State, p: nat, sell: bool, ware: Ware, amount: nat, price: nat)
  {
    && p < |s.bank| == |s.depots| && 0 < amount <= 64000 && 0 < price <= 999999999
    && (s.stackable(ware) || amount <= 2000)
    && s.bank[p] >= Fee(price, amount) + (if sell then 0 else price * amount)
    && (sell ==> Held(s.depots[p], ware) >= amount)
  }

  lemma {:induction false} OfferStands(s: State, s1: State, p: nat, sell: bool, ware: Ware, amount: nat, price: nat)
    requires Good(s) && CanPay(s, p, sell, ware, amount, price)
    requires Next(s, Create(p, sell, ware, amount, price), s1)
    ensures s1.offers == s.offers + [Some(Offer(p, sell, ware, amount, price))] && s1.fetched == s.fetched
    ensures Gained(s, s1, p, 0 - Fee(price, amount) - (if sell then 0 else price * amount), p, 0)
    ensures Got(s, s1, p, if sell then 0 - amount else 0, p, 0, ware) && s1.stackable == s.stackable
  {
    hide Fee, Held, Good;
    GoodSizes(s);
  }

  lemma {:induction false} GoodSizes(s: State)
    requires Good(s)
    ensures |s.bank| == |s.depots|
  {
  }

  /** The second player takes `taken` of an offer: gold and items change places, and the offer has so much less. */
  lemma {:induction false} OfferTaken(s: State, s1: State, q: nat, id: nat, taken: nat)
    requires Good(s) && q < |s.bank| && id < |s.offers| && s.offers[id].Some? && s.offers[id].value.player != q
    requires 0 < taken <= s.offers[id].value.amount && taken <= 64000
    requires s.offers[id].value.sell ==> s.bank[q] >= s.offers[id].value.price * taken
    requires |s.bank| == |s.depots|
    requires !s.offers[id].value.sell ==> Held(s.depots[q], s.offers[id].value.ware) >= taken
    requires Next(s, Accept(q, id, taken), s1)
    ensures var o := s.offers[id].value;
      var gold := o.price * taken;
      && s1.offers == s.offers[id := if taken == o.amount then None else Some(o.(amount := o.amount - taken))]
      && Gained(s, s1, o.player, if o.sell then gold else 0, q, if o.sell then 0 - gold else gold)
      && Got(s, s1, o.player, if o.sell then 0 else taken, q, if o.sell then taken else 0 - taken, o.ware)
  {
    hide Held, Sum, Good;
    assert MayAccept(s, q, id, taken);
    GoodSizes(s);
    var o := s.offers[id].value;
    assert |s1.depots| == |s.depots|;
    forall r, w | 0 <= r < |s.depots| ensures Held(s1.depots[r], w) == Held(s.depots[r], w)
      + if w == o.ware
        then (if r == o.player then if o.sell then 0 else taken else 0)
             + (if r == q then if o.sell then taken else 0 - taken else 0)
        else 0
    {
    }
  }

  lemma {:induction false} OfferBack(s: State, s1: State, p: nat, id: nat)
    requires Good(s) && p < |s.bank| && id < |s.offers| && s.offers[id].Some? && s.offers[id].value.player == p
    requires Next(s, Cancel(p, id), s1)
    ensures var o := s.offers[id].value;
      && s1.offers == s.offers[id := None]
      && Gained(s, s1, p, if o.sell then 0 else o.price * o.amount, p, 0)
      && Got(s, s1, p, if o.sell then o.amount else 0, p, 0, o.ware)
  {
    hide Held, Good;
    GoodSizes(s);
  }

  /** An offer is made, another player takes some or all of it, and what is left is taken back: the one has paid the
      fee, the items taken and their price have changed places, and nothing of the offer is left. */
  lemma {:induction false} Traded(trace: seq<State>, p: nat, sell: bool, ware: Ware, amount: nat, price: nat, q: nat,
        taken: nat)
    requires |trace| == 4 && p != q && 0 < taken <= amount && q < |trace[0].bank| == |trace[0].depots|
    requires CanPay(trace[0], p, sell, ware, amount, price)
    requires if sell then trace[0].bank[q] >= price * taken else Held(trace[0].depots[q], ware) >= taken
    requires IsRun(trace, [Create(p, sell, ware, amount, price), Accept(q, |trace[0].offers|, taken),
                           Cancel(p, |trace[0].offers|)])
    ensures trace[3].offers == trace[0].offers + [None]
    ensures Gained(trace[0], trace[3], p, (if sell then price * taken else 0 - price * taken) - Fee(price, amount),
                   q, if sell then 0 - price * taken else price * taken)
    ensures Got(trace[0], trace[3], p, if sell then 0 - taken else taken, q, if sell then taken else 0 - taken, ware)
  {
    hide Fee, Held, Good, Next;
    var id, o := |trace[0].offers|, Offer(p, sell, ware, amount, price);
    var steps := [Create(p, sell, ware, amount, price), Accept(q, id, taken), Cancel(p, id)];
    assert Next(trace[0], steps[0], trace[1]) && Next(trace[1], steps[1], trace[2]);
    assert Next(trace[2], steps[2], trace[3]);
    OfferStands(trace[0], trace[1], p, sell, ware, amount, price);
    GoodSizes(trace[1]);
    assert Held(trace[1].depots[q], ware) == Held(trace[0].depots[q], ware) && trace[1].bank[q] == trace[0].bank[q];
    OfferTaken(trace[1], trace[2], q, id, taken);
    if taken < amount {
      OfferBack(trace[2], trace[3], p, id);
    } else {
      NothingBack(trace[2], trace[3], p, id);
    }
    assert price * (amount - taken) == price * amount - price * taken;
    Summed(trace[0], trace[1], trace[2], trace[3], p, sell, ware, Fee(price, amount), price * taken,
           price * (amount - taken), q, taken, amount - taken);
  }

  lemma {:induction false} NothingBack(s: State, s1: State, p: nat, id: nat)
    requires Good(s) && id < |s.offers| && s.offers[id].None? && Next(s, Cancel(p, id), s1)
    ensures s1 == s
  {
  }

  lemma {:induction false} GainedTwice(s: State, s1: State, s2: State, p: nat, a: int, a': int, q: nat, b: int, b': int)
    requires Gained(s, s1, p, a, q, b) && Gained(s1, s2, p, a', q, b')
    ensures Gained(s, s2, p, a + a', q, b + b')
  {
    forall r | 0 <= r < |s.bank|
      ensures s2.bank[r] == s.bank[r] + (if r == p then a + a' else 0) + if r == q then b + b' else 0
    {
      assert s1.bank[r] == s.bank[r] + (if r == p then a else 0) + if r == q then b else 0;
    }
  }

  lemma {:induction false} GotTwice(s: State, s1: State, s2: State, p: nat, a: int, a': int, q: nat, b: int, b': int,
        ware: Ware)
    requires Got(s, s1, p, a, q, b, ware) && Got(s1, s2, p, a', q, b', ware)
    ensures Got(s, s2, p, a + a', q, b + b', ware)
  {
    hide Held;
    forall r, w | 0 <= r < |s.depots| ensures Held(s2.depots[r], w) == Held(s.depots[r], w)
      + if w == ware then (if r == p then a + a' else 0) + (if r == q then b + b' else 0) else 0
    {
      assert Held(s1.depots[r], w) == Held(s.depots[r], w)
        + if w == ware then (if r == p then a else 0) + (if r == q then b else 0) else 0;
    }
  }

  lemma {:induction false} OnlyOne(s: State, s': State, p: nat, gold: int, units: int, q: nat, ware: Ware)
    requires Gained(s, s', p, gold, p, 0) && Got(s, s', p, units, p, 0, ware)
    ensures Gained(s, s', p, gold, q, 0) && Got(s, s', p, units, q, 0, ware)
  {
    hide Held;
  }

  /** The three steps together. */
  lemma {:induction false} Summed(s: State, s1: State, s2: State, s3: State, p: nat, sell: bool, ware: Ware, fee: nat,
        paid: nat, back: nat, q: nat, taken: nat, left: nat)
    requires Gained(s, s1, p, 0 - fee - (if sell then 0 else paid + back), p, 0)
    requires Got(s, s1, p, if sell then 0 - (taken + left) else 0, p, 0, ware)
    requires Gained(s1, s2, p, if sell then paid else 0, q, if sell then 0 - paid else paid)
    requires Got(s1, s2, p, if sell then 0 else taken, q, if sell then taken else 0 - taken, ware)
    requires Gained(s2, s3, p, if sell then 0 else back, p, 0) && Got(s2, s3, p, if sell then left else 0, p, 0, ware)
    ensures Gained(s, s3, p, (if sell then paid else 0 - paid) - fee, q, if sell then 0 - paid else paid)
    ensures Got(s, s3, p, if sell then 0 - taken else taken, q, if sell then taken else 0 - taken, ware)
  {
    hide Gained, Got;
    var offered, given := 0 - fee - (if sell then 0 else paid + back), if sell then 0 - (taken + left) else 0;
    OnlyOne(s, s1, p, offered, given, q, ware);
    OnlyOne(s2, s3, p, if sell then 0 else back, if sell then left else 0, q, ware);
    GainedTwice(s, s1, s2, p, offered, if sell then paid else 0, q, 0, if sell then 0 - paid else paid);
    GotTwice(s, s1, s2, p, given, if sell then 0 else taken, q, 0, if sell then taken else 0 - taken, ware);
    GainedTwice(s, s2, s3, p, offered + (if sell then paid else 0), if sell then 0 else back,
                q, if sell then 0 - paid else paid, 0);
    GotTwice(s, s2, s3, p, given + (if sell then 0 else taken), if sell then left else 0,
             q, if sell then taken else 0 - taken, 0, ware);
  }

  /** An offer nobody took any of, looked up as expired and dealt with: only the fee is gone. */
  lemma {:induction false} ExpiredUnsold(trace: seq<State>, p: nat, sell: bool, ware: Ware, amount: nat, price: nat)
    requires |trace| == 4 && CanPay(trace[0], p, sell, ware, amount, price) && trace[0].fetched == []
    requires IsRun(trace, [Create(p, sell, ware, amount, price), Fetch([|trace[0].offers|]), Expire(true)])
    ensures trace[3].offers == trace[0].offers + [None] && trace[3].fetched == []
    ensures Gained(trace[0], trace[3], p, 0 - Fee(price, amount), p, 0) && Got(trace[0], trace[3], p, 0, p, 0, ware)
  {
    hide Fee, Held, Good;
    var id, o := |trace[0].offers|, Offer(p, sell, ware, amount, price);
    var steps := [Create(p, sell, ware, amount, price), Fetch([id]), Expire(true)];
    assert Next(trace[0], steps[0], trace[1]) && Next(trace[1], steps[1], trace[2]);
    assert Next(trace[2], steps[2], trace[3]);
    OfferStands(trace[0], trace[1], p, sell, ware, amount, price);
    assert RowsOf(trace[1].offers, [id]) == [Row(id, o)];
    assert trace[2].fetched == [Row(id, o)];
    forall r, w | 0 <= r < |trace[0].depots| ensures Held(trace[3].depots[r], w) == Held(trace[0].depots[r], w) {
      assert Held(trace[1].depots[r], w) >= 0;
    }
  }

  // ----- Gold from nowhere

  /** A player with 200 gold and one with two items of ware 7, which comes in stacks. */
  const START := State([200, 0], [[], [Stack(7, 2)]], [], [], 0, (w: Ware) => true)

  /** The first offers 10 each for two of them; that offer is fetched as expired; the second sells one; then the
      expiry is dealt with. */
  const SALE := [Create(0, false, 7, 2, 10), Fetch([0]), Accept(1, 0, 1), Expire(true)]

  /** Then there are 10 gold more than before. */
  lemma {:induction false} GoldFromSale(trace: seq<State>)
    requires IsRun(trace, SALE) && trace[0] == START
    ensures AllTheGold(trace[4]) == AllTheGold(trace[0]) + 10
  {
    hide AllTheGold, AllTheUnits;
    var offer := Offer(0, false, 7, 2, 10);
    assert Next(trace[0], SALE[0], trace[1]) && Next(trace[1], SALE[1], trace[2]);
    assert Next(trace[2], SALE[2], trace[3]) && Next(trace[3], SALE[3], trace[4]);
    assert trace[1].offers == [Some(offer)] && trace[1].depots == START.depots;
    assert RowsOf(trace[1].offers, [0]) == [Row(0, offer)];
    assert trace[2].fetched == [Row(0, offer)];
    assert Held(START.depots[1], 7) == 2;
    assert MayAccept(trace[2], 1, 0, 1);
    assert trace[3].offers == [Some(offer.(amount := 1))];
    assert GoldFromNowhere(trace[3]) == 10;
    NextChanges(trace[0], SALE[0], trace[1], 7);
    NextChanges(trace[1], SALE[1], trace[2], 7);
    NextChanges(trace[2], SALE[2], trace[3], 7);
    NextChanges(trace[3], SALE[3], trace[4], 7);
  }

  method RunSale() returns (market: Market)
    ensures fresh(market) && market.Valid() && AllTheGold(market.Value()) == AllTheGold(START) + 10
  {
    market := new Market(START.bank, START.depots, START.stackable);
    ghost var trace := Run(market, SALE);
    GoldFromSale(trace);
  }

  method DoStep(market: Market, step: Step)
    requires market.Valid()
    modifies market
    ensures market.Valid() && Next(old(market.Value()), step, market.Value())
  {
    var ok;
    match step {
      case Create(player, sell, ware, amount, price) =>
        if player < |market.bank| {
          ok := market.CreateOffer(player, sell, ware, amount, price);
        }
      case Cancel(player, id) =>
        if player < |market.bank| {
          ok := market.CancelOffer(player, id);
        }
      case Accept(player, id, amount) =>
        if player < |market.bank| {
          ok := market.AcceptOffer(player, id, amount);
        }
      case Fetch(ids) =>
        market.FetchExpired(ids);
      case Expire(known) =>
        if market.fetched != [] {
          market.ProcessExpired(known);
        }
    }
  }
}
