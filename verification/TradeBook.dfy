/** Who trades with whom and what is offered, as a value; what offering, accepting and closing make of it. */
module TradeBook {
  import opened Common

  datatype TradeState = NONE | INITIATED | ACCEPT | ACKNOWLEDGE | TRANSFER

  /** A player's part in a trade. */
  datatype Seat<P, K> = Seat(state: TradeState, partner: Option<P>, item: Option<K>)

  /** The items offered, each with the player who offers it, and the parts of all players. */
  datatype Book<P, K> = Book(offers: map<K, P>, seats: map<P, Seat<P, K>>)

  /** What is answered during an acceptance: whether the partner can be reached, and what the script says. */
  datatype Answers = Answers(reachable: bool, allowed: bool)

  // ----- What holds at any time

  /** A player has a partner exactly when trading, and is the partner of that other player. */
  ghost predicate Matched<P, K>(b: Book<P, K>, p: P)
    requires p in b.seats
  {
    var s := b.seats[p];
    && (s.state == NONE <==> s.partner == None)
    && (s.partner.Some? ==>
          s.partner.value in b.seats && s.partner.value != p && b.seats[s.partner.value].partner == Some(p))
  }

  /** The states of two partners fit together. */
  ghost predicate InStep<P, K>(b: Book<P, K>, p: P)
    requires p in b.seats && Matched(b, p)
  {
    var s := b.seats[p];
    && (s.state == NONE ==> s.item == None)
    && (s.state == INITIATED ==> s.item.Some?)
    && (s.state == ACKNOWLEDGE ==> s.item == None)
    && (s.partner.Some? ==>
          var t := b.seats[s.partner.value];
          && (s.state == TRANSFER <==> t.state == TRANSFER)
          && (s.item.Some? || t.item.Some?)
          && !(s.state == ACCEPT && t.state == ACCEPT))
  }

  /** What a player offers is listed, and listed as offered by that player. */
  ghost predicate Listed<P, K>(b: Book<P, K>, p: P)
    requires p in b.seats
  {
    var s := b.seats[p];
    s.item.Some? && s.state != TRANSFER ==> s.item.value in b.offers && b.offers[s.item.value] == p
  }

  ghost predicate Fine<P, K>(b: Book<P, K>, p: P)
    requires p in b.seats
  {
    Matched(b, p) && InStep(b, p) && Listed(b, p)
  }

  /** An item listed is offered by the player it is listed for. */
  ghost predicate Offered<P, K>(b: Book<P, K>, i: K)
    requires i in b.offers
  {
    b.offers[i] in b.seats && b.seats[b.offers[i]].item == Some(i) && b.seats[b.offers[i]].state != TRANSFER
  }

  ghost predicate Sane<P, K>(b: Book<P, K>)
  {
    && (forall i {:trigger Offered(b, i)} :: i in b.offers ==> Offered(b, i))
    && forall p {:trigger Fine(b, p)} :: p in b.seats ==> Fine(b, p)
  }

  /** No item is offered by two players at a time, and no player trades with two. */
  lemma {:induction false} OneOfferEach<P, K>(b: Book<P, K>, p: P, q: P)
    requires Sane(b) && p in b.seats && q in b.seats && p != q
    ensures b.seats[p].state != TRANSFER && b.seats[q].state != TRANSFER && b.seats[p].item.Some? ==>
      b.seats[p].item != b.seats[q].item
    ensures b.seats[p].partner.Some? ==> b.seats[p].partner != b.seats[q].partner
  {
    assert Fine(b, p) && Fine(b, q);
  }

  // ----- Offering

  /** One who does not trade, or has been asked by the very same partner, may offer to one who does not trade with
      anyone else. */
  ghost predicate MayOffer<P, K>(b: Book<P, K>, p: P, q: P)
    requires p in b.seats && q in b.seats
  {
    && (b.seats[p].state == NONE || (b.seats[p].state == ACKNOWLEDGE && b.seats[p].partner == Some(q)))
    && (b.seats[q].state == NONE || b.seats[q].partner == Some(p))
  }

  ghost function Offer<P, K>(b: Book<P, K>, p: P, q: P, item: K): Book<P, K>
    requires p in b.seats && q in b.seats
  {
    var asked := if b.seats[q].state == NONE then b.seats[q].(state := ACKNOWLEDGE, partner := Some(p)) else b.seats[q];
    Book(b.offers[item := p], b.seats[p := Seat(INITIATED, Some(q), Some(item))][q := asked])
  }

  /** An offer between two players who may trade keeps everything in order. */
  lemma {:induction false} OfferSane<P, K>(b: Book<P, K>, p: P, q: P, item: K)
    requires Sane(b) && p in b.seats && q in b.seats && p != q && MayOffer(b, p, q) && item !in b.offers
    ensures Sane(Offer(b, p, q, item))
  {
    var g := Offer(b, p, q, item);
    assert Fine(b, p) && Fine(b, q);
    forall r | r in g.seats ensures Fine(g, r) {
      assert Fine(b, r);
    }
    forall i | i in g.offers ensures Offered(g, i) {
      assert i != item ==> Offered(b, i);
    }
  }

  // ----- Closing

  ghost function Struck<P, K>(offers: map<K, P>, item: Option<K>): map<K, P>
  {
    if item.Some? then offers - {item.value} else offers
  }

  /** The player takes no part any more, and what was offered is struck off the list. */
  ghost function Leave<P, K>(b: Book<P, K>, p: P): Book<P, K>
    requires p in b.seats
  {
    Book(Struck(b.offers, b.seats[p].item), b.seats[p := Seat(NONE, None, None)])
  }

  /** Whether the items of the player's trade are being moved. */
  ghost predicate Transfers<P, K>(b: Book<P, K>, p: P)
    requires p in b.seats
  {
    var s := b.seats[p];
    || s.state == TRANSFER
    || (s.partner.Some? && s.partner.value in b.seats && b.seats[s.partner.value].state == TRANSFER)
  }

  /** The trade of a player ends for both; while items are being moved, nothing happens. */
  ghost function Close<P, K>(b: Book<P, K>, p: P): Book<P, K>
    requires p in b.seats
  {
    var s := b.seats[p];
    if Transfers(b, p) then b
    else if s.partner.Some? && s.partner.value in b.seats then Leave(Leave(b, p), s.partner.value)
    else Leave(b, p)
  }

  lemma {:induction false} CloseSane<P, K>(b: Book<P, K>, p: P)
    requires Sane(b) && p in b.seats
    ensures var g := Close(b, p);
      && Sane(g) && g.seats.Keys == b.seats.Keys && g.offers.Keys <= b.offers.Keys
      && forall r {:trigger g.seats[r]} :: r in b.seats && b.seats[r].state == TRANSFER ==> g.seats[r] == b.seats[r]
  {
    var g := Close(b, p);
    assert Fine(b, p);
    if b.seats[p].partner.Some? {
      assert Fine(b, b.seats[p].partner.value);
    }
    forall r | r in g.seats ensures Fine(g, r) {
      assert Fine(b, r);
    }
    forall i | i in g.offers ensures Offered(g, i) {
      assert Offered(b, i);
    }
  }

  ghost function CloseAll<P, K>(b: Book<P, K>, closed: seq<P>): (g: Book<P, K>)
    requires forall k :: 0 <= k < |closed| ==> closed[k] in b.seats
    ensures g.seats.Keys == b.seats.Keys
  {
    if closed == [] then b
    else
      var h := CloseAll(b, closed[..|closed| - 1]);
      Close(h, closed[|closed| - 1])
  }

  /** However many trades are closed meanwhile, those whose items are being moved stay as they are. */
  lemma {:induction false} CloseAllSane<P, K>(b: Book<P, K>, closed: seq<P>)
    requires Sane(b) && forall k :: 0 <= k < |closed| ==> closed[k] in b.seats
    ensures var g := CloseAll(b, closed);
      && Sane(g) && g.offers.Keys <= b.offers.Keys
      && forall r {:trigger g.seats[r]} :: r in b.seats && b.seats[r].state == TRANSFER ==> g.seats[r] == b.seats[r]
  {
    if closed != [] {
      CloseAllSane(b, closed[..|closed| - 1]);
      CloseSane(CloseAll(b, closed[..|closed| - 1]), closed[|closed| - 1]);
    }
  }

  // ----- Accepting

  /** Whether an acceptance counts: the player trades, has not accepted yet, and the partner can be reached. */
  ghost predicate Accepts<P, K>(b: Book<P, K>, p: P, a: Answers)
    requires p in b.seats
  {
    && (b.seats[p].state == ACKNOWLEDGE || b.seats[p].state == INITIATED) && a.reachable
    && b.seats[p].partner.Some? && b.seats[p].partner.value in b.seats
  }

  /** Whether it ends the trade, as the partner has accepted before. */
  ghost predicate Ends<P, K>(b: Book<P, K>, p: P, a: Answers)
    requires p in b.seats
  {
    Accepts(b, p, a) && b.seats[b.seats[p].partner.value].state == ACCEPT
  }

  /** Whether it leads to a deal: the script agrees, and both have offered an item. */
  ghost predicate Trades<P, K>(b: Book<P, K>, p: P, a: Answers)
    requires p in b.seats
  {
    Ends(b, p, a) && a.allowed && b.seats[p].item.Some? && b.seats[b.seats[p].partner.value].item.Some?
  }

  /** From now on nothing but the end of the transfer ends the trade. */
  ghost function Begin<P, K>(b: Book<P, K>, p: P, q: P): Book<P, K>
    requires p in b.seats && q in b.seats
  {
    Book(Struck(Struck(b.offers, b.seats[p].item), b.seats[q].item),
         b.seats[p := b.seats[p].(state := TRANSFER)][q := b.seats[q].(state := TRANSFER)])
  }

  lemma {:induction false} BeginSane<P, K>(b: Book<P, K>, p: P, a: Answers)
    requires Sane(b) && p in b.seats && Ends(b, p, a)
    ensures Sane(Begin(b, p, b.seats[p].partner.value))
  {
    var q := b.seats[p].partner.value;
    var g := Begin(b, p, q);
    assert Fine(b, p) && Fine(b, q);
    forall r | r in g.seats ensures Fine(g, r) {
      assert Fine(b, r);
    }
    forall i | i in g.offers ensures Offered(g, i) {
      assert Offered(b, i);
    }
  }

  ghost function End<P, K>(b: Book<P, K>, p: P, q: P): Book<P, K>
  {
    Book(b.offers, b.seats[p := Seat(NONE, None, None)][q := Seat(NONE, None, None)])
  }

  lemma {:induction false} EndSane<P, K>(b: Book<P, K>, p: P, q: P)
    requires Sane(b) && p in b.seats && b.seats[p].partner == Some(q) && b.seats[p].state == TRANSFER
    ensures Sane(End(b, p, q)) && q in b.seats
  {
    var g := End(b, p, q);
    assert Fine(b, p) && Fine(b, q);
    forall r | r in g.seats ensures Fine(g, r) {
      assert Fine(b, r);
    }
    forall i | i in g.offers ensures Offered(g, i) {
      assert Offered(b, i);
    }
  }

  /** An acceptance: the first of two partners waits, the second ends the trade, whatever else is closed while the
      items are being moved. */
  ghost function Accept<P, K>(b: Book<P, K>, p: P, a: Answers, closed: seq<P>): Book<P, K>
    requires p in b.seats && forall k :: 0 <= k < |closed| ==> closed[k] in b.seats
  {
    if !Accepts(b, p, a) then b
    else
      var q := b.seats[p].partner.value;
      if b.seats[q].state != ACCEPT then Book(b.offers, b.seats[p := b.seats[p].(state := ACCEPT)])
      else if !a.allowed then Close(b, p)
      else End(CloseAll(Begin(b, p, q), closed), p, q)
  }

  lemma {:induction false} WaitSane<P, K>(b: Book<P, K>, p: P, a: Answers)
    requires Sane(b) && p in b.seats && Accepts(b, p, a) && !Ends(b, p, a)
    ensures Sane(Book(b.offers, b.seats[p := b.seats[p].(state := ACCEPT)]))
  {
    var g := Book(b.offers, b.seats[p := b.seats[p].(state := ACCEPT)]);
    assert Fine(b, p) && Fine(b, b.seats[p].partner.value);
    forall r | r in g.seats ensures Fine(g, r) {
      assert Fine(b, r);
    }
    forall i | i in g.offers ensures Offered(g, i) {
      assert Offered(b, i);
    }
  }

  /** An acceptance keeps everything in order; if it ends a trade, both players are free again, and what they had
      offered no longer is. */
  lemma {:induction false} AcceptSane<P, K>(b: Book<P, K>, p: P, a: Answers, closed: seq<P>)
    requires Sane(b) && p in b.seats && forall k :: 0 <= k < |closed| ==> closed[k] in b.seats
    ensures var g := Accept(b, p, a, closed);
      && Sane(g) && g.seats.Keys == b.seats.Keys && g.offers.Keys <= b.offers.Keys
      && (Ends(b, p, a) ==>
            var q := b.seats[p].partner.value;
            && g.seats[p].state == NONE && g.seats[q].state == NONE
            && (b.seats[p].item.Some? ==> b.seats[p].item.value !in g.offers)
            && (b.seats[q].item.Some? ==> b.seats[q].item.value !in g.offers))
  {
    hide Sane, CloseAll, Fine;
    if Ends(b, p, a) {
      var q := b.seats[p].partner.value;
      if a.allowed {
        BeginSane(b, p, a);
        CloseAllSane(Begin(b, p, q), closed);
        EndSane(CloseAll(Begin(b, p, q), closed), p, q);
      } else {
        CloseSane(b, p);
        ClosedBoth(b, p, q);
      }
    } else if Accepts(b, p, a) {
      WaitSane(b, p, a);
    }
  }

  lemma {:induction false} ClosedBoth<P, K>(b: Book<P, K>, p: P, q: P)
    requires Sane(b) && p in b.seats && b.seats[p].partner == Some(q) && q in b.seats && b.seats[p].state != TRANSFER
    ensures var g := Close(b, p);
      && g.seats[p].state == NONE && g.seats[q].state == NONE
      && (b.seats[p].item.Some? ==> b.seats[p].item.value !in g.offers)
      && (b.seats[q].item.Some? ==> b.seats[q].item.value !in g.offers)
  {
    assert Fine(b, p);
  }

  // ----- A trade can come about

  const YES := Answers(true, true)

  /** Two players who do not trade can offer to each other, one after the other. */
  lemma {:induction false} BothOffered<P, K>(b: Book<P, K>, p: P, q: P, x: K, y: K)
    requires p in b.seats && q in b.seats && p != q && b.seats[p] == b.seats[q] == Seat(NONE, None, None)
    ensures MayOffer(b, p, q) && MayOffer(Offer(b, p, q, x), q, p)
    ensures var g := Offer(Offer(b, p, q, x), q, p, y);
      && g.seats[p] == Seat(INITIATED, Some(q), Some(x)) && g.seats[q] == Seat(INITIATED, Some(p), Some(y))
      && g.seats.Keys == b.seats.Keys && g.offers == b.offers[x := p][y := q]
  {
  }

  /** Once both have offered and both accept, the items are to change hands. */
  lemma {:induction false} BothAccepted<P, K>(b: Book<P, K>, first: P, second: P, x: K, y: K, closed: seq<P>)
    requires first in b.seats && second in b.seats && first != second
    requires b.seats[first] == Seat(INITIATED, Some(second), Some(x))
    requires b.seats[second] == Seat(INITIATED, Some(first), Some(y))
    requires forall k :: 0 <= k < |closed| ==> closed[k] in b.seats
    ensures !Trades(b, first, YES)
    ensures var g := Accept(b, first, YES, closed);
      && g.seats.Keys == b.seats.Keys && g.offers == b.offers && Trades(g, second, YES)
      && g.seats[first].item == Some(x) && g.seats[second] == Seat(INITIATED, Some(first), Some(y))
  {
  }

  /** One who has been asked may accept without an offer; when both have accepted so, the trade is over, and there is
      nothing to move. */
  lemma {:induction false} AcceptedForNothing<P, K>(b: Book<P, K>, first: P, second: P, closed: seq<P>, last: seq<P>)
    requires Sane(b) && first in b.seats && second in b.seats
    requires b.seats[first].partner == Some(second)
    requires b.seats[first].state == INITIATED || b.seats[first].state == ACKNOWLEDGE
    requires b.seats[second].state == INITIATED || b.seats[second].state == ACKNOWLEDGE
    requires b.seats[first].item == None || b.seats[second].item == None
    requires forall k :: 0 <= k < |closed| ==> closed[k] in b.seats
    requires forall k :: 0 <= k < |last| ==> last[k] in b.seats
    ensures !Trades(b, first, YES)
    ensures var g := Accept(b, first, YES, closed);
      && g.seats.Keys == b.seats.Keys && !Trades(g, second, YES)
      && Accept(g, second, YES, last).seats.Keys == b.seats.Keys
      && Accept(g, second, YES, last).seats[first].state == Accept(g, second, YES, last).seats[second].state == NONE
  {
    assert Fine(b, first) && Fine(b, second);
    AcceptSane(b, first, YES, closed);
    AcceptSane(Accept(b, first, YES, closed), second, YES, last);
  }
}
