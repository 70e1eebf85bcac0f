/** Paying and changing money: coins lie in stacks of at most 100, in a container with a number of free
    places, and what does not fit is dropped on the tile below. */
module Money {
  import opened Arithmetic

  const STACK := 100

  const GOLD := 1

  const PLATINUM := 100

  const CRYSTAL := 10000

  /** A stack of coins; a stack of none is one that has been removed. `deep` stacks lie in containers
      further in, where nothing is added. */
  datatype Coins = Coins(value: nat, count: nat, deep: bool)

  function Worth(c: Coins): nat
  {
    c.value * c.count
  }

  function Total(l: seq<Coins>): nat
  {
    if l == [] then 0 else Total(l[..|l| - 1]) + Worth(l[|l| - 1])
  }

  lemma {:induction false} TotalUpdate(l: seq<Coins>, k: nat, c: Coins)
    requires k < |l|
    ensures Total(l[k := c]) == Total(l) - Worth(l[k]) + Worth(c)
  {
    if k == |l| - 1 {
      assert l[k := c][..|l| - 1] == l[..|l| - 1];
    } else {
      TotalUpdate(l[..|l| - 1], k, c);
      assert l[k := c][..|l| - 1] == l[..|l| - 1][k := c];
    }
  }

  /** Coins `x` can be put onto. */
  predicate Takes(c: Coins, value: nat)
  {
    c.value == value && 0 < c.count < STACK && !c.deep
  }

  /** Room in the stacks of one kind of coin. */
  function Room(l: seq<Coins>, value: nat): nat
  {
    if l == [] then 0
    else Room(l[..|l| - 1], value) + if Takes(l[|l| - 1], value) then STACK - l[|l| - 1].count else 0
  }

  lemma {:induction false} RoomUpdate(l: seq<Coins>, k: nat, n: nat)
    requires k < |l| && Takes(l[k], l[k].value) && l[k].count + n <= STACK
    ensures Room(l[k := l[k].(count := l[k].count + n)], l[k].value) == Room(l, l[k].value) - n
  {
    var l' := l[k := l[k].(count := l[k].count + n)];
    if k == |l| - 1 {
      assert l'[..|l| - 1] == l[..|l| - 1];
    } else {
      RoomUpdate(l[..|l| - 1], k, n);
      assert l'[..|l| - 1] == l[..|l| - 1][k := l[k].(count := l[k].count + n)];
    }
  }

  lemma {:induction false} NoRoom(l: seq<Coins>, value: nat)
    requires forall i :: 0 <= i < |l| ==> !Takes(l[i], value)
    ensures Room(l, value) == 0
  {
    if l != [] {
      NoRoom(l[..|l| - 1], value);
    }
  }

  lemma {:induction false} RoomOther(l: seq<Coins>, k: nat, n: nat, w: nat)
    requires k < |l| && w != l[k].value
    ensures Room(l[k := l[k].(count := n)], w) == Room(l, w)
  {
    var l' := l[k := l[k].(count := n)];
    if k == |l| - 1 {
      assert l'[..|l| - 1] == l[..|l| - 1];
    } else {
      RoomOther(l[..|l| - 1], k, n, w);
      assert l'[..|l| - 1] == l[..|l| - 1][k := l[k].(count := n)];
    }
  }

  /** How many coins of a value there are. */
  function CountOf(l: seq<Coins>, value: nat): nat
  {
    if l == [] then 0
    else CountOf(l[..|l| - 1], value) + if l[|l| - 1].value == value then l[|l| - 1].count else 0
  }

  lemma {:induction false} CountUpdate(l: seq<Coins>, k: nat, n: nat, v: nat)
    requires k < |l|
    ensures CountOf(l[k := l[k].(count := n)], v) == CountOf(l, v) + if l[k].value == v then n - l[k].count else 0
  {
    var l' := l[k := l[k].(count := n)];
    if k == |l| - 1 {
      assert l'[..|l| - 1] == l[..|l| - 1];
    } else {
      CountUpdate(l[..|l| - 1], k, n, v);
      assert l'[..|l| - 1] == l[..|l| - 1][k := l[k].(count := n)];
    }
  }

  lemma {:induction false} OneAppended(l: seq<Coins>, c: Coins)
    ensures Total(l + [c]) == Total(l) + Worth(c)
    ensures forall v :: CountOf(l + [c], v) == CountOf(l, v) + if c.value == v then c.count else 0
    ensures forall v :: Room(l + [c], v) == Room(l, v) + if Takes(c, v) then STACK - c.count else 0
  {
    assert (l + [c])[..|l|] == l;
  }

  // ----- What a purse holds, and what adding coins makes of it

  /** The stacks of a purse, its free places, and what was dropped on the tile. */
  datatype Held = Held(stacks: seq<Coins>, slots: nat, tile: seq<Coins>)

  /** The coins of a value, those on the tile among them. */
  function Owned(h: Held, value: nat): nat
  {
    CountOf(h.stacks, value) + CountOf(h.tile, value)
  }

  /** How many new stacks `n` coins need when stacks that are there have room for `room`. */
  function Needed(n: nat, room: nat): nat
  {
    if n <= room then 0 else (n - room + STACK - 1) / STACK
  }

  /** It makes no difference whether coins are added at once or one after the other. */
  lemma {:induction false} NeededMore(n: nat, c: nat, room: nat)
    ensures room + STACK * Needed(n, room) >= n
    ensures Needed(n + c, room) == Needed(n, room) + Needed(c, room + STACK * Needed(n, room) - n)
  {
  }

  ghost predicate Gained(h: Held, h': Held, value: nat, n: nat)
  {
    forall v {:trigger Owned(h', v)} :: Owned(h', v) == Owned(h, v) + if v == value then n else 0
  }

  /** All `n` coins went into the purse, in as few stacks as can be. */
  ghost predicate Filled(h: Held, h': Held, value: nat, n: nat)
  {
    var needed := Needed(n, Room(h.stacks, value));
    && h'.tile == h.tile && needed <= h.slots && h'.slots == h.slots - needed
    && forall w {:trigger Room(h'.stacks, w)} ::
      Room(h'.stacks, w) == Room(h.stacks, w) + if w == value then STACK * needed - n else 0
  }

  /** `n` coins have been added: into the purse if all fit, and some onto the tile otherwise. */
  ghost predicate Added(h: Held, h': Held, value: nat, n: nat)
  {
    && Gained(h, h', value, n) && |h.tile| <= |h'.tile|
    && if Needed(n, Room(h.stacks, value)) <= h.slots then Filled(h, h', value, n) else |h.tile| < |h'.tile|
  }

  lemma {:induction false} FilledTwice(h: Held, g: Held, k: Held, value: nat, a: nat, b: nat)
    requires Filled(h, g, value, a) && Filled(g, k, value, b)
    ensures Filled(h, k, value, a + b)
  {
    NeededMore(a, b, Room(h.stacks, value));
    assert Room(g.stacks, value) == Room(h.stacks, value) + STACK * Needed(a, Room(h.stacks, value)) - a;
    forall w ensures Room(k.stacks, w) == Room(h.stacks, w)
      + if w == value then STACK * Needed(a + b, Room(h.stacks, value)) - (a + b) else 0
    {
      assert Room(g.stacks, w) == Room(h.stacks, w)
        + if w == value then STACK * Needed(a, Room(h.stacks, value)) - a else 0;
    }
  }

  lemma {:induction false} GainedTwice(h: Held, g: Held, k: Held, value: nat, a: nat, b: nat)
    requires Gained(h, g, value, a) && Gained(g, k, value, b)
    ensures Gained(h, k, value, a + b)
  {
    forall v ensures Owned(k, v) == Owned(h, v) + if v == value then a + b else 0 {
      assert Owned(g, v) == Owned(h, v) + if v == value then a else 0;
    }
  }

  lemma {:induction false} AddedTwice(h: Held, g: Held, k: Held, value: nat, a: nat, b: nat)
    requires Added(h, g, value, a) && Added(g, k, value, b)
    ensures Added(h, k, value, a + b)
  {
    hide Owned, Room, Gained, Needed;
    GainedTwice(h, g, k, value, a, b);
    NeededMore(a, b, Room(h.stacks, value));
    if Filled(h, g, value, a) && Filled(g, k, value, b) {
      FilledTwice(h, g, k, value, a, b);
    }
  }

  lemma {:induction false} AddedNone(h: Held, value: nat)
    ensures Added(h, h, value, 0)
  {
  }

  /** Coins of the three kinds there are, in stacks of at most 100. */
  predicate Stacked(l: seq<Coins>)
  {
    forall i :: 0 <= i < |l| ==> l[i].count <= STACK && IsCoin(l[i].value)
  }

  predicate IsCoin(value: nat)
  {
    value == GOLD || value == PLATINUM || value == CRYSTAL
  }

  /** The count an item gets when created with `n`: a 16-bit argument, 1 if that is 0, kept in 8 bits. */
  function CreatedCount(n: nat): nat
  {
    (if n % 0x1_0000 == 0 then 1 else n % 0x1_0000) % 0x100
  }

  const TWO32 := 0x1_0000_0000

  const TWO64 := 0x1_0000_0000_0000_0000

  function Crystals(money: nat): nat
  {
    money / CRYSTAL % TWO32
  }

  /** What is left for platinum and gold: the product is taken in 32 bits. */
  function AfterCrystals(money: nat): (r: nat)
    ensures r <= money
  {
    ProductFits(money);
    money - Crystals(money) * CRYSTAL % TWO32
  }

  lemma {:induction false} ProductFits(money: nat)
    ensures Crystals(money) * CRYSTAL % TWO32 <= money
  {
    assert Crystals(money) <= money / CRYSTAL;
  }

  function Platinums(rest: nat): (n: nat)
    ensures n * PLATINUM <= rest
  {
    rest / PLATINUM % 0x1_0000
  }

  /** The worth of the coins that `addMoney` makes for an amount. */
  function Minted(money: nat): nat
  {
    var rest := AfterCrystals(money);
    var platinum := Platinums(rest);
    var gold := rest - platinum * PLATINUM;
    CRYSTAL * Crystals(money)
    + (if platinum != 0 then PLATINUM * CreatedCount(platinum) else 0)
    + (if gold != 0 then GOLD * CreatedCount(gold) else 0)
  }

  /** An amount whose crystal coins are worth less than 2^32 is made exactly, in stacks of at most 100. */
  lemma {:induction false} MintedExactly(money: nat)
    requires money / CRYSTAL * CRYSTAL < TWO32
    ensures Minted(money) == money
    ensures Platinums(AfterCrystals(money)) < 100
    ensures AfterCrystals(money) - Platinums(AfterCrystals(money)) * PLATINUM < 100
  {
    CrystalsExact(money);
    var rest := money % CRYSTAL;
    RestExact(rest);
    SmallCount(rest / PLATINUM);
    SmallCount(rest % PLATINUM);
    hide CreatedCount, Crystals, AfterCrystals, Platinums;
    assert money == CRYSTAL * (money / CRYSTAL) + rest && rest == PLATINUM * (rest / PLATINUM) + rest % PLATINUM;
  }

  lemma {:induction false} CrystalsExact(money: nat)
    requires money / CRYSTAL * CRYSTAL < TWO32
    ensures Crystals(money) == money / CRYSTAL && AfterCrystals(money) == money % CRYSTAL
  {
  }

  lemma {:induction false} RestExact(rest: nat)
    requires rest < CRYSTAL
    ensures Platinums(rest) == rest / PLATINUM < 100 && rest - Platinums(rest) * PLATINUM == rest % PLATINUM < 100
  {
  }

  lemma {:induction false} SmallCount(n: nat)
    requires n < 100
    ensures n != 0 ==> CreatedCount(n) == n
  {
  }

  /** Beyond that, single amounts come out right by chance, so the bound is not exact. */
  lemma {:induction false} MintedByChance()
    ensures 107374190001 / CRYSTAL * CRYSTAL >= TWO32 && Minted(107374190001) == 107374190001
  {
    assert Crystals(107374190001) == 10737419;
    assert AfterCrystals(107374190001) == 107374182401;
    assert Platinums(107374182401) == 0;
    assert CreatedCount(107374182401) == 1;
  }

  /** The first amount beyond the bound is not made exactly: the product of the coins wraps around. */
  lemma {:induction false} MintedTooMuch()
    ensures Minted(4294970000) != 4294970000
  {
    assert Crystals(4294970000) == 429497;
    assert AfterCrystals(4294970000) == 4294967296;
    assert Platinums(4294967296) == 23592;
    assert CreatedCount(23592) == 40;
  }

  /** What one entry of the money map says: a stack and its worth when it was looked up. */
  datatype Entry = Entry(worth: nat, at: nat)

  function Sum(m: seq<Entry>): nat
  {
    if m == [] then 0 else m[0].worth + Sum(m[1..])
  }

  lemma {:induction false} SumInsert(m: seq<Entry>, k: nat, e: Entry)
    requires k <= |m|
    ensures Sum(m[..k] + [e] + m[k..]) == Sum(m) + e.worth
  {
    if k == 0 {
      assert ([e] + m)[1..] == m && m[..0] + [e] + m[0..] == [e] + m;
    } else {
      SumInsert(m[1..], k - 1, e);
      assert (m[..k] + [e] + m[k..])[1..] == m[1..][..k - 1] + [e] + m[1..][k - 1..];
    }
  }

  predicate Ascending(m: seq<Entry>)
  {
    forall i, j :: 0 <= i < j < |m| ==> m[i].worth <= m[j].worth
  }

  predicate Distinct(m: seq<Entry>)
  {
    forall i, j :: 0 <= i < j < |m| ==> m[i].at != m[j].at
  }

  ghost predicate Mentions(m: seq<Entry>, j: nat)
  {
    exists k :: 0 <= k < |m| && m[k].at == j
  }

  lemma {:induction false} InsertMentions(m: seq<Entry>, k: nat, e: Entry, r: seq<Entry>, j: nat)
    requires k <= |m| && r == m[..k] + [e] + m[k..]
    ensures Mentions(m, j) || j == e.at ==> Mentions(r, j)
  {
    assert r[k] == e;
    if Mentions(m, j) {
      var i :| 0 <= i < |m| && m[i].at == j;
      assert r[if i < k then i else i + 1] == m[i];
    }
  }

  /** The entries of `m` tell the worth of stacks of `l`. */
  predicate Tells(m: seq<Entry>, l: seq<Coins>)
  {
    forall i :: 0 <= i < |m| ==> m[i].at < |l| && m[i].worth > 0 && m[i].worth == Worth(l[m[i].at])
  }

  /** Puts an entry behind those of no greater worth, as a multimap does. */
  method Insert(m: seq<Entry>, e: Entry, ghost l: seq<Coins>) returns (r: seq<Entry>)
    requires Ascending(m) && Distinct(m) && Tells(m, l) && Tells([e], l)
    requires forall i :: 0 <= i < |m| ==> m[i].at < e.at
    ensures Ascending(r) && Distinct(r) && Tells(r, l) && Sum(r) == Sum(m) + e.worth
    ensures forall i :: 0 <= i < |r| ==> r[i].at <= e.at
    ensures forall j {:trigger Mentions(r, j)} :: Mentions(m, j) || j == e.at ==> Mentions(r, j)
  {
    var k: nat := |m|;
    while k > 0 && m[k - 1].worth > e.worth
      invariant k <= |m| && forall i :: k <= i < |m| ==> m[i].worth > e.worth
    {
      k := k - 1;
    }
    r := m[..k] + [e] + m[k..];
    SumInsert(m, k, e);
    Inserted(m, k, e, r, l);
    forall j | Mentions(m, j) || j == e.at ensures Mentions(r, j) {
      InsertMentions(m, k, e, r, j);
    }
  }

  lemma {:induction false} Inserted(m: seq<Entry>, k: nat, e: Entry, r: seq<Entry>, l: seq<Coins>)
    requires k <= |m| && r == m[..k] + [e] + m[k..]
    requires Ascending(m) && Distinct(m) && Tells(m, l) && Tells([e], l)
    requires forall i :: 0 <= i < |m| ==> m[i].at < e.at
    requires forall i :: k <= i < |m| ==> m[i].worth > e.worth
    requires k > 0 ==> m[k - 1].worth <= e.worth
    ensures Ascending(r) && Distinct(r) && Tells(r, l) && forall i :: 0 <= i < |r| ==> r[i].at <= e.at
  {
    forall i | 0 <= i < |r| ensures r[i] == if i < k then m[i] else if i == k then e else m[i - 1] {
    }
    assert [e][0] == e;
    forall i, j | 0 <= i < j < |r| ensures r[i].worth <= r[j].worth && r[i].at != r[j].at {
      if i < k && j == k && i < k - 1 {
        assert m[i].worth <= m[k - 1].worth;
      }
    }
  }

  class Purse {
    var stacks: seq<Coins>
    /** Free places for new stacks. */
    var slots: nat
    /** What was dropped on the tile. */
    var tile: seq<Coins>

    constructor (stacks: seq<Coins>, slots: nat)
      ensures this.stacks == stacks && this.slots == slots && tile == []
    {
      this.stacks, this.slots, tile := stacks, slots, [];
    }

    ghost function All(): nat
      reads this
    {
      Total(stacks) + Total(tile)
    }

    ghost function Now(): Held
      reads this
    {
      Held(stacks, slots, tile)
    }

    /** The stack an addition goes onto: of those that take the coin, the one last put in front. */
    method FindStack(value: nat) returns (k: int)
      ensures -1 <= k < |stacks|
      ensures k >= 0 ==> Takes(stacks[k], value)
      ensures k == -1 ==> forall i :: 0 <= i < |stacks| ==> !Takes(stacks[i], value)
    {
      k := |stacks| - 1;
      while k >= 0 && !Takes(stacks[k], value)
        invariant -1 <= k < |stacks|
        invariant forall i :: k < i < |stacks| ==> !Takes(stacks[i], value)
      {
        k := k - 1;
      }
    }

    /** Adds coins, or drops them all on the tile when there is no room for them. Stacks that were there
        keep their places, their coins and at least their counts. */
    method AddItem(value: nat, count: nat)
      modifies this
      ensures All() == old(All()) + value * count
      ensures old(slots) * STACK + Room(old(stacks), value) >= count ==>
        tile == old(tile) && Total(stacks) == old(Total(stacks)) + value * count
      ensures old(slots) * STACK + Room(old(stacks), value) < count ==>
        tile == old(tile) + [Coins(value, count, false)] && stacks == old(stacks) && slots == old(slots)
      ensures Stacked(old(stacks)) && count <= STACK && IsCoin(value) ==> Stacked(stacks)
      ensures Kept(old(stacks), stacks)
      ensures Gained(old(Now()), Now(), value, count) && (count <= STACK ==> Added(old(Now()), Now(), value, count))
    {
      hide Gained, Filled, Kept, Stacked, Total, Needed;
      var room := CountRoom(value);
      ghost var before := Now();
      Enough(count, room, slots);
      if slots * STACK + room < count {
        DropAll(value, count);
        return;
      }
      KeptSelf(stacks);
      AddedNone(before, value);
      var left := count;
      while left > 0
        invariant 0 <= left <= count && tile == before.tile
        invariant Total(stacks) == Total(before.stacks) + value * (count - left)
        invariant left <= slots * STACK + Room(stacks, value)
        invariant Stacked(before.stacks) && count <= STACK && IsCoin(value) ==> Stacked(stacks)
        invariant Kept(before.stacks, stacks) && Gained(before, Now(), value, count - left)
        invariant count <= STACK ==> Filled(before, Now(), value, count - left)
      {
        ghost var last := Now();
        var n := PutSome(value, left);
        Distributes(value, count - left, n);
        KeptTwice(before.stacks, last.stacks, stacks);
        GainedTwice(before, last, Now(), value, count - left, n);
        if count <= STACK {
          FilledTwice(before, last, Now(), value, count - left, n);
        }
        left := left - n;
      }
    }

    method DropAll(value: nat, count: nat)
      modifies this`tile
      ensures tile == old(tile) + [Coins(value, count, false)]
      ensures All() == old(All()) + value * count && Gained(old(Now()), Now(), value, count) && Kept(stacks, stacks)
    {
      OneAppended(tile, Coins(value, count, false));
      tile := tile + [Coins(value, count, false)];
    }

    /** Fills one stack, or starts a new one with all that is left. */
    method PutSome(value: nat, left: nat) returns (n: nat)
      requires 0 < left <= slots * STACK + Room(stacks, value)
      modifies this
      ensures 0 < n <= left && tile == old(tile)
      ensures Total(stacks) == old(Total(stacks)) + value * n
      ensures left - n <= slots * STACK + Room(stacks, value)
      ensures Stacked(old(stacks)) && left <= STACK && IsCoin(value) ==> Stacked(stacks)
      ensures Kept(old(stacks), stacks)
      ensures Gained(old(Now()), Now(), value, n) && (left <= STACK ==> Filled(old(Now()), Now(), value, n))
    {
      hide Gained, Filled;
      var k := FindStack(value);
      if k >= 0 {
        n := if STACK - stacks[k].count < left then STACK - stacks[k].count else left;
        PutOnto(k, n);
      } else {
        NoRoom(stacks, value);
        n := left;
        PutNew(value, left);
      }
    }

    method PutOnto(k: nat, n: nat)
      requires k < |stacks| && Takes(stacks[k], stacks[k].value) && 0 < n <= STACK - stacks[k].count
      modifies this`stacks
      ensures Total(stacks) == old(Total(stacks)) + old(stacks[k].value) * n
      ensures Room(stacks, old(stacks[k].value)) == Room(old(stacks), old(stacks[k].value)) - n
      ensures Stacked(old(stacks)) ==> Stacked(stacks)
      ensures Kept(old(stacks), stacks)
      ensures Gained(old(Now()), Now(), old(stacks[k].value), n) && Filled(old(Now()), Now(), old(stacks[k].value), n)
    {
      ghost var value, l := stacks[k].value, stacks;
      TotalUpdate(stacks, k, stacks[k].(count := stacks[k].count + n));
      RoomUpdate(stacks, k, n);
      Distributes(value, stacks[k].count, n);
      stacks := stacks[k := stacks[k].(count := stacks[k].count + n)];
      forall v ensures CountOf(stacks, v) == CountOf(l, v) + if v == value then n else 0 {
        CountUpdate(l, k, l[k].count + n, v);
      }
      forall w | w != value ensures Room(stacks, w) == Room(l, w) {
        RoomOther(l, k, l[k].count + n, w);
      }
    }

    method PutNew(value: nat, n: nat)
      requires 0 < n <= slots * STACK && forall i :: 0 <= i < |stacks| ==> !Takes(stacks[i], value)
      modifies this`stacks, this`slots
      ensures slots == old(slots) - 1 && Total(stacks) == old(Total(stacks)) + value * n
      ensures Stacked(old(stacks)) && n <= STACK && IsCoin(value) ==> Stacked(stacks)
      ensures Kept(old(stacks), stacks)
      ensures Gained(old(Now()), Now(), value, n) && (n <= STACK ==> Filled(old(Now()), Now(), value, n))
    {
      NoRoom(stacks, value);
      OneAppended(stacks, Coins(value, n, false));
      stacks := stacks + [Coins(value, n, false)];
      slots := slots - 1;
    }

    method CountRoom(value: nat) returns (room: nat)
      ensures room == Room(stacks, value)
    {
      room := 0;
      var i := 0;
      while i < |stacks|
        invariant 0 <= i <= |stacks| && room == Room(stacks[..i], value)
      {
        assert stacks[..i + 1][..i] == stacks[..i];
        if Takes(stacks[i], value) {
          room := room + (STACK - stacks[i].count);
        }
        i := i + 1;
      }
      assert stacks[..|stacks|] == stacks;
    }

    /** Takes `count` coins off a stack; the whole stack frees its place. */
    method RemoveItem(k: nat, count: nat)
      requires k < |stacks| && 0 < count <= stacks[k].count
      modifies this
      ensures All() == old(All()) - old(stacks[k].value) * count
      ensures stacks == old(stacks[k := stacks[k].(count := stacks[k].count - count)]) && tile == old(tile)
      ensures Stacked(old(stacks)) ==> Stacked(stacks)
    {
      if count == stacks[k].count && !stacks[k].deep {
        slots := slots + 1;
      }
      TotalUpdate(stacks, k, stacks[k].(count := stacks[k].count - count));
      assert stacks[k].value * (stacks[k].count - count) == stacks[k].value * stacks[k].count - stacks[k].value * count;
      stacks := stacks[k := stacks[k].(count := stacks[k].count - count)];
    }

    /** Makes coins for an amount and adds them, largest first. Below 2^32 in crystal coins, these are as many of each
        value as the amount has; they all go into the purse exactly if there are places for the new stacks needed. */
    method AddMoney(money: nat)
      requires money < TWO64
      modifies this
      ensures All() == old(All()) + Minted(money)
      ensures money / CRYSTAL * CRYSTAL < TWO32 && Stacked(old(stacks)) ==> Stacked(stacks)
      ensures Kept(old(stacks), stacks)
      ensures forall v :: Owned(Now(), v) == Owned(old(Now()), v) + Made(money, v)
      ensures money / CRYSTAL * CRYSTAL < TWO32 ==> forall v :: Made(money, v) == InCoins(money, v)
      ensures money / CRYSTAL * CRYSTAL < TWO32 ==> (tile == old(tile) <==> AllFit(old(Now()), money))
    {
      hide Crystals, AfterCrystals, Platinums, CreatedCount, Added, Gained, Kept, Stacked, Total, Owned;
      KeptSelf(stacks);
      if money / CRYSTAL * CRYSTAL < TWO32 {
        MadeExactly(money);
      }
      if money == 0 {
        MadeNone();
        return;
      }
      ghost var h := Now();
      if money / CRYSTAL * CRYSTAL < TWO32 {
        MintedExactly(money);
      }
      AddCrystals(Crystals(money));
      ghost var h1 := Now();
      var rest := AfterCrystals(money);
      var platinum := Platinums(rest);
      AddCoins(PLATINUM, platinum);
      ghost var h2 := Now();
      KeptTwice(h.stacks, h1.stacks, h2.stacks);
      AddCoins(GOLD, rest - platinum * PLATINUM);
      KeptTwice(h.stacks, h2.stacks, stacks);
      AllMade(h, h1, h2, Now(), money);
    }

    method AddCoins(value: nat, n: nat)
      modifies this
      ensures All() == old(All()) + if n != 0 then value * CreatedCount(n) else 0
      ensures Stacked(old(stacks)) && n <= STACK && IsCoin(value) ==> Stacked(stacks)
      ensures Kept(old(stacks), stacks)
      ensures Gained(old(Now()), Now(), value, MadeOf(n)) && (n <= STACK ==> Added(old(Now()), Now(), value, n))
    {
      hide Added, Gained, Kept, Stacked, Total, CreatedCount;
      KeptSelf(stacks);
      AddedNone(Now(), value);
      assert Gained(Now(), Now(), value, 0) by { NothingGained(Now(), value); }
      if n != 0 {
        SmallCreated(n);
        AddItem(value, CreatedCount(n));
      }
    }

    method AddCrystals(crystals: nat)
      modifies this
      ensures All() == old(All()) + CRYSTAL * crystals
      ensures Stacked(old(stacks)) ==> Stacked(stacks)
      ensures Kept(old(stacks), stacks) && Added(old(Now()), Now(), CRYSTAL, crystals)
    {
      hide CreatedCount, Kept, Stacked, Total, Room, All, Added, Gained;
      var left := crystals;
      KeptSelf(stacks);
      AddedNone(Now(), CRYSTAL);
      while left > 0
        invariant 0 <= left <= crystals && All() == old(All()) + CRYSTAL * (crystals - left)
        invariant Stacked(old(stacks)) ==> Stacked(stacks)
        invariant Kept(old(stacks), stacks) && Added(old(Now()), Now(), CRYSTAL, crystals - left)
      {
        var count := if left < 100 then left else 100;
        ghost var before := Now();
        FewCreated(count);
        AddItem(CRYSTAL, CreatedCount(count));
        KeptTwice(old(stacks), before.stacks, stacks);
        AddedTwice(old(Now()), before, Now(), CRYSTAL, crystals - left, count);
        left := left - count;
      }
    }

    /** Looks up every stack of coins, the cheapest first. */
    method Look() returns (moneyMap: seq<Entry>, moneyCount: nat)
      ensures Ascending(moneyMap) && Distinct(moneyMap) && Tells(moneyMap, stacks)
      ensures moneyCount == Sum(moneyMap) == Total(stacks)
      ensures forall j :: 0 <= j < |stacks| && Worth(stacks[j]) > 0 ==> Mentions(moneyMap, j)
    {
      hide Mentions;
      moneyMap, moneyCount := [], 0;
      var i := 0;
      while i < |stacks|
        invariant 0 <= i <= |stacks|
        invariant Ascending(moneyMap) && Distinct(moneyMap) && Tells(moneyMap, stacks)
        invariant moneyCount == Sum(moneyMap) == Total(stacks[..i])
        invariant forall k :: 0 <= k < |moneyMap| ==> moneyMap[k].at < i
        invariant forall j :: 0 <= j < i && Worth(stacks[j]) > 0 ==> Mentions(moneyMap, j)
      {
        assert stacks[..i + 1][..i] == stacks[..i];
        var worth := Worth(stacks[i]);
        if worth != 0 {
          moneyCount := moneyCount + worth;
          moneyMap := Insert(moneyMap, Entry(worth, i), stacks);
        }
        i := i + 1;
      }
      assert stacks[..|stacks|] == stacks;
    }

    /** Takes a whole stack; what the other entries tell stays true. */
    method Take(e: Entry, ghost others: seq<Entry>)
      requires Tells([e], stacks) && Tells(others, stacks) && Stacked(stacks)
      requires forall k :: 0 <= k < |others| ==> others[k].at != e.at
      modifies this
      ensures All() == old(All()) - e.worth && Tells(others, stacks) && Stacked(stacks)
      ensures e.at < |old(stacks)| && stacks == old(stacks)[e.at := old(stacks)[e.at].(count := 0)]
    {
      assert [e][0] == e;
      RemoveItem(e.at, stacks[e.at].count);
    }

    /** Pays less than a stack is worth out of it. */
    method Split(e: Entry, money: nat)
      requires e.at < |stacks| && e.worth == Worth(stacks[e.at]) && 0 < money < e.worth && Stacked(stacks)
      modifies this
      ensures All() == old(All()) - money && Stacked(stacks)
      ensures forall v :: Owned(Now(), v) == Owned(old(Now()), v) + Paid(old(stacks[e.at].value), money, v)
      ensures |stacks| >= |old(stacks)| && forall i :: 0 <= i < |old(stacks)| && i != e.at ==>
        stacks[i].count >= old(stacks[i].count) && (old(stacks[i].count) == 0 ==> stacks[i].count == 0)
    {
      hide Owned, Paid, All, InCoins;
      SplitFits(stacks[e.at].value, stacks[e.at].count, money);
      var worth := e.worth / stacks[e.at].count;
      Change(e.at, worth, money / worth + 1, money);
    }

    /** The change comes back, and then the coins go. */
    method Change(at: nat, worth: nat, removeCount: nat, money: nat)
      requires at < |stacks| && stacks[at].value == worth && Stacked(stacks) && IsCoin(worth) && money > 0
      requires removeCount == money / worth + 1 && removeCount <= stacks[at].count
      requires 0 < worth * removeCount - money <= worth
      modifies this
      ensures All() == old(All()) - money && Stacked(stacks)
      ensures forall v :: Owned(Now(), v) == Owned(old(Now()), v) + Paid(worth, money, v)
      ensures |stacks| >= |old(stacks)| && forall i :: 0 <= i < |old(stacks)| && i != at ==>
        stacks[i].count >= old(stacks[i].count) && (old(stacks[i].count) == 0 ==> stacks[i].count == 0)
    {
      hide Owned, Paid, Made, All, AllFit, InCoins, Minted, Stacked;
      var change := worth * removeCount - money;
      MintedExactly(change);
      ghost var h := Now();
      AddMoney(change);
      ghost var h1 := Now();
      RemoveItem(at, removeCount);
      SplitOwned(h, h1, Now(), at, worth, money);
    }

    /** Pays an amount, or nothing at all. The last stack touched is split: one coin more than needed is taken,
        after the change has been added, perhaps onto the very same stack. */
    method RemoveMoney(amount: nat) returns (ok: bool)
      requires Stacked(stacks) && amount < TWO64
      modifies this
      ensures ok <==> old(Total(stacks)) >= amount
      ensures ok ==> All() == old(All()) - amount
      ensures !ok ==> stacks == old(stacks) && tile == old(tile) && slots == old(slots)
      ensures Stacked(stacks) && CheapestFirst(old(stacks), stacks)
    {
      hide Ascending, Distinct, Mentions, Owned, Paid, Worth, CheapestFirst, All, Total, TakenSoFar, Stacked;
      NothingTaken(stacks);
      if amount == 0 {
        return true;
      }
      var money := amount;
      var moneyMap, moneyCount := Look();
      if moneyCount < money {
        return false;
      }
      var i := 0;
      while i < |moneyMap|
        invariant 0 <= i <= |moneyMap| && 0 < money <= Sum(moneyMap[i..]) && money <= amount
        invariant All() == old(All()) - (amount - money)
        invariant Tells(moneyMap[i..], stacks) && Stacked(stacks)
        invariant TakenSoFar(old(stacks), moneyMap, i, stacks)
      {
        var e := moneyMap[i];
        ghost var before := stacks;
        OthersLeft(moneyMap, i, moneyMap[i + 1..]);
        assert e == moneyMap[i..][0] && moneyMap[i..][1..] == moneyMap[i + 1..];
        if e.worth < money {
          Take(e, moneyMap[i + 1..]);
          OneTaken(old(stacks), moneyMap, i, before, stacks);
          money := money - e.worth;
        } else if e.worth > money {
          Split(e, money);
          InOrder(old(stacks), moneyMap, i, before, stacks);
          return true;
        } else {
          Take(e, []);
          InOrder(old(stacks), moneyMap, i, before, stacks);
          return true;
        }
        i := i + 1;
      }
      return true;
    }
  }

  /** Coins are taken from a stack only when all that is worth less is gone. */
  ghost predicate CheapestFirst(l0: seq<Coins>, l: seq<Coins>)
  {
    |l| >= |l0| && forall a, b :: 0 <= a < |l0| && 0 <= b < |l0| ==>
      (Worth(l0[a]) < Worth(l0[b]) && l[b].count < l0[b].count ==> l[a].count == 0)
  }

  ghost predicate Before(m: seq<Entry>, i: nat, j: nat)
    requires i <= |m|
  {
    exists k :: 0 <= k < i && m[k].at == j
  }

  /** What the first `i` entries tell of is gone, and nothing else. */
  ghost predicate TakenSoFar(l0: seq<Coins>, m: seq<Entry>, i: nat, l: seq<Coins>)
  {
    && i <= |m| && Tells(m, l0) && |l| == |l0|
    && (forall k :: 0 <= k < i ==> l[m[k].at].count == 0)
    && forall j {:trigger l[j]} :: 0 <= j < |l0| && !Before(m, i, j) ==> l[j] == l0[j]
  }

  lemma {:induction false} NothingTaken(l: seq<Coins>)
    ensures CheapestFirst(l, l)
    ensures forall m :: Tells(m, l) ==> TakenSoFar(l, m, 0, l)
  {
  }

  lemma {:induction false} OthersLeft(m: seq<Entry>, i: nat, rest: seq<Entry>)
    requires i < |m| && Distinct(m) && rest == m[i + 1..]
    ensures forall k :: 0 <= k < |rest| ==> rest[k].at != m[i].at
  {
  }

  lemma {:induction false} BeforeMore(m: seq<Entry>, i: nat, j: nat)
    requires i < |m|
    ensures Before(m, i, j) || m[i].at == j ==> Before(m, i + 1, j)
  {
  }

  lemma {:induction false} OneTaken(l0: seq<Coins>, m: seq<Entry>, i: nat, l: seq<Coins>, l': seq<Coins>)
    requires TakenSoFar(l0, m, i, l) && i < |m| && m[i].at < |l| && l' == l[m[i].at := l[m[i].at].(count := 0)]
    ensures TakenSoFar(l0, m, i + 1, l')
  {
    hide Before;
    forall j {:trigger l'[j]} | 0 <= j < |l0| && !Before(m, i + 1, j) ensures l'[j] == l0[j] {
      BeforeMore(m, i, j);
      assert l'[j] == l[j];
    }
  }

  lemma {:induction false} TellsAt(m: seq<Entry>, l: seq<Coins>, k: nat)
    requires Tells(m, l) && k < |m|
    ensures m[k].at < |l| && m[k].worth > 0 && m[k].worth == Worth(l[m[k].at])
  {
  }

  /** The last stack touched is the `i`th entry's. */
  lemma {:induction false} InOrder(l0: seq<Coins>, m: seq<Entry>, i: nat, l: seq<Coins>, l': seq<Coins>)
    requires TakenSoFar(l0, m, i, l) && i < |m| && Ascending(m) && Distinct(m) && Stacked(l0)
    requires forall j :: 0 <= j < |l0| && Worth(l0[j]) > 0 ==> Mentions(m, j)
    requires |l'| >= |l| && forall j {:trigger l'[j]} :: 0 <= j < |l| && j != m[i].at ==>
      l'[j].count >= l[j].count && (l[j].count == 0 ==> l'[j].count == 0)
    ensures CheapestFirst(l0, l')
  {
    hide TakenSoFar, Tells, Ascending, Distinct, Mentions, Before, Worth, Stacked;
    SameLength(l0, m, i, l);
    forall a, b | 0 <= a < |l0| && 0 <= b < |l0| && Worth(l0[a]) < Worth(l0[b]) && l'[b].count < l0[b].count
      ensures l'[a].count == 0
    {
      if Worth(l0[a]) > 0 {
        assert Mentions(m, a);
        Cheaper(l0, m, i, l, l', a, b);
      } else {
        NoWorth(l0, m, i, l, a);
        ZeroWorth(l0, a);
      }
    }
  }

  lemma {:induction false} ZeroWorth(l: seq<Coins>, a: nat)
    requires Stacked(l) && a < |l| && Worth(l[a]) == 0
    ensures l[a].count == 0
  {
  }

  lemma {:induction false} SameLength(l0: seq<Coins>, m: seq<Entry>, i: nat, l: seq<Coins>)
    requires TakenSoFar(l0, m, i, l)
    ensures |l0| == |l|
  {
  }

  /** A stack worth less than one that was touched comes earlier and is gone. */
  lemma {:induction false} Cheaper(l0: seq<Coins>, m: seq<Entry>, i: nat, l: seq<Coins>, l': seq<Coins>, a: nat,
        b: nat)
    requires TakenSoFar(l0, m, i, l) && i < |m| && Ascending(m) && Distinct(m) && |l'| >= |l|
    requires a < |l0| && b < |l0| && Mentions(m, a) && Worth(l0[a]) < Worth(l0[b]) && l'[b].count < l0[b].count
    requires forall j {:trigger l'[j]} :: 0 <= j < |l| && j != m[i].at ==>
      l'[j].count >= l[j].count && (l[j].count == 0 ==> l'[j].count == 0)
    ensures l'[a].count == 0
  {
    var k :| 0 <= k < |m| && m[k].at == a;
    var n := Touched(l0, m, i, l, l', b);
    TellsAt(m, l0, n);
    TellsAt(m, l0, k);
    assert k < n;
    assert l[m[k].at].count == 0;
  }

  lemma {:induction false} Touched(l0: seq<Coins>, m: seq<Entry>, i: nat, l: seq<Coins>, l': seq<Coins>, b: nat)
    returns (n: nat)
    requires TakenSoFar(l0, m, i, l) && i < |m| && b < |l0| && |l'| >= |l|
    requires b != m[i].at ==> l'[b].count >= l[b].count
    requires l'[b].count < l0[b].count
    ensures n <= i && m[n].at == b
  {
    if b == m[i].at {
      n := i;
    } else {
      assert Before(m, i, b);
      n :| 0 <= n < i && m[n].at == b;
    }
  }

  /** A stack that is worth nothing is never touched. */
  lemma {:induction false} NoWorth(l0: seq<Coins>, m: seq<Entry>, i: nat, l: seq<Coins>, a: nat)
    requires TakenSoFar(l0, m, i, l) && i < |m| && a < |l0| && Worth(l0[a]) == 0
    ensures l[a] == l0[a] && a != m[i].at
  {
  }

  /** Every stack is still there, with the same coins and at least as many; one that is gone stays so. */
  predicate Kept(l: seq<Coins>, l': seq<Coins>)
  {
    && |l| <= |l'|
    && forall i :: 0 <= i < |l| ==>
      l'[i].value == l[i].value && l'[i].count >= l[i].count && (l[i].count == 0 ==> l'[i].count == 0)
  }

  /** Splitting takes no more coins than there are, and the change is at most one coin. */
  lemma {:induction false} SplitFits(worth: nat, count: nat, money: nat)
    requires IsCoin(worth) && 0 < money < worth * count
    ensures count > 0 && worth * count / count == worth
    ensures money / worth + 1 <= count && 0 < worth * (money / worth + 1) - money <= worth
  {
    DivExact(worth, count);
  }

  lemma {:induction false} SplitOwned(h: Held, h1: Held, h2: Held, k: nat, value: nat, money: nat)
    requires IsCoin(value) && money > 0 && k < |h1.stacks| && h1.stacks[k].value == value
    requires money / value + 1 <= h1.stacks[k].count && 0 < value * (money / value + 1) - money <= value
    requires forall v :: Owned(h1, v) == Owned(h, v) + Made(value * (money / value + 1) - money, v)
    requires h2.tile == h1.tile
    requires h2.stacks == h1.stacks[k := h1.stacks[k].(count := h1.stacks[k].count - (money / value + 1))]
    ensures forall v :: Owned(h2, v) == Owned(h, v) + Paid(value, money, v)
  {
    hide Made, Paid, InCoins;
    var n := money / value + 1;
    MadeExactly(value * n - money);
    forall v ensures Owned(h2, v) == Owned(h, v) + Paid(value, money, v) {
      CountUpdate(h1.stacks, k, h1.stacks[k].count - n, v);
      PaidIs(value, money, v);
      assert Owned(h1, v) == Owned(h, v) + Made(value * n - money, v);
    }
  }

  /** Coins fit exactly if there are places for the stacks they need. */
  lemma {:induction false} Enough(n: nat, room: nat, slots: nat)
    ensures Needed(n, room) <= slots <==> n <= slots * STACK + room
  {
  }

  lemma {:induction false} NothingGained(h: Held, value: nat)
    ensures Gained(h, h, value, 0)
  {
  }

  /** The count of a stack that is made, if one is. */
  function MadeOf(n: nat): nat
  {
    if n != 0 then CreatedCount(n) else 0
  }

  lemma {:induction false} SmallCreated(n: nat)
    ensures n <= STACK ==> MadeOf(n) == n
  {
  }

  /** How many coins of a value `addMoney` makes for an amount. */
  function Made(money: nat, value: nat): nat
  {
    var rest := AfterCrystals(money);
    if value == CRYSTAL then Crystals(money)
    else if value == PLATINUM then MadeOf(Platinums(rest))
    else if value == GOLD then MadeOf(rest - Platinums(rest) * PLATINUM)
    else 0
  }

  /** How many coins of a value an amount has, in as few coins as possible. */
  function InCoins(money: nat, value: nat): nat
  {
    if value == CRYSTAL then money / CRYSTAL
    else if value == PLATINUM then money % CRYSTAL / PLATINUM
    else if value == GOLD then money % PLATINUM
    else 0
  }

  /** Below the bound, as many of each value as the amount has. */
  lemma {:induction false} MadeExactly(money: nat)
    requires money / CRYSTAL * CRYSTAL < TWO32
    ensures forall v :: Made(money, v) == InCoins(money, v)
  {
    hide Crystals, AfterCrystals, Platinums, CreatedCount;
    CrystalsExact(money);
    RestExact(money % CRYSTAL);
    SmallCreated(money % CRYSTAL / PLATINUM);
    SmallCreated(money % CRYSTAL % PLATINUM);
  }

  /** What paying an amount out of a stack brings in coins of a value: as few of the stack as reach the amount are
      gone, and what is too much, less than one of them, has come back. */
  function Paid(value: nat, money: nat, v: nat): int
    requires value > 0
  {
    InCoins((value - money % value) % value, v) - if v == value then (money + value - 1) / value else 0
  }

  lemma {:induction false} PaidIs(value: nat, money: nat, v: nat)
    requires IsCoin(value) && money > 0
    ensures var n := money / value + 1;
      && 0 < value * n - money <= value
      && InCoins(value * n - money, v) - (if v == value then n else 0) == Paid(value, money, v)
  {
    if value == PLATINUM {
      PaidInPlatinum(money / PLATINUM, money % PLATINUM, v);
    } else if value == CRYSTAL {
      PaidInCrystals(money / CRYSTAL, money % CRYSTAL, v);
    }
  }

  lemma {:induction false} PaidInPlatinum(q: nat, r: nat, v: nat)
    requires r < PLATINUM
    ensures var money := PLATINUM * q + r;
      && money / PLATINUM == q && PLATINUM * (q + 1) - money == PLATINUM - r
      && InCoins(PLATINUM - r, v) - (if v == PLATINUM then q + 1 else 0) == Paid(PLATINUM, money, v)
  {
  }

  lemma {:induction false} PaidInCrystals(q: nat, r: nat, v: nat)
    requires r < CRYSTAL
    ensures var money := CRYSTAL * q + r;
      && money / CRYSTAL == q && CRYSTAL * (q + 1) - money == CRYSTAL - r
      && InCoins(CRYSTAL - r, v) - (if v == CRYSTAL then q + 1 else 0) == Paid(CRYSTAL, money, v)
  {
  }

  lemma {:induction false} MadeNone()
    ensures Minted(0) == 0 && forall v :: Made(0, v) == 0
  {
    assert Crystals(0) == 0 && AfterCrystals(0) == 0 && Platinums(0) == 0;
  }

  /** There are places for all the new stacks that the coins of an amount need. */
  predicate AllFit(h: Held, money: nat)
  {
    Needed(InCoins(money, CRYSTAL), Room(h.stacks, CRYSTAL))
    + Needed(InCoins(money, PLATINUM), Room(h.stacks, PLATINUM))
    + Needed(InCoins(money, GOLD), Room(h.stacks, GOLD)) <= h.slots
  }

  lemma {:induction false} AllMade(h: Held, h1: Held, h2: Held, h3: Held, money: nat)
    requires var rest := AfterCrystals(money);
      var platinum := Platinums(rest);
      var gold := rest - platinum * PLATINUM;
      && Added(h, h1, CRYSTAL, Crystals(money)) && Gained(h1, h2, PLATINUM, MadeOf(platinum))
      && Gained(h2, h3, GOLD, MadeOf(gold))
      && (platinum <= STACK ==> Added(h1, h2, PLATINUM, platinum)) && (gold <= STACK ==> Added(h2, h3, GOLD, gold))
    ensures forall v :: Owned(h3, v) == Owned(h, v) + Made(money, v)
    ensures money / CRYSTAL * CRYSTAL < TWO32 ==> (h3.tile == h.tile <==> AllFit(h, money))
  {
    hide Crystals, AfterCrystals, Platinums, Owned, Room, Needed, MadeOf, Gained, Filled, Added, Made, AllFit;
    var rest := AfterCrystals(money);
    var platinum := Platinums(rest);
    var gold := rest - platinum * PLATINUM;
    AddedGained(h, h1, CRYSTAL, Crystals(money));
    forall v ensures Owned(h3, v) == Owned(h, v) + Made(money, v) {
      ThreeGained(h, h1, h2, h3, Crystals(money), MadeOf(platinum), MadeOf(gold), v);
      MadeIs(money, v);
    }
    if money / CRYSTAL * CRYSTAL < TWO32 {
      CrystalsExact(money);
      RestExact(money % CRYSTAL);
      AllPlaced(h, h1, h2, h3, money / CRYSTAL, platinum, gold);
      AllFitIs(h, money, platinum, gold);
    }
  }

  lemma {:induction false} AddedGained(h: Held, h': Held, value: nat, n: nat)
    requires Added(h, h', value, n)
    ensures Gained(h, h', value, n)
  {
  }

  lemma {:induction false} MadeIs(money: nat, v: nat)
    ensures var platinum := Platinums(AfterCrystals(money));
      Made(money, v) == if v == CRYSTAL then Crystals(money) else if v == PLATINUM then MadeOf(platinum)
                        else if v == GOLD then MadeOf(AfterCrystals(money) - platinum * PLATINUM) else 0
  {
    hide Crystals, AfterCrystals, Platinums, MadeOf;
  }

  lemma {:induction false} AllFitIs(h: Held, money: nat, platinum: nat, gold: nat)
    requires platinum == money % CRYSTAL / PLATINUM && gold == money % CRYSTAL % PLATINUM
    ensures AllFit(h, money) <==>
      Needed(money / CRYSTAL, Room(h.stacks, CRYSTAL)) + Needed(platinum, Room(h.stacks, PLATINUM))
      + Needed(gold, Room(h.stacks, GOLD)) <= h.slots
  {
    hide Needed, Room;
    HundredsDivide(money / CRYSTAL, money % CRYSTAL);
  }

  lemma {:induction false} HundredsDivide(q: nat, r: nat)
    ensures (CRYSTAL * q + r) % PLATINUM == r % PLATINUM
  {
  }

  lemma {:induction false} ThreeGained(h: Held, h1: Held, h2: Held, h3: Held, a: nat, b: nat, c: nat, v: nat)
    requires Gained(h, h1, CRYSTAL, a) && Gained(h1, h2, PLATINUM, b) && Gained(h2, h3, GOLD, c)
    ensures Owned(h3, v) ==
      Owned(h, v) + (if v == CRYSTAL then a else if v == PLATINUM then b else if v == GOLD then c else 0)
  {
    hide Owned;
    assert Owned(h2, v) == Owned(h1, v) + if v == PLATINUM then b else 0;
    assert Owned(h1, v) == Owned(h, v) + if v == CRYSTAL then a else 0;
  }

  lemma {:induction false} AllPlaced(h: Held, h1: Held, h2: Held, h3: Held, c: nat, p: nat, g: nat)
    requires Added(h, h1, CRYSTAL, c) && Added(h1, h2, PLATINUM, p) && Added(h2, h3, GOLD, g)
    ensures h3.tile == h.tile <==>
      Needed(c, Room(h.stacks, CRYSTAL)) + Needed(p, Room(h.stacks, PLATINUM)) + Needed(g, Room(h.stacks, GOLD))
      <= h.slots
  {
    hide Owned, Room, Needed, Gained;
    if Filled(h, h1, CRYSTAL, c) {
      assert Room(h1.stacks, PLATINUM) == Room(h.stacks, PLATINUM) && Room(h1.stacks, GOLD) == Room(h.stacks, GOLD);
      if Filled(h1, h2, PLATINUM, p) {
        assert Room(h2.stacks, GOLD) == Room(h1.stacks, GOLD);
      }
    }
  }

  lemma {:induction false} KeptSelf(l: seq<Coins>)
    ensures Kept(l, l)
  {
  }

  lemma {:induction false} FewCreated(n: nat)
    requires 0 < n <= STACK
    ensures CreatedCount(n) == n
  {
  }

  lemma {:induction false} KeptTwice(a: seq<Coins>, b: seq<Coins>, c: seq<Coins>)
    requires Kept(a, b) && Kept(b, c)
    ensures Kept(a, c)
  {
  }
}
