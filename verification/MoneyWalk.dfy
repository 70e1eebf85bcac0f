/** The walk of `removeMoney` through containers in containers: which coins there are, and what they are worth. */
module MoneyWalk {
  import opened Common
  import opened ItemTree
  import opened Container
  import opened ContainerIteration
  import M = Money

  const ITEM_GOLD_COIN := 2148

  const ITEM_PLATINUM_COIN := 2152

  const ITEM_CRYSTAL_COIN := 2160

  function CoinValue(id: nat): nat
  {
    if id == ITEM_GOLD_COIN then M.GOLD
    else if id == ITEM_PLATINUM_COIN then M.PLATINUM
    else if id == ITEM_CRYSTAL_COIN then M.CRYSTAL
    else 0
  }

  /** What `getWorth` says of an item. */
  function GetWorth(kind: Kind, count: nat): nat
  {
    CoinValue(kind.id) * count
  }

  /** An item that is no container and worth something. */
  predicate IsMoney<K>(n: Node<K>)
  {
    !n.holder && GetWorth(n.kind, n.count) != 0
  }

  // ----- The walk as a value

  function HoldersIn<K>(f: Forest<K>, l: seq<K>): (r: seq<K>)
    requires Inside(f, l)
  {
    if l == [] then [] else HoldersIn(f, l[..|l| - 1]) + if f[l[|l| - 1]].holder then [l[|l| - 1]] else []
  }

  function MoneyIn<K>(f: Forest<K>, l: seq<K>): (r: seq<K>)
    requires Inside(f, l)
  {
    if l == [] then [] else MoneyIn(f, l[..|l| - 1]) + if IsMoney(f[l[|l| - 1]]) then [l[|l| - 1]] else []
  }

  function SumWorth<K>(f: Forest<K>, l: seq<K>): nat
    requires Inside(f, l)
  {
    if l == [] then 0
    else SumWorth(f, l[..|l| - 1]) + GetWorth(f[l[|l| - 1]].kind, f[l[|l| - 1]].count)
  }

  lemma {:induction false} HoldersFrom<K>(f: Forest<K>, l: seq<K>, x: K)
    requires Inside(f, l)
    ensures x in HoldersIn(f, l) <==> x in l && f[x].holder
  {
    if l != [] {
      HoldersFrom(f, l[..|l| - 1], x);
      assert l == l[..|l| - 1] + [l[|l| - 1]];
    }
  }

  lemma {:induction false} MoneyFrom<K>(f: Forest<K>, l: seq<K>, x: K)
    requires Inside(f, l)
    ensures x in MoneyIn(f, l) <==> x in l && IsMoney(f[x])
  {
    if l != [] {
      MoneyFrom(f, l[..|l| - 1], x);
      assert l == l[..|l| - 1] + [l[|l| - 1]];
    }
  }

  lemma {:induction false} OncePicked<K>(f: Forest<K>, l: seq<K>)
    requires Inside(f, l) && NoDup(l)
    ensures NoDup(HoldersIn(f, l)) && NoDup(MoneyIn(f, l))
  {
    if l != [] {
      var rest, last := l[..|l| - 1], l[|l| - 1];
      OncePicked(f, rest);
      HoldersFrom(f, rest, last);
      MoneyFrom(f, rest, last);
    }
  }

  /** `x` lies directly in one of the containers of `done`. */
  ghost predicate In<K>(f: Forest<K>, done: set<K>, x: K)
    requires x in f
  {
    f[x].parent.Some? && f[x].parent.value in done
  }

  /** The queue has the containers that lie in those done with, and `coins` the money, each once. */
  ghost predicate Walked<K>(f: Forest<K>, rank: map<K, nat>, c: K, done: set<K>, q: seq<K>, coins: seq<K>)
    requires Linked(f) && Ranked(f, rank)
  {
    && Inside(f, q) && Inside(f, coins) && NoDup(q) && NoDup(coins)
    && (forall x {:trigger f[x]} :: x in f ==> (x in q <==> In(f, done, x) && f[x].holder))
    && (forall x {:trigger f[x]} :: x in f ==> (x in coins <==> In(f, done, x) && IsMoney(f[x])))
    && (forall x {:trigger x in q} :: x in q ==> x != c && Above(f, rank, c, x))
  }

  /** What lies in a container lies in no other. */
  lemma {:induction false} ListIs<K>(f: Forest<K>, p: K, x: K)
    requires Linked(f) && p in f && x in f
    ensures NoDup(f[p].list) && Inside(f, f[p].list) && (x in f[p].list <==> f[x].parent == Some(p))
  {
    assert Holds(f, p) && Held(f, x);
  }

  lemma {:induction false} Joined<K>(a: seq<K>, b: seq<K>)
    requires NoDup(a) && NoDup(b) && forall x :: x in a ==> x !in b
    ensures NoDup(a + b)
  {
    forall i, j | 0 <= i < j < |a + b| ensures (a + b)[i] != (a + b)[j] {
      if i < |a| <= j {
        assert a[i] in a && b[j - |a|] in b;
      }
    }
  }

  /** One more container is looked into. */
  lemma {:induction false} LookedInto<K>(f: Forest<K>, rank: map<K, nat>, c: K, done: set<K>, q: seq<K>,
        coins: seq<K>, p: K)
    requires Linked(f) && Ranked(f, rank) && c in f && Walked(f, rank, c, done, q, coins)
    requires p !in done && (p == c || p in q) && p in f
    ensures Inside(f, f[p].list)
    ensures Walked(f, rank, c, done + {p}, q + HoldersIn(f, f[p].list), coins + MoneyIn(f, f[p].list))
  {
    hide Linked, Above, HoldersIn, MoneyIn, IsMoney, NoDup;
    var l := f[p].list;
    ListIs(f, p, p);
    OncePicked(f, l);
    var hs, ms := HoldersIn(f, l), MoneyIn(f, l);
    forall x | x in f
      ensures x in hs <==> f[x].parent == Some(p) && f[x].holder
      ensures x in ms <==> f[x].parent == Some(p) && IsMoney(f[x])
    {
      ListIs(f, p, x);
      HoldersFrom(f, l, x);
      MoneyFrom(f, l, x);
    }
    Picked(f, l);
    forall x | x in hs ensures x != c && Above(f, rank, c, x) {
      ChildBelow(f, rank, c, p, x);
    }
    Joined(q, hs);
    Joined(coins, ms);
    forall x {:trigger f[x]} | x in f
      ensures x in q + hs <==> In(f, done + {p}, x) && f[x].holder
      ensures x in coins + ms <==> In(f, done + {p}, x) && IsMoney(f[x])
    {
    }
  }

  lemma {:induction false} Picked<K>(f: Forest<K>, l: seq<K>)
    requires Inside(f, l)
    ensures Inside(f, HoldersIn(f, l)) && Inside(f, MoneyIn(f, l))
  {
    forall i | 0 <= i < |HoldersIn(f, l)| ensures HoldersIn(f, l)[i] in f {
      HoldersFrom(f, l, HoldersIn(f, l)[i]);
    }
    forall i | 0 <= i < |MoneyIn(f, l)| ensures MoneyIn(f, l)[i] in f {
      MoneyFrom(f, l, MoneyIn(f, l)[i]);
    }
  }

  lemma {:induction false} ChildBelow<K>(f: Forest<K>, rank: map<K, nat>, c: K, p: K, x: K)
    requires Ranked(f, rank) && c in f && p in f && x in f && f[x].parent == Some(p) && Above(f, rank, c, p)
    ensures x != c && Above(f, rank, c, x)
  {
    assert Below(f, rank, x);
    AboveRank(f, rank, c, p);
  }

  /** Once every container of the queue has been looked into, exactly the money in `c` has been found. */
  lemma {:induction false} AllFound<K>(f: Forest<K>, rank: map<K, nat>, c: K, done: set<K>, q: seq<K>, coins: seq<K>)
    requires Linked(f) && Ranked(f, rank) && c in f && Walked(f, rank, c, done, q, coins)
    requires done == {c} + ToSet(q)
    ensures forall x {:trigger f[x]} :: x in f ==> (x in coins <==> x in Descendants(f, rank, c) && IsMoney(f[x]))
  {
    forall x {:trigger f[x]} | x in f ensures x in coins <==> x in Descendants(f, rank, c) && IsMoney(f[x]) {
      if x in coins {
        ChildBelow(f, rank, c, f[x].parent.value, x);
      } else if x in Descendants(f, rank, c) {
        ParentDone(f, rank, c, done, q, coins, x);
      }
    }
  }

  lemma {:induction false} ParentDone<K>(f: Forest<K>, rank: map<K, nat>, c: K, done: set<K>, q: seq<K>,
        coins: seq<K>, x: K)
    requires Linked(f) && Ranked(f, rank) && c in f && Walked(f, rank, c, done, q, coins)
    requires done == {c} + ToSet(q) && x in f && x != c && Above(f, rank, c, x)
    ensures In(f, done, x)
    decreases rank[x]
  {
    assert Below(f, rank, x) && Held(f, x);
    var p := f[x].parent.value;
    assert Holds(f, p);
    if p != c {
      ParentDone(f, rank, c, done, q, coins, p);
    }
  }

  ghost function ToSet<K>(l: seq<K>): set<K>
  {
    set x | x in l
  }

  lemma {:induction false} QueueAtMost<K>(f: Forest<K>, q: seq<K>)
    requires Inside(f, q) && NoDup(q)
    ensures |q| <= |f.Keys|
  {
    SetOf(q, ToSet(q));
    SubsetSize(ToSet(q), f.Keys);
  }

  lemma {:induction false} SumAppended<K>(f: Forest<K>, a: seq<K>, b: seq<K>)
    requires Inside(f, a) && Inside(f, b)
    ensures Inside(f, a + b) && SumWorth(f, a + b) == SumWorth(f, a) + SumWorth(f, b)
  {
    if b == [] {
      assert a + b == a;
    } else {
      assert (a + b)[..|a + b| - 1] == a + b[..|b| - 1];
      SumAppended(f, a, b[..|b| - 1]);
    }
  }

  // ----- The walk on the objects

  /** Looks through one list: containers are left for later, and coins are counted. */
  method LookInto(container: Item, ghost s: set<Item>) returns (holders: seq<Item>, coins: seq<Item>, worth: nat)
    requires container in s && Linked(Snap(s))
    ensures Inside(Snap(s), container.itemlist)
    ensures holders == HoldersIn(Snap(s), container.itemlist) && coins == MoneyIn(Snap(s), container.itemlist)
    ensures Inside(Snap(s), coins) && worth == SumWorth(Snap(s), coins)
  {
    ghost var f := Snap(s);
    var l := container.itemlist;
    assert Holds(f, container);
    holders, coins, worth := [], [], 0;
    for i := 0 to |l|
      invariant holders == HoldersIn(f, l[..i]) && coins == MoneyIn(f, l[..i])
      invariant Inside(f, coins) && worth == SumWorth(f, coins)
    {
      assert l[..i + 1][..i] == l[..i];
      assert l[i] in s;
      if l[i].holder {
        holders := holders + [l[i]];
      } else {
        var w := GetWorth(l[i].kind, l[i].count);
        if w != 0 {
          worth := worth + w;
          assert (coins + [l[i]])[..|coins|] == coins;
          coins := coins + [l[i]];
        }
      }
    }
    assert l[..|l|] == l;
  }

  /** Finds all coins in a container and in those inside it, those that lie directly in it first. */
  method FindMoney(cylinder: Item, ghost s: set<Item>, ghost rank: map<Item, nat>)
    returns (coins: seq<Item>, moneyCount: nat)
    requires cylinder in s && Linked(Snap(s)) && Ranked(Snap(s), rank)
    ensures NoDup(coins) && Inside(Snap(s), coins)
    ensures forall x :: x in s ==>
      (x in coins <==> x in Descendants(Snap(s), rank, cylinder) && IsMoney(Snap(s)[x]))
    ensures Inside(Snap(s), cylinder.itemlist) && MoneyIn(Snap(s), cylinder.itemlist) <= coins
    ensures moneyCount == SumWorth(Snap(s), coins)
  {
    hide Linked, Ranked, HoldersIn, MoneyIn, SumWorth, Descendants, Walked, NoDup;
    ghost var f := Snap(s);
    ghost var done: set<Item> := {};
    StartWalk(f, rank, cylinder);
    LookedInto(f, rank, cylinder, {}, [], [], cylinder);
    var containers, direct, worth := LookInto(cylinder, s);
    coins, moneyCount, done := direct, worth, {cylinder};
    assert [] + containers == containers && [] + direct == direct && {} + {cylinder} == done;
    var i := 0;
    Bounded(f, rank, cylinder, done, containers, coins);
    assert containers[..0] == [];
    while i < |containers|
      invariant 0 <= i <= |containers| <= |s| && direct <= coins
      invariant Walked(f, rank, cylinder, done, containers, coins) && done == {cylinder} + ToSet(containers[..i])
      invariant Inside(f, coins) && moneyCount == SumWorth(f, coins)
      decreases |s| - i
    {
      var container := containers[i];
      NotDone(f, rank, cylinder, done, containers, coins, i);
      LookedInto(f, rank, cylinder, done, containers, coins, container);
      var inner, more, n := LookInto(container, s);
      assert (containers + inner)[..i + 1] == containers[..i] + [container];
      SumAppended(f, coins, more);
      done := done + {container};
      containers, coins, moneyCount := containers + inner, coins + more, moneyCount + n;
      Bounded(f, rank, cylinder, done, containers, coins);
      i := i + 1;
    }
    assert containers[..|containers|] == containers;
    Bounded(f, rank, cylinder, done, containers, coins);
    AllFound(f, rank, cylinder, done, containers, coins);
  }

  lemma {:induction false} StartWalk<K>(f: Forest<K>, rank: map<K, nat>, c: K)
    requires Linked(f) && Ranked(f, rank)
    ensures Walked(f, rank, c, {}, [], [])
  {
  }

  lemma {:induction false} Bounded<K>(f: Forest<K>, rank: map<K, nat>, c: K, done: set<K>, q: seq<K>, coins: seq<K>)
    requires Linked(f) && Ranked(f, rank) && Walked(f, rank, c, done, q, coins)
    ensures |q| <= |f.Keys| && NoDup(coins)
  {
    QueueAtMost(f, q);
  }

  lemma {:induction false} NotDone<K>(f: Forest<K>, rank: map<K, nat>, c: K, done: set<K>, q: seq<K>, coins: seq<K>,
        i: nat)
    requires Linked(f) && Ranked(f, rank) && Walked(f, rank, c, done, q, coins) && i < |q|
    requires done == {c} + ToSet(q[..i])
    ensures q[i] in f && q[i] !in done
  {
  }

  // ----- The purse that the coins found make up

  function CoinOf<K>(f: Forest<K>, c: K, x: K): M.Coins
    requires x in f
  {
    M.Coins(CoinValue(f[x].kind.id), f[x].count, f[x].parent != Some(c))
  }

  /** The coins found, the first of them last, as those are the first that others are put onto. */
  ghost function CoinsOf<K>(f: Forest<K>, c: K, l: seq<K>): (r: seq<M.Coins>)
    requires Inside(f, l)
  {
    if l == [] then [] else [CoinOf(f, c, l[|l| - 1])] + CoinsOf(f, c, l[..|l| - 1])
  }

  lemma {:induction false} TotalFirst(x: M.Coins, r: seq<M.Coins>)
    ensures M.Total([x] + r) == M.Worth(x) + M.Total(r)
  {
    if r == [] {
      assert ([x] + r)[..0] == [];
    } else {
      assert ([x] + r)[..|r|] == [x] + r[..|r| - 1];
      TotalFirst(x, r[..|r| - 1]);
    }
  }

  /** The purse is worth what was counted. */
  lemma {:induction false} PurseWorth<K>(f: Forest<K>, c: K, l: seq<K>)
    requires Inside(f, l)
    ensures M.Total(CoinsOf(f, c, l)) == SumWorth(f, l)
  {
    if l != [] {
      TotalFirst(CoinOf(f, c, l[|l| - 1]), CoinsOf(f, c, l[..|l| - 1]));
      PurseWorth(f, c, l[..|l| - 1]);
    }
  }

  lemma {:induction false} PurseStacked<K>(f: Forest<K>, c: K, l: seq<K>)
    requires Inside(f, l) && forall i :: 0 <= i < |l| ==> IsMoney(f[l[i]]) && f[l[i]].count <= M.STACK
    ensures M.Stacked(CoinsOf(f, c, l))
  {
    if l != [] {
      PurseStacked(f, c, l[..|l| - 1]);
      StackedFirst(CoinOf(f, c, l[|l| - 1]), CoinsOf(f, c, l[..|l| - 1]));
    }
  }

  lemma {:induction false} StackedFirst(x: M.Coins, r: seq<M.Coins>)
    requires M.Stacked(r) && M.Stacked([x])
    ensures M.Stacked([x] + r)
  {
    assert [x][0] == x;
  }

  /** All stacks of coins in and below a container hold at most 100. */
  ghost predicate CoinsStacked(f: Forest<Item>)
  {
    forall x {:trigger f[x]} :: x in f && IsMoney(f[x]) ==> f[x].count <= M.STACK
  }

  /** The stacks of a purse, made of coins lying about in containers. */
  method Gather(cylinder: Item, coins: seq<Item>, ghost s: set<Item>) returns (stacks: seq<M.Coins>)
    requires Inside(Snap(s), coins)
    ensures stacks == CoinsOf(Snap(s), cylinder, coins)
  {
    stacks := [];
    for i := 0 to |coins|
      invariant stacks == CoinsOf(Snap(s), cylinder, coins[..i])
    {
      assert coins[..i + 1][..i] == coins[..i] && coins[i] in s;
      stacks := [M.Coins(CoinValue(coins[i].kind.id), coins[i].count, coins[i].parent != cylinder)] + stacks;
    }
    assert coins[..|coins|] == coins;
  }

  /** An amount can be paid from a container exactly if all coins in it and in the containers inside it, however deep,
      are worth as much; and then the purse they make up is worth that much less. */
  method RemoveMoney(cylinder: Item, amount: nat, slots: nat, ghost s: set<Item>, ghost rank: map<Item, nat>)
    returns (ok: bool, purse: M.Purse, ghost coins: seq<Item>)
    requires cylinder in s && Linked(Snap(s)) && Ranked(Snap(s), rank) && CoinsStacked(Snap(s)) && amount < M.TWO64
    ensures NoDup(coins) && Inside(Snap(s), coins)
    ensures forall x :: x in s ==>
      (x in coins <==> x in Descendants(Snap(s), rank, cylinder) && IsMoney(Snap(s)[x]))
    ensures ok <==> SumWorth(Snap(s), coins) >= amount
    ensures purse.All() == SumWorth(Snap(s), coins) - (if ok then amount else 0) && M.Stacked(purse.stacks)
  {
    hide Linked, Ranked, SumWorth, Descendants, NoDup, CoinsOf;
    ghost var f := Snap(s);
    var found, moneyCount := FindMoney(cylinder, s, rank);
    coins := found;
    PurseWorth(f, cylinder, found);
    AllStacked(f, cylinder, rank, found);
    var stacks := Gather(cylinder, found, s);
    purse := new M.Purse(stacks, slots);
    ok := purse.RemoveMoney(amount);
  }

  lemma {:induction false} AllStacked(f: Forest<Item>, c: Item, rank: map<Item, nat>, l: seq<Item>)
    requires Ranked(f, rank) && Inside(f, l) && CoinsStacked(f)
    requires forall x :: x in f ==> (x in l <==> x in Descendants(f, rank, c) && IsMoney(f[x]))
    ensures M.Stacked(CoinsOf(f, c, l))
  {
    hide Descendants, CoinsOf, IsMoney;
    forall i | 0 <= i < |l| ensures IsMoney(f[l[i]]) && f[l[i]].count <= M.STACK {
      assert l[i] in l && l[i] in f;
    }
    PurseStacked(f, c, l);
  }
}
