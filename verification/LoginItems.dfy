/** The rows of LoginData with the attributes of ItemCodec in them: what a player's items are after saving and
    loading, down to each attribute. */
module LoginItems {
  import opened Common
  import opened Bytes
  import opened Streams
  import opened ItemCodec
  import L = LoginData

  // ----- One item as a row

  /** A new item of a type with a count, as `CreateItem` makes it; containers are made without a count. */
  function CreateItem(types: Types, id: uint16, count0: uint16): (x: Item)
    ensures x.id == id && x.kids == []
  {
    var it := types(id);
    var count := if it.container then 0 else if it.stackable && count0 == 0 then 1 else count0;
    Item(id,
         if it.fluid || !it.stackable then 1
         else if count != 0 then U8(count) else if it.charges != 0 then U8(it.charges) else 1,
         (if it.fluid then map[FluidType := Int(count)] else map[])
         + (if Chargeable(it) then map[Charges := Int(if count != 0 then count else U16(it.charges))] else map[])
         + (if it.defaultDuration != 0 then map[Duration := Int(I32(it.defaultDuration))] else map[]),
         [])
  }

  function DataOf(types: Types, x: Item): L.ItemData
  {
    L.ItemData(x.id, GetSubType(types, x), BytesOf(Tokens(types, x)))
  }

  /** What loading makes of a row, if its type exists and its attributes can be read. */
  function Decoded(types: Types, d: L.ItemData): (r: Option<Item>)
  {
    if d.id >= 0x1_0000 || !types(d.id).known then None
    else
      match ReadAttrs(types, CreateItem(types, d.id, U16(d.count)), d.attributes, 0)
      case BadAttrs => None
      case GoodAttrs(item, _, _) => Some(item)
  }

  method SaveData(types: Types, x: Item) returns (d: L.ItemData)
    ensures d == DataOf(types, x)
  {
    var propWriteStream := new PropWriteStream();
    SerializeAttr(types, x, propWriteStream);
    assert [] + BytesOf(Tokens(types, x)) == BytesOf(Tokens(types, x));
    d := L.ItemData(x.id, GetSubType(types, x), propWriteStream.buffer);
  }

  /** An item whose attributes cannot be read is kept as far as they could be. */
  method LoadData(types: Types, d: L.ItemData) returns (item: Option<Item>)
    ensures Decoded(types, d).Some? ==> item == Decoded(types, d)
    ensures item.None? <==> d.id >= 0x1_0000 || !types(d.id).known
  {
    if d.id >= 0x1_0000 || !types(d.id).known {
      return None;
    }
    var propStream := new PropStream(d.attributes);
    var ok, y, n := UnserializeAttr(types, CreateItem(types, d.id, U16(d.count)), propStream);
    item := Some(y);
  }

  /** Whether the item starts with the count of its row or with none makes no difference: what decides is written
      among the attributes, or is zero. */
  lemma {:induction false} CountMatters(types: Types, x: Item)
    ensures Counted(types, CreateItem(types, x.id, GetSubType(types, x)), x) == Counted(types, Fresh(types, x.id), x)
  {
    hide I32;
    var it, y := types(x.id), Counted(types, CreateItem(types, x.id, GetSubType(types, x)), x);
    var z := Counted(types, Fresh(types, x.id), x);
    forall k ensures Lookup(y.attrs, k) == Lookup(z.attrs, k) {
    }
    SameAttributes(y.attrs, z.attrs);
  }

  lemma {:induction false} SameAttributes(a: Attributes, b: Attributes)
    requires forall k :: Lookup(a, k) == Lookup(b, k)
    ensures a == b
  {
    assert forall k :: k in a <==> k in b by {
      forall k ensures k in a <==> k in b {
        assert Lookup(a, k) == Lookup(b, k);
      }
    }
    forall k | k in a ensures a[k] == b[k] {
      assert Lookup(a, k) == Lookup(b, k);
    }
  }

  lemma {:induction false} RowApplied(types: Types, x: Item)
    ensures ApplyAll(types, CreateItem(types, x.id, GetSubType(types, x)), Tokens(types, x))
      == Normal(types, x).(kids := [])
  {
    hide ApplyAll, CountTokens, AttrTokens, Counted, Normal, CreateItem, GetSubType, Fresh;
    var ts, us := CountTokens(types, x), AttrTokens(types(x.id), x.attrs, ORDER);
    CountMatters(types, x);
    CountTokensApplied(types, CreateItem(types, x.id, GetSubType(types, x)), x);
    CountTokensApplied(types, Fresh(types, x.id), x);
    TokensApplied(types, x);
    ApplyAllAppend(types, CreateItem(types, x.id, GetSubType(types, x)), ts, us);
    ApplyAllAppend(types, Fresh(types, x.id), ts, us);
  }

  /** A row that was saved is loaded, and gives the item in its normal form. */
  lemma {:induction false} RowRead(types: Types, x: Item)
    requires types(x.id).known
    ensures Decoded(types, DataOf(types, x)) == Some(Normal(types, x).(kids := []))
  {
    hide ApplyAll, Tokens, Normal, CreateItem, GetSubType, BytesOf, ReadToken;
    var ts := Tokens(types, x);
    var s := BytesOf(ts);
    var bare := CreateItem(types, x.id, GetSubType(types, x));
    BytesStand(s, 0, ts, |s|);
    ReadAttrsStand(types, bare, s, 0, ts, |s|);
    RowApplied(types, x);
  }

  // ----- Whole trees

  /** Only containers hold items, and all types exist. */
  predicate Typed(types: Types, x: Item)
  {
    && types(x.id).known && (x.kids != [] ==> types(x.id).container)
    && forall k :: k in x.kids ==> Typed(types, k)
  }

  /** What LoginData asks of the types. */
  function KindsOf(types: Types): L.Types
  {
    (n: nat) => if n >= 0x1_0000 || !types(n).known then L.Unknown else if types(n).container then L.Holder else L.Plain
  }

  function Flat(types: Types, x: Item): (r: L.Item)
    decreases x, 0
  {
    L.Item(DataOf(types, x), FlatAll(types, x.kids))
  }

  function FlatAll(types: Types, l: seq<Item>): (r: seq<L.Item>)
    ensures |r| == |l| && forall i :: 0 <= i < |l| ==> r[i] == Flat(types, l[i])
    decreases l, 1
  {
    if l == [] then [] else [Flat(types, l[0])] + FlatAll(types, l[1..])
  }

  lemma {:induction false} FlatTyped(types: Types, x: Item)
    requires Typed(types, x)
    ensures L.Typed(KindsOf(types), Flat(types, x))
  {
    var r := Flat(types, x);
    forall k | k in r.kids ensures L.Typed(KindsOf(types), k) {
      var i :| 0 <= i < |x.kids| && r.kids[i] == k;
      FlatTyped(types, x.kids[i]);
    }
  }

  method SaveTree(types: Types, x: Item) returns (r: L.Item)
    ensures r == Flat(types, x)
  {
    hide Flat, FlatAll, DataOf;
    var data := SaveData(types, x);
    var kids: seq<L.Item> := [];
    for i := 0 to |x.kids|
      invariant |kids| == i && forall j :: 0 <= j < i ==> kids[j] == Flat(types, x.kids[j])
    {
      var kid := SaveTree(types, x.kids[i]);
      kids := kids + [kid];
    }
    KidsFlat(types, x.kids, kids);
    assert Flat(types, x) == L.Item(data, kids) by { FlatIs(types, x); }
    r := L.Item(data, kids);
  }

  lemma {:induction false} FlatIs(types: Types, x: Item)
    ensures Flat(types, x) == L.Item(DataOf(types, x), FlatAll(types, x.kids))
  {
  }

  lemma {:induction false} KidsFlat(types: Types, l: seq<Item>, kids: seq<L.Item>)
    requires |kids| == |l| && forall j :: 0 <= j < |l| ==> kids[j] == Flat(types, l[j])
    ensures kids == FlatAll(types, l)
  {
    hide Flat, FlatAll;
  }

  /** The object `n` and all that hangs below it stand for `x`: each row gives its item in normal form, and each list
      has the same items in the same order, linked both ways. */
  ghost predicate StandsFor(types: Types, objects: set<L.ItemNode>, n: L.ItemNode, x: Item)
    reads objects
    decreases x
  {
    && n in objects && Decoded(types, n.data) == Some(Normal(types, x).(kids := []))
    && |n.itemlist| == |x.kids| && L.Beneath(objects, n, n.itemlist)
    && forall i :: 0 <= i < |x.kids| ==> StandsFor(types, objects, n.itemlist[i], x.kids[i])
  }

  lemma {:induction false} RowsStand(types: Types, objects: set<L.ItemNode>, n: L.ItemNode, x: Item)
    requires Typed(types, x) && L.Represents(objects, n, Flat(types, x))
    ensures StandsFor(types, objects, n, x)
    decreases x
  {
    hide Decoded, DataOf, Normal, L.Beneath;
    RowRead(types, x);
    forall i | 0 <= i < |x.kids| ensures StandsFor(types, objects, n.itemlist[i], x.kids[i]) {
      assert L.Represents(objects, n.itemlist[i], Flat(types, x).kids[i]);
      RowsStand(types, objects, n.itemlist[i], x.kids[i]);
    }
  }

  ghost predicate AllStand(types: Types, objects: set<L.ItemNode>, list: seq<L.ItemNode>, items: seq<Item>)
    reads objects
  {
    |list| == |items| && forall i :: 0 <= i < |list| ==> StandsFor(types, objects, list[i], items[i])
  }

  ghost predicate FlatRoots(types: Types, itemList: seq<(int, Item)>, roots: seq<(int, L.Item)>)
  {
    |roots| == |itemList|
    && forall i :: 0 <= i < |roots| ==> roots[i] == (itemList[i].0, Flat(types, itemList[i].1))
  }

  lemma {:induction false} FlatAtKey(types: Types, store: L.Store, key: int, itemList: seq<(int, Item)>,
        roots: seq<(int, L.Item)>)
    requires FlatRoots(types, itemList, roots) && forall i :: 0 <= i < |itemList| ==> Typed(types, itemList[i].1)
    ensures L.AtKey(store, key, roots) == FlatAll(types, L.AtKey(store, key, itemList))
    ensures forall x :: x in L.AtKey(store, key, itemList) ==> Typed(types, x)
  {
    if roots != [] {
      FlatAtKey(types, store, key, itemList[1..], roots[1..]);
    }
  }

  /** Saving a player's items and loading them brings back every place, with every item in its normal form and what
      it holds in order, to any depth. */
  method SaveAndLoad(types: Types, store: L.Store, itemList: seq<(int, Item)>)
    returns (player: L.Player, ghost objects: set<L.ItemNode>)
    requires forall i :: 0 <= i < |itemList| ==> Typed(types, itemList[i].1) && L.IsRoot(store, itemList[i].0)
    requires store == L.Inventory ==> forall i, j :: 0 <= i < j < |itemList| ==> itemList[i].0 != itemList[j].0
    ensures forall key :: AllStand(types, objects, player.Place(key), L.AtKey(store, key, itemList))
  {
    hide Flat, Typed, StandsFor, L.Represents, L.Typed;
    var roots: seq<(int, L.Item)> := [];
    for i := 0 to |itemList|
      invariant |roots| == i && forall j :: 0 <= j < i ==> roots[j] == (itemList[j].0, Flat(types, itemList[j].1))
      invariant forall j :: 0 <= j < i ==> L.Typed(KindsOf(types), roots[j].1)
    {
      FlatTyped(types, itemList[i].1);
      var root := SaveTree(types, itemList[i].1);
      roots := roots + [(itemList[i].0, root)];
    }
    player, objects := L.SaveAndLoad(KindsOf(types), store, roots);
    forall key ensures AllStand(types, objects, player.Place(key), L.AtKey(store, key, itemList)) {
      FlatAtKey(types, store, key, itemList, roots);
      PlaceStands(types, objects, player.Place(key), L.AtKey(store, key, itemList));
    }
  }

  lemma {:induction false} PlaceStands(types: Types, objects: set<L.ItemNode>, list: seq<L.ItemNode>, items: seq<Item>)
    requires L.AllRepresent(objects, list, FlatAll(types, items)) && forall x :: x in items ==> Typed(types, x)
    ensures AllStand(types, objects, list, items)
  {
    hide Typed, StandsFor, L.Represents;
    forall i | 0 <= i < |list| ensures StandsFor(types, objects, list[i], items[i]) {
      assert items[i] in items;
      RowsStand(types, objects, list[i], items[i]);
    }
  }
}
