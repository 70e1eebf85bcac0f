/** Items written to and read from house tiles, with everything in them. A container writes its
    items last one first and reads each to the front, so their order survives. */
module MapSerialize {
  import opened Common
  import opened Bytes
  import opened Streams
  import opened ItemCodec

  // ----- Saving

  function SavedBytes(types: Types, x: Item): (s: seq<byte>)
    decreases x, 1
  {
    Encode(x.id, 2) + BytesOf(Tokens(types, x)) + HeldBytes(types, x) + [0]
  }

  /** A container's announcement of its items, and the items. */
  function HeldBytes(types: Types, x: Item): (s: seq<byte>)
    decreases x, 0
  {
    if types(x.id).container then [ATTR_CONTAINER_ITEMS] + Encode(|x.kids|, 4) + ReversedBytes(types, x.kids) else []
  }

  function ReversedBytes(types: Types, kids: seq<Item>): (s: seq<byte>)
    decreases kids, 2
  {
    if kids == [] then []
    else SavedBytes(types, kids[|kids| - 1]) + ReversedBytes(types, kids[..|kids| - 1])
  }

  method SaveItem(types: Types, x: Item, stream: PropWriteStream)
    modifies stream
    ensures stream.buffer == old(stream.buffer) + SavedBytes(types, x)
    decreases x, 1
  {
    stream.Write(x.id, 2);
    SerializeAttr(types, x, stream);
    SaveHeld(types, x, stream);
    stream.WriteByte(0);
    Assoc4(old(stream.buffer), Encode(x.id, 2), BytesOf(Tokens(types, x)), HeldBytes(types, x), [0]);
  }

  method SaveHeld(types: Types, x: Item, stream: PropWriteStream)
    modifies stream
    ensures stream.buffer == old(stream.buffer) + HeldBytes(types, x)
    decreases x, 0
  {
    if types(x.id).container {
      stream.WriteByte(ATTR_CONTAINER_ITEMS);
      stream.Write(|x.kids|, 4);
      SaveReversed(types, x.kids, stream);
      Assoc3(old(stream.buffer), [ATTR_CONTAINER_ITEMS], Encode(|x.kids|, 4), ReversedBytes(types, x.kids));
    }
  }

  method SaveReversed(types: Types, kids: seq<Item>, stream: PropWriteStream)
    modifies stream
    ensures stream.buffer == old(stream.buffer) + ReversedBytes(types, kids)
    decreases kids, 2
  {
    var i := |kids|;
    assert kids[..i] == kids;
    while i > 0
      invariant 0 <= i <= |kids|
      invariant stream.buffer + ReversedBytes(types, kids[..i]) == old(stream.buffer) + ReversedBytes(types, kids)
    {
      i := i - 1;
      assert kids[..i + 1][..i] == kids[..i];
      ghost var now := stream.buffer;
      SaveItem(types, kids[i], stream);
      Assoc(now, SavedBytes(types, kids[i]), ReversedBytes(types, kids[..i]));
    }
  }

  // ----- Loading

  /** An item read from the stream up to `p`; an item of an unknown type is nothing. */
  datatype ItemRead = BadItem | GoodItem(item: Option<Item>, p: nat)

  datatype KidsRead = BadKids | GoodKids(kids: seq<Item>, p: nat)

  function ReadItem(types: Types, s: seq<byte>, p: nat): (r: ItemRead)
    requires p <= |s|
    ensures r.GoodItem? ==> p < r.p <= |s|
    decreases |s| - p, 0, 0
  {
    if p + 2 > |s| then BadItem
    else
      var id := U16(NumberAt(s, p, 2));
      if !types(id).known then GoodItem(None, p + 2)
      else
        match ReadAttrs(types, Fresh(types, id), s, p + 2)
        case BadAttrs => BadItem
        case GoodAttrs(x, held, q) =>
          if !types(id).container then GoodItem(Some(x), q)
          else
            match ReadKids(types, s, q, held, [])
            case BadKids => BadItem
            case GoodKids(kids, end) => GoodItem(Some(x.(kids := kids)), end)
  }

  /** Reads `held` more items in front of `kids`, and the end of the container. */
  function ReadKids(types: Types, s: seq<byte>, p: nat, held: nat, kids: seq<Item>): (r: KidsRead)
    requires p <= |s|
    ensures r.GoodKids? ==> p < r.p <= |s|
    decreases |s| - p, 1, held
  {
    if held == 0 then
      if p < |s| && s[p] == 0 then GoodKids(kids, p + 1) else BadKids
    else
      match ReadItem(types, s, p)
      case BadItem => BadKids
      case GoodItem(x, q) => ReadKids(types, s, q, held - 1, if x.Some? then [x.value] + kids else kids)
  }

  method LoadItem(types: Types, propStream: PropStream) returns (ok: bool, item: Option<Item>)
    requires propStream.Valid()
    modifies propStream
    ensures propStream.Valid()
    ensures var r := ReadItem(types, propStream.data, old(propStream.p));
      ok == r.GoodItem? && (ok ==> r == GoodItem(item, propStream.p))
    decreases |propStream.data| - propStream.p, 0, 0
  {
    hide ReadAttrs, ReadKids, Fresh, NumberAt;
    item := None;
    var id: nat;
    ok, id := propStream.Read(2);
    if !ok {
      return;
    }
    TwoBytes(propStream.data, propStream.p - 2);
    if !types(id).known {
      return;
    }
    var x, serializationCount;
    ok, x, serializationCount := UnserializeAttr(types, Fresh(types, id), propStream);
    if !ok {
      return;
    }
    if types(id).container {
      var kids;
      ok, kids := LoadContainer(types, propStream, serializationCount);
      if !ok {
        return;
      }
      x := x.(kids := kids);
    }
    item := Some(x);
  }

  method LoadContainer(types: Types, propStream: PropStream, count: nat) returns (ok: bool, itemlist: seq<Item>)
    requires propStream.Valid()
    modifies propStream
    ensures propStream.Valid()
    ensures var r := ReadKids(types, propStream.data, old(propStream.p), count, []);
      ok == r.GoodKids? && (ok ==> r == GoodKids(itemlist, propStream.p))
    decreases |propStream.data| - propStream.p, 1, 0
  {
    itemlist := [];
    var serializationCount := count;
    ghost var r := ReadKids(types, propStream.data, propStream.p, count, []);
    while serializationCount > 0
      invariant propStream.Valid() && propStream.p >= old(propStream.p)
      invariant r == ReadKids(types, propStream.data, propStream.p, serializationCount, itemlist)
    {
      var item;
      ok, item := LoadItem(types, propStream);
      if !ok {
        return;
      }
      if item.Some? {
        itemlist := [item.value] + itemlist;
      }
      serializationCount := serializationCount - 1;
    }
    var endAttr;
    ok, endAttr := propStream.Read(1);
    if ok {
      OneByte(propStream.data, propStream.p - 1);
      ok := endAttr == 0;
    }
  }

  lemma {:induction false} TwoBytes(s: seq<byte>, p: nat)
    requires p + 2 <= |s|
    ensures NumberAt(s, p, 2) <= 0xFFFF
  {
    Widths();
    DecodeBound(s[p..p + 2]);
  }

  // ----- Loading what was saved

  /** Items of known types, with items only in containers, and no more of them than can be announced. */
  predicate Typed(types: Types, x: Item)
    decreases x, 1
  {
    && types(x.id).known
    && (types(x.id).container || x.kids == [])
    && |x.kids| < 0x1_0000_0000
    && AllTyped(types, x.kids)
  }

  predicate AllTyped(types: Types, kids: seq<Item>)
    decreases kids, 0
  {
    kids == [] || (Typed(types, kids[|kids| - 1]) && AllTyped(types, kids[..|kids| - 1]))
  }

  /** An item as it is after saving and loading, with everything in it. */
  function Restored(types: Types, x: Item): (y: Item)
    decreases x, 1
  {
    Normal(types, x).(kids := AllRestored(types, x.kids))
  }

  function AllRestored(types: Types, kids: seq<Item>): (r: seq<Item>)
    ensures |r| == |kids|
    decreases kids, 0
  {
    if kids == [] then []
    else AllRestored(types, kids[..|kids| - 1]) + [Restored(types, kids[|kids| - 1])]
  }

  lemma {:induction false} AllRestoredAt(types: Types, kids: seq<Item>, i: nat)
    requires i < |kids|
    ensures AllRestored(types, kids)[i] == Restored(types, kids[i])
  {
    if i < |kids| - 1 {
      AllRestoredAt(types, kids[..|kids| - 1], i);
    }
  }

  /** `x` stands saved in `s` between `p` and `end`, said piece by piece. */
  ghost predicate SavedAt(types: Types, s: seq<byte>, p: nat, x: Item, end: nat)
    decreases x, 2
  {
    var q := p + 2 + |BytesOf(Tokens(types, x))|;
    && q <= end <= |s|
    && NumberAt(s, p, 2) == x.id
    && Stands(s, p + 2, Tokens(types, x), q)
    && HeldAt(types, s, q, x, end)
  }

  ghost predicate HeldAt(types: Types, s: seq<byte>, q: nat, x: Item, end: nat)
    decreases x, 1
  {
    && q < end <= |s| && s[end - 1] == 0
    && if types(x.id).container then
         && q + 5 < end && s[q] == ATTR_CONTAINER_ITEMS && NumberAt(s, q + 1, 4) == |x.kids|
         && ReversedAt(types, s, q + 5, x.kids, end - 1)
       else q == end - 1
  }

  ghost predicate ReversedAt(types: Types, s: seq<byte>, p: nat, kids: seq<Item>, end: nat)
    decreases kids, 3
  {
    if kids == [] then p == end <= |s|
    else
      var last := kids[|kids| - 1];
      var q := p + |SavedBytes(types, last)|;
      q <= end && SavedAt(types, s, p, last, q) && ReversedAt(types, s, q, kids[..|kids| - 1], end)
  }

  /** The parts of a saved item. */
  lemma {:induction false} SavedBytesSplit(types: Types, s: seq<byte>, p: nat, x: Item, ts: seq<Token>, q: nat)
    requires At(s, p, SavedBytes(types, x)) && ts == Tokens(types, x) && q == p + 2 + |BytesOf(ts)|
    ensures At(s, p, Encode(x.id, 2)) && At(s, p + 2, BytesOf(ts)) && At(s, q, HeldBytes(types, x))
    ensures p + |SavedBytes(types, x)| == q + |HeldBytes(types, x)| + 1 <= |s|
    ensures s[q + |HeldBytes(types, x)|] == 0
  {
    hide HeldBytes, ItemCodec.BytesOf, ItemCodec.Tokens;
    var i, t, h := Encode(x.id, 2), BytesOf(ts), HeldBytes(types, x);
    AtSplit(s, p, i + t + h, [0]);
    AtSplit(s, p, i + t, h);
    AtSplit(s, p, i, t);
    AtHead(s, q + |h|, [0]);
  }

  /** A saved item's type and attributes can be read back. */
  lemma {:induction false} SavedHead(s: seq<byte>, p: nat, id: uint16, ts: seq<Token>, q: nat)
    requires At(s, p, Encode(id, 2)) && At(s, p + 2, BytesOf(ts)) && AllWellformed(ts) && q == p + 2 + |BytesOf(ts)|
    ensures p + 2 <= |s| && NumberAt(s, p, 2) == id && Stands(s, p + 2, ts, q)
  {
    Widths();
    AtNumber(s, p, id, 2);
    BytesStand(s, p + 2, ts, q);
  }

  lemma {:induction false} BytesSavedAt(types: Types, s: seq<byte>, p: nat, x: Item, end: nat)
    requires At(s, p, SavedBytes(types, x)) && Typed(types, x) && end == p + |SavedBytes(types, x)|
    ensures SavedAt(types, s, p, x, end)
    decreases x, 2
  {
    hide SavedBytes, HeldAt, ItemCodec.Stands, ItemCodec.Tokens, ItemCodec.BytesOf;
    var ts := Tokens(types, x);
    var q := p + 2 + |BytesOf(ts)|;
    assert q <= end <= |s| && NumberAt(s, p, 2) == x.id && Stands(s, p + 2, ts, q) by {
      SavedBytesSplit(types, s, p, x, ts, q);
      SavedHead(s, p, x.id, ts, q);
    }
    assert HeldAt(types, s, q, x, end) by {
      SavedBytesSplit(types, s, p, x, ts, q);
      BytesHeldAt(types, s, q, x, end);
    }
  }

  /** The parts of what is written for a container's items. */
  lemma {:induction false} HeldBytesSplit(types: Types, s: seq<byte>, q: nat, x: Item)
    requires At(s, q, HeldBytes(types, x)) && types(x.id).container && |x.kids| < 0x1_0000_0000
    ensures q + |HeldBytes(types, x)| == q + 5 + |ReversedBytes(types, x.kids)| <= |s|
    ensures s[q] == ATTR_CONTAINER_ITEMS && NumberAt(s, q + 1, 4) == |x.kids|
    ensures At(s, q + 5, ReversedBytes(types, x.kids))
  {
    hide Encode, ReversedBytes, At;
    var a, n, r := [ATTR_CONTAINER_ITEMS], Encode(|x.kids|, 4), ReversedBytes(types, x.kids);
    AtSplit(s, q, a + n, r);
    AtSplit(s, q, a, n);
    AtHead(s, q, a);
    Widths();
    AtNumber(s, q + 1, |x.kids|, 4);
  }

  lemma {:induction false} BytesHeldAt(types: Types, s: seq<byte>, q: nat, x: Item, end: nat)
    requires At(s, q, HeldBytes(types, x)) && Typed(types, x)
    requires end == q + |HeldBytes(types, x)| + 1 <= |s| && s[end - 1] == 0
    ensures HeldAt(types, s, q, x, end)
    decreases x, 1
  {
    hide Encode, ReversedBytes;
    if types(x.id).container {
      HeldBytesSplit(types, s, q, x);
      BytesReversedAt(types, s, q + 5, x.kids, end - 1);
    }
  }

  lemma {:induction false} BytesReversedAt(types: Types, s: seq<byte>, p: nat, kids: seq<Item>, end: nat)
    requires At(s, p, ReversedBytes(types, kids)) && AllTyped(types, kids)
    requires end == p + |ReversedBytes(types, kids)|
    ensures ReversedAt(types, s, p, kids, end)
    decreases kids, 3
  {
    if kids != [] {
      var last, rest := kids[|kids| - 1], kids[..|kids| - 1];
      var q := p + |SavedBytes(types, last)|;
      AtSplit(s, p, SavedBytes(types, last), ReversedBytes(types, rest));
      BytesSavedAt(types, s, p, last, q);
      BytesReversedAt(types, s, q, rest, end);
    }
  }

  /** Reading an item is reading its type, its attributes and, for a container, its items. */
  lemma {:induction false} ReadParts(types: Types, s: seq<byte>, p: nat, id: uint16, ts: seq<Token>, q: nat, y: Item,
        held: nat, r: nat, kids: seq<Item>, end: nat)
    requires p + 2 <= q <= |s| && NumberAt(s, p, 2) == id && types(id).known
    requires Stands(s, p + 2, ts, q) && ApplyAll(types, Fresh(types, id), ts) == y
    requires r <= |s| && ReadAttrs(types, y, s, q) == GoodAttrs(y, held, r)
    requires if types(id).container then ReadKids(types, s, r, held, []) == GoodKids(kids, end)
             else kids == y.kids && r == end
    ensures ReadItem(types, s, p) == GoodItem(Some(y.(kids := kids)), end)
  {
    hide ReadAttrs, ReadKids, ApplyAll, Stands, Fresh, NumberAt;
    ReadAttrsStand(types, Fresh(types, id), s, p + 2, ts, q);
  }

  lemma {:induction false} ReadSavedItem(types: Types, s: seq<byte>, p: nat, x: Item, end: nat)
    requires SavedAt(types, s, p, x, end) && Typed(types, x)
    ensures ReadItem(types, s, p) == GoodItem(Some(Restored(types, x)), end)
    decreases x, 2
  {
    hide HeldAt, AllRestored, ItemCodec.Stands, ItemCodec.Tokens, ItemCodec.ReadAttrs, ItemCodec.Normal, ReadKids;
    var ts := Tokens(types, x);
    var q := p + 2 + |BytesOf(ts)|;
    var container := types(x.id).container;
    var y := Normal(types, x).(kids := []);
    TokensApplied(types, x);
    ReadSavedHeld(types, s, q, x, y, end);
    ReadParts(types, s, p, x.id, ts, q, y,
              if container then |x.kids| else 0, if container then q + 5 else end, AllRestored(types, x.kids), end);
  }

  /** After its attributes, a saved container gives its items, and any other item ends. */
  lemma {:induction false} ReadSavedHeld(types: Types, s: seq<byte>, q: nat, x: Item, y: Item, end: nat)
    requires HeldAt(types, s, q, x, end) && Typed(types, x)
    requires y.id == x.id
    ensures types(x.id).container ==>
              && ReadAttrs(types, y, s, q) == GoodAttrs(y, |x.kids|, q + 5)
              && ReadKids(types, s, q + 5, |x.kids|, []) == GoodKids(AllRestored(types, x.kids), end)
    ensures !types(x.id).container ==> ReadAttrs(types, y, s, q) == GoodAttrs(y, 0, end)
    decreases x, 1
  {
    hide ReversedAt, AllRestored;
    if types(x.id).container {
      assert ReadKids(types, s, q + 5, |x.kids|, []) == GoodKids(AllRestored(types, x.kids), end) by {
        ReadSavedKids(types, s, q + 5, x.kids, end - 1, []);
        assert AllRestored(types, x.kids) + [] == AllRestored(types, x.kids);
      }
    }
  }

  /** The last item stands first, and the others after it. */
  lemma {:induction false} ReversedParts(types: Types, s: seq<byte>, p: nat, rest: seq<Item>, last: Item, end: nat)
    requires ReversedAt(types, s, p, rest + [last], end)
    ensures var q := p + |SavedBytes(types, last)|;
      q <= end && SavedAt(types, s, p, last, q) && ReversedAt(types, s, q, rest, end)
    ensures AllRestored(types, rest + [last]) == AllRestored(types, rest) + [Restored(types, last)]
  {
    hide SavedAt, SavedBytes, Restored;
    assert (rest + [last])[..|rest|] == rest;
  }

  /** Reading the items of a container, written last one first, puts them back in their order. */
  lemma {:induction false} ReadSavedKids(types: Types, s: seq<byte>, p: nat, kids: seq<Item>, end: nat,
        after: seq<Item>)
    requires ReversedAt(types, s, p, kids, end) && end < |s| && s[end] == 0 && AllTyped(types, kids)
    ensures p <= |s| && ReadKids(types, s, p, |kids|, after) == GoodKids(AllRestored(types, kids) + after, end + 1)
    decreases kids, 3
  {
    hide SavedAt, SavedBytes, Restored, ReadItem;
    if kids == [] {
      assert [] + after == after;
    } else {
      var last, rest := kids[|kids| - 1], kids[..|kids| - 1];
      assert kids == rest + [last];
      var q, y := p + |SavedBytes(types, last)|, Restored(types, last);
      ReversedParts(types, s, p, rest, last, end);
      ReadSavedItem(types, s, p, last, q);
      ReadSavedKids(types, s, q, rest, end, [y] + after);
      OneMoreKid(types, s, p, rest, AllRestored(types, rest), y, q, end, after);
    }
  }

  lemma {:induction false} OneMoreKid(types: Types, s: seq<byte>, p: nat, rest: seq<Item>, read: seq<Item>, y: Item,
        q: nat, end: nat, after: seq<Item>)
    requires p <= |s| && ReadItem(types, s, p) == GoodItem(Some(y), q)
    requires ReadKids(types, s, q, |rest|, [y] + after) == GoodKids(read + ([y] + after), end + 1)
    ensures ReadKids(types, s, p, |rest| + 1, after) == GoodKids((read + [y]) + after, end + 1)
  {
    NextKid(types, s, p, |rest| + 1, y, q, after);
    Shift(read, y, after);
  }

  lemma {:induction false} NextKid(types: Types, s: seq<byte>, p: nat, held: nat, x: Item, q: nat, after: seq<Item>)
    requires p <= |s| && held > 0 && ReadItem(types, s, p) == GoodItem(Some(x), q)
    ensures ReadKids(types, s, p, held, after) == ReadKids(types, s, q, held - 1, [x] + after)
  {
  }

  lemma {:induction false} Shift(a: seq<Item>, x: Item, b: seq<Item>)
    ensures a + ([x] + b) == (a + [x]) + b
  {
  }

  /** Loading a saved item consumes exactly the bytes written for it, whatever stands around them,
      and gives the item back, in its normal form, with all it holds in the same order. */
  lemma {:induction false} LoadSaved(types: Types, x: Item, before: seq<byte>, after: seq<byte>)
    requires Typed(types, x)
    ensures ReadItem(types, before + SavedBytes(types, x) + after, |before|)
         == GoodItem(Some(Restored(types, x)), |before| + |SavedBytes(types, x)|)
  {
    var s := before + SavedBytes(types, x) + after;
    var end := |before| + |SavedBytes(types, x)|;
    AtMiddle(before, SavedBytes(types, x), after);
    BytesSavedAt(types, s, |before|, x, end);
    ReadSavedItem(types, s, |before|, x, end);
  }

  lemma {:induction false} AtMiddle(a: seq<byte>, b: seq<byte>, c: seq<byte>)
    ensures At(a + b + c, |a|, b)
  {
  }

  /** Every item of a tree can be stored as it is. */
  ghost predicate AllStorable(types: Types, x: Item)
  {
    && (forall k :: Storable(types(x.id), x.attrs, k))
    && ((types(x.id).stackable && !types(x.id).fluid) || x.count == 1)
    && forall k :: k in x.kids ==> AllStorable(types, k)
  }

  /** A tree of items comes back as it was if and only if all items in it can be stored as they are. */
  lemma {:induction false} RestoredIff(types: Types, x: Item)
    ensures Restored(types, x) == x <==> AllStorable(types, x)
  {
    UnchangedIff(types, x);
    var r := AllRestored(types, x.kids);
    forall i | 0 <= i < |x.kids| ensures r[i] == x.kids[i] <==> AllStorable(types, x.kids[i]) {
      RestoredIff(types, x.kids[i]);
      AllRestoredAt(types, x.kids, i);
    }
    if Restored(types, x) == x {
      assert r == x.kids;
    } else if Normal(types, x) == x {
      assert r != x.kids;
    }
  }
}
