/** Items, their optional attributes, and the tagged byte stream that attributes are kept in. */
module ItemCodec {
  import opened Common
  import opened Bytes
  import opened Streams

  /** The attributes an item can be given, beside its type and count. */
  datatype Attr =
    | ActionId | UniqueId | Description | Text | Date | Writer | Name | Article | PluralName | Weight | Attack
    | Defense | ExtraDefense | Armor | HitChance | ShootRange | Owner | Duration | DecayState | CorpseOwner
    | Charges | FluidType | DoorId

  datatype Value = Int(n: int) | Str(s: seq<byte>)

  type Attributes = map<Attr, Value>

  datatype Item = Item(id: uint16, count: byte, attrs: Attributes, kids: seq<Item>)

  /** What the code below asks of an item type. `fluid` covers fluid containers and splashes. */
  datatype ItemType = ItemType(known: bool, container: bool, stackable: bool, fluid: bool, moveable: bool,
                               charges: uint32, defaultDuration: uint32)

  type Types = uint16 -> ItemType

  const DECAYING_TRUE := 1
  const DECAYING_PENDING := 2

  const ATTR_ACTION_ID: byte := 4
  const ATTR_UNIQUE_ID: byte := 5
  const ATTR_TEXT: byte := 6
  const ATTR_DESC: byte := 7
  const ATTR_TELE_DEST: byte := 8
  const ATTR_DEPOT_ID: byte := 10
  const ATTR_RUNE_CHARGES: byte := 12
  const ATTR_HOUSEDOORID: byte := 14
  const ATTR_COUNT: byte := 15
  const ATTR_DURATION: byte := 16
  const ATTR_DECAYING_STATE: byte := 17
  const ATTR_WRITTENDATE: byte := 18
  const ATTR_WRITTENBY: byte := 19
  const ATTR_SLEEPERGUID: byte := 20
  const ATTR_SLEEPSTART: byte := 21
  const ATTR_CHARGES: byte := 22
  const ATTR_CONTAINER_ITEMS: byte := 23
  const ATTR_NAME: byte := 24
  const ATTR_ARTICLE: byte := 25
  const ATTR_PLURALNAME: byte := 26
  const ATTR_WEIGHT: byte := 27
  const ATTR_ATTACK: byte := 28
  const ATTR_DEFENSE: byte := 29
  const ATTR_EXTRADEFENSE: byte := 30
  const ATTR_ARMOR: byte := 31
  const ATTR_HITCHANCE: byte := 32
  const ATTR_SHOOTRANGE: byte := 33

  // ----- Integers in and out of their widths

  function ToSigned(v: int, bits8: int): int
  {
    if v < bits8 / 2 then v else v - bits8
  }

  function U8(v: int): byte { v % 0x100 }

  function U16(v: int): uint16 { v % 0x1_0000 }

  function U32(v: int): uint32 { v % 0x1_0000_0000 }

  function I8(v: int): int { ToSigned(v % 0x100, 0x100) }

  function I32(v: int): int { ToSigned(v % 0x1_0000_0000, 0x1_0000_0000) }

  function Max(a: int, b: int): int { if a < b then b else a }

  /** An integer attribute reads as zero when it is not there, a string attribute as empty. */
  function IntOf(a: Attributes, k: Attr): int { if k in a && a[k].Int? then a[k].n else 0 }

  function StrOf(a: Attributes, k: Attr): seq<byte> { if k in a && a[k].Str? then a[k].s else [] }

  // ----- Making and changing items

  /** A newly created item of a type. */
  function Fresh(types: Types, id: uint16): (x: Item)
    ensures x.id == id && x.kids == []
  {
    var it := types(id);
    var count := if it.stackable && !it.container then 1 else 0;
    Item(id,
         if !it.fluid && it.stackable && count == 0 && it.charges != 0 then U8(it.charges) else 1,
         (if it.fluid then map[FluidType := Int(0)] else map[])
         + (if Chargeable(it) then map[Charges := Int(U16(it.charges))] else map[])
         + (if it.defaultDuration != 0 then map[Duration := Int(I32(it.defaultDuration))] else map[]),
         [])
  }

  /** The types whose `charges` attribute is their subtype. */
  predicate Chargeable(it: ItemType)
  {
    !it.fluid && !it.stackable && it.charges != 0
  }

  function GetSubType(types: Types, x: Item): uint16
  {
    var it := types(x.id);
    if it.fluid then U16(IntOf(x.attrs, FluidType))
    else if it.stackable then x.count
    else if it.charges != 0 then U16(IntOf(x.attrs, Charges))
    else x.count
  }

  function SetSubType(types: Types, x: Item, n: uint16): Item
  {
    var it := types(x.id);
    if it.fluid then x.(attrs := x.attrs[FluidType := Int(n)])
    else if it.stackable then x.(count := U8(n))
    else if it.charges != 0 then x.(attrs := x.attrs[Charges := Int(n)])
    else x.(count := U8(n))
  }

  // ----- Tokens: an attribute as the stream holds it

  datatype Token = Number(tag: byte, value: nat) | Chars(tag: byte, text: seq<byte>)

  /** How many bytes the integer of a tag takes up; zero for other tags. */
  function Width(tag: byte): (w: nat)
  {
    if tag == ATTR_RUNE_CHARGES || tag == ATTR_COUNT || tag == ATTR_DECAYING_STATE || tag == ATTR_HITCHANCE
       || tag == ATTR_SHOOTRANGE || tag == ATTR_HOUSEDOORID then 1
    else if tag == ATTR_ACTION_ID || tag == ATTR_UNIQUE_ID || tag == ATTR_CHARGES || tag == ATTR_DEPOT_ID then 2
    else if tag == ATTR_WRITTENDATE || tag == ATTR_DURATION || tag == ATTR_WEIGHT || tag == ATTR_ATTACK
            || tag == ATTR_DEFENSE || tag == ATTR_EXTRADEFENSE || tag == ATTR_ARMOR
            || tag == ATTR_SLEEPERGUID || tag == ATTR_SLEEPSTART then 4
    else if tag == ATTR_TELE_DEST then 5
    else 0
  }

  predicate HoldsText(tag: byte)
  {
    || tag == ATTR_TEXT || tag == ATTR_DESC || tag == ATTR_WRITTENBY
    || tag == ATTR_NAME || tag == ATTR_ARTICLE || tag == ATTR_PLURALNAME
  }

  /** The integers of a width lie below this. */
  function Limit(width: nat): (n: nat)
  {
    if width == 1 then 0x100 else if width == 2 then 0x1_0000 else if width == 4 then 0x1_0000_0000 else 0
  }

  predicate Wellformed(t: Token)
  {
    match t
    case Number(tag, value) => value < Limit(Width(tag))
    case Chars(tag, _) => HoldsText(tag)
  }

  predicate AllWellformed(ts: seq<Token>)
  {
    forall i :: 0 <= i < |ts| ==> Wellformed(ts[i])
  }

  function TokenBytes(t: Token): seq<byte>
  {
    match t
    case Number(tag, value) => [tag] + Encode(value, Width(tag))
    case Chars(tag, text) => [tag] + StringBytes(text)
  }

  /** The attribute that a tag stands for; counts and charges are set as subtypes instead, and
      attributes of special items are skipped over. */
  function AttrOf(tag: byte): (k: Option<Attr>)
  {
    if tag == ATTR_ACTION_ID then Some(ActionId)
    else if tag == ATTR_TEXT then Some(Text)
    else if tag == ATTR_DESC then Some(Description)
    else if tag == ATTR_DURATION then Some(Duration)
    else if tag == ATTR_DECAYING_STATE then Some(DecayState)
    else if tag == ATTR_WRITTENDATE then Some(Date)
    else if tag == ATTR_WRITTENBY then Some(Writer)
    else if tag == ATTR_NAME then Some(Name)
    else if tag == ATTR_ARTICLE then Some(Article)
    else if tag == ATTR_PLURALNAME then Some(PluralName)
    else if tag == ATTR_WEIGHT then Some(Weight)
    else if tag == ATTR_ATTACK then Some(Attack)
    else if tag == ATTR_DEFENSE then Some(Defense)
    else if tag == ATTR_EXTRADEFENSE then Some(ExtraDefense)
    else if tag == ATTR_ARMOR then Some(Armor)
    else if tag == ATTR_HITCHANCE then Some(HitChance)
    else if tag == ATTR_SHOOTRANGE then Some(ShootRange)
    else None
  }

  /** The value stored for an integer read from the stream. */
  function Stored(k: Attr, v: nat): int
  {
    match k
    case ActionId => Max(100, v)
    case Duration => Max(0, I32(v))
    case HitChance => I8(v)
    case Date => I32(v)
    case Weight => I32(v)
    case Attack => I32(v)
    case Defense => I32(v)
    case ExtraDefense => I32(v)
    case Armor => I32(v)
    case DecayState => DECAYING_PENDING
    case _ => v
  }

  /** What reading one attribute does to an item. Empty strings and a zero decay state set nothing. */
  function Apply(types: Types, x: Item, t: Token): (y: Item)
    ensures y.id == x.id && y.kids == x.kids
  {
    var k := AttrOf(t.tag);
    match t
    case Chars(_, text) =>
      if k.None? || text == [] then x else x.(attrs := x.attrs[k.value := Str(text)])
    case Number(tag, v) =>
      if tag == ATTR_COUNT || tag == ATTR_RUNE_CHARGES || tag == ATTR_CHARGES then SetSubType(types, x, U16(v))
      else if k.None? || (k.value == DecayState && v == 0) then x
      else x.(attrs := x.attrs[k.value := Int(Stored(k.value, v))])
  }

  // ----- Saving attributes

  /** The order in which attributes are written, after the count and the charges. */
  const ORDER: seq<Attr> := [
    ActionId, Text, Date, Writer, Description, Duration, DecayState, Name, Article, PluralName,
    Weight, Attack, Defense, ExtraDefense, Armor, HitChance, ShootRange]

  /** How an attribute is written, if it is. */
  function Written(it: ItemType, a: Attributes, k: Attr): (t: Option<Token>)
    ensures t.Some? ==> Wellformed(t.value) && AttrOf(t.value.tag) == Some(k)
  {
    match k
    case ActionId =>
      if it.moveable && U16(IntOf(a, k)) != 0 then Some(Number(ATTR_ACTION_ID, U16(IntOf(a, k)))) else None
    case Date => if IntOf(a, k) != 0 then Some(Number(ATTR_WRITTENDATE, U32(IntOf(a, k)))) else None
    case DecayState =>
      if IntOf(a, k) == DECAYING_TRUE || IntOf(a, k) == DECAYING_PENDING
      then Some(Number(ATTR_DECAYING_STATE, IntOf(a, k))) else None
    case Text => WrittenText(a, k, ATTR_TEXT)
    case Writer => WrittenText(a, k, ATTR_WRITTENBY)
    case Description => WrittenText(a, k, ATTR_DESC)
    case Name => WrittenText(a, k, ATTR_NAME)
    case Article => WrittenText(a, k, ATTR_ARTICLE)
    case PluralName => WrittenText(a, k, ATTR_PLURALNAME)
    case Duration => if k in a then Some(Number(ATTR_DURATION, U32(IntOf(a, k)))) else None
    case Weight => if k in a then Some(Number(ATTR_WEIGHT, U32(IntOf(a, k)))) else None
    case Attack => if k in a then Some(Number(ATTR_ATTACK, U32(IntOf(a, k)))) else None
    case Defense => if k in a then Some(Number(ATTR_DEFENSE, U32(IntOf(a, k)))) else None
    case ExtraDefense => if k in a then Some(Number(ATTR_EXTRADEFENSE, U32(IntOf(a, k)))) else None
    case Armor => if k in a then Some(Number(ATTR_ARMOR, U32(IntOf(a, k)))) else None
    case HitChance => if k in a then Some(Number(ATTR_HITCHANCE, U8(IntOf(a, k)))) else None
    case ShootRange => if k in a then Some(Number(ATTR_SHOOTRANGE, U8(IntOf(a, k)))) else None
    case _ => None
  }

  /** Names, articles and plural names are written when present and other texts when not empty;
      this is the same thing, because a text attribute is never set to the empty string. */
  function WrittenText(a: Attributes, k: Attr, tag: byte): (t: Option<Token>)
    requires HoldsText(tag)
    ensures t.Some? ==> t.value.tag == tag && Wellformed(t.value)
  {
    if StrOf(a, k) != [] then Some(Chars(tag, StrOf(a, k))) else None
  }

  function CountTokens(types: Types, x: Item): (ts: seq<Token>)
    ensures AllWellformed(ts)
  {
    var it, charges := types(x.id), U16(IntOf(x.attrs, Charges));
    (if it.stackable || it.fluid then [Number(ATTR_COUNT, U8(GetSubType(types, x)))] else [])
    + (if charges != 0 then [Number(ATTR_CHARGES, charges)] else [])
  }

  function AttrTokens(it: ItemType, a: Attributes, order: seq<Attr>): (ts: seq<Token>)
    ensures AllWellformed(ts)
  {
    if order == [] then []
    else
      var t := Written(it, a, order[0]);
      (if t.Some? then [t.value] else []) + AttrTokens(it, a, order[1..])
  }

  /** What `serializeAttr` writes, in its order. */
  function Tokens(types: Types, x: Item): (ts: seq<Token>)
    ensures AllWellformed(ts)
  {
    CountTokens(types, x) + AttrTokens(types(x.id), x.attrs, ORDER)
  }

  function BytesOf(ts: seq<Token>): (s: seq<byte>)
  {
    if ts == [] then [] else TokenBytes(ts[0]) + BytesOf(ts[1..])
  }

  method WriteToken(t: Token, stream: PropWriteStream)
    modifies stream
    ensures stream.buffer == old(stream.buffer) + TokenBytes(t)
  {
    stream.WriteByte(t.tag);
    match t
    case Number(tag, value) =>
      stream.Write(value, Width(tag));
      Assoc(old(stream.buffer), [tag], Encode(value, Width(tag)));
    case Chars(tag, text) =>
      stream.WriteString(text);
      Assoc(old(stream.buffer), [tag], StringBytes(text));
  }

  lemma {:induction false} BytesOfSnoc(ts: seq<Token>, t: Token)
    ensures BytesOf(ts + [t]) == BytesOf(ts) + TokenBytes(t)
  {
    if ts == [] {
      assert [t][1..] == [];
    } else {
      assert (ts + [t])[1..] == ts[1..] + [t];
      BytesOfSnoc(ts[1..], t);
    }
  }

  /** The bytes of the first `n` attributes in their order. */
  function BytesUpTo(types: Types, x: Item, n: nat): seq<byte>
    requires n <= |ORDER|
  {
    BytesOf(CountTokens(types, x) + AttrTokens(types(x.id), x.attrs, ORDER[..n]))
  }

  lemma {:induction false} OneMore(types: Types, x: Item, n: nat)
    requires n < |ORDER|
    ensures BytesUpTo(types, x, n + 1) == BytesUpTo(types, x, n)
      + match Written(types(x.id), x.attrs, ORDER[n]) case Some(t) => TokenBytes(t) case None => []
  {
    var it, a, ts := types(x.id), x.attrs, CountTokens(types, x);
    var before := AttrTokens(it, a, ORDER[..n]);
    assert ORDER[..n + 1] == ORDER[..n] + [ORDER[n]];
    AttrTokensSnoc(it, a, ORDER[..n], ORDER[n]);
    match Written(it, a, ORDER[n]) {
      case Some(t) =>
        BytesOfSnoc(ts + before, t);
        assert ts + (before + [t]) == ts + before + [t];
      case None =>
        assert before + [] == before;
    }
  }

  lemma {:induction false} AttrTokensSnoc(it: ItemType, a: Attributes, order: seq<Attr>, k: Attr)
    ensures AttrTokens(it, a, order + [k])
      == AttrTokens(it, a, order) + match Written(it, a, k) case Some(t) => [t] case None => []
  {
    hide Written;
    if order == [] {
      assert [k][1..] == [];
    } else {
      assert (order + [k])[1..] == order[1..] + [k];
      AttrTokensSnoc(it, a, order[1..], k);
    }
  }

  /** Attributes are written one after another; the next is the `n`th. */
  ghost predicate WrittenUpTo(types: Types, x: Item, n: nat, before: seq<byte>, stream: PropWriteStream)
    requires n <= |ORDER|
    reads stream
  {
    stream.buffer == before + BytesUpTo(types, x, n)
  }

  method PutNumber(present: bool, tag: byte, value: nat, stream: PropWriteStream, ghost types: Types, ghost x: Item,
        ghost n: nat, ghost before: seq<byte>)
    requires n < |ORDER| && WrittenUpTo(types, x, n, before, stream) && (present ==> Wellformed(Number(tag, value)))
    requires Written(types(x.id), x.attrs, ORDER[n]) == if present then Some(Number(tag, value)) else None
    modifies stream
    ensures WrittenUpTo(types, x, n + 1, before, stream)
  {
    hide BytesUpTo, Written;
    OneMore(types, x, n);
    if present {
      WriteToken(Number(tag, value), stream);
      Assoc(before, BytesUpTo(types, x, n), TokenBytes(Number(tag, value)));
    }
  }

  method PutText(text: seq<byte>, tag: byte, stream: PropWriteStream, ghost types: Types, ghost x: Item, ghost n: nat,
        ghost before: seq<byte>)
    requires n < |ORDER| && WrittenUpTo(types, x, n, before, stream) && HoldsText(tag)
    requires Written(types(x.id), x.attrs, ORDER[n]) == if text != [] then Some(Chars(tag, text)) else None
    modifies stream
    ensures WrittenUpTo(types, x, n + 1, before, stream)
  {
    hide BytesUpTo, Written;
    OneMore(types, x, n);
    if text != [] {
      WriteToken(Chars(tag, text), stream);
      Assoc(before, BytesUpTo(types, x, n), TokenBytes(Chars(tag, text)));
    }
  }

  method PutCounts(types: Types, x: Item, stream: PropWriteStream)
    modifies stream
    ensures WrittenUpTo(types, x, 0, old(stream.buffer), stream)
  {
    var it, charges := types(x.id), U16(IntOf(x.attrs, Charges));
    ghost var before := stream.buffer;
    var count := Number(ATTR_COUNT, U8(GetSubType(types, x)));
    if it.stackable || it.fluid {
      WriteToken(count, stream);
    }
    if charges != 0 {
      WriteToken(Number(ATTR_CHARGES, charges), stream);
    }
    assert AttrTokens(it, x.attrs, ORDER[..0]) == [];
    BytesOfPair(count, Number(ATTR_CHARGES, charges));
    Assoc(before, TokenBytes(count), TokenBytes(Number(ATTR_CHARGES, charges)));
    assert CountTokens(types, x) + [] == CountTokens(types, x);
  }

  lemma {:induction false} BytesOfPair(t: Token, u: Token)
    ensures BytesOf([t] + [u]) == TokenBytes(t) + TokenBytes(u)
    ensures BytesOf([t] + []) == TokenBytes(t) && BytesOf([] + [u]) == TokenBytes(u)
  {
    assert ([t] + [u])[0] == t && ([t] + [u])[1..] == [u];
    assert [u][1..] == [] && [t] + [] == [t] && [] + [u] == [u] && [t][1..] == [];
    assert BytesOf([]) == [] && BytesOf([u]) == TokenBytes(u) + [] == TokenBytes(u);
  }

  method PutAction(types: Types, x: Item, stream: PropWriteStream, ghost b: seq<byte>)
    requires WrittenUpTo(types, x, 0, b, stream)
    modifies stream
    ensures WrittenUpTo(types, x, 3, b, stream)
  {
    hide WrittenUpTo;
    var it, a := types(x.id), x.attrs;
    var actionId := U16(IntOf(a, ActionId));
    PutNumber(it.moveable && actionId != 0, ATTR_ACTION_ID, actionId, stream, types, x, 0, b);
    PutText(StrOf(a, Text), ATTR_TEXT, stream, types, x, 1, b);
    PutNumber(IntOf(a, Date) != 0, ATTR_WRITTENDATE, U32(IntOf(a, Date)), stream, types, x, 2, b);
  }

  method PutWriting(types: Types, x: Item, stream: PropWriteStream, ghost b: seq<byte>)
    requires WrittenUpTo(types, x, 3, b, stream)
    modifies stream
    ensures WrittenUpTo(types, x, 6, b, stream)
  {
    hide WrittenUpTo;
    var a := x.attrs;
    PutText(StrOf(a, Writer), ATTR_WRITTENBY, stream, types, x, 3, b);
    PutText(StrOf(a, Description), ATTR_DESC, stream, types, x, 4, b);
    PutNumber(Duration in a, ATTR_DURATION, U32(IntOf(a, Duration)), stream, types, x, 5, b);
  }

  method PutNames(types: Types, x: Item, stream: PropWriteStream, ghost b: seq<byte>)
    requires WrittenUpTo(types, x, 6, b, stream)
    modifies stream
    ensures WrittenUpTo(types, x, 10, b, stream)
  {
    hide WrittenUpTo;
    var a := x.attrs;
    var decayState := IntOf(a, DecayState);
    var decays := decayState == DECAYING_TRUE || decayState == DECAYING_PENDING;
    PutNumber(decays, ATTR_DECAYING_STATE, if decays then decayState else 0, stream, types, x, 6, b);
    PutText(StrOf(a, Name), ATTR_NAME, stream, types, x, 7, b);
    PutText(StrOf(a, Article), ATTR_ARTICLE, stream, types, x, 8, b);
    PutText(StrOf(a, PluralName), ATTR_PLURALNAME, stream, types, x, 9, b);
  }

  method PutFight(types: Types, x: Item, stream: PropWriteStream, ghost b: seq<byte>)
    requires WrittenUpTo(types, x, 10, b, stream)
    modifies stream
    ensures WrittenUpTo(types, x, 13, b, stream)
  {
    hide WrittenUpTo;
    var a := x.attrs;
    PutNumber(Weight in a, ATTR_WEIGHT, U32(IntOf(a, Weight)), stream, types, x, 10, b);
    PutNumber(Attack in a, ATTR_ATTACK, U32(IntOf(a, Attack)), stream, types, x, 11, b);
    PutNumber(Defense in a, ATTR_DEFENSE, U32(IntOf(a, Defense)), stream, types, x, 12, b);
  }

  method PutDefense(types: Types, x: Item, stream: PropWriteStream, ghost b: seq<byte>)
    requires WrittenUpTo(types, x, 13, b, stream)
    modifies stream
    ensures WrittenUpTo(types, x, 15, b, stream)
  {
    hide WrittenUpTo;
    var a := x.attrs;
    PutNumber(ExtraDefense in a, ATTR_EXTRADEFENSE, U32(IntOf(a, ExtraDefense)), stream, types, x, 13, b);
    PutNumber(Armor in a, ATTR_ARMOR, U32(IntOf(a, Armor)), stream, types, x, 14, b);
  }

  method PutRange(types: Types, x: Item, stream: PropWriteStream, ghost b: seq<byte>)
    requires WrittenUpTo(types, x, 15, b, stream)
    modifies stream
    ensures WrittenUpTo(types, x, 17, b, stream)
  {
    hide WrittenUpTo;
    var a := x.attrs;
    PutNumber(HitChance in a, ATTR_HITCHANCE, U8(IntOf(a, HitChance)), stream, types, x, 15, b);
    PutNumber(ShootRange in a, ATTR_SHOOTRANGE, U8(IntOf(a, ShootRange)), stream, types, x, 16, b);
  }

  /** Writes count and charges if there are any, and then every attribute that is present. */
  method SerializeAttr(types: Types, x: Item, stream: PropWriteStream)
    modifies stream
    ensures stream.buffer == old(stream.buffer) + BytesOf(Tokens(types, x))
  {
    ghost var before := stream.buffer;
    PutCounts(types, x, stream);
    PutAction(types, x, stream, before);
    PutWriting(types, x, stream, before);
    PutNames(types, x, stream, before);
    PutFight(types, x, stream, before);
    PutDefense(types, x, stream, before);
    PutRange(types, x, stream, before);
    AllWritten(types, x);
  }

  lemma {:induction false} AllWritten(types: Types, x: Item)
    ensures BytesUpTo(types, x, |ORDER|) == BytesOf(Tokens(types, x))
  {
    assert ORDER[..|ORDER|] == ORDER;
  }

  // ----- Loading attributes

  datatype TokenRead = BadToken | GoodToken(token: Token, p: nat)

  /** The attribute whose tag is at `p`. */
  function ReadToken(s: seq<byte>, p: nat): (r: TokenRead)
    requires p < |s|
    ensures r.GoodToken? ==> p < r.p <= |s|
  {
    var tag := s[p];
    if Width(tag) > 0 then
      if p + 1 + Width(tag) > |s| then BadToken
      else GoodToken(Number(tag, NumberAt(s, p + 1, Width(tag))), p + 1 + Width(tag))
    else if HoldsText(tag) then
      if p + 3 > |s| || p + 3 + NumberAt(s, p + 1, 2) > |s| then BadToken
      else var end := p + 3 + NumberAt(s, p + 1, 2); GoodToken(Chars(tag, s[p + 3..end]), end)
    else BadToken
  }

  /** What reading attributes ends in; `held` is the number of items announced for a container. */
  datatype AttrsRead = BadAttrs | GoodAttrs(item: Item, held: nat, p: nat)

  function ReadAttrs(types: Types, x: Item, s: seq<byte>, p: nat): (r: AttrsRead)
    requires p <= |s|
    ensures r.GoodAttrs? ==> p <= r.p <= |s| && r.item.id == x.id && r.item.kids == x.kids
    decreases |s| - p
  {
    if p == |s| then GoodAttrs(x, 0, p)
    else if s[p] == 0 then GoodAttrs(x, 0, p + 1)
    else if s[p] == ATTR_CONTAINER_ITEMS then
      if types(x.id).container && p + 5 <= |s| then GoodAttrs(x, NumberAt(s, p + 1, 4), p + 5) else BadAttrs
    else
      match ReadToken(s, p)
      case BadToken => BadAttrs
      case GoodToken(t, q) => ReadAttrs(types, Apply(types, x, t), s, q)
  }

  /** Reads one attribute after its tag and sets it on the item. */
  method ReadAttr(types: Types, tag: byte, x: Item, stream: PropStream) returns (ok: bool, y: Item)
    requires stream.Valid() && 1 <= stream.p && stream.data[stream.p - 1] == tag
    modifies stream
    ensures stream.Valid()
    ensures var r := ReadToken(stream.data, old(stream.p) - 1);
      ok == r.GoodToken? && (ok ==> y == Apply(types, x, r.token) && stream.p == r.p)
  {
    y := x;
    if Width(tag) > 0 {
      var v;
      ok, v := stream.Read(Width(tag));
      if ok {
        y := Apply(types, x, Number(tag, v));
      }
    } else if HoldsText(tag) {
      var text;
      ok, text := stream.ReadString();
      if ok {
        y := Apply(types, x, Chars(tag, text));
      }
    } else {
      ok := false;
    }
  }

  method UnserializeAttr(types: Types, x: Item, stream: PropStream) returns (ok: bool, y: Item, serializationCount: nat)
    requires stream.Valid()
    modifies stream
    ensures stream.Valid()
    ensures var r := ReadAttrs(types, x, stream.data, old(stream.p));
      ok == r.GoodAttrs? && (ok ==> r == GoodAttrs(y, serializationCount, stream.p))
  {
    y, serializationCount := x, 0;
    ghost var r := ReadAttrs(types, x, stream.data, stream.p);
    while true
      invariant stream.Valid() && serializationCount == 0
      invariant r == ReadAttrs(types, y, stream.data, stream.p)
      decreases |stream.data| - stream.p
    {
      var tag: nat;
      ghost var p := stream.p;
      ok, tag := stream.Read(1);
      if !ok {
        return true, y, 0;
      }
      assert tag == stream.data[p] by { OneByte(stream.data, p); }
      if tag == 0 {
        return true, y, 0;
      }
      if tag == ATTR_CONTAINER_ITEMS {
        if !types(y.id).container {
          return false, y, 0;
        }
        ok, serializationCount := stream.Read(4);
        return;
      }
      ok, y := ReadAttr(types, tag, y, stream);
      if !ok {
        return;
      }
    }
  }

  // ----- What saving and loading make of an item's attributes

  /** What is read back for a written attribute: over-long texts are lost. */
  function Clip(t: Token): Token
  {
    if t.Chars? && |t.text| > 0xFFFF then Chars(t.tag, []) else t
  }

  function ApplyAll(types: Types, x: Item, ts: seq<Token>): (y: Item)
    ensures y.id == x.id && y.kids == x.kids
    decreases |ts|
  {
    if ts == [] then x else ApplyAll(types, Apply(types, x, Clip(ts[0])), ts[1..])
  }

  lemma {:induction false} ReadTokenBytes(s: seq<byte>, p: nat, t: Token)
    requires Wellformed(t) && At(s, p, TokenBytes(t))
    ensures p < |s| && s[p] != 0 && s[p] != ATTR_CONTAINER_ITEMS
    ensures ReadToken(s, p) == GoodToken(Clip(t), p + |TokenBytes(t)|)
  {
    Widths();
    match t
    case Number(tag, value) =>
      AtSplit(s, p, [tag], Encode(value, Width(tag)));
      AtHead(s, p, [tag]);
      AtNumber(s, p + 1, value, Width(tag));
    case Chars(tag, text) =>
      AtSplit(s, p, [tag], StringBytes(text));
      AtHead(s, p, [tag]);
      ReadStringBytes(s, p + 1, text);
  }

  lemma {:induction false} ReadStringBytes(s: seq<byte>, p: nat, text: seq<byte>)
    requires At(s, p, StringBytes(text))
    ensures var kept := if |text| > 0xFFFF then [] else text;
      && p + 2 + |kept| <= |s| && NumberAt(s, p, 2) == |kept| && s[p + 2..p + 2 + |kept|] == kept
      && |StringBytes(text)| == 2 + |kept|
  {
    Widths();
    if |text| > 0xFFFF {
      AtNumber(s, p, 0, 2);
    } else {
      AtSplit(s, p, Encode(|text|, 2), text);
      AtNumber(s, p, |text|, 2);
    }
  }

  /** The attributes `ts` can be read one after the other between `p` and `end`. */
  ghost predicate Stands(s: seq<byte>, p: nat, ts: seq<Token>, end: nat)
    decreases |ts|
  {
    if ts == [] then p == end <= |s|
    else
      && p < |s| && s[p] != 0 && s[p] != ATTR_CONTAINER_ITEMS
      && ReadToken(s, p).GoodToken? && ReadToken(s, p).token == Clip(ts[0])
      && Stands(s, ReadToken(s, p).p, ts[1..], end)
  }

  lemma {:induction false} HeadStands(s: seq<byte>, p: nat, ts: seq<Token>) returns (q: nat)
    requires At(s, p, BytesOf(ts)) && AllWellformed(ts) && ts != []
    ensures p < |s| && s[p] != 0 && s[p] != ATTR_CONTAINER_ITEMS && ReadToken(s, p) == GoodToken(Clip(ts[0]), q)
    ensures At(s, q, BytesOf(ts[1..])) && q + |BytesOf(ts[1..])| == p + |BytesOf(ts)|
  {
    hide *;
    HeadBytes(ts);
    AtSplit(s, p, TokenBytes(ts[0]), BytesOf(ts[1..]));
    AtHead(s, p, TokenBytes(ts[0]));
    ReadTokenBytes(s, p, ts[0]);
    q := p + |TokenBytes(ts[0])|;
  }

  lemma {:induction false} HeadBytes(ts: seq<Token>)
    requires AllWellformed(ts) && ts != []
    ensures Wellformed(ts[0]) && BytesOf(ts) == TokenBytes(ts[0]) + BytesOf(ts[1..])
    ensures TokenBytes(ts[0]) != [] && TokenBytes(ts[0])[0] != 0 && TokenBytes(ts[0])[0] != ATTR_CONTAINER_ITEMS
  {
    hide Encode, StringBytes;
  }

  lemma {:induction false} StandsCons(s: seq<byte>, p: nat, ts: seq<Token>, q: nat, end: nat)
    requires p < |s| && s[p] != 0 && s[p] != ATTR_CONTAINER_ITEMS
    requires ts != [] && ReadToken(s, p) == GoodToken(Clip(ts[0]), q) && Stands(s, q, ts[1..], end)
    ensures Stands(s, p, ts, end)
  {
  }

  lemma {:induction false} BytesStand(s: seq<byte>, p: nat, ts: seq<Token>, end: nat)
    requires At(s, p, BytesOf(ts)) && AllWellformed(ts) && end == p + |BytesOf(ts)|
    ensures Stands(s, p, ts, end)
    decreases |ts|
  {
    if ts == [] {
    } else {
      var q := HeadStands(s, p, ts);
      BytesStand(s, q, ts[1..], end);
      StandsCons(s, p, ts, q, end);
    }
  }

  /** Reading steps through attributes, one after the other. */
  lemma {:induction false} ReadAttrsStand(types: Types, x: Item, s: seq<byte>, p: nat, ts: seq<Token>, end: nat)
    requires p <= |s| && Stands(s, p, ts, end)
    ensures end <= |s| && ReadAttrs(types, x, s, p) == ReadAttrs(types, ApplyAll(types, x, ts), s, end)
    decreases |ts|
  {
    if ts != [] {
      ReadAttrsStand(types, Apply(types, x, Clip(ts[0])), s, ReadToken(s, p).p, ts[1..], end);
    }
  }

  // ----- What an item is after it was saved and loaded

  /** An item's count after saving and loading. Charges on an item whose type has none are read
      back as its count. */
  function NormalCount(it: ItemType, x: Item): byte
  {
    var charges := U16(IntOf(x.attrs, Charges));
    if it.fluid || Chargeable(it) then 1
    else if charges != 0 then U8(charges)
    else if it.stackable then x.count
    else 1
  }

  /** An attribute after saving and loading. */
  function NormalAttr(it: ItemType, a: Attributes, k: Attr): (v: Option<Value>)
  {
    var n, charges := IntOf(a, k), U16(IntOf(a, Charges));
    match k
    case ActionId => if it.moveable && U16(n) != 0 then Some(Int(Max(100, U16(n)))) else None
    case Date => if n != 0 then Some(Int(I32(n))) else None
    case DecayState => if n == DECAYING_TRUE || n == DECAYING_PENDING then Some(Int(DECAYING_PENDING)) else None
    case Duration =>
      if k in a then Some(Int(Max(0, I32(n))))
      else if it.defaultDuration != 0 then Some(Int(I32(it.defaultDuration))) else None
    case Weight => if k in a then Some(Int(I32(n))) else None
    case HitChance => if k in a then Some(Int(I8(n))) else None
    case ShootRange => if k in a then Some(Int(U8(n))) else None
    case Attack => if k in a then Some(Int(I32(n))) else None
    case Defense => if k in a then Some(Int(I32(n))) else None
    case ExtraDefense => if k in a then Some(Int(I32(n))) else None
    case Armor => if k in a then Some(Int(I32(n))) else None
    case Charges =>
      if !Chargeable(it) then None else if charges != 0 then Some(Int(charges)) else Some(Int(U16(it.charges)))
    case UniqueId => None
    case Owner => None
    case CorpseOwner => None
    case DoorId => None
    case FluidType => if !it.fluid then None else if charges != 0 then Some(Int(charges)) else Some(Int(U8(U16(n))))
    case _ => if StrOf(a, k) != [] && |StrOf(a, k)| <= 0xFFFF then Some(Str(StrOf(a, k))) else None
  }

  const ALL_ATTRS: set<Attr> := (set k | k in ORDER) + {Charges, FluidType, UniqueId, Owner, CorpseOwner, DoorId}

  function Normal(types: Types, x: Item): Item
  {
    var it := types(x.id);
    Item(x.id, NormalCount(it, x),
         map k | k in ALL_ATTRS && NormalAttr(it, x.attrs, k).Some? :: NormalAttr(it, x.attrs, k).value, x.kids)
  }

  function Lookup(a: Attributes, k: Attr): (v: Option<Value>)
  {
    if k in a then Some(a[k]) else None
  }

  lemma {:induction false} AllAttrs(k: Attr)
    ensures k in ALL_ATTRS
  {
    match k
    case ActionId => assert k == ORDER[0];
    case Text => assert k == ORDER[1];
    case Date => assert k == ORDER[2];
    case Writer => assert k == ORDER[3];
    case Description => assert k == ORDER[4];
    case Duration => assert k == ORDER[5];
    case DecayState => assert k == ORDER[6];
    case Name => assert k == ORDER[7];
    case Article => assert k == ORDER[8];
    case PluralName => assert k == ORDER[9];
    case Weight => assert k == ORDER[10];
    case Attack => assert k == ORDER[11];
    case Defense => assert k == ORDER[12];
    case ExtraDefense => assert k == ORDER[13];
    case Armor => assert k == ORDER[14];
    case HitChance => assert k == ORDER[15];
    case ShootRange => assert k == ORDER[16];
    case _ =>
  }

  lemma {:induction false} ApplyAllAppend(types: Types, x: Item, a: seq<Token>, b: seq<Token>)
    ensures ApplyAll(types, x, a + b) == ApplyAll(types, ApplyAll(types, x, a), b)
    decreases |a|
  {
    if a == [] {
      assert a + b == b;
    } else {
      assert (a + b)[1..] == a[1..] + b;
      ApplyAllAppend(types, Apply(types, x, Clip(a[0])), a[1..], b);
    }
  }

  /** The value that a written attribute is read back as. */
  function Effect(it: ItemType, a: Attributes, k: Attr): (v: Option<Value>)
  {
    match Written(it, a, k)
    case None => None
    case Some(Chars(_, text)) => if |text| > 0xFFFF || text == [] then None else Some(Str(text))
    case Some(Number(_, n)) => if k == DecayState && n == 0 then None else Some(Int(Stored(k, n)))
  }

  lemma {:induction false} ApplyWritten(types: Types, y: Item, it: ItemType, a: Attributes, k: Attr)
    requires Written(it, a, k).Some?
    ensures Apply(types, y, Clip(Written(it, a, k).value)) ==
            match Effect(it, a, k)
            case None => y
            case Some(v) => y.(attrs := y.attrs[k := v])
  {
    var t := Written(it, a, k).value;
    assert t.tag != ATTR_COUNT && t.tag != ATTR_RUNE_CHARGES && t.tag != ATTR_CHARGES;
  }

  /** The first attribute of `order` takes effect, then the others. */
  lemma {:induction false} ApplyFirst(types: Types, y: Item, it: ItemType, a: Attributes, order: seq<Attr>)
    requires order != []
    ensures ApplyAll(types, y, AttrTokens(it, a, order)) ==
            ApplyAll(types,
                     match Effect(it, a, order[0])
                     case None => y
                     case Some(v) => y.(attrs := y.attrs[order[0] := v]),
                     AttrTokens(it, a, order[1..]))
  {
    var rest := AttrTokens(it, a, order[1..]);
    match Written(it, a, order[0])
    case None => assert [] + rest == rest;
    case Some(t) =>
      ApplyWritten(types, y, it, a, order[0]);
      assert ([t] + rest)[1..] == rest;
  }

  /** Each attribute is set from its own token, whatever the others are. */
  lemma {:induction false} AttrsApplied(types: Types, y: Item, it: ItemType, a: Attributes, order: seq<Attr>, k: Attr)
    requires forall i, j :: 0 <= i < j < |order| ==> order[i] != order[j]
    ensures ApplyAll(types, y, AttrTokens(it, a, order)).count == y.count
    ensures Lookup(ApplyAll(types, y, AttrTokens(it, a, order)).attrs, k) ==
            if k in order && Effect(it, a, k).Some? then Effect(it, a, k) else Lookup(y.attrs, k)
    decreases |order|
  {
    if order == [] {
      assert AttrTokens(it, a, order) == [] && ApplyAll(types, y, []) == y;
    } else {
      hide Effect, Written, Apply, AttrTokens, ApplyAll;
      var e := Effect(it, a, order[0]);
      ApplyFirst(types, y, it, a, order);
      AttrsApplied(types, if e.None? then y else y.(attrs := y.attrs[order[0] := e.value]), it, a, order[1..], k);
    }
  }

  lemma {:induction false} OrderDistinct()
    ensures forall i, j :: 0 <= i < j < |ORDER| ==> ORDER[i] != ORDER[j]
  {
  }

  /** An item with the saved count and charges set, as one change of subtype after another. */
  function Counted(types: Types, bare: Item, x: Item): (y: Item)
  {
    var it, charges := types(x.id), U16(IntOf(x.attrs, Charges));
    var y := if it.stackable || it.fluid then SetSubType(types, bare, U8(GetSubType(types, x))) else bare;
    if charges != 0 then SetSubType(types, y, charges) else y
  }

  lemma {:induction false} CountTokensApplied(types: Types, bare: Item, x: Item)
    requires bare.id == x.id
    ensures ApplyAll(types, bare, CountTokens(types, x)) == Counted(types, bare, x)
  {
    hide ApplyAll, Apply, CountTokens, GetSubType, SetSubType, U8, U16;
    var it, n, charges := types(x.id), U8(GetSubType(types, x)), U16(IntOf(x.attrs, Charges));
    var a := if it.stackable || it.fluid then [Number(ATTR_COUNT, n)] else [];
    var b := if charges != 0 then [Number(ATTR_CHARGES, charges)] else [];
    CountTokensAre(types, x);
    ApplyAllAppend(types, bare, a, b);
    var y := ApplyAll(types, bare, a);
    AtMostOne(types, bare, ATTR_COUNT, n, a);
    AtMostOne(types, y, ATTR_CHARGES, charges, b);
  }

  lemma {:induction false} CountTokensAre(types: Types, x: Item)
    ensures var it, charges := types(x.id), U16(IntOf(x.attrs, Charges));
      CountTokens(types, x)
      == (if it.stackable || it.fluid then [Number(ATTR_COUNT, U8(GetSubType(types, x)))] else [])
         + (if charges != 0 then [Number(ATTR_CHARGES, charges)] else [])
  {
  }

  lemma {:induction false} AtMostOne(types: Types, x: Item, tag: byte, n: uint16, ts: seq<Token>)
    requires tag == ATTR_COUNT || tag == ATTR_CHARGES
    requires ts == [] || ts == [Number(tag, n)]
    ensures ApplyAll(types, x, ts) == if ts == [] then x else SetSubType(types, x, n)
  {
    hide SetSubType;
    if ts != [] {
      assert ts[1..] == [];
      Widest(n);
    }
  }

  lemma {:induction false} CountApplied(types: Types, x: Item)
    ensures var y, it := Counted(types, Fresh(types, x.id), x), types(x.id);
      && y.count == NormalCount(it, x)
      && Lookup(y.attrs, Charges) == NormalAttr(it, x.attrs, Charges)
      && Lookup(y.attrs, FluidType) == NormalAttr(it, x.attrs, FluidType)
      && Lookup(y.attrs, Duration) == (if it.defaultDuration != 0 then Some(Int(I32(it.defaultDuration))) else None)
      && forall k :: k in y.attrs ==> k == Charges || k == FluidType || k == Duration
  {
    hide I32, IntOf;
  }

  /** What reading the tokens of an item makes of a new item of its type. */
  lemma {:induction false} TokensApplied(types: Types, x: Item)
    ensures ApplyAll(types, Fresh(types, x.id), Tokens(types, x)) == Normal(types, x).(kids := [])
  {
    hide ApplyAll, Apply, Effect, AttrTokens, CountTokens, Counted, NormalAttr, NormalCount, SetSubType, I32;
    var it := types(x.id);
    var y := ApplyAll(types, Fresh(types, x.id), CountTokens(types, x));
    ApplyAllAppend(types, Fresh(types, x.id), CountTokens(types, x), AttrTokens(it, x.attrs, ORDER));
    var z := ApplyAll(types, y, AttrTokens(it, x.attrs, ORDER));
    CountTokensApplied(types, Fresh(types, x.id), x);
    CountApplied(types, x);
    OrderDistinct();
    AttrsApplied(types, y, it, x.attrs, ORDER, Charges);
    forall k ensures Lookup(z.attrs, k) == NormalAttr(it, x.attrs, k) {
      AttrsApplied(types, y, it, x.attrs, ORDER, k);
      AllAttrs(k);
      EffectIsNormal(it, x.attrs, k);
    }
    LookupsEqual(z.attrs, Normal(types, x).attrs, it, x.attrs);
  }

  lemma {:induction false} EffectIsNormal(it: ItemType, a: Attributes, k: Attr)
    ensures k != Charges && k != FluidType && k != Duration ==> Effect(it, a, k) == NormalAttr(it, a, k)
    ensures k == Duration && Effect(it, a, k).Some? ==> NormalAttr(it, a, k) == Effect(it, a, k)
    ensures k == Duration && Effect(it, a, k).None? ==>
              NormalAttr(it, a, k) == (if it.defaultDuration != 0 then Some(Int(I32(it.defaultDuration))) else None)
    ensures Unwritten(k) ==> Effect(it, a, k).None?
  {
    hide *;
    if Unwritten(k) {
      UnwrittenIsNormal(it, a, k);
    } else if InBytes(k) {
      BytesAreNormal(it, a, k);
    } else {
      RestIsNormal(it, a, k);
    }
  }

  /** The attributes cast to fewer than 32 bits. */
  predicate InBytes(k: Attr)
  {
    k.ActionId? || k.HitChance? || k.ShootRange? || k.DecayState?
  }

  lemma {:induction false} UnwrittenIsNormal(it: ItemType, a: Attributes, k: Attr)
    requires Unwritten(k)
    ensures k != Duration && Effect(it, a, k).None?
    ensures k != Charges && k != FluidType ==> NormalAttr(it, a, k).None?
  {
    hide U32, I32, I8, U8, U16, Max;
  }

  lemma {:induction false} BytesAreNormal(it: ItemType, a: Attributes, k: Attr)
    requires InBytes(k)
    ensures k != Duration && Effect(it, a, k) == NormalAttr(it, a, k)
  {
    hide U32, I32, I8, U8, U16, Max;
    Widest(U16(IntOf(a, k)));
    SameByte(IntOf(a, k));
  }

  lemma {:induction false} RestIsNormal(it: ItemType, a: Attributes, k: Attr)
    requires !Unwritten(k) && !InBytes(k)
    ensures k != Duration ==> Effect(it, a, k) == NormalAttr(it, a, k)
    ensures k == Duration && Effect(it, a, k).Some? ==> NormalAttr(it, a, k) == Effect(it, a, k)
    ensures k == Duration && Effect(it, a, k).None? ==>
              NormalAttr(it, a, k) == (if it.defaultDuration != 0 then Some(Int(I32(it.defaultDuration))) else None)
  {
    hide U32, I32, I8, U8, U16, Max;
    SameSigned(IntOf(a, k));
  }

  /** What is kept otherwise, or not at all. */
  predicate Unwritten(k: Attr)
  {
    k.Charges? || k.FluidType? || k.UniqueId? || k.Owner? || k.CorpseOwner? || k.DoorId?
  }

  lemma {:induction false} Widest(n: uint16)
    ensures U16(n) == n
  {
  }

  lemma {:induction false} SameByte(n: int)
    ensures I8(U8(n)) == I8(n) && U8(U8(n)) == U8(n)
  {
  }

  /** A number cast to unsigned and then to signed is as if cast to signed at once. */
  lemma {:induction false} SameSigned(n: int)
    ensures I32(U32(n)) == I32(n)
  {
  }

  lemma {:induction false} LookupsEqual(m: Attributes, n: Attributes, it: ItemType, a: Attributes)
    requires forall k :: Lookup(m, k) == NormalAttr(it, a, k)
    requires n == map k | k in ALL_ATTRS && NormalAttr(it, a, k).Some? :: NormalAttr(it, a, k).value
    ensures m == n
  {
    forall k ensures Lookup(m, k) == Lookup(n, k) {
      AllAttrs(k);
    }
    assert forall k :: k in m <==> k in n by {
      forall k ensures k in m <==> k in n {
        assert Lookup(m, k) == Lookup(n, k);
      }
    }
    forall k | k in m ensures m[k] == n[k] {
      assert Lookup(m, k) == Lookup(n, k);
    }
  }

  // ----- Which items come back unchanged

  /** Whether an attribute, present or not, is one that the stream can hold and the type keeps. */
  predicate Storable(it: ItemType, a: Attributes, k: Attr)
  {
    match k
    case ActionId => k in a ==> it.moveable && a[k].Int? && 100 <= a[k].n <= 0xFFFF
    case Date => k in a ==> a[k].Int? && a[k].n != 0 && -0x8000_0000 <= a[k].n < 0x8000_0000
    case DecayState => k in a ==> a[k] == Int(DECAYING_PENDING)
    case Duration => if k in a then a[k].Int? && 0 <= a[k].n < 0x8000_0000 else it.defaultDuration == 0
    case Weight => k in a ==> a[k].Int? && -0x8000_0000 <= a[k].n < 0x8000_0000
    case HitChance => k in a ==> a[k].Int? && -0x80 <= a[k].n < 0x80
    case ShootRange => k in a ==> a[k].Int? && 0 <= a[k].n < 0x100
    case Attack => k in a ==> a[k].Int? && -0x8000_0000 <= a[k].n < 0x8000_0000
    case Defense => k in a ==> a[k].Int? && -0x8000_0000 <= a[k].n < 0x8000_0000
    case ExtraDefense => k in a ==> a[k].Int? && -0x8000_0000 <= a[k].n < 0x8000_0000
    case Armor => k in a ==> a[k].Int? && -0x8000_0000 <= a[k].n < 0x8000_0000
    case Charges =>
      if !Chargeable(it) then k !in a
      else k in a && a[k].Int? && (if U16(it.charges) == 0 then 0 <= a[k].n else 0 < a[k].n) && a[k].n <= 0xFFFF
    case UniqueId => k !in a
    case Owner => k !in a
    case CorpseOwner => k !in a
    case DoorId => k !in a
    case FluidType => if it.fluid then k in a && a[k].Int? && 0 <= a[k].n < 0x100 else k !in a
    case _ => k in a ==> a[k].Str? && 0 < |a[k].s| <= 0xFFFF
  }

  /** Saving and loading leaves an item as it was if and only if all its attributes can be stored
      and its count is one unless its type is stackable. */
  lemma {:induction false} UnchangedIff(types: Types, x: Item)
    ensures Normal(types, x) == x <==>
            (forall k :: Storable(types(x.id), x.attrs, k))
            && ((types(x.id).stackable && !types(x.id).fluid) || x.count == 1)
  {
    var it, a, n := types(x.id), x.attrs, Normal(types, x).attrs;
    forall k ensures Lookup(n, k) == NormalAttr(it, a, k) {
      AllAttrs(k);
    }
    if Lookup(a, Charges) == NormalAttr(it, a, Charges) || Storable(it, a, Charges) {
      forall k ensures Storable(it, a, k) <==> Lookup(a, k) == NormalAttr(it, a, k) {
        StorableIff(it, a, k);
      }
      if forall k :: Storable(it, a, k) {
        LookupsEqual(a, n, it, a);
        assert Storable(it, a, Charges);
      } else {
        var k :| !Storable(it, a, k);
        assert Lookup(a, k) != Lookup(n, k);
      }
    } else {
      assert Lookup(a, Charges) != Lookup(n, Charges);
    }
  }

  lemma {:induction false} StorableIff(it: ItemType, a: Attributes, k: Attr)
    requires Lookup(a, Charges) == NormalAttr(it, a, Charges) || Storable(it, a, Charges)
    ensures Storable(it, a, k) <==> Lookup(a, k) == NormalAttr(it, a, k)
  {
  }

  // ----- Saved more than once

  /** What it takes of an item that saving and loading it changes it once at most. */
  predicate Settles(it: ItemType, a: Attributes)
  {
    var date, charges := IntOf(a, Date), IntOf(a, Charges) % 0x1_0000;
    && (date != 0 ==> date % 0x1_0000_0000 != 0)
    && (Duration !in a ==> it.defaultDuration < 0x8000_0000)
    && (it.fluid ==> charges < 0x100)
    && (!it.fluid && !it.stackable && it.charges == 0 ==> charges == 0 || charges % 0x100 == 1)
  }

  /** What has been saved and loaded once comes back as it is from then on, if and only if the item settles. */
  lemma {:induction false} NormalIsLastingIff(types: Types, x: Item)
    ensures Normal(types, Normal(types, x)) == Normal(types, x) <==> Settles(types(x.id), x.attrs)
  {
    var it, y := types(x.id), Normal(types, x);
    hide Storable, NormalAttr, Settles, Lookup;
    UnchangedIff(types, y);
    forall k ensures Storable(it, y.attrs, k) <==> AttrSettles(it, x.attrs, k) {
      NormalLookup(types, x, k);
      NormalSettles(it, x.attrs, y.attrs, k);
    }
    SettlesAll(it, x);
    assert AttrSettles(it, x.attrs, Date) && AttrSettles(it, x.attrs, Duration) && AttrSettles(it, x.attrs, FluidType)
      ==> forall k :: AttrSettles(it, x.attrs, k);
  }

  predicate AttrSettles(it: ItemType, a: Attributes, k: Attr)
  {
    match k
    case Date => IntOf(a, Date) != 0 ==> IntOf(a, Date) % 0x1_0000_0000 != 0
    case Duration => Duration !in a ==> it.defaultDuration < 0x8000_0000
    case FluidType => it.fluid ==> IntOf(a, Charges) % 0x1_0000 < 0x100
    case _ => true
  }

  lemma {:induction false} SettlesAll(it: ItemType, x: Item)
    ensures Settles(it, x.attrs) <==>
            && AttrSettles(it, x.attrs, Date) && AttrSettles(it, x.attrs, Duration)
            && AttrSettles(it, x.attrs, FluidType)
            && ((it.stackable && !it.fluid) || NormalCount(it, x) == 1)
  {
  }

  lemma {:induction false} NormalLookup(types: Types, x: Item, k: Attr)
    ensures Lookup(Normal(types, x).attrs, k) == NormalAttr(types(x.id), x.attrs, k)
  {
    AllAttrs(k);
    hide NormalAttr, NormalCount;
  }

  lemma {:induction false} NormalSettles(it: ItemType, a: Attributes, m: Attributes, k: Attr)
    requires Lookup(m, k) == NormalAttr(it, a, k)
    ensures Storable(it, m, k) <==> AttrSettles(it, a, k)
  {
  }
}
