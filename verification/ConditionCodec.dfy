/** Conditions in the database: each is written as a stream of tagged properties that `END` closes, and the
    streams of all follow one another. */
module ConditionCodec {
  import opened Common
  import opened Bytes
  import opened Streams

  // The tags of the properties.
  const TYPE: byte := 1
  const ID: byte := 2
  const TICKS: byte := 3
  const HEALTH_TICKS: byte := 4
  const HEALTH_GAIN: byte := 5
  const MANA_TICKS: byte := 6
  const MANA_GAIN: byte := 7
  const DELAYED: byte := 8
  const OWNER: byte := 9
  const INTERVAL_DATA: byte := 10
  const SPEED_DELTA: byte := 11
  const FORMULA_MINA: byte := 12
  const FORMULA_MINB: byte := 13
  const FORMULA_MAXA: byte := 14
  const FORMULA_MAXB: byte := 15
  const LIGHT_COLOR: byte := 16
  const LIGHT_LEVEL: byte := 17
  const LIGHT_TICKS: byte := 18
  const LIGHT_INTERVAL: byte := 19
  const SOUL_TICKS: byte := 20
  const SOUL_GAIN: byte := 21
  const SKILLS: byte := 22
  const STATS: byte := 23
  const OUTFIT: byte := 24
  const PERIOD_DAMAGE: byte := 25
  const IS_BUFF: byte := 26
  const SUB_ID: byte := 27
  const END: byte := 254

  const SKILL_COUNT := 7
  const STAT_COUNT := 4
  const OUTFIT_SIZE := 12

  datatype Interval = Interval(timeLeft: int32, value: int32, interval: int32)

  /** What the kinds of conditions keep beside the common fields. Floating point numbers are their 32 bits,
      an outfit its bytes in memory. */
  datatype Body =
    | Generic
    | Attributes(skills: seq<int32>, stats: seq<int32>, currentSkill: nat, currentStat: nat)
    | Regeneration(healthTicks: uint32, healthGain: uint32, manaTicks: uint32, manaGain: uint32)
    | Soul(soulGain: uint32, soulTicks: uint32)
    | Damage(delayed: bool, periodDamage: int32, list: seq<Interval>)
    | Speed(speedDelta: int32, mina: uint32, minb: uint32, maxa: uint32, maxb: uint32)
    | Outfit(outfit: seq<byte>)
    | Light(color: byte, level: byte, lightTicks: uint32, lightInterval: uint32)

  datatype Condition = Condition(kind: uint32, id: int, ticks: int32, isBuff: bool, subId: uint32, body: Body)

  // ----- Signed numbers in unsigned bytes

  function Unsigned(v: int32): uint32
  {
    if v < 0 then v + 0x1_0000_0000 else v
  }

  function Signed(v: uint32): int32
  {
    if v >= 0x8000_0000 then v - 0x1_0000_0000 else v
  }

  /** What 32-bit addition makes of a sum. */
  function Wrap(v: int): int32
  {
    (v + 0x8000_0000) % 0x1_0000_0000 - 0x8000_0000
  }

  /** A number cast to the 8-bit `ConditionId_t`. */
  function ToId(v: int): (id: int)
    ensures -0x80 <= id < 0x80
  {
    (v + 0x80) % 0x100 - 0x80
  }

  // ----- The kinds

  function Bit(n: nat): nat
  {
    if n == 0 then 1 else 2 * Bit(n - 1)
  }

  function Zeros(n: nat): (s: seq<int32>)
    ensures |s| == n
  {
    if n == 0 then [] else [0] + Zeros(n - 1)
  }

  /** The condition that `createCondition` makes, if the kind is one it knows. */
  function Create(kind: uint32, id: int, ticks: int32, isBuff: bool, subId: uint32): Option<Condition>
  {
    var damage := {Bit(0), Bit(1), Bit(2), Bit(3), Bit(15), Bit(20), Bit(21), Bit(22)};
    var generic := {Bit(7), Bit(9), Bit(10), Bit(11), Bit(12), Bit(16), Bit(17), Bit(18), Bit(23), Bit(24), Bit(25),
                    Bit(26), Bit(27)};
    if kind in damage then Some(Condition(kind, id, 0, isBuff, subId, Damage(false, 0, [])))
    else if kind == Bit(4) || kind == Bit(5) then Some(Condition(kind, id, ticks, isBuff, subId, Speed(0, 0, 0, 0, 0)))
    else if kind == Bit(6) then Some(Condition(kind, id, ticks, isBuff, subId, Outfit(NO_OUTFIT)))
    else if kind == Bit(8) then Some(Condition(kind, id, ticks, isBuff, subId, Light(0, 0, 0, 0)))
    else if kind == Bit(13) then Some(Condition(kind, id, ticks, isBuff, subId, Regeneration(1000, 0, 1000, 0)))
    else if kind == Bit(14) then Some(Condition(kind, id, ticks, isBuff, subId, Soul(0, 0)))
    else if kind == Bit(19) then
      Some(Condition(kind, id, ticks, isBuff, subId, Attributes(Zeros(SKILL_COUNT), Zeros(STAT_COUNT), 0, 0)))
    else if kind in generic then Some(Condition(kind, id, ticks, isBuff, subId, Generic))
    else None
  }

  /** There is a condition for each of the 28 kinds, which are single bits, and for nothing else. */
  lemma {:induction false} EveryKind(kind: uint32, id: int, ticks: int32, isBuff: bool, subId: uint32)
    ensures Create(kind, id, ticks, isBuff, subId).Some? <==> exists k: nat :: k < 28 && kind == Bit(k)
  {
    hide Bit, Zeros;
    if k: nat :| k < 28 && kind == Bit(k) {
      assert Create(Bit(k), id, ticks, isBuff, subId).Some?;
    }
  }

  const NO_OUTFIT: seq<byte> := [0, 0, 0, 0, 0, 0, 0, 0, 0, 0, 0, 0]

  /** A condition as it comes out of the game: of a kind there is, with fields of the right size. */
  ghost predicate Proper(c: Condition)
  {
    && var made := Create(c.kind, c.id, c.ticks, c.isBuff, c.subId);
    && made.Some? && -0x80 <= c.id < 0x80
    && match c.body
       case Generic => made.value.body.Generic?
       case Attributes(skills, stats, _, _) =>
         made.value.body.Attributes? && |skills| == SKILL_COUNT && |stats| == STAT_COUNT
       case Regeneration(_, _, _, _) => made.value.body.Regeneration?
       case Soul(_, _) => made.value.body.Soul?
       case Damage(_, _, _) => made.value.body.Damage?
       case Speed(_, _, _, _, _) => made.value.body.Speed?
       case Outfit(outfit) => made.value.body.Outfit? && |outfit| == OUTFIT_SIZE
       case Light(_, _, _, _) => made.value.body.Light?
  }

  // ----- Writing

  datatype Prop = Prop(tag: byte, data: seq<byte>)

  function Number(tag: byte, v: nat, size: nat): Prop
  {
    Prop(tag, Encode(v, size))
  }

  function Byte(b: bool): nat
  {
    if b then 1 else 0
  }

  function Signeds(tag: byte, l: seq<int32>): seq<Prop>
  {
    if l == [] then [] else [Number(tag, Unsigned(l[0]), 4)] + Signeds(tag, l[1..])
  }

  function IntervalBytes(i: Interval): (s: seq<byte>)
    ensures |s| == 12
  {
    Encode(Unsigned(i.timeLeft), 4) + Encode(Unsigned(i.value), 4) + Encode(Unsigned(i.interval), 4)
  }

  function Intervals(l: seq<Interval>): seq<Prop>
  {
    if l == [] then [] else [Prop(INTERVAL_DATA, IntervalBytes(l[0]))] + Intervals(l[1..])
  }

  /** The properties that each kind adds to the common ones. */
  function Props(b: Body): seq<Prop>
  {
    match b
    case Generic => []
    case Attributes(skills, stats, _, _) => Signeds(SKILLS, skills) + Signeds(STATS, stats)
    case Regeneration(healthTicks, healthGain, manaTicks, manaGain) =>
      [Number(HEALTH_TICKS, healthTicks, 4), Number(HEALTH_GAIN, healthGain, 4),
       Number(MANA_TICKS, manaTicks, 4), Number(MANA_GAIN, manaGain, 4)]
    case Soul(soulGain, soulTicks) => [Number(SOUL_GAIN, soulGain, 4), Number(SOUL_TICKS, soulTicks, 4)]
    case Damage(delayed, periodDamage, list) =>
      [Number(DELAYED, Byte(delayed), 1), Number(PERIOD_DAMAGE, Unsigned(periodDamage), 4)] + Intervals(list)
    case Speed(speedDelta, mina, minb, maxa, maxb) =>
      [Number(SPEED_DELTA, Unsigned(speedDelta), 4), Number(FORMULA_MINA, mina, 4), Number(FORMULA_MINB, minb, 4),
       Number(FORMULA_MAXA, maxa, 4), Number(FORMULA_MAXB, maxb, 4)]
    case Outfit(outfit) => [Prop(OUTFIT, outfit)]
    case Light(color, level, lightTicks, lightInterval) =>
      [Number(LIGHT_COLOR, color, 4), Number(LIGHT_LEVEL, level, 4), Number(LIGHT_TICKS, lightTicks, 4),
       Number(LIGHT_INTERVAL, lightInterval, 4)]
  }

  /** The properties that all conditions begin with. */
  function Header(c: Condition): seq<Prop>
  {
    [Number(TYPE, c.kind, 4), Number(ID, c.id % 0x1_0000_0000, 4), Number(TICKS, Unsigned(c.ticks), 4),
     Number(IS_BUFF, Byte(c.isBuff), 1), Number(SUB_ID, c.subId, 4)]
  }

  function PropBytes(l: seq<Prop>): seq<byte>
  {
    if l == [] then [] else [l[0].tag] + l[0].data + PropBytes(l[1..])
  }

  /** A condition in the database. */
  function Saved(c: Condition): seq<byte>
  {
    PropBytes(Header(c) + Props(c.body)) + [END]
  }

  /** Only what lasts and was not put on by a worn item is kept. */
  predicate Persistent(c: Condition)
  {
    c.ticks != -1 && (c.id == -1 || c.id == 0)
  }

  function SavedAll(l: seq<Condition>): seq<byte>
  {
    if l == [] then [] else (if Persistent(l[0]) then Saved(l[0]) else []) + SavedAll(l[1..])
  }

  lemma {:induction false} PropBytesAppend(a: seq<Prop>, b: seq<Prop>)
    ensures PropBytes(a + b) == PropBytes(a) + PropBytes(b)
  {
    if a == [] {
      assert a + b == b;
    } else {
      assert (a + b)[1..] == a[1..] + b;
      PropBytesAppend(a[1..], b);
    }
  }

  /** Writes one property after those in `done`. */
  method Put(prop: Prop, stream: PropWriteStream, ghost before: seq<byte>, ghost done: seq<Prop>)
    returns (ghost done': seq<Prop>)
    requires stream.buffer == before + PropBytes(done)
    modifies stream
    ensures done' == done + [prop] && stream.buffer == before + PropBytes(done')
  {
    done' := done + [prop];
    PropBytesAppend(done, [prop]);
    assert [prop][1..] == [] && PropBytes([prop]) == [prop.tag] + prop.data + [] == [prop.tag] + prop.data;
    stream.WriteByte(prop.tag);
    stream.buffer := stream.buffer + prop.data;
  }

  method PutNumber(tag: byte, v: nat, size: nat, stream: PropWriteStream, ghost before: seq<byte>,
        ghost done: seq<Prop>)
    returns (ghost done': seq<Prop>)
    requires stream.buffer == before + PropBytes(done)
    modifies stream
    ensures done' == done + [Number(tag, v, size)] && stream.buffer == before + PropBytes(done')
  {
    done' := Put(Number(tag, v, size), stream, before, done);
  }

  /** What all conditions begin with. */
  method SerializeHeader(c: Condition, stream: PropWriteStream)
    modifies stream
    ensures stream.buffer == old(stream.buffer) + PropBytes(Header(c))
  {
    hide PropBytes;
    ghost var b := stream.buffer;
    assert b == b + PropBytes([]) by { Nothing(b); }
    ghost var d := PutNumber(TYPE, c.kind, 4, stream, b, []);
    d := PutNumber(ID, c.id % 0x1_0000_0000, 4, stream, b, d);
    d := PutNumber(TICKS, Unsigned(c.ticks), 4, stream, b, d);
    d := PutNumber(IS_BUFF, Byte(c.isBuff), 1, stream, b, d);
    d := PutNumber(SUB_ID, c.subId, 4, stream, b, d);
    assert d == Header(c);
  }

  lemma {:induction false} Nothing(b: seq<byte>)
    ensures b == b + PropBytes([])
  {
  }

  method SerializeSigneds(tag: byte, l: seq<int32>, stream: PropWriteStream)
    modifies stream
    ensures stream.buffer == old(stream.buffer) + PropBytes(Signeds(tag, l))
  {
    ghost var done := [];
    for i := 0 to |l|
      invariant done + Signeds(tag, l[i..]) == Signeds(tag, l)
      invariant stream.buffer == old(stream.buffer) + PropBytes(done)
    {
      assert l[i..][0] == l[i] && l[i..][1..] == l[i + 1..];
      assert done + ([Number(tag, Unsigned(l[i]), 4)] + Signeds(tag, l[i + 1..]))
        == done + [Number(tag, Unsigned(l[i]), 4)] + Signeds(tag, l[i + 1..]);
      done := PutNumber(tag, Unsigned(l[i]), 4, stream, old(stream.buffer), done);
    }
    assert done == Signeds(tag, l);
  }

  method SerializeIntervals(l: seq<Interval>, stream: PropWriteStream)
    modifies stream
    ensures stream.buffer == old(stream.buffer) + PropBytes(Intervals(l))
  {
    ghost var done := [];
    for i := 0 to |l|
      invariant done + Intervals(l[i..]) == Intervals(l)
      invariant stream.buffer == old(stream.buffer) + PropBytes(done)
    {
      assert l[i..][0] == l[i] && l[i..][1..] == l[i + 1..];
      var prop := Prop(INTERVAL_DATA, IntervalBytes(l[i]));
      assert done + ([prop] + Intervals(l[i + 1..])) == done + [prop] + Intervals(l[i + 1..]);
      done := Put(prop, stream, old(stream.buffer), done);
    }
    assert done == Intervals(l);
  }

  method SerializeAttributes(body: Body, stream: PropWriteStream)
    requires body.Attributes?
    modifies stream
    ensures stream.buffer == old(stream.buffer) + PropBytes(Props(body))
  {
    hide PropBytes, Signeds;
    SerializeSigneds(SKILLS, body.skills, stream);
    SerializeSigneds(STATS, body.stats, stream);
    PropBytesAppend(Signeds(SKILLS, body.skills), Signeds(STATS, body.stats));
  }

  method SerializeRegeneration(body: Body, stream: PropWriteStream)
    requires body.Regeneration?
    modifies stream
    ensures stream.buffer == old(stream.buffer) + PropBytes(Props(body))
  {
    hide PropBytes, Number;
    ghost var b := stream.buffer;
    assert b == b + PropBytes([]) by { Nothing(b); }
    ghost var d := PutNumber(HEALTH_TICKS, body.healthTicks, 4, stream, b, []);
    d := PutNumber(HEALTH_GAIN, body.healthGain, 4, stream, b, d);
    d := PutNumber(MANA_TICKS, body.manaTicks, 4, stream, b, d);
    d := PutNumber(MANA_GAIN, body.manaGain, 4, stream, b, d);
    assert d == Props(body);
  }

  method SerializeSoul(body: Body, stream: PropWriteStream)
    requires body.Soul?
    modifies stream
    ensures stream.buffer == old(stream.buffer) + PropBytes(Props(body))
  {
    hide PropBytes, Number;
    ghost var b := stream.buffer;
    assert b == b + PropBytes([]) by { Nothing(b); }
    ghost var d := PutNumber(SOUL_GAIN, body.soulGain, 4, stream, b, []);
    d := PutNumber(SOUL_TICKS, body.soulTicks, 4, stream, b, d);
    assert d == Props(body);
  }

  method SerializeDamage(body: Body, stream: PropWriteStream)
    requires body.Damage?
    modifies stream
    ensures stream.buffer == old(stream.buffer) + PropBytes(Props(body))
  {
    hide PropBytes, Number;
    ghost var b := stream.buffer;
    assert b == b + PropBytes([]) by { Nothing(b); }
    ghost var d := PutNumber(DELAYED, Byte(body.delayed), 1, stream, b, []);
    d := PutNumber(PERIOD_DAMAGE, Unsigned(body.periodDamage), 4, stream, b, d);
    SerializeIntervals(body.list, stream);
    PropBytesAppend(d, Intervals(body.list));
    assert d + Intervals(body.list) == Props(body);
  }

  method SerializeSpeed(body: Body, stream: PropWriteStream)
    requires body.Speed?
    modifies stream
    ensures stream.buffer == old(stream.buffer) + PropBytes(Props(body))
  {
    hide PropBytes, Number;
    ghost var b := stream.buffer;
    assert b == b + PropBytes([]) by { Nothing(b); }
    ghost var d := PutNumber(SPEED_DELTA, Unsigned(body.speedDelta), 4, stream, b, []);
    d := PutNumber(FORMULA_MINA, body.mina, 4, stream, b, d);
    d := PutNumber(FORMULA_MINB, body.minb, 4, stream, b, d);
    d := PutNumber(FORMULA_MAXA, body.maxa, 4, stream, b, d);
    d := PutNumber(FORMULA_MAXB, body.maxb, 4, stream, b, d);
    assert d == Props(body);
  }

  method SerializeLight(body: Body, stream: PropWriteStream)
    requires body.Light?
    modifies stream
    ensures stream.buffer == old(stream.buffer) + PropBytes(Props(body))
  {
    hide PropBytes, Number;
    ghost var b := stream.buffer;
    assert b == b + PropBytes([]) by { Nothing(b); }
    ghost var d := PutNumber(LIGHT_COLOR, body.color, 4, stream, b, []);
    d := PutNumber(LIGHT_LEVEL, body.level, 4, stream, b, d);
    d := PutNumber(LIGHT_TICKS, body.lightTicks, 4, stream, b, d);
    d := PutNumber(LIGHT_INTERVAL, body.lightInterval, 4, stream, b, d);
    assert d == Props(body);
  }

  /** What each kind adds. */
  method SerializeBody(body: Body, stream: PropWriteStream)
    modifies stream
    ensures stream.buffer == old(stream.buffer) + PropBytes(Props(body))
  {
    match body {
      case Generic =>
      case Attributes(_, _, _, _) => SerializeAttributes(body, stream);
      case Regeneration(_, _, _, _) => SerializeRegeneration(body, stream);
      case Soul(_, _) => SerializeSoul(body, stream);
      case Damage(_, _, _) => SerializeDamage(body, stream);
      case Speed(_, _, _, _, _) => SerializeSpeed(body, stream);
      case Outfit(outfit) =>
        Nothing(stream.buffer);
        ghost var d := Put(Prop(OUTFIT, outfit), stream, stream.buffer, []);
      case Light(_, _, _, _) => SerializeLight(body, stream);
    }
  }

  method Serialize(c: Condition, stream: PropWriteStream)
    modifies stream
    ensures stream.buffer == old(stream.buffer) + PropBytes(Header(c) + Props(c.body))
  {
    SerializeHeader(c, stream);
    SerializeBody(c.body, stream);
    PropBytesAppend(Header(c), Props(c.body));
  }

  method SaveOne(c: Condition, stream: PropWriteStream)
    modifies stream
    ensures stream.buffer == old(stream.buffer) + Saved(c)
  {
    Serialize(c, stream);
    stream.WriteByte(END);
    Assoc(old(stream.buffer), PropBytes(Header(c) + Props(c.body)), [END]);
  }

  method SaveConditions(conditions: seq<Condition>, stream: PropWriteStream)
    modifies stream
    ensures stream.buffer == old(stream.buffer) + SavedAll(conditions)
  {
    hide Saved, Persistent;
    var i := 0;
    ghost var done := [];
    while i < |conditions|
      invariant 0 <= i <= |conditions| && stream.buffer == old(stream.buffer) + done
      invariant done + SavedAll(conditions[i..]) == SavedAll(conditions)
    {
      assert conditions[i..][0] == conditions[i] && conditions[i..][1..] == conditions[i + 1..];
      if Persistent(conditions[i]) {
        SaveOne(conditions[i], stream);
        Assoc(old(stream.buffer), done, Saved(conditions[i]));
        Assoc(done, Saved(conditions[i]), SavedAll(conditions[i + 1..]));
        done := done + Saved(conditions[i]);
      } else {
        assert [] + SavedAll(conditions[i + 1..]) == SavedAll(conditions[i + 1..]);
      }
      i := i + 1;
    }
    assert done == SavedAll(conditions);
  }

  // ----- Reading

  /** The size of a property, if conditions with this body know it. Beyond the last skill or stat there is none. */
  function SizeOf(b: Body, tag: byte): Option<nat>
  {
    if b.Attributes? && tag == SKILLS then (if b.currentSkill < |b.skills| then Some(4) else None)
    else if b.Attributes? && tag == STATS then (if b.currentStat < |b.stats| then Some(4) else None)
    else if b.Regeneration? && tag in {HEALTH_TICKS, HEALTH_GAIN, MANA_TICKS, MANA_GAIN} then Some(4)
    else if b.Soul? && tag in {SOUL_GAIN, SOUL_TICKS} then Some(4)
    else if b.Damage? && tag == DELAYED then Some(1)
    else if b.Damage? && tag in {PERIOD_DAMAGE, OWNER} then Some(4)
    else if b.Damage? && tag == INTERVAL_DATA then Some(12)
    else if b.Speed? && tag in {SPEED_DELTA, FORMULA_MINA, FORMULA_MINB, FORMULA_MAXA, FORMULA_MAXB} then Some(4)
    else if b.Outfit? && tag == OUTFIT then Some(OUTFIT_SIZE)
    else if b.Light? && tag in {LIGHT_COLOR, LIGHT_LEVEL, LIGHT_TICKS, LIGHT_INTERVAL} then Some(4)
    else if tag == IS_BUFF then Some(1)
    else if tag in {TYPE, ID, TICKS, SUB_ID} then Some(4)
    else None
  }

  function Four(data: seq<byte>): uint32
    requires |data| <= 4
  {
    DecodeFour(data);
    Decode(data)
  }

  lemma {:induction false} DecodeFour(data: seq<byte>)
    requires |data| <= 4
    ensures Decode(data) < 0x1_0000_0000
  {
    DecodeBound(data);
    Widths();
    Smaller(|data|, 4);
  }

  lemma {:induction false} Smaller(a: nat, b: nat)
    requires a <= b
    ensures Pow256(a) <= Pow256(b)
  {
    if a < b {
      Smaller(a, b - 1);
    }
  }

  function IntervalOf(data: seq<byte>): Interval
    requires |data| == 12
  {
    Interval(Signed(Four(data[..4])), Signed(Four(data[4..8])), Signed(Four(data[8..])))
  }

  function ApplyAttributes(b: Body, tag: byte, v: int32): Body
    requires b.Attributes? && SizeOf(b, tag) == Some(4)
  {
    if tag == SKILLS then b.(skills := b.skills[b.currentSkill := v], currentSkill := b.currentSkill + 1)
    else if tag == STATS then b.(stats := b.stats[b.currentStat := v], currentStat := b.currentStat + 1)
    else b
  }

  function ApplyNumber(b: Body, tag: byte, v: uint32): Body
  {
    match b
    case Regeneration(_, _, _, _) =>
      if tag == HEALTH_TICKS then b.(healthTicks := v) else if tag == HEALTH_GAIN then b.(healthGain := v)
      else if tag == MANA_TICKS then b.(manaTicks := v) else if tag == MANA_GAIN then b.(manaGain := v) else b
    case Soul(_, _) =>
      if tag == SOUL_GAIN then b.(soulGain := v) else if tag == SOUL_TICKS then b.(soulTicks := v) else b
    case Damage(_, _, _) => if tag == PERIOD_DAMAGE then b.(periodDamage := Signed(v)) else b
    case Speed(_, _, _, _, _) =>
      if tag == SPEED_DELTA then b.(speedDelta := Signed(v)) else if tag == FORMULA_MINA then b.(mina := v)
      else if tag == FORMULA_MINB then b.(minb := v) else if tag == FORMULA_MAXA then b.(maxa := v)
      else if tag == FORMULA_MAXB then b.(maxb := v) else b
    case Light(_, _, _, _) =>
      if tag == LIGHT_COLOR then b.(color := v % 0x100) else if tag == LIGHT_LEVEL then b.(level := v % 0x100)
      else if tag == LIGHT_TICKS then b.(lightTicks := v)
      else if tag == LIGHT_INTERVAL then b.(lightInterval := v) else b
    case _ => b
  }

  /** A condition after one property has been read. A stretch of damage prolongs it. */
  function Apply(c: Condition, prop: Prop): Condition
    requires SizeOf(c.body, prop.tag) == Some(|prop.data|)
  {
    var tag := prop.tag;
    if c.body.Damage? && tag == DELAYED then c.(body := c.body.(delayed := Decode(prop.data) != 0))
    else if c.body.Damage? && tag == INTERVAL_DATA then
      var i := IntervalOf(prop.data);
      c.(body := c.body.(list := c.body.list + [i]), ticks := if c.ticks != -1 then Wrap(c.ticks + i.interval) else -1)
    else if c.body.Outfit? && tag == OUTFIT then c.(body := Outfit(prop.data))
    else if tag == IS_BUFF then c.(isBuff := Decode(prop.data) != 0)
    else if tag == TYPE then c.(kind := Four(prop.data))
    else if tag == ID then c.(id := ToId(Signed(Four(prop.data))))
    else if tag == TICKS then c.(ticks := Signed(Four(prop.data)))
    else if tag == SUB_ID then c.(subId := Four(prop.data))
    else if c.body.Attributes? then c.(body := ApplyAttributes(c.body, tag, Signed(Four(prop.data))))
    else c.(body := ApplyNumber(c.body, tag, Four(prop.data)))
  }

  datatype Read = Read(ok: bool, p: nat, c: Condition)

  /** `unserialize`: property after property, up to `END` or the end of the stream. */
  function ReadProps(data: seq<byte>, p: nat, c: Condition): (r: Read)
    ensures r.p >= p && (p <= |data| ==> r.p <= |data|)
    decreases |data| - p
  {
    if p >= |data| then Read(true, p, c)
    else if data[p] == END then Read(true, p + 1, c)
    else
      var size := SizeOf(c.body, data[p]);
      if size.None? || p + 1 + size.value > |data| then Read(false, p + 1, c)
      else ReadProps(data, p + 1 + size.value, Apply(c, Prop(data[p], data[p + 1..p + 1 + size.value])))
  }

  /** A number under the tag expected. */
  function Tagged(data: seq<byte>, p: nat, tag: byte, size: nat): Option<nat>
  {
    if p + 1 + size <= |data| && data[p] == tag then Some(NumberAt(data, p + 1, size)) else None
  }

  const HEADER_SIZE := 22

  /** The condition that the stream announces at `p`. */
  function ReadHeader(data: seq<byte>, p: nat): Option<Condition>
  {
    var kind := Tagged(data, p, TYPE, 4);
    var id := Tagged(data, p + 5, ID, 4);
    var ticks := Tagged(data, p + 10, TICKS, 4);
    var isBuff := Tagged(data, p + 15, IS_BUFF, 1);
    var subId := Tagged(data, p + 17, SUB_ID, 4);
    if kind.None? || id.None? || ticks.None? || isBuff.None? || subId.None? then None
    else
      TaggedFits(data, p, TYPE);
      TaggedFits(data, p + 5, ID);
      TaggedFits(data, p + 10, TICKS);
      TaggedFits(data, p + 17, SUB_ID);
      Create(kind.value, ToId(id.value), Signed(ticks.value), isBuff.value != 0, subId.value)
  }

  /** Where a property that is not the one expected leaves the position. */
  function PastTag(data: seq<byte>, p: nat): nat
  {
    if p < |data| then p + 1 else p
  }

  /** Where reading a header ends, whether it comes to its end or not. */
  function HeaderEnd(data: seq<byte>, p: nat): (q: nat)
    ensures p == |data| ==> q == p
  {
    if Tagged(data, p, TYPE, 4).None? then PastTag(data, p)
    else if Tagged(data, p + 5, ID, 4).None? then PastTag(data, p + 5)
    else if Tagged(data, p + 10, TICKS, 4).None? then PastTag(data, p + 10)
    else if Tagged(data, p + 15, IS_BUFF, 1).None? then PastTag(data, p + 15)
    else if Tagged(data, p + 17, SUB_ID, 4).None? then PastTag(data, p + 17)
    else p + HEADER_SIZE
  }

  lemma {:induction false} TaggedFits(data: seq<byte>, p: nat, tag: byte)
    ensures Tagged(data, p, tag, 4).Some? ==> Tagged(data, p, tag, 4).value < 0x1_0000_0000
  {
    if p + 5 <= |data| {
      DecodeFour(data[p + 1..p + 5]);
    }
  }

  /** All conditions of a stream, the last first; one that cannot be read to its end is dropped. */
  function LoadedFrom(data: seq<byte>, p: nat, list: seq<Condition>): (r: (seq<Condition>, nat))
    decreases |data| - p
  {
    var made := ReadHeader(data, p);
    if made.None? then (list, p)
    else
      var r := ReadProps(data, p + HEADER_SIZE, made.value);
      LoadedFrom(data, r.p, if r.ok then [r.c] + list else list)
  }

  // ----- What was written is what is read

  /** Every property of `l` is one the condition knows when its turn comes. */
  function ApplyAll(c: Condition, l: seq<Prop>): Option<Condition>
    decreases |l|
  {
    if l == [] then Some(c)
    else if SizeOf(c.body, l[0].tag) != Some(|l[0].data|) || l[0].tag == END then None
    else ApplyAll(Apply(c, l[0]), l[1..])
  }

  lemma {:induction false} ApplyAllAppend(c: Condition, a: seq<Prop>, b: seq<Prop>)
    requires ApplyAll(c, a).Some?
    ensures ApplyAll(c, a + b) == ApplyAll(ApplyAll(c, a).value, b)
    decreases |a|
  {
    if a == [] {
      assert a + b == b;
    } else {
      assert (a + b)[0] == a[0] && (a + b)[1..] == a[1..] + b;
      ApplyAllAppend(Apply(c, a[0]), a[1..], b);
    }
  }

  /** Properties that stand in a stream are read as they are. */
  lemma {:induction false} ReadPropsWritten(data: seq<byte>, p: nat, c: Condition, l: seq<Prop>)
    requires At(data, p, PropBytes(l) + [END]) && ApplyAll(c, l).Some?
    ensures ReadProps(data, p, c) == Read(true, p + |PropBytes(l)| + 1, ApplyAll(c, l).value)
    decreases |l|
  {
    hide *;
    if l == [] {
      EndRead(data, p, c);
    } else {
      ApplyAllStep(c, l);
      PropBytesStep(l);
      var rest := PropBytes(l[1..]) + [END];
      AtSplit(data, p, [l[0].tag], l[0].data + rest);
      AtSplit(data, p + 1, l[0].data, rest);
      ReadPropsWritten(data, p + 1 + |l[0].data|, Apply(c, l[0]), l[1..]);
      FirstRead(data, p, c, l[0]);
    }
  }

  lemma {:induction false} EndRead(data: seq<byte>, p: nat, c: Condition)
    requires At(data, p, PropBytes([]) + [END])
    ensures ReadProps(data, p, c) == Read(true, p + |PropBytes([])| + 1, c) && ApplyAll(c, []) == Some(c)
  {
    hide Apply, SizeOf, At;
    assert PropBytes([]) + [END] == [END];
    AtHead(data, p, [END]);
  }

  lemma {:induction false} ApplyAllStep(c: Condition, l: seq<Prop>)
    requires l != [] && ApplyAll(c, l).Some?
    ensures SizeOf(c.body, l[0].tag) == Some(|l[0].data|) && l[0].tag != END
    ensures ApplyAll(c, l) == ApplyAll(Apply(c, l[0]), l[1..])
  {
    hide Apply, SizeOf;
  }

  lemma {:induction false} PropBytesStep(l: seq<Prop>)
    requires l != []
    ensures PropBytes(l) + [END] == [l[0].tag] + (l[0].data + (PropBytes(l[1..]) + [END]))
    ensures |PropBytes(l)| == 1 + |l[0].data| + |PropBytes(l[1..])|
  {
  }

  /** The property that stands at `p` is read and applied. */
  lemma {:induction false} FirstRead(data: seq<byte>, p: nat, c: Condition, x: Prop)
    requires At(data, p, [x.tag]) && At(data, p + 1, x.data)
    requires SizeOf(c.body, x.tag) == Some(|x.data|) && x.tag != END
    ensures ReadProps(data, p, c) == ReadProps(data, p + 1 + |x.data|, Apply(c, x))
  {
    hide Apply, SizeOf;
    AtHead(data, p, [x.tag]);
    assert data[p + 1..p + 1 + |x.data|] == x.data;
  }

  lemma {:induction false} FourOf(v: uint32)
    ensures Four(Encode(v, 4)) == v
  {
    Widths();
    DecodeEncode(v, 4);
  }

  lemma {:induction false} SignedOf(v: int32)
    ensures Signed(Four(Encode(Unsigned(v), 4))) == v
  {
    FourOf(Unsigned(v));
  }

  lemma {:induction false} BoolOf(b: bool)
    ensures (Decode(Encode(Byte(b), 1)) != 0) == b
  {
    Widths();
    DecodeEncode(Byte(b), 1);
  }

  lemma {:induction false} IntervalRead(i: Interval)
    ensures IntervalOf(IntervalBytes(i)) == i
  {
    var a, b, d := Encode(Unsigned(i.timeLeft), 4), Encode(Unsigned(i.value), 4), Encode(Unsigned(i.interval), 4);
    assert IntervalBytes(i)[..4] == a && IntervalBytes(i)[4..8] == b && IntervalBytes(i)[8..] == d;
    SignedOf(i.timeLeft);
    SignedOf(i.value);
    SignedOf(i.interval);
  }

  /** The ticks of a damage condition once its stretches have been read. */
  function TicksAfter(ticks: int32, l: seq<Interval>): int32
    decreases |l|
  {
    if l == [] then ticks else TicksAfter(if ticks != -1 then Wrap(ticks + l[0].interval) else -1, l[1..])
  }

  /** What comes back of a condition: damage gets its ticks from its stretches, all else is as it was. */
  function Normal(c: Condition): Condition
  {
    match c.body
    case Attributes(_, _, _, _) => c.(body := c.body.(currentSkill := SKILL_COUNT, currentStat := STAT_COUNT))
    case Damage(_, _, list) => c.(ticks := TicksAfter(0, list))
    case _ => c
  }

  function Length(l: seq<Interval>): int
  {
    if l == [] then 0 else l[0].interval + Length(l[1..])
  }

  /** With stretches of positive length, the ticks are the sum of their lengths. */
  lemma {:induction false} TicksAreLength(ticks: int32, l: seq<Interval>)
    requires ticks >= 0 && ticks + Length(l) < 0x8000_0000
    requires forall i :: 0 <= i < |l| ==> l[i].interval >= 0
    ensures TicksAfter(ticks, l) == ticks + Length(l)
    decreases |l|
  {
    if l != [] {
      LengthPositive(l[1..]);
      TicksAreLength(ticks + l[0].interval, l[1..]);
    }
  }

  lemma {:induction false} LengthPositive(l: seq<Interval>)
    requires forall i :: 0 <= i < |l| ==> l[i].interval >= 0
    ensures Length(l) >= 0
  {
    if l != [] {
      LengthPositive(l[1..]);
    }
  }

  lemma {:induction false} SkillsRead(c: Condition, l: seq<int32>)
    requires c.body.Attributes? && c.body.currentSkill + |l| <= |c.body.skills|
    ensures var k := c.body.currentSkill;
      ApplyAll(c, Signeds(SKILLS, l)) == Some(
        c.(body := c.body.(skills := c.body.skills[..k] + l + c.body.skills[k + |l|..], currentSkill := k + |l|)))
    decreases |l|
  {
    var k := c.body.currentSkill;
    if l == [] {
      assert c.body.skills[..k] + l + c.body.skills[k..] == c.body.skills;
    } else {
      SignedOf(l[0]);
      var c1 := Apply(c, Number(SKILLS, Unsigned(l[0]), 4));
      SkillsRead(c1, l[1..]);
      assert c1.body.skills[..k + 1] + l[1..] + c1.body.skills[k + |l|..]
        == c.body.skills[..k] + l + c.body.skills[k + |l|..];
    }
  }

  lemma {:induction false} StatsRead(c: Condition, l: seq<int32>)
    requires c.body.Attributes? && c.body.currentStat + |l| <= |c.body.stats|
    ensures var k := c.body.currentStat;
      ApplyAll(c, Signeds(STATS, l)) == Some(
        c.(body := c.body.(stats := c.body.stats[..k] + l + c.body.stats[k + |l|..], currentStat := k + |l|)))
    decreases |l|
  {
    var k := c.body.currentStat;
    if l == [] {
      assert c.body.stats[..k] + l + c.body.stats[k..] == c.body.stats;
    } else {
      SignedOf(l[0]);
      var c1 := Apply(c, Number(STATS, Unsigned(l[0]), 4));
      StatsRead(c1, l[1..]);
      assert c1.body.stats[..k + 1] + l[1..] + c1.body.stats[k + |l|..]
        == c.body.stats[..k] + l + c.body.stats[k + |l|..];
    }
  }

  lemma {:induction false} IntervalsRead(c: Condition, l: seq<Interval>)
    requires c.body.Damage?
    ensures ApplyAll(c, Intervals(l))
      == Some(c.(body := c.body.(list := c.body.list + l), ticks := TicksAfter(c.ticks, l)))
    decreases |l|
  {
    hide *;
    if l == [] {
      NoIntervals(c);
    } else {
      var ticks := if c.ticks != -1 then Wrap(c.ticks + l[0].interval) else -1;
      var c' := c.(body := c.body.(list := c.body.list + [l[0]]), ticks := ticks);
      FirstInterval(c, l);
      IntervalsRead(c', l[1..]);
      assert c.body.list + l == c.body.list + [l[0]] + l[1..];
    }
  }

  lemma {:induction false} NoIntervals(c: Condition)
    requires c.body.Damage?
    ensures ApplyAll(c, Intervals([]))
      == Some(c.(body := c.body.(list := c.body.list + []), ticks := TicksAfter(c.ticks, [])))
  {
    assert c.body.list + [] == c.body.list;
  }

  lemma {:induction false} FirstInterval(c: Condition, l: seq<Interval>)
    requires c.body.Damage? && l != []
    ensures var ticks := if c.ticks != -1 then Wrap(c.ticks + l[0].interval) else -1;
      && ApplyAll(c, Intervals(l))
         == ApplyAll(c.(body := c.body.(list := c.body.list + [l[0]]), ticks := ticks), Intervals(l[1..]))
      && TicksAfter(c.ticks, l) == TicksAfter(ticks, l[1..])
  {
    hide IntervalBytes, IntervalOf, ApplyAll, Wrap;
    IntervalRead(l[0]);
    One(c, Prop(INTERVAL_DATA, IntervalBytes(l[0])), Intervals(l[1..]));
  }

  lemma {:induction false} AttributesRead(c: Condition)
    requires Proper(c) && c.body.Attributes?
    ensures ApplyAll(Create(c.kind, c.id, c.ticks, c.isBuff, c.subId).value, Props(c.body)) == Some(Normal(c))
  {
    var made := Create(c.kind, c.id, c.ticks, c.isBuff, c.subId).value;
    SkillsRead(made, c.body.skills);
    var c1 := ApplyAll(made, Signeds(SKILLS, c.body.skills)).value;
    assert c1.body.skills == c.body.skills;
    StatsRead(c1, c.body.stats);
    assert ApplyAll(c1, Signeds(STATS, c.body.stats)).value.body.stats == c.body.stats;
    ApplyAllAppend(made, Signeds(SKILLS, c.body.skills), Signeds(STATS, c.body.stats));
  }

  lemma {:induction false} One(c: Condition, p: Prop, l: seq<Prop>)
    requires SizeOf(c.body, p.tag) == Some(|p.data|) && p.tag != END
    ensures ApplyAll(c, [p] + l) == ApplyAll(Apply(c, p), l)
  {
    assert ([p] + l)[0] == p && ([p] + l)[1..] == l;
  }

  lemma {:induction false} DamageRead(c: Condition)
    requires Proper(c) && c.body.Damage?
    ensures ApplyAll(Create(c.kind, c.id, c.ticks, c.isBuff, c.subId).value, Props(c.body)) == Some(Normal(c))
  {
    hide ApplyAll, Apply, SizeOf, TicksAfter, Bit, Intervals;
    var made := Create(c.kind, c.id, c.ticks, c.isBuff, c.subId).value;
    DamageHeadRead(made, c.body, Intervals(c.body.list));
    IntervalsRead(made.(body := c.body.(list := [])), c.body.list);
    assert [] + c.body.list == c.body.list;
  }

  lemma {:induction false} DamageHeadRead(made: Condition, b: Body, l: seq<Prop>)
    requires made.body == Damage(false, 0, []) && b.Damage?
    ensures var p, q := Number(DELAYED, Byte(b.delayed), 1), Number(PERIOD_DAMAGE, Unsigned(b.periodDamage), 4);
      ApplyAll(made, [p, q] + l) == ApplyAll(made.(body := b.(list := [])), l)
  {
    hide Encode, Decode, Byte, Unsigned;
    var p, q := Number(DELAYED, Byte(b.delayed), 1), Number(PERIOD_DAMAGE, Unsigned(b.periodDamage), 4);
    assert [p, q] + l == [p] + ([q] + l);
    BoolOf(b.delayed);
    SignedOf(b.periodDamage);
    One(made, p, [q] + l);
    One(Apply(made, p), q, l);
  }

  lemma {:induction false} OneNumber(c: Condition, tag: byte, v: uint32, l: seq<Prop>)
    requires SizeOf(c.body, tag) == Some(4) && tag !in {END, TYPE, ID, TICKS, SUB_ID, IS_BUFF}
    requires c.body.Regeneration? || c.body.Soul? || c.body.Light? || c.body.Speed?
    ensures ApplyAll(c, [Number(tag, v, 4)] + l) == ApplyAll(c.(body := ApplyNumber(c.body, tag, v)), l)
  {
    FourOf(v);
    One(c, Number(tag, v, 4), l);
  }

  lemma {:induction false} RegenerationRead(c: Condition, made: Condition)
    requires c.body.Regeneration? && made.body.Regeneration?
    ensures ApplyAll(made, Props(c.body)) == Some(made.(body := c.body))
  {
    var b := c.body;
    var p3 := [Number(MANA_GAIN, b.manaGain, 4)];
    var p2 := [Number(MANA_TICKS, b.manaTicks, 4)] + p3;
    var p1 := [Number(HEALTH_GAIN, b.healthGain, 4)] + p2;
    assert Props(b) == [Number(HEALTH_TICKS, b.healthTicks, 4)] + p1 && p3 + [] == p3;
    OneNumber(made, HEALTH_TICKS, b.healthTicks, p1);
    var c1 := made.(body := ApplyNumber(made.body, HEALTH_TICKS, b.healthTicks));
    OneNumber(c1, HEALTH_GAIN, b.healthGain, p2);
    var c2 := c1.(body := ApplyNumber(c1.body, HEALTH_GAIN, b.healthGain));
    OneNumber(c2, MANA_TICKS, b.manaTicks, p3);
    OneNumber(c2.(body := ApplyNumber(c2.body, MANA_TICKS, b.manaTicks)), MANA_GAIN, b.manaGain, []);
  }

  lemma {:induction false} SoulRead(c: Condition, made: Condition)
    requires c.body.Soul? && made.body.Soul?
    ensures ApplyAll(made, Props(c.body)) == Some(made.(body := c.body))
  {
    var b := c.body;
    var p1 := [Number(SOUL_TICKS, b.soulTicks, 4)];
    assert Props(b) == [Number(SOUL_GAIN, b.soulGain, 4)] + p1 && p1 + [] == p1;
    OneNumber(made, SOUL_GAIN, b.soulGain, p1);
    OneNumber(made.(body := ApplyNumber(made.body, SOUL_GAIN, b.soulGain)), SOUL_TICKS, b.soulTicks, []);
  }

  lemma {:induction false} LightRead(c: Condition, made: Condition)
    requires c.body.Light? && made.body.Light?
    ensures ApplyAll(made, Props(c.body)) == Some(made.(body := c.body))
  {
    hide Apply, Number;
    var b := c.body;
    var p3 := [Number(LIGHT_INTERVAL, b.lightInterval, 4)];
    var p2 := [Number(LIGHT_TICKS, b.lightTicks, 4)] + p3;
    var p1 := [Number(LIGHT_LEVEL, b.level, 4)] + p2;
    assert Props(b) == [Number(LIGHT_COLOR, b.color, 4)] + p1 && p3 + [] == p3;
    OneNumber(made, LIGHT_COLOR, b.color, p1);
    var c1 := made.(body := ApplyNumber(made.body, LIGHT_COLOR, b.color));
    OneNumber(c1, LIGHT_LEVEL, b.level, p2);
    var c2 := c1.(body := ApplyNumber(c1.body, LIGHT_LEVEL, b.level));
    OneNumber(c2, LIGHT_TICKS, b.lightTicks, p3);
    OneNumber(c2.(body := ApplyNumber(c2.body, LIGHT_TICKS, b.lightTicks)), LIGHT_INTERVAL, b.lightInterval, []);
  }

  lemma {:induction false} SpeedRead(c: Condition, made: Condition)
    requires c.body.Speed? && made.body.Speed?
    ensures ApplyAll(made, Props(c.body)) == Some(made.(body := c.body))
  {
    hide Apply, Number;
    var b := c.body;
    var p3 := [Number(FORMULA_MAXA, b.maxa, 4)] + [Number(FORMULA_MAXB, b.maxb, 4)];
    var p1 := [Number(FORMULA_MINA, b.mina, 4)] + ([Number(FORMULA_MINB, b.minb, 4)] + p3);
    assert Props(b) == [Number(SPEED_DELTA, Unsigned(b.speedDelta), 4)] + p1;
    OneNumber(made, SPEED_DELTA, Unsigned(b.speedDelta), p1);
    var c1 := made.(body := made.body.(speedDelta := b.speedDelta));
    FormulaMinRead(c, c1, p3);
    FormulaMaxRead(c, c1.(body := c1.body.(mina := b.mina, minb := b.minb)));
  }

  lemma {:induction false} FormulaMinRead(c: Condition, made: Condition, l: seq<Prop>)
    requires c.body.Speed? && made.body.Speed?
    ensures ApplyAll(made, [Number(FORMULA_MINA, c.body.mina, 4)] + ([Number(FORMULA_MINB, c.body.minb, 4)] + l))
      == ApplyAll(made.(body := made.body.(mina := c.body.mina, minb := c.body.minb)), l)
  {
    hide Apply, Number;
    var b := c.body;
    OneNumber(made, FORMULA_MINA, b.mina, [Number(FORMULA_MINB, b.minb, 4)] + l);
    OneNumber(made.(body := made.body.(mina := b.mina)), FORMULA_MINB, b.minb, l);
  }

  lemma {:induction false} FormulaMaxRead(c: Condition, made: Condition)
    requires c.body.Speed? && made.body.Speed?
    ensures ApplyAll(made, [Number(FORMULA_MAXA, c.body.maxa, 4)] + [Number(FORMULA_MAXB, c.body.maxb, 4)])
      == Some(made.(body := made.body.(maxa := c.body.maxa, maxb := c.body.maxb)))
  {
    hide Apply, Number;
    var b, p4 := c.body, [Number(FORMULA_MAXB, c.body.maxb, 4)];
    assert p4 + [] == p4;
    OneNumber(made, FORMULA_MAXA, b.maxa, p4);
    OneNumber(made.(body := made.body.(maxa := b.maxa)), FORMULA_MAXB, b.maxb, []);
  }

  /** Of every kind, the properties written make the condition again. */
  lemma {:induction false} BodyRead(c: Condition)
    requires Proper(c)
    ensures ApplyAll(Create(c.kind, c.id, c.ticks, c.isBuff, c.subId).value, Props(c.body)) == Some(Normal(c))
  {
    var made := Create(c.kind, c.id, c.ticks, c.isBuff, c.subId).value;
    match c.body {
      case Attributes(_, _, _, _) => AttributesRead(c);
      case Damage(_, _, _) => DamageRead(c);
      case Regeneration(_, _, _, _) => RegenerationRead(c, made);
      case Soul(_, _) => SoulRead(c, made);
      case Speed(_, _, _, _, _) => SpeedRead(c, made);
      case Light(_, _, _, _) => LightRead(c, made);
      case Outfit(outfit) =>
        One(made, Prop(OUTFIT, outfit), []);
        assert [Prop(OUTFIT, outfit)] + [] == [Prop(OUTFIT, outfit)];
      case Generic =>
    }
  }

  lemma {:induction false} TaggedWritten(data: seq<byte>, p: nat, tag: byte, v: nat, size: nat)
    requires At(data, p, [tag] + Encode(v, size)) && v < Pow256(size)
    ensures Tagged(data, p, tag, size) == Some(v)
  {
    AtSplit(data, p, [tag], Encode(v, size));
    AtHead(data, p, [tag]);
    AtNumber(data, p + 1, v, size);
  }

  /** A header that stands in a stream announces its condition. */
  lemma {:induction false} HeaderRead(data: seq<byte>, p: nat, c: Condition)
    requires Proper(c) && At(data, p, PropBytes(Header(c)))
    ensures |PropBytes(Header(c))| == HEADER_SIZE
    ensures ReadHeader(data, p) == Create(c.kind, c.id, c.ticks, c.isBuff, c.subId)
  {
    hide Create, Encode, Header, PropBytes, Tagged, At;
    var a, b := [TYPE] + Encode(c.kind, 4), [ID] + Encode(c.id % 0x1_0000_0000, 4);
    var d, e := [TICKS] + Encode(Unsigned(c.ticks), 4), [IS_BUFF] + Encode(Byte(c.isBuff), 1);
    var f := [SUB_ID] + Encode(c.subId, 4);
    HeaderBytes(c);
    AtSplit(data, p, a, b + (d + (e + f)));
    AtSplit(data, p + 5, b, d + (e + f));
    AtSplit(data, p + 10, d, e + f);
    AtSplit(data, p + 15, e, f);
    Widths();
    TaggedWritten(data, p, TYPE, c.kind, 4);
    TaggedWritten(data, p + 5, ID, c.id % 0x1_0000_0000, 4);
    TaggedWritten(data, p + 10, TICKS, Unsigned(c.ticks), 4);
    TaggedWritten(data, p + 15, IS_BUFF, Byte(c.isBuff), 1);
    TaggedWritten(data, p + 17, SUB_ID, c.subId, 4);
    assert ToId(c.id % 0x1_0000_0000) == c.id;
  }

  lemma {:induction false} HeaderBytes(c: Condition)
    ensures PropBytes(Header(c))
      == ([TYPE] + Encode(c.kind, 4))
         + (([ID] + Encode(c.id % 0x1_0000_0000, 4))
            + (([TICKS] + Encode(Unsigned(c.ticks), 4))
               + (([IS_BUFF] + Encode(Byte(c.isBuff), 1)) + ([SUB_ID] + Encode(c.subId, 4)))))
  {
    var h := Header(c);
    assert h[1..][1..] == h[2..] && h[2..][1..] == h[3..] && h[3..][1..] == h[4..] && h[4..][1..] == [];
    assert PropBytes(h[4..]) == [SUB_ID] + Encode(c.subId, 4);
    assert PropBytes(h[3..]) == ([IS_BUFF] + Encode(Byte(c.isBuff), 1)) + PropBytes(h[4..]);
    assert PropBytes(h[2..]) == ([TICKS] + Encode(Unsigned(c.ticks), 4)) + PropBytes(h[3..]);
    assert PropBytes(h[1..]) == ([ID] + Encode(c.id % 0x1_0000_0000, 4)) + PropBytes(h[2..]);
  }

  /** The persistent conditions of a list, as they come back: in reverse. */
  function Restored(l: seq<Condition>, list: seq<Condition>): seq<Condition>
    decreases |l|
  {
    if l == [] then list else Restored(l[1..], if Persistent(l[0]) then [Normal(l[0])] + list else list)
  }

  /** One condition that stands in a stream is read back to its end. */
  lemma {:induction false} OneLoaded(data: seq<byte>, p: nat, c: Condition)
    requires Proper(c) && At(data, p, Saved(c))
    ensures ReadHeader(data, p) == Create(c.kind, c.id, c.ticks, c.isBuff, c.subId) && ReadHeader(data, p).Some?
    ensures ReadProps(data, p + HEADER_SIZE, ReadHeader(data, p).value) == Read(true, p + |Saved(c)|, Normal(c))
  {
    PropBytesAppend(Header(c), Props(c.body));
    var h, b := PropBytes(Header(c)), PropBytes(Props(c.body)) + [END];
    assert Saved(c) == h + b;
    AtSplit(data, p, h, b);
    HeaderRead(data, p, c);
    BodyRead(c);
    ReadPropsWritten(data, p + |h|, Create(c.kind, c.id, c.ticks, c.isBuff, c.subId).value, Props(c.body));
  }

  lemma {:induction false} NoHeader(data: seq<byte>)
    ensures ReadHeader(data, |data|).None?
  {
  }

  /** Loading what was saved consumes the whole stream and brings back every persistent condition. */
  lemma {:induction false} SavedIsLoaded(data: seq<byte>, p: nat, l: seq<Condition>, list: seq<Condition>)
    requires forall i :: 0 <= i < |l| ==> Proper(l[i])
    requires At(data, p, SavedAll(l)) && p + |SavedAll(l)| == |data|
    ensures LoadedFrom(data, p, list) == (Restored(l, list), |data|)
    decreases |l|
  {
    NoHeader(data);
    hide Saved, ReadProps, ReadHeader, Proper, Normal, Persistent, At;
    if l == [] {
    } else if Persistent(l[0]) {
      AtSplit(data, p, Saved(l[0]), SavedAll(l[1..]));
      OneLoaded(data, p, l[0]);
      SavedIsLoaded(data, p + |Saved(l[0])|, l[1..], [Normal(l[0])] + list);
    } else {
      assert SavedAll(l) == SavedAll(l[1..]);
      SavedIsLoaded(data, p, l[1..], list);
    }
  }

  /** Between persistent conditions nothing but the order changes: the list is reversed. */
  lemma {:induction false} RestoredIsReversed(l: seq<Condition>, list: seq<Condition>)
    requires forall i :: 0 <= i < |l| ==> Persistent(l[i])
    ensures |Restored(l, list)| == |l| + |list|
    ensures forall i :: 0 <= i < |l| ==> Restored(l, list)[i] == Normal(l[|l| - 1 - i])
    ensures Restored(l, list)[|l|..] == list
    decreases |l|
  {
    if l != [] {
      var more := [Normal(l[0])] + list;
      RestoredIsReversed(l[1..], more);
      assert Restored(l, list)[|l| - 1..][0] == more[0];
      assert Restored(l, list)[|l|..] == Restored(l, list)[|l| - 1..][1..];
    }
  }

  lemma {:induction false} RestoredOnTop(l: seq<Condition>, list: seq<Condition>)
    ensures Restored(l, list) == Restored(l, []) + list
    decreases |l|
  {
    hide Persistent, Normal;
    if l != [] {
      var more := if Persistent(l[0]) then [Normal(l[0])] else [];
      RestoredOnTop(l[1..], more + list);
      RestoredOnTop(l[1..], more);
      assert more + [] == more;
      assert Restored(l[1..], []) + (more + list) == (Restored(l[1..], []) + more) + list;
      assert Restored(l, list) == Restored(l[1..], more + list) by {
        assert [] + list == list;
      }
    }
  }

  /** Of two lists saved one after the other the second comes back in front of the first. */
  lemma {:induction false} RestoredInParts(a: seq<Condition>, b: seq<Condition>, list: seq<Condition>)
    ensures Restored(a + b, list) == Restored(b, []) + Restored(a, list)
    decreases |a|
  {
    hide Persistent, Normal;
    if a == [] {
      assert a + b == b;
      RestoredOnTop(b, list);
    } else {
      assert (a + b)[0] == a[0] && (a + b)[1..] == a[1..] + b;
      RestoredInParts(a[1..], b, if Persistent(a[0]) then [Normal(a[0])] + list else list);
    }
  }

  /** What of a condition is the same after it was saved and loaded: all of it, but for where the next skill and
      stat go, and for the ticks of damage, which are the sum of its stretches. */
  predicate Alike(c: Condition, d: Condition)
  {
    && d.kind == c.kind && d.id == c.id && d.isBuff == c.isBuff && d.subId == c.subId
    && match c.body
       case Attributes(skills, stats, _, _) =>
         d.ticks == c.ticks && d.body.Attributes? && d.body.skills == skills && d.body.stats == stats
       case Damage(_, _, list) =>
         && d.body == c.body
         && ((forall i :: 0 <= i < |list| ==> list[i].interval >= 0) && Length(list) < 0x8000_0000
             ==> d.ticks == Length(list))
       case _ => d == c
  }

  /** A condition comes back if and only if it has an end and one of the two ids that no worn item gives. */
  lemma {:induction false} ComesBack(c: Condition)
    requires Proper(c)
    ensures var back := LoadedFrom(SavedAll([c]), 0, []).0;
      if c.ticks == -1 || (c.id != -1 && c.id != 0) then back == [] else |back| == 1 && Alike(c, back[0])
  {
    var data := SavedAll([c]);
    hide Saved, Proper, LoadedFrom;
    SavedIsLoaded(data, 0, [c], []);
    if c.body.Damage? && (forall i :: 0 <= i < |c.body.list| ==> c.body.list[i].interval >= 0)
      && Length(c.body.list) < 0x8000_0000 {
      TicksAreLength(0, c.body.list);
    }
  }

  // ----- The readers

  method ReadTagged(stream: PropStream, tag: byte, size: nat) returns (ok: bool, v: nat)
    requires stream.Valid()
    modifies stream
    ensures stream.Valid()
    ensures ok == Tagged(stream.data, old(stream.p), tag, size).Some?
    ensures ok ==> v == Tagged(stream.data, old(stream.p), tag, size).value && stream.p == old(stream.p) + 1 + size
    ensures !ok ==> stream.p == PastTag(stream.data, old(stream.p))
  {
    var attr;
    ok, attr := stream.Read(1);
    if ok {
      OneByte(stream.data, old(stream.p));
    }
    if !ok || attr != tag {
      return false, 0;
    }
    ok, v := stream.Read(size);
  }

  method CreateCondition(stream: PropStream) returns (c: Option<Condition>)
    requires stream.Valid()
    modifies stream
    ensures stream.Valid() && c == ReadHeader(stream.data, old(stream.p))
    ensures stream.p == HeaderEnd(stream.data, old(stream.p))
    ensures c.Some? ==> stream.p == old(stream.p) + HEADER_SIZE
  {
    hide Create, Tagged, ToId, Signed, NumberAt;
    var ok, kind := ReadTagged(stream, TYPE, 4);
    if !ok {
      return None;
    }
    TaggedFits(stream.data, old(stream.p), TYPE);
    var id, ticks, isBuff, subId;
    ok, id := ReadTagged(stream, ID, 4);
    if !ok {
      return None;
    }
    ok, ticks := ReadTagged(stream, TICKS, 4);
    if !ok {
      return None;
    }
    TaggedFits(stream.data, old(stream.p) + 10, TICKS);
    ok, isBuff := ReadTagged(stream, IS_BUFF, 1);
    if !ok {
      return None;
    }
    ok, subId := ReadTagged(stream, SUB_ID, 4);
    if !ok {
      return None;
    }
    TaggedFits(stream.data, old(stream.p) + 17, SUB_ID);
    c := Create(kind, ToId(id), Signed(ticks), isBuff != 0, subId);
  }

  /** Reads one property that the condition knows, and applies it. */
  method UnserializeProp(stream: PropStream, tag: byte, c: Condition) returns (ok: bool, c': Condition)
    requires stream.Valid()
    modifies stream
    ensures stream.Valid()
    ensures var size, p := SizeOf(c.body, tag), old(stream.p);
      && ok == (size.Some? && p + size.value <= |stream.data|)
      && (ok ==> c' == Apply(c, Prop(tag, stream.data[p..p + size.value])) && stream.p == p + size.value)
      && (!ok ==> stream.p == p)
  {
    var size := SizeOf(c.body, tag);
    c' := c;
    if size.None? {
      return false, c;
    }
    var data := stream.data[stream.p..if stream.Size() < size.value then |stream.data| else stream.p + size.value];
    ok := stream.Skip(size.value);
    if ok {
      c' := Apply(c, Prop(tag, data));
    }
  }

  method Unserialize(stream: PropStream, c: Condition) returns (ok: bool, c': Condition)
    requires stream.Valid()
    modifies stream
    ensures stream.Valid()
    ensures Read(ok, stream.p, if ok then c' else ReadProps(stream.data, old(stream.p), c).c)
      == ReadProps(stream.data, old(stream.p), c)
  {
    c' := c;
    while true
      invariant stream.Valid() && ReadProps(stream.data, stream.p, c') == ReadProps(stream.data, old(stream.p), c)
      decreases |stream.data| - stream.p
    {
      ghost var p := stream.p;
      var more, attr := stream.Read(1);
      if more {
        OneByte(stream.data, p);
      }
      if !more || attr == END {
        return true, c';
      }
      var known;
      known, c' := UnserializeProp(stream, attr, c');
      if !known {
        return false, c';
      }
    }
  }

  /** Loads the conditions of a stream; each goes to the front of the list. */
  method LoadConditions(stream: PropStream) returns (list: seq<Condition>)
    requires stream.Valid()
    modifies stream
    ensures list == LoadedFrom(stream.data, old(stream.p), []).0
    ensures stream.p == HeaderEnd(stream.data, LoadedFrom(stream.data, old(stream.p), []).1)
  {
    list := [];
    ghost var p := stream.p;
    var condition := CreateCondition(stream);
    while condition.Some?
      invariant stream.Valid() && condition == ReadHeader(stream.data, p)
      invariant stream.p == HeaderEnd(stream.data, p)
      invariant condition.Some? ==> stream.p == p + HEADER_SIZE
      invariant LoadedFrom(stream.data, p, list) == LoadedFrom(stream.data, old(stream.p), [])
      decreases |stream.data| - p
    {
      var ok, c := Unserialize(stream, condition.value);
      if ok {
        list := [c] + list;
      }
      p := stream.p;
      condition := CreateCondition(stream);
    }
  }

  /** Saving a player's conditions and loading them again. */
  method SaveAndLoad(conditions: seq<Condition>) returns (list: seq<Condition>)
    requires forall i :: 0 <= i < |conditions| ==> Proper(conditions[i])
    ensures list == Restored(conditions, [])
  {
    var propWriteStream := new PropWriteStream();
    SaveConditions(conditions, propWriteStream);
    var propStream := new PropStream(propWriteStream.buffer);
    SavedIsLoaded(propStream.data, 0, conditions, []);
    list := LoadConditions(propStream);
  }
}
