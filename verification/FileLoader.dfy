/** The reader of the node format: a file seen through three cached blocks, and a parser that
    links `NodeStruct` objects in place. Every method is proved against the file's bytes or the
    functions of NodeFormat.dfy, for all files. */
module FileLoader {
  import opened Bytes
  import opened NodeFormat

  const CACHE_BLOCKS := 3

  // ----- The block that holds a position

  /** `a & ~m`, bit by bit. */
  function AndNot(a: nat, m: nat): (r: nat)
  {
    if a == 0 then 0
    else 2 * AndNot(a / 2, m / 2) + (if a % 2 == 1 && m % 2 == 0 then 1 else 0)
  }

  /** Clearing the bits of `m` takes at most `m` away, whether or not `m + 1` is a power of two. */
  lemma {:induction false} AndNotRange(a: nat, m: nat)
    ensures AndNot(a, m) <= a <= AndNot(a, m) + m
  {
    if a > 0 {
      AndNotRange(a / 2, m / 2);
    }
  }

  /** The cache size chosen for a file of `fileSize` bytes. */
  function CacheSize(fileSize: nat): (c: nat)
  {
    var wanted := if fileSize / 20 < 8192 then 8192 else fileSize / 20;
    AndNot(if wanted < 32768 then wanted else 32768, 0x1FFF)
  }

  /** The largest multiple of 8192 up to a twentieth of the file, but at least 8192 and at most 32768. */
  lemma {:induction false} CacheSizeRange(fileSize: nat)
    ensures CacheSize(fileSize) % 8192 == 0 && 8192 <= CacheSize(fileSize) <= 32768
    ensures 8192 <= fileSize / 20 <= 32768 ==> CacheSize(fileSize) <= fileSize / 20 < CacheSize(fileSize) + 8192
  {
    hide AndNot;
    var wanted := if fileSize / 20 < 8192 then 8192 else fileSize / 20;
    var q := AndNotLow(if wanted < 32768 then wanted else 32768, 13);
    assert Pow2(13) == 8192 by { TwoToThe13(); }
    AndNotRange(if wanted < 32768 then wanted else 32768, 0x1FFF);
  }

  lemma {:induction false} TwoToThe13()
    ensures Pow2(13) == 8192
  {
    assert Pow2(4) == 16;
    assert Pow2(8) == 256;
    assert Pow2(12) == 4096;
  }

  function Pow2(k: nat): (p: nat)
    ensures p > 0
  {
    if k == 0 then 1 else 2 * Pow2(k - 1)
  }

  /** Clearing the lowest `k` bits leaves a multiple of two to the `k`. */
  lemma {:induction false} AndNotLow(a: nat, k: nat) returns (q: nat)
    ensures AndNot(a, Pow2(k) - 1) == q * Pow2(k)
  {
    hide AndNot;
    if a == 0 {
      NothingLeft(Pow2(k) - 1);
      q := 0;
    } else if k == 0 {
      AndNotNone(a);
      q := a;
    } else {
      q := AndNotLow(a / 2, k - 1);
      Twice(a, Pow2(k - 1));
      Reorder(q, Pow2(k - 1));
    }
  }

  lemma {:induction false} NothingLeft(m: nat)
    ensures AndNot(0, m) == 0
  {
  }

  lemma {:induction false} Reorder(q: nat, p: nat)
    ensures q * (2 * p) == 2 * (q * p)
  {
  }

  lemma {:induction false} Twice(a: nat, p: nat)
    requires a > 0 && p > 0
    ensures AndNot(a, 2 * p - 1) == 2 * AndNot(a / 2, p - 1)
  {
    assert (2 * p - 1) / 2 == p - 1 && (2 * p - 1) % 2 == 1;
  }

  lemma {:induction false} AndNotNone(a: nat)
    ensures AndNot(a, 0) == a
  {
    if a > 0 {
      AndNotNone(a / 2);
    }
  }

  /** What `fread` of `size` bytes at offset `base` delivers. */
  function Fread(file: seq<byte>, base: nat, size: nat): (r: seq<byte>)
  {
    if base >= |file| then [] else if base + size <= |file| then file[base..base + size] else file[base..]
  }

  lemma {:induction false} FreadSize(file: seq<byte>, base: nat, size: nat)
    ensures |Fread(file, base, size)| < size ==> |file| <= base + |Fread(file, base, size)| || |file| <= base
  {
  }

  /** Which bytes those are. */
  lemma {:induction false} FreadByte(file: seq<byte>, base: nat, size: nat, k: nat)
    ensures k < |Fread(file, base, size)| <==> k < size && base + k < |file|
    ensures k < |Fread(file, base, size)| ==> Fread(file, base, size)[k] == file[base + k]
  {
  }

  /** A slot of the cache; `data` is the part of its buffer that was filled. */
  datatype Block = Block(data: seq<byte>, loaded: bool, base: nat)

  // ----- Nodes on the heap

  class NodeStruct {
    var start: nat
    var propsSize: nat
    var ty: byte
    var next: NodeStruct?
    var child: NodeStruct?

    constructor (start: nat)
      ensures this.start == start && next == null && child == null
    {
      this.start := start;
      propsSize, ty := 0, 0;
      next, child := null, null;
    }
  }

  /** Which objects make up a list of nodes and their children. */
  datatype Shape = Leaf | Branch(ref: NodeStruct, child: Shape, next: Shape)

  ghost function Root(h: Shape): NodeStruct?
  {
    if h.Leaf? then null else h.ref
  }

  ghost function Refs(h: Shape): set<NodeStruct>
  {
    if h.Leaf? then {} else {h.ref} + Refs(h.child) + Refs(h.next)
  }

  /** The objects are linked as the shape says and no object occurs twice. */
  ghost predicate Linked(h: Shape)
    reads Refs(h)
  {
    h.Branch? ==>
      && h.ref.child == Root(h.child) && h.ref.next == Root(h.next)
      && h.ref !in Refs(h.child) && h.ref !in Refs(h.next) && Refs(h.child) !! Refs(h.next)
      && Linked(h.child) && Linked(h.next)
  }

  ghost function Value(h: Shape): Tree
    reads Refs(h)
  {
    match h
    case Leaf => Nil
    case Branch(ref, child, next) => Node(ref.start, ref.propsSize, ref.ty, Value(child), Value(next))
  }

  /** The siblings already read before the current node, last one first. */
  datatype Siblings = First | After(before: Siblings, ref: NodeStruct, child: Shape)

  ghost function SiblingRefs(c: Siblings): set<NodeStruct>
  {
    if c.First? then {} else {c.ref} + Refs(c.child) + SiblingRefs(c.before)
  }

  ghost predicate SiblingsLinked(c: Siblings, current: NodeStruct?)
    reads SiblingRefs(c)
  {
    c.After? ==>
      && c.ref.next == current && c.ref.child == Root(c.child)
      && c.ref !in Refs(c.child) && c.ref !in SiblingRefs(c.before) && Refs(c.child) !! SiblingRefs(c.before)
      && Linked(c.child)
      && SiblingsLinked(c.before, c.ref)
  }

  ghost function FirstRef(c: Siblings, current: NodeStruct): NodeStruct
  {
    if c.First? then current else FirstRef(c.before, c.ref)
  }

  /** The siblings followed by the list `h`. */
  ghost function Close(c: Siblings, h: Shape): Shape
  {
    if c.First? then h else Close(c.before, Branch(c.ref, c.child, h))
  }

  /** What the whole list parses to when the rest of it parses to `r`. */
  ghost function Prefixed(c: Siblings, r: Parsed): Parsed
    reads SiblingRefs(c)
  {
    if c.First? || r.Failed? then r
    else Prefixed(c.before, Done(Node(c.ref.start, c.ref.propsSize, c.ref.ty, Value(c.child), r.tree), r.end))
  }

  lemma {:induction false} CloseIsLinked(c: Siblings, h: Shape, end: nat)
    requires h.Branch? && Linked(h) && SiblingsLinked(c, h.ref) && SiblingRefs(c) !! Refs(h)
    ensures Refs(Close(c, h)) == SiblingRefs(c) + Refs(h)
    ensures Linked(Close(c, h)) && Close(c, h).Branch? && Root(Close(c, h)) == FirstRef(c, h.ref)
    ensures Prefixed(c, Done(Value(h), end)) == Done(Value(Close(c, h)), end)
    decreases c
  {
    if c.After? {
      CloseIsLinked(c.before, Branch(c.ref, c.child, h), end);
    }
  }

  /** The last node read in full closes the list. */
  lemma {:induction false} LastSiblingLinked(c: Siblings, current: NodeStruct, kids: Shape, end: nat)
    requires SiblingsLinked(c, current) && current !in SiblingRefs(c)
    requires current.next == null && current.child == Root(kids) && Linked(kids)
    requires current !in Refs(kids) && Refs(kids) !! SiblingRefs(c)
    ensures var h := Close(c, Branch(current, kids, Leaf));
      && Linked(h) && h.Branch? && Root(h) == FirstRef(c, current)
      && Refs(h) == SiblingRefs(c) + {current} + Refs(kids)
      && Prefixed(c, Done(Node(current.start, current.propsSize, current.ty, Value(kids), Nil), end))
         == Done(Value(h), end)
  {
    CloseIsLinked(c, Branch(current, kids, Leaf), end);
  }

  /** A node read in full joins the siblings before the next one. */
  lemma {:induction false} AddSibling(c: Siblings, current: NodeStruct, kids: Shape, next: NodeStruct, rest: Parsed)
    requires SiblingsLinked(c, current) && current !in SiblingRefs(c)
    requires current.next == next && current.child == Root(kids) && Linked(kids)
    requires current !in Refs(kids) && Refs(kids) !! SiblingRefs(c)
    ensures var c' := After(c, current, kids);
      && SiblingsLinked(c', next) && FirstRef(c', next) == FirstRef(c, current)
      && SiblingRefs(c') == {current} + Refs(kids) + SiblingRefs(c)
      && Prefixed(c', rest) == Prefixed(c, if rest.Failed? then Failed else
           Done(Node(current.start, current.propsSize, current.ty, Value(kids), rest.tree), rest.end))
  {
    if rest.Failed? {
      assert Prefixed(c, Failed) == Failed;
    }
  }

  /** How reading one node ends. */
  datatype Status = Bad | LastSibling | NextSibling

  /** What one round of the reading loop makes of the byte at `p`: it stops, or goes on further down. */
  datatype Round = Stop(body: Body) | GoOn(p: nat, propsSize: nat, sized: bool, child: Tree)

  ghost function RoundAt(s: seq<byte>, start: nat, p: nat, propsSize: nat, sized: bool, child: Tree): (r: Round)
    requires start + 2 <= p <= |s|
    ensures r.GoOn? ==> p < r.p <= |s|
  {
    if p == |s| then Stop(Broken)
    else if s[p] == NODE_START then
      var r := ParseList(s, p + 1);
      if r.Failed? then Stop(Broken) else GoOn(r.end, p - start - 2, true, r.tree)
    else if s[p] == NODE_END then
      Stop(EndOfBody(s, p, if sized then propsSize else p - start - 2, child))
    else if s[p] == ESCAPE_CHAR then
      if p + 1 == |s| then Stop(Broken) else GoOn(p + 2, propsSize, sized, child)
    else GoOn(p + 1, propsSize, sized, child)
  }

  lemma {:induction false} ParseBodyByRounds(s: seq<byte>, start: nat, p: nat, propsSize: nat, sized: bool, child: Tree)
    requires start + 2 <= p <= |s|
    ensures ParseBody(s, start, p, propsSize, sized, child) ==
            match RoundAt(s, start, p, propsSize, sized, child)
            case Stop(body) => body
            case GoOn(p', propsSize', sized', child') => ParseBody(s, start, p', propsSize', sized', child')
  {
  }

  /** Unescaping goes on after the byte at `i`, or after the one it escapes. */
  lemma {:induction false} UnescapeOn(props: seq<byte>, i: nat)
    ensures i == |props| ==> props[i..] == [] && WellEscaped(props[i..]) && Unescape(props[i..]) == []
    ensures i < |props| && WellEscaped(props[i..]) ==>
      if props[i] == ESCAPE_CHAR then
        && i + 2 <= |props| && WellEscaped(props[i + 2..])
        && Unescape(props[i..]) == [props[i + 1]] + Unescape(props[i + 2..])
      else WellEscaped(props[i + 1..]) && Unescape(props[i..]) == [props[i]] + Unescape(props[i + 1..])
  {
    if i < |props| {
      assert props[i..][1..] == props[i + 1..];
      if i + 1 < |props| {
        assert props[i..][2..] == props[i + 2..];
      }
    }
  }

  class FileLoader {
    const file: seq<byte>
    const cached: array<Block>
    var cacheSize: nat
    var cacheIndex: int // -1 when no block is selected
    var cacheOffset: nat
    var buffer: array<byte>
    var root: NodeStruct?

    // ----- The cache

    /** Every loaded block holds the bytes of the file at its base. */
    ghost predicate Valid()
      reads this, cached
    {
      && cached.Length == CACHE_BLOCKS
      && cacheSize >= 1 && buffer.Length >= 1024
      && -1 <= cacheIndex < CACHE_BLOCKS
      && (cacheIndex >= 0 ==> cached[cacheIndex].loaded)
      && forall i :: 0 <= i < CACHE_BLOCKS && cached[i].loaded ==>
           cached[i].data == Fread(file, cached[i].base, cacheSize)
    }

    /** A block is selected, so there is a current position. */
    ghost predicate Ready()
      reads this, cached
    {
      Valid() && cacheIndex >= 0
    }

    ghost function Pos(): nat
      reads this, cached
      requires Ready()
    {
      cached[cacheIndex].base + cacheOffset
    }

    function BasePos(pos: nat): (base: nat)
      reads this
      requires cacheSize >= 1
      ensures base <= pos < base + cacheSize
    {
      AndNotRange(pos, cacheSize - 1);
      AndNot(pos, cacheSize - 1)
    }

    constructor (file: seq<byte>)
      ensures Valid() && cacheIndex == -1 && this.file == file
      ensures fresh(cached) && fresh(buffer) && buffer.Length == 1024
    {
      this.file := file;
      cached := new Block[CACHE_BLOCKS](_ => Block([], false, 0));
      cacheSize, cacheIndex, cacheOffset := 1, -1, 0;
      buffer := new byte[1024](_ => 0);
      root := null;
    }

    /** Whether a block lies more than two blocks away. */
    predicate Far(b: Block, base: int)
      reads this`cacheSize
    {
      b.base - base > 2 * cacheSize || base - b.base > 2 * cacheSize
    }

    /** The slot that a block is loaded into: the first that is free, or else the first that holds a block far
        away, or else the first. */
    ghost predicate Chosen(blocks: seq<Block>, base: int, slot: nat)
      requires |blocks| == CACHE_BLOCKS && slot < CACHE_BLOCKS
      reads this`cacheSize
    {
      if exists k :: 0 <= k < CACHE_BLOCKS && !blocks[k].loaded then
        !blocks[slot].loaded && forall k :: 0 <= k < slot ==> blocks[k].loaded
      else if exists k :: 0 <= k < CACHE_BLOCKS && Far(blocks[k], base) then
        Far(blocks[slot], base) && forall k :: 0 <= k < slot ==> !Far(blocks[k], base)
      else slot == 0
    }

    /** Reads the block of `pos` into the slot chosen. Only a position past the end of the file is refused. */
    method LoadCacheBlock(pos: nat) returns (i: int, ghost chosen: nat)
      requires Valid()
      modifies cached
      ensures chosen < CACHE_BLOCKS && Chosen(old(cached[..]), BasePos(pos), chosen) && (i == chosen || i == -1)
      ensures forall k :: 0 <= k < CACHE_BLOCKS && k != chosen ==> cached[k] == old(cached[k])
      ensures Valid() && -1 <= i < CACHE_BLOCKS
      ensures pos <= |file| ==> i >= 0
      ensures i >= 0 ==> cached[i] == Block(Fread(file, BasePos(pos), cacheSize), true, BasePos(pos))
    {
      hide AndNot, Fread;
      var basePos := BasePos(pos);
      FreadSize(file, basePos, cacheSize);
      var slot := -1;
      var k := 0;
      while k < CACHE_BLOCKS && slot == -1
        invariant 0 <= k <= CACHE_BLOCKS && -1 <= slot < CACHE_BLOCKS
        invariant slot == -1 ==> forall j :: 0 <= j < k ==> cached[j].loaded
        invariant slot >= 0 ==> !cached[slot].loaded && forall j :: 0 <= j < slot ==> cached[j].loaded
      {
        if !cached[k].loaded {
          slot := k;
        }
        k := k + 1;
      }
      if slot == -1 {
        k := 0;
        while k < CACHE_BLOCKS && slot == -1
          invariant 0 <= k <= CACHE_BLOCKS && -1 <= slot < CACHE_BLOCKS
          invariant slot == -1 ==> forall j :: 0 <= j < k ==> !Far(cached[j], basePos)
          invariant slot >= 0 ==> Far(cached[slot], basePos) && forall j :: 0 <= j < slot ==> !Far(cached[j], basePos)
        {
          if Far(cached[k], basePos) {
            slot := k;
          }
          k := k + 1;
        }
        if slot == -1 {
          slot := 0;
        }
      }
      chosen := slot;
      assert Chosen(cached[..], basePos, chosen);
      hide Chosen, Far;
      var data := Fread(file, basePos, cacheSize);
      cached[slot] := Block(data, cached[slot].loaded, basePos);
      i := -1;
      if |data| < pos - basePos {
        return;
      }
      cached[slot] := cached[slot].(loaded := true);
      i := slot;
    }

    method GetCacheBlock(pos: nat) returns (i: int)
      requires Valid()
      modifies cached
      ensures Valid() && -1 <= i < CACHE_BLOCKS
      ensures pos <= |file| ==> i >= 0
      ensures i >= 0 ==> cached[i] == Block(Fread(file, BasePos(pos), cacheSize), true, BasePos(pos))
    {
      var basePos := BasePos(pos);
      i := 0;
      while i < CACHE_BLOCKS
        invariant 0 <= i <= CACHE_BLOCKS
      {
        if cached[i].loaded && cached[i].base == basePos {
          return;
        }
        i := i + 1;
      }
      ghost var chosen;
      i, chosen := LoadCacheBlock(pos);
    }

    method SafeSeek(pos: nat) returns (ok: bool)
      requires Valid()
      modifies this`cacheIndex, this`cacheOffset, cached
      ensures pos <= |file| ==> ok
      ensures ok ==> Ready() && Pos() == pos
    {
      var i := GetCacheBlock(pos);
      if i == -1 {
        return false;
      }
      cacheIndex := i;
      cacheOffset := pos - cached[i].base;
      return true;
    }

    /** The position of the byte read last. */
    method SafeTell() returns (pos: int)
      requires Ready()
      ensures pos == Pos() - 1
    {
      pos := cached[cacheIndex].base + cacheOffset - 1;
    }

    /** Reads the byte of the file at the current position, whichever blocks are cached. */
    method ReadByte() returns (ok: bool, value: byte)
      requires Ready()
      modifies this`cacheIndex, this`cacheOffset, cached
      ensures Ready()
      ensures old(Pos()) < |file| ==> ok && value == file[old(Pos())] && Pos() == old(Pos()) + 1
      ensures old(Pos()) == |file| ==> !ok && Pos() == |file|
      ensures old(Pos()) > |file| ==> !ok
    {
      hide Fread, AndNot;
      FreadByte(file, cached[cacheIndex].base, cacheSize, cacheOffset);
      value := 0;
      if cacheOffset >= |cached[cacheIndex].data| {
        var pos := cacheOffset + cached[cacheIndex].base;
        var i := GetCacheBlock(pos);
        if i < 0 {
          return false, 0;
        }
        cacheIndex := i;
        cacheOffset := pos - cached[i].base;
        FreadByte(file, cached[i].base, cacheSize, cacheOffset);
        if cacheOffset >= |cached[i].data| {
          return false, 0;
        }
      }
      value := cached[cacheIndex].data[cacheOffset];
      cacheOffset := cacheOffset + 1;
      ok := true;
    }

    /** Copies `size` bytes of the file at `at` to the front of the buffer, block by block. */
    method ReadBytes(size: nat, at: nat) returns (ok: bool)
      requires Valid() && at + size <= |file| && size <= buffer.Length
      modifies this`cacheIndex, this`cacheOffset, cached, buffer
      ensures ok && Ready()
      ensures forall k :: 0 <= k < size ==> buffer[k] == file[at + k]
    {
      var remain, pos, to := size, at, 0;
      var first := true;
      while first || remain > 0
        invariant Valid() && (!first ==> cacheIndex >= 0)
        invariant to + remain == size && pos == at + to && 0 <= to && remain >= 0
        invariant forall k :: 0 <= k < to ==> buffer[k] == file[at + k]
        decreases first, remain
      {
        first := false;
        var i := GetCacheBlock(pos);
        if i == -1 {
          return false;
        }
        cacheIndex := i;
        cacheOffset := pos - cached[i].base;
        var available := |cached[i].data| - cacheOffset;
        var reading := if remain < available then remain else available;
        remain := remain - reading;
        forall k | 0 <= k < reading {
          buffer[to + k] := cached[i].data[cacheOffset + k];
        }
        cacheOffset := cacheOffset + reading;
        to := to + reading;
        pos := pos + reading;
      }
      return true;
    }

    // ----- The parser

    /** What NodeFormat says about the node whose type byte is at `p`. */
    ghost function BodyAt(p: nat): Body
    {
      if 1 <= p < |file| then ParseBody(file, p - 1, p + 1, 0, false, Nil) else Broken
    }

    /** Reads the node `current` up to its end, filling in its fields and hanging its children on it. */
    method ReadNode(current: NodeStruct, ghost p: nat)
      returns (status: Status, next: NodeStruct?, ghost kids: Shape, ghost body: Body)
      requires Ready() && 1 <= Pos() == p <= |file|
      requires current.start == p - 1 && current.next == null && current.child == null
      modifies this`cacheIndex, this`cacheOffset, cached, current
      ensures Ready() && Pos() <= |file|
      ensures body == BodyAt(p) && Ended(body, status, next)
      ensures status != Bad ==> Holds(current, kids, body.child) && current.next == next
      ensures status != Bad ==>
        p < |file| && current.start == p - 1 && current.ty == file[p] && current.propsSize == body.propsSize
      ensures status != Bad ==> forall x :: x in Refs(kids) ==> fresh(x) && allocated(x)
      ensures status == NextSibling ==> fresh(next) && next !in Refs(kids)
      decreases |file| - p, 0
    {
      status, next, kids, body := Bad, null, Leaf, BodyAt(p);
      var ok, b := ReadByte();
      if !ok {
        return;
      }
      current.ty := b;
      var sized, more := false, true;
      ghost var q, child := p + 1, Nil;
      assert Reading(current, p, q, kids, child, sized, body) && Refs(kids) == {};
      hide Reading, ReadUp, Refs, Ended, Holds, BodyAt;
      while more
        invariant more ==> Reading(current, p, q, kids, child, sized, body) && q <= |file|
        invariant !more ==> ReadUp(current, p, kids, status, next, body)
        invariant forall x :: x in Refs(kids) ==> fresh(x) && allocated(x)
        invariant !more && status == NextSibling ==> fresh(next) && next !in Refs(kids)
        invariant p < q
        decreases more, |file| - q
      {
        more, sized, status, next, kids, q, child := ReadRound(current, sized, p, q, kids, child, body);
      }
      ReadUpIs(current, p, kids, status, next, body);
    }

    /** What holds while the body of the node whose type byte is at `p` is read, and has been up to `q`. */
    ghost predicate Reading(current: NodeStruct, p: nat, q: nat, kids: Shape, child: Tree, sized: bool, body: Body)
      reads this, cached, current, Refs(kids)
    {
      && Ready() && 1 <= p < Pos() == q <= |file|
      && current.start == p - 1 && current.ty == file[p] && current.next == null
      && Holds(current, kids, child)
      && body == ParseBody(file, p - 1, q, if sized then current.propsSize else 0, sized, child)
    }

    /** What holds when it has been read. */
    ghost predicate ReadUp(current: NodeStruct, p: nat, kids: Shape, status: Status, next: NodeStruct?, body: Body)
      reads this, cached, current, next, Refs(kids)
    {
      && Ready() && Pos() <= |file| && Ended(body, status, next)
      && (status != Bad ==>
            && Holds(current, kids, body.child) && current.next == next && p < |file|
            && current.start == p - 1 && current.ty == file[p] && current.propsSize == body.propsSize)
    }

    lemma {:induction false} ReadUpIs(current: NodeStruct, p: nat, kids: Shape, status: Status, next: NodeStruct?,
        body: Body)
      requires ReadUp(current, p, kids, status, next, body)
      ensures Ready() && Pos() <= |file| && Ended(body, status, next)
      ensures status != Bad ==> !body.Broken? && Holds(current, kids, body.child) && current.next == next
      ensures status != Bad ==>
        p < |file| && current.start == p - 1 && current.ty == file[p] && current.propsSize == body.propsSize
    {
    }

    /** One round of reading. */
    method ReadRound(current: NodeStruct, sized0: bool, ghost p: nat, ghost q0: nat, ghost kids0: Shape,
          ghost child0: Tree, ghost body: Body)
      returns (more: bool, sized: bool, status: Status, next: NodeStruct?, ghost kids: Shape, ghost q: nat,
          ghost child: Tree)
      requires Reading(current, p, q0, kids0, child0, sized0, body) && q0 <= |file|
      requires forall x :: x in Refs(kids0) ==> allocated(x)
      modifies this`cacheIndex, this`cacheOffset, cached, current`propsSize, current`child, current`next
      ensures more ==> Reading(current, p, q, kids, child, sized, body) && q0 < q <= |file|
      ensures !more ==> ReadUp(current, p, kids, status, next, body) && kids == kids0 && q == q0
      ensures kids == kids0 || forall x :: x in Refs(kids) ==> fresh(x) && allocated(x)
      ensures !more && status == NextSibling ==> fresh(next)
      decreases |file| - q0, 5
    {
      hide *;
      ghost var r;
      ghost var size := if sized0 then current.propsSize else 0;
      ReadingIs(current, p, q0, kids0, child0, sized0, body);
      more, sized, status, next, kids, r := ReadPart(current, sized0, kids0, child0, q0, size);
      q, child := if more then r.p else q0, if more then r.child else child0;
      if more {
        RoundOn(current, p, q0, kids, child0, sized0, size, sized, body, r);
      } else {
        if status == Bad {
          kids := kids0;
        }
        RoundOver(current, p, q0, kids, child0, sized0, size, status, next, body, r);
      }
    }

    lemma {:induction false} ReadingIs(current: NodeStruct, p: nat, q: nat, kids: Shape, child: Tree, sized: bool,
        body: Body)
      requires Reading(current, p, q, kids, child, sized, body)
      ensures Ready() && 1 <= p < Pos() == q <= |file|
      ensures current.start == p - 1 && current.ty == file[p] && current.next == null && Holds(current, kids, child)
      ensures body == ParseBody(file, p - 1, q, if sized then current.propsSize else 0, sized, child)
    {
      hide Holds, ParseBody, ParseList;
    }

    /** After a round that does not end the body, it is still being read. */
    lemma {:induction false} RoundOn(current: NodeStruct, p: nat, q: nat, kids: Shape, child: Tree, sized: bool,
        size: nat, sized': bool, body: Body, r: Round)
      requires 1 <= p < q <= |file| && body == ParseBody(file, p - 1, q, size, sized, child)
      requires r == RoundAt(file, p - 1, q, size, sized, child) && r.GoOn?
      requires Ready() && Pos() == r.p <= |file| && r.sized == sized'
      requires r.propsSize == if sized' then current.propsSize else 0
      requires current.start == p - 1 && current.ty == file[p] && current.next == null && Holds(current, kids, r.child)
      ensures Reading(current, p, r.p, kids, r.child, sized', body) && q < r.p
    {
      ParseBodyByRounds(file, p - 1, q, size, sized, child);
      hide Holds, ParseBody, ParseList, RoundAt;
    }

    /** After a round that ends it, it has been read. */
    lemma {:induction false} RoundOver(current: NodeStruct, p: nat, q: nat, kids: Shape, child: Tree, sized: bool,
        size: nat, status: Status, next: NodeStruct?, body: Body, r: Round)
      requires 1 <= p < q <= |file| && body == ParseBody(file, p - 1, q, size, sized, child)
      requires r == RoundAt(file, p - 1, q, size, sized, child) && r.Stop?
      requires Ready() && Pos() <= |file| && Ended(r.body, status, next)
      requires current.start == p - 1 && current.ty == file[p]
      requires status != Bad ==> !r.body.Broken? && Holds(current, kids, r.body.child)
      requires status != Bad ==> current.next == next && current.propsSize == r.body.propsSize
      ensures ReadUp(current, p, kids, status, next, body)
    {
      ParseBodyByRounds(file, p - 1, q, size, sized, child);
      hide Holds, ParseBody, ParseList, RoundAt, Ended;
    }

    /** `kids` hangs below `current` and stands for `child`. */
    ghost predicate Holds(current: NodeStruct, kids: Shape, child: Tree)
      reads current, Refs(kids)
    {
      current !in Refs(kids) && current.child == Root(kids) && Linked(kids) && Value(kids) == child
    }

    /** Reads a byte of the body of `current`, which leaves alone what has been read of it. */
    method ReadBodyByte(current: NodeStruct, ghost kids: Shape, ghost child: Tree, ghost q: nat)
      returns (ok: bool, b: byte)
      requires Ready() && Pos() == q <= |file|
      requires Holds(current, kids, child) && forall x :: x in Refs(kids) ==> allocated(x)
      modifies this`cacheIndex, this`cacheOffset, cached
      ensures Ready() && Holds(current, kids, child)
      ensures ok == (q < |file|) && Pos() == if ok then q + 1 else q
      ensures ok ==> b == file[q]
    {
      ok, b := ReadByte();
    }

    /** One round of the loop that reads the body of `current`; `size` is its size of properties so far. */
    method ReadPart(current: NodeStruct, setPropsSize: bool, ghost kids: Shape, ghost child: Tree, ghost q: nat,
          ghost size: nat)
      returns (more: bool, sized: bool, status: Status, next: NodeStruct?, ghost kids': Shape, ghost r: Round)
      requires Ready() && current.start + 2 <= Pos() == q <= |file| && current.next == null
      requires Holds(current, kids, child) && forall x :: x in Refs(kids) ==> allocated(x)
      requires size == if setPropsSize then current.propsSize else 0
      modifies this`cacheIndex, this`cacheOffset, cached, current`propsSize, current`child, current`next
      ensures Ready() && Pos() <= |file|
      ensures r == RoundAt(file, current.start, q, size, setPropsSize, child)
      ensures more == r.GoOn?
      ensures more ==> r.p == Pos() && r.propsSize == (if sized then current.propsSize else 0) && r.sized == sized
      ensures more ==> Holds(current, kids', r.child) && current.next == null
      ensures more ==> kids' == kids || forall x :: x in Refs(kids') ==> fresh(x) && allocated(x)
      ensures !more ==> Ended(r.body, status, next)
      ensures !more && status != Bad ==> Holds(current, kids, r.body.child) && kids' == kids
      ensures !more && status != Bad ==> current.next == next && current.propsSize == r.body.propsSize
      ensures !more && status == NextSibling ==> fresh(next)
      decreases |file| - q, 4
    {
      more, sized, status, next, kids' := false, setPropsSize, Bad, null, kids;
      r := RoundAt(file, current.start, q, size, setPropsSize, child);
      var ok, b := ReadBodyByte(current, kids, child, q);
      if !ok {
        return;
      }
      if b == NODE_START {
        ok, kids' := ReadChildren(current, q + 1);
        more, sized := ok, true;
      } else if b == NODE_END {
        status, next := EndNode(current, setPropsSize, kids, child, q + 1);
      } else if b == ESCAPE_CHAR {
        ok, b := ReadBodyByte(current, kids, child, q + 1);
        more := ok;
      } else {
        more := true;
      }
    }

    /** Reading a node stopped as `body` says: what comes next, and from where. */
    ghost predicate Ended(body: Body, status: Status, next: NodeStruct?)
      reads this, cached, next
      requires Ready()
    {
      match body
      case Broken => status == Bad
      case Last(_, _, end) => status == LastSibling && Pos() == end && next == null
      case More(_, _, at) =>
        && status == NextSibling && Pos() == at + 1
        && next != null && next.start == at && next.next == null && next.child == null
    }

    /** Reads the children of `current`, whose first start byte has just been read. */
    method ReadChildren(current: NodeStruct, ghost p: nat) returns (ok: bool, ghost kids: Shape)
      requires Ready() && current.start + 2 < Pos() == p <= |file|
      modifies this`cacheIndex, this`cacheOffset, cached, current`propsSize, current`child
      ensures Ready() && Pos() <= |file|
      ensures ok == ParseList(file, p).Done?
      ensures ok ==> current.propsSize == p - 1 - current.start - 2
      ensures ok ==> Holds(current, kids, ParseList(file, p).tree) && Pos() == ParseList(file, p).end
      ensures ok ==> forall x :: x in Refs(kids) ==> fresh(x) && allocated(x)
      decreases |file| - p, 3
    {
      var pos := SafeTell();
      var childNode := new NodeStruct(pos);
      current.propsSize := pos - current.start - 2;
      current.child := childNode;
      ok, kids := ParseNode(childNode, p);
    }

    /** What follows the end byte of a node: nothing, its parent's end, or another sibling. */
    method EndNode(current: NodeStruct, setPropsSize: bool, ghost kids: Shape, ghost child: Tree, ghost p: nat)
      returns (status: Status, next: NodeStruct?)
      requires Ready() && current.start + 2 < Pos() == p <= |file| && current.next == null
      requires Holds(current, kids, child) && forall x :: x in Refs(kids) ==> allocated(x)
      modifies this`cacheIndex, this`cacheOffset, cached, current`propsSize, current`next
      ensures Ready() && Pos() <= |file| && current.next == next && Holds(current, kids, child)
      ensures current.propsSize == if setPropsSize then old(current.propsSize) else p - 1 - current.start - 2
      ensures status == (if p == |file| || file[p] == NODE_END then LastSibling
                         else if file[p] == NODE_START then NextSibling else Bad)
      ensures status == LastSibling ==> Pos() == p && next == null
      ensures status == NextSibling ==>
        && Pos() == p + 1
        && next != null && fresh(next) && next.start == p && next.next == null && next.child == null
    {
      next := null;
      if !setPropsSize {
        var pos := SafeTell();
        current.propsSize := pos - current.start - 2;
      }
      var ok, b := ReadByte();
      if !ok {
        return LastSibling, null;
      }
      if b == NODE_START {
        var pos := SafeTell();
        next := new NodeStruct(pos);
        current.next := next;
        return NextSibling, next;
      } else if b == NODE_END {
        var pos := SafeTell();
        ok := SafeSeek(pos);
        return LastSibling, null;
      } else {
        return Bad, null;
      }
    }

    /** `before` are the siblings from `node` up to `current`. */
    ghost predicate InChain(node: NodeStruct, before: Siblings, current: NodeStruct)
      reads SiblingRefs(before)
    {
      current !in SiblingRefs(before) && SiblingsLinked(before, current) && FirstRef(before, current) == node
    }

    /** Reads one sibling. It joins the ones before it, or completes the list of them. */
    method ReadSibling(current: NodeStruct, ghost node: NodeStruct, ghost before: Siblings, ghost q: nat)
      returns (status: Status, next: NodeStruct?, ghost before': Siblings, ghost h: Shape)
      requires Ready() && 1 <= Pos() == q <= |file|
      requires current.start == q - 1 && current.next == null && current.child == null
      requires InChain(node, before, current) && forall x :: x in SiblingRefs(before) ==> allocated(x)
      modifies this`cacheIndex, this`cacheOffset, cached, current
      ensures Ready() && Pos() <= |file|
      ensures status == Bad ==> ParseList(file, q).Failed?
      ensures status == LastSibling ==>
        && Linked(h) && Root(h) == node
        && old(Prefixed(before, ParseList(file, q))) == Done(Value(h), Pos())
        && forall x :: x in Refs(h) ==> x in SiblingRefs(before) || x == current || (fresh(x) && allocated(x))
      ensures status == NextSibling ==>
        && q < Pos() && next != null && fresh(next)
        && next.start == Pos() - 1 && next.next == null && next.child == null
        && InChain(node, before', next)
        && old(Prefixed(before, ParseList(file, q))) == Prefixed(before', ParseList(file, Pos()))
        && forall x :: x in SiblingRefs(before') ==>
             x in SiblingRefs(before) || x == current || (fresh(x) && allocated(x))
      decreases |file| - q, 1
    {
      hide ParseBody, Linked, Refs, SiblingRefs;
      before', h := before, Leaf;
      ghost var rest := ParseList(file, q);
      ghost var kids, body;
      status, next, kids, body := ReadNode(current, q);
      assert SiblingsLinked(before, current) && Prefixed(before, rest) == old(Prefixed(before, rest));
      if status == LastSibling {
        LastSiblingLinked(before, current, kids, Pos());
        h := Close(before, Branch(current, kids, Leaf));
      } else if status == NextSibling {
        ghost var tail := ParseList(file, Pos());
        assert rest == if tail.Failed? then Failed else
          Done(Node(current.start, current.propsSize, current.ty, Value(kids), tail.tree), tail.end);
        AddSibling(before, current, kids, next, tail);
        before' := After(before, current, kids);
      }
    }

    /** Reads `node` and its siblings. The objects built are linked exactly as NodeFormat parses
        the file, and reading goes on where it says. */
    method ParseNode(node: NodeStruct, ghost p: nat) returns (ok: bool, ghost h: Shape)
      requires Ready() && 1 <= Pos() == p <= |file|
      requires node.start == p - 1 && node.next == null && node.child == null
      modifies this`cacheIndex, this`cacheOffset, cached, node
      ensures Ready() && Pos() <= |file|
      ensures ok == ParseList(file, p).Done?
      ensures ok ==> Root(h) == node && Linked(h) && forall x :: x in Refs(h) && x != node ==> fresh(x) && allocated(x)
      ensures ok ==> ParseList(file, p) == Done(Value(h), Pos())
      decreases |file| - p, 2
    {
      ghost var before, q := First, p;
      var current: NodeStruct := node;
      while true
        invariant Ready() && p <= Pos() == q <= |file|
        invariant current.start == q - 1 && current.next == null && current.child == null
        invariant InChain(node, before, current)
        invariant forall x :: x in SiblingRefs(before) ==> allocated(x) && (x == node || fresh(x))
        invariant current == node || fresh(current)
        invariant ParseList(file, p) == Prefixed(before, ParseList(file, q))
        decreases |file| - q
      {
        label Before:
        var status, next;
        status, next, before, h := ReadSibling(current, node, before, q);
        if status == Bad {
          return false, Leaf;
        } else if status == LastSibling {
          return true, h;
        }
        q := Pos();
        current := next;
      }
    }

    /** Reads the whole file after its four-byte identifier, which must be the wanted one or zero. */
    method OpenFile(acceptIdentifier: seq<byte>) returns (ok: bool, ghost h: Shape)
      requires Valid() && cacheIndex == -1 && |acceptIdentifier| == 4
      requires forall k :: 0 <= k < CACHE_BLOCKS ==> !cached[k].loaded
      modifies this`root, this`cacheSize, this`cacheIndex, this`cacheOffset, cached
      ensures ok == (Accepted(acceptIdentifier) && |file| > 4 && file[4] == NODE_START && ParseList(file, 5).Done?)
      ensures ok ==> root != null && Root(h) == root && Linked(h) && Value(h) == ParseList(file, 5).tree
      ensures ok <==> Accepted(acceptIdentifier) && |file| > 4 && file[4] == NODE_START && HoldsPrint()
      ensures ok ==> Readable(file, Value(h)) && Stands(file, 4, Value(h), ParseList(file, 5).end)
      ensures forall d: Doc :: d.DocNode? && Accepted(acceptIdentifier) && file == file[..4] + Print(Escaped(d)) ==>
                ok && Extract(file, Value(h)) == d
    {
      hide HoldsPrint, Stands, Readable, Extract, Print, Escaped, ParseList, Linked;
      h := Leaf;
      FileFacts(acceptIdentifier);
      if |file| < 4 {
        return false, Leaf;
      }
      if file[..4] != acceptIdentifier && file[..4] != [0, 0, 0, 0] {
        return false, Leaf;
      }
      CacheSizeRange(|file|);
      cacheSize := CacheSize(|file|);
      ok := SafeSeek(4);
      root := new NodeStruct(4);
      ok := SafeSeek(4);
      var b;
      ok, b := ReadByte();
      if !ok || b != NODE_START {
        return false, Leaf;
      }
      ok, h := ParseNode(root, 5);
    }

    /** What files with the identifier hold. */
    lemma {:induction false} FileFacts(acceptIdentifier: seq<byte>)
      requires |acceptIdentifier| == 4
      ensures Accepted(acceptIdentifier) && |file| > 4 && file[4] == NODE_START ==>
        && (ParseList(file, 5).Done? <==> HoldsPrint())
        && (ParseList(file, 5).Done? ==> Stands(file, 4, ParseList(file, 5).tree, ParseList(file, 5).end)
                                         && Readable(file, ParseList(file, 5).tree))
      ensures forall d: Doc :: d.DocNode? && Accepted(acceptIdentifier) && file == file[..4] + Print(Escaped(d)) ==>
        && |file| > 4 && file[4] == NODE_START && ParseList(file, 5).Done? && Readable(file, ParseList(file, 5).tree)
        && Extract(file, ParseList(file, 5).tree) == d
    {
      hide Readable, Extract, ParseList, Printed, Layout;
      if |file| > 4 && file[4] == NODE_START {
        AcceptsIff(file, 4);
        ParseListStands(file, 5);
        StandsReadable(file, 4, ParseList(file, 5));
      }
      forall d: Doc | d.DocNode? && Accepted(acceptIdentifier) && file == file[..4] + Print(Escaped(d))
        ensures |file| > 4 && file[4] == NODE_START && ParseList(file, 5).Done?
        ensures Readable(file, ParseList(file, 5).tree) && Extract(file, ParseList(file, 5).tree) == d
      {
        ReadPrint(file[..4], d);
        assert file[4] == Print(Escaped(d))[0];
      }
    }

    /** A document is printed behind the identifier. */
    ghost predicate HoldsPrint()
    {
      exists d :: IsPrint(file, 4, d)
    }

    predicate Accepted(acceptIdentifier: seq<byte>)
    {
      |file| >= 4 && (file[..4] == acceptIdentifier || file[..4] == [0, 0, 0, 0])
    }

    // ----- Properties

    /** Drops the escape characters among the first `n` bytes of the buffer, in place. */
    method UnescapeBuffer(n: nat, ghost props: seq<byte>) returns (size: nat)
      requires |props| == n < buffer.Length && buffer[..n] == props
      modifies buffer
      ensures WellEscaped(props) ==> size <= n && buffer[..size] == Unescape(props)
    {
      hide Unescape, WellEscaped;
      var i, j := 0, 0;
      var escaped := false;
      assert props[0..] == props;
      assert WellEscaped(props) ==> buffer[..0] + Unescape(props) == Unescape(props);
      while i < n
        invariant 0 <= j <= i <= n + 1
        invariant !escaped ==> i == j
        invariant forall k :: i <= k < n ==> buffer[k] == props[k]
        invariant WellEscaped(props) ==>
                    i <= n && WellEscaped(props[i..]) && Unescape(props) == buffer[..j] + Unescape(props[i..])
      {
        ghost var done := buffer[..j];
        UnescapeOn(props, i);
        if buffer[i] == ESCAPE_CHAR {
          i := i + 1;
          buffer[j] := buffer[i];
          escaped := true;
        } else if escaped {
          buffer[j] := buffer[i];
        }
        i, j := i + 1, j + 1;
        assert buffer[..j] == done + [buffer[j - 1]];
      }
      UnescapeOn(props, i);
      size := j;
    }

    /** Makes the buffer larger than `n`, by doubling. */
    method GrowBuffer(n: nat)
      requires Valid()
      modifies this`buffer
      ensures Valid() && n < buffer.Length && (buffer == old(buffer) || fresh(buffer))
    {
      var bufferSize := buffer.Length;
      if n >= bufferSize {
        while n >= bufferSize
          invariant bufferSize >= 1024
          decreases n - bufferSize
        {
          bufferSize := 2 * bufferSize;
        }
        buffer := new byte[bufferSize](_ => 0);
      }
    }

    /** The unescaped properties of a node: exactly what NodeFormat reads from the file. */
    method GetProps(node: NodeStruct) returns (ok: bool, size: nat)
      requires Valid() && node.start + 2 + node.propsSize <= |file|
      modifies this`buffer, buffer, this`cacheIndex, this`cacheOffset, cached
      ensures Valid() && ok && (buffer == old(buffer) || fresh(buffer))
      ensures GoodProps(file, node.start, node.propsSize) ==>
        && size <= buffer.Length
        && buffer[..size] == Unescape(file[node.start + 2..node.start + 2 + node.propsSize])
    {
      hide Unescape, WellEscaped;
      GrowBuffer(node.propsSize);
      ok := ReadBytes(node.propsSize, node.start + 2);
      size := UnescapeBuffer(node.propsSize, file[node.start + 2..node.start + 2 + node.propsSize]);
    }
  }
}
