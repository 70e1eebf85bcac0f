/** The escaped, nested node format of the server's binary map and item files, as pure functions.
    `ParseList` says what the reader in FileLoader.dfy computes for every file, good or bad;
    `Print` is the format itself, and what is accepted is exactly what it prints. */
module NodeFormat {
  import opened Bytes

  const ESCAPE_CHAR: byte := 0xFD
  const NODE_START: byte := 0xFE
  const NODE_END: byte := 0xFF

  predicate Special(b: byte) {
    b == ESCAPE_CHAR || b == NODE_START || b == NODE_END
  }

  /** A list of nodes: the first node's type, its properties, its children, and the siblings that follow it. The
      properties are those meant, or those that stand in a file. */
  datatype Doc = NoDoc | DocNode(ty: byte, props: seq<byte>, child: Doc, next: Doc)

  /** The `NodeStruct` objects the reader builds, as a value. */
  datatype Tree = Nil | Node(start: nat, propsSize: nat, ty: byte, child: Tree, next: Tree)

  // ----- Writing

  function Escape(props: seq<byte>): (s: seq<byte>)
    ensures |props| <= |s|
  {
    if props == [] then []
    else (if Special(props[0]) then [ESCAPE_CHAR, props[0]] else [props[0]]) + Escape(props[1..])
  }

  /** Properties as they may stand in a file: whatever is special is escaped, and anything may be. */
  predicate Raw(s: seq<byte>)
  {
    s == []
    || if s[0] == ESCAPE_CHAR then |s| > 1 && Raw(s[2..]) else !Special(s[0]) && Raw(s[1..])
  }

  predicate AllRaw(d: Doc)
  {
    d.DocNode? ==> Raw(d.props) && AllRaw(d.child) && AllRaw(d.next)
  }

  /** A document as it is written: just what has to be is escaped. */
  function Escaped(d: Doc): (r: Doc)
    ensures r.DocNode? == d.DocNode?
  {
    match d
    case NoDoc => NoDoc
    case DocNode(ty, props, child, next) => DocNode(ty, Escape(props), Escaped(child), Escaped(next))
  }

  /** The number of bytes that `d` takes up. */
  function Size(d: Doc): (n: nat)
  {
    match d
    case NoDoc => 0
    case DocNode(_, props, child, next) => 3 + |props| + Size(child) + Size(next)
  }

  function Print(d: Doc): (s: seq<byte>)
    ensures |s| == Size(d)
  {
    match d
    case NoDoc => []
    case DocNode(ty, props, child, next) => [NODE_START, ty] + props + Print(child) + [NODE_END] + Print(next)
  }

  /** The offset of the end byte of a node printed at `at`. */
  function EndOf(at: nat, d: Doc): (r: nat)
    requires d.DocNode?
  {
    at + 2 + |d.props| + Size(d.child)
  }

  /** The nodes a reader should build for `d` printed at offset `at`. */
  function Layout(d: Doc, at: nat): Tree
  {
    match d
    case NoDoc => Nil
    case DocNode(ty, props, child, next) =>
      Node(at, |props|, ty, Layout(child, at + 2 + |props|), Layout(next, EndOf(at, d) + 1))
  }

  // ----- Reading

  /** Properties end before an escape character that has nothing to escape. */
  predicate WellEscaped(s: seq<byte>)
  {
    s == [] || (if s[0] == ESCAPE_CHAR then |s| > 1 && WellEscaped(s[2..]) else WellEscaped(s[1..]))
  }

  function Unescape(s: seq<byte>): (r: seq<byte>)
    requires WellEscaped(s)
    ensures |r| <= |s|
  {
    if s == [] then []
    else if s[0] == ESCAPE_CHAR then [s[1]] + Unescape(s[2..])
    else [s[0]] + Unescape(s[1..])
  }

  /** How the body of one node ends: badly, as the last of its siblings (`end` is where reading
      goes on), or with another sibling whose start byte is at `at`. */
  datatype Body =
    | Broken
    | Last(propsSize: nat, child: Tree, end: nat)
    | More(propsSize: nat, child: Tree, at: nat)

  datatype Parsed = Failed | Done(tree: Tree, end: nat)

  /** Reads on at `p` inside the node that starts at `start`. `propsSize` is known once a child
      has been met. */
  function ParseBody(s: seq<byte>, start: nat, p: nat, propsSize: nat, sized: bool, child: Tree): (r: Body)
    requires start + 2 <= p <= |s|
    ensures r.Last? ==> p < r.end <= |s| && (r.end < |s| ==> s[r.end] == NODE_END)
    ensures r.More? ==> p < r.at < |s| && s[r.at] == NODE_START
    decreases |s| - p, 0
  {
    if p == |s| then Broken
    else if s[p] == NODE_START then
      var r := ParseList(s, p + 1);
      if r.Failed? then Broken
      else ParseBody(s, start, r.end, p - start - 2, true, r.tree)
    else if s[p] == NODE_END then
      var size := if sized then propsSize else p - start - 2;
      if p + 1 == |s| then Last(size, child, |s|)
      else if s[p + 1] == NODE_START then More(size, child, p + 1)
      else if s[p + 1] == NODE_END then Last(size, child, p + 1)
      else Broken
    else if s[p] == ESCAPE_CHAR then
      if p + 1 == |s| then Broken else ParseBody(s, start, p + 2, propsSize, sized, child)
    else
      ParseBody(s, start, p + 1, propsSize, sized, child)
  }

  /** Reads a node whose type byte is at `p`, and the siblings after it. */
  function ParseList(s: seq<byte>, p: nat): (r: Parsed)
    requires 1 <= p <= |s|
    ensures r.Done? ==> p < r.end <= |s| && r.tree.Node? && (r.end < |s| ==> s[r.end] == NODE_END)
    decreases |s| - p, 1
  {
    if p == |s| then Failed
    else
      match ParseBody(s, p - 1, p + 1, 0, false, Nil)
      case Broken => Failed
      case Last(size, child, end) => Done(Node(p - 1, size, s[p], child, Nil), end)
      case More(size, child, at) =>
        var r := ParseList(s, at + 1);
        if r.Failed? then Failed else Done(Node(p - 1, size, s[p], child, r.tree), r.end)
  }

  // ----- Unescaping undoes escaping

  lemma {:induction false} UnescapeEscape(props: seq<byte>)
    ensures WellEscaped(Escape(props)) && Unescape(Escape(props)) == props
  {
    if props != [] {
      UnescapeEscape(props[1..]);
      var e := Escape(props);
      if Special(props[0]) {
        assert e[2..] == Escape(props[1..]);
      } else {
        assert e[1..] == Escape(props[1..]);
      }
    }
  }

  lemma {:induction false} EscapeRaw(props: seq<byte>)
    ensures Raw(Escape(props))
  {
    if props != [] {
      EscapeRaw(props[1..]);
      var e := Escape(props);
      if Special(props[0]) {
        assert e[2..] == Escape(props[1..]);
      } else {
        assert e[1..] == Escape(props[1..]);
      }
    }
  }

  lemma {:induction false} EscapedRaw(d: Doc)
    ensures AllRaw(Escaped(d))
  {
    if d.DocNode? {
      EscapeRaw(d.props);
      EscapedRaw(d.child);
      EscapedRaw(d.next);
    }
  }

  lemma {:induction false} RawWellEscaped(s: seq<byte>)
    requires Raw(s)
    ensures WellEscaped(s)
  {
    if s != [] {
      RawWellEscaped(if s[0] == ESCAPE_CHAR then s[2..] else s[1..]);
    }
  }

  // ----- Reading undoes writing

  /** `d` stands printed in `s` at offset `at`, said piece by piece. */
  ghost predicate Printed(s: seq<byte>, at: nat, d: Doc)
    decreases d
  {
    match d
    case NoDoc => at <= |s|
    case DocNode(ty, props, child, next) =>
      && EndOf(at, d) < |s|
      && s[at] == NODE_START && s[at + 1] == ty && s[EndOf(at, d)] == NODE_END
      && Raw(props) && At(s, at + 2, props)
      && Printed(s, at + 2 + |props|, child)
      && Printed(s, EndOf(at, d) + 1, next)
  }

  lemma {:induction false} PrintedNode(s: seq<byte>, at: nat, d: Doc)
    requires d.DocNode? && At(s, at, Print(d))
    ensures EndOf(at, d) < |s|
    ensures s[at] == NODE_START && s[at + 1] == d.ty && s[EndOf(at, d)] == NODE_END
    ensures At(s, at + 2, d.props)
    ensures At(s, at + 2 + |d.props|, Print(d.child))
    ensures At(s, EndOf(at, d) + 1, Print(d.next))
  {
    var a, e, c, n := [NODE_START, d.ty], d.props, Print(d.child), Print(d.next);
    AtSplit(s, at, a + e + c + [NODE_END], n);
    AtSplit(s, at, a + e + c, [NODE_END]);
    AtSplit(s, at, a + e, c);
    AtSplit(s, at, a, e);
    AtHead(s, at, a);
    assert a[1] == s[at + 1];
    AtHead(s, EndOf(at, d), [NODE_END]);
  }

  lemma {:induction false} PutTogether(s: seq<byte>, at: nat, d: Doc)
    requires d.DocNode? && EndOf(at, d) < |s|
    requires s[at] == NODE_START && s[at + 1] == d.ty && s[EndOf(at, d)] == NODE_END
    requires Raw(d.props) && At(s, at + 2, d.props) && Printed(s, at + 2 + |d.props|, d.child)
    requires Printed(s, EndOf(at, d) + 1, d.next)
    ensures Printed(s, at, d)
  {
  }

  lemma {:induction false} SizeIs(at: nat, d: Doc)
    requires d.DocNode?
    ensures at + Size(d) == EndOf(at, d) + 1 + Size(d.next)
  {
  }

  lemma {:induction false} NothingPrinted(s: seq<byte>, at: nat)
    requires At(s, at, Print(NoDoc))
    ensures Printed(s, at, NoDoc) && at + Size(NoDoc) <= |s|
  {
  }

  lemma {:induction false} PrintedParts(s: seq<byte>, at: nat, d: Doc)
    requires At(s, at, Print(d)) && AllRaw(d)
    ensures Printed(s, at, d) && at + Size(d) <= |s|
    decreases d
  {
    hide Print, Printed, Raw, At, Size, EndOf;
    if d.NoDoc? {
      NothingPrinted(s, at);
    } else {
      PrintedNode(s, at, d);
      PrintedParts(s, at + 2 + |d.props|, d.child);
      PrintedParts(s, EndOf(at, d) + 1, d.next);
      PutTogether(s, at, d);
      SizeIs(at, d);
    }
  }

  /** Properties are stepped over byte by byte, whatever they hold. */
  lemma {:induction false} ParseBodySkipsProps(s: seq<byte>, start: nat, p: nat, props: seq<byte>)
    requires start + 2 <= p && Raw(props) && At(s, p, props)
    ensures ParseBody(s, start, p, 0, false, Nil) == ParseBody(s, start, p + |props|, 0, false, Nil)
    decreases |props|
  {
    if props != [] {
      var n := if props[0] == ESCAPE_CHAR then 2 else 1;
      assert props == props[..n] + props[n..];
      AtSplit(s, p, props[..n], props[n..]);
      AtHead(s, p, props[..n]);
      ParseBodySkipsProps(s, start, p + n, props[n..]);
    }
  }

  /** What the byte `r`, the end of a node with `size` bytes of properties, makes of that node. */
  function EndOfBody(s: seq<byte>, r: nat, size: nat, child: Tree): Body
    requires r < |s|
  {
    if r + 1 == |s| then Last(size, child, |s|)
    else if s[r + 1] == NODE_START then More(size, child, r + 1)
    else if s[r + 1] == NODE_END then Last(size, child, r + 1)
    else Broken
  }

  /** The body of a printed node, read on from the end of its properties at `q`. */
  lemma {:induction false} ParseChildren(s: seq<byte>, start: nat, q: nat, child: Doc)
    requires start + 2 <= q && Printed(s, q, child)
    requires q + Size(child) < |s| && s[q + Size(child)] == NODE_END
    ensures ParseBody(s, start, q, 0, false, Nil)
         == EndOfBody(s, q + Size(child), q - start - 2, Layout(child, q))
    decreases child, 2
  {
    if child.DocNode? {
      ParsePrint(s, q, child);
    }
  }

  /** The whole body of a printed node. */
  lemma {:induction false} ParseNodeBody(s: seq<byte>, at: nat, d: Doc)
    requires d.DocNode? && Printed(s, at, d)
    ensures ParseBody(s, at, at + 2, 0, false, Nil)
         == EndOfBody(s, EndOf(at, d), |d.props|, Layout(d.child, at + 2 + |d.props|))
    decreases d, 0
  {
    ParseBodySkipsProps(s, at, at + 2, d.props);
    ParseChildren(s, at, at + 2 + |d.props|, d.child);
  }

  /** A node whose body ends at `r` is the last of its siblings, or the rest of them follow. */
  lemma {:induction false} ParseListAtEnd(s: seq<byte>, at: nat, r: nat, size: nat, child: Tree)
    requires at + 2 <= r < |s| && ParseBody(s, at, at + 2, 0, false, Nil) == EndOfBody(s, r, size, child)
    ensures r + 1 == |s| || s[r + 1] == NODE_END ==>
              ParseList(s, at + 1) == Done(Node(at, size, s[at + 1], child, Nil), r + 1)
    ensures r + 1 < |s| && s[r + 1] == NODE_START ==>
              ParseList(s, at + 1) ==
              match ParseList(s, r + 2)
              case Failed => Failed
              case Done(rest, end) => Done(Node(at, size, s[at + 1], child, rest), end)
  {
  }

  /** How a printed node and the siblings read after it, which end at `e`, make one list. */
  lemma {:induction false} ParsePrintNode(s: seq<byte>, at: nat, d: Doc, e: nat)
    requires d.DocNode? && EndOf(at, d) < |s| && s[at + 1] == d.ty
    requires ParseBody(s, at, at + 2, 0, false, Nil)
          == EndOfBody(s, EndOf(at, d), |d.props|, Layout(d.child, at + 2 + |d.props|))
    requires d.next.NoDoc? ==> e == EndOf(at, d) + 1 && (e < |s| ==> s[e] == NODE_END)
    requires d.next.DocNode? ==>
               && EndOf(at, d) + 1 < |s| && s[EndOf(at, d) + 1] == NODE_START
               && ParseList(s, EndOf(at, d) + 2) == Done(Layout(d.next, EndOf(at, d) + 1), e)
    ensures ParseList(s, at + 1) == Done(Layout(d, at), e)
  {
    ParseListAtEnd(s, at, EndOf(at, d), |d.props|, Layout(d.child, at + 2 + |d.props|));
  }

  /** The nodes of a printed document, followed by the end of their parent or of the file. */
  lemma {:induction false} ParsePrint(s: seq<byte>, at: nat, d: Doc)
    requires d.DocNode? && Printed(s, at, d) && at + Size(d) <= |s|
    requires at + Size(d) < |s| ==> s[at + Size(d)] == NODE_END
    ensures ParseList(s, at + 1) == Done(Layout(d, at), at + Size(d))
    decreases d, 1
  {
    ParseNodeBody(s, at, d);
    if d.next.DocNode? {
      ParsePrint(s, EndOf(at, d) + 1, d.next);
    }
    ParsePrintNode(s, at, d, at + Size(d));
  }

  // ----- Reading the properties of what was parsed

  function PropsOf(s: seq<byte>, t: Tree): (props: seq<byte>)
    requires t.Node? && t.start + 2 + t.propsSize <= |s|
  {
    s[t.start + 2..t.start + 2 + t.propsSize]
  }

  /** Every node's properties lie inside `s` and can be unescaped. */
  ghost predicate Readable(s: seq<byte>, t: Tree)
  {
    t.Node? ==>
      && t.start + 2 + t.propsSize <= |s|
      && WellEscaped(PropsOf(s, t))
      && Readable(s, t.child)
      && Readable(s, t.next)
  }

  /** The document that a reader gets from the nodes of `t` and their unescaped properties. */
  ghost function Extract(s: seq<byte>, t: Tree): (d: Doc)
    requires Readable(s, t)
  {
    match t
    case Nil => NoDoc
    case Node(start, propsSize, ty, child, next) =>
      DocNode(ty, Unescape(PropsOf(s, t)), Extract(s, child), Extract(s, next))
  }

  /** The document as it stands in a file, escapes and all. */
  ghost function RawOf(s: seq<byte>, t: Tree): (d: Doc)
    requires Readable(s, t)
    ensures d.DocNode? == t.Node?
  {
    match t
    case Nil => NoDoc
    case Node(start, propsSize, ty, child, next) =>
      DocNode(ty, PropsOf(s, t), RawOf(s, child), RawOf(s, next))
  }

  /** From `at` to `end` stands just the document whose nodes are `t`. */
  ghost predicate Stands(s: seq<byte>, at: nat, t: Tree, end: nat)
  {
    && Readable(s, t) && Printed(s, at, RawOf(s, t)) && t == Layout(RawOf(s, t), at) && end == at + Size(RawOf(s, t))
  }

  // ----- What is accepted is what is printed

  lemma {:induction false} RawAppend(a: seq<byte>, b: seq<byte>)
    requires Raw(a) && Raw(b)
    ensures Raw(a + b)
  {
    if a == [] {
      assert a + b == b;
    } else {
      var n := if a[0] == ESCAPE_CHAR then 2 else 1;
      RawAppend(a[n..], b);
      assert (a + b)[n..] == a[n..] + b;
    }
  }

  lemma {:induction false} RawGrow(s: seq<byte>, lo: nat, p: nat, q: nat)
    requires lo <= p < q <= |s| && Raw(s[lo..p])
    requires if s[p] == ESCAPE_CHAR then q == p + 2 else q == p + 1 && !Special(s[p])
    ensures Raw(s[lo..q])
  {
    var tail := s[p..q];
    assert Raw(tail) by {
      assert tail[if q == p + 2 then 2 else 1..] == [];
    }
    RawAppend(s[lo..p], tail);
    assert s[lo..q] == s[lo..p] + tail;
  }

  /** The properties of a node that starts at `start` are `size` bytes. */
  ghost predicate RawProps(s: seq<byte>, start: nat, size: nat)
  {
    start + 2 + size <= |s| && Raw(s[start + 2..start + 2 + size])
  }

  lemma {:induction false} Sized(s: seq<byte>, start: nat, p: nat)
    requires start + 2 <= p <= |s| && Raw(s[start + 2..p])
    ensures RawProps(s, start, p - start - 2)
  {
    assert s[start + 2..start + 2 + (p - start - 2)] == s[start + 2..p];
  }

  /** Properties, children, an end byte and the siblings after it make a node. */
  lemma {:induction false} NodeStands(s: seq<byte>, at: nat, size: nat, child: Tree, e: nat, next: Tree, end: nat)
    requires at + 1 < |s| && s[at] == NODE_START && RawProps(s, at, size)
    requires Stands(s, at + 2 + size, child, e) && e < |s| && s[e] == NODE_END && Stands(s, e + 1, next, end)
    ensures Stands(s, at, Node(at, size, s[at + 1], child, next), end)
  {
    hide Raw, Printed, Layout, Size, EndOf, At, WellEscaped, Readable, RawOf;
    var props := s[at + 2..at + 2 + size];
    var d := DocNode(s[at + 1], props, RawOf(s, child), RawOf(s, next));
    NodeReads(s, at, size, child, next);
    Parts(s, at, d);
    PutTogether(s, at, d);
    SizeIs(at, d);
  }

  lemma {:induction false} NodeReads(s: seq<byte>, at: nat, size: nat, child: Tree, next: Tree)
    requires at + 1 < |s| && RawProps(s, at, size) && Readable(s, child) && Readable(s, next)
    ensures var t := Node(at, size, s[at + 1], child, next);
      && Readable(s, t)
      && RawOf(s, t) == DocNode(s[at + 1], s[at + 2..at + 2 + size], RawOf(s, child), RawOf(s, next))
  {
    hide Raw, WellEscaped;
    RawWellEscaped(s[at + 2..at + 2 + size]);
  }

  lemma {:induction false} Parts(s: seq<byte>, at: nat, d: Doc)
    requires d.DocNode?
    ensures EndOf(at, d) == at + 2 + |d.props| + Size(d.child)
    ensures Layout(d, at)
      == Node(at, |d.props|, d.ty, Layout(d.child, at + 2 + |d.props|), Layout(d.next, EndOf(at, d) + 1))
    ensures at + 2 + |d.props| <= |s| && d.props == s[at + 2..at + 2 + |d.props|] ==> At(s, at + 2, d.props)
  {
  }

  lemma {:induction false} NothingStands(s: seq<byte>, at: nat)
    requires at <= |s|
    ensures Stands(s, at, Nil, at)
  {
  }

  /** Where a body ends that is read on at `p`. */
  function EndByte(r: Body): int
    requires !r.Broken?
  {
    if r.Last? then r.end - 1 else r.at - 1
  }

  /** What has been read of a body: properties, and from then on, if there are any, children. */
  ghost predicate BodyRead(s: seq<byte>, start: nat, p: nat, propsSize: nat, sized: bool, child: Tree)
    requires start + 2 <= p <= |s|
  {
    if sized then
      && RawProps(s, start, propsSize) && Stands(s, start + 2 + propsSize, child, p)
      && (p < |s| ==> s[p] == NODE_END)
    else child == Nil && Raw(s[start + 2..p])
  }

  /** Whatever the body holds, if it is accepted, it is properties and children followed by an end byte. */
  lemma {:induction false} ParseBodyStands(s: seq<byte>, start: nat, p: nat, propsSize: nat, sized: bool, child: Tree)
    requires start + 2 <= p <= |s| && BodyRead(s, start, p, propsSize, sized, child)
    ensures var r := ParseBody(s, start, p, propsSize, sized, child);
      !r.Broken? ==>
        && 0 <= EndByte(r) < |s| && s[EndByte(r)] == NODE_END && RawProps(s, start, r.propsSize)
        && Stands(s, start + 2 + r.propsSize, r.child, EndByte(r))
    decreases |s| - p, 0
  {
    hide ParseList, Raw, Stands, RawProps;
    if p < |s| && s[p] != NODE_END {
      if s[p] == NODE_START {
        ParseListStands(s, p + 1);
        var r := ParseList(s, p + 1);
        if r.Done? {
          Sized(s, start, p);
          ParseBodyStands(s, start, r.end, p - start - 2, true, r.tree);
        }
      } else {
        var q := if s[p] == ESCAPE_CHAR then p + 2 else p + 1;
        if q <= |s| {
          RawGrow(s, start + 2, p, q);
          ParseBodyStands(s, start, q, propsSize, sized, child);
        }
      }
    } else if p < |s| && !sized {
      Sized(s, start, p);
      NothingStands(s, p);
    }
  }

  /** Whatever a file holds, if it parses then what was read is a document printed there, and the nodes built are the
      ones laid out for it. */
  lemma {:induction false} ParseListStands(s: seq<byte>, p: nat)
    requires 1 <= p <= |s| && s[p - 1] == NODE_START
    ensures ParseList(s, p).Done? ==> Stands(s, p - 1, ParseList(s, p).tree, ParseList(s, p).end)
    decreases |s| - p, 1
  {
    hide ParseList, ParseBody, Raw, Stands, RawProps, BodyRead;
    ParseListIs(s, p);
    if p < |s| {
      NothingRead(s, p - 1);
      ParseBodyStands(s, p - 1, p + 1, 0, false, Nil);
      var b := ParseBody(s, p - 1, p + 1, 0, false, Nil);
      if b.Last? {
        LastStands(s, p - 1, b.propsSize, b.child, b.end);
      } else if b.More? {
        ParseListStands(s, b.at + 1);
        var r := ParseList(s, b.at + 1);
        if r.Done? {
          NodeStands(s, p - 1, b.propsSize, b.child, b.at - 1, r.tree, r.end);
        }
      }
    }
  }

  lemma {:induction false} ParseListIs(s: seq<byte>, p: nat)
    requires 1 <= p <= |s|
    ensures ParseList(s, p) ==
      if p == |s| then Failed
      else
        match ParseBody(s, p - 1, p + 1, 0, false, Nil)
        case Broken => Failed
        case Last(size, child, end) => Done(Node(p - 1, size, s[p], child, Nil), end)
        case More(size, child, at) =>
          var r := ParseList(s, at + 1);
          if r.Failed? then Failed else Done(Node(p - 1, size, s[p], child, r.tree), r.end)
  {
  }

  lemma {:induction false} NothingRead(s: seq<byte>, start: nat)
    requires start + 2 <= |s|
    ensures BodyRead(s, start, start + 2, 0, false, Nil)
  {
    assert s[start + 2..start + 2] == [];
  }

  lemma {:induction false} LastStands(s: seq<byte>, at: nat, size: nat, child: Tree, end: nat)
    requires at + 1 < |s| && s[at] == NODE_START && RawProps(s, at, size)
    requires 0 < end <= |s| && Stands(s, at + 2 + size, child, end - 1) && s[end - 1] == NODE_END
    ensures Stands(s, at, Node(at, size, s[at + 1], child, Nil), end)
  {
    hide Stands, RawProps;
    NothingStands(s, end);
    NodeStands(s, at, size, child, end - 1, Nil, end);
  }

  lemma {:induction false} StandsReadable(s: seq<byte>, at: nat, r: Parsed)
    requires r.Done? ==> Stands(s, at, r.tree, r.end)
    ensures r.Done? ==> Readable(s, r.tree)
  {
  }

  /** So every node's properties can be read back. */
  lemma {:induction false} ParseListReadable(s: seq<byte>, p: nat)
    requires 1 <= p <= |s| && s[p - 1] == NODE_START
    ensures ParseList(s, p).Done? ==> Readable(s, ParseList(s, p).tree)
  {
    ParseListStands(s, p);
  }

  /** A document is printed at `at`, and an end byte or nothing follows. */
  ghost predicate IsPrint(s: seq<byte>, at: nat, d: Doc)
  {
    d.DocNode? && Printed(s, at, d) && at + Size(d) <= |s| && (at + Size(d) < |s| ==> s[at + Size(d)] == NODE_END)
  }

  /** A file parses if and only if a document is printed there. */
  lemma {:induction false} AcceptsIff(s: seq<byte>, at: nat)
    requires at < |s| && s[at] == NODE_START
    ensures ParseList(s, at + 1).Done? <==> exists d :: IsPrint(s, at, d)
  {
    ParseListStands(s, at + 1);
    var r := ParseList(s, at + 1);
    if r.Done? {
      assert IsPrint(s, at, RawOf(s, r.tree));
    }
    if exists d :: IsPrint(s, at, d) {
      var d :| IsPrint(s, at, d);
      ParsePrint(s, at, d);
    }
  }

  // ----- The document that is read

  ghost predicate GoodProps(s: seq<byte>, start: nat, size: nat)
  {
    start + 2 + size <= |s| && WellEscaped(s[start + 2..start + 2 + size])
  }

  lemma {:induction false} ReadableNode(s: seq<byte>, start: nat, size: nat, ty: byte, child: Tree, next: Tree)
    requires GoodProps(s, start, size) && Readable(s, child) && Readable(s, next)
    ensures Readable(s, Node(start, size, ty, child, next))
    ensures Extract(s, Node(start, size, ty, child, next)) ==
            DocNode(ty, Unescape(s[start + 2..start + 2 + size]), Extract(s, child), Extract(s, next))
  {
  }

  /** The properties of a printed node unescape to the original. */
  lemma {:induction false} PrintedProps(s: seq<byte>, at: nat, props: seq<byte>)
    requires At(s, at + 2, Escape(props))
    ensures GoodProps(s, at, |Escape(props)|)
    ensures Unescape(s[at + 2..at + 2 + |Escape(props)|]) == props
  {
    UnescapeEscape(props);
    assert s[at + 2..at + 2 + |Escape(props)|] == Escape(props);
  }

  lemma {:induction false} ExtractNode(s: seq<byte>, at: nat, d: Doc, c: Tree, n: Tree)
    requires d.DocNode? && At(s, at + 2, Escape(d.props))
    requires Readable(s, c) && Extract(s, c) == d.child
    requires Readable(s, n) && Extract(s, n) == d.next
    ensures Readable(s, Node(at, |Escape(d.props)|, d.ty, c, n))
    ensures Extract(s, Node(at, |Escape(d.props)|, d.ty, c, n)) == d
  {
    PrintedProps(s, at, d.props);
    ReadableNode(s, at, |Escape(d.props)|, d.ty, c, n);
  }

  /** The nodes laid out for a document as it was written give that document back. */
  lemma {:induction false} ExtractLayout(s: seq<byte>, at: nat, d: Doc)
    requires Printed(s, at, Escaped(d))
    ensures Readable(s, Layout(Escaped(d), at)) && Extract(s, Layout(Escaped(d), at)) == d
    decreases d
  {
    if d.DocNode? {
      hide Escape, Unescape, WellEscaped, At, Extract, Readable, Raw;
      var e := Escaped(d);
      var p, q := at + 2 + |e.props|, EndOf(at, e) + 1;
      var c, n := Layout(e.child, p), Layout(e.next, q);
      assert Layout(e, at) == Node(at, |Escape(d.props)|, d.ty, c, n);
      assert At(s, at + 2, Escape(d.props)) && Printed(s, p, Escaped(d.child)) && Printed(s, q, Escaped(d.next));
      hide Layout, Printed, EndOf;
      ExtractLayout(s, p, d.child);
      ExtractLayout(s, q, d.next);
      ExtractNode(s, at, d, c, n);
    }
  }

  /** Reading a file made by writing a document gives back that document: the same types, the
      same unescaped properties, the same children and the same siblings, whatever bytes occur in them. */
  lemma {:induction false} ReadPrint(header: seq<byte>, d: Doc)
    requires |header| == 4 && d.DocNode?
    ensures var s := header + Print(Escaped(d));
            var r := ParseList(s, 5);
            && r.Done? && r.end == |s|
            && Readable(s, r.tree) && Extract(s, r.tree) == d
  {
    var e := Escaped(d);
    var s := header + Print(e);
    forall i | 0 <= i < |Print(e)| ensures Print(e)[i] == s[4 + i] {}
    EscapedRaw(d);
    PrintedParts(s, 4, e);
    ParsePrint(s, 4, e);
    ExtractLayout(s, 4, d);
  }
}
