/** The streams that blobs are written to and read from: `PropWriteStream` and `PropStream`. */
module Streams {
  import opened Bytes

  /** The bytes written for a string: its length and its characters. A string whose length does
      not fit in two bytes is written as an empty one. */
  function StringBytes(text: seq<byte>): (s: seq<byte>)
  {
    if |text| > 0xFFFF then Encode(0, 2) else Encode(|text|, 2) + text
  }

  function NumberAt(s: seq<byte>, p: nat, size: nat): (v: nat)
    requires p + size <= |s|
  {
    Decode(s[p..p + size])
  }

  lemma {:induction false} AtNumber(s: seq<byte>, p: nat, v: nat, size: nat)
    requires At(s, p, Encode(v, size)) && v < Pow256(size)
    ensures NumberAt(s, p, size) == v
  {
    assert s[p..p + size] == Encode(v, size);
    DecodeEncode(v, size);
  }

  lemma {:induction false} OneByte(data: seq<byte>, p: nat)
    requires p < |data|
    ensures NumberAt(data, p, 1) == data[p]
  {
    var s := data[p..p + 1];
    assert s == [data[p]] && s[1..] == [];
    assert Decode(s) == s[0] + 0x100 * Decode(s[1..]);
  }

  lemma {:induction false} Widths()
    ensures Pow256(1) == 0x100 && Pow256(2) == 0x1_0000 && Pow256(4) == 0x1_0000_0000
  {
    assert Pow256(0) == 1;
    assert Pow256(1) == 0x100 * Pow256(0);
    assert Pow256(2) == 0x100 * Pow256(1);
    assert Pow256(3) == 0x100 * Pow256(2);
    assert Pow256(4) == 0x100 * Pow256(3);
  }

  lemma {:induction false} Assoc(a: seq<byte>, b: seq<byte>, c: seq<byte>)
    ensures (a + b) + c == a + (b + c)
  {
  }

  lemma {:induction false} Assoc3(a: seq<byte>, b: seq<byte>, c: seq<byte>, d: seq<byte>)
    ensures ((a + b) + c) + d == a + (b + c + d)
  {
  }

  lemma {:induction false} Assoc4(a: seq<byte>, b: seq<byte>, c: seq<byte>, d: seq<byte>, e: seq<byte>)
    ensures (((a + b) + c) + d) + e == a + (b + c + d + e)
  {
  }

  class PropWriteStream {
    var buffer: seq<byte>

    constructor ()
      ensures buffer == []
    {
      buffer := [];
    }

    method Write(v: nat, size: nat)
      modifies this
      ensures buffer == old(buffer) + Encode(v, size)
    {
      buffer := buffer + Encode(v, size);
    }

    method WriteByte(b: byte)
      modifies this
      ensures buffer == old(buffer) + [b]
    {
      buffer := buffer + [b];
    }

    method WriteString(str: seq<byte>)
      modifies this
      ensures buffer == old(buffer) + StringBytes(str)
    {
      if |str| > 0xFFFF {
        Write(0, 2);
        return;
      }
      Write(|str|, 2);
      buffer := buffer + str;
    }
  }

  class PropStream {
    const data: seq<byte>
    var p: nat

    ghost predicate Valid()
      reads this
    {
      p <= |data|
    }

    constructor (data: seq<byte>)
      ensures Valid() && this.data == data && p == 0
    {
      this.data, p := data, 0;
    }

    function Size(): (n: nat)
      reads this
      requires Valid()
    {
      |data| - p
    }

    /** Reads an integer, or nothing at all if there are too few bytes left. */
    method Read(size: nat) returns (ok: bool, v: nat)
      requires Valid()
      modifies this
      ensures Valid() && ok == (old(p) + size <= |data|)
      ensures ok ==> v == NumberAt(data, old(p), size) && p == old(p) + size
      ensures !ok ==> p == old(p)
    {
      if Size() < size {
        return false, 0;
      }
      v := Decode(data[p..p + size]);
      p := p + size;
      ok := true;
    }

    method ReadString() returns (ok: bool, str: seq<byte>)
      requires Valid()
      modifies this
      ensures Valid() && ok == (old(p) + 2 <= |data| && old(p) + 2 + NumberAt(data, old(p), 2) <= |data|)
      ensures ok ==> p == old(p) + 2 + NumberAt(data, old(p), 2) && str == data[old(p) + 2..p]
    {
      var strLen;
      ok, strLen := Read(2);
      if !ok || Size() < strLen {
        return false, [];
      }
      str := data[p..p + strLen];
      p := p + strLen;
    }

    method Skip(n: nat) returns (ok: bool)
      requires Valid()
      modifies this
      ensures Valid() && ok == (old(p) + n <= |data|)
      ensures p == if ok then old(p) + n else old(p)
    {
      ok := Size() >= n;
      if ok {
        p := p + n;
      }
    }
  }
}
