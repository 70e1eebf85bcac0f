/** Bytes and the little-endian integers that the server writes into its files and blobs. */
module Bytes {

  type byte = x: int | 0 <= x < 0x100

  type uint16 = x: int | 0 <= x < 0x1_0000

  type uint32 = x: int | 0 <= x < 0x1_0000_0000

  type int32 = x: int | -0x8000_0000 <= x < 0x8000_0000

  /** `size` bytes of `v`, least significant first, as `write<T>` copies an integer out of memory. */
  function Encode(v: nat, size: nat): (s: seq<byte>)
    ensures |s| == size
  {
    if size == 0 then [] else [v % 0x100] + Encode(v / 0x100, size - 1)
  }

  /** The integer held by the bytes of `s`, as `read<T>` copies them back into memory. */
  function Decode(s: seq<byte>): (v: nat)
  {
    if |s| == 0 then 0 else s[0] + 0x100 * Decode(s[1..])
  }

  ghost function Pow256(n: nat): (r: nat)
    ensures r >= 1
  {
    if n == 0 then 1 else 0x100 * Pow256(n - 1)
  }

  /** A value comes back reduced to the width it was written with. */
  lemma {:induction false} DecodeEncode(v: nat, size: nat)
    ensures v < Pow256(size) ==> Decode(Encode(v, size)) == v
  {
    if size > 0 {
      DecodeEncode(v / 0x100, size - 1);
      assert Encode(v, size)[1..] == Encode(v / 0x100, size - 1);
    }
  }

  lemma {:induction false} DecodeBound(s: seq<byte>)
    ensures Decode(s) < Pow256(|s|)
  {
    if |s| > 0 {
      DecodeBound(s[1..]);
    }
  }

  /** `part` stands in `s` at offset `p`. */
  ghost predicate At(s: seq<byte>, p: nat, part: seq<byte>)
  {
    p + |part| <= |s| && forall i :: 0 <= i < |part| ==> part[i] == s[p + i]
  }

  lemma {:induction false} AtSplit(s: seq<byte>, p: nat, a: seq<byte>, b: seq<byte>)
    requires At(s, p, a + b)
    ensures At(s, p, a) && At(s, p + |a|, b)
  {
    forall i | 0 <= i < |a| ensures a[i] == s[p + i] {
      assert (a + b)[i] == a[i];
    }
    forall i | 0 <= i < |b| ensures b[i] == s[p + |a| + i] {
      assert (a + b)[|a| + i] == b[i];
    }
  }

  lemma {:induction false} AtHead(s: seq<byte>, p: nat, part: seq<byte>)
    requires At(s, p, part) && part != []
    ensures p < |s| && s[p] == part[0]
  {
    assert part[0] == s[p + 0];
  }
}
