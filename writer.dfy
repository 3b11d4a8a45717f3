/** System.IO.BinaryWriter over a MemoryStream: every multi-byte value is
    written little-endian as its two's-complement bit pattern. */
module BinaryOutput {
  import opened Common

  function Pow256(n: nat): (r: nat)
    ensures r >= 1
  {
    if n == 0 then 1 else 256 * Pow256(n - 1)
  }

  /** The `n` low bytes of `u`, least significant first. */
  function LEBytes(u: nat, n: nat): (r: seq<byte>)
    ensures |r| == n
  {
    if n == 0 then [] else [u % 256] + LEBytes(u / 256, n - 1)
  }

  /** The unsigned little-endian number a run of bytes spells. */
  function LEValue(bs: seq<byte>): nat
  {
    if bs == [] then 0 else bs[0] + 256 * LEValue(bs[1..])
  }

  /** `Write(short)`: the low 16 bits, low byte first. */
  function LE16(x: int): (r: seq<byte>)
    ensures |r| == 2
  {
    LEBytes(x % 0x1_0000, 2)
  }

  /** `Write(int)`: the low 32 bits, low byte first. */
  function LE32(x: int): (r: seq<byte>)
    ensures |r| == 4
  {
    LEBytes(x % TwoTo32, 4)
  }

  /** The unsigned little-endian 16-bit field at `i`. */
  function U16At(bs: seq<byte>, i: nat): nat
    requires i + 2 <= |bs|
  {
    LEValue(bs[i..i + 2])
  }

  /** The unsigned little-endian 32-bit field at `i`. */
  function U32At(bs: seq<byte>, i: nat): nat
    requires i + 4 <= |bs|
  {
    LEValue(bs[i..i + 4])
  }

  /** Writing `n` bytes and reading them back gives the value, for every
      value that fits in them. */
  lemma {:induction false} LERoundTrip(u: nat, n: nat)
    requires u < Pow256(n)
    ensures LEValue(LEBytes(u, n)) == u
  {
    if n > 0 {
      LERoundTrip(u / 256, n - 1);
      assert LEBytes(u, n)[1..] == LEBytes(u / 256, n - 1);
    }
  }

  /** Reading a written `short` back yields its 16-bit pattern. */
  lemma LE16Reads(x: int)
    ensures LEValue(LE16(x)) == x % 0x1_0000
  {
    assert Pow256(2) == 0x1_0000;
    LERoundTrip(x % 0x1_0000, 2);
  }

  /** Reading a written `int` back yields its 32-bit pattern. */
  lemma LE32Reads(x: int)
    ensures LEValue(LE32(x)) == x % TwoTo32
  {
    assert Pow256(4) == TwoTo32;
    LERoundTrip(x % TwoTo32, 4);
  }

  /** One `Write` call on a BinaryWriter: a `short`, an `int`, or a byte
      array copied verbatim. */
  datatype Field = I16(v: int) | I32(v: int) | Raw(bytes: seq<byte>)

  function Encoding(f: Field): (r: seq<byte>)
  {
    match f
    case I16(v) => LE16(v)
    case I32(v) => LE32(v)
    case Raw(b) => b
  }

  /** The stream contents after a run of writes. */
  function Serialize(fs: seq<Field>): seq<byte>
  {
    if fs == [] then [] else Serialize(fs[..|fs| - 1]) + Encoding(fs[|fs| - 1])
  }

  /** One more write appends its encoding. */
  lemma SerializeLast(fs: seq<Field>, f: Field)
    ensures Serialize(fs + [f]) == Serialize(fs) + Encoding(f)
  {
    assert (fs + [f])[..|fs|] == fs;
  }

  lemma {:induction false} SerializeAppend(a: seq<Field>, b: seq<Field>)
    ensures Serialize(a + b) == Serialize(a) + Serialize(b)
    decreases |b|
  {
    if b == [] {
      assert a + b == a;
    } else {
      var b', last := b[..|b| - 1], b[|b| - 1];
      calc {
        Serialize(a + b);
        { assert a + b == (a + b') + [last]; }
        Serialize((a + b') + [last]);
        { SerializeLast(a + b', last); }
        Serialize(a + b') + Encoding(last);
        { SerializeAppend(a, b'); }
        Serialize(a) + Serialize(b') + Encoding(last);
        Serialize(a) + (Serialize(b') + Encoding(last));
        { assert b == b' + [last]; SerializeLast(b', last); }
        Serialize(a) + Serialize(b);
      }
    }
  }

  /** The writes of a run of samples, one `short` each. */
  function Shorts(s: seq<int16>): (fs: seq<Field>)
    ensures |fs| == |s|
  {
    seq(|s|, i requires 0 <= i < |s| => I16(s[i]))
  }

  lemma ShortsAppend(a: seq<int16>, b: seq<int16>)
    ensures Shorts(a + b) == Shorts(a) + Shorts(b)
  {
  }

  /** The bytes BinaryWriter emits for a run of `short` samples. */
  function PcmBytes(s: seq<int16>): seq<byte>
  {
    Serialize(Shorts(s))
  }

  lemma {:induction false} PcmBytesLength(s: seq<int16>)
    ensures |PcmBytes(s)| == 2 * |s|
    decreases |s|
  {
    if s != [] {
      var init := s[..|s| - 1];
      assert Shorts(s)[..|s| - 1] == Shorts(init);
      PcmBytesLength(init);
    }
  }

  lemma PcmBytesAppend(a: seq<int16>, b: seq<int16>)
    ensures PcmBytes(a + b) == PcmBytes(a) + PcmBytes(b)
  {
    assert Shorts(a + b) == Shorts(a) + Shorts(b);
    SerializeAppend(Shorts(a), Shorts(b));
  }

  /** Sample k sits, as its 16-bit pattern, in bytes 2k and 2k+1. */
  lemma {:induction false} PcmBytesAt(s: seq<int16>, k: nat)
    requires k < |s|
    ensures |PcmBytes(s)| == 2 * |s|
    ensures U16At(PcmBytes(s), 2 * k) == (s[k] as int) % 0x1_0000
    decreases |s|
  {
    PcmBytesLength(s);
    var init := s[..|s| - 1];
    assert Shorts(s)[..|s| - 1] == Shorts(init);
    PcmBytesLength(init);
    if k == |s| - 1 {
      LE16Reads(s[k]);
      assert PcmBytes(s)[2 * k..2 * k + 2] == LE16(s[k]);
    } else {
      PcmBytesAt(init, k);
      assert PcmBytes(s)[2 * k..2 * k + 2] == PcmBytes(init)[2 * k..2 * k + 2];
    }
  }

  /** The MemoryStream a BinaryWriter appends to, kept as the run of writes
      made so far; its contents are their encodings one after another. */
  class ByteSink {
    var writes: seq<Field>

    function Contents(): seq<byte>
      reads this
    {
      Serialize(writes)
    }

    constructor ()
      ensures writes == []
    {
      writes := [];
    }

    method WriteInt32(x: int)
      modifies this
      ensures writes == old(writes) + [I32(x)]
    {
      writes := writes + [I32(x)];
    }

    method WriteInt16(x: int)
      modifies this
      ensures writes == old(writes) + [I16(x)]
    {
      writes := writes + [I16(x)];
    }

    method WriteBytes(b: seq<byte>)
      modifies this
      ensures writes == old(writes) + [Raw(b)]
    {
      writes := writes + [Raw(b)];
    }
  }
}
