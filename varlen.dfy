/** The MIDI variable-length quantity (VLQ) as the source's
    ReadVariableLengthValue reads it: up to four bytes, seven payload bits
    each, most significant group first, bit 7 set on every byte but the last.

    `Decode` states the reader's outcome on a byte sequence and a cursor;
    `Encode` is the standard encoder of the Standard MIDI Files 1.0
    conventions, the reference the decoder is checked against. */
module VarLen {
  import opened Common

  /** Bit 7, the "more bytes follow" marker. */
  predicate Marked(b: byte) { b >= 128 }

  /** `b & 0x7F` */
  function Low7(b: byte): (r: int)
    ensures 0 <= r < 128
    ensures !Marked(b) ==> r == b
  {
    b % 128
  }

  function Pow128(n: nat): (r: nat)
    ensures r >= 1
  {
    if n == 0 then 1 else 128 * Pow128(n - 1)
  }

  /** The big-endian quantity Σ low7(b_i)·128^(k-i) of bytes b_0..b_k. */
  function Join7(bs: seq<byte>): nat
  {
    if bs == [] then 0 else Join7(bs[..|bs| - 1]) * 128 + Low7(bs[|bs| - 1])
  }

  /** The number of consecutive marked bytes at `pos`, at most `limit`. */
  function MarkedRun(data: seq<byte>, pos: nat, limit: nat): (n: nat)
    ensures n <= limit
    ensures n > 0 ==> pos + n <= |data|
    ensures forall i :: pos <= i < pos + n ==> Marked(data[i])
    ensures n < limit && pos + n < |data| ==> !Marked(data[pos + n])
    decreases limit
  {
    if limit == 0 || pos >= |data| || !Marked(data[pos]) then 0
    else 1 + MarkedRun(data, pos + 1, limit - 1)
  }

  /** What ReadVariableLengthValue returns when started at `pos`: the value
      and the cursor after the bytes it consumed. At most four bytes are
      read; when all four are marked the loop ends after the fourth with the
      value shifted once more, with C#'s 32-bit wrap-around. Running out of bytes
      before an unmarked one is the reader's EndOfStream exception. */
  function Decode(data: seq<byte>, pos: nat): (r: Result<Read<int>>)
    ensures r.Ok? ==> pos < r.value.next <= pos + 4 && r.value.next <= |data|
    ensures r.Err? ==> r.error == EndOfStream
  {
    var k := MarkedRun(data, pos, 4);
    if k == 4 then Ok(Read(WrapInt32(Join7(data[pos..pos + 4]) * 128), pos + 4))
    else if pos + k < |data| then Ok(Read(Join7(data[pos..pos + k + 1]), pos + k + 1))
    else Err(EndOfStream)
  }

  /** Marked groups above the last one, as a standard encoder emits them. */
  function Leading(v: nat): (e: seq<byte>)
    requires 0 < v
    ensures 1 <= |e|
    decreases v
  {
    if v < 128 then [v + 128] else Leading(v / 128) + [v % 128 + 128]
  }

  /** The standard SMF encoder: groups of seven bits, most significant first,
      bit 7 set on all but the last byte. */
  function Encode(v: nat): (e: seq<byte>)
    requires v < 0x1000_0000
  {
    if v < 128 then [v] else Leading(v / 128) + [v % 128]
  }

  lemma Join7Snoc(bs: seq<byte>, b: byte)
    ensures Join7(bs + [b]) == Join7(bs) * 128 + Low7(b)
  {
    assert (bs + [b])[..|bs|] == bs;
  }

  lemma {:induction false} Join7Bound(bs: seq<byte>)
    ensures Join7(bs) < Pow128(|bs|)
    decreases |bs|
  {
    if bs != [] {
      Join7Bound(bs[..|bs| - 1]);
    }
  }

  lemma {:induction false} LeadingShape(v: nat)
    requires 0 < v
    ensures forall i :: 0 <= i < |Leading(v)| ==> Marked(Leading(v)[i])
    ensures Join7(Leading(v)) == v
    ensures v < Pow128(|Leading(v)| - 1) * 128
    ensures v >= Pow128(|Leading(v)| - 1)
    decreases v
  {
    if v >= 128 {
      LeadingShape(v / 128);
      Join7Snoc(Leading(v / 128), v % 128 + 128);
    }
  }

  /** Up to three groups shift left by seven without leaving `int`. */
  lemma ShiftFits(bs: seq<byte>)
    requires |bs| <= 3
    ensures Join7(bs) * 128 < 0x1000_0000
    ensures WrapInt32(Join7(bs) * 128) == Join7(bs) * 128
  {
    Join7Bound(bs);
    PowMono(|bs|, 3);
  }

  /** The encoding is one to four bytes, all marked but the last, and its
      payload bits put together are the value. */
  lemma EncodeShape(v: nat)
    requires v < 0x1000_0000
    ensures 1 <= |Encode(v)| <= 4
    ensures forall i :: 0 <= i < |Encode(v)| - 1 ==> Marked(Encode(v)[i])
    ensures !Marked(Encode(v)[|Encode(v)| - 1])
    ensures Join7(Encode(v)) == v
  {
    if v >= 128 {
      LeadingShape(v / 128);
      Join7Snoc(Leading(v / 128), v % 128);
      var n := |Leading(v / 128)|;
      if n >= 4 {
        PowMono(3, n - 1);
        assert false;
      }
    }
  }

  lemma {:induction false} PowMono(a: nat, b: nat)
    requires a <= b
    ensures Pow128(a) <= Pow128(b)
    decreases b
  {
    if a < b { PowMono(a, b - 1); }
  }

  /** Bytes b_0..b_k, k < 4, of which only b_k is unmarked, decode to
      Join7(b_0..b_k) and the cursor moves past b_k. */
  lemma DecodeTerminated(data: seq<byte>, pos: nat, k: nat)
    requires k < 4 && pos + k < |data|
    requires forall i :: pos <= i < pos + k ==> Marked(data[i])
    requires !Marked(data[pos + k])
    ensures Decode(data, pos) == Ok(Read(Join7(data[pos..pos + k + 1]), pos + k + 1))
  {
  }

    /** One pass of the reader's loop, with `value` the sum so far shifted
      once: byte `i` adds its seven bits; an unmarked byte ends the
      quantity, and a marked one extends the run and is followed by a shift
      that cannot wrap before the fourth byte. */
  lemma ReadStep(data: seq<byte>, pos: nat, i: nat, value: int)
    requires i < 4 && MarkedRun(data, pos, 4) >= i && pos + i < |data|
    requires value == Join7(data[pos..pos + i]) * 128
    ensures value + Low7(data[pos + i]) == Join7(data[pos..pos + i + 1])
    ensures !Marked(data[pos + i]) ==> Decode(data, pos) == Ok(Read(value + Low7(data[pos + i]), pos + i + 1))
    ensures Marked(data[pos + i]) ==> MarkedRun(data, pos, 4) >= i + 1
    ensures Marked(data[pos + i]) && i + 1 < 4 ==>
      WrapInt32((value + Low7(data[pos + i])) * 128) == Join7(data[pos..pos + (i + 1)]) * 128
    ensures Marked(data[pos + i]) && i + 1 == 4 ==>
      WrapInt32((value + Low7(data[pos + i])) * 128) == WrapInt32(Join7(data[pos..pos + 4]) * 128)
  {
    assert data[pos..pos + i + 1] == data[pos..pos + i] + [data[pos + i]];
    Join7Snoc(data[pos..pos + i], data[pos + i]);
    if !Marked(data[pos + i]) {
      DecodeTerminated(data, pos, i);
    } else if i < 3 {
      ShiftFits(data[pos..pos + i + 1]);
    }
  }

  /** The input ending inside the quantity is the reader's EndOfStream. */
  lemma ReadPastEnd(data: seq<byte>, pos: nat, i: nat)
    requires i < 4 && MarkedRun(data, pos, 4) >= i && pos + i == |data|
    ensures Decode(data, pos) == Err(EndOfStream)
  {
    DecodeFails(data, pos);
  }

  /** Round trip with the standard encoder, for every value below 2^28,
      wherever the encoding sits in the stream and whatever follows it. */
  lemma RoundTrip(before: seq<byte>, v: nat, after: seq<byte>)
    requires v < 0x1000_0000
    ensures Decode(before + Encode(v) + after, |before|)
         == Ok(Read(v, |before| + |Encode(v)|))
  {
    var e := Encode(v);
    var data := before + e + after;
    EncodeShape(v);
    var k := |e| - 1;
    forall i | |before| <= i < |before| + k ensures Marked(data[i]) {
      assert data[i] == e[i - |before|];
    }
    assert data[|before| + k] == e[k];
    DecodeTerminated(data, |before|, k);
    assert data[|before|..|before| + k + 1] == e;
  }

  /** The reader consumes one to four bytes, all of them marked except
      possibly the last, and stops right after the first unmarked byte. */
  lemma DecodeConsumes(data: seq<byte>, pos: nat)
    requires Decode(data, pos).Ok?
    ensures var next := Decode(data, pos).value.next;
      && pos < next <= pos + 4 && next <= |data|
      && (forall i :: pos <= i < next - 1 ==> Marked(data[i]))
      && (next - pos < 4 ==> !Marked(data[next - 1]))
  {
  }

  /** A quantity that ends in an unmarked byte is at most 2^28 - 1. */
  lemma DecodeBound(data: seq<byte>, pos: nat)
    requires Decode(data, pos).Ok?
    requires !Marked(data[Decode(data, pos).value.next - 1])
    ensures 0 <= Decode(data, pos).value.value < 0x1000_0000
  {
    var k := MarkedRun(data, pos, 4);
    assert k < 4;
    Join7Bound(data[pos..pos + k + 1]);
    PowMono(k + 1, 4);
  }

  /** The reader fails exactly when the input ends before an unmarked byte
      and before four bytes have been read. */
  lemma DecodeFails(data: seq<byte>, pos: nat)
    ensures Decode(data, pos).Err? <==>
      (|data| < pos + 4 && forall i :: pos <= i < |data| ==> Marked(data[i]))
    ensures Decode(data, pos).Err? ==> Decode(data, pos).error == EndOfStream
  {
    var k := MarkedRun(data, pos, 4);
    if k == 4 || pos + k < |data| {
      if |data| < pos + 4 {
        assert !Marked(data[pos + k]);
      }
    }
  }

  /** A single byte below 0x80 decodes to itself. */
  lemma DecodeSingle(data: seq<byte>, pos: nat)
    requires pos < |data| && !Marked(data[pos])
    ensures Decode(data, pos) == Ok(Read(data[pos], pos + 1))
  {
    DecodeTerminated(data, pos, 0);
    assert Join7(data[pos..pos + 1]) == Join7([]) * 128 + Low7(data[pos]);
  }

  /** Quirk: four marked bytes get one shift too many, so the result is 128
      times the quantity the four bytes hold, taken modulo 2^32. */
  lemma DecodeFourMarked(data: seq<byte>, pos: nat)
    requires pos + 4 <= |data|
    requires forall i :: pos <= i < pos + 4 ==> Marked(data[i])
    ensures Decode(data, pos).Ok? && Decode(data, pos).value.next == pos + 4
    ensures (Decode(data, pos).value.value - 128 * Join7(data[pos..pos + 4])) % TwoTo32 == 0
  {
  }

  /** Quirk, concretely: FF FF FF FF reads as -128 after the 32-bit wrap, and
      81 80 80 80 reads as 2^28, beyond what the encoding can hold. */
  lemma DecodeFourMarkedExamples()
    ensures Decode([0xFF, 0xFF, 0xFF, 0xFF], 0) == Ok(Read(-128, 4))
    ensures Decode([0x81, 0x80, 0x80, 0x80], 0) == Ok(Read(0x1000_0000, 4))
  {
    var a: seq<byte> := [0xFF, 0xFF, 0xFF, 0xFF];
    assert MarkedRun(a, 0, 4) == 4;
    assert a[0..4] == a;
    assert a[..3][..2] == a[..2] && a[..2][..1] == a[..1] && a[..1][..0] == [];
    assert Join7(a[..1]) == 0x7F;
    assert Join7(a[..2]) == 0x3FFF;
    assert Join7(a[..3]) == 0x1F_FFFF;
    var b: seq<byte> := [0x81, 0x80, 0x80, 0x80];
    assert MarkedRun(b, 0, 4) == 4;
    assert b[0..4] == b;
    assert b[..3][..2] == b[..2] && b[..2][..1] == b[..1] && b[..1][..0] == [];
    assert Join7(b[..1]) == 1;
    assert Join7(b[..2]) == 0x80;
    assert Join7(b[..3]) == 0x4000;
  }
}
