/** System.IO.BinaryReader over a fully buffered file, as the decoders use
    it: a byte sequence and a cursor. The functions state what each read
    yields at a given cursor; the `Reader` class performs the reads in place
    and is proved to agree with them. A read that runs past the end throws
    EndOfStreamException after consuming what was left, so a failed read
    leaves the cursor at the end. */
module BinaryInput {
  import opened Common
  import VarLen

  /** `ReadByte()` */
  function ByteAt(data: seq<byte>, pos: nat): (r: Result<Read<byte>>)
    ensures r.Ok? <==> pos < |data|
    ensures r.Ok? ==> r.value == Read(data[pos], pos + 1)
    ensures r.Err? ==> r.error == EndOfStream
  {
    if pos < |data| then Ok(Read(data[pos], pos + 1)) else Err(EndOfStream)
  }

  /** The big-endian 32-bit pattern of four bytes. */
  function BE32(b0: byte, b1: byte, b2: byte, b3: byte): (x: int)
    ensures 0 <= x < TwoTo32
  {
    (((b0 as int) * 256 + b1) * 256 + b2) * 256 + b3
  }

  /** `BinaryPrimitives.ReverseEndianness(ReadInt32())`: a signed big-endian
      32-bit integer. */
  function Int32BE(data: seq<byte>, pos: nat): (r: Result<Read<int>>)
    ensures r.Ok? <==> pos + 4 <= |data|
    ensures r.Ok? ==> r.value.next == pos + 4 && -TwoTo31 <= r.value.value < TwoTo31
    ensures r.Ok? ==> r.value.value % TwoTo32 == BE32(data[pos], data[pos + 1], data[pos + 2], data[pos + 3])
    ensures r.Ok? ==> (r.value.value >= 0 <==> BE32(data[pos], data[pos + 1], data[pos + 2], data[pos + 3]) < TwoTo31)
    ensures r.Ok? && r.value.value >= 0 ==> r.value.value == BE32(data[pos], data[pos + 1], data[pos + 2], data[pos + 3])
    ensures r.Err? ==> r.error == EndOfStream
  {
    if pos + 4 <= |data| then
      Ok(Read(Signed32(BE32(data[pos], data[pos + 1], data[pos + 2], data[pos + 3])), pos + 4))
    else Err(EndOfStream)
  }

  /** `BinaryPrimitives.ReverseEndianness(ReadInt16())`: a signed big-endian
      16-bit integer. */
  function Int16BE(data: seq<byte>, pos: nat): (r: Result<Read<int>>)
    ensures r.Ok? <==> pos + 2 <= |data|
    ensures r.Ok? ==> r.value.next == pos + 2 && -0x8000 <= r.value.value < 0x8000
    ensures r.Ok? ==> r.value.value % 0x1_0000 == (data[pos] as int) * 256 + data[pos + 1]
    ensures r.Err? ==> r.error == EndOfStream
  {
    if pos + 2 <= |data| then Ok(Read(Signed16((data[pos] as int) * 256 + data[pos + 1]), pos + 2))
    else Err(EndOfStream)
  }

  /** `for (int i = 0; i < n; i++) reader.ReadByte();` — skips exactly `n`
      bytes, none when `n` is not positive, and fails if fewer remain. */
  function Skip(data: seq<byte>, pos: nat, n: int): (r: Result<nat>)
    ensures n <= 0 ==> r == Ok(pos)
    ensures n > 0 ==> (r.Ok? <==> pos + n <= |data|)
    ensures r.Ok? && n > 0 ==> r.value == pos + n
    ensures r.Err? ==> r.error == EndOfStream
  {
    if n <= 0 then Ok(pos) else if pos + n <= |data| then Ok(pos + n) else Err(EndOfStream)
  }

  /** `ReadBytes(n)`: up to `n` bytes; at the end of the stream it returns
      fewer instead of throwing. */
  function Take(data: seq<byte>, pos: nat, n: nat): (r: Read<seq<byte>>)
    requires pos <= |data|
    ensures r.next <= |data| && r.next == pos + |r.value|
    ensures |r.value| == if pos + n <= |data| then n else |data| - pos
    ensures r.value == data[pos..r.next]
  {
    var end := if pos + n <= |data| then pos + n else |data|;
    Read(data[pos..end], end)
  }

  class Reader {
    const data: seq<byte>
    var pos: nat

    ghost predicate Valid()
      reads this
    {
      pos <= |data|
    }

    /** The cursor after a read whose outcome is `s`, and the value `r` the
        class method hands back: on success what the function read, on
        failure the same exception with the stream exhausted. */
    ghost predicate Did<T>(s: Result<Read<T>>, r: Result<T>)
      reads this
    {
      match s
      case Ok(rd) => r == Ok(rd.value) && pos == rd.next
      case Err(e) => r == Err(e) && pos == |data|
    }

    constructor (bytes: seq<byte>)
      ensures Valid() && data == bytes && pos == 0
    {
      data := bytes;
      pos := 0;
    }

    method ReadByte() returns (r: Result<byte>)
      requires Valid()
      modifies this
      ensures Valid() && Did(ByteAt(data, old(pos)), r)
    {
      if pos < |data| {
        r := Ok(data[pos]);
        pos := pos + 1;
      } else {
        r := Err(EndOfStream);
      }
    }

    method ReadInt32BE() returns (r: Result<int>)
      requires Valid()
      modifies this
      ensures Valid() && Did(Int32BE(data, old(pos)), r)
    {
      if pos + 4 <= |data| {
        r := Ok(Signed32(BE32(data[pos], data[pos + 1], data[pos + 2], data[pos + 3])));
        pos := pos + 4;
      } else {
        r := Err(EndOfStream);
        pos := |data|;
      }
    }

    method ReadInt16BE() returns (r: Result<int>)
      requires Valid()
      modifies this
      ensures Valid() && Did(Int16BE(data, old(pos)), r)
    {
      if pos + 2 <= |data| {
        r := Ok(Signed16((data[pos] as int) * 256 + data[pos + 1]));
        pos := pos + 2;
      } else {
        r := Err(EndOfStream);
        pos := |data|;
      }
    }

    method ReadBytes(n: nat) returns (bytes: seq<byte>)
      requires Valid()
      modifies this
      ensures Valid()
      ensures bytes == Take(data, old(pos), n).value && pos == Take(data, old(pos), n).next
    {
      var end := if pos + n <= |data| then pos + n else |data|;
      bytes := data[pos..end];
      pos := end;
    }

    /** Reads and discards `n` bytes one at a time. */
    method SkipBytes(n: int) returns (r: Result<()>)
      requires Valid()
      modifies this
      ensures Valid()
      ensures match Skip(data, old(pos), n)
        case Ok(p) => r == Ok(()) && pos == p
        case Err(e) => r == Err(e) && pos == |data|
    {
      var i := 0;
      while i < n
        invariant Valid()
        invariant 0 <= i && (n > 0 ==> i <= n) && (n <= 0 ==> i == 0)
        invariant pos == old(pos) + i
      {
        var b :- ReadByte();
        i := i + 1;
      }
      return Ok(());
    }

    /** BinaryReaderExtensions.ReadVariableLengthValue: at most four bytes;
        each adds its low seven bits, an unmarked byte ends the loop, and a
        marked one shifts the sum left by seven (with int wrap-around). */
    method ReadVariableLengthValue() returns (r: Result<int>)
      requires Valid()
      modifies this
      ensures Valid() && Did(VarLen.Decode(data, old(pos)), r)
    {
      ghost var start := pos;
      var value := 0;
      var i := 0;
      while i < 4
        invariant Valid()
        invariant 0 <= i <= 4 && pos == start + i
        invariant VarLen.MarkedRun(data, start, 4) >= i
        invariant i < 4 ==> value == VarLen.Join7(data[start..start + i]) * 128
        invariant i == 4 ==> value == WrapInt32(VarLen.Join7(data[start..start + 4]) * 128)
      {
        if pos == |data| {
          VarLen.ReadPastEnd(data, start, i);
        }
        var rb := ReadByte();
        if rb.Err? {
          return Err(rb.error);
        }
        var b := rb.value;
        VarLen.ReadStep(data, start, i, value);
        value := value + VarLen.Low7(b);
        if b < 128 {
          return Ok(value);
        }
        value := WrapInt32(value * 128);
        i := i + 1;
      }
      return Ok(value);
    }
  }
}
