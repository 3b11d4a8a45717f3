/** Shared vocabulary: bytes, 16-bit samples, the exceptions the decoders can
    raise, and the C# integer arithmetic the source relies on (32-bit
    wrap-around, truncating division, 16-bit reinterpretation). */
module Common {

  type byte = b: int | 0 <= b < 256
  type int16 = s: int | -32768 <= s <= 32767

  const TwoTo31: int := 0x8000_0000
  const TwoTo32: int := 0x1_0000_0000

  /** The exceptions that abort a decode. Each names the .NET exception or
      the message the source throws. */
  datatype Error =
    | EndOfStream               // BinaryReader.ReadByte/ReadInt32/ReadInt16 past the end
    | InvalidFileHeader         // "Invalid midi file header"
    | InvalidTrackHeader        // "Invalid midi track header"
    | DivideByZero              // integer division by a zero ticks-per-quarter-note
    | BadTempoLength            // "Unexpected length of Set Tempo message."
    | IndexOutOfRange           // an array index past the end
    | UnsupportedSystemMessage  // "System Common Messages ... not yet implemented"
    | NegativeLengthOverflow    // new short[n] with n < 0 (C# throws OverflowException)
    | MixingNotSupported        // "Mixing sounds not yet supported."
    | TempoNotImplemented       // "Demo track did not have this message ..."

  datatype Result<+T> = Ok(value: T) | Err(error: Error) {
    predicate IsFailure() { Err? }
    function PropagateFailure<U>(): Result<U> requires Err? { Err(error) }
    function Extract(): T requires Ok? { value }
  }

  /** A value read from a byte sequence together with the cursor after it. */
  datatype Read<+T> = Read(value: T, next: nat)

  /** C#'s unchecked `int` arithmetic: keep the low 32 bits, reinterpret them signed. */
  function WrapInt32(x: int): (r: int)
    ensures -TwoTo31 <= r < TwoTo31
    ensures (r - x) % TwoTo32 == 0
    ensures -TwoTo31 <= x < TwoTo31 ==> r == x
  {
    (x + TwoTo31) % TwoTo32 - TwoTo31
  }

  /** C#'s `(short)` reinterpretation of a 16-bit pattern. */
  function Signed16(x: int): (r: int)
    requires 0 <= x < 0x1_0000
    ensures -0x8000 <= r < 0x8000
    ensures r % 0x1_0000 == x
    ensures x < 0x8000 <==> r >= 0
  {
    if x < 0x8000 then x else x - 0x1_0000
  }

  /** C#'s `int` reinterpretation of a 32-bit pattern. */
  function Signed32(x: int): (r: int)
    requires 0 <= x < TwoTo32
    ensures -TwoTo31 <= r < TwoTo31
    ensures r % TwoTo32 == x
    ensures x < TwoTo31 <==> r >= 0
    ensures r >= 0 ==> r == x
  {
    if x < TwoTo31 then x else x - TwoTo32
  }

  function Abs(x: int): nat { if x < 0 then -x else x }

  /** C#'s integer division, which truncates toward zero (Dafny's `/` is
      Euclidean and differs for a negative dividend). */
  function TruncDiv(a: int, b: int): (q: int)
    requires b != 0
    ensures a >= 0 && b > 0 ==> q == a / b
    ensures a <= 0 && b > 0 ==> q == -((-a) / b)
  {
    if (a < 0) == (b < 0) then Abs(a) / Abs(b) else -(Abs(a) / Abs(b))
  }

  /** The saturating conversion the mixer performs before writing a `short`. */
  function Clamp16(x: int): (r: int16)
    ensures x > 32767 ==> r == 32767
    ensures x < -32768 ==> r == -32768
    ensures -32768 <= x <= 32767 ==> r == x
  {
    if x > 32767 then 32767 else if x < -32768 then -32768 else x
  }

  /** The four ASCII bytes of a chunk tag. */
  function Tag(a: char, b: char, c: char, d: char): (t: seq<byte>)
    requires a as int < 128 && b as int < 128 && c as int < 128 && d as int < 128
    ensures |t| == 4
    ensures t[0] == a as int && t[1] == b as int && t[2] == c as int && t[3] == d as int
  {
    [a as int, b as int, c as int, d as int]
  }
}
