/** The Standard MIDI File decoder of MainForm.RunTest, as a state machine
    over a cursor into the file's bytes. The functions here say what one
    event, one track chunk and the whole file do to the decoder's state;
    MainFormRun performs the same steps imperatively and is proved to agree
    with them.

    The state is the reader position, the running status byte, the current
    microseconds per tick, the 127-entry note volume table, the shared phase
    counter `stepContinuation` and the 16-bit samples written so far. Each
    exception the code throws is an `Err`; nothing is written after one. */
module MainForm {
  import opened Common
  import VarLen
  import opened BinaryInput
  import opened Synth

  /** "MThd" and "MTrk" read as big-endian `int`s. */
  const HeaderMagic: int := 0x4D546864
  const TrackMagic: int := 0x4D54726B

  /** The tempo in force before any Set Tempo event: 120 beats per minute. */
  const DefaultUsPerBeat: int := 500000

  datatype Machine = Machine(
    pos: nat,
    status: byte,
    usPerOffset: int,
    volumes: seq<int>,
    cont: int,
    wave: seq<int16>)

  /** One event's outcome: the new state, and whether it was End of Track. */
  datatype Step = Step(m: Machine, endOfTrack: bool)

  predicate Valid(m: Machine)
  {
    |m.volumes| == NoteCount
  }

  /** What one event keeps: the table size, the samples already written,
      and progress of the cursor. */
  predicate Advances(data: seq<byte>, m: Machine, m': Machine)
  {
    && Valid(m')
    && m.pos < m'.pos <= |data|
    && |m.wave| <= |m'.wave| && m'.wave[..|m.wave|] == m.wave
  }

  /** `(ushort)(16383.0 * (velocity / 40.0))`. For every velocity up to 160
      the product lies at least 1/40 from the next integer, so the cast
      yields the floor of the exact quotient; above that it leaves the
      `ushort` range and the conversion saturates. */
  function NoteOnVolume(velocity: byte): (v: int)
    ensures velocity > 0 <==> v > 0
    ensures 0 <= v < 0x1_0000
    ensures velocity <= 160 ==> v == (16383 * velocity) / 40
  {
    if (16383 * velocity) / 40 > 0xFFFF then 0xFFFF else (16383 * velocity) / 40
  }

  /** A nonzero delta time: the interval's samples are appended and the
      phase counter moves on by their number; a negative sample count is the
      exception `new short[samples]` throws. */
  function Interval(tone: ToneFn, m: Machine, offset: int): (r: Result<Machine>)
    ensures r.Ok? ==> r.value.pos == m.pos && r.value.status == m.status
    ensures r.Ok? ==> r.value.usPerOffset == m.usPerOffset && r.value.volumes == m.volumes
  {
    if offset == 0 then Ok(m)
    else
      var n := SampleCount(OffsetToMs(m.usPerOffset, offset));
      if n < 0 then Err(NegativeLengthOverflow)
      else Ok(m.(wave := m.wave + Mix(tone, m.volumes, n, m.cont), cont := m.cont + n))
  }

  /** A meta event, with the cursor `p` just past its 0xFF byte. */
  function Meta(data: seq<byte>, tpq: int, m: Machine, p: nat): (r: Result<Step>)
    requires tpq != 0
    ensures r.Ok? ==> r.value.m.status == 0 && r.value.m.volumes == m.volumes
    ensures r.Ok? ==> r.value.m.wave == m.wave && r.value.m.cont == m.cont
    ensures r.Ok? ==> p < r.value.m.pos <= |data|
  {
    var ty :- ByteAt(data, p);
    var len :- VarLen.Decode(data, ty.next);
    var cleared := m.(status := 0);
    if ty.value == 0x2F then Ok(Step(cleared.(pos := len.next), true))
    else if ty.value == 0x51 then Tempo(data, tpq, cleared, len.value, len.next)
    else
      var q :- Skip(data, len.next, len.value);
      Ok(Step(cleared.(pos := q), false))
  }

  /** Set Tempo, with the cursor `p` past its length `len`: a length
      under three is rejected, three bytes give the microseconds per beat,
      and the rest of a longer event is read and dropped. */
  function Tempo(data: seq<byte>, tpq: int, m: Machine, len: int, p: nat): (r: Result<Step>)
    requires tpq != 0 && p <= |data|
    ensures r.Ok? <==> len >= 3 && p + 3 <= |data|
    ensures r.Ok? ==> !r.value.endOfTrack && r.value.m == m.(pos := r.value.m.pos, usPerOffset := r.value.m.usPerOffset)
    ensures r.Ok? ==> p + 3 <= r.value.m.pos <= |data|
    ensures r.Err? ==> r.error == if len < 3 then BadTempoLength else IndexOutOfRange
  {
    if len < 3 then Err(BadTempoLength)
    else
      var tempo := Take(data, p, 3);
      if |tempo.value| < 3 then Err(IndexOutOfRange)
      else
        var usPerBeat := (tempo.value[0] as int) * 0x1_0000 + (tempo.value[1] as int) * 0x100 + tempo.value[2];
        var rest := if len > 3 then Take(data, tempo.next, len - 3).next else tempo.next;
        Ok(Step(m.(pos := rest, usPerOffset := TruncDiv(usPerBeat, tpq)), false))
  }

  /** A System Exclusive event (F0 or F7), with `p` just past that byte. */
  function SysEx(data: seq<byte>, m: Machine, p: nat): (r: Result<Step>)
    ensures r.Ok? ==> !r.value.endOfTrack && r.value.m == m.(pos := r.value.m.pos, status := 0)
    ensures r.Ok? ==> p < r.value.m.pos <= |data|
  {
    var len :- VarLen.Decode(data, p);
    var q :- Skip(data, len.next, len.value);
    Ok(Step(m.(pos := q, status := 0), false))
  }

  /** The status byte in force for a channel event starting with `op`: `op`
      itself when bit 7 is set, the running status otherwise. */
  function EventStatus(m: Machine, op: byte): (status: byte)
    ensures op >= 0x80 ==> status == op
    ensures op < 0x80 ==> status == m.status
  {
    if op >= 0x80 then op else m.status
  }

  /** `runningStatus & 0xF0` */
  function EventType(status: byte): (t: byte)
    ensures t % 16 == 0 && t <= status < t + 16
  {
    status / 16 * 16
  }

  /** A channel event, with `op` its first byte and `p` just past it. When
      `op` is a data byte and a running status is set, `op` is the first
      parameter. Whatever `op` was, it becomes the running status. */
  function Channel(data: seq<byte>, m: Machine, op: byte, p: nat): (r: Result<Step>)
    requires Valid(m) && p <= |data|
    ensures r.Ok? ==> r.value.m.status == op && r.value.m.wave == m.wave && r.value.m.cont == m.cont
    ensures r.Ok? ==> r.value.m.usPerOffset == m.usPerOffset && !r.value.endOfTrack
    ensures r.Ok? ==> |r.value.m.volumes| == NoteCount && p <= r.value.m.pos <= |data|
  {
    var usesRunning := m.status != 0 && op < 0x80;
    var eventType := EventType(EventStatus(m, op));
    var next := m.(status := op);
    if eventType == 0xC0 || eventType == 0xE0 then
      var param :- ByteAt(data, p);
      Ok(Step(next.(pos := param.next), false))
    else if eventType == 0xF0 then Err(UnsupportedSystemMessage)
    else
      var param1 :- if usesRunning then Ok(Read(op, p)) else ByteAt(data, p);
      var param2 :- ByteAt(data, param1.next);
      var after := next.(pos := param2.next);
      if eventType == 0x80 || eventType == 0x90 then
        var volumes :- SetVolume(after.volumes, param1.value, if eventType == 0x80 then 0 else NoteOnVolume(param2.value));
        Ok(Step(after.(volumes := volumes), false))
      else Ok(Step(after, false))
  }

  /** One pass of the `while (true)` loop over a track's events: the delta
      time, the interval it closes, then the event itself. */
  function Event(data: seq<byte>, tone: ToneFn, tpq: int, m: Machine): (r: Result<Step>)
    requires Valid(m) && tpq != 0
    ensures r.Ok? ==> Advances(data, m, r.value.m)
  {
    var delta :- VarLen.Decode(data, m.pos);
    var m1 :- Interval(tone, m.(pos := delta.next), delta.value);
    Command(data, tpq, m1)
  }

  /** The event proper, after its delta time: the first byte picks a meta,
      System Exclusive or channel event. */
  function Command(data: seq<byte>, tpq: int, m: Machine): (r: Result<Step>)
    requires Valid(m) && tpq != 0
    ensures r.Ok? ==> Valid(r.value.m) && m.pos < r.value.m.pos <= |data| && r.value.m.wave == m.wave
  {
    var op :- ByteAt(data, m.pos);
    if op.value == 0xFF then Meta(data, tpq, m, op.next)
    else if op.value == 0xF0 || op.value == 0xF7 then SysEx(data, m, op.next)
    else Channel(data, m, op.value, op.next)
  }

  /** The events of one track, up to End of Track or the first failure. */
  function TrackEvents(data: seq<byte>, tone: ToneFn, tpq: int, m: Machine): (r: Result<Machine>)
    requires Valid(m) && tpq != 0 && m.pos <= |data|
    ensures r.Ok? ==> Valid(r.value) && |m.wave| <= |r.value.wave| && r.value.wave[..|m.wave|] == m.wave
    decreases |data| - m.pos
  {
    var s :- Event(data, tone, tpq, m);
    if s.endOfTrack then Ok(s.m) else TrackEvents(data, tone, tpq, s.m)
  }

  /** One track chunk: the MTrk magic and the (unused) length, then the
      events with running status and phase counter reset. */
  function Track(data: seq<byte>, tone: ToneFn, tpq: int, m: Machine): (r: Result<Machine>)
    requires Valid(m) && tpq != 0
    ensures r.Ok? ==> Valid(r.value) && |m.wave| <= |r.value.wave| && r.value.wave[..|m.wave|] == m.wave
  {
    var magic :- Int32BE(data, m.pos);
    if magic.value != TrackMagic then Err(InvalidTrackHeader)
    else
      var size :- Int32BE(data, magic.next);
      TrackEvents(data, tone, tpq, m.(pos := size.next, status := 0, cont := 0))
  }

  /** `count` track chunks one after another. */
  function Tracks(data: seq<byte>, tone: ToneFn, tpq: int, m: Machine, count: nat): (r: Result<Machine>)
    requires Valid(m) && tpq != 0
    ensures r.Ok? ==> Valid(r.value) && |m.wave| <= |r.value.wave| && r.value.wave[..|m.wave|] == m.wave
    decreases count
  {
    if count == 0 then Ok(m)
    else
      var m1 :- Track(data, tone, tpq, m);
      Tracks(data, tone, tpq, m1, count - 1)
  }

  /** The header chunk's fields and the cursor after them. */
  datatype Header = Header(size: int, fileType: int, trackCount: int, ticksPerQuarter: int, next: nat)

  function ReadHeader(data: seq<byte>): (r: Result<Header>)
    ensures r.Ok? ==> r.value.next == 14 <= |data| && -0x8000 <= r.value.ticksPerQuarter < 0x8000
  {
    var magic :- Int32BE(data, 0);
    if magic.value != HeaderMagic then Err(InvalidFileHeader)
    else
      var size :- Int32BE(data, magic.next);
      var fileType :- Int16BE(data, size.next);
      var trackCount :- Int16BE(data, fileType.next);
      var msb :- ByteAt(data, trackCount.next);
      var lsb :- ByteAt(data, msb.next);
      Ok(Header(size.value, fileType.value, trackCount.value,
        Signed16(lsb.value + (msb.value as int) * 256), lsb.next))
  }

  /** The start state of the track loop. */
  function Initial(h: Header, usPerOffset: int): (m: Machine)
    ensures Valid(m)
  {
    Machine(h.next, 0, usPerOffset, Silent(), 0, [])
  }

  /** The samples RunTest writes for a whole file, or the exception it
      stops with. The header-skip loop never advances its counter, so a
      header longer than six bytes reads on until the stream ends. */
  function Decode(data: seq<byte>, tone: ToneFn): (r: Result<seq<int16>>)
    ensures ReadHeader(data).Err? ==> r == Err(ReadHeader(data).error)
    ensures ReadHeader(data).Ok? && ReadHeader(data).value.ticksPerQuarter == 0 ==> r == Err(DivideByZero)
    ensures ReadHeader(data).Ok? && ReadHeader(data).value.ticksPerQuarter != 0 && ReadHeader(data).value.size > 6 ==>
      r == Err(EndOfStream)
  {
    var h :- ReadHeader(data);
    if h.ticksPerQuarter == 0 then Err(DivideByZero)
    else
      var usPerOffset := TruncDiv(DefaultUsPerBeat, h.ticksPerQuarter);
      if h.size > 6 then Err(EndOfStream)
      else
        var m :- Tracks(data, tone, h.ticksPerQuarter, Initial(h, usPerOffset),
          if h.trackCount > 0 then h.trackCount else 0);
        Ok(m.wave)
  }
}
