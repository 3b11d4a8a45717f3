/** The earlier decoder in the Form1 constructor, as a state machine over a
    cursor. It knows no running status, plays at most one note at a time,
    writes nothing for an interval in which no note sounds, skips a meta
    event's data before looking at its type, and gives up on every Set
    Tempo event. Form1Run performs the same steps imperatively. */
module Form1 {
  import opened Common
  import VarLen
  import opened BinaryInput
  import opened Synth
  import MainForm

  /** The volume Note On gives every note, whatever its velocity. */
  const NoteOnVolume: int := 16383

  /** The reader position, the volume table and the samples written. */
  datatype State = State(pos: nat, volumes: seq<int>, wave: seq<int16>)

  /** One event's outcome: the new state, and whether it was End of Track. */
  datatype Step = Step(s: State, endOfTrack: bool)

  predicate Valid(s: State)
  {
    |s.volumes| == NoteCount
  }

  /** What one event keeps: the table size, the samples already written,
      and progress of the cursor. */
  predicate Advances(data: seq<byte>, s: State, s': State)
  {
    && Valid(s')
    && s.pos < s'.pos <= |data|
    && |s.wave| <= |s'.wave| && s'.wave[..|s.wave|] == s.wave
  }

  /** Form1's tone generator, applied to the note index, the amplitude and
      the step. Unlike MainForm's it keeps the amplitude constant (no decay)
      and feeds the step itself to the sine, so every run starts from phase
      zero. The floating-point sine is not modelled. */
  type SineFn = (int, int, int) -> int16

  /** One sample: the amplitude times the sine at this step, truncated to
      a short, which is zero when the amplitude is. */
  function Sample(tone: SineFn, note: int, amp: int, step: int): (s: int16)
    ensures amp == 0 ==> s == 0
  {
    if amp == 0 then 0 else tone(note, amp, step)
  }

  /** `AddWaveData(writer, frequency, msDuration, volume)`: `amp = volume >> 2`
      and sample `k` is step `k` of the sine; a negative sample count runs
      the loop zero times. */
  function NoteRun(tone: SineFn, note: int, ms: int, volume: int): (r: seq<int16>)
    ensures |r| == if SampleCount(ms) > 0 then SampleCount(ms) else 0
    ensures forall k :: 0 <= k < |r| ==> r[k] == Sample(tone, note, volume / 4, k)
    ensures volume / 4 == 0 ==> forall k :: 0 <= k < |r| ==> r[k] == 0
  {
    var n := SampleCount(ms);
    var m := if n > 0 then n else 0;
    seq<int16>(m, k requires 0 <= k < m => Sample(tone, note, volume / 4, k))
  }

  /** A nonzero delta time: more than one sounding note is an error, one
      note writes its run, and no sounding note writes nothing. */
  function Interval(tone: SineFn, usPerOffset: int, s: State, offset: int): (r: Result<State>)
    requires Valid(s)
    ensures r.Ok? ==> r.value.pos == s.pos && r.value.volumes == s.volumes
    ensures r.Ok? ==> |s.wave| <= |r.value.wave| && r.value.wave[..|s.wave|] == s.wave
    ensures r.Err? ==> r.error == MixingNotSupported
  {
    var active := ActiveNotes(s.volumes);
    if offset == 0 || active == [] then Ok(s)
    else if |active| > 1 then Err(MixingNotSupported)
    else
      var run := NoteRun(tone, active[0], OffsetToMs(usPerOffset, offset), s.volumes[active[0]]);
      Ok(s.(wave := s.wave + run))
  }

  /** More than one sounding note stops the decoder at the first nonzero
      delta time. */
  lemma MixingFails(tone: SineFn, usPerOffset: int, s: State, offset: int)
    requires Valid(s) && offset != 0 && |ActiveNotes(s.volumes)| > 1
    ensures Interval(tone, usPerOffset, s, offset) == Err(MixingNotSupported)
  {
  }

  /** An interval in which no note sounds writes nothing: Form1 drops
      rests instead of writing silence. */
  lemma SilenceDropped(tone: SineFn, usPerOffset: int, s: State, offset: int)
    requires Valid(s) && (forall x :: 0 <= x < NoteCount ==> s.volumes[x] <= 0)
    ensures Interval(tone, usPerOffset, s, offset) == Ok(s)
  {
    NoneSounding(s.volumes);
  }

  /** With one note sounding, a nonzero delta time appends that note's run
      and nothing else changes. */
  lemma SingleNoteInterval(tone: SineFn, usPerOffset: int, s: State, offset: int, note: nat)
    requires Valid(s) && offset != 0 && ActiveNotes(s.volumes) == [note]
    ensures note < NoteCount && s.volumes[note] > 0
    ensures Interval(tone, usPerOffset, s, offset)
      == Ok(s.(wave := s.wave + NoteRun(tone, note, OffsetToMs(usPerOffset, offset), s.volumes[note])))
  {
    assert ActiveNotes(s.volumes)[0] == note;
  }

  /** A meta event, with `p` just past its 0xFF byte: its data is skipped
      first; then Set Tempo fails either way and End of Track ends the
      track. */
  function Meta(data: seq<byte>, s: State, p: nat): (r: Result<Step>)
    ensures r.Ok? ==> r.value.s.volumes == s.volumes && r.value.s.wave == s.wave
    ensures r.Ok? ==> p < r.value.s.pos <= |data|
    ensures r.Err? ==> r.error in {EndOfStream, BadTempoLength, TempoNotImplemented}
  {
    var ty :- ByteAt(data, p);
    var len :- VarLen.Decode(data, ty.next);
    var q :- Skip(data, len.next, len.value);
    if ty.value == 0x51 then
      if len.value != 3 then Err(BadTempoLength) else Err(TempoNotImplemented)
    else Ok(Step(s.(pos := q), ty.value == 0x2F))
  }

  /** A System Exclusive event (F0 or F7), with `p` just past that byte. */
  function SysEx(data: seq<byte>, s: State, p: nat): (r: Result<Step>)
    ensures r.Ok? ==> !r.value.endOfTrack && r.value.s == s.(pos := r.value.s.pos)
    ensures r.Ok? ==> p < r.value.s.pos <= |data|
    ensures r.Err? ==> r.error == EndOfStream
  {
    var len :- VarLen.Decode(data, p);
    var q :- Skip(data, len.next, len.value);
    Ok(Step(s.(pos := q), false))
  }

  /** Any other event: two parameter bytes, whatever `op` is. */
  function Channel(data: seq<byte>, s: State, op: byte, p: nat): (r: Result<Step>)
    requires Valid(s)
    ensures r.Ok? ==> r.value.s.pos == p + 2 <= |data| && r.value.s.wave == s.wave
    ensures r.Ok? ==> |r.value.s.volumes| == NoteCount && !r.value.endOfTrack
    ensures r.Err? ==> r.error == EndOfStream || r.error == IndexOutOfRange
  {
    var param1 :- ByteAt(data, p);
    var param2 :- ByteAt(data, param1.next);
    var eventType := MainForm.EventType(op);
    var after := s.(pos := param2.next);
    if eventType == 0x80 || eventType == 0x90 then
      var volumes :- SetVolume(after.volumes, param1.value, if eventType == 0x90 && param2.value != 0 then NoteOnVolume else 0);
      Ok(Step(after.(volumes := volumes), false))
    else Ok(Step(after, false))
  }

  /** One pass of the `while (true)` loop over a track's events. */
  function Event(data: seq<byte>, tone: SineFn, usPerOffset: int, s: State): (r: Result<Step>)
    requires Valid(s)
    ensures r.Ok? ==> Advances(data, s, r.value.s)
  {
    var delta :- VarLen.Decode(data, s.pos);
    var s1 :- Interval(tone, usPerOffset, s.(pos := delta.next), delta.value);
    var op :- ByteAt(data, s1.pos);
    if op.value == 0xFF then Meta(data, s1, op.next)
    else if op.value == 0xF0 || op.value == 0xF7 then SysEx(data, s1, op.next)
    else Channel(data, s1, op.value, op.next)
  }

  /** The events of one track, up to End of Track or the first failure. */
  function TrackEvents(data: seq<byte>, tone: SineFn, usPerOffset: int, s: State): (r: Result<State>)
    requires Valid(s) && s.pos <= |data|
    ensures r.Ok? ==> Valid(r.value) && |s.wave| <= |r.value.wave| && r.value.wave[..|s.wave|] == s.wave
    decreases |data| - s.pos
  {
    var st :- Event(data, tone, usPerOffset, s);
    if st.endOfTrack then Ok(st.s) else TrackEvents(data, tone, usPerOffset, st.s)
  }

  /** One track chunk: the MTrk magic, the unused length, the events. */
  function Track(data: seq<byte>, tone: SineFn, usPerOffset: int, s: State): (r: Result<State>)
    requires Valid(s)
    ensures r.Ok? ==> Valid(r.value) && |s.wave| <= |r.value.wave| && r.value.wave[..|s.wave|] == s.wave
  {
    var magic :- Int32BE(data, s.pos);
    if magic.value != MainForm.TrackMagic then Err(InvalidTrackHeader)
    else
      var size :- Int32BE(data, magic.next);
      TrackEvents(data, tone, usPerOffset, s.(pos := size.next))
  }

  /** `count` track chunks one after another. */
  function Tracks(data: seq<byte>, tone: SineFn, usPerOffset: int, s: State, count: nat): (r: Result<State>)
    requires Valid(s)
    ensures r.Ok? ==> Valid(r.value) && |s.wave| <= |r.value.wave| && r.value.wave[..|s.wave|] == s.wave
    decreases count
  {
    if count == 0 then Ok(s)
    else
      var s1 :- Track(data, tone, usPerOffset, s);
      Tracks(data, tone, usPerOffset, s1, count - 1)
  }

  /** The header chunk, with the time division read as one big-endian
      `short`. */
  function ReadHeader(data: seq<byte>): (r: Result<MainForm.Header>)
    ensures r.Ok? ==> r.value.next == 14 <= |data|
  {
    var magic :- Int32BE(data, 0);
    if magic.value != MainForm.HeaderMagic then Err(InvalidFileHeader)
    else
      var size :- Int32BE(data, magic.next);
      var fileType :- Int16BE(data, size.next);
      var trackCount :- Int16BE(data, fileType.next);
      var ticks :- Int16BE(data, trackCount.next);
      Ok(MainForm.Header(size.value, fileType.value, trackCount.value, ticks.value, ticks.next))
  }

  /** The number of chunks the track loop reads: the loop index starts at
      one for a type 1 file, so one chunk fewer than the header announces. */
  function TrackLoopCount(h: MainForm.Header): (n: nat)
    ensures h.fileType != 1 ==> n == if h.trackCount > 0 then h.trackCount else 0
    ensures h.fileType == 1 ==> n == if h.trackCount > 1 then h.trackCount - 1 else 0
  {
    LoopCount(if h.fileType == 1 then 1 else 0, h.trackCount)
  }

  /** The passes of `for (; trackIndex < trackCount; trackIndex++)` from
      `first`. */
  function LoopCount(first: int, trackCount: int): (n: nat)
    ensures first < trackCount ==> n == trackCount - first
    ensures trackCount <= first ==> n == 0
  {
    if trackCount > first then trackCount - first else 0
  }

  /** The samples the Form1 constructor writes for a whole file, or the
      exception it stops with. */
  function Decode(data: seq<byte>, tone: SineFn): (r: Result<seq<int16>>)
    ensures Prepare(data).Err? ==> r == Err(Prepare(data).error)
    ensures r.Ok? ==> Prepare(data).Ok?
  {
    var h :- Prepare(data);
    var usPerOffset := TruncDiv(MainForm.DefaultUsPerBeat, h.ticksPerQuarter);
    var s :- Tracks(data, tone, usPerOffset, State(h.next, Silent(), []), TrackLoopCount(h));
    Ok(s.wave)
  }

  /** Everything before the first track: the header is read, the time
      division divides the default tempo, and the skip loop for a longer
      header, which never advances its counter, reads until the stream
      ends. */
  function Prepare(data: seq<byte>): (r: Result<MainForm.Header>)
    ensures r.Ok? <==> ReadHeader(data).Ok? && ReadHeader(data).value.ticksPerQuarter != 0 && ReadHeader(data).value.size <= 6
    ensures r.Ok? ==> r == ReadHeader(data)
    ensures r.Err? && ReadHeader(data).Ok? ==>
      r.error == if ReadHeader(data).value.ticksPerQuarter == 0 then DivideByZero else EndOfStream
  {
    var h :- ReadHeader(data);
    if h.ticksPerQuarter == 0 then Err(DivideByZero)
    else if h.size > 6 then Err(EndOfStream)
    else Ok(h)
  }
}
