/** MainForm.RunTest as the code runs it: a BinaryReader cursor, a
    BinaryWriter, the volume array updated in place and the loop variables.
    Every method is proved to do what the corresponding function of
    MainForm says. */
module MainFormRun {
  import opened Common
  import VarLen
  import opened BinaryInput
  import opened BinaryOutput
  import opened Synth
  import opened MainForm
  import opened WaveFile

  /** GenerateWaveSamples: fills a fresh array with one note's run and
      returns the phase counter after it. */
  method GenerateWaveSamples(tone: ToneFn, note: int, ms: int, volume: int, stepContinuation: int)
    returns (next: Result<int>, waveData: array<int16>)
    ensures next.Ok? <==> SampleCount(ms) >= 0
    ensures next.Err? ==> next.error == NegativeLengthOverflow
    ensures next.Ok? ==> next.value == stepContinuation + SampleCount(ms)
    ensures next.Ok? ==> waveData[..] == ToneRun(tone, note, volume / 2, SampleCount(ms), stepContinuation)
    ensures fresh(waveData)
  {
    var samples := SampleCount(ms);
    if samples < 0 {
      waveData := new int16[0];
      return Err(NegativeLengthOverflow), waveData;
    }
    waveData := new int16[samples];
    var amp := volume / 2;
    var step := 0;
    while step < samples
      invariant 0 <= step <= samples
      invariant forall k :: 0 <= k < step ==> waveData[k] == Voice(tone, note, amp, k, stepContinuation + k)
    {
      waveData[step] := Voice(tone, note, amp, step, stepContinuation + step);
      step := step + 1;
    }
    return Ok(step + stepContinuation), waveData;
  }

  lemma ShortsSnoc(s: seq<int16>, x: int16)
    ensures Shorts(s + [x]) == Shorts(s) + [I16(x)]
  {
  }

  /** `AddWaveData(writer, short[])`: every sample written as a `short`. */
  method WriteSamples(writer: ByteSink, samples: array<int16>)
    modifies writer
    ensures writer.writes == old(writer.writes) + Shorts(samples[..])
  {
    var i := 0;
    while i < samples.Length
      invariant 0 <= i <= samples.Length
      invariant writer.writes == old(writer.writes) + Shorts(samples[..i])
    {
      assert samples[..i + 1] == samples[..i] + [samples[i]];
      ShortsSnoc(samples[..i], samples[i]);
      writer.WriteInt16(samples[i]);
      i := i + 1;
    }
    assert samples[..i] == samples[..];
  }

  /** `AddWaveData(writer, frequency, ms, volume, stepContinuation)` */
  method AddWaveData(writer: ByteSink, tone: ToneFn, note: int, ms: int, volume: int, stepContinuation: int)
    returns (next: Result<int>)
    modifies writer
    ensures next.Ok? <==> SampleCount(ms) >= 0
    ensures next.Err? ==> next.error == NegativeLengthOverflow && writer.writes == old(writer.writes)
    ensures next.Ok? ==> next.value == stepContinuation + SampleCount(ms)
    ensures next.Ok? ==>
      writer.writes == old(writer.writes) + Shorts(ToneRun(tone, note, volume / 2, SampleCount(ms), stepContinuation))
  {
    var waveData;
    next, waveData := GenerateWaveSamples(tone, note, ms, volume, stepContinuation);
    if next.Ok? {
      WriteSamples(writer, waveData);
    }
  }

  lemma VoicesSnoc(tone: ToneFn, volumes: seq<int>, notes: seq<nat>, note: nat, n: nat, cont: int)
    requires forall j :: 0 <= j < |notes| ==> notes[j] < |volumes|
    requires note < |volumes|
    ensures Voices(tone, volumes, notes + [note], n, cont)
      == Voices(tone, volumes, notes, n, cont) + [ToneRun(tone, note, volumes[note] / 2, n, cont)]
  {
  }

  /** The local state of RunTest once the header has been read. */
  class Decoder {
    const tone: ToneFn
    const ticksPerQuarter: int
    const reader: Reader
    const writer: ByteSink
    const volumes: array<int>
    var runningStatus: byte
    var usPerOffset: int
    var stepContinuation: int
    /** The samples written so far, as the writer's log records them. */
    ghost var wave: seq<int16>

    ghost predicate Valid()
      reads this, reader, writer
    {
      && reader.Valid()
      && volumes.Length == NoteCount
      && writer.writes == Shorts(wave)
      && ticksPerQuarter != 0
    }

    ghost function State(): (m: Machine)
      reads this, reader, volumes
    {
      Machine(reader.pos, runningStatus, usPerOffset, volumes[..], stepContinuation, wave)
    }

    constructor (reader: Reader, tone: ToneFn, ticksPerQuarter: int, usPerOffset: int)
      requires reader.Valid() && ticksPerQuarter != 0
      ensures Valid() && fresh(writer) && fresh(volumes)
      ensures this.reader == reader && this.tone == tone && this.ticksPerQuarter == ticksPerQuarter
      ensures State() == Machine(reader.pos, 0, usPerOffset, Silent(), 0, [])
    {
      this.tone := tone;
      this.ticksPerQuarter := ticksPerQuarter;
      this.reader := reader;
      writer := new ByteSink();
      var table := new int[NoteCount](_ => 0);
      volumes := table;
      runningStatus := 0;
      this.usPerOffset := usPerOffset;
      stepContinuation := 0;
      wave := [];
      new;
      assert volumes[..] == Silent();
    }

    /** The loop over the volume table: one run for each active note, in
        note order, and the phase counter after the (last) run. */
    method CollectRuns(ms: int) returns (r: Result<int>, samplesList: seq<seq<int16>>)
      requires Valid()
      ensures var n := SampleCount(ms); var notes := ActiveNotes(volumes[..]);
        && (r.Ok? <==> notes == [] || n >= 0)
        && (r.Err? ==> r.error == NegativeLengthOverflow)
        && (r.Ok? ==> samplesList == Voices(tone, volumes[..], notes, if n < 0 then 0 else n, stepContinuation))
        && (r.Ok? && notes != [] ==> r.value == stepContinuation + n)
    {
      ghost var n := SampleCount(ms);
      ghost var vol := volumes[..];
      samplesList := [];
      var thisStepContinuation := 0;
      for i := 0 to NoteCount
        invariant samplesList == Voices(tone, vol, ActiveBelow(vol, i), if n < 0 then 0 else n, stepContinuation)
        invariant ActiveBelow(vol, i) != [] ==> n >= 0 && thisStepContinuation == stepContinuation + n
      {
        if volumes[i] > 0 {
          var next, waveData := GenerateWaveSamples(tone, i, ms, volumes[i], stepContinuation);
          if next.Err? {
            assert i in ActiveNotes(vol);
            return Err(next.error), samplesList;
          }
          thisStepContinuation := next.value;
          VoicesSnoc(tone, vol, ActiveBelow(vol, i), i, n, stepContinuation);
          samplesList := samplesList + [waveData[..]];
        }
      }
      assert ActiveBelow(vol, NoteCount) == ActiveNotes(vol);
      return Ok(thisStepContinuation), samplesList;
    }

    /** Sums the runs column by column, saturates each sum to a `short` and
        writes it. */
    method WriteMix(samplesList: seq<seq<int16>>, ghost n: nat)
      requires Valid() && ActiveNotes(volumes[..]) != []
      requires samplesList == Voices(tone, volumes[..], ActiveNotes(volumes[..]), n, stepContinuation)
      modifies this`wave, writer
      ensures Valid()
      ensures wave == old(wave) + Mix(tone, volumes[..], n, stepContinuation)
    {
      ghost var mixed := Mix(tone, volumes[..], n, stepContinuation);
      var count := |samplesList[0]|;
      for k := 0 to count
        invariant Valid()
        invariant wave == old(wave) + mixed[..k]
      {
        var sample := ColumnSum(samplesList, k);
        if sample > 0x7FFF {
          sample := 0x7FFF;
        } else if sample < -0x8000 {
          sample := -0x8000;
        }
        assert sample == mixed[k] as int;
        ShortsSnoc(wave, sample as int16);
        writer.WriteInt16(sample);
        assert mixed[..k + 1] == mixed[..k] + [mixed[k]];
        wave := wave + [sample as int16];
      }
      assert mixed[..count] == mixed;
    }

    /** The `if (offset != 0)` block: one run per active note, mixed, or
        silence when none is active. */
    method CloseInterval(offset: int) returns (r: Result<()>)
      requires Valid()
      modifies this`wave, this`stepContinuation, writer
      ensures Valid()
      ensures match Interval(tone, old(State()), offset)
        case Ok(m) => r == Ok(()) && State() == m
        case Err(e) => r == Err(e)
    {
      if offset == 0 {
        return Ok(());
      }
      var offsetAsMs := TruncDiv(WrapInt32(usPerOffset * offset), 1000);
      ghost var n := SampleCount(offsetAsMs);
      var next, samplesList := CollectRuns(offsetAsMs);
      if next.Err? {
        return Err(next.error);
      }
      if |samplesList| > 0 {
        WriteMix(samplesList, n);
      } else {
        next := AddWaveData(writer, tone, A4, offsetAsMs, 0, stepContinuation);
        if next.Err? {
          return Err(next.error);
        }
        ShortsAppend(wave, ToneRun(tone, A4, 0, n, stepContinuation));
        wave := wave + ToneRun(tone, A4, 0, n, stepContinuation);
      }
      stepContinuation := next.value;
      return Ok(());
    }

    /** The state after an event that `s` describes, and the method's
        outcome: whether the event was End of Track, or the same exception. */
    ghost predicate Did(s: Result<Step>, r: Result<bool>)
      reads this, reader, volumes
    {
      match s
      case Ok(st) => r == Ok(st.endOfTrack) && State() == st.m
      case Err(e) => r == Err(e)
    }

    /** The 0xFF branch, with the cursor after the 0xFF byte; `m` is the
        state before it. */
    method ReadMeta(ghost m: Machine) returns (r: Result<bool>)
      requires Valid() && m.(pos := reader.pos) == State()
      modifies this`runningStatus, this`usPerOffset, reader
      ensures Valid() && Did(Meta(reader.data, ticksPerQuarter, m, old(reader.pos)), r)
    {
      runningStatus := 0;
      var ty :- reader.ReadByte();
      var length :- reader.ReadVariableLengthValue();
      if ty == 0x2F {
        return Ok(true);
      }
      if ty == 0x51 {
        r := ReadTempo(m.(status := 0), length);
        return;
      }
      var skipped :- reader.SkipBytes(length);
      return Ok(false);
    }

    /** The Set Tempo branch, with the cursor after the length. */
    method ReadTempo(ghost m: Machine, length: int) returns (r: Result<bool>)
      requires Valid() && m.(pos := reader.pos) == State()
      modifies this`usPerOffset, reader
      ensures Valid() && Did(Tempo(reader.data, ticksPerQuarter, m, length, old(reader.pos)), r)
    {
      if length < 3 {
        return Err(BadTempoLength);
      }
      var tempo := reader.ReadBytes(3);
      if |tempo| < 3 {
        return Err(IndexOutOfRange);
      }
      var usPerBeat := (tempo[0] as int) * 0x1_0000 + (tempo[1] as int) * 0x100 + tempo[2];
      usPerOffset := TruncDiv(usPerBeat, ticksPerQuarter);
      if length > 3 {
        var rest := reader.ReadBytes(length - 3);
      }
      return Ok(false);
    }

    /** The 0xF0 / 0xF7 branch, with the cursor after that byte. */
    method ReadSysEx(ghost m: Machine) returns (r: Result<bool>)
      requires Valid() && m.(pos := reader.pos) == State()
      modifies this`runningStatus, reader
      ensures Valid() && Did(SysEx(reader.data, m, old(reader.pos)), r)
    {
      runningStatus := 0;
      var length :- reader.ReadVariableLengthValue();
      var skipped :- reader.SkipBytes(length);
      return Ok(false);
    }

    /** A channel event whose first byte `op` has just been read. */
    method ReadChannel(op: byte, ghost m: Machine) returns (r: Result<bool>)
      requires Valid() && m.(pos := reader.pos) == State()
      modifies this`runningStatus, reader, volumes
      ensures Valid() && Did(Channel(reader.data, m, op, old(reader.pos)), r)
    {
      var runningStatusWasUsed := runningStatus != 0;
      if op >= 0x80 {
        runningStatusWasUsed := false;
        runningStatus := op;
      }
      var eventType := runningStatus / 16 * 16;
      runningStatus := op;
      if eventType == 0xC0 || eventType == 0xE0 {
        var param :- reader.ReadByte();
        return Ok(false);
      } else if eventType == 0xF0 {
        return Err(UnsupportedSystemMessage);
      }
      var param1: byte := 0;
      if runningStatusWasUsed {
        param1 := op;
      } else {
        param1 :- reader.ReadByte();
      }
      var param2 :- reader.ReadByte();
      if eventType == 0x80 || eventType == 0x90 {
        if param1 >= volumes.Length {
          return Err(IndexOutOfRange);
        }
        if eventType == 0x90 && param2 != 0 {
          volumes[param1] := NoteOnVolume(param2);
        } else {
          volumes[param1] := 0;
        }
      }
      return Ok(false);
    }

    /** One pass of the `while (true)` loop. */
    method NextEvent() returns (r: Result<bool>)
      requires Valid()
      modifies this, reader, writer, volumes
      ensures Valid() && Did(Event(reader.data, tone, ticksPerQuarter, old(State())), r)
    {
      var offset :- reader.ReadVariableLengthValue();
      var closed :- CloseInterval(offset);
      r := ReadCommand();
    }

    /** The event after its delta time. */
    method ReadCommand() returns (r: Result<bool>)
      requires Valid()
      modifies this`runningStatus, this`usPerOffset, reader, volumes
      ensures Valid() && Did(Command(reader.data, ticksPerQuarter, old(State())), r)
    {
      ghost var m := State();
      var op :- reader.ReadByte();
      if op == 0xFF {
        r := ReadMeta(m);
      } else if op == 0xF0 || op == 0xF7 {
        r := ReadSysEx(m);
      } else {
        r := ReadChannel(op, m);
      }
    }

    /** The events of one track up to End of Track. */
    method ReadEvents() returns (r: Result<()>)
      requires Valid()
      modifies this, reader, writer, volumes
      ensures Valid()
      ensures match TrackEvents(reader.data, tone, ticksPerQuarter, old(State()))
        case Ok(m) => r == Ok(()) && State() == m
        case Err(e) => r == Err(e)
    {
      ghost var goal := TrackEvents(reader.data, tone, ticksPerQuarter, State());
      while true
        invariant Valid() && TrackEvents(reader.data, tone, ticksPerQuarter, State()) == goal
        decreases |reader.data| - reader.pos
      {
        var endOfTrack :- NextEvent();
        if endOfTrack {
          return Ok(());
        }
      }
    }

    /** One iteration of the track loop. */
    method ReadTrack() returns (r: Result<()>)
      requires Valid()
      modifies this, reader, writer, volumes
      ensures Valid()
      ensures match Track(reader.data, tone, ticksPerQuarter, old(State()))
        case Ok(m) => r == Ok(()) && State() == m
        case Err(e) => r == Err(e)
    {
      var mTrk :- reader.ReadInt32BE();
      if mTrk != TrackMagic {
        return Err(InvalidTrackHeader);
      }
      var bytesInTrack :- reader.ReadInt32BE();
      runningStatus := 0;
      stepContinuation := 0;
      r := ReadEvents();
    }

    /** The track loop: `trackCount` chunks, none when it is negative. */
    method ReadTracks(trackCount: int) returns (r: Result<()>)
      requires Valid()
      modifies this, reader, writer, volumes
      ensures Valid()
      ensures match MainForm.Tracks(reader.data, tone, ticksPerQuarter, old(State()), if trackCount > 0 then trackCount else 0)
        case Ok(m) => r == Ok(()) && State() == m
        case Err(e) => r == Err(e)
    {
      ghost var count: nat := if trackCount > 0 then trackCount else 0;
      ghost var goal := MainForm.Tracks(reader.data, tone, ticksPerQuarter, State(), count);
      var trackIndex := 0;
      while trackIndex < trackCount
        invariant 0 <= trackIndex <= count
        invariant Valid()
        invariant MainForm.Tracks(reader.data, tone, ticksPerQuarter, State(), count - trackIndex) == goal
      {
        TracksStep(reader.data, tone, ticksPerQuarter, State(), count - trackIndex);
        var done :- ReadTrack();
        trackIndex := trackIndex + 1;
      }
      return Ok(());
    }
  }

  lemma TracksStep(data: seq<byte>, tone: ToneFn, tpq: int, m: Machine, count: nat)
    requires Valid(m) && tpq != 0 && count > 0
    ensures MainForm.Tracks(data, tone, tpq, m, count) == match Track(data, tone, tpq, m)
      case Ok(m1) => MainForm.Tracks(data, tone, tpq, m1, count - 1)
      case Err(e) => Err(e)
  {
  }

  /** The header chunk's reads, up to the two bytes of the time division. */
  method ReadHeaderChunk(reader: Reader) returns (r: Result<Header>)
    requires reader.Valid() && reader.pos == 0
    modifies reader
    ensures reader.Valid()
    ensures r == ReadHeader(reader.data)
    ensures r.Ok? ==> reader.pos == r.value.next
  {
    var mThd :- reader.ReadInt32BE();
    if mThd != HeaderMagic {
      return Err(InvalidFileHeader);
    }
    var headerSize :- reader.ReadInt32BE();
    var fileType :- reader.ReadInt16BE();
    var trackCount :- reader.ReadInt16BE();
    var ticksPerQuarterNoteMsb :- reader.ReadByte();
    var ticksPerQuarterNoteLsb :- reader.ReadByte();
    var ticksPerQuarterNote := Signed16(ticksPerQuarterNoteLsb as int + (ticksPerQuarterNoteMsb as int) * 256);
    return Ok(Header(headerSize, fileType, trackCount, ticksPerQuarterNote, reader.pos));
  }

  /** What RunTest hands to the sound player: the samples wrapped in a WAVE
      container, or the exception that stopped the decoder. */
  function Output(data: seq<byte>, tone: ToneFn): (r: Result<seq<byte>>)
    ensures r.Ok? <==> Decode(data, tone).Ok?
    ensures r.Err? ==> r.error == Decode(data, tone).error
    ensures r.Ok? ==> IsContainer(r.value, 2 * |Decode(data, tone).value|, PcmBytes(Decode(data, tone).value))
  {
    match Decode(data, tone)
    case Ok(wave) => Ok(SamplesFile(wave))
    case Err(e) => Err(e)
  }

  /** RunTest's decoding, up to the bytes of the samples written. */
  method DecodeFile(data: seq<byte>, tone: ToneFn) returns (r: Result<seq<byte>>)
    ensures match Decode(data, tone)
      case Ok(wave) => r == Ok(PcmBytes(wave))
      case Err(e) => r == Err(e)
  {
    var reader := new Reader(data);
    var header :- ReadHeaderChunk(reader);
    var ticksPerQuarterNote := header.ticksPerQuarter;
    if ticksPerQuarterNote == 0 {
      return Err(DivideByZero);
    }
    var microsecondsPerOffset := TruncDiv(DefaultUsPerBeat, ticksPerQuarterNote);
    var headerRead := 6;
    while headerRead < header.size
      invariant reader.Valid() && reader.data == data
      invariant headerRead < header.size || reader.pos == header.next
      decreases |data| - reader.pos
    {
      var skipped :- reader.ReadByte();
    }
    var decoder := new Decoder(reader, tone, ticksPerQuarterNote, microsecondsPerOffset);
    assert decoder.State() == Initial(header, microsecondsPerOffset);
    var done :- decoder.ReadTracks(header.trackCount);
    r := Ok(decoder.writer.Contents());
  }

  /** RunTest on the bytes of the MIDI file: decoding, then playback. */
  method RunTest(data: seq<byte>, tone: ToneFn) returns (r: Result<seq<byte>>)
    ensures r == Output(data, tone)
  {
    var pcm :- DecodeFile(data, tone);
    var file := PlayWaveData(pcm);
    return Ok(file);
  }
}
