/** The Form1 constructor's decoder as the code runs it: a BinaryReader
    cursor, a BinaryWriter and the volume array updated in place. Every
    method is proved to do what the corresponding function of Form1 says. */
module Form1Run {
  import opened Common
  import opened BinaryInput
  import opened BinaryOutput
  import opened Synth
  import MainForm
  import opened Form1
  import WaveFile

  /** Form1's `AddWaveData`: one sample per step, written as it is made. */
  method AddWaveData(writer: ByteSink, tone: SineFn, note: int, msDuration: int, volume: int)
    modifies writer
    ensures writer.writes == old(writer.writes) + Shorts(NoteRun(tone, note, msDuration, volume))
  {
    var samples := SampleCount(msDuration);
    ghost var run := NoteRun(tone, note, msDuration, volume);
    var amp := volume / 4;
    var step := 0;
    while step < samples
      invariant 0 <= step && (samples > 0 ==> step <= samples) && (samples <= 0 ==> step == 0)
      invariant writer.writes == old(writer.writes) + Shorts(run[..step])
    {
      var s := Sample(tone, note, amp, step);
      assert run[..step + 1] == run[..step] + [s];
      assert Shorts(run[..step + 1]) == Shorts(run[..step]) + [I16(s)];
      writer.WriteInt16(s);
      step := step + 1;
    }
    assert run[..step] == run;
  }

  /** The local state of the constructor once the header has been read. */
  class Decoder {
    const tone: SineFn
    const usPerOffset: int
    const reader: Reader
    const writer: ByteSink
    const volumes: array<int>
    /** The samples written so far, as the writer's log records them. */
    ghost var wave: seq<int16>

    ghost predicate Valid()
      reads this, reader, writer
    {
      && reader.Valid()
      && volumes.Length == NoteCount
      && writer.writes == Shorts(wave)
    }

    ghost function State(): (s: Form1.State)
      reads this, reader, volumes
    {
      Form1.State.State(reader.pos, volumes[..], wave)
    }

    constructor (reader: Reader, tone: SineFn, usPerOffset: int)
      requires reader.Valid()
      ensures Valid() && fresh(writer) && fresh(volumes)
      ensures this.reader == reader && this.tone == tone && this.usPerOffset == usPerOffset
      ensures State() == Form1.State.State(reader.pos, Silent(), [])
    {
      this.tone := tone;
      this.usPerOffset := usPerOffset;
      this.reader := reader;
      writer := new ByteSink();
      var table := new int[NoteCount](_ => 0);
      volumes := table;
      wave := [];
      new;
      assert volumes[..] == Silent();
    }

    /** `midiFrequencyVolumes.Count(v => v > 0)` */
    method CountSounding() returns (count: int)
      requires volumes.Length == NoteCount
      ensures count == |ActiveNotes(volumes[..])|
    {
      ghost var vol := volumes[..];
      count := 0;
      for i := 0 to NoteCount
        invariant count == |ActiveBelow(vol, i)|
      {
        ActiveBelowCount(vol, i);
        assert volumes[i] == vol[i];
        if volumes[i] > 0 {
          count := count + 1;
        }
      }
      assert ActiveBelow(vol, NoteCount) == ActiveNotes(vol);
    }

    /** The `if (offset != 0)` block: the first sounding note is played,
        unless more than one sounds. */
    method CloseInterval(offset: int) returns (r: Result<()>)
      requires Valid()
      modifies this`wave, writer
      ensures Valid()
      ensures match Interval(tone, usPerOffset, old(State()), offset)
        case Ok(s) => r == Ok(()) && State() == s
        case Err(e) => r == Err(e)
    {
      if offset == 0 {
        return Ok(());
      }
      ghost var vol := volumes[..];
      for i := 0 to volumes.Length
        invariant Valid() && wave == old(wave)
        invariant ActiveBelow(vol, i) == []
      {
        var offsetAsMs := TruncDiv(WrapInt32(usPerOffset * offset), 1000);
        var sounding := CountSounding();
        if sounding > 1 {
          MixingFails(tone, usPerOffset, State(), offset);
          return Err(MixingNotSupported);
        }
        if volumes[i] > 0 {
          OnlySounding(vol, i);
          SingleNoteInterval(tone, usPerOffset, State(), offset, i);
          PlaySole(i, offsetAsMs);
          return Ok(());
        }
      }
      assert ActiveNotes(vol) == [];
      return Ok(());
    }

    /** The one sounding note's run, written for the interval. */
    method PlaySole(note: nat, offsetAsMs: int)
      requires Valid() && note < NoteCount
      modifies this`wave, writer
      ensures Valid()
      ensures wave == old(wave) + NoteRun(tone, note, offsetAsMs, volumes[note])
    {
      ghost var run := NoteRun(tone, note, offsetAsMs, volumes[note]);
      AddWaveData(writer, tone, note, offsetAsMs, volumes[note]);
      ShortsAppend(wave, run);
      wave := wave + run;
    }

    /** The state after an event that `s` describes, and the method's
        outcome: whether the event was End of Track, or the same exception. */
    ghost predicate Did(s: Result<Step>, r: Result<bool>)
      reads this, reader, volumes
    {
      match s
      case Ok(st) => r == Ok(st.endOfTrack) && State() == st.s
      case Err(e) => r == Err(e)
    }

    /** The 0xFF branch, with the cursor after the 0xFF byte; `s` is the
        state before it. */
    method ReadMeta(ghost s: State) returns (r: Result<bool>)
      requires Valid() && s.(pos := reader.pos) == State()
      modifies reader
      ensures Valid() && Did(Meta(reader.data, s, old(reader.pos)), r)
    {
      var ty :- reader.ReadByte();
      var length :- reader.ReadVariableLengthValue();
      var skipped :- reader.SkipBytes(length);
      if ty == 0x51 {
        if length != 3 {
          return Err(BadTempoLength);
        }
        var tempo := reader.ReadBytes(3);
        return Err(TempoNotImplemented);
      }
      return Ok(ty == 0x2F);
    }

    /** The 0xF0 / 0xF7 branch, with the cursor after that byte. */
    method ReadSysEx(ghost s: State) returns (r: Result<bool>)
      requires Valid() && s.(pos := reader.pos) == State()
      modifies reader
      ensures Valid() && Did(SysEx(reader.data, s, old(reader.pos)), r)
    {
      var length :- reader.ReadVariableLengthValue();
      var skipped :- reader.SkipBytes(length);
      return Ok(false);
    }

    /** Any other event, whose first byte `op` has just been read. */
    method ReadChannel(op: byte, ghost s: State) returns (r: Result<bool>)
      requires Valid() && s.(pos := reader.pos) == State()
      modifies reader, volumes
      ensures Valid() && Did(Channel(reader.data, s, op, old(reader.pos)), r)
    {
      var eventType := op / 16 * 16;
      var param1 :- reader.ReadByte();
      var param2 :- reader.ReadByte();
      if eventType == 0x80 || eventType == 0x90 {
        if param1 >= volumes.Length {
          return Err(IndexOutOfRange);
        }
        if eventType == 0x90 && param2 != 0 {
          volumes[param1] := NoteOnVolume;
        } else {
          volumes[param1] := 0;
        }
      }
      return Ok(false);
    }

    /** One pass of the `while (true)` loop. */
    method NextEvent() returns (r: Result<bool>)
      requires Valid()
      modifies this`wave, reader, writer, volumes
      ensures Valid() && Did(Event(reader.data, tone, usPerOffset, old(State())), r)
    {
      var offset :- reader.ReadVariableLengthValue();
      var closed :- CloseInterval(offset);
      ghost var s1 := State();
      var op :- reader.ReadByte();
      if op == 0xFF {
        r := ReadMeta(s1);
      } else if op == 0xF0 || op == 0xF7 {
        r := ReadSysEx(s1);
      } else {
        r := ReadChannel(op, s1);
      }
    }

    /** The events of one track up to End of Track. */
    method ReadEvents() returns (r: Result<()>)
      requires Valid()
      modifies this`wave, reader, writer, volumes
      ensures Valid()
      ensures match TrackEvents(reader.data, tone, usPerOffset, old(State()))
        case Ok(s) => r == Ok(()) && State() == s
        case Err(e) => r == Err(e)
    {
      ghost var goal := TrackEvents(reader.data, tone, usPerOffset, State());
      while true
        invariant Valid() && TrackEvents(reader.data, tone, usPerOffset, State()) == goal
        decreases |reader.data| - reader.pos
      {
        var endOfTrack :- NextEvent();
        if endOfTrack {
          return Ok(());
        }
      }
    }

    /** One iteration of the track loop. */
    method ReadTrack() returns (r: Result<()>)
      requires Valid()
      modifies this`wave, reader, writer, volumes
      ensures Valid()
      ensures match Track(reader.data, tone, usPerOffset, old(State()))
        case Ok(s) => r == Ok(()) && State() == s
        case Err(e) => r == Err(e)
    {
      var mTrk :- reader.ReadInt32BE();
      if mTrk != MainForm.TrackMagic {
        return Err(InvalidTrackHeader);
      }
      var bytesInTrack :- reader.ReadInt32BE();
      r := ReadEvents();
    }

    /** `for (; trackIndex < trackCount; trackIndex++)` from `first`. */
    method ReadTracks(first: int, trackCount: int) returns (r: Result<()>)
      requires Valid()
      modifies this`wave, reader, writer, volumes
      ensures Valid()
      ensures match Tracks(reader.data, tone, usPerOffset, old(State()), LoopCount(first, trackCount))
        case Ok(s) => r == Ok(()) && State() == s
        case Err(e) => r == Err(e)
    {
      ghost var count := LoopCount(first, trackCount);
      ghost var goal := Tracks(reader.data, tone, usPerOffset, State(), count);
      var trackIndex := first;
      ghost var left := count;
      while trackIndex < trackCount
        invariant left == if trackIndex < trackCount then trackCount - trackIndex else 0
        invariant Valid()
        invariant Tracks(reader.data, tone, usPerOffset, State(), left) == goal
        decreases left
      {
        TracksStep(reader.data, tone, usPerOffset, State(), left);
        var done :- ReadTrack();
        trackIndex := trackIndex + 1;
        left := left - 1;
      }
      return Ok(());
    }
  }

  lemma TracksStep(data: seq<byte>, tone: SineFn, usPerOffset: int, s: Form1.State, count: nat)
    requires Form1.Valid(s) && count > 0
    ensures Tracks(data, tone, usPerOffset, s, count) == match Track(data, tone, usPerOffset, s)
      case Ok(s1) => Tracks(data, tone, usPerOffset, s1, count - 1)
      case Err(e) => Err(e)
  {
  }

  /** The header chunk's reads. */
  method ReadHeaderChunk(reader: Reader) returns (r: Result<MainForm.Header>)
    requires reader.Valid() && reader.pos == 0
    modifies reader
    ensures reader.Valid()
    ensures r == ReadHeader(reader.data)
    ensures r.Ok? ==> reader.pos == r.value.next
  {
    var mThd :- reader.ReadInt32BE();
    if mThd != MainForm.HeaderMagic {
      return Err(InvalidFileHeader);
    }
    var headerSize :- reader.ReadInt32BE();
    var fileType :- reader.ReadInt16BE();
    var trackCount :- reader.ReadInt16BE();
    var ticksPerQuarterNote :- reader.ReadInt16BE();
    return Ok(MainForm.Header(headerSize, fileType, trackCount, ticksPerQuarterNote, reader.pos));
  }

  /** The header, the tempo division and the header skip loop. */
  method ReadPreamble(reader: Reader) returns (r: Result<MainForm.Header>)
    requires reader.Valid() && reader.pos == 0
    modifies reader
    ensures reader.Valid()
    ensures r == Prepare(reader.data)
    ensures r.Ok? ==> reader.pos == r.value.next
  {
    var header :- ReadHeaderChunk(reader);
    var ticksPerQuarterNote := header.ticksPerQuarter;
    if ticksPerQuarterNote == 0 {
      return Err(DivideByZero);
    }
    var headerRead := 6;
    while headerRead < header.size
      invariant reader.Valid()
      invariant headerRead < header.size || reader.pos == header.next
      decreases |reader.data| - reader.pos
    {
      var skipped :- reader.ReadByte();
    }
    return Ok(header);
  }

  /** What the constructor hands to the sound player. */
  function Output(data: seq<byte>, tone: SineFn): (r: Result<seq<byte>>)
    ensures r.Ok? <==> Form1.Decode(data, tone).Ok?
    ensures r.Err? ==> r.error == Form1.Decode(data, tone).error
    ensures r.Ok? ==> WaveFile.IsContainer(r.value, 2 * |Form1.Decode(data, tone).value|, PcmBytes(Form1.Decode(data, tone).value))
  {
    match Form1.Decode(data, tone)
    case Ok(wave) => Ok(WaveFile.SamplesFile(wave))
    case Err(e) => Err(e)
  }

  /** The constructor's decoding, up to the bytes of the samples written. */
  method DecodeFile(data: seq<byte>, tone: SineFn) returns (r: Result<seq<byte>>)
    ensures match Form1.Decode(data, tone)
      case Ok(wave) => r == Ok(PcmBytes(wave))
      case Err(e) => r == Err(e)
  {
    var reader := new Reader(data);
    var header :- ReadPreamble(reader);
    var microsecondsPerOffset := TruncDiv(MainForm.DefaultUsPerBeat, header.ticksPerQuarter);
    var decoder := new Decoder(reader, tone, microsecondsPerOffset);
    assert decoder.State() == Form1.State.State(header.next, Silent(), []);
    var trackIndex := 0;
    if header.fileType == 1 {
      trackIndex := 1;
    }
    assert TrackLoopCount(header) == LoopCount(trackIndex, header.trackCount);
    var done :- decoder.ReadTracks(trackIndex, header.trackCount);
    r := Ok(decoder.writer.Contents());
  }

  /** The constructor's decoding and playback, on the bytes of the MIDI
      file. */
  method Form1Constructor(data: seq<byte>, tone: SineFn) returns (r: Result<seq<byte>>)
    ensures r == Output(data, tone)
  {
    var pcm :- DecodeFile(data, tone);
    var file := WaveFile.PlayWaveData(pcm);
    return Ok(file);
  }
}
