/** Properties of MainForm's decoder: what the header and track checks
    accept, what each kind of event does to the state, and how an interval
    becomes samples, including the running-status quirk. */
module MainFormFacts {
  import opened Common
  import VarLen
  import opened BinaryInput
  import opened Synth
  import opened MainForm

  /** Four big-endian bytes determine their value. */
  lemma BE32Injective(a0: byte, a1: byte, a2: byte, a3: byte, b0: byte, b1: byte, b2: byte, b3: byte)
    requires BE32(a0, a1, a2, a3) == BE32(b0, b1, b2, b3)
    ensures a0 == b0 && a1 == b1 && a2 == b2 && a3 == b3
  {
    DigitSplit((a0 as int * 256 + a1) * 256 + a2, a3, (b0 as int * 256 + b1) * 256 + b2, b3);
    DigitSplit(a0 as int * 256 + a1, a2, b0 as int * 256 + b1, b2);
    DigitSplit(a0 as int, a1, b0 as int, b1);
  }

  lemma DigitSplit(q: int, r: int, q': int, r': int)
    requires 0 <= r < 256 && 0 <= r' < 256
    requires q * 256 + r == q' * 256 + r'
    ensures q == q' && r == r'
  {
  }

  /** A big-endian `int` read equals a non-negative constant exactly when the
      four bytes are that constant's bytes. */
  lemma Int32BEIs(data: seq<byte>, pos: nat, b0: byte, b1: byte, b2: byte, b3: byte)
    requires pos + 4 <= |data| && BE32(b0, b1, b2, b3) < TwoTo31
    ensures Int32BE(data, pos).value.value == BE32(b0, b1, b2, b3) <==> data[pos..pos + 4] == [b0, b1, b2, b3]
  {
    var v := Int32BE(data, pos).value.value;
    if v == BE32(b0, b1, b2, b3) {
      BE32Injective(data[pos], data[pos + 1], data[pos + 2], data[pos + 3], b0, b1, b2, b3);
    }
    if data[pos..pos + 4] == [b0, b1, b2, b3] {
      assert data[pos] == b0 && data[pos + 1] == b1 && data[pos + 2] == b2 && data[pos + 3] == b3;
    }
  }

  /** RunTest accepts only files that start with "MThd", and rejects every
      file of at least four bytes that does not. */
  lemma DecodeChecksFileMagic(data: seq<byte>, tone: ToneFn)
    ensures Decode(data, tone).Ok? ==> |data| >= 14 && data[..4] == Tag('M', 'T', 'h', 'd')
    ensures |data| >= 4 && data[..4] != Tag('M', 'T', 'h', 'd') ==> Decode(data, tone) == Err(InvalidFileHeader)
  {
    if |data| >= 4 {
      Int32BEIs(data, 0, 0x4D, 0x54, 0x68, 0x64);
    }
  }

  /** A track chunk is read only when it starts with "MTrk", and one of at
      least four bytes that does not is rejected. */
  lemma TrackChecksMagic(data: seq<byte>, tone: ToneFn, tpq: int, m: Machine)
    requires Valid(m) && tpq != 0
    ensures Track(data, tone, tpq, m).Ok? ==> m.pos + 8 <= |data| && data[m.pos..m.pos + 4] == Tag('M', 'T', 'r', 'k')
    ensures m.pos + 4 <= |data| && data[m.pos..m.pos + 4] != Tag('M', 'T', 'r', 'k') ==>
      Track(data, tone, tpq, m) == Err(InvalidTrackHeader)
  {
    if m.pos + 4 <= |data| {
      Int32BEIs(data, m.pos, 0x4D, 0x54, 0x72, 0x6B);
    }
  }

  /** The header fields are the big-endian `int` at 4, the `short`s at 8 and
      10 and the `short` built from bytes 12 and 13, which is zero only
      when both bytes are. */
  lemma HeaderFields(data: seq<byte>)
    requires ReadHeader(data).Ok?
    ensures var h := ReadHeader(data).value;
      && h.size == Int32BE(data, 4).value.value
      && h.fileType == Int16BE(data, 8).value.value
      && h.trackCount == Int16BE(data, 10).value.value
      && h.ticksPerQuarter == Int16BE(data, 12).value.value
      && (h.ticksPerQuarter == 0 <==> data[12] == 0 && data[13] == 0)
  {
    var h := ReadHeader(data).value;
    var t := (data[12] as int) * 256 + data[13];
    assert h.ticksPerQuarter == Signed16(t);
  }

  /** A time division of zero is the DivideByZeroException of
      `microsecondsPerBeat / ticksPerQuarterNote`. */
  lemma ZeroTicksFail(data: seq<byte>, tone: ToneFn)
    requires 14 <= |data| && data[..4] == Tag('M', 'T', 'h', 'd')
    requires data[12] == 0 && data[13] == 0
    ensures Decode(data, tone) == Err(DivideByZero)
  {
    Int32BEIs(data, 0, 0x4D, 0x54, 0x68, 0x64);
    assert ReadHeader(data).Ok?;
    HeaderFields(data);
  }

  /** The header-skip loop never counts, so a header longer than six bytes
      reads to the end of the stream and fails there. */
  lemma LongHeaderFails(data: seq<byte>, tone: ToneFn)
    requires ReadHeader(data).Ok? && ReadHeader(data).value.ticksPerQuarter != 0
    requires ReadHeader(data).value.size > 6
    ensures Decode(data, tone) == Err(EndOfStream)
  {
  }

  /** End of Track ends the track right after its length: the length's
      bytes are not skipped, and running status is cleared. */
  lemma EndOfTrackStops(data: seq<byte>, tpq: int, m: Machine, p: nat)
    requires tpq != 0 && p < |data| && data[p] == 0x2F
    requires VarLen.Decode(data, p + 1).Ok?
    ensures Meta(data, tpq, m, p) == Ok(Step(m.(status := 0, pos := VarLen.Decode(data, p + 1).value.next), true))
  {
  }

  /** Set Tempo with a length below three is rejected. */
  lemma ShortTempoFails(data: seq<byte>, tpq: int, m: Machine, p: nat)
    requires tpq != 0 && p < |data| && data[p] == 0x51
    requires VarLen.Decode(data, p + 1).Ok? && VarLen.Decode(data, p + 1).value.value < 3
    ensures Meta(data, tpq, m, p) == Err(BadTempoLength)
  {
  }

  /** Set Tempo takes its first three bytes as a big-endian tempo, divides
      it by the time division and discards the rest of the event; a stream
      that ends inside the rest is not an error, since ReadBytes returns
      what is left. Fewer than three bytes left is the IndexOutOfRange of
      indexing the short array. */
  lemma TempoSets(data: seq<byte>, tpq: int, m: Machine, p: nat)
    requires tpq != 0 && p < |data| && data[p] == 0x51
    requires VarLen.Decode(data, p + 1).Ok? && VarLen.Decode(data, p + 1).value.value >= 3
    ensures var len := VarLen.Decode(data, p + 1).value;
      var q := len.next;
      && (q + 3 > |data| ==> Meta(data, tpq, m, p) == Err(IndexOutOfRange))
      && (q + 3 <= |data| ==> Meta(data, tpq, m, p) == Ok(Step(m.(
            status := 0,
            pos := if q + len.value <= |data| then q + len.value else |data|,
            usPerOffset := TruncDiv((data[q] as int) * 0x1_0000 + (data[q + 1] as int) * 0x100 + data[q + 2], tpq)), false)))
  {
    var len := VarLen.Decode(data, p + 1).value;
    var q := len.next;
    assert Meta(data, tpq, m, p) == Tempo(data, tpq, m.(status := 0), len.value, q);
    if q + 3 <= |data| {
      var tempo := Take(data, q, 3);
      assert tempo.value == data[q..q + 3] && tempo.next == q + 3;
      if len.value > 3 {
        var rest := Take(data, q + 3, len.value - 3);
        assert rest.next == if q + len.value <= |data| then q + len.value else |data|;
      }
    }
  }

  /** Every other meta event skips exactly its length, failing if the
      stream ends first; a negative length skips nothing. */
  lemma OtherMetaSkips(data: seq<byte>, tpq: int, m: Machine, p: nat)
    requires tpq != 0 && p < |data| && data[p] != 0x2F && data[p] != 0x51
    requires VarLen.Decode(data, p + 1).Ok?
    ensures var len := VarLen.Decode(data, p + 1).value;
      var end := len.next + (if len.value > 0 then len.value else 0);
      && (Meta(data, tpq, m, p).Ok? <==> end <= |data|)
      && (end <= |data| ==> Meta(data, tpq, m, p) == Ok(Step(m.(status := 0, pos := end), false)))
      && (end > |data| ==> Meta(data, tpq, m, p) == Err(EndOfStream))
  {
  }

  /** A System Exclusive event skips exactly its length, failing if the
      stream ends first, and clears running status. */
  lemma SysExSkips(data: seq<byte>, m: Machine, p: nat)
    requires VarLen.Decode(data, p).Ok?
    ensures var len := VarLen.Decode(data, p).value;
      var end := len.next + (if len.value > 0 then len.value else 0);
      && (SysEx(data, m, p).Ok? <==> end <= |data|)
      && (end <= |data| ==> SysEx(data, m, p) == Ok(Step(m.(status := 0, pos := end), false)))
      && (end > |data| ==> SysEx(data, m, p) == Err(EndOfStream))
  {
  }

  /** Note Off, and Note On with a status byte: the note's volume becomes
      zero, or the velocity's volume for a nonzero Note On velocity; the two
      data bytes are consumed; a note past the table is an
      IndexOutOfRangeException. */
  lemma NoteEvent(data: seq<byte>, m: Machine, op: byte, p: nat)
    requires Valid(m) && 0x80 <= op < 0xA0 && p + 2 <= |data|
    ensures var note := data[p];
      var volume := if op >= 0x90 && data[p + 1] > 0 then NoteOnVolume(data[p + 1]) else 0;
      && (note >= NoteCount ==> Channel(data, m, op, p) == Err(IndexOutOfRange))
      && (note < NoteCount ==>
            Channel(data, m, op, p) == Ok(Step(m.(status := op, pos := p + 2, volumes := m.volumes[note := volume]), false)))
  {
  }

  /** Only Note Off and Note On touch the volume table, and each changes the
      one entry of its note. */
  lemma OnlyNotesChangeVolumes(data: seq<byte>, m: Machine, op: byte, p: nat)
    requires Valid(m) && p <= |data| && Channel(data, m, op, p).Ok?
    ensures var t := EventType(EventStatus(m, op));
      var v := Channel(data, m, op, p).value.m.volumes;
      && (t != 0x80 && t != 0x90 ==> v == m.volumes)
      && (forall x :: 0 <= x < NoteCount && v[x] != m.volumes[x] ==> x == (if m.status != 0 && op < 0x80 then op else data[p]))
  {
  }

  /** Program Change and Channel Pressure carry one data byte. */
  lemma OneDataByte(data: seq<byte>, m: Machine, op: byte, p: nat)
    requires Valid(m) && p <= |data|
    requires EventType(EventStatus(m, op)) == 0xC0 || EventType(EventStatus(m, op)) == 0xE0
    ensures p < |data| ==> Channel(data, m, op, p) == Ok(Step(m.(status := op, pos := p + 1), false))
    ensures p == |data| ==> Channel(data, m, op, p) == Err(EndOfStream)
  {
  }

  /** System Common and Real-Time bytes (F1 to FE except F7) are rejected. */
  lemma SystemMessagesFail(data: seq<byte>, m: Machine, op: byte, p: nat)
    requires Valid(m) && p <= |data| && op >= 0xF0
    ensures Channel(data, m, op, p) == Err(UnsupportedSystemMessage)
  {
  }

  /** With running status, a data byte is the event's first parameter and
      only one more byte is read. The data byte then becomes the running
      status itself. */
  lemma RunningStatusEvent(data: seq<byte>, m: Machine, op: byte, p: nat)
    requires Valid(m) && p < |data| && op < 0x80 && m.status != 0
    requires EventType(m.status) != 0xC0 && EventType(m.status) != 0xE0 && EventType(m.status) != 0xF0
    ensures Channel(data, m, op, p).Ok? ==> Channel(data, m, op, p).value.m.pos == p + 1
    ensures Channel(data, m, op, p).Ok? ==> Channel(data, m, op, p).value.m.status == op
    ensures EventType(m.status) == 0x90 && data[p] > 0 && op < NoteCount ==>
      Channel(data, m, op, p).value.m.volumes == m.volumes[op := NoteOnVolume(data[p])]
  {
  }

  /** Once a data byte is the running status, a further running-status
      event is read and dropped: its type is below 0x80, so it is neither
      Note Off nor Note On. */
  lemma DataByteStatusDropsEvents(data: seq<byte>, m: Machine, op: byte, p: nat)
    requires Valid(m) && p + 1 <= |data| && 0 < m.status < 0x80 && op < 0x80
    ensures Channel(data, m, op, p) == Ok(Step(m.(status := op, pos := p + 1), false))
  {
  }

  /** An event with delta time zero closes no interval. */
  lemma ZeroDeltaWritesNothing(tone: ToneFn, m: Machine)
    ensures Interval(tone, m, 0) == Ok(m)
  {
  }

  /** A nonzero delta time appends exactly the interval's sample count,
      keeps what was written, and moves the phase counter on by the same
      count. With no note sounding the samples are silence; with one note
      they are that note's run unchanged. */
  lemma {:induction false} IntervalSamples(tone: ToneFn, m: Machine, offset: int)
    requires offset != 0
    ensures var n := SampleCount(OffsetToMs(m.usPerOffset, offset));
      && (Interval(tone, m, offset).Ok? <==> n >= 0)
      && (n < 0 ==> Interval(tone, m, offset) == Err(NegativeLengthOverflow))
    ensures var n := SampleCount(OffsetToMs(m.usPerOffset, offset));
      var r := Interval(tone, m, offset);
      r.Ok? ==>
        && |r.value.wave| == |m.wave| + n
        && r.value.wave[..|m.wave|] == m.wave
        && r.value.cont == m.cont + n
    ensures var n := SampleCount(OffsetToMs(m.usPerOffset, offset));
      var r := Interval(tone, m, offset);
      r.Ok? && ActiveNotes(m.volumes) == [] ==> forall k :: |m.wave| <= k < |r.value.wave| ==> r.value.wave[k] == 0
    ensures var n := SampleCount(OffsetToMs(m.usPerOffset, offset));
      var r := Interval(tone, m, offset);
      var notes := ActiveNotes(m.volumes);
      r.Ok? && |notes| == 1 ==> r.value.wave[|m.wave|..] == ToneRun(tone, notes[0], m.volumes[notes[0]] / 2, n, m.cont)
  {
    var n := SampleCount(OffsetToMs(m.usPerOffset, offset));
    if n >= 0 {
      var mixed := Mix(tone, m.volumes, n, m.cont);
      MixLength(tone, m.volumes, n, m.cont);
      var w := m.wave + mixed;
      assert w[..|m.wave|] == m.wave && w[|m.wave|..] == mixed;
      var notes := ActiveNotes(m.volumes);
      if |notes| == 1 {
        assert notes == [notes[0]];
        MixSingle(tone, m.volumes, n, m.cont, notes[0]);
      }
    }
  }

  /** At the default tempo and 96 ticks per quarter note, a quarter note
      lasts 499 ms (5208 us per tick) and is 22005 samples long. */
  lemma QuarterNoteExample()
    ensures TruncDiv(DefaultUsPerBeat, 96) == 5208
    ensures OffsetToMs(5208, 96) == 499
    ensures SampleCount(499) == 22005
  {
  }

  /** A track starts from running status zero and phase counter zero
      whatever the previous track left; the tempo and the volume table do
      carry over. */
  lemma TrackIgnoresStatusAndPhase(data: seq<byte>, tone: ToneFn, tpq: int, m: Machine, status: byte, cont: int)
    requires Valid(m) && tpq != 0
    ensures Track(data, tone, tpq, m) == Track(data, tone, tpq, m.(status := status, cont := cont))
  {
  }

  /** Three Note On events with delta time zero in one running-status
      run, then End of Track. */
  const ThreeNoteOns: seq<byte> := [0x00, 0x90, 60, 100, 0x00, 62, 100, 0x00, 64, 100, 0x00, 0xFF, 0x2F, 0x00]

  function ExampleStart(): Machine
  {
    Machine(0, 0, 5208, Silent(), 0, [])
  }

  lemma ExampleFirst(tone: ToneFn, tpq: int)
    requires tpq != 0
    ensures Event(ThreeNoteOns, tone, tpq, ExampleStart())
      == Ok(Step(ExampleStart().(pos := 4, status := 0x90, volumes := ExampleStart().volumes[60 := 40957]), false))
  {
    assert VarLen.Decode(ThreeNoteOns, 0) == Ok(Read(0, 1));
  }

  lemma ExampleSecond(tone: ToneFn, tpq: int, m: Machine)
    requires tpq != 0 && Valid(m) && m.pos == 4 && m.status == 0x90
    ensures Event(ThreeNoteOns, tone, tpq, m) == Ok(Step(m.(pos := 7, status := 62, volumes := m.volumes[62 := 40957]), false))
  {
    assert VarLen.Decode(ThreeNoteOns, 4) == Ok(Read(0, 5));
  }

  lemma ExampleThird(tone: ToneFn, tpq: int, m: Machine)
    requires tpq != 0 && Valid(m) && m.pos == 7 && m.status == 62
    ensures Event(ThreeNoteOns, tone, tpq, m) == Ok(Step(m.(pos := 10, status := 64), false))
  {
    assert VarLen.Decode(ThreeNoteOns, 7) == Ok(Read(0, 8));
  }

  lemma ExampleFourth(tone: ToneFn, tpq: int, m: Machine)
    requires tpq != 0 && Valid(m) && m.pos == 10
    ensures Event(ThreeNoteOns, tone, tpq, m) == Ok(Step(m.(pos := 14, status := 0), true))
  {
    assert VarLen.Decode(ThreeNoteOns, 10) == Ok(Read(0, 11));
    assert VarLen.Decode(ThreeNoteOns, 13) == Ok(Read(0, 14));
  }

  /** The first sets the status and the second is read through running
      status, but the third is dropped, because the second's note number
      replaced the running status. */
  lemma ThreeNoteOnExample(tone: ToneFn, tpq: int)
    requires tpq != 0
    ensures var r := TrackEvents(ThreeNoteOns, tone, tpq, ExampleStart());
      && r.Ok?
      && r.value.volumes[60] == 40957
      && r.value.volumes[62] == 40957
      && r.value.volumes[64] == 0
      && r.value.wave == []
  {
    var m0 := ExampleStart();
    var m1 := m0.(pos := 4, status := 0x90, volumes := m0.volumes[60 := 40957]);
    var m2 := m1.(pos := 7, status := 62, volumes := m1.volumes[62 := 40957]);
    var m3 := m2.(pos := 10, status := 64);
    var m4 := m3.(pos := 14, status := 0);
    ExampleFirst(tone, tpq);
    ExampleSecond(tone, tpq, m1);
    ExampleThird(tone, tpq, m2);
    ExampleFourth(tone, tpq, m3);
    assert TrackEvents(ThreeNoteOns, tone, tpq, m3) == Ok(m4);
    assert TrackEvents(ThreeNoteOns, tone, tpq, m2) == Ok(m4);
    assert TrackEvents(ThreeNoteOns, tone, tpq, m1) == Ok(m4);
  }
}
