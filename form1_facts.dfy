/** Properties of Form1's decoder, several of them stated against
    MainForm's: the header reads agree, and the events are read in the ways
    the two decoders differ. */
module Form1Facts {
  import opened Common
  import VarLen
  import opened BinaryInput
  import opened Synth
  import MainForm
  import MainFormFacts
  import opened Form1

  /** Reading the time division as one big-endian `short` (Form1) or as two
      bytes put together (MainForm) gives the same header. */
  lemma HeaderReadsAgree(data: seq<byte>)
    ensures Form1.ReadHeader(data) == MainForm.ReadHeader(data)
  {
    if |data| >= 14 {
      var byBytes := Signed16(data[13] as int + (data[12] as int) * 256);
      assert Int16BE(data, 12).value.value == byBytes;
    }
  }

  /** For a type 1 file the track loop starts at index one, so the last
      announced chunk is never read; any other type reads them all. */
  lemma TypeOneReadsOneTrackFewer(h: MainForm.Header)
    ensures h.fileType == 1 && h.trackCount >= 1 ==> TrackLoopCount(h) == h.trackCount - 1
    ensures h.fileType != 1 && h.trackCount >= 0 ==> TrackLoopCount(h) == h.trackCount
  {
  }

  /** A meta event's data is skipped before its type is looked at, so End
      of Track with a nonzero length skips that length, which MainForm does
      not. */
  lemma EndOfTrackSkipsData(data: seq<byte>, s: State, p: nat)
    requires p < |data| && data[p] == 0x2F && VarLen.Decode(data, p + 1).Ok?
    ensures var len := VarLen.Decode(data, p + 1).value;
      var end := len.next + (if len.value > 0 then len.value else 0);
      && (end <= |data| ==> Meta(data, s, p) == Ok(Step(s.(pos := end), true)))
      && (end > |data| ==> Meta(data, s, p) == Err(EndOfStream))
  {
  }

  /** Any other meta event skips exactly its length, failing if the stream
      ends first, and does not end the track. */
  lemma OtherMetaSkips(data: seq<byte>, s: State, p: nat)
    requires p < |data| && data[p] != 0x2F && data[p] != 0x51
    requires VarLen.Decode(data, p + 1).Ok?
    ensures var len := VarLen.Decode(data, p + 1).value;
      var end := len.next + (if len.value > 0 then len.value else 0);
      && (Meta(data, s, p).Ok? <==> end <= |data|)
      && (end <= |data| ==> Meta(data, s, p) == Ok(Step(s.(pos := end), false)))
      && (end > |data| ==> Meta(data, s, p) == Err(EndOfStream))
  {
  }

  /** A System Exclusive event skips exactly its length, failing if the
      stream ends first. */
  lemma SysExSkips(data: seq<byte>, s: State, p: nat)
    requires VarLen.Decode(data, p).Ok?
    ensures var len := VarLen.Decode(data, p).value;
      var end := len.next + (if len.value > 0 then len.value else 0);
      && (SysEx(data, s, p).Ok? <==> end <= |data|)
      && (end <= |data| ==> SysEx(data, s, p) == Ok(Step(s.(pos := end), false)))
      && (end > |data| ==> SysEx(data, s, p) == Err(EndOfStream))
  {
  }

  /** No event fails with the track-header error. */
  lemma EventNeverBadHeader(data: seq<byte>, tone: SineFn, usPerOffset: int, s: State)
    requires Valid(s)
    ensures Event(data, tone, usPerOffset, s).Err? ==> Event(data, tone, usPerOffset, s).error != InvalidTrackHeader
  {
    var delta := VarLen.Decode(data, s.pos);
    if delta.Ok? {
      var s1 := Interval(tone, usPerOffset, s.(pos := delta.value.next), delta.value.value);
      if s1.Ok? {
        var op := ByteAt(data, s1.value.pos);
        if op.Ok? {
          assert Event(data, tone, usPerOffset, s) ==
            if op.value.value == 0xFF then Meta(data, s1.value, op.value.next)
            else if op.value.value == 0xF0 || op.value.value == 0xF7 then SysEx(data, s1.value, op.value.next)
            else Channel(data, s1.value, op.value.value, op.value.next);
        }
      }
    }
  }

  /** Nor do the events of a track. */
  lemma {:induction false} EventsNeverBadHeader(data: seq<byte>, tone: SineFn, usPerOffset: int, s: State)
    requires Valid(s) && s.pos <= |data|
    ensures TrackEvents(data, tone, usPerOffset, s).Err? ==> TrackEvents(data, tone, usPerOffset, s).error != InvalidTrackHeader
    decreases |data| - s.pos
  {
    EventNeverBadHeader(data, tone, usPerOffset, s);
    var st := Event(data, tone, usPerOffset, s);
    if st.Ok? && !st.value.endOfTrack {
      EventsNeverBadHeader(data, tone, usPerOffset, st.value.s);
    }
  }

  /** A track chunk fails with InvalidTrackHeader exactly when its first
      four bytes are there and are not "MTrk"; it is read only when they
      are, and a stream ending before them is EndOfStream. */
  lemma TrackChecksMagic(data: seq<byte>, tone: SineFn, usPerOffset: int, s: State)
    requires Valid(s)
    ensures Track(data, tone, usPerOffset, s) == Err(InvalidTrackHeader) <==>
      s.pos + 4 <= |data| && data[s.pos..s.pos + 4] != Tag('M', 'T', 'r', 'k')
    ensures Track(data, tone, usPerOffset, s).Ok? ==> s.pos + 8 <= |data| && data[s.pos..s.pos + 4] == Tag('M', 'T', 'r', 'k')
    ensures s.pos + 4 > |data| ==> Track(data, tone, usPerOffset, s) == Err(EndOfStream)
  {
    if s.pos + 4 <= |data| {
      MainFormFacts.Int32BEIs(data, s.pos, 0x4D, 0x54, 0x72, 0x6B);
      if s.pos + 8 <= |data| {
        EventsNeverBadHeader(data, tone, usPerOffset, s.(pos := s.pos + 8));
      }
    }
  }

  /** Set Tempo never succeeds: its data is skipped first, so a length too
      long for the stream is EndOfStream; after that a length other than
      three is rejected and a length of three reaches the not-implemented
      exception. */
  lemma TempoAlwaysFails(data: seq<byte>, s: State, p: nat)
    requires p < |data| && data[p] == 0x51
    ensures Meta(data, s, p).Err?
    ensures var len := VarLen.Decode(data, p + 1);
      len.Ok? && len.value.next + (if len.value.value > 0 then len.value.value else 0) <= |data| ==>
        Meta(data, s, p) == Err(if len.value.value == 3 then TempoNotImplemented else BadTempoLength)
    ensures var len := VarLen.Decode(data, p + 1);
      len.Err? || len.value.next + (if len.value.value > 0 then len.value.value else 0) > |data| ==>
        Meta(data, s, p) == Err(EndOfStream)
  {
  }

  /** Every channel event reads two parameter bytes, whatever its first
      byte: a data byte is not taken as running status. */
  lemma ChannelReadsTwoBytes(data: seq<byte>, s: State, op: byte, p: nat)
    requires Valid(s) && p + 2 <= |data|
    requires MainForm.EventType(op) != 0x80 && MainForm.EventType(op) != 0x90
    ensures Channel(data, s, op, p) == Ok(Step(s.(pos := p + 2), false))
  {
  }

  /** Note On sets the note to one fixed volume whatever the velocity, and
      to zero when the velocity is zero; Note Off sets it to zero. */
  lemma NoteVolumes(data: seq<byte>, s: State, op: byte, p: nat)
    requires Valid(s) && p + 2 <= |data| && 0x80 <= op < 0xA0 && data[p] < NoteCount
    ensures Channel(data, s, op, p).Ok?
    ensures Channel(data, s, op, p).value.s.volumes[data[p]] == if op >= 0x90 && data[p + 1] != 0 then NoteOnVolume else 0
    ensures forall x :: 0 <= x < NoteCount && x != data[p] ==> Channel(data, s, op, p).value.s.volumes[x] == s.volumes[x]
  {
  }

  /** Program Change takes two bytes in Form1 and one in MainForm; a System
      Common byte goes through Form1 as a two-byte event and stops MainForm. */
  lemma DecodersDisagreeOnEvents(data: seq<byte>, s: State, m: MainForm.Machine, p: nat)
    requires Valid(s) && MainForm.Valid(m) && p + 2 <= |data|
    ensures Channel(data, s, 0xC0, p).value.s.pos == p + 2
    ensures MainForm.Channel(data, m, 0xC0, p).value.m.pos == p + 1
    ensures Channel(data, s, 0xF1, p).Ok?
    ensures MainForm.Channel(data, m, 0xF1, p) == Err(UnsupportedSystemMessage)
  {
  }
}
