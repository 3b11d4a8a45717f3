/** The canonical 44-byte RIFF/WAVE header (Microsoft/IBM Multimedia
    Programming Interface and Data Specifications 1.0, WAVE form) that
    CreateWaveFile and PlayWaveData write in front of the sample bytes:
    one `fmt ` chunk of 16 bytes for mono 16-bit PCM at 44100 Hz and one
    `data` chunk. */
module WaveFile {
  import opened Common
  import opened BinaryOutput

  const FormatChunkSize: int := 16
  const HeaderSize: int := 8
  const FormatType: int := 1
  const Tracks: int := 1
  const SamplesPerSecond: int := 44100
  const BitsPerSample: int := 16
  const WaveSize: int := 4
  const FrameSize: int := Tracks * ((BitsPerSample + 7) / 8)
  const BytesPerSecond: int := SamplesPerSecond * FrameSize

  /** The four tags, as the `int` constants the source writes. */
  const RiffTag: int := 0x46464952
  const WaveTag: int := 0x45564157
  const FmtTag: int := 0x20746D66
  const DataTag: int := 0x61746164

  /** The header writes in the order the writer performs them; `fileSize`
      is 4 + 8 + 16 + 8 + dataChunkSize. Both sizes are C# `int`s, and
      writing keeps their low 32 bits, so no separate wrap-around is needed. */
  function HeaderWrites(dataChunkSize: int): (w: seq<Field>)
    ensures |w| == 13
  {
    var fileSize := WaveSize + HeaderSize + FormatChunkSize + HeaderSize + dataChunkSize;
    [I32(RiffTag), I32(fileSize), I32(WaveTag)] + FormatWrites() + [I32(DataTag), I32(dataChunkSize)]
  }

  /** The eight writes of the `fmt ` chunk, which do not depend on the data. */
  function FormatWrites(): (w: seq<Field>)
    ensures |w| == 8
  {
    [I32(FmtTag), I32(FormatChunkSize), I16(FormatType), I16(Tracks),
     I32(SamplesPerSecond), I32(BytesPerSecond), I16(FrameSize), I16(BitsPerSample)]
  }

  /** The RIFF chunk header: the tag, the size of what follows it, and the
      WAVE form type. */
  ghost predicate IsRiffHeader(f: seq<byte>, dataChunkSize: int)
  {
    && |f| >= 44
    && f[0..4] == Tag('R', 'I', 'F', 'F')
    && U32At(f, 4) == (36 + dataChunkSize) % TwoTo32
    && f[8..12] == Tag('W', 'A', 'V', 'E')
  }

  /** The `fmt ` chunk: 16 bytes of mono 16-bit PCM at 44100 Hz. */
  ghost predicate IsFormatChunk(f: seq<byte>)
  {
    && |f| >= 44
    && f[12..16] == Tag('f', 'm', 't', ' ')
    && U32At(f, 16) == 16
    && U16At(f, 20) == 1
    && U16At(f, 22) == 1
    && U32At(f, 24) == 44100
    && U32At(f, 28) == 88200
    && U16At(f, 32) == 2
    && U16At(f, 34) == 16
  }

  /** The `data` chunk: its declared size and the payload after byte 44. */
  ghost predicate IsDataChunk(f: seq<byte>, dataChunkSize: int, data: seq<byte>)
  {
    && |f| == 44 + |data|
    && f[36..40] == Tag('d', 'a', 't', 'a')
    && U32At(f, 40) == dataChunkSize % TwoTo32
    && f[44..] == data
  }

  /** What a reader of the file sees: every field at its offset, decoded
      little-endian, and the payload verbatim after byte 44. */
  ghost predicate IsContainer(f: seq<byte>, dataChunkSize: int, data: seq<byte>)
  {
    IsRiffHeader(f, dataChunkSize) && IsFormatChunk(f) && IsDataChunk(f, dataChunkSize, data)
  }

  lemma TagBytes()
    ensures LE32(RiffTag) == Tag('R', 'I', 'F', 'F')
    ensures LE32(WaveTag) == Tag('W', 'A', 'V', 'E')
    ensures LE32(FmtTag) == Tag('f', 'm', 't', ' ')
    ensures LE32(DataTag) == Tag('d', 'a', 't', 'a')
  {
  }

  /** The bytes of the k-th write sit right after those of the writes
      before it, whatever is written afterwards. */
  lemma FieldAt(w: seq<Field>, k: nat)
    requires k < |w|
    ensures var off := |Serialize(w[..k])|;
      off + |Encoding(w[k])| <= |Serialize(w)| &&
      Serialize(w)[off..off + |Encoding(w[k])|] == Encoding(w[k])
  {
    assert w == w[..k + 1] + w[k + 1..];
    SerializeAppend(w[..k + 1], w[k + 1..]);
    assert w[..k + 1][..k] == w[..k];
  }

  /** The stream grows by each write's width. */
  lemma PrefixLength(w: seq<Field>, k: nat)
    requires k < |w|
    ensures |Serialize(w[..k + 1])| == |Serialize(w[..k])| + |Encoding(w[k])|
  {
    assert w[..k + 1][..k] == w[..k];
  }

  lemma I32At(f: seq<byte>, off: nat, x: int)
    requires off + 4 <= |f| && f[off..off + 4] == LE32(x)
    ensures U32At(f, off) == x % TwoTo32
  {
    LE32Reads(x);
  }

  lemma I16At(f: seq<byte>, off: nat, x: int)
    requires off + 2 <= |f| && f[off..off + 2] == LE16(x)
    ensures U16At(f, off) == x % 0x1_0000
  {
    LE16Reads(x);
  }

  /** The header followed by the payload has exactly the field layout of
      the WAVE form. */
  lemma HeaderLayout(dataChunkSize: int, data: seq<byte>)
    ensures IsContainer(Serialize(HeaderWrites(dataChunkSize) + [Raw(data)]), dataChunkSize, data)
  {
    var w := HeaderWrites(dataChunkSize) + [Raw(data)];
    Offsets(w, dataChunkSize, data);
    Slices(w, dataChunkSize, data);
    FieldValues(Serialize(w), dataChunkSize, data);
  }

  /** The write log of a header and its payload, known field by field. */
  ghost predicate IsHeaderLog(w: seq<Field>, dataChunkSize: int, data: seq<byte>)
  {
    && |w| == 14
    && w[0] == I32(RiffTag) && w[1] == I32(36 + dataChunkSize)
    && w[2] == I32(WaveTag) && w[3] == I32(FmtTag) && w[4] == I32(16)
    && w[5] == I16(1) && w[6] == I16(1) && w[7] == I32(44100) && w[8] == I32(88200)
    && w[9] == I16(2) && w[10] == I16(16) && w[11] == I32(DataTag)
    && w[12] == I32(dataChunkSize) && w[13] == Raw(data)
  }

  /** Where each write starts. */
  lemma Offsets(w: seq<Field>, dataChunkSize: int, data: seq<byte>)
    requires IsHeaderLog(w, dataChunkSize, data)
    ensures |Serialize(w[..1])| == 4 && |Serialize(w[..2])| == 8
    ensures |Serialize(w[..3])| == 12 && |Serialize(w[..4])| == 16
    ensures |Serialize(w[..5])| == 20 && |Serialize(w[..6])| == 22
    ensures |Serialize(w[..7])| == 24 && |Serialize(w[..8])| == 28
    ensures |Serialize(w[..9])| == 32 && |Serialize(w[..10])| == 34
    ensures |Serialize(w[..11])| == 36 && |Serialize(w[..12])| == 40
    ensures |Serialize(w[..13])| == 44 && |Serialize(w)| == 44 + |data|
  {
    assert w[..0] == [];
    PrefixLength(w, 0);
    PrefixLength(w, 1);
    PrefixLength(w, 2);
    PrefixLength(w, 3);
    PrefixLength(w, 4);
    PrefixLength(w, 5);
    PrefixLength(w, 6);
    PrefixLength(w, 7);
    PrefixLength(w, 8);
    PrefixLength(w, 9);
    PrefixLength(w, 10);
    PrefixLength(w, 11);
    PrefixLength(w, 12);
    PrefixLength(w, 13);
    assert w[..14] == w;
  }

  /** What each write put where. */
  lemma Slices(w: seq<Field>, dataChunkSize: int, data: seq<byte>)
    requires IsHeaderLog(w, dataChunkSize, data)
    requires |Serialize(w[..1])| == 4 && |Serialize(w[..2])| == 8
    requires |Serialize(w[..3])| == 12 && |Serialize(w[..4])| == 16
    requires |Serialize(w[..5])| == 20 && |Serialize(w[..6])| == 22
    requires |Serialize(w[..7])| == 24 && |Serialize(w[..8])| == 28
    requires |Serialize(w[..9])| == 32 && |Serialize(w[..10])| == 34
    requires |Serialize(w[..11])| == 36 && |Serialize(w[..12])| == 40
    requires |Serialize(w[..13])| == 44 && |Serialize(w)| == 44 + |data|
    ensures var f := Serialize(w);
      && f[44..] == data
      && f[0..4] == LE32(RiffTag) && f[4..8] == LE32(36 + dataChunkSize)
      && f[8..12] == LE32(WaveTag) && f[12..16] == LE32(FmtTag)
      && f[16..20] == LE32(16) && f[20..22] == LE16(1) && f[22..24] == LE16(1)
      && f[24..28] == LE32(44100) && f[28..32] == LE32(88200)
      && f[32..34] == LE16(2) && f[34..36] == LE16(16)
      && f[36..40] == LE32(DataTag) && f[40..44] == LE32(dataChunkSize)
  {
    assert w[..0] == [];
    FieldAt(w, 0);
    FieldAt(w, 1);
    FieldAt(w, 2);
    FieldAt(w, 3);
    FieldAt(w, 4);
    FieldAt(w, 5);
    FieldAt(w, 6);
    FieldAt(w, 7);
    FieldAt(w, 8);
    FieldAt(w, 9);
    FieldAt(w, 10);
    FieldAt(w, 11);
    FieldAt(w, 12);
    FieldAt(w, 13);
  }

  /** Reading each header field of a stream laid out as the writer laid it
      out. */
  lemma FieldValues(f: seq<byte>, dataChunkSize: int, data: seq<byte>)
    requires |f| == 44 + |data| && f[44..] == data
    requires f[0..4] == LE32(RiffTag) && f[4..8] == LE32(36 + dataChunkSize)
    requires f[8..12] == LE32(WaveTag) && f[12..16] == LE32(FmtTag)
    requires f[16..20] == LE32(16) && f[20..22] == LE16(1) && f[22..24] == LE16(1)
    requires f[24..28] == LE32(44100) && f[28..32] == LE32(88200)
    requires f[32..34] == LE16(2) && f[34..36] == LE16(16)
    requires f[36..40] == LE32(DataTag) && f[40..44] == LE32(dataChunkSize)
    ensures IsContainer(f, dataChunkSize, data)
  {
    TagBytes();
    RiffValues(f, dataChunkSize);
    FormatValues(f);
    I32At(f, 40, dataChunkSize);
  }

  lemma RiffValues(f: seq<byte>, dataChunkSize: int)
    requires |f| >= 44 && f[4..8] == LE32(36 + dataChunkSize)
    ensures U32At(f, 4) == (36 + dataChunkSize) % TwoTo32
  {
    I32At(f, 4, 36 + dataChunkSize);
  }

  lemma FormatValues(f: seq<byte>)
    requires |f| >= 44
    requires f[16..20] == LE32(16) && f[20..22] == LE16(1) && f[22..24] == LE16(1)
    requires f[24..28] == LE32(44100) && f[28..32] == LE32(88200)
    requires f[32..34] == LE16(2) && f[34..36] == LE16(16)
    ensures U32At(f, 16) == 16 && U16At(f, 20) == 1 && U16At(f, 22) == 1
    ensures U32At(f, 24) == 44100 && U32At(f, 28) == 88200
    ensures U16At(f, 32) == 2 && U16At(f, 34) == 16
  {
    FormatSizes(f);
    FormatRates(f);
    FormatFrame(f);
  }

  lemma FormatSizes(f: seq<byte>)
    requires |f| >= 44
    requires f[16..20] == LE32(16) && f[20..22] == LE16(1) && f[22..24] == LE16(1)
    ensures U32At(f, 16) == 16 && U16At(f, 20) == 1 && U16At(f, 22) == 1
  {
    I32At(f, 16, 16);
    I16At(f, 20, 1);
    I16At(f, 22, 1);
  }

  lemma FormatRates(f: seq<byte>)
    requires |f| >= 44
    requires f[24..28] == LE32(44100) && f[28..32] == LE32(88200)
    ensures U32At(f, 24) == 44100 && U32At(f, 28) == 88200
  {
    I32At(f, 24, 44100);
    I32At(f, 28, 88200);
  }

  lemma FormatFrame(f: seq<byte>)
    requires |f| >= 44
    requires f[32..34] == LE16(2) && f[34..36] == LE16(16)
    ensures U16At(f, 32) == 2 && U16At(f, 34) == 16
  {
    I16At(f, 32, 2);
    I16At(f, 34, 16);
  }

  /** The header writes shared by CreateWaveFile and PlayWaveData. */
  method WriteHeader(writer: ByteSink, dataChunkSize: int)
    modifies writer
    ensures writer.writes == old(writer.writes) + HeaderWrites(dataChunkSize)
  {
    var fileSize := WaveSize + HeaderSize + FormatChunkSize + HeaderSize + dataChunkSize;
    writer.WriteInt32(RiffTag);
    writer.WriteInt32(fileSize);
    writer.WriteInt32(WaveTag);
    ghost var riff := writer.writes;
    WriteFormat(writer);
    writer.WriteInt32(DataTag);
    writer.WriteInt32(dataChunkSize);
    assert writer.writes == riff + FormatWrites() + [I32(DataTag), I32(dataChunkSize)];
  }

  /** The eight writes of the `fmt ` chunk. */
  method WriteFormat(writer: ByteSink)
    modifies writer
    ensures writer.writes == old(writer.writes) + FormatWrites()
  {
    writer.WriteInt32(FmtTag);
    writer.WriteInt32(FormatChunkSize);
    writer.WriteInt16(FormatType);
    writer.WriteInt16(Tracks);
    writer.WriteInt32(SamplesPerSecond);
    writer.WriteInt32(BytesPerSecond);
    writer.WriteInt16(FrameSize);
    writer.WriteInt16(BitsPerSample);
  }

  /** The bytes CreateWaveFile returns. Note that it counts every payload
      BYTE as a sample, so the declared data size is twice the payload
      length. */
  function CreatedFile(data: seq<byte>): (f: seq<byte>)
    ensures IsContainer(f, 2 * |data|, data)
  {
    HeaderLayout(2 * |data|, data);
    Serialize(HeaderWrites(2 * |data|) + [Raw(data)])
  }

  /** The buffer PlayWaveData assembles and hands to the player: the samples
      are `data.Length / 2` 16-bit values. */
  function PlayedFile(data: seq<byte>): (f: seq<byte>)
    ensures IsContainer(f, (|data| / 2) * 2, data)
  {
    HeaderLayout((|data| / 2) * 2, data);
    Serialize(HeaderWrites((|data| / 2) * 2) + [Raw(data)])
  }

  /** The buffer played for a run of 16-bit samples written by a
      BinaryWriter: its data chunk holds exactly those samples. */
  function SamplesFile(wave: seq<int16>): (f: seq<byte>)
    ensures IsContainer(f, 2 * |wave|, PcmBytes(wave))
  {
    PcmBytesLength(wave);
    assert (|PcmBytes(wave)| / 2) * 2 == 2 * |wave|;
    PlayedFile(PcmBytes(wave))
  }

  method CreateWaveFile(data: seq<byte>) returns (file: seq<byte>)
    ensures file == CreatedFile(data)
  {
    var writer := new ByteSink();
    var samples := |data|;
    var dataChunkSize := samples * FrameSize;
    assert dataChunkSize == 2 * |data|;
    WriteHeader(writer, dataChunkSize);
    writer.WriteBytes(data);
    assert writer.writes == HeaderWrites(dataChunkSize) + [Raw(data)];
    file := writer.Contents();
  }

  /** Everything PlayWaveData does before playback starts. */
  method PlayWaveData(data: seq<byte>) returns (file: seq<byte>)
    ensures file == PlayedFile(data)
  {
    var writer := new ByteSink();
    var samples := |data| / 2;
    var dataChunkSize := samples * FrameSize;
    assert dataChunkSize == (|data| / 2) * 2;
    WriteHeader(writer, dataChunkSize);
    writer.WriteBytes(data);
    assert writer.writes == HeaderWrites(dataChunkSize) + [Raw(data)];
    file := writer.Contents();
  }

  /** For a buffer of 16-bit samples the declared sizes are exact: the data
      chunk holds the payload and the RIFF size counts everything after its
      own 8 bytes. */
  lemma PlayWaveDataSizesExact(s: seq<int16>)
    requires 36 + 2 * |s| < TwoTo32
    ensures var f := SamplesFile(s);
      U32At(f, 40) == |f| - 44 == 2 * |s| && U32At(f, 4) == |f| - 8
  {
    PcmBytesLength(s);
    var f := SamplesFile(s);
    assert IsDataChunk(f, 2 * |s|, PcmBytes(s));
    assert IsRiffHeader(f, 2 * |s|);
    Below32(2 * |s|);
    Below32(36 + 2 * |s|);
  }

  /** A size below 2^32 is its own low 32 bits. */
  lemma Below32(x: int)
    requires 0 <= x < TwoTo32
    ensures x % TwoTo32 == x
  {
  }

  /** Quirk: CreateWaveFile declares a data chunk twice as long as the bytes
      that follow, for every non-empty payload. */
  lemma CreateWaveFileOverstates(data: seq<byte>)
    requires 0 < |data| && 36 + 2 * |data| < TwoTo32
    ensures var f := CreatedFile(data);
      U32At(f, 40) == 2 * (|f| - 44) && U32At(f, 40) != |f| - 44
  {
    var f := CreatedFile(data);
    assert IsDataChunk(f, 2 * |data|, data);
    Below32(2 * |data|);
  }

  /** The samples 100 and -100 as the writer emits them. */
  lemma TwoSamplePcm()
    ensures PcmBytes([100, -100]) == [100, 0, 0x9C, 0xFF]
  {
    var s: seq<int16> := [100, -100];
    assert Shorts(s) == [I16(100), I16(-100)];
    assert Shorts(s)[..1] == [I16(100)] && [I16(100)][..0] == [];
    assert LE16(100) == [100, 0] && LE16(-100) == [0x9C, 0xFF];
    assert Serialize([I16(100)]) == [100, 0];
  }

  /** The header constants of a two-sample file, byte for byte. */
  lemma TwoSampleFields()
    ensures LE32(40) == [40, 0, 0, 0] && LE32(16) == [16, 0, 0, 0] && LE16(1) == [1, 0]
    ensures LE32(44100) == [0x44, 0xAC, 0, 0] && LE32(88200) == [0x88, 0x58, 0x01, 0]
    ensures LE16(2) == [2, 0] && LE16(16) == [16, 0] && LE32(4) == [4, 0, 0, 0]
  {
  }}
