# MidiToWavWinForm in Dafny

This project models how MidiToWavWinForm turns a Standard MIDI File into a WAVE sound. The repository has two decoders that share the same input layer:

- `MainForm.RunTest` is the current one. It:
  - supports running status;
  - mixes every note that sounds;
  - writes silence for rests;
  - honours Set Tempo events.
- The `Form1` constructor is the earlier one. It:
  - plays one note at a time;
  - drops rests;
  - gives up on every Set Tempo event.

Both decoders read the file through `BinaryReader` plus the variable-length-quantity (VLQ) extension in `ExtensionClasses.cs`. Both write 16-bit samples through a `BinaryWriter` into a memory stream. Finally, they prefix a 44-byte RIFF/WAVE header and hand the buffer to the sound player.

The model follows the code's own structure:

- **Pure specifications.**
  - One function per reading step says what that step does to a decoder state. These are `VarLen.Decode`, the `BinaryInput` readers and the event functions of `MainForm` and `Form1`.
  - They combine into one function per decoder that gives the whole outcome, `MainForm.Decode` and `Form1.Decode`. Each returns either the samples written or the exception the decode stops with.
- **The imperative code.**
  - A `BinaryInput.Reader` class holds the cursor over the file's bytes.
  - A `BinaryOutput.ByteSink` class holds the log of writes.
  - `MainFormRun.Decoder` and `Form1Run.Decoder` are classes holding the local variables of the two decoding loops. They have a `volumes` array, and their `while` loops carry invariants.
  - Every method is proved equal to its specification function.
- **Lemmas** record the properties the code gives, including its quirks, as it behaves.

A few choices in the model:

- **The tone generators are parameters.** MainForm's (`Synth.ToneFn`) stands for the floating-point sine, its amplitude decaying by 0.9999 per sample, and the frequency table. Form1's (`Form1.SineFn`) stands for its sine at a constant amplitude, with no decay, fed the sample index from zero.
- **32-bit arithmetic is written out where it matters:**
  - the wrap in the VLQ reader's fourth shift;
  - the signed reading of big-endian headers;
  - the `int` product of microseconds and ticks;
  - C#'s truncating division.
- **Exceptions become the `Common.Error` datatype.** A `Result` carries them.

## Model

| member | source | states |
|---|---|---|
| VarLen.Decode | MidiToWavWinForm/ExtensionClasses.cs:12-27 | The reader takes one to four bytes starting at the cursor. It fails with EndOfStream only when the input ends first. |
| VarLen.RoundTrip | MidiToWavWinForm/ExtensionClasses.cs:15-25 | The standard SMF encoding of any value below 2^28, wherever it sits in a stream, reads back as that value. The cursor ends just past the encoding. |
| VarLen.DecodeConsumes | MidiToWavWinForm/ExtensionClasses.cs:15-25 | The reader stops right after the first byte with bit 7 clear. Every byte before that one is marked. It never reads more than four bytes. |
| VarLen.DecodeBound | MidiToWavWinForm/ExtensionClasses.cs:15-25 | A quantity that ends in an unmarked byte lies between 0 and 2^28-1. |
| VarLen.DecodeFails | MidiToWavWinForm/ExtensionClasses.cs:17 | Reading fails exactly when the input ends before an unmarked byte and before four bytes. The error is then EndOfStream. |
| VarLen.DecodeSingle | MidiToWavWinForm/ExtensionClasses.cs:18-22 | A byte below 0x80 reads as itself. |
| VarLen.DecodeTerminated | MidiToWavWinForm/ExtensionClasses.cs:15-25 | k marked bytes followed by one unmarked byte give their 7-bit groups joined, and the cursor moves past them. |
| VarLen.ReadStep | MidiToWavWinForm/ExtensionClasses.cs:18-24 | One loop pass adds seven low bits. It then either ends the quantity or makes a shift that cannot wrap before the fourth byte. |
| VarLen.ReadPastEnd | MidiToWavWinForm/ExtensionClasses.cs:17 | Running out of input inside a quantity is EndOfStream. |
| VarLen.DecodeFourMarked | MidiToWavWinForm/ExtensionClasses.cs:21-24 | Quirk: after four marked bytes the value is shifted once more. It equals 128 times the four groups, modulo 2^32. |
| VarLen.DecodeFourMarkedExamples | MidiToWavWinForm/ExtensionClasses.cs:21-24 | Quirk, concretely: FF FF FF FF reads as -128, and 81 80 80 80 reads as 2^28. |
| BinaryInput.ByteAt | MidiToWavWinForm/MainForm.cs:159 | `ReadByte` succeeds exactly when a byte remains, and returns it. Otherwise the error is EndOfStream. |
| BinaryInput.Int32BE | MidiToWavWinForm/MainForm.cs:83 | A byte-reversed `ReadInt32` is the signed 32-bit reading of four big-endian bytes. It fails exactly when fewer than four bytes remain. |
| BinaryInput.Int16BE | MidiToWavWinForm/Form1.cs:62 | A byte-reversed `ReadInt16` is the signed 16-bit reading of two big-endian bytes. |
| BinaryInput.Skip | MidiToWavWinForm/MainForm.cs:191-194 | A `ReadByte` loop run n times skips exactly n bytes, skips nothing when n ≤ 0, and fails when fewer than n bytes remain. |
| BinaryInput.Take | MidiToWavWinForm/MainForm.cs:179 | `ReadBytes(n)` returns the next n bytes, or all the bytes left. |
| BinaryInput.Reader.ReadByte | MidiToWavWinForm/MainForm.cs:159 | Moves the cursor and returns what ByteAt says. On error the stream is consumed. |
| BinaryInput.Reader.ReadInt32BE | MidiToWavWinForm/MainForm.cs:83 | Moves the cursor and returns what Int32BE says. |
| BinaryInput.Reader.ReadInt16BE | MidiToWavWinForm/Form1.cs:60-62 | Moves the cursor and returns what Int16BE says. |
| BinaryInput.Reader.ReadBytes | MidiToWavWinForm/MainForm.cs:179 | Returns what Take says and moves the cursor to Take's end. |
| BinaryInput.Reader.SkipBytes | MidiToWavWinForm/MainForm.cs:191-194 | Its loop of single reads ends where Skip says, or with Skip's error. |
| BinaryInput.Reader.ReadVariableLengthValue | MidiToWavWinForm/ExtensionClasses.cs:12-27 | Its loop ends where VarLen.Decode says, with Decode's value or error. The Form1.cs:18-33 copy is the same. |
| BinaryOutput.LERoundTrip | MidiToWavWinForm/MainForm.cs:382-394 | The n little-endian bytes of u read back as u, for every u < 256^n. |
| BinaryOutput.LE16Reads | MidiToWavWinForm/MainForm.cs:288 | A written `short` reads back as its 16-bit pattern. |
| BinaryOutput.LE32Reads | MidiToWavWinForm/MainForm.cs:383 | A written `int` reads back as its 32-bit pattern. |
| BinaryOutput.SerializeAppend | MidiToWavWinForm/MainForm.cs:382-396 | The stream after two runs of writes is the bytes of the first run followed by the bytes of the second. |
| BinaryOutput.PcmBytesAt | MidiToWavWinForm/MainForm.cs:285-289 | Sample k of a written run, as its 16-bit pattern, sits at bytes 2k and 2k+1. |
| BinaryOutput.PcmBytesAppend | MidiToWavWinForm/MainForm.cs:285-289 | The bytes of two runs of samples written one after the other are the two runs' bytes, joined. |
| BinaryOutput.ByteSink.WriteInt32 | MidiToWavWinForm/MainForm.cs:383 | A write adds one `int` to the stream, and the stream changes in no other way. |
| BinaryOutput.ByteSink.WriteInt16 | MidiToWavWinForm/MainForm.cs:288 | A write adds one `short` to the stream, and the stream changes in no other way. |
| BinaryOutput.ByteSink.WriteBytes | MidiToWavWinForm/MainForm.cs:396 | A write adds the raw bytes to the stream, and the stream changes in no other way. |
| WaveFile.TagBytes | MidiToWavWinForm/MainForm.cs:382-393 | The `int` constants the writers use are the ASCII tags RIFF, WAVE, "fmt " and data, as stored little-endian. |
| WaveFile.HeaderLayout | MidiToWavWinForm/MainForm.cs:362-401 | The 13 header writes followed by the payload form a canonical RIFF/WAVE container. Every field is at its offset, with mono 16-bit 44100 Hz PCM and the payload at byte 44. |
| WaveFile.WriteHeader | MidiToWavWinForm/MainForm.cs:382-394 | The writer receives exactly the 13 header writes, in the order the code makes them. |
| WaveFile.WriteFormat | MidiToWavWinForm/MainForm.cs:385-392 | The writer receives exactly the eight writes of the `fmt ` chunk: tag, chunk size, format type, channels, sample rate, byte rate, frame size, bits per sample. |
| WaveFile.CreatedFile | MidiToWavWinForm/MainForm.cs:321-360 | The file CreateWaveFile returns is a container whose declared data size is twice the byte length of its payload. |
| WaveFile.PlayedFile | MidiToWavWinForm/MainForm.cs:362-401 | The buffer PlayWaveData builds is a container whose declared data size is the payload length rounded down to whole samples. |
| WaveFile.SamplesFile | MidiToWavWinForm/MainForm.cs:277 | The buffer played for a run of samples is a container whose payload is those samples' little-endian bytes, two per sample. |
| WaveFile.TwoSamplePcm | MidiToWavWinForm/MainForm.cs:285-289 | The samples 100 and -100 are written as the bytes 64 00 9C FF. |
| WaveFile.TwoSampleFields | MidiToWavWinForm/MainForm.cs:382-394 | The header constants of a two-sample file come out as the expected little-endian bytes: 44100 Hz as 44 AC 00 00, and 88200 bytes per second as 88 58 01 00. |
| WaveFile.CreateWaveFile | MidiToWavWinForm/MainForm.cs:321-360 | Returns CreatedFile. |
| WaveFile.PlayWaveData | MidiToWavWinForm/MainForm.cs:362-401 | Builds PlayedFile before playback starts. |
| WaveFile.PlayWaveDataSizesExact | MidiToWavWinForm/MainForm.cs:377-379 | For 16-bit samples the declared RIFF size equals the file length minus 8, and the declared data size equals the payload length. |
| WaveFile.CreateWaveFileOverstates | MidiToWavWinForm/MainForm.cs:336-338 | Quirk: CreateWaveFile declares a data chunk twice as long as its payload, which it already holds as bytes. |
| Synth.OffsetToMs | MidiToWavWinForm/MainForm.cs:120 | The milliseconds of a delta time come from a 32-bit product divided with truncation by 1000. They equal the exact quotient when the product fits. |
| Synth.SampleCount | MidiToWavWinForm/MainForm.cs:302 | The number of samples is 44100·ms/1000, truncated. It is negative exactly when ms is negative, and zero exactly when ms is zero. |
| Synth.ActiveNotes | MidiToWavWinForm/MainForm.cs:124-131 | Exactly the notes with a positive volume, in increasing order. |
| Synth.SetVolume | MidiToWavWinForm/MainForm.cs:245-262 | Setting a note's volume succeeds exactly for a note inside the table. Only that entry changes, to the given volume, and the table keeps its size. Otherwise the error is IndexOutOfRange. Form1.cs:157-174 sets volumes by the same definition. |
| Synth.ActiveBelowSorted | MidiToWavWinForm/MainForm.cs:124-131 | The notes the loop visits below index i come out in increasing order. |
| Synth.ActiveBelowComplete | MidiToWavWinForm/MainForm.cs:124-131 | Every note below index i with a positive volume is among them. |
| Synth.OnlySounding | MidiToWavWinForm/Form1.cs:98-104 | When at most one note sounds and note i does, i is the only sounding note. |
| Synth.NoneSounding | MidiToWavWinForm/MainForm.cs:124-131 | When no note has a positive volume, the list of sounding notes is empty. |
| Synth.MixLength | MidiToWavWinForm/MainForm.cs:133-154 | A mixed interval has n samples whatever is active. It is silence when no note sounds. |
| Synth.Voices | MidiToWavWinForm/MainForm.cs:124-131 | One run per given note, each exactly n samples long. So the runs to be mixed never differ in length. |
| Synth.ColumnSum | MidiToWavWinForm/MainForm.cs:142 | The sum of sample k over the runs lies between -32768 and 32767 times the number of runs. It is proved by induction over the runs. |
| Synth.Mix | MidiToWavWinForm/MainForm.cs:124-154 | An interval's samples number exactly n. Synth.MixLength, Synth.MixSaturates and Synth.MixSingle give their values. |
| Synth.MixOf | MidiToWavWinForm/MainForm.cs:133-154 | Mixing the runs of any list of notes gives exactly n samples. |
| Synth.MixSaturates | MidiToWavWinForm/MainForm.cs:137-149 | Each mixed sample is the sum of the notes' samples, saturated to the 16-bit range. |
| Synth.MixSingle | MidiToWavWinForm/MainForm.cs:137-149 | With one note sounding, the mix is that note's run at half its volume, unchanged. |
| Synth.MixClipsExample | MidiToWavWinForm/MainForm.cs:142-146 | Two loud samples saturate at 32767 and at -32768. |
| MainForm.NoteOnVolume | MidiToWavWinForm/MainForm.cs:255 | The Note On volume is positive exactly when the velocity is, and fits a `ushort`. For velocities up to 160 it is 16383·velocity/40. |
| MainForm.EventType | MidiToWavWinForm/MainForm.cs:220 | The event type is the status with its channel nibble cleared. |
| MainForm.EventStatus | MidiToWavWinForm/MainForm.cs:213-221 | A status byte, with bit 7 set, is used as it stands. A data byte falls back on the stored running status. MainFormFacts.RunningStatusEvent gives the event read that way. |
| MainForm.Interval | MidiToWavWinForm/MainForm.cs:118-157 | Closing an interval changes only the samples written and the phase, never the cursor, status, tempo or volumes. |
| MainForm.Meta | MidiToWavWinForm/MainForm.cs:160-198 | A meta event clears the running status. It leaves the volumes, samples and phase alone, and moves the cursor past its type byte. |
| MainForm.Tempo | MidiToWavWinForm/MainForm.cs:174-185 | Set Tempo succeeds exactly when its length is at least three and three bytes remain. A shorter length is BadTempoLength, and too few bytes is IndexOutOfRange. On success only the cursor and the microseconds per offset change. |
| MainForm.SysEx | MidiToWavWinForm/MainForm.cs:200-208 | A System Exclusive event only moves the cursor and clears the running status. |
| MainForm.Channel | MidiToWavWinForm/MainForm.cs:213-262 | A channel event records its first byte as the status. It leaves the samples, phase and tempo alone and does not end the track. |
| MainForm.Event | MidiToWavWinForm/MainForm.cs:113-262 | Each event moves the cursor forward and keeps the samples written so far as a prefix. |
| MainForm.Command | MidiToWavWinForm/MainForm.cs:158-262 | The event after its delta time moves the cursor forward, keeps the volume table's size and writes no samples. |
| MainForm.TrackEvents | MidiToWavWinForm/MainForm.cs:113-265 | The events up to End of Track only append samples. |
| MainForm.Track | MidiToWavWinForm/MainForm.cs:104-112 | A track chunk only appends samples. |
| MainForm.Tracks | MidiToWavWinForm/MainForm.cs:102 | The announced track chunks, read one after another, only append samples. |
| MainForm.ReadHeader | MidiToWavWinForm/MainForm.cs:83-93 | A header that reads ends at byte 14, with a signed 16-bit time division. |
| MainFormFacts.BE32Injective | MidiToWavWinForm/MainForm.cs:83-85 | Two four-byte groups with the same big-endian value are equal. |
| MainFormFacts.Int32BEIs | MidiToWavWinForm/MainForm.cs:83-85 | Comparing a big-endian read with a positive constant is the same as comparing the four bytes. |
| MainFormFacts.DecodeChecksFileMagic | MidiToWavWinForm/MainForm.cs:83-85 | A decode that succeeds starts with "MThd" and at least 14 bytes. A file with another magic fails with InvalidFileHeader. |
| MainFormFacts.TrackChecksMagic | MidiToWavWinForm/MainForm.cs:104-106 | A track that decodes starts with "MTrk". Any other tag fails with InvalidTrackHeader. |
| MainFormFacts.HeaderFields | MidiToWavWinForm/MainForm.cs:87-93 | The size, file type, track count and time division are the big-endian fields at offsets 4, 8, 10 and 12. The division is zero exactly when both of its bytes are. |
| MainFormFacts.ZeroTicksFail | MidiToWavWinForm/MainForm.cs:95-96 | A time division of zero stops the decode with DivideByZero. |
| MainFormFacts.LongHeaderFails | MidiToWavWinForm/MainForm.cs:98-100 | Quirk: a header longer than 6 bytes makes the skip loop read to the end of the file, so the decode fails with EndOfStream. |
| MainFormFacts.EndOfTrackStops | MidiToWavWinForm/MainForm.cs:165-170 | End of Track ends the track right after its length byte, without skipping the announced length. |
| MainFormFacts.ShortTempoFails | MidiToWavWinForm/MainForm.cs:174-178 | A Set Tempo event shorter than three bytes is BadTempoLength. |
| MainFormFacts.TempoSets | MidiToWavWinForm/MainForm.cs:174-186 | Set Tempo reads three bytes and sets the microseconds per tick to the tempo divided, with truncation, by the time division. It skips the whole announced length, stopping at the end of the stream. Fewer than three bytes left is IndexOutOfRange. |
| MainFormFacts.OtherMetaSkips | MidiToWavWinForm/MainForm.cs:191-194 | Any other meta event skips its announced length and changes nothing else. |
| MainFormFacts.SysExSkips | MidiToWavWinForm/MainForm.cs:200-208 | A System Exclusive event skips its announced length. |
| MainFormFacts.NoteEvent | MidiToWavWinForm/MainForm.cs:236-262 | Note Off silences the note. Note On gives it NoteOnVolume of the velocity. No other note changes, two data bytes are consumed, and a note past the table is IndexOutOfRange. |
| MainFormFacts.OnlyNotesChangeVolumes | MidiToWavWinForm/MainForm.cs:225-262 | Events other than Note On and Note Off leave the volume table unchanged. |
| MainFormFacts.OneDataByte | MidiToWavWinForm/MainForm.cs:225-229 | Program Change and Pitch Bend consume one data byte, as the code reads them. |
| MainFormFacts.SystemMessagesFail | MidiToWavWinForm/MainForm.cs:230-233 | A status of 0xF0 or above reaching the channel branch is UnsupportedSystemMessage. |
| MainFormFacts.RunningStatusEvent | MidiToWavWinForm/MainForm.cs:213-223 | A data byte reuses the previous status: it is the first parameter, and one byte fewer is read. Quirk: the data byte itself then becomes the stored status. |
| MainFormFacts.DataByteStatusDropsEvents | MidiToWavWinForm/MainForm.cs:213-223 | Quirk, as a consequence: once the stored status is a data byte, every later data byte starts an event that reads one further byte and changes nothing. |
| MainFormFacts.ZeroDeltaWritesNothing | MidiToWavWinForm/MainForm.cs:118 | A zero delta time writes nothing and keeps the phase. |
| MainFormFacts.IntervalSamples | MidiToWavWinForm/MainForm.cs:118-157 | A nonzero delta time succeeds exactly when the sample count is non-negative. It appends that many samples and advances the phase by as many. They are silence when no note sounds, and the note's run when one note sounds. |
| MainFormFacts.QuarterNoteExample | MidiToWavWinForm/MainForm.cs:95-96 | At 96 ticks per quarter note and the default tempo, a quarter note lasts 499 ms, which is 22005 samples. |
| MainFormFacts.TrackIgnoresStatusAndPhase | MidiToWavWinForm/MainForm.cs:110-112 | A track's outcome does not depend on the status or phase left by the track before, because both are reset. |
| MainFormFacts.ThreeNoteOnExample | MidiToWavWinForm/MainForm.cs:213-262 | Note On 60, then 62 and 64 under running status, decode to 60 and 62 sounding at 40957, 64 silent, and no samples. |
| MainFormRun.GenerateWaveSamples | MidiToWavWinForm/MainForm.cs:298-319 | Fails with NegativeLengthOverflow exactly when the sample count is negative. Otherwise it fills a fresh array with the note's run at half its volume, starting at the given phase, and returns the phase after it. |
| MainFormRun.WriteSamples | MidiToWavWinForm/MainForm.cs:285-289 | Writes every sample of the array in order, one `short` each. |
| MainFormRun.AddWaveData | MidiToWavWinForm/MainForm.cs:291-296 | Writes the note's run and returns the next phase. On NegativeLengthOverflow it writes nothing. |
| MainFormRun.Decoder.CollectRuns | MidiToWavWinForm/MainForm.cs:124-131 | Collects one run per sounding note, in note order, or fails with NegativeLengthOverflow. |
| MainFormRun.Decoder.WriteMix | MidiToWavWinForm/MainForm.cs:133-149 | Writes the saturated column sums of the runs, which is Mix of the volumes. |
| MainFormRun.Decoder.CloseInterval | MidiToWavWinForm/MainForm.cs:118-157 | Leaves the decoder in the state Interval gives, or stops with its error. |
| MainFormRun.Decoder.ReadMeta | MidiToWavWinForm/MainForm.cs:160-198 | Does what Meta says. |
| MainFormRun.Decoder.ReadTempo | MidiToWavWinForm/MainForm.cs:174-185 | Does what Tempo says. |
| MainFormRun.Decoder.ReadSysEx | MidiToWavWinForm/MainForm.cs:200-208 | Does what SysEx says. |
| MainFormRun.Decoder.ReadChannel | MidiToWavWinForm/MainForm.cs:211-262 | Does what Channel says. |
| MainFormRun.Decoder.NextEvent | MidiToWavWinForm/MainForm.cs:116-262 | Does what Event says. |
| MainFormRun.Decoder.ReadCommand | MidiToWavWinForm/MainForm.cs:158-262 | Does what Command says. |
| MainFormRun.Decoder.ReadEvents | MidiToWavWinForm/MainForm.cs:113-265 | Its `while (true)` loop does what TrackEvents says. |
| MainFormRun.Decoder.ReadTrack | MidiToWavWinForm/MainForm.cs:104-112 | Does what Track says. |
| MainFormRun.Decoder.ReadTracks | MidiToWavWinForm/MainForm.cs:102 | Its loop over the track count does what Tracks says. |
| MainFormRun.ReadHeaderChunk | MidiToWavWinForm/MainForm.cs:83-93 | Reads what ReadHeader says and leaves the cursor at byte 14. |
| MainFormRun.DecodeFile | MidiToWavWinForm/MainForm.cs:26-275 | The header, the header skip and the track loop write the bytes of exactly the samples MainForm.Decode gives, or stop with its error. |
| MainFormRun.Output | MidiToWavWinForm/MainForm.cs:24-277 | RunTest plays a buffer exactly when MainForm.Decode succeeds, and stops with Decode's error otherwise. The buffer is a canonical WAVE container of the decoded samples. |
| MainForm.Decode | MidiToWavWinForm/MainForm.cs:26-275 | The whole outcome of RunTest. A header that does not read gives that reader's error. A zero time division is DivideByZero. A header size above 6 is EndOfStream, from the skip loop that never advances. MainFormRun.Output ties the rest to the played buffer. |
| MainFormRun.RunTest | MidiToWavWinForm/MainForm.cs:24-283 | Reading, decoding and writing, run imperatively, produce exactly Output. |
| Form1.Sample | MidiToWavWinForm/Form1.cs:205-209 | A sample at zero amplitude is zero, whatever the generator gives for the sine. |
| Form1.NoteRun | MidiToWavWinForm/Form1.cs:195-211 | A note's run has max(0, samples) samples. Sample k is `Form1.SineFn` at step k and at a quarter of the volume, held constant over the run. It is silence when that amplitude is zero. |
| Form1.Interval | MidiToWavWinForm/Form1.cs:92-106 | An interval changes only the samples, and only by appending. |
| Form1.MixingFails | MidiToWavWinForm/Form1.cs:98-99 | More than one sounding note at a nonzero delta time is MixingNotSupported. |
| Form1.SilenceDropped | MidiToWavWinForm/Form1.cs:94-104 | When no note sounds, no samples are written: rests are dropped. |
| Form1.SingleNoteInterval | MidiToWavWinForm/Form1.cs:100-104 | With one note sounding, a nonzero delta time appends exactly that note's run. |
| Form1.Meta | MidiToWavWinForm/Form1.cs:109-138 | A meta event leaves the volumes and samples alone and moves the cursor forward. |
| Form1.SysEx | MidiToWavWinForm/Form1.cs:140-148 | A System Exclusive event only moves the cursor. |
| Form1.Channel | MidiToWavWinForm/Form1.cs:150-174 | Any other event consumes exactly two bytes and writes nothing. |
| Form1.Event | MidiToWavWinForm/Form1.cs:88-174 | Each event moves the cursor forward and appends samples only. |
| Form1.TrackEvents | MidiToWavWinForm/Form1.cs:88-176 | The events up to End of Track only append samples. |
| Form1.Track | MidiToWavWinForm/Form1.cs:80-84 | A track chunk only appends samples. |
| Form1.Tracks | MidiToWavWinForm/Form1.cs:78 | The track chunks only append samples. |
| Form1.ReadHeader | MidiToWavWinForm/Form1.cs:55-62 | A header that reads ends at byte 14. |
| Form1.TrackLoopCount | MidiToWavWinForm/Form1.cs:71-78 | The loop reads the announced number of tracks, or one fewer for a type 1 file. |
| Form1.LoopCount | MidiToWavWinForm/Form1.cs:78 | The track loop from index first makes trackCount − first passes, or none when first has reached trackCount. |
| Form1.Prepare | MidiToWavWinForm/Form1.cs:55-69 | The preamble succeeds exactly when the header reads, its time division is nonzero and its size is at most six. A zero division is DivideByZero; a longer header makes the skip loop, which never advances, read to EndOfStream. |
| Form1Facts.HeaderReadsAgree | MidiToWavWinForm/Form1.cs:55-62 | Reading the time division as a `short` gives the same header as MainForm's two-byte reading. |
| Form1Facts.TypeOneReadsOneTrackFewer | MidiToWavWinForm/Form1.cs:71-78 | Quirk: for type 1 the last announced track is never read. Other types read all of them. |
| Form1Facts.EndOfTrackSkipsData | MidiToWavWinForm/Form1.cs:113-135 | End of Track skips its announced length first, unlike MainForm. It ends the track, or fails with EndOfStream when the data runs out. |
| Form1Facts.OtherMetaSkips | MidiToWavWinForm/Form1.cs:109-137 | A meta event other than End of Track and Set Tempo skips exactly its announced length and goes on with the track. It fails with EndOfStream exactly when the data runs out first. |
| Form1Facts.SysExSkips | MidiToWavWinForm/Form1.cs:140-148 | A System Exclusive event skips exactly its announced length and changes nothing else. It fails with EndOfStream exactly when the data runs out first. |
| Form1Facts.TrackChecksMagic | MidiToWavWinForm/Form1.cs:80-84 | A track fails with InvalidTrackHeader exactly when its first four bytes are there and are not "MTrk". It is read only when they are, and fewer than four bytes is EndOfStream. |
| Form1Facts.EventsNeverBadHeader | MidiToWavWinForm/Form1.cs:88-148 | No failure inside a track's events is the track-header error, so that error only ever comes from the magic check. |
| Form1Facts.TempoAlwaysFails | MidiToWavWinForm/Form1.cs:113-129 | Set Tempo never succeeds. When the announced length fits in the data, a length of 3 is TempoNotImplemented and any other length is BadTempoLength. Otherwise the skip fails first, with EndOfStream. |
| Form1Facts.ChannelReadsTwoBytes | MidiToWavWinForm/Form1.cs:150-153 | Every event other than a note event consumes two bytes and changes nothing. A data byte is not taken as running status. |
| Form1Facts.NoteVolumes | MidiToWavWinForm/Form1.cs:157-174 | Note On sets the fixed volume 16383 whatever the velocity, or 0 for velocity 0, and Note Off sets 0. Other notes are unchanged. |
| Form1Facts.DecodersDisagreeOnEvents | MidiToWavWinForm/Form1.cs:150-153 | Program Change takes two bytes in Form1 and one in MainForm. A System Common byte goes through Form1 but stops MainForm. |
| Form1Run.AddWaveData | MidiToWavWinForm/Form1.cs:195-211 | Writes exactly the note's run, one `short` per sample. |
| Form1Run.Decoder.CountSounding | MidiToWavWinForm/Form1.cs:98 | Counts the notes with a positive volume. |
| Form1Run.Decoder.CloseInterval | MidiToWavWinForm/Form1.cs:92-106 | Its loop over the notes leaves the state Interval gives, or stops with its error. |
| Form1Run.Decoder.PlaySole | MidiToWavWinForm/Form1.cs:100-104 | Appends the sole note's run. |
| Form1Run.Decoder.ReadMeta | MidiToWavWinForm/Form1.cs:109-138 | Does what Form1.Meta says. |
| Form1Run.Decoder.ReadSysEx | MidiToWavWinForm/Form1.cs:140-148 | Does what Form1.SysEx says. |
| Form1Run.Decoder.ReadChannel | MidiToWavWinForm/Form1.cs:150-174 | Does what Form1.Channel says. |
| Form1Run.Decoder.NextEvent | MidiToWavWinForm/Form1.cs:90-174 | Does what Form1.Event says. |
| Form1Run.Decoder.ReadEvents | MidiToWavWinForm/Form1.cs:88-176 | Its `while (true)` loop does what Form1.TrackEvents says. |
| Form1Run.Decoder.ReadTrack | MidiToWavWinForm/Form1.cs:80-84 | Does what Form1.Track says. |
| Form1Run.Decoder.ReadTracks | MidiToWavWinForm/Form1.cs:71-78 | Its `for` loop from the first index does what Form1.Tracks says. |
| Form1Run.ReadHeaderChunk | MidiToWavWinForm/Form1.cs:55-62 | Reads what Form1.ReadHeader says and leaves the cursor at byte 14. |
| Form1Run.ReadPreamble | MidiToWavWinForm/Form1.cs:55-69 | Does what Form1.Prepare says and leaves the cursor after the header. |
| Form1Run.DecodeFile | MidiToWavWinForm/Form1.cs:42-185 | The header, the header skip and the track loop write the bytes of exactly the samples Form1.Decode gives, or stop with its error. |
| Form1Run.Output | MidiToWavWinForm/Form1.cs:38-187 | The constructor plays a buffer exactly when Form1.Decode succeeds, and stops with its error otherwise. The buffer is a WAVE container of the decoded samples. |
| Form1.Decode | MidiToWavWinForm/Form1.cs:42-185 | The whole outcome of the Form1 constructor. Any failure before the first track is Form1.Prepare's error, and a decode that succeeds got past Prepare. Form1Run.Output ties the rest to the played buffer. |
| Form1Run.Form1Constructor | MidiToWavWinForm/Form1.cs:38-193 | The constructor's reading, decoding and writing produce exactly Output. |

## Left out

- **The tone generators.** The floating-point sine, MainForm's exponential decay (MainForm.cs:312-315) and the note frequency table are not modelled. `Synth.ToneFn` stands for MainForm's generator, given the note, the decayed amplitude's start, the step and the phase. Form1's generator (Form1.cs:205-209) keeps its amplitude constant and has no phase; `Form1.SineFn` stands for it, given the note, the amplitude and the sample index.
- **MainForm.NoteOnVolume:** for velocities above 160 the `(ushort)` conversion of a `double` past 65535 is unspecified in C#. The model saturates it at 65535, as .NET 9 and later do.
- **MainFormRun.GenerateWaveSamples:** it does not model the 32-bit wrap of `step + stepContinuation`. The phase is an unbounded integer, which matters only after about 13.5 hours of samples.
- **The length check on the collected runs** (MainForm.cs:133-134) is not modelled. `Synth.Voices` ensures every run of an interval has the same length n, so the check cannot fire.
- **I/O and the environment are outside the model:**
  - file access, the file name and the form's UI;
  - `SoundPlayer` playback and `Debug` output.
- **Unused values are not modelled:**
  - `runningOffset`;
  - `bytesInTrack`;
  - Form1's `runningStatus` flag;
  - the dead `PlayWaveBeep` and the commented-out bitmap code.
- **The duplicate VLQ reader** at Form1.cs:18-33 is identical to ExtensionClasses.cs:12-27. Both are modelled by the same `VarLen.Decode` and `BinaryInput.Reader.ReadVariableLengthValue`.
- **The duplicate WAVE writer** at Form1.cs:213-295 (CreateWaveFile and PlayWaveData) is identical to MainForm.cs:321-403. Both are modelled once, by `WaveFile`.
- **Form1Run.Decoder.CloseInterval:** its recount of the sounding notes is modelled once per note, as the code does it. The `Count` call's own iteration is `Form1Run.Decoder.CountSounding`.
