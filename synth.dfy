/** The integer bookkeeping around the tone generator: how a delta time
    becomes milliseconds and a sample count (shared by both decoders), and
    MainForm's run of samples one note contributes to an interval and the
    saturating mix of several notes.

    MainForm's waveform is floating point (a sine times an amplitude that
    decays by 0.9999 per step) and is not modelled: it is the parameter
    `tone`, applied to the note index, the integer starting amplitude, the
    step within the run and the phase step fed to the sine. A zero starting
    amplitude always gives a zero sample, since `0.0 * sin(x)` is zero.
    Form1's generator, which has no decay, is a parameter of its own
    (`Form1.SineFn`). */
module Synth {
  import opened Common

  const SamplesPerSecond: int := 44100

  /** The length of the frequency and volume tables: notes 0 to 126. */
  const NoteCount: int := 127

  /** A fresh volume table: every note silent. */
  function Silent(): (v: seq<int>)
    ensures |v| == NoteCount && forall i :: 0 <= i < NoteCount ==> v[i] == 0
  {
    seq(NoteCount, _ => 0)
  }

  /** `midiFrequencyVolumes[note] = volume`, which throws for a note past
      the table; both decoders set volumes this way. */
  function SetVolume(volumes: seq<int>, note: byte, volume: int): (r: Result<seq<int>>)
    ensures r.Ok? <==> note < |volumes|
    ensures r.Ok? ==> |r.value| == |volumes| && r.value[note] == volume
    ensures r.Ok? ==> forall i :: 0 <= i < |volumes| && i != note as int ==> r.value[i] == volumes[i]
    ensures r.Err? ==> r.error == IndexOutOfRange
  {
    if note < |volumes| then Ok(volumes[note := volume]) else Err(IndexOutOfRange)
  }

  /** The note whose equal-tempered frequency is 440 Hz exactly. */
  const A4: int := 69

  /** `(microsecondsPerOffset * offset) / 1000`: an `int` product, which
      wraps, divided with C#'s truncating division. */
  function OffsetToMs(usPerOffset: int, offset: int): (ms: int)
    ensures -2147483 <= ms <= 2147483
    ensures 0 <= usPerOffset * offset < TwoTo31 ==> ms == (usPerOffset * offset) / 1000
  {
    ProductBound(WrapInt32(usPerOffset * offset));
    TruncDiv(WrapInt32(usPerOffset * offset), 1000)
  }

  lemma ProductBound(p: int)
    requires -TwoTo31 <= p < TwoTo31
    ensures -2147483 <= TruncDiv(p, 1000) <= 2147483
  {
  }

  /** `(int)((decimal)44100 * ms / 1000)`: the decimal quotient is exact and
      the cast truncates toward zero. */
  function SampleCount(ms: int): (n: int)
    ensures ms >= 0 ==> n == (SamplesPerSecond * ms) / 1000
    ensures n < 0 <==> ms < 0
    ensures n == 0 <==> ms == 0
  {
    TruncDiv(SamplesPerSecond * ms, 1000)
  }

  /** The tone generator: note, starting amplitude, step, phase. */
  type ToneFn = (int, int, int, int) -> int16

  /** One sample of one note. */
  function Voice(tone: ToneFn, note: int, amp: int, step: int, phase: int): (s: int16)
    ensures amp == 0 ==> s == 0
  {
    if amp == 0 then 0 else tone(note, amp, step, phase)
  }

  /** The `n` samples one note contributes to an interval: sample `k` is
      step `k` of the envelope and phase step `cont + k` of the sine. */
  function ToneRun(tone: ToneFn, note: int, amp: int, n: nat, cont: int): (r: seq<int16>)
    ensures |r| == n
  {
    seq<int16>(n, k requires 0 <= k < n => Voice(tone, note, amp, k, cont + k))
  }

  /** The notes below `i` whose volume is positive, in increasing order:
      the order the mixing loop visits them. */
  function ActiveBelow(volumes: seq<int>, i: nat): (notes: seq<nat>)
    requires i <= |volumes|
    ensures forall j :: 0 <= j < |notes| ==> notes[j] < i && volumes[notes[j]] > 0
  {
    if i == 0 then []
    else ActiveBelow(volumes, i - 1) + (if volumes[i - 1] > 0 then [i - 1] else [])
  }

  /** The notes below `i` are listed in increasing order. */
  lemma {:induction false} ActiveBelowSorted(volumes: seq<int>, i: nat)
    requires i <= |volumes|
    ensures forall j, k :: 0 <= j < k < |ActiveBelow(volumes, i)| ==> ActiveBelow(volumes, i)[j] < ActiveBelow(volumes, i)[k]
  {
    if i > 0 {
      ActiveBelowSorted(volumes, i - 1);
      var prev := ActiveBelow(volumes, i - 1);
      var notes := ActiveBelow(volumes, i);
      assert notes[..|prev|] == prev;
      forall j, k | 0 <= j < k < |notes| ensures notes[j] < notes[k] {
        if k >= |prev| {
          assert notes[j] == prev[j] && prev[j] < i - 1 && notes[k] == i - 1;
        } else {
          assert notes[j] == prev[j] && notes[k] == prev[k];
        }
      }
    }
  }

  /** None of the sounding notes below `i` is missed. */
  lemma {:induction false} ActiveBelowComplete(volumes: seq<int>, i: nat)
    requires i <= |volumes|
    ensures forall x :: 0 <= x < i && volumes[x] > 0 ==> x in ActiveBelow(volumes, i)
  {
    if i > 0 {
      ActiveBelowComplete(volumes, i - 1);
      var prev := ActiveBelow(volumes, i - 1);
      var notes := ActiveBelow(volumes, i);
      forall x | 0 <= x < i && volumes[x] > 0 ensures x in notes {
        if x < i - 1 {
          assert x in prev;
          var j :| 0 <= j < |prev| && prev[j] == x;
          assert notes[j] == x;
        } else {
          assert notes[|prev|] == x;
        }
      }
    }
  }

  /** One more note looked at adds one to the count when it sounds. */
  lemma ActiveBelowCount(volumes: seq<int>, i: nat)
    requires i < |volumes|
    ensures |ActiveBelow(volumes, i + 1)| == |ActiveBelow(volumes, i)| + if volumes[i] > 0 then 1 else 0
  {
  }

  function ActiveNotes(volumes: seq<int>): (notes: seq<nat>)
    ensures forall j :: 0 <= j < |notes| ==> notes[j] < |volumes| && volumes[notes[j]] > 0
    ensures forall j, k :: 0 <= j < k < |notes| ==> notes[j] < notes[k]
    ensures forall x :: 0 <= x < |volumes| && volumes[x] > 0 ==> x in notes
  {
    ActiveBelowSorted(volumes, |volumes|);
    ActiveBelowComplete(volumes, |volumes|);
    ActiveBelow(volumes, |volumes|)
  }

  /** When no note below `i` has a positive volume, none below `i` sounds. */
  lemma {:induction false} NoneSoundingBelow(volumes: seq<int>, i: nat)
    requires i <= |volumes|
    requires forall x :: 0 <= x < i ==> volumes[x] <= 0
    ensures ActiveBelow(volumes, i) == []
  {
    if i > 0 {
      NoneSoundingBelow(volumes, i - 1);
    }
  }

  /** When no note has a positive volume, none sounds. */
  lemma NoneSounding(volumes: seq<int>)
    requires forall x :: 0 <= x < |volumes| ==> volumes[x] <= 0
    ensures ActiveNotes(volumes) == []
  {
    NoneSoundingBelow(volumes, |volumes|);
  }

  /** When at most one note sounds and `i` does, it is the only one. */
  lemma OnlySounding(volumes: seq<int>, i: nat)
    requires i < |volumes| && volumes[i] > 0 && |ActiveNotes(volumes)| <= 1
    ensures ActiveNotes(volumes) == [i]
  {
    var notes := ActiveNotes(volumes);
    assert i in notes;
    assert notes[0] == i;
  }

  /** The runs of the given notes, each at half its volume (`volume >> 1`). */
  function Voices(tone: ToneFn, volumes: seq<int>, notes: seq<nat>, n: nat, cont: int): (runs: seq<seq<int16>>)
    requires forall j :: 0 <= j < |notes| ==> notes[j] < |volumes|
    ensures |runs| == |notes|
    ensures forall j :: 0 <= j < |runs| ==> |runs[j]| == n
  {
    seq(|notes|, j requires 0 <= j < |notes| => ToneRun(tone, notes[j], volumes[notes[j]] / 2, n, cont))
  }

  /** `samplesList.Sum(s => s[k])` */
  function ColumnSum(runs: seq<seq<int16>>, k: nat): (total: int)
    requires forall j :: 0 <= j < |runs| ==> k < |runs[j]|
    ensures -0x8000 * |runs| <= total <= 0x7FFF * |runs|
  {
    if runs == [] then 0 else ColumnSum(runs[..|runs| - 1], k) + runs[|runs| - 1][k] as int
  }

  /** The samples MainForm writes for one interval of `n` samples: the
      saturated sum of the active notes, or the same number of silent
      samples (a 440 Hz tone at volume 0) when no note is active. */
  function Mix(tone: ToneFn, volumes: seq<int>, n: nat, cont: int): (r: seq<int16>)
    ensures |r| == n
  {
    MixOf(tone, volumes, ActiveNotes(volumes), n, cont)
  }

  /** The samples of one interval, mixing the runs of `notes`. */
  function MixOf(tone: ToneFn, volumes: seq<int>, notes: seq<nat>, n: nat, cont: int): (r: seq<int16>)
    requires forall j :: 0 <= j < |notes| ==> notes[j] < |volumes|
    ensures |r| == n
  {
    if notes == [] then ToneRun(tone, A4, 0, n, cont)
    else
      var runs := Voices(tone, volumes, notes, n, cont);
      seq<int16>(n, k requires 0 <= k < n => Clamp16(ColumnSum(runs, k)))
  }

  /** An interval is `n` samples long whatever is active, and it is silence
      when no note is active. */
  lemma MixLength(tone: ToneFn, volumes: seq<int>, n: nat, cont: int)
    ensures |Mix(tone, volumes, n, cont)| == n
    ensures ActiveNotes(volumes) == [] ==> forall k :: 0 <= k < n ==> Mix(tone, volumes, n, cont)[k] == 0
  {
    if ActiveNotes(volumes) == [] {
      forall k | 0 <= k < n ensures Mix(tone, volumes, n, cont)[k] == 0 {
        assert Mix(tone, volumes, n, cont)[k] == Voice(tone, A4, 0, k, cont + k);
      }
    }
  }

  /** Each mixed sample is the sum of the notes' samples, saturated to the
      16-bit range instead of wrapping around. */
  lemma MixSaturates(tone: ToneFn, volumes: seq<int>, n: nat, cont: int, k: nat)
    requires k < n && ActiveNotes(volumes) != []
    ensures var total := ColumnSum(Voices(tone, volumes, ActiveNotes(volumes), n, cont), k);
      var s := Mix(tone, volumes, n, cont)[k] as int;
      && (total > 0x7FFF ==> s == 0x7FFF)
      && (total < -0x8000 ==> s == -0x8000)
      && (-0x8000 <= total <= 0x7FFF ==> s == total)
  {
  }

  /** A single active note is written unchanged: its samples are never
      clipped. */
  lemma {:induction false} MixSingle(tone: ToneFn, volumes: seq<int>, n: nat, cont: int, note: nat)
    requires ActiveNotes(volumes) == [note]
    ensures note < |volumes| && volumes[note] > 0
    ensures Mix(tone, volumes, n, cont) == ToneRun(tone, note, volumes[note] / 2, n, cont)
  {
    assert ActiveNotes(volumes)[0] == note;
    MixOfSingle(tone, volumes, note, n, cont);
  }

  lemma MixOfSingle(tone: ToneFn, volumes: seq<int>, note: nat, n: nat, cont: int)
    requires note < |volumes|
    ensures MixOf(tone, volumes, [note], n, cont) == ToneRun(tone, note, volumes[note] / 2, n, cont)
  {
    var run := ToneRun(tone, note, volumes[note] / 2, n, cont);
    assert Voices(tone, volumes, [note], n, cont) == [run];
    forall k | 0 <= k < n ensures MixOf(tone, volumes, [note], n, cont)[k] == run[k] {
      ColumnSumSingle(run, k);
    }
  }

  lemma ColumnSumSingle(run: seq<int16>, k: nat)
    requires k < |run|
    ensures ColumnSum([run], k) == run[k] as int
  {
    assert [run][..0] == [];
  }

  /** Two notes at their loudest add up past the 16-bit range and are
      clipped to it. */
  lemma MixClipsExample()
    ensures Clamp16(30000 + 30000) == 0x7FFF && Clamp16(-30000 - 30000) == -0x8000
  {
  }
}
