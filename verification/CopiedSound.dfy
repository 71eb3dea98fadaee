/**
 The sample table of audio a TV is given as it is (crates/anistream-cast/src/remux.rs, the middle of
 `Remuxer::segment`): times turned into the track's own rate, where each may lose a part of a tick.
 */
module CopiedSound {
  import opened Bytes
  import opened Segments
  import opened Timing

  /** The nanoseconds of a second. */
  const GIGA: nat := 1_000_000_000

  /** How long a frame's own header says it lasts, where its codec has one that does. */
  type Told = Block -> Option<U32>

  /** Whole ticks of the track's rate; `unit` is the file's tick in nanoseconds times that rate. */
  function ToRate(ticks: int, unit: nat): nat {
    if Clamp(ticks) * unit / GIGA < WORD64 then Clamp(ticks) * unit / GIGA else WORD64 - 1
  }

  /** The file's ticks to the next frame; 21 behind the last. */
  function Step(audio: seq<Block>, i: nat): int
    requires i < |audio|
  {
    if i + 1 < |audio| then audio[i + 1].timestamp - audio[i].timestamp else 21
  }

  function Lasts(audio: seq<Block>, told: Told, unit: nat, i: nat): U32
    requires i < |audio|
  {
    match told(audio[i])
    case Some(n) => n
    case None => if ToRate(Step(audio, i), unit) <= U32_MAX then ToRate(Step(audio, i), unit) else 0
  }

  /** The segment's audio samples from the `i`th on. */
  function SoundSamples(audio: seq<Block>, told: Told, unit: nat, i: nat := 0): (r: seq<Sample>)
    requires i <= |audio|
    ensures |r| == |audio| - i
    ensures forall j | 0 <= j < |r| :: r[j].duration == Lasts(audio, told, unit, i + j)
    decreases |audio| - i
  {
    if i == |audio| then []
    else [Sample(Lasts(audio, told, unit, i), Saturate(|audio[i].data|), true, 0)]
         + SoundSamples(audio, told, unit, i + 1)
  }

  function SoundBase(audio: seq<Block>, shift: int, unit: nat): nat
    requires audio != []
  {
    ToRate(audio[0].timestamp + shift, unit)
  }

  // ----- Frames that do not say how long they last -----

  /** The frames before the `i`th say nothing of their lengths, are in order, and not too far apart. */
  predicate Untold(audio: seq<Block>, told: Told, unit: nat, i: nat)
    requires i < |audio|
  {
    forall j | 0 <= j < i ::
      && told(audio[j]) == None && 0 <= Step(audio, j) && Step(audio, j) * unit / GIGA <= U32_MAX
  }

  lemma Spread(a: int, b: int, unit: nat)
    ensures (a + b) * unit == a * unit + b * unit
  {
  }

  /** A step of the file's in nanosecond samples, and the whole samples it is taken for. */
  lemma StepLasts(audio: seq<Block>, told: Told, unit: nat, j: nat)
    requires j < |audio| && told(audio[j]) == None && 0 <= Step(audio, j)
    requires Step(audio, j) * unit / GIGA <= U32_MAX
    ensures GIGA * Lasts(audio, told, unit, j) <= Step(audio, j) * unit
    ensures Step(audio, j) * unit < GIGA * Lasts(audio, told, unit, j) + GIGA
  {
  }

  /**
   Copied audio whose frames do not say how long they last is never ahead of its own times, and at
   frame `i` behind them by less than `i + 1` samples: the parts of a sample that the base and each
   duration before it lose.
   */
  lemma {:induction false} SoundFallsBehind(
    audio: seq<Block>, told: Told, shift: int, unit: nat, i: nat)
    requires i < |audio| && Untold(audio, told, unit, i)
    requires 0 <= audio[0].timestamp + shift && (audio[0].timestamp + shift) * unit / GIGA < WORD64
    ensures
      var played := PlayedAt(SoundBase(audio, shift, unit), SoundSamples(audio, told, unit), i);
      GIGA * played <= (audio[i].timestamp + shift) * unit < GIGA * played + (i + 1) * GIGA
  {
    if i > 0 {
      SoundFallsBehind(audio, told, shift, unit, i - 1);
      StepLasts(audio, told, unit, i - 1);
      Spread(audio[i - 1].timestamp + shift, Step(audio, i - 1), unit);
    }
  }

  // ----- Frames that say how long they last -----

  /** Each frame but the last says it lasts until the next, in the track's own samples. */
  predicate Says(audio: seq<Block>, told: Told, samples: seq<int>) {
    && |samples| == |audio|
    && forall j | 0 <= j < |audio| - 1 ::
         told(audio[j]).Some? && samples[j + 1] == samples[j] + told(audio[j]).value
  }

  /** The file says when a frame begins to within a tick, at zero or later. */
  predicate WithinATick(b: Block, sample: int, shift: int, unit: nat) {
    && 0 <= b.timestamp + shift && (b.timestamp + shift) * unit / GIGA < WORD64
    && GIGA * sample - unit <= (b.timestamp + shift) * unit <= GIGA * sample + unit
  }

  /** Frames that say how long they last keep the distance of the first: rounding never adds up. */
  lemma {:induction false} SoundKeepsPace(
    audio: seq<Block>, told: Told, shift: int, unit: nat, samples: seq<int>, i: nat)
    requires Says(audio, told, samples) && i < |audio|
    ensures PlayedAt(SoundBase(audio, shift, unit), SoundSamples(audio, told, unit), i) - samples[i]
         == SoundBase(audio, shift, unit) - samples[0]
  {
    if i > 0 {
      SoundKeepsPace(audio, told, shift, unit, samples, i - 1);
    }
  }

  lemma BaseIsClose(audio: seq<Block>, shift: int, unit: nat, sample: int)
    requires audio != [] && WithinATick(audio[0], sample, shift, unit)
    ensures GIGA * sample - unit - GIGA < GIGA * SoundBase(audio, shift, unit) <= GIGA * sample + unit
  {
  }

  /**
   From one segment of such a track to the next there is a gap or an overlap of less than two of the
   file's ticks and a sample, wherever the cut lies and however many segments there are.
   */
  lemma SegmentsOfSoundMeet(
    one: seq<Block>, two: seq<Block>, told: Told, shift: int, unit: nat, samples: seq<int>)
    requires one != [] && two != [] && Says(one + two, told, samples)
    requires WithinATick(one[0], samples[0], shift, unit)
    requires WithinATick(two[0], samples[|one|], shift, unit)
    ensures
      var end := PlayedAt(SoundBase(one, shift, unit), SoundSamples(one, told, unit), |one|);
      GIGA * end - 2 * unit - GIGA < GIGA * SoundBase(two, shift, unit) < GIGA * end + 2 * unit + GIGA
  {
    var all, n := one + two, |one|;
    assert forall j | 0 <= j < n :: all[j] == one[j];
    SoundKeepsPace(one, told, shift, unit, samples[..n], n - 1);
    assert told(all[n - 1]).Some? && samples[n] == samples[n - 1] + told(all[n - 1]).value;
    BaseIsClose(one, shift, unit, samples[0]);
    BaseIsClose(two, shift, unit, samples[n]);
  }
}
