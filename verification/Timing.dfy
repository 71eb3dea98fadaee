/**
 Decode times for frames whose file stores presentation times in decode order
 (crates/anistream-cast/src/remux.rs, the middle of `Remuxer::segment`): a segment's decode times
 are its presentation times sorted, and each frame's composition offset is the difference.
 */
module Timing {
  import opened Bytes
  import opened Sorting
  import opened Segments

  datatype Sample = Sample(duration: U32, size: U32, key: bool, offset: int)

  const U32_MAX: nat := 0xFFFF_FFFF

  const EARLIER: (int, int) -> bool := (a, b) => a <= b

  /** `u64::try_from(n).unwrap_or(0)`. */
  function Clamp(n: int): nat { if n < 0 then 0 else n }

  /** `u32::try_from(n).unwrap_or(u32::MAX)`. */
  function Saturate(n: nat): U32 { if n > U32_MAX then U32_MAX else n }

  /** The frames' presentation times, shifted. */
  function Times(video: seq<Block>, shift: int): (r: seq<int>)
    ensures |r| == |video|
  {
    if video == [] then [] else [video[0].timestamp + shift] + Times(video[1..], shift)
  }

  function Clamped(times: seq<int>): (r: seq<int>)
    ensures |r| == |times|
    ensures forall i | 0 <= i < |r| :: r[i] == Clamp(times[i])
  {
    if times == [] then [] else [Clamp(times[0])] + Clamped(times[1..])
  }

  /** The segment's decode times. */
  function DecodeTimes(video: seq<Block>, shift: int): (r: seq<int>)
    ensures |r| == |video|
  {
    Sort(EARLIER, Clamped(Times(video, shift)))
  }

  /** When the sample decoded `i`th ends: at the next decode time, the last one at the end. */
  function EndAfter(sorted: seq<int>, segmentEnd: int, i: nat): int
    requires i < |sorted|
  {
    if i + 1 < |sorted| then sorted[i + 1]
    else if segmentEnd > sorted[i] + 1 then segmentEnd else sorted[i] + 1
  }

  function EndOfSample(video: seq<Block>, shift: int, end: int, i: nat): int
    requires i < |video|
  {
    EndAfter(DecodeTimes(video, shift), Clamp(end + shift), i)
  }

  lemma TimesAt(video: seq<Block>, shift: int, i: nat)
    requires i < |video|
    ensures Times(video, shift)[i] == video[i].timestamp + shift
  {
    if i > 0 {
      TimesAt(video[1..], shift, i - 1);
    }
  }

  lemma DecodeTimesRise(video: seq<Block>, shift: int)
    ensures forall i, j | 0 <= i <= j < |video| ::
              0 <= DecodeTimes(video, shift)[i] <= DecodeTimes(video, shift)[j]
    ensures multiset(DecodeTimes(video, shift)) == multiset(Clamped(Times(video, shift)))
  {
    var clamped, sorted := Clamped(Times(video, shift)), DecodeTimes(video, shift);
    SortSorts(EARLIER, clamped);
    forall i, j | 0 <= i <= j < |video| ensures 0 <= sorted[i] <= sorted[j] {
      assert sorted[i] in multiset(clamped);
      assert i < j ==> EARLIER(sorted[i], sorted[j]);
    }
  }

  lemma EndsLater(video: seq<Block>, shift: int, end: int, i: nat)
    requires i < |video|
    ensures DecodeTimes(video, shift)[i] <= EndOfSample(video, shift, end, i)
  {
    DecodeTimesRise(video, shift);
  }

  /** How long sample `i` lasts. */
  function Gap(video: seq<Block>, shift: int, end: int, i: nat): nat
    requires i < |video|
  {
    EndsLater(video, shift, end, i);
    EndOfSample(video, shift, end, i) - DecodeTimes(video, shift)[i]
  }

  /** A frame's sample, decoded at `dts` and lasting `gap`. */
  function SampleFrom(frame: Block, shift: int, dts: int, gap: nat): Sample {
    Sample(Saturate(gap), Saturate(|frame.data|), frame.key, frame.timestamp + shift - dts)
  }

  /** Frame `i`'s sample. */
  function SampleOf(video: seq<Block>, shift: int, end: int, i: nat): Sample
    requires i < |video|
  {
    SampleFrom(video[i], shift, DecodeTimes(video, shift)[i], Gap(video, shift, end, i))
  }

  /** The segment's samples from the `i`th on. */
  function Samples(video: seq<Block>, shift: int, end: int, i: nat := 0): (r: seq<Sample>)
    requires i <= |video|
    ensures |r| == |video| - i
    decreases |video| - i
  {
    if i == |video| then []
    else [SampleOf(video, shift, end, i)] + Samples(video, shift, end, i + 1)
  }

  /** A frame's sample, its decode time the one sorted to its place. */
  method MakeSample(video: seq<Block>, shift: int, end: int, sorted: seq<int>, i: nat)
    returns (sample: Sample)
    requires i < |video| && sorted == DecodeTimes(video, shift)
    ensures sample == SampleOf(video, shift, end, i)
  {
    var next := EndAfter(sorted, Clamp(end + shift), i);
    EndsLater(video, shift, end, i);
    sample := SampleFrom(video[i], shift, sorted[i], next - sorted[i]);
  }

  /** The sample table `segment` builds, a frame at a time. */
  method SampleTable(video: seq<Block>, shift: int, end: int)
    returns (base: int, samples: seq<Sample>)
    requires video != []
    ensures base == DecodeTimes(video, shift)[0] && samples == Samples(video, shift, end)
  {
    var sorted := DecodeTimes(video, shift);
    samples := [];
    ghost var want := Samples(video, shift, end);
    assert [] + want == want;
    for i := 0 to |video|
      invariant samples + Samples(video, shift, end, i) == want
    {
      var sample := MakeSample(video, shift, end, sorted, i);
      Append(samples, sample, Samples(video, shift, end, i + 1));
      samples := samples + [sample];
    }
    base := sorted[0];
  }

  lemma {:induction false} SamplesAt(
    video: seq<Block>, shift: int, end: int, from: nat, i: nat)
    requires from <= i < |video|
    ensures Samples(video, shift, end, from)[i - from] == SampleOf(video, shift, end, i)
    decreases i - from
  {
    if from < i {
      SamplesAt(video, shift, end, from + 1, i);
    }
  }

  // ----- What a player makes of them -----

  /** When a player decodes sample `i`: the base and the durations before it. */
  function PlayedAt(base: int, samples: seq<Sample>, i: nat): int
    requires i <= |samples|
  {
    if i == 0 then base else PlayedAt(base, samples, i - 1) + samples[i - 1].duration
  }

  /**
   Durations run to the decode times exactly while none of the gaps before is wider than 32 bits
   can say.
   */
  lemma {:induction false} PlayedAtItsTime(video: seq<Block>, shift: int, end: int, i: nat)
    requires 0 < |video| && i < |video|
    ensures
      var (base, samples) := (DecodeTimes(video, shift)[0], Samples(video, shift, end));
      && PlayedAt(base, samples, i) <= DecodeTimes(video, shift)[i]
      && (PlayedAt(base, samples, i) == DecodeTimes(video, shift)[i]
          <==> forall j | 0 <= j < i :: Gap(video, shift, end, j) <= U32_MAX)
  {
    if i > 0 {
      PlayedAtItsTime(video, shift, end, i - 1);
      SamplesAt(video, shift, end, 0, i - 1);
      var narrow := Gap(video, shift, end, i - 1) <= U32_MAX;
      assert (forall j | 0 <= j < i :: Gap(video, shift, end, j) <= U32_MAX)
        <==> (narrow && forall j | 0 <= j < i - 1 :: Gap(video, shift, end, j) <= U32_MAX);
    }
  }

  /**
   A frame is presented when its file says, even where a time below zero was clamped, exactly while
   none of the gaps before it is wider than 32 bits can say: the base, the durations before it and
   its own composition offset then add up to its timestamp shifted, and to less otherwise.
   */
  lemma PresentedAtItsOwnTime(video: seq<Block>, shift: int, end: int, i: nat)
    requires i < |video|
    ensures
      var (base, samples) := (DecodeTimes(video, shift)[0], Samples(video, shift, end));
      var presented := PlayedAt(base, samples, i) + samples[i].offset;
      && presented <= video[i].timestamp + shift
      && (presented == video[i].timestamp + shift
          <==> forall j | 0 <= j < i :: Gap(video, shift, end, j) <= U32_MAX)
  {
    PlayedAtItsTime(video, shift, end, i);
    SamplesAt(video, shift, end, 0, i);
  }

  /** No sample lasts longer than its field can say. */
  predicate Narrow(video: seq<Block>, shift: int, end: int) {
    forall i | 0 <= i < |video| :: Gap(video, shift, end, i) <= U32_MAX
  }

  /** The durations add up to the segment: from its first decode time to its end. */
  lemma DurationsSpanTheSegment(video: seq<Block>, shift: int, end: int)
    requires Narrow(video, shift, end) && video != []
    ensures
      var (base, samples) := (DecodeTimes(video, shift)[0], Samples(video, shift, end));
      PlayedAt(base, samples, |samples|) == EndOfSample(video, shift, end, |video| - 1)
  {
    PlayedAtItsTime(video, shift, end, |video| - 1);
    SamplesAt(video, shift, end, 0, |video| - 1);
  }

  function Sum(s: seq<int>): int {
    if s == [] then 0 else s[0] + Sum(s[1..])
  }

  lemma {:induction false} InsertSums(x: int, s: seq<int>)
    ensures Sum(Insert(EARLIER, x, s)) == x + Sum(s)
  {
    if s != [] && !EARLIER(x, s[0]) {
      InsertSums(x, s[1..]);
      assert ([s[0]] + Insert(EARLIER, x, s[1..]))[1..] == Insert(EARLIER, x, s[1..]);
    } else {
      assert ([x] + s)[1..] == s;
    }
  }

  lemma {:induction false} SortSums(s: seq<int>)
    ensures Sum(Sort(EARLIER, s)) == Sum(s)
  {
    if s != [] {
      SortSums(s[1..]);
      InsertSums(s[0], Sort(EARLIER, s[1..]));
    }
  }

  function Offsets(samples: seq<Sample>): (r: seq<int>)
    ensures |r| == |samples|
  {
    if samples == [] then [] else [samples[0].offset] + Offsets(samples[1..])
  }

  lemma {:induction false} OffsetsSum(video: seq<Block>, shift: int, end: int, i: nat)
    requires i <= |video|
    ensures Sum(Offsets(Samples(video, shift, end, i)))
         == Sum(Times(video, shift)[i..]) - Sum(DecodeTimes(video, shift)[i..])
    decreases |video| - i
  {
    if i < |video| {
      var times, sorted := Times(video, shift), DecodeTimes(video, shift);
      OffsetsSum(video, shift, end, i + 1);
      TimesAt(video, shift, i);
      assert times[i..][1..] == times[i + 1..] && sorted[i..][1..] == sorted[i + 1..];
      var samples := Samples(video, shift, end, i);
      assert samples[1..] == Samples(video, shift, end, i + 1);
      assert Offsets(samples)[1..] == Offsets(samples[1..]);
    }
  }

  lemma {:induction false} ClampingRaises(times: seq<int>)
    ensures Sum(times) <= Sum(Clamped(times))
    ensures Sum(times) == Sum(Clamped(times)) <==> forall i | 0 <= i < |times| :: times[i] >= 0
  {
    if times != [] {
      ClampingRaises(times[1..]);
      assert Clamped(times)[1..] == Clamped(times[1..]);
      assert (forall i | 0 <= i < |times| :: times[i] >= 0)
        <==> (times[0] >= 0 && forall i | 0 <= i < |times[1..]| :: times[1..][i] >= 0) by {
        if times[0] >= 0 && forall i | 0 <= i < |times[1..]| :: times[1..][i] >= 0 {
          forall i | 0 <= i < |times| ensures times[i] >= 0 {
            assert i > 0 ==> times[i] == times[1..][i - 1];
          }
        }
      }
    }
  }

  /** Sorting only moves time between frames: the offsets sum to zero unless a time was clamped. */
  lemma OffsetsSumToZero(video: seq<Block>, shift: int, end: int)
    ensures Sum(Offsets(Samples(video, shift, end))) == 0
      <==> forall i | 0 <= i < |video| :: video[i].timestamp + shift >= 0
  {
    var times := Times(video, shift);
    OffsetsSum(video, shift, end, 0);
    assert times[0..] == times && DecodeTimes(video, shift)[0..] == DecodeTimes(video, shift);
    SortSums(Clamped(times));
    ClampingRaises(times);
    forall i | 0 <= i < |video| ensures times[i] == video[i].timestamp + shift {
      TimesAt(video, shift, i);
    }
  }

  /** A segment's frames all inside it, one of them exactly at its start. */
  predicate Inside(video: seq<Block>, start: int, end: int) {
    && (forall i | 0 <= i < |video| :: start <= video[i].timestamp < end)
    && (exists i | 0 <= i < |video| :: video[i].timestamp == start)
  }

  /**
   Such a segment plays from exactly its start to exactly its end, so two that follow each other
   abut with no gap and no overlap.
   */
  lemma SegmentsAbut(video: seq<Block>, shift: int, start: int, end: int)
    requires Narrow(video, shift, end) && Inside(video, start, end) && start + shift >= 0
    ensures video != []
    ensures
      var (base, samples) := (DecodeTimes(video, shift)[0], Samples(video, shift, end));
      base == start + shift && PlayedAt(base, samples, |samples|) == end + shift
  {
    DecodeTimesInside(video, shift, start, end);
    DecodesTheStart(video, shift, start);
    DecodeTimesRise(video, shift);
    DurationsSpanTheSegment(video, shift, end);
    var sorted := DecodeTimes(video, shift);
    var place :| 0 <= place < |sorted| && sorted[place] == start + shift;
    assert sorted[0] <= sorted[place] && sorted[0] in sorted;
    assert sorted[|video| - 1] in sorted;
  }

  lemma DecodeTimesInside(video: seq<Block>, shift: int, start: int, end: int)
    requires Inside(video, start, end) && start + shift >= 0
    ensures forall t <- DecodeTimes(video, shift) :: start + shift <= t < end + shift
  {
    var sorted, clamped := DecodeTimes(video, shift), Clamped(Times(video, shift));
    DecodeTimesRise(video, shift);
    forall t | t in sorted ensures start + shift <= t < end + shift {
      SameElements(sorted, clamped, t);
      var j :| 0 <= j < |clamped| && clamped[j] == t;
      TimesAt(video, shift, j);
    }
  }

  lemma DecodesTheStart(video: seq<Block>, shift: int, start: int)
    requires start + shift >= 0 && exists i | 0 <= i < |video| :: video[i].timestamp == start
    ensures start + shift in DecodeTimes(video, shift)
  {
    var clamped := Clamped(Times(video, shift));
    var at :| 0 <= at < |video| && video[at].timestamp == start;
    TimesAt(video, shift, at);
    DecodeTimesRise(video, shift);
    SameElements(clamped, DecodeTimes(video, shift), clamped[at]);
  }

  lemma SameElements(a: seq<int>, b: seq<int>, x: int)
    requires multiset(a) == multiset(b) && x in a
    ensures x in b
  {
    assert x in multiset(a);
  }

  // ----- Where a time is not kept -----

  /** Two frames further apart than 32 bits can say. */
  const FAR_APART: seq<Block> := [Block(1, 0, true, []), Block(1, 0x1_0000_0000, false, [])]

  lemma TwoSorted(a: int, b: int)
    requires 0 <= a <= b
    ensures Sort(EARLIER, Clamped([a, b])) == [a, b]
  {
    assert [a, b][1..] == [b] && [b][1..] == [];
    assert Clamped([b]) == [b] && Clamped([a, b]) == [a] + [b];
    assert ([a] + [b])[1..] == [b];
    assert Sort(EARLIER, [b]) == Insert(EARLIER, b, []) == [b];
  }

  /** The second of them is decoded and presented too early. */
  lemma AWideGapIsCut()
    ensures
      var (base, samples) := (DecodeTimes(FAR_APART, 0)[0], Samples(FAR_APART, 0, 0x1_0000_0001));
      && PlayedAt(base, samples, 1) < DecodeTimes(FAR_APART, 0)[1]
      && PlayedAt(base, samples, 1) + samples[1].offset < FAR_APART[1].timestamp
  {
    var video, end := FAR_APART, 0x1_0000_0001;
    assert video[1..] == [video[1]] && [video[1]][1..] == [];
    assert Times(video, 0) == [0, 0x1_0000_0000];
    TwoSorted(0, 0x1_0000_0000);
    assert Gap(video, 0, end, 0) == 0x1_0000_0000;
    PlayedAtItsTime(video, 0, end, 1);
    PresentedAtItsOwnTime(video, 0, end, 1);
  }

  /** A frame before zero is clamped, and the offsets do not sum to zero. */
  lemma AClampedTimeShows()
    ensures Sum(Offsets(Samples([Block(1, -1, true, [])], 0, 1))) != 0
  {
    OffsetsSumToZero([Block(1, -1, true, [])], 0, 1);
    assert [Block(1, -1, true, [])][0].timestamp + 0 < 0;
  }
}
