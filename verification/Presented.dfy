/**
 Segments end to end (crates/anistream-cast/src/remux.rs, `Remuxer::segment`): what a reader of
 ISO/IEC 14496-12 shows of the bytes of a file's segments is the file's own frames, each at its time.
 */
module Presented {
  import opened Bytes
  import opened Fragment
  import opened FragmentReader
  import opened Segments
  import opened Timing

  const VIDEO: U32 := 1

  /** A frame as a player shows it. */
  datatype Shown = Shown(time: int, key: bool, data: seq<Byte>)

  /** The audio's share of a segment: its tracks, each with its payloads. */
  datatype Sound = Sound(trafs: seq<Traf>, groups: seq<seq<seq<Byte>>>)

  function Payloads(video: seq<Block>): (r: seq<seq<Byte>>)
    ensures |r| == |video| && forall i | 0 <= i < |r| :: r[i] == video[i].data
  {
    seq(|video|, i requires 0 <= i < |video| => video[i].data)
  }

  /** What the fields of a fragment can say of a segment's video. */
  predicate VideoFits(video: seq<Block>, shift: int, end: int) {
    && video != [] && 16 * |video| + 64 < WORD32
    && (forall i | 0 <= i < |video| - 1 :: Gap(video, shift, end, i) <= U32_MAX)
    && 0 <= DecodeTimes(video, shift)[0] < 0x1_0000_0000_0000_0000
    && (forall i | 0 <= i < |video| ::
          |video[i].data| <= U32_MAX && OffsetFits(SampleOf(video, shift, end, i)))
  }

  function VideoTraf(video: seq<Block>, shift: int, end: int): Traf
    requires VideoFits(video, shift, end)
  {
    Traf(VIDEO, DecodeTimes(video, shift)[0], Samples(video, shift, end))
  }

  /** The bytes of one segment: its video, then its sound. */
  function SegmentBytes(
    sequence: U32, video: seq<Block>, shift: int, end: int, sound: Sound): seq<Byte>
    requires VideoFits(video, shift, end)
  {
    FragmentBytes(sequence, [VideoTraf(video, shift, end)] + sound.trafs,
                  Flatten([Payloads(video)] + sound.groups))
  }

  // ----- What a reader shows -----

  /** When a reader decodes a track's `i`th sample. */
  function DecodedAt(track: Track, i: nat): int
    requires i <= |track.samples|
  {
    if i == 0 then track.base else DecodedAt(track, i - 1) + track.samples[i - 1].duration
  }

  /** The frames a reader shows of a track, the first `n`. */
  function ShownBy(track: Track, n: nat): seq<Shown>
    requires n <= |track.samples| == |track.payloads|
  {
    if n == 0 then []
    else
      ShownBy(track, n - 1)
      + [Shown(DecodedAt(track, n - 1) + track.samples[n - 1].offset,
               track.samples[n - 1].sync, track.payloads[n - 1])]
  }

  /** The frames of the file, their times shifted. */
  function ShownOf(video: seq<Block>, shift: int): seq<Shown> {
    if video == [] then []
    else
      var n := |video| - 1;
      ShownOf(video[..n], shift) + [Shown(video[n].timestamp + shift, video[n].key, video[n].data)]
  }

  lemma {:induction false} StoredAt(samples: seq<Sample>, i: nat)
    requires i < |samples|
    ensures AllStored(samples)[i] == StoredAs(samples[i])
  {
    if i > 0 {
      StoredAt(samples[1..], i - 1);
    }
  }

  lemma {:induction false} DecodedAsPlayed(track: Track, samples: seq<Sample>, i: nat)
    requires track.samples == AllStored(samples) && i <= |samples|
    ensures DecodedAt(track, i) == PlayedAt(track.base, samples, i)
  {
    if i > 0 {
      DecodedAsPlayed(track, samples, i - 1);
      StoredAt(samples, i - 1);
    }
  }

  lemma SizedVideo(video: seq<Block>, shift: int, end: int)
    requires VideoFits(video, shift, end)
    ensures TrackFits(VideoTraf(video, shift, end), Payloads(video))
  {
    var samples := Samples(video, shift, end);
    forall i | 0 <= i < |samples| ensures samples[i] == SampleOf(video, shift, end, i) {
      SamplesAt(video, shift, end, 0, i);
    }
  }

  /** The video's track as it is read back. */
  function VideoTrack(video: seq<Block>, shift: int, end: int): Track
    requires VideoFits(video, shift, end)
  {
    Wanted(VideoTraf(video, shift, end), Payloads(video))
  }

  /** A track's `i`th sample is that frame, at the time its file says. */
  predicate Shows(track: Track, i: nat, frame: Block, shift: int)
    requires i < |track.samples| == |track.payloads|
  {
    && DecodedAt(track, i) + track.samples[i].offset == frame.timestamp + shift
    && (track.samples[i].sync <==> frame.key)
    && track.payloads[i] == frame.data
  }

  lemma FrameShown(video: seq<Block>, shift: int, end: int, i: nat)
    requires VideoFits(video, shift, end) && i < |video|
    ensures Shows(VideoTrack(video, shift, end), i, video[i], shift)
  {
    var samples := Samples(video, shift, end);
    DecodedAsPlayed(VideoTrack(video, shift, end), samples, i);
    StoredAt(samples, i);
    SamplesAt(video, shift, end, 0, i);
    PresentedAtItsOwnTime(video, shift, end, i);
  }

  lemma {:induction false} FramesShown(track: Track, video: seq<Block>, shift: int, n: nat)
    requires n <= |video| == |track.samples| == |track.payloads|
    requires forall i | 0 <= i < n :: Shows(track, i, video[i], shift)
    ensures ShownBy(track, n) == ShownOf(video[..n], shift)
  {
    if n > 0 {
      FramesShown(track, video, shift, n - 1);
      assert Shows(track, n - 1, video[n - 1], shift);
      assert video[..n][..n - 1] == video[..n - 1];
    }
  }

  lemma TrackShown(video: seq<Block>, shift: int, end: int)
    requires VideoFits(video, shift, end)
    ensures
      var track := VideoTrack(video, shift, end);
      && |track.samples| == |track.payloads|
      && ShownBy(track, |track.samples|) == ShownOf(video, shift)
  {
    var track := VideoTrack(video, shift, end);
    forall i | 0 <= i < |video| ensures Shows(track, i, video[i], shift) {
      FrameShown(video, shift, end, i);
    }
    FramesShown(track, video, shift, |video|);
    assert video[..|video|] == video;
  }

  // ----- One segment -----

  function FirstTrack(bytes: seq<Byte>): Option<Track> {
    match ReadFragment(bytes)
    case None => None
    case Some((_, tracks)) => if tracks == [] then None else Some(tracks[0])
  }

  lemma VideoReadsBack(sequence: U32, video: seq<Block>, shift: int, end: int, sound: Sound)
    requires VideoFits(video, shift, end) && Fits(sound.trafs, sound.groups)
    requires |SegmentBytes(sequence, video, shift, end, sound)| < 0x8000_0000
    ensures FirstTrack(SegmentBytes(sequence, video, shift, end, sound))
         == Some(VideoTrack(video, shift, end))
  {
    var trafs := [VideoTraf(video, shift, end)] + sound.trafs;
    var groups := [Payloads(video)] + sound.groups;
    SizedVideo(video, shift, end);
    forall i | 0 <= i < |trafs| ensures TrackFits(trafs[i], groups[i]) {
      assert i > 0 ==> trafs[i] == sound.trafs[i - 1] && groups[i] == sound.groups[i - 1];
    }
    FragmentReadsBack(sequence, trafs, groups);
    assert FragmentReader.Tracks(trafs, groups)[0] == Wanted(trafs[0], groups[0]);
  }

  /** All that a reader shows of a segment's video. */
  function ShownIn(bytes: seq<Byte>): Option<seq<Shown>> {
    match FirstTrack(bytes)
    case None => None
    case Some(track) =>
      if |track.samples| != |track.payloads| then None else Some(ShownBy(track, |track.samples|))
  }

  /**
   A reader of a segment's bytes shows its frames and no others: each with its own bytes, a key
   frame as one, at the time its file says, shifted.
   */
  lemma SegmentShowsItsFrames(
    sequence: U32, video: seq<Block>, shift: int, end: int, sound: Sound)
    requires VideoFits(video, shift, end) && Fits(sound.trafs, sound.groups)
    requires |SegmentBytes(sequence, video, shift, end, sound)| < 0x8000_0000
    ensures ShownIn(SegmentBytes(sequence, video, shift, end, sound)) == Some(ShownOf(video, shift))
  {
    VideoReadsBack(sequence, video, shift, end, sound);
    TrackShown(video, shift, end);
  }

  /** And plays from exactly its start to exactly its end when its frames are inside it. */
  lemma SegmentSpansItsTime(video: seq<Block>, shift: int, start: int, end: int)
    requires VideoFits(video, shift, end) && Inside(video, start, end) && start + shift >= 0
    requires Narrow(video, shift, end)
    ensures
      var track := VideoTrack(video, shift, end);
      && DecodedAt(track, 0) == start + shift
      && DecodedAt(track, |track.samples|) == end + shift
  {
    DecodedAsPlayed(VideoTrack(video, shift, end), Samples(video, shift, end), |video|);
    SegmentsAbut(video, shift, start, end);
  }

  // ----- Every segment of a file -----

  /** A segment as it is asked for: the key it is read from, its number and its sound. */
  datatype Asked = Asked(at: Key, sequence: U32, sound: Sound)

  function VideoOf(file: seq<Cluster>, t: Tracks, s: Segment, asked: Asked): seq<Block> {
    Read(Query(t, s.start, s.end, s.start), NOTHING, From(file, asked.at.cluster)).video
  }

  /** The bytes served for a segment: it has video, and a fragment can say it. */
  predicate Serves(
    bytes: seq<Byte>, video: seq<Block>, shift: int, s: Segment, asked: Asked)
  {
    && VideoFits(video, shift, s.end) && Fits(asked.sound.trafs, asked.sound.groups)
    && bytes == SegmentBytes(asked.sequence, video, shift, s.end, asked.sound)
    && |bytes| < 0x8000_0000
  }

  function VideosOf(
    file: seq<Cluster>, t: Tracks, segments: seq<Segment>, asked: seq<Asked>): (r: seq<seq<Block>>)
    requires |asked| == |segments|
    ensures |r| == |segments|
    ensures forall i | 0 <= i < |r| :: r[i] == VideoOf(file, t, segments[i], asked[i])
  {
    if segments == [] then []
    else [VideoOf(file, t, segments[0], asked[0])] + VideosOf(file, t, segments[1..], asked[1..])
  }

  function KeysOf(asked: seq<Asked>): (r: seq<Key>)
    ensures |r| == |asked| && forall i | 0 <= i < |r| :: r[i] == asked[i].at
  {
    seq(|asked|, i requires 0 <= i < |asked| => asked[i].at)
  }

  type Player = seq<Byte> -> Option<seq<Shown>>

  const READER: Player := (bytes: seq<Byte>) => ShownIn(bytes)

  /** What a player shows of segments one after another. */
  function ShownAll(player: Player, segments: seq<seq<Byte>>): Option<seq<Shown>> {
    if segments == [] then Some([])
    else
      match (player(segments[0]), ShownAll(player, segments[1..]))
      case (Some(shown), Some(more)) => Some(shown + more)
      case _ => None
  }

  lemma {:induction false} ShownOfConcat(a: seq<Block>, b: seq<Block>, shift: int)
    ensures ShownOf(a + b, shift) == ShownOf(a, shift) + ShownOf(b, shift)
  {
    if b == [] {
      assert a + b == a;
    } else {
      var n := |b| - 1;
      ShownOfConcat(a, b[..n], shift);
      assert (a + b)[..|a + b| - 1] == a + b[..n];
      Regroup(ShownOf(a, shift), ShownOf(b[..n], shift),
              [Shown(b[n].timestamp + shift, b[n].key, b[n].data)]);
    }
  }

  lemma {:induction false} ShownOneByOne(
    player: Player, segments: seq<seq<Byte>>, videos: seq<seq<Block>>, shift: int)
    requires |segments| == |videos|
    requires forall i | 0 <= i < |segments| :: player(segments[i]) == Some(ShownOf(videos[i], shift))
    ensures ShownAll(player, segments) == Some(ShownOf(Flatten(videos), shift))
  {
    if segments != [] {
      ShownOneByOne(player, segments[1..], videos[1..], shift);
      ShownOfConcat(videos[0], Flatten(videos[1..]), shift);
    }
  }

  lemma EachShown(
    bytes: seq<seq<Byte>>, videos: seq<seq<Block>>, shift: int, segments: seq<Segment>,
    asked: seq<Asked>)
    requires |bytes| == |videos| == |segments| == |asked|
    requires forall i | 0 <= i < |bytes| :: Serves(bytes[i], videos[i], shift, segments[i], asked[i])
    ensures forall i | 0 <= i < |bytes| :: READER(bytes[i]) == Some(ShownOf(videos[i], shift))
  {
    forall i | 0 <= i < |bytes| ensures READER(bytes[i]) == Some(ShownOf(videos[i], shift)) {
      assert Serves(bytes[i], videos[i], shift, segments[i], asked[i]);
      SegmentShowsItsFrames(asked[i].sequence, videos[i], shift, segments[i].end, asked[i].sound);
    }
  }

  lemma {:induction false} TheirVideos(
    file: seq<Cluster>, t: Tracks, segments: seq<Segment>, asked: seq<Asked>)
    requires |asked| == |segments|
    ensures Flatten(VideosOf(file, t, segments, asked)) == VideoOfAll(file, t, segments, KeysOf(asked))
    decreases |segments|
  {
    if segments != [] {
      TheirVideos(file, t, segments[1..], asked[1..]);
      assert KeysOf(asked)[1..] == KeysOf(asked[1..]);
      assert VideosOf(file, t, segments, asked)[1..] == VideosOf(file, t, segments[1..], asked[1..]);
    }
  }

  lemma TheirsIsTheFile(
    player: Player, file: seq<Cluster>, t: Tracks, shift: int, segments: seq<Segment>,
    asked: seq<Asked>, bytes: seq<seq<Byte>>, videos: seq<seq<Block>>, from: nat, to: nat)
    requires KeyframesRise(All(file), t.video) && Tile(segments, from, to)
    requires |asked| == |segments| == |bytes| && videos == VideosOf(file, t, segments, asked)
    requires forall i | 0 <= i < |segments| ::
               Honest(file, t.video, asked[i].at) && asked[i].at.time <= segments[i].start
    requires forall i | 0 <= i < |bytes| :: player(bytes[i]) == Some(ShownOf(videos[i], shift))
    ensures from <= to
    ensures ShownAll(player, bytes) == Some(ShownOf(Between(All(file), t.video, from, to), shift))
  {
    ShownOneByOne(player, bytes, videos, shift);
    TheirVideos(file, t, segments, asked);
    SegmentsPartitionTheVideo(file, t, segments, KeysOf(asked), from, to);
  }

  /**
   A player that reads every segment's bytes shows the file's video: every frame from the first
   keyframe at the first segment's start or later to the first at the last one's end or later,
   once, in the file's order, each at the time the file says, shifted.
   */
  lemma SegmentsShowTheFile(
    file: seq<Cluster>, t: Tracks, shift: int, segments: seq<Segment>, asked: seq<Asked>,
    bytes: seq<seq<Byte>>, from: nat, to: nat)
    requires KeyframesRise(All(file), t.video) && Tile(segments, from, to)
    requires |asked| == |segments| == |bytes|
    requires forall i | 0 <= i < |segments| ::
               Honest(file, t.video, asked[i].at) && asked[i].at.time <= segments[i].start
    requires forall i | 0 <= i < |segments| ::
               Serves(bytes[i], VideosOf(file, t, segments, asked)[i], shift, segments[i], asked[i])
    ensures from <= to
    ensures ShownAll(READER, bytes) == Some(ShownOf(Between(All(file), t.video, from, to), shift))
  {
    var videos := VideosOf(file, t, segments, asked);
    EachShown(bytes, videos, shift, segments, asked);
    TheirsIsTheFile(READER, file, t, shift, segments, asked, bytes, videos, from, to);
  }
}
