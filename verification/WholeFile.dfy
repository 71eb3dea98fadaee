/**
 A Matroska file's bytes in, its segments' bytes out: reading (crates/anistream-cast/src/mkv.rs),
 planning and cutting (crates/anistream-cast/src/remux.rs) put together, and what a player makes of
 it.
 */
module WholeFile {
  import opened Bytes
  import opened Segments
  import opened Presented
  import Clusters
  import Mkv

  type Taking = (Reading, Block) -> (Reading, bool)

  /** What `segment` hands to `blocks`. */
  function TakingFor(q: Query): Taking { (r: Reading, b: Block) => Take(q, r, b) }

  /** Reading a segment's blocks is handing them to it one by one. */
  lemma {:induction false} ReadsAsTaken(q: Query, r: Reading, blocks: seq<Block>)
    ensures Clusters.Taken(TakingFor(q), r, blocks).0 == Read(q, r, blocks)
    decreases |blocks|
  {
    if blocks != [] {
      var (next, more) := Take(q, r, blocks[0]);
      if more {
        ReadsAsTaken(q, next, blocks[1..]);
      }
    }
  }

  /** What a segment's reading comes to, of the bytes of a file from `at` on; or an error. */
  function ReadBytes(data: seq<Byte>, q: Query, at: nat): (Reading, Option<Mkv.DemuxError>) {
    Clusters.Served(TakingFor(q), NOTHING, Clusters.BlocksFrom(Clusters.MATROSKA, data, at))
  }

  /** The reading half of `segment`, over a file's bytes. */
  method ReadSegmentBytes(data: seq<Byte>, q: Query, at: nat)
    returns (r: Result<Reading, Mkv.DemuxError>)
    ensures
      var (reading, error) := ReadBytes(data, q, at);
      r == if error.Some? then Err(error.value) else Ok(reading)
  {
    var reading, error := Clusters.ReadBlocks(Clusters.MATROSKA, data, at, TakingFor(q), NOTHING);
    return if error.Some? then Err(error.value) else Ok(reading);
  }

  /** A file as it is printed: what stands before its clusters, they, and what stands behind. */
  datatype Printed = Printed(head: seq<Byte>, clusters: seq<Clusters.Printed>, tail: seq<Byte>)

  predicate Readable(p: Printed) {
    Clusters.Pieces(p.clusters).Some? && Clusters.Ends(Clusters.MATROSKA, p.tail)
  }

  function BytesOf(p: Printed): seq<Byte>
    requires Readable(p)
  {
    p.head + (Clusters.PiecesBytes(Clusters.Pieces(p.clusters).value) + p.tail)
  }

  /** Its clusters, each where it lies. */
  function FileOf(p: Printed): seq<Cluster>
    requires Readable(p)
  {
    Clusters.Placed(|p.head|, Clusters.Pieces(p.clusters).value)
  }

  /** A segment read from a file's bytes is read from its clusters, with no error. */
  lemma BytesRead(p: Printed, q: Query, at: nat)
    requires Readable(p) && Has(FileOf(p), at)
    ensures ReadBytes(BytesOf(p), q, at) == (Read(q, NOTHING, From(FileOf(p), at)), None)
  {
    var data := BytesOf(p);
    assert data[|p.head|..] == Clusters.PiecesBytes(Clusters.Pieces(p.clusters).value) + p.tail;
    Clusters.ReadsFromAnyCluster(data, |p.head|, p.clusters, p.tail, at);
    ReadsAsTaken(q, NOTHING, From(FileOf(p), at));
  }

  /** The segments planned for a file. */
  function Planned(p: Printed, cues: seq<Cue>, video: nat, duration: nat, target: nat): seq<Segment>
    requires Keys(cues, video, |p.head|) != []
  {
    var keys := Keys(cues, video, |p.head|);
    Cut(keys[1..], keys[0].time, keys[0].cluster, target, duration)
  }

  /** The bytes served for a segment, its video read from the file's bytes. */
  predicate ServedFrom(
    data: seq<Byte>, bytes: seq<Byte>, t: Tracks, shift: int, s: Segment, asked: Asked)
  {
    var (reading, error) := ReadBytes(data, Query(t, s.start, s.end, s.start), asked.at.cluster);
    error.None? && Serves(bytes, reading.video, shift, s, asked)
  }

  lemma ServedIs(
    p: Printed, bytes: seq<Byte>, t: Tracks, shift: int, s: Segment, asked: Asked)
    requires Readable(p) && Has(FileOf(p), asked.at.cluster)
    requires ServedFrom(BytesOf(p), bytes, t, shift, s, asked)
    ensures Serves(bytes, VideoOf(FileOf(p), t, s, asked), shift, s, asked)
  {
    BytesRead(p, Query(t, s.start, s.end, s.start), asked.at.cluster);
  }

  lemma AllServed(
    p: Printed, bytes: seq<seq<Byte>>, t: Tracks, shift: int, segments: seq<Segment>, asked: seq<Asked>)
    requires Readable(p) && |bytes| == |segments| == |asked|
    requires forall i | 0 <= i < |segments| :: Has(FileOf(p), asked[i].at.cluster)
    requires forall i | 0 <= i < |segments| ::
               ServedFrom(BytesOf(p), bytes[i], t, shift, segments[i], asked[i])
    ensures forall i | 0 <= i < |segments| ::
              Serves(bytes[i], VideosOf(FileOf(p), t, segments, asked)[i], shift, segments[i], asked[i])
  {
    forall i | 0 <= i < |segments|
      ensures Serves(bytes[i], VideosOf(FileOf(p), t, segments, asked)[i], shift, segments[i], asked[i])
    {
      ServedIs(p, bytes[i], t, shift, segments[i], asked[i]);
    }
  }

  lemma ServedShows(
    p: Printed, t: Tracks, shift: int, segments: seq<Segment>, asked: seq<Asked>,
    bytes: seq<seq<Byte>>, to: nat)
    requires Readable(p) && KeyframesRise(All(FileOf(p)), t.video) && Tile(segments, 0, to)
    requires |asked| == |bytes| == |segments|
    requires forall i | 0 <= i < |segments| ::
               Honest(FileOf(p), t.video, asked[i].at) && asked[i].at.time <= segments[i].start
    requires forall i | 0 <= i < |segments| ::
               ServedFrom(BytesOf(p), bytes[i], t, shift, segments[i], asked[i])
    ensures ShownAll(READER, bytes) == Some(ShownOf(Between(All(FileOf(p)), t.video, 0, to), shift))
  {
    AllServed(p, bytes, t, shift, segments, asked);
    SegmentsShowTheFile(FileOf(p), t, shift, segments, asked, bytes, 0, to);
  }

  lemma PlannedTiles(p: Printed, cues: seq<Cue>, video: nat, duration: nat, target: nat)
    requires Keys(cues, video, |p.head|) != [] && duration > 0
    ensures
      var segments := Planned(p, cues, video, duration, target);
      Tile(segments, 0, EndOf(segments, 0)) && EndOf(segments, 0) >= duration
  {
    PlanCovers(cues, video, |p.head|, duration, target);
  }

  /**
   A file's bytes in, its segments' bytes out: for a file whose keyframes rise in time and whose cues
   name their keyframe's cluster, planned from its cues, each segment read from the bytes at any of
   the plan's keys at or before its start, a player of the segments' bytes shows the file's video
   from its first keyframe to the end of the plan, which is the file's duration or later.
   */
  lemma FileInSegmentsOut(
    p: Printed, cues: seq<Cue>, t: Tracks, duration: nat, target: nat, shift: int,
    asked: seq<Asked>, bytes: seq<seq<Byte>>)
    requires Readable(p) && KeyframesRise(All(FileOf(p)), t.video)
    requires Keys(cues, t.video, |p.head|) != [] && duration > 0
    requires forall k <- Keys(cues, t.video, |p.head|) :: Honest(FileOf(p), t.video, k)
    requires |asked| == |bytes| == |Planned(p, cues, t.video, duration, target)|
    requires
      var segments := Planned(p, cues, t.video, duration, target);
      forall i | 0 <= i < |segments| ::
        && asked[i].at in Keys(cues, t.video, |p.head|) && asked[i].at.time <= segments[i].start
        && ServedFrom(BytesOf(p), bytes[i], t, shift, segments[i], asked[i])
    ensures
      var end := EndOf(Planned(p, cues, t.video, duration, target), 0);
      && end >= duration
      && ShownAll(READER, bytes) == Some(ShownOf(Between(All(FileOf(p)), t.video, 0, end), shift))
  {
    var segments := Planned(p, cues, t.video, duration, target);
    PlannedTiles(p, cues, t.video, duration, target);
    ServedShows(p, t, shift, segments, asked, bytes, EndOf(segments, 0));
  }
}
