/**
 Audio re-encoded segment by segment: the running encoder of crates/anistream-cast/src/remux.rs
 (`Running`, `encode_audio` and the part of `segment` that picks where to read), over the
 `AacEncoder` and `AacStream` contract of crates/anistream-cast/src/aac.rs.

 An encoder answers as it likes: each stream it opens is a function of all it was fed so far.
 */
module Encode {
  import opened Bytes
  import opened Segments
  import opened Sorting

  datatype Fed = Fed(data: seq<Byte>, pts: real)
  datatype Unit = Unit(data: seq<Byte>, pts: real)

  /** What a stream gives for its latest frame, or at the end, given all it was fed; or an error. */
  datatype Stream = Stream(push: seq<Fed> -> Option<seq<Unit>>, flush: seq<Fed> -> Option<seq<Unit>>)

  /**
   A file being remuxed. `tick` is a tick's length in seconds, and `encoder` what opening a stream
   for the n-th time gives.
   */
  datatype Setup = Setup(
    file: seq<Cluster>, tracks: Tracks, segments: seq<Segment>, cues: seq<Key>, shift: int,
    lead: nat, tick: real, encoder: nat -> Option<Stream>)

  /** The running encoder; `fed` is what its stream was fed, and `first` the segment it began with. */
  datatype Running = Running(next: nat, fedUntil: int, stream: Stream, fed: seq<Fed>, first: nat)

  datatype State = State(running: Option<Running>, streams: nat)

  const FRESH := State(None, 0)

  /** A segment asked for, and whether the file can be read then. */
  datatype Request = Request(index: nat, readable: bool)

  datatype Outcome = Encoded(units: seq<Unit>) | NoSegment | ReadFailed | NoVideo | EncodeFailed

  const RATE := 48000.0
  const FRAME: nat := 1024

  function Seconds(setup: Setup, ticks: int): real { ticks as real * setup.tick }

  // ----- What one request does -----

  predicate Continued(state: State, index: nat) {
    state.running.Some? && state.running.value.next == index
  }

  /** The audio times wanted start here. */
  function EncodeFrom(setup: Setup, state: State, index: nat): int
    requires index < |setup.segments|
  {
    if Continued(state, index) then state.running.value.fedUntil
    else setup.segments[index].start - setup.lead
  }

  /** The cluster of the last cue at `from` or before. */
  function LastCue(cues: seq<Key>, from: int, otherwise: nat): nat {
    if cues == [] then otherwise
    else if cues[|cues| - 1].time <= from then cues[|cues| - 1].cluster
    else LastCue(cues[..|cues| - 1], from, otherwise)
  }

  /** Where a fresh encoder's segment is read from: the cue at or before its lead-in. */
  function FreshCluster(setup: Setup, index: nat): nat
    requires index < |setup.segments|
  {
    var s := setup.segments[index];
    if setup.lead > 0 then LastCue(setup.cues, s.start - setup.lead, s.cluster) else s.cluster
  }

  /** The cluster to start reading at. */
  function ReadFrom(setup: Setup, state: State, index: nat): nat
    requires index < |setup.segments|
  {
    if Continued(state, index) then setup.segments[index].cluster else FreshCluster(setup, index)
  }

  function Reading(setup: Setup, state: State, index: nat): Segments.Reading
    requires index < |setup.segments|
  {
    var s := setup.segments[index];
    Read(Query(setup.tracks, s.start, s.end, EncodeFrom(setup, state, index)), NOTHING,
         From(setup.file, ReadFrom(setup, state, index)))
  }

  function Since(time: int): Block -> bool { (b: Block) => b.timestamp >= time }

  function NotBefore(pts: real): Unit -> bool { (u: Unit) => u.pts >= pts }

  /** The frames as the encoder is fed them. */
  function Feeds(setup: Setup, frames: seq<Block>): (r: seq<Fed>)
    ensures |r| == |frames|
  {
    if frames == [] then []
    else [Fed(frames[0].data, Seconds(setup, frames[0].timestamp + setup.shift))]
         + Feeds(setup, frames[1..])
  }

  /** What a stream gives for `frames`, fed after `fed`. */
  function Push(stream: Stream, fed: seq<Fed>, frames: seq<Fed>): Option<seq<Unit>>
    decreases |frames|
  {
    if frames == [] then Some([])
    else
      match stream.push(fed + [frames[0]])
      case None => None
      case Some(units) =>
        match Push(stream, fed + [frames[0]], frames[1..])
        case None => None
        case Some(more) => Some(units + more)
  }

  function FedUntil(was: int, frames: seq<Block>): int {
    if frames == [] then was else frames[|frames| - 1].timestamp + 1
  }

  function Max(a: int, b: int): int { if a < b then b else a }

  /** The encoder to go on with, if it is there or can be opened, and how many were opened. */
  function Current(setup: Setup, state: State, index: nat, start: int): (Option<Running>, nat) {
    if Continued(state, index) then (state.running, state.streams)
    else
      match setup.encoder(state.streams)
      case None => (None, state.streams + 1)
      case Some(stream) =>
        (Some(Running(index, start - setup.lead, stream, [], index)), state.streams + 1)
  }

  /** All the units that feeding the encoder gives for a segment, before any is trimmed. */
  function Made(setup: Setup, r: Running, frames: seq<Block>, last: bool): Option<seq<Unit>> {
    var news := Feeds(setup, Filter(Since(r.fedUntil), frames));
    match Push(r.stream, r.fed, news)
    case None => None
    case Some(pushed) =>
      if !last then Some(pushed)
      else match r.stream.flush(r.fed + news)
        case None => None
        case Some(flushed) => Some(pushed + flushed)
  }

  /** The encoder after a segment. */
  function FedOn(setup: Setup, r: Running, index: nat, frames: seq<Block>): Running {
    var news := Filter(Since(r.fedUntil), frames);
    Running(index + 1, Max(FedUntil(r.fedUntil, news), r.fedUntil), r.stream,
            r.fed + Feeds(setup, news), r.first)
  }

  function TrimFrom(setup: Setup, start: int): real {
    Seconds(setup, start + setup.shift) - 0.000001
  }

  /** `encode_audio`: any error leaves no encoder behind. */
  function EncodeStep(
    setup: Setup, state: State, index: nat, start: int, frames: seq<Block>, last: bool)
    : (State, Option<seq<Unit>>)
  {
    var (current, streams) := Current(setup, state, index, start);
    if current.None? then (State(None, streams), None)
    else
      match Made(setup, current.value, frames, last)
      case None => (State(None, streams), None)
      case Some(units) =>
        (State(if last then None else Some(FedOn(setup, current.value, index, frames)), streams),
         Some(if Continued(state, index) then units
              else Filter(NotBefore(TrimFrom(setup, start)), units)))
  }

  function Serve(setup: Setup, state: State, request: Request): (State, Outcome) {
    var index := request.index;
    if index >= |setup.segments| then (state, NoSegment)
    else if !request.readable then (state, ReadFailed)
    else
      var got := Reading(setup, state, index);
      if got.video == [] then (state, NoVideo)
      else
        var (after, units) :=
          EncodeStep(setup, state, index, setup.segments[index].start, got.audio,
                     index + 1 == |setup.segments|);
        (after, if units.None? then EncodeFailed else Encoded(units.value))
  }

  /** The state after serving requests one after another. */
  function Run(setup: Setup, requests: seq<Request>): State {
    if requests == [] then FRESH
    else
      var n := |requests| - 1;
      Serve(setup, Run(setup, requests[..n]), requests[n]).0
  }

  // ----- The remuxer -----

  class Remuxer {
    const setup: Setup
    var running: Option<Running>
    var streams: nat

    constructor (setup: Setup)
      ensures this.setup == setup && View() == FRESH
    {
      this.setup := setup;
      running, streams := None, 0;
    }

    function View(): State reads this { State(running, streams) }

    /** The units for one segment, the encoder kept running unless it ends or fails. */
    method EncodeAudio(index: nat, start: int, frames: seq<Block>, last: bool)
      returns (r: Option<seq<Unit>>)
      modifies this
      ensures (View(), r) == EncodeStep(setup, old(View()), index, start, frames, last)
    {
      var continued := running.Some? && running.value.next == index;
      ghost var was := View();
      var current: Running;
      if continued {
        current := running.value;
        running := None;
      } else {
        running := None;
        var stream := setup.encoder(streams);
        streams := streams + 1;
        if stream.None? { return None; }
        current := Running(index, start - setup.lead, stream.value, [], index);
      }
      assert Current(setup, was, index, start) == (Some(current), streams);
      var units, fed, fedUntil, error := FeedAll(current, frames);
      if error { return None; }
      if last {
        var flushed := current.stream.flush(fed);
        if flushed.None? { return None; }
        units := units + flushed.value;
      }
      assert Made(setup, current, frames, last) == Some(units);
      if !continued {
        units := Filter(NotBefore(TrimFrom(setup, start)), units);
      }
      current := Running(index + 1, Max(fedUntil, current.fedUntil), current.stream, fed,
                         current.first);
      if !last {
        running := Some(current);
      }
      return Some(units);
    }

    /** Push the frames that are new to the stream. */
    method FeedAll(current: Running, frames: seq<Block>)
      returns (units: seq<Unit>, fed: seq<Fed>, fedUntil: int, error: bool)
      ensures
        var news := Filter(Since(current.fedUntil), frames);
        var pushed := Push(current.stream, current.fed, Feeds(setup, news));
        && error == pushed.None?
        && (!error ==> units == pushed.value && fed == current.fed + Feeds(setup, news)
                       && fedUntil == FedUntil(current.fedUntil, news))
    {
      units, fed, fedUntil, error := [], current.fed, current.fedUntil, false;
      ghost var news := Filter(Since(current.fedUntil), frames);
      ghost var done := [];
      assert [] + news == news;
      for i := 0 to |frames|
        invariant !error && news == done + Filter(Since(current.fedUntil), frames[i..])
        invariant fed == current.fed + Feeds(setup, done)
        invariant Push(current.stream, current.fed, Feeds(setup, done)) == Some(units)
        invariant fedUntil == FedUntil(current.fedUntil, done)
      {
        var frame := frames[i];
        assert frames[i..][1..] == frames[i + 1..];
        if frame.timestamp >= current.fedUntil {
          ghost var rest := Filter(Since(current.fedUntil), frames[i + 1..]);
          assert done + ([frame] + rest) == done + [frame] + rest;
          FeedsConcat(setup, done, [frame]);
          var new' := Fed(frame.data, Seconds(setup, frame.timestamp + setup.shift));
          assert Feeds(setup, [frame]) == [new'];
          PushConcat(current.stream, current.fed, Feeds(setup, done), [new']);
          assert current.fed + (Feeds(setup, done) + [new']) == fed + [new'];
          var more := current.stream.push(fed + [new']);
          PushOne(current.stream, fed, new');
          if more.None? {
            ghost var later := Feeds(setup, rest);
            FeedsConcat(setup, done + [frame], rest);
            PushConcat(current.stream, current.fed, Feeds(setup, done + [frame]), later);
            return units, fed, fedUntil, true;
          }
          units := units + more.value;
          fed := fed + [new'];
          fedUntil := frame.timestamp + 1;
          done := done + [frame];
        }
      }
      assert done + [] == done;
    }

    /** One segment asked for. */
    method Segment(request: Request) returns (outcome: Outcome)
      modifies this
      ensures (View(), outcome) == Serve(setup, old(View()), request)
    {
      var index := request.index;
      if index >= |setup.segments| { return NoSegment; }
      var s := setup.segments[index];
      var continued := running.Some? && running.value.next == index;
      var from := if continued then running.value.fedUntil else s.start - setup.lead;
      var cluster :=
        if !continued && from < s.start then LastCue(setup.cues, from, s.cluster) else s.cluster;
      if !request.readable { return ReadFailed; }
      var video, audio :=
        ReadSegment(Query(setup.tracks, s.start, s.end, from), From(setup.file, cluster));
      if video == [] { return NoVideo; }
      var units := EncodeAudio(index, s.start, audio, index + 1 == |setup.segments|);
      if units.None? { return EncodeFailed; }
      return Encoded(units.value);
    }
  }

  // ----- Pushing in parts -----

  lemma {:induction false} FeedsConcat(setup: Setup, a: seq<Block>, b: seq<Block>)
    ensures Feeds(setup, a + b) == Feeds(setup, a) + Feeds(setup, b)
  {
    if a == [] {
      assert a + b == b;
    } else {
      assert (a + b)[1..] == a[1..] + b;
      FeedsConcat(setup, a[1..], b);
    }
  }

  lemma PushOne(stream: Stream, fed: seq<Fed>, frame: Fed)
    ensures Push(stream, fed, [frame]) == stream.push(fed + [frame])
  {
    assert [frame][1..] == [];
    match stream.push(fed + [frame])
    case None =>
    case Some(units) => assert units + [] == units;
  }

  /** Feeding two runs of frames is feeding the one, then the other. */
  lemma {:induction false} PushConcat(stream: Stream, fed: seq<Fed>, a: seq<Fed>, b: seq<Fed>)
    ensures Push(stream, fed, a).None? ==> Push(stream, fed, a + b).None?
    ensures Push(stream, fed, a).Some? ==>
      match Push(stream, fed + a, b)
      case None => Push(stream, fed, a + b).None?
      case Some(more) => Push(stream, fed, a + b) == Some(Push(stream, fed, a).value + more)
    decreases |a|
  {
    if a == [] {
      assert a + b == b && fed + a == fed;
      match Push(stream, fed, b)
      case None =>
      case Some(more) => assert [] + more == more;
    } else {
      var next := fed + [a[0]];
      assert (a + b)[1..] == a[1..] + b && next + a[1..] == fed + a;
      PushConcat(stream, next, a[1..], b);
      match (stream.push(next), Push(stream, next, a[1..]), Push(stream, fed + a, b))
      case (Some(x), Some(y), Some(z)) => assert x + y + z == x + (y + z);
      case _ =>
    }
  }

  // ----- What a run of segments feeds its encoder -----

  function End(setup: Setup, index: nat): int
    requires index < |setup.segments|
  {
    setup.segments[index].end
  }

  /** The file's audio, its delay off, from `from` to `to`. */
  function Audio(setup: Setup, from: int, to: int): seq<Block> {
    AudioIn(All(setup.file), setup.tracks, false, from, to)
  }

  /**
   A file whose audio is in order, its segments one after another from cues, and no audio past a cue
   before the cue's cluster. A segment past 0 that a lead-in reaches below 0 from finds no cue there
   and is read from its own cluster: the clusters of those after it lie no earlier in the file.
   */
  ghost predicate WellCued(setup: Setup) {
    && AudioInOrder(All(setup.file), setup.tracks)
    && (forall i | 0 < i < |setup.segments| ::
          0 < setup.segments[i].start && setup.segments[i - 1].end == setup.segments[i].start)
    && (forall s <- setup.segments :: s.start < s.end && Key(s.start, s.cluster) in setup.cues)
    && (forall i, j | 0 <= i < j < |setup.segments| && 0 < setup.segments[i].start < setup.lead ::
          Before(setup.file, setup.segments[i].cluster) <= Before(setup.file, setup.segments[j].cluster))
    && setup.cues != [] && setup.cues[0].time == 0
    && (forall k <- setup.cues :: Clear(setup.file, setup.tracks, k))
  }

  /** No audio at or past the key's time lies before its cluster. */
  ghost predicate Clear(file: seq<Cluster>, t: Tracks, key: Key) {
    && Has(file, key.cluster)
    && (forall b <- Before(file, key.cluster) ::
          IsAudio(b, t) ==> key.time > 0 && b.timestamp - t.delay < key.time)
  }

  /** The frames a run that begins with `first` reads. */
  function RunFrames(setup: Setup, first: nat): seq<Block>
    requires first < |setup.segments|
  {
    From(setup.file, FreshCluster(setup, first))
  }

  /** A run's audio, its delay off: what is read of it from its lead-in on, up to `to`. */
  function RunAudio(setup: Setup, first: nat, from: int, to: int): seq<Block>
    requires first < |setup.segments|
  {
    AudioIn(RunFrames(setup, first), setup.tracks, false, from, to)
  }

  function LeadIn(setup: Setup, first: nat): int
    requires first < |setup.segments|
  {
    setup.segments[first].start - setup.lead
  }

  /** The running encoder was fed its run's audio, each frame once and in order, and no others. */
  ghost predicate FedItsRun(setup: Setup, r: Running) {
    && r.first < r.next < |setup.segments|
    && r.fed == Feeds(setup, RunAudio(setup, r.first, LeadIn(setup, r.first), End(setup, r.next - 1)))
    && LeadIn(setup, r.first) <= r.fedUntil <= End(setup, r.next - 1)
    && RunAudio(setup, r.first, r.fedUntil, End(setup, r.next - 1)) == []
    && Push(r.stream, [], r.fed).Some?
  }

  lemma {:induction false} AudioInConcat(
    a: seq<Block>, b: seq<Block>, t: Tracks, open: bool, from: int, to: int)
    ensures AudioIn(a + b, t, open, from, to)
         == AudioIn(a, t, open, from, to) + AudioIn(b, t, open, from, to)
  {
    if a == [] {
      assert a + b == b;
    } else {
      assert (a + b)[0] == a[0] && (a + b)[1..] == a[1..] + b;
      AudioInConcat(a[1..], b, t, open, from, to);
    }
  }

  /** Dropping what is before `from` drops what is before the start already there. */
  lemma {:induction false} SinceNarrows(
    blocks: seq<Block>, t: Tracks, open: bool, earlier: int, from: int, to: int)
    requires open || earlier <= from
    ensures Filter(Since(from), AudioIn(blocks, t, open, earlier, to))
         == AudioIn(blocks, t, false, from, to)
  {
    if blocks != [] {
      SinceNarrows(blocks[1..], t, open, earlier, from, to);
      var rest := AudioIn(blocks[1..], t, open, earlier, to);
      var own := blocks[0].(timestamp := blocks[0].timestamp - t.delay);
      assert ([own] + rest)[1..] == rest;
    }
  }

  /** Audio from `from` on, read from a cluster none of it is before, is the file's. */
  lemma ReadWhole(setup: Setup, cluster: nat, from: int, to: int)
    requires Has(setup.file, cluster)
    requires forall b <- Before(setup.file, cluster) ::
               IsAudio(b, setup.tracks) ==> b.timestamp - setup.tracks.delay < from
    ensures AudioIn(From(setup.file, cluster), setup.tracks, false, from, to)
         == Audio(setup, from, to)
  {
    BeforeAndFrom(setup.file, cluster);
    AudioBehind(Before(setup.file, cluster), From(setup.file, cluster), setup.tracks, from, to);
  }

  /** The frames a request brings its encoder, read from `cluster`. */
  lemma BringsSince(setup: Setup, cluster: nat, start: nat, end: nat, from: int, since: int)
    requires AudioInOrder(All(setup.file), setup.tracks) && Has(setup.file, cluster)
    requires start == 0 || from <= since
    ensures Filter(Since(since),
                   Read(Query(setup.tracks, start, end, from), NOTHING,
                        From(setup.file, cluster)).audio)
         == AudioIn(From(setup.file, cluster), setup.tracks, false, since, end)
  {
    var t, blocks := setup.tracks, From(setup.file, cluster);
    BeforeAndFrom(setup.file, cluster);
    AudioOrderBehind(Before(setup.file, cluster), blocks, t);
    ReadsItsAudio(Query(t, start, end, from), NOTHING, blocks);
    var own := AudioIn(blocks, t, start == 0, from, end);
    assert [] + own == own;
    SinceNarrows(blocks, t, start == 0, from, since, end);
  }

  lemma {:induction false} LastCueFits(cues: seq<Key>, from: int, otherwise: nat)
    requires cues != [] && cues[0].time <= from
    ensures exists k <- cues :: k.time <= from && LastCue(cues, from, otherwise) == k.cluster
  {
    var last := cues[|cues| - 1];
    if last.time <= from {
      assert last in cues;
    } else {
      LastCueFits(cues[..|cues| - 1], from, otherwise);
    }
  }

  /** A fresh encoder's cluster is one of the file's. */
  lemma FreshClusterIs(setup: Setup, index: nat)
    requires WellCued(setup) && index < |setup.segments|
    ensures Has(setup.file, FreshCluster(setup, index))
    ensures setup.segments[index].start == 0 || setup.lead <= setup.segments[index].start ==>
      forall b <- Before(setup.file, FreshCluster(setup, index)) :: IsAudio(b, setup.tracks) ==>
        b.timestamp - setup.tracks.delay < LeadIn(setup, index)
    ensures 0 < setup.segments[index].start < setup.lead ==>
      FreshCluster(setup, index) == setup.segments[index].cluster
  {
    var s := setup.segments[index];
    SegmentIn(setup, index);
    if setup.lead > 0 {
      if s.start >= setup.lead {
        LastCueFits(setup.cues, s.start - setup.lead, s.cluster);
      } else {
        NoCue(setup.cues, s.start - setup.lead, s.cluster);
      }
    }
  }

  lemma NothingAdded(a: seq<Block>, b: seq<Block>)
    ensures a + b == b <==> a == []
  {
    assert |a + b| == |a| + |b|;
    assert [] + b == b;
  }

  /**
   A run's audio is all the file's from its lead-in on exactly when none of that lies before the
   cluster the run is read from; and none does when the lead-in stays at 0 or above, or the segment
   starts at 0.
   */
  lemma LeadInClear(setup: Setup, first: nat, to: int)
    requires WellCued(setup) && first < |setup.segments|
    ensures RunAudio(setup, first, LeadIn(setup, first), to) == Audio(setup, LeadIn(setup, first), to)
      <==> AudioIn(Before(setup.file, FreshCluster(setup, first)), setup.tracks, false,
                   LeadIn(setup, first), to) == []
    ensures setup.segments[first].start == 0 || setup.lead <= setup.segments[first].start ==>
      RunAudio(setup, first, LeadIn(setup, first), to) == Audio(setup, LeadIn(setup, first), to)
  {
    var cluster, from := FreshCluster(setup, first), LeadIn(setup, first);
    var before, rest := Before(setup.file, cluster), From(setup.file, cluster);
    FreshClusterIs(setup, first);
    BeforeAndFrom(setup.file, cluster);
    AudioInConcat(before, rest, setup.tracks, false, from, to);
    NothingAdded(AudioIn(before, setup.tracks, false, from, to),
                 AudioIn(rest, setup.tracks, false, from, to));
    if setup.segments[first].start == 0 || setup.lead <= setup.segments[first].start {
      NoAudioIn(before, setup.tracks, false, from, to);
    }
  }

  lemma {:induction false} NoCue(cues: seq<Key>, from: int, otherwise: nat)
    requires from < 0
    ensures LastCue(cues, from, otherwise) == otherwise
  {
    if cues != [] {
      NoCue(cues[..|cues| - 1], from, otherwise);
    }
  }

  /** What a fresh encoder is fed: its run's audio from its lead-in to the segment's end. */
  lemma FreshFeeds(setup: Setup, state: State, index: nat)
    requires WellCued(setup) && index < |setup.segments| && !Continued(state, index)
    ensures Filter(Since(LeadIn(setup, index)), Reading(setup, state, index).audio)
         == RunAudio(setup, index, LeadIn(setup, index), End(setup, index))
  {
    var s, from := setup.segments[index], LeadIn(setup, index);
    FreshClusterIs(setup, index);
    BringsSince(setup, FreshCluster(setup, index), s.start, s.end, from, from);
  }

  lemma SegmentIn(setup: Setup, index: nat)
    requires WellCued(setup) && index < |setup.segments|
    ensures
      var s := setup.segments[index];
      && s.start < s.end && Clear(setup.file, setup.tracks, Key(s.start, s.cluster))
      && (index > 0 ==> s.start > 0 && End(setup, index - 1) == s.start)
  {
    assert setup.segments[index] in setup.segments;
  }

  /** Read on from where nothing before `start` is left, what lies behind a cut before it is all. */
  lemma RestSuffices(
    before: seq<Block>, rest: seq<Block>, t: Tracks, since: int, start: int, end: int)
    requires AudioInOrder(before + rest, t) && since <= start <= end
    requires forall b <- before :: IsAudio(b, t) ==> b.timestamp - t.delay < start
    requires AudioIn(before + rest, t, false, since, start) == []
    ensures AudioIn(rest, t, false, since, end) == AudioIn(before + rest, t, false, since, end)
    ensures AudioIn(before + rest, t, false, since, end) == AudioIn(before + rest, t, false, start, end)
  {
    AudioInConcat(before, rest, t, false, since, start);
    assert AudioIn(rest, t, false, since, start) == [];
    AudioOrderBehind(before, rest, t);
    AudioJoins(rest, t, false, since, start, end);
    AudioJoins(before + rest, t, false, since, start, end);
    AudioBehind(before, rest, t, start, end);
  }

  lemma AllBehind(setup: Setup, first: nat, since: int, to: int)
    requires WellCued(setup) && first < |setup.segments| && LeadIn(setup, first) <= since
    requires setup.segments[first].start == 0 || setup.lead <= setup.segments[first].start
    ensures RunAudio(setup, first, since, to) == Audio(setup, since, to)
  {
    FreshClusterIs(setup, first);
    ReadWhole(setup, FreshCluster(setup, first), since, to);
  }

  /** The frames between two clusters, the second no earlier. */
  lemma FramesBetween(file: seq<Cluster>, a: nat, b: nat) returns (mid: seq<Block>)
    requires Has(file, a) && Has(file, b) && Before(file, a) <= Before(file, b)
    ensures From(file, a) == mid + From(file, b)
    ensures forall x <- mid :: x in Before(file, b)
  {
    BeforeAndFrom(file, a);
    BeforeAndFrom(file, b);
    mid := Before(file, b)[|Before(file, a)|..];
    assert Before(file, b) == Before(file, a) + mid;
    var all := All(file);
    assert all[|Before(file, a)|..] == From(file, a);
    assert (Before(file, a) + mid + From(file, b))[|Before(file, a)|..] == mid + From(file, b);
  }

  /** What a continued segment's own cluster brings is what the run has left of it. */
  lemma BringsTheRest(setup: Setup, first: nat, index: nat, since: int)
    requires WellCued(setup) && first < index < |setup.segments|
    requires LeadIn(setup, first) <= since <= setup.segments[index].start
    requires RunAudio(setup, first, since, setup.segments[index].start) == []
    ensures AudioIn(From(setup.file, setup.segments[index].cluster), setup.tracks, false, since,
                    End(setup, index))
         == RunAudio(setup, first, since, End(setup, index))
         == RunAudio(setup, first, setup.segments[index].start, End(setup, index))
  {
    var s, t := setup.segments[index], setup.tracks;
    SegmentIn(setup, index);
    SegmentIn(setup, first);
    if setup.segments[first].start == 0 || setup.lead <= setup.segments[first].start {
      AllBehind(setup, first, since, s.start);
      AllBehind(setup, first, since, s.end);
      AllBehind(setup, first, s.start, s.end);
      BeforeAndFrom(setup.file, s.cluster);
      RestSuffices(Before(setup.file, s.cluster), From(setup.file, s.cluster), t, since, s.start, s.end);
    } else {
      FreshClusterIs(setup, first);
      var mid := FramesBetween(setup.file, FreshCluster(setup, first), s.cluster);
      RunInOrder(setup, first);
      RestSuffices(mid, From(setup.file, s.cluster), t, since, s.start, s.end);
    }
  }

  lemma RunInOrder(setup: Setup, first: nat)
    requires WellCued(setup) && first < |setup.segments|
    ensures AudioInOrder(RunFrames(setup, first), setup.tracks)
  {
    FreshClusterIs(setup, first);
    BeforeAndFrom(setup.file, FreshCluster(setup, first));
    AudioOrderBehind(Before(setup.file, FreshCluster(setup, first)), RunFrames(setup, first), setup.tracks);
  }

  /** What a continued encoder is fed: its run's audio of the segment. */
  lemma ContinuedFeeds(setup: Setup, state: State, index: nat)
    requires WellCued(setup) && index < |setup.segments| && Continued(state, index)
    requires FedItsRun(setup, state.running.value)
    ensures
      var r := state.running.value;
      && Filter(Since(r.fedUntil), Reading(setup, state, index).audio)
         == RunAudio(setup, r.first, r.fedUntil, End(setup, index))
      && RunAudio(setup, r.first, r.fedUntil, End(setup, index))
         == RunAudio(setup, r.first, setup.segments[index].start, End(setup, index))
  {
    var s, r := setup.segments[index], state.running.value;
    SegmentIn(setup, index);
    BringsSince(setup, s.cluster, s.start, s.end, r.fedUntil, r.fedUntil);
    BringsTheRest(setup, r.first, index, r.fedUntil);
  }

  /** Past the last frame fed, none of those asked for is left. */
  lemma {:induction false} NoneLeft(blocks: seq<Block>, t: Tracks, from: int, to: int)
    requires AudioInOrder(blocks, t)
    ensures
      var until := FedUntil(from, AudioIn(blocks, t, false, from, to));
      && from <= until && until <= Max(from, to)
      && AudioIn(blocks, t, false, until, to) == []
  {
    if blocks != [] {
      AudioOrderTail(blocks, t);
      NoneLeft(blocks[1..], t, from, to);
      var rest := AudioIn(blocks[1..], t, false, from, to);
      var until := FedUntil(from, rest);
      var time := blocks[0].timestamp - t.delay;
      if IsAudio(blocks[0], t) && from <= time < to {
        var own := blocks[0].(timestamp := time);
        assert ([own] + rest)[|rest|] == if rest == [] then own else rest[|rest| - 1];
        if rest == [] {
          NarrowerNone(blocks[1..], t, from, time + 1, to);
        } else {
          LastTime(blocks[1..], t, from, to, blocks[0].timestamp);
        }
      }
    }
  }

  lemma {:induction false} NarrowerNone(
    blocks: seq<Block>, t: Tracks, from: int, later: int, to: int)
    requires AudioIn(blocks, t, false, from, to) == [] && from <= later
    ensures AudioIn(blocks, t, false, later, to) == []
  {
    if blocks != [] {
      NarrowerNone(blocks[1..], t, from, later, to);
    }
  }

  lemma {:induction false} LastTime(blocks: seq<Block>, t: Tracks, from: int, to: int, least: int)
    requires forall b <- blocks | IsAudio(b, t) :: least <= b.timestamp
    ensures
      var got := AudioIn(blocks, t, false, from, to);
      got != [] ==> least - t.delay <= got[|got| - 1].timestamp
  {
    if blocks != [] {
      assert blocks[0] in blocks;
      LastTime(blocks[1..], t, from, to, least);
    }
  }

  lemma PushedOn(stream: Stream, fed: seq<Fed>, news: seq<Fed>)
    requires Push(stream, [], fed).Some? && Push(stream, fed, news).Some?
    ensures Push(stream, [], fed + news)
         == Some(Push(stream, [], fed).value + Push(stream, fed, news).value)
  {
    PushConcat(stream, [], fed, news);
    assert [] + fed == fed;
  }

  /** Fed what its run has left up to segment `index`'s end, an encoder has been fed its run. */
  lemma RunGrows(setup: Setup, r: Running, index: nat, frames: seq<Block>)
    requires WellCued(setup) && r.first <= index && index + 1 < |setup.segments|
    requires Push(r.stream, [], r.fed).Some? && Made(setup, r, frames, false).Some?
    requires LeadIn(setup, r.first) <= r.fedUntil <= End(setup, index)
    requires Filter(Since(r.fedUntil), frames) == RunAudio(setup, r.first, r.fedUntil, End(setup, index))
    requires r.fed + Feeds(setup, RunAudio(setup, r.first, r.fedUntil, End(setup, index)))
          == Feeds(setup, RunAudio(setup, r.first, LeadIn(setup, r.first), End(setup, index)))
    ensures FedItsRun(setup, FedOn(setup, r, index, frames))
  {
    RunInOrder(setup, r.first);
    NoneLeft(RunFrames(setup, r.first), setup.tracks, r.fedUntil, End(setup, index));
    PushedOn(r.stream, r.fed, Feeds(setup, RunAudio(setup, r.first, r.fedUntil, End(setup, index))));
  }

  lemma FreshGrows(setup: Setup, state: State, index: nat, r: Running, frames: seq<Block>)
    requires WellCued(setup) && index + 1 < |setup.segments| && !Continued(state, index)
    requires r.first == index && r.fed == [] && r.fedUntil == LeadIn(setup, index)
    requires frames == Reading(setup, state, index).audio
    requires Made(setup, r, frames, false).Some?
    ensures FedItsRun(setup, FedOn(setup, r, index, frames))
  {
    SegmentIn(setup, index);
    FreshFeeds(setup, state, index);
    var news := Feeds(setup, Filter(Since(r.fedUntil), frames));
    assert [] + news == news;
    RunGrows(setup, r, index, frames);
  }

  /** A run's feed up to a segment, and then the segment's, is its feed up to the segment's end. */
  lemma FeedJoins(setup: Setup, first: nat, index: nat)
    requires WellCued(setup) && first <= index < |setup.segments|
    ensures
      var start, from := setup.segments[index].start, LeadIn(setup, first);
      Feeds(setup, RunAudio(setup, first, from, start))
      + Feeds(setup, RunAudio(setup, first, start, End(setup, index)))
      == Feeds(setup, RunAudio(setup, first, from, End(setup, index)))
  {
    var start, from := setup.segments[index].start, LeadIn(setup, first);
    SegmentIn(setup, index);
    RunStartsBefore(setup, first, index);
    RunInOrder(setup, first);
    AudioJoins(RunFrames(setup, first), setup.tracks, false, from, start, End(setup, index));
    FeedsConcat(setup, RunAudio(setup, first, from, start),
                RunAudio(setup, first, start, End(setup, index)));
  }

  lemma ContinuedGrows(setup: Setup, state: State, index: nat, r: Running, frames: seq<Block>)
    requires WellCued(setup) && index + 1 < |setup.segments| && Continued(state, index)
    requires r == state.running.value && FedItsRun(setup, r)
    requires frames == Reading(setup, state, index).audio
    requires Made(setup, r, frames, false).Some?
    ensures FedItsRun(setup, FedOn(setup, r, index, frames))
  {
    SegmentIn(setup, index);
    ContinuedFeeds(setup, state, index);
    FeedJoins(setup, r.first, index);
    RunGrows(setup, r, index, frames);
  }

  /** A request that feeds the encoder and is not the last leaves it fed its run. */
  lemma FeedsItsRun(setup: Setup, state: State, index: nat, frames: seq<Block>, r: Running)
    requires WellCued(setup) && index + 1 < |setup.segments|
    requires state.running.Some? ==> FedItsRun(setup, state.running.value)
    requires frames == Reading(setup, state, index).audio
    requires Current(setup, state, index, setup.segments[index].start).0 == Some(r)
    requires Made(setup, r, frames, false).Some?
    ensures FedItsRun(setup, FedOn(setup, r, index, frames))
  {
    if Continued(state, index) {
      ContinuedGrows(setup, state, index, r, frames);
    } else {
      FreshGrows(setup, state, index, r, frames);
    }
  }

  lemma {:induction false} RunStartsBefore(setup: Setup, first: nat, index: nat)
    requires WellCued(setup) && first <= index < |setup.segments|
    ensures setup.segments[first].start <= setup.segments[index].start
    decreases index
  {
    if first < index {
      SegmentIn(setup, index);
      SegmentIn(setup, index - 1);
      RunStartsBefore(setup, first, index - 1);
    }
  }

  /** An encoder left running is the current one, fed on. */
  lemma LeftRunning(
    setup: Setup, state: State, index: nat, start: int, frames: seq<Block>, last: bool)
    returns (current: Option<Running>)
    ensures current == Current(setup, state, index, start).0
    ensures
      var after := EncodeStep(setup, state, index, start, frames, last).0.running;
      after.Some? ==>
        && current.Some? && !last && Made(setup, current.value, frames, false).Some?
        && after == Some(FedOn(setup, current.value, index, frames))
  {
    current := Current(setup, state, index, start).0;
  }

  lemma ServeKeeps(setup: Setup, state: State, request: Request)
    requires WellCued(setup)
    requires state.running.Some? ==> FedItsRun(setup, state.running.value)
    ensures
      var after := Serve(setup, state, request).0.running;
      after.Some? ==> FedItsRun(setup, after.value)
  {
    var index := request.index;
    if index < |setup.segments| {
      var start, frames := setup.segments[index].start, Reading(setup, state, index).audio;
      var last := index + 1 == |setup.segments|;
      var current := LeftRunning(setup, state, index, start, frames, last);
      if EncodeStep(setup, state, index, start, frames, last).0.running.Some? {
        FeedsItsRun(setup, state, index, frames, current.value);
      }
    }
  }

  /**
   Over any sequence of requests, repeats, jumps and failed ones included, a running encoder was
   fed its run's audio exactly once and in order: from a lead-in before the segment it began with
   to the end of the last one it served, of all that is read from where the run began.
   */
  lemma {:induction false} EachFrameFedOnce(setup: Setup, requests: seq<Request>)
    requires WellCued(setup)
    ensures Run(setup, requests).running.Some?
      ==> FedItsRun(setup, Run(setup, requests).running.value)
    decreases |requests|
  {
    if requests != [] {
      var n := |requests| - 1;
      EachFrameFedOnce(setup, requests[..n]);
      ServeKeeps(setup, Run(setup, requests[..n]), requests[n]);
    }
  }

  lemma RunIsTheFile(setup: Setup, r: Running)
    requires WellCued(setup) && FedItsRun(setup, r)
    requires setup.segments[r.first].start == 0 || setup.lead <= setup.segments[r.first].start
    ensures r.fed == Feeds(setup, Audio(setup, LeadIn(setup, r.first), End(setup, r.next - 1)))
  {
    LeadInClear(setup, r.first, End(setup, r.next - 1));
  }

  /** So it was fed all the file's audio there, unless the lead-in reaches below 0 from past it. */
  lemma AllTheFileIsFed(setup: Setup, requests: seq<Request>, r: Running)
    requires WellCued(setup) && Run(setup, requests).running == Some(r)
    ensures r.first < r.next < |setup.segments|
    ensures setup.segments[r.first].start == 0 || setup.lead <= setup.segments[r.first].start ==>
              r.fed == Feeds(setup, Audio(setup, LeadIn(setup, r.first), End(setup, r.next - 1)))
  {
    EachFrameFedOnce(setup, requests);
    if setup.segments[r.first].start == 0 || setup.lead <= setup.segments[r.first].start {
      RunIsTheFile(setup, r);
    }
  }

  /** No encoder survives an error, nor the last segment. */
  lemma NoneSurvives(setup: Setup, state: State, request: Request)
    ensures
      var (after, outcome) := Serve(setup, state, request);
      && (outcome.EncodeFailed? ==> after.running.None?)
      && (outcome.Encoded? ==>
            (after.running.None? <==> request.index + 1 == |setup.segments|))
      && (outcome.Encoded? && after.running.Some? ==>
            after.running.value.next == request.index + 1
            && after.running.value.first
               == if Continued(state, request.index) then state.running.value.first
                  else request.index)
      && (!outcome.Encoded? && !outcome.EncodeFailed? ==> after == state)
  {
  }

  // ----- Where a continued segment's audio starts -----

  /** `round`, of a number that is not negative. */
  function Round(x: real): int { (x + 0.5).Floor }

  /** The `tfdt` of a segment's audio. */
  function Base(units: seq<Unit>): int
    requires units != []
  {
    Round((if units[0].pts < 0.0 then 0.0 else units[0].pts) * RATE)
  }

  /** Each unit 1024 samples after the one before. */
  ghost predicate Spaced(units: seq<Unit>) {
    forall i | 0 <= i < |units| - 1 :: units[i + 1].pts * RATE == units[i].pts * RATE + FRAME as real
  }

  /** Every stream spaces its units so, those of its flush among them. */
  ghost predicate SpacesUnits(stream: Stream) {
    forall fed: seq<Fed> :: Push(stream, [], fed).Some? ==>
      && Spaced(Push(stream, [], fed).value)
      && (stream.flush(fed).Some? ==> Spaced(Push(stream, [], fed).value + stream.flush(fed).value))
  }

  lemma {:induction false} SpacedAt(units: seq<Unit>, i: nat)
    requires Spaced(units) && i < |units|
    ensures units[i].pts * RATE == units[0].pts * RATE + (FRAME * i) as real
    decreases i
  {
    if i > 0 {
      SpacedAt(units, i - 1);
      assert units[i - 1 + 1].pts * RATE == units[i - 1].pts * RATE + FRAME as real;
    }
  }

  lemma BasesApart(units: seq<Unit>, more: seq<Unit>)
    requires Spaced(units + more) && units != [] && more != []
    ensures Base(more) == Base(units) + FRAME * |units| <==> units[0].pts * RATE >= -0.5
  {
    SpacedAt(units + more, |units|);
    var x, n := units[0].pts * RATE, FRAME * |units|;
    assert more[0].pts * RATE == x + n as real;
    assert n >= 1024;
    RoundApart(x, n);
  }

  lemma RoundApart(x: real, n: nat)
    requires n >= 1024
    ensures
      Round(if x + n as real < 0.0 then 0.0 else x + n as real) == Round(if x < 0.0 then 0.0 else x) + n
      <==> x >= -0.5
  {
    assert Round(0.0) == 0;
    if x >= 0.0 {
      assert (x + 0.5 + n as real).Floor == (x + 0.5).Floor + n;
    }
  }

  /** Trimming spaced units takes some off the front. */
  lemma {:induction false} TrimmedIsTail(pts: real, units: seq<Unit>) returns (k: nat)
    requires Spaced(units)
    ensures k <= |units| && Filter(NotBefore(pts), units) == units[k..]
  {
    if units == [] {
      k := 0;
    } else if units[0].pts >= pts {
      k := 0;
      AllKept(pts, units);
    } else {
      SpacedTail(units, 1);
      var rest := TrimmedIsTail(pts, units[1..]);
      k := rest + 1;
    }
  }

  lemma SpacedTail(units: seq<Unit>, k: nat)
    requires Spaced(units) && k <= |units|
    ensures Spaced(units[k..])
  {
    forall i | 0 <= i < |units[k..]| - 1
      ensures units[k..][i + 1].pts * RATE == units[k..][i].pts * RATE + FRAME as real
    {
      assert units[k + i + 1].pts * RATE == units[k + i].pts * RATE + FRAME as real;
    }
  }

  lemma {:induction false} AllKept(pts: real, units: seq<Unit>)
    requires Spaced(units) && (units != [] ==> units[0].pts >= pts)
    ensures Filter(NotBefore(pts), units) == units
  {
    if units != [] {
      if |units| > 1 {
        assert units[0 + 1].pts * RATE == units[0].pts * RATE + FRAME as real;
      }
      SpacedTail(units, 1);
      AllKept(pts, units[1..]);
      assert [units[0]] + units[1..] == units;
    }
  }

  /** What feeding a stream on gives goes on from what it gave before, spaced alike. */
  lemma MadeAfter(setup: Setup, r: Running, frames: seq<Block>, last: bool)
    requires SpacesUnits(r.stream) && Push(r.stream, [], r.fed).Some?
    requires Made(setup, r, frames, last).Some?
    ensures Spaced(Push(r.stream, [], r.fed).value + Made(setup, r, frames, last).value)
  {
    var news := Feeds(setup, Filter(Since(r.fedUntil), frames));
    PushedOn(r.stream, r.fed, news);
    var was, pushed := Push(r.stream, [], r.fed).value, Push(r.stream, r.fed, news).value;
    if last {
      var flushed := r.stream.flush(r.fed + news).value;
      assert was + (pushed + flushed) == was + pushed + flushed;
    }
  }

  lemma MadeSoFar(setup: Setup, r: Running, index: nat, frames: seq<Block>)
    requires Push(r.stream, [], r.fed).Some? && Made(setup, r, frames, false).Some?
    ensures Push(r.stream, [], FedOn(setup, r, index, frames).fed)
         == Some(Push(r.stream, [], r.fed).value + Made(setup, r, frames, false).value)
  {
    PushedOn(r.stream, r.fed, Feeds(setup, Filter(Since(r.fedUntil), frames)));
  }

  lemma InARow(setup: Setup, r: Running, next: Running, index: nat, a: seq<Block>, b: seq<Block>,
               last: bool)
    requires SpacesUnits(r.stream) && Push(r.stream, [], r.fed).Some?
    requires Made(setup, r, a, false).Some? && next == FedOn(setup, r, index, a)
    requires Made(setup, next, b, last).Some?
    ensures Spaced(Made(setup, r, a, false).value + Made(setup, next, b, last).value)
  {
    MadeSoFar(setup, r, index, a);
    MadeAfter(setup, next, b, last);
    LastTwoSpaced(Push(r.stream, [], r.fed).value, Made(setup, r, a, false).value,
                  Made(setup, next, b, last).value);
  }

  lemma LastTwoSpaced(was: seq<Unit>, u: seq<Unit>, v: seq<Unit>)
    requires Spaced(was + u + v)
    ensures Spaced(u + v)
  {
    SpacedTail(was + u + v, |was|);
    assert (was + u + v)[|was|..] == u + v;
  }

  lemma TrimmedInARow(pts: real, u: seq<Unit>, v: seq<Unit>)
    requires Spaced(u + v)
    ensures Spaced(Filter(NotBefore(pts), u) + v)
  {
    SpacedHead(u, v);
    var k := TrimmedIsTail(pts, u);
    SpacedTail(u + v, k);
    assert (u + v)[k..] == u[k..] + v;
  }

  lemma SpacedHead(u: seq<Unit>, v: seq<Unit>)
    requires Spaced(u + v)
    ensures Spaced(u)
  {
    forall i | 0 <= i < |u| - 1 ensures u[i + 1].pts * RATE == u[i].pts * RATE + FRAME as real {
      assert (u + v)[i + 1].pts * RATE == (u + v)[i].pts * RATE + FRAME as real;
    }
  }

  lemma ServePushes(setup: Setup, state: State, request: Request)
    requires state.running.Some? ==>
               Push(state.running.value.stream, [], state.running.value.fed).Some?
    ensures
      var after := Serve(setup, state, request).0.running;
      after.Some? ==> Push(after.value.stream, [], after.value.fed).Some?
  {
    var index := request.index;
    if index < |setup.segments| {
      var start, frames := setup.segments[index].start, Reading(setup, state, index).audio;
      var last := index + 1 == |setup.segments|;
      var current := LeftRunning(setup, state, index, start, frames, last);
      if EncodeStep(setup, state, index, start, frames, last).0.running.Some? {
        MadeSoFar(setup, current.value, index, frames);
      }
    }
  }

  /** A running encoder took all it was fed. */
  lemma {:induction false} FedPushes(setup: Setup, requests: seq<Request>)
    ensures
      var running := Run(setup, requests).running;
      running.Some? ==> Push(running.value.stream, [], running.value.fed).Some?
    decreases |requests|
  {
    if requests != [] {
      var n := |requests| - 1;
      FedPushes(setup, requests[..n]);
      ServePushes(setup, Run(setup, requests[..n]), requests[n]);
    }
  }

  /** Two segments served one after the other give units in a row. */
  lemma ServedInARow(
    setup: Setup, state: State, mid: State, a: Request, b: Request,
    units: seq<Unit>, more: seq<Unit>)
    requires state.running.Some? ==>
               Push(state.running.value.stream, [], state.running.value.fed).Some?
    requires b.index == a.index + 1
    requires Serve(setup, state, a).1 == Encoded(units)
    requires mid.running == Serve(setup, state, a).0.running
    requires Serve(setup, mid, b).1 == Encoded(more)
    requires mid.running.Some? ==> SpacesUnits(mid.running.value.stream)
    ensures Spaced(units + more)
  {
    var start := setup.segments[a.index].start;
    var r := Current(setup, state, a.index, start).0.value;
    var first, second := Reading(setup, state, a.index).audio, Reading(setup, mid, b.index).audio;
    assert mid.running == Some(FedOn(setup, r, a.index, first));
    InARow(setup, r, mid.running.value, a.index, first, second, b.index + 1 == |setup.segments|);
    TrimmedInARow(TrimFrom(setup, start), Made(setup, r, first, false).value, more);
  }

  /**
   A continued segment's audio starts where the segment before left off, 1024 samples on for each
   of its units, exactly when that one's first unit rounds to zero or later. `mid` is any state
   that segment's encoder is still running in.
   */
  lemma ContinuedBaseFollows(
    setup: Setup, before: seq<Request>, mid: State, a: Request, b: Request,
    units: seq<Unit>, more: seq<Unit>)
    requires b.index == a.index + 1 && units != [] && more != []
    requires Serve(setup, Run(setup, before), a).1 == Encoded(units)
    requires mid.running == Serve(setup, Run(setup, before), a).0.running
    requires Serve(setup, mid, b).1 == Encoded(more)
    requires mid.running.Some? ==> SpacesUnits(mid.running.value.stream)
    ensures Base(more) == Base(units) + FRAME * |units| <==> units[0].pts * RATE >= -0.5
  {
    FedPushes(setup, before);
    ServedInARow(setup, Run(setup, before), mid, a, b, units, more);
    BasesApart(units, more);
  }

  lemma {:induction false} FilteredKeeps(pts: real, units: seq<Unit>)
    ensures forall u <- Filter(NotBefore(pts), units) :: u.pts >= pts
  {
    if units != [] {
      FilteredKeeps(pts, units[1..]);
    }
  }

  /** A fresh encoder's units, its lead-in's trimmed, start no sooner than that. */
  lemma TrimmedStartsInTime(setup: Setup, state: State, a: Request, units: seq<Unit>)
    requires Serve(setup, state, a).1 == Encoded(units) && units != []
    requires !Continued(state, a.index) && setup.shift >= 0 && setup.tick >= 0.0
    ensures units[0].pts * RATE >= -0.5
  {
    var start := setup.segments[a.index].start;
    FilteredKeeps(TrimFrom(setup, start),
                  Made(setup, Current(setup, state, a.index, start).0.value,
                       Reading(setup, state, a.index).audio,
                       a.index + 1 == |setup.segments|).value);
    NotNegative((start + setup.shift) as real, setup.tick);
    assert units[0] in units;
  }

  lemma NotNegative(a: real, b: real)
    requires a >= 0.0 && b >= 0.0
    ensures a * b >= 0.0
  {
  }
}
