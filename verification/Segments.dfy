/**
 Planning a file's segments from its cues and cutting one out of its blocks
 (crates/anistream-cast/src/remux.rs, `Remuxer::open` and the reading half of `Remuxer::segment`).

 A file is its clusters in order, each at its offset with its frames; times are in Matroska ticks.
 */
module Segments {
  import opened Bytes
  import opened Sorting

  datatype Block = Block(track: nat, timestamp: int, key: bool, data: seq<Byte>)
  datatype Cluster = Cluster(at: nat, blocks: seq<Block>)
  datatype Cue = Cue(time: nat, track: nat, cluster: nat)
  datatype Key = Key(time: nat, cluster: nat)
  datatype Segment = Segment(start: nat, end: nat, cluster: nat)
  datatype PlanError = NoCues | NoDuration

  // ----- The plan -----

  /** The length a segment is grouped to, in seconds. */
  const TARGET := 6

  predicate KeyLe(a: Key, b: Key) {
    a.time < b.time || (a.time == b.time && a.cluster <= b.cluster)
  }

  const KEY_ORDER: (Key, Key) -> bool := (a, b) => KeyLe(a, b)

  /** The cues of track `video`, by time. */
  function VideoCues(cues: seq<Cue>, video: nat): seq<Key> {
    if cues == [] then []
    else if cues[0].track == video
    then [Key(cues[0].time, cues[0].cluster)] + VideoCues(cues[1..], video)
    else VideoCues(cues[1..], video)
  }

  /** `dedup_by_key`: the first of each run of one time. */
  function Dedup(keys: seq<Key>): (r: seq<Key>)
    ensures keys != [] ==> r != [] && r[0] == keys[0]
    ensures forall k <- r :: k in keys
    decreases |keys|
  {
    if |keys| < 2 then keys
    else if keys[0].time == keys[1].time then Dedup([keys[0]] + keys[2..])
    else [keys[0]] + Dedup(keys[1..])
  }

  /** The keys a segment may start at: the video's cues, and the file's start. */
  function Keys(cues: seq<Cue>, video: nat, first: nat): seq<Key> {
    var keys := Dedup(Sort(KEY_ORDER, VideoCues(cues, video)));
    if keys != [] && keys[0].time != 0 then [Key(0, first)] + keys else keys
  }

  ghost predicate Increasing(keys: seq<Key>) {
    forall i, j | 0 <= i < j < |keys| :: keys[i].time < keys[j].time
  }

  lemma {:induction false} DedupIncreases(keys: seq<Key>)
    requires SortedBy(KEY_ORDER, keys)
    ensures Increasing(Dedup(keys))
    decreases |keys|
  {
    if |keys| >= 2 {
      if keys[0].time == keys[1].time {
        DedupIncreases([keys[0]] + keys[2..]);
      } else {
        var rest := Dedup(keys[1..]);
        DedupIncreases(keys[1..]);
        forall k | k in rest ensures keys[0].time < k.time {
          assert KEY_ORDER(keys[0], keys[1]);
          var i :| 0 <= i < |keys[1..]| && keys[1..][i] == k;
          assert i == 0 || KEY_ORDER(keys[1..][0], keys[1..][i]);
        }
      }
    }
  }

  lemma KeysIncrease(cues: seq<Cue>, video: nat, first: nat)
    ensures Increasing(Keys(cues, video, first))
    ensures Keys(cues, video, first) != [] ==> Keys(cues, video, first)[0].time == 0
  {
    SortSorts(KEY_ORDER, VideoCues(cues, video));
    DedupIncreases(Sort(KEY_ORDER, VideoCues(cues, video)));
  }

  /** The segments from `start`, whose keyframe is in `cluster`, on. */
  function Cut(keys: seq<Key>, start: nat, cluster: nat, target: nat, duration: nat)
    : seq<Segment>
  {
    if keys == [] then
      if duration > start then [Segment(start, duration, cluster)] else []
    else if keys[0].time - start >= target then
      [Segment(start, keys[0].time, cluster)]
      + Cut(keys[1..], keys[0].time, keys[0].cluster, target, duration)
    else Cut(keys[1..], start, cluster, target, duration)
  }

  /** The plan `open` makes: the segments, and the keys a lead-in may start reading at. */
  method Plan(cues: seq<Cue>, video: nat, first: nat, duration: nat, ticksPerSecond: nat)
    returns (r: Result<(seq<Segment>, seq<Key>), PlanError>)
    ensures Keys(cues, video, first) == [] ==> r == Err(NoCues)
    ensures Keys(cues, video, first) != [] && duration == 0 ==> r == Err(NoDuration)
    ensures r.Ok? <==> Keys(cues, video, first) != [] && duration > 0
    ensures r.Ok? ==>
      var keys := Keys(cues, video, first);
      r.value == (Cut(keys[1..], keys[0].time, keys[0].cluster, TARGET * ticksPerSecond, duration),
                  keys)
  {
    var keys := Dedup(Sort(KEY_ORDER, VideoCues(cues, video)));
    if keys == [] { return Err(NoCues); }
    if keys[0].time != 0 { keys := [Key(0, first)] + keys; }
    if duration == 0 { return Err(NoDuration); }
    var target := TARGET * ticksPerSecond;
    var segments: seq<Segment> := [];
    var start, cluster := keys[0].time, keys[0].cluster;
    ghost var want := Cut(keys[1..], start, cluster, target, duration);
    var i := 1;
    while i < |keys|
      invariant 1 <= i <= |keys|
      invariant want == segments + Cut(keys[i..], start, cluster, target, duration)
    {
      assert keys[i..][1..] == keys[i + 1..];
      if keys[i].time - start >= target {
        ghost var more := Cut(keys[i + 1..], keys[i].time, keys[i].cluster, target, duration);
        segments := segments + [Segment(start, keys[i].time, cluster)];
        start, cluster := keys[i].time, keys[i].cluster;
        assert want == segments + more;
      }
      i := i + 1;
    }
    assert keys[i..] == [];
    segments := segments + if duration > start then [Segment(start, duration, cluster)] else [];
    return Ok((segments, keys));
  }

  /** Segments that follow one another from `from` to `to`. */
  ghost predicate Tile(segments: seq<Segment>, from: nat, to: nat) {
    if segments == [] then from == to
    else segments[0].start == from && from < segments[0].end
         && Tile(segments[1..], segments[0].end, to)
  }

  function EndOf(segments: seq<Segment>, from: nat): nat {
    if segments == [] then from else segments[|segments| - 1].end
  }

  lemma Skip(key: Key, keys: seq<Key>)
    requires keys != [] && Increasing([key] + keys)
    ensures key.time < keys[0].time && Increasing(keys) && Increasing([key] + keys[1..])
    ensures forall k <- keys[1..] :: keys[0].time < k.time
  {
    var all := [key] + keys;
    assert all[0].time < all[1].time;
    forall i, j | 0 <= i < j < |keys| ensures keys[i].time < keys[j].time {
      assert all[i + 1].time < all[j + 1].time;
    }
    var less := [key] + keys[1..];
    forall i, j | 0 <= i < j < |less| ensures less[i].time < less[j].time {
      assert less[j] == all[j + 1] && (i > 0 ==> less[i] == all[i + 1]);
    }
  }

  /** What a cut does from `start` on, its keys all later. */
  lemma {:induction false} CutTiles(
    keys: seq<Key>, start: nat, cluster: nat, target: nat, duration: nat)
    requires Increasing([Key(start, cluster)] + keys)
    ensures
      var segments := Cut(keys, start, cluster, target, duration);
      && Tile(segments, start, EndOf(segments, start))
      && EndOf(segments, start) >= duration
      && (forall s <- segments :: s.start < s.end
            && (Key(s.start, s.cluster) == Key(start, cluster)
                || (start < s.start && Key(s.start, s.cluster) in keys)))
  {
    if keys == [] {
      var segments := Cut(keys, start, cluster, target, duration);
      assert segments != [] ==> segments[1..] == [];
    } else {
      Skip(Key(start, cluster), keys);
      if keys[0].time - start >= target {
        var rest := Cut(keys[1..], keys[0].time, keys[0].cluster, target, duration);
        assert [Key(keys[0].time, keys[0].cluster)] + keys[1..] == keys;
        CutTiles(keys[1..], keys[0].time, keys[0].cluster, target, duration);
        assert Cut(keys, start, cluster, target, duration)[1..] == rest;
      } else {
        CutTiles(keys[1..], start, cluster, target, duration);
      }
    }
  }

  /** Cut at the first key a target past its start, or where the file ends. */
  predicate Greedy(s: Segment, keys: seq<Key>, target: nat, duration: nat) {
    && (s.end - s.start >= target || s.end == duration)
    && (forall k <- keys :: s.start < k.time < s.end ==> k.time - s.start < target)
  }

  lemma {:induction false} CutIsGreedy(
    keys: seq<Key>, start: nat, cluster: nat, target: nat, duration: nat)
    requires Increasing([Key(start, cluster)] + keys)
    ensures forall s <- Cut(keys, start, cluster, target, duration) ::
              Greedy(s, keys, target, duration)
  {
    if keys != [] {
      var k0 := keys[0];
      Skip(Key(start, cluster), keys);
      assert keys == [k0] + keys[1..];
      assert [Key(k0.time, k0.cluster)] + keys[1..] == keys;
      if k0.time - start >= target {
        CutIsGreedy(keys[1..], k0.time, k0.cluster, target, duration);
        CutTiles(keys[1..], k0.time, k0.cluster, target, duration);
      } else {
        CutIsGreedy(keys[1..], start, cluster, target, duration);
        CutTiles(keys[1..], start, cluster, target, duration);
      }
    }
  }

  /**
   The plan covers the file: its segments follow one another from 0 to its duration or, where the
   last key lies past that, to that key, each from a key, in the cluster that key names.
   */
  lemma PlanCovers(cues: seq<Cue>, video: nat, first: nat, duration: nat, target: nat)
    requires Keys(cues, video, first) != [] && duration > 0
    ensures
      var keys := Keys(cues, video, first);
      var segments := Cut(keys[1..], keys[0].time, keys[0].cluster, target, duration);
      && segments != [] && Tile(segments, 0, EndOf(segments, 0))
      && EndOf(segments, 0) >= duration
      && (forall s <- segments :: Key(s.start, s.cluster) in keys)
      && (forall s <- segments :: Greedy(s, keys, target, duration))
  {
    var keys := Keys(cues, video, first);
    var (start, cluster) := (keys[0].time, keys[0].cluster);
    KeysIncrease(cues, video, first);
    assert keys == [Key(start, cluster)] + keys[1..];
    CutTiles(keys[1..], start, cluster, target, duration);
    CutIsGreedy(keys[1..], start, cluster, target, duration);
  }

  // ----- Reading one segment -----

  /** The tracks of a file that are remuxed, and the ticks to take off the audio's times. */
  datatype Tracks = Tracks(video: nat, audio: Option<nat>, delay: int)

  /** What is asked of a reading: the tracks, the segment's times and where its audio starts. */
  datatype Query = Query(tracks: Tracks, start: int, end: int, audioFrom: int)

  datatype Reading = Reading(video: seq<Block>, audio: seq<Block>, done: bool)

  const NOTHING := Reading([], [], false)

  predicate IsVideoKey(b: Block, video: nat) { b.track == video && b.key }

  predicate IsAudio(b: Block, t: Tracks) { b.track != t.video && t.audio == Some(b.track) }

  /** Whether an audio frame at `time`, its delay taken off, belongs to the segment. */
  predicate WantsAudio(q: Query, time: int) {
    (q.start == 0 || time >= q.audioFrom) && time < q.end
  }

  /** One block into the reading, and whether to go on: what `segment` hands to `mkv::blocks`. */
  function Take(q: Query, r: Reading, b: Block): (Reading, bool) {
    if b.track == q.tracks.video then
      var r' :=
        if b.key && b.timestamp >= q.end then r.(done := true)
        else if !r.done && (r.video != [] || (b.key && b.timestamp >= q.start))
        then r.(video := r.video + [b])
        else r;
      (r', !(r'.done && q.tracks.audio.None?))
    else if IsAudio(b, q.tracks) then
      var time := b.timestamp - q.tracks.delay;
      if WantsAudio(q, time) then (r.(audio := r.audio + [b.(timestamp := time)]), true)
      else (r, !(time >= q.end && r.done))
    else (r, !(r.done && q.tracks.audio.None?))
  }

  function Read(q: Query, r: Reading, blocks: seq<Block>): Reading
    decreases |blocks|
  {
    if blocks == [] then r
    else
      var (r', more) := Take(q, r, blocks[0]);
      if more then Read(q, r', blocks[1..]) else r'
  }

  /** The segment's blocks, read from the cluster on until both tracks are past its end. */
  method ReadSegment(q: Query, blocks: seq<Block>) returns (video: seq<Block>, audio: seq<Block>)
    ensures video == Read(q, NOTHING, blocks).video && audio == Read(q, NOTHING, blocks).audio
  {
    video, audio := [], [];
    var done := false;
    for i := 0 to |blocks|
      invariant Read(q, Reading(video, audio, done), blocks[i..]) == Read(q, NOTHING, blocks)
    {
      var block := blocks[i];
      assert blocks[i..][1..] == blocks[i + 1..];
      if block.track == q.tracks.video {
        if block.key && block.timestamp >= q.end {
          done := true;
        } else if !done && (video != [] || (block.key && block.timestamp >= q.start)) {
          video := video + [block];
        }
      } else if q.tracks.audio == Some(block.track) {
        block := block.(timestamp := block.timestamp - q.tracks.delay);
        if (q.start == 0 || block.timestamp >= q.audioFrom) && block.timestamp < q.end {
          audio := audio + [block];
        } else if block.timestamp >= q.end && done {
          return;
        }
      }
      if done && q.tracks.audio.None? {
        return;
      }
    }
  }

  /** The place of the first keyframe of `video` at `time` or later. */
  function FirstKey(blocks: seq<Block>, video: nat, time: int): (i: nat)
    ensures i <= |blocks|
  {
    if blocks == [] then 0
    else if IsVideoKey(blocks[0], video) && blocks[0].timestamp >= time then 0
    else 1 + FirstKey(blocks[1..], video, time)
  }

  function OnTrack(track: nat): Block -> bool { (b: Block) => b.track == track }

  /** The frames of one track. */
  function Frames(blocks: seq<Block>, track: nat): seq<Block> { Filter(OnTrack(track), blocks) }

  /** The video from the first keyframe at `from` or later to the first at `to` or later. */
  function Between(blocks: seq<Block>, video: nat, from: int, to: int): seq<Block> {
    var (i, j) := (FirstKey(blocks, video, from), FirstKey(blocks, video, to));
    if i <= j then Frames(blocks[i..j], video) else []
  }

  lemma {:induction false} LaterKeysLater(blocks: seq<Block>, video: nat, from: int, to: int)
    requires from <= to
    ensures FirstKey(blocks, video, from) <= FirstKey(blocks, video, to)
  {
    if blocks != [] {
      LaterKeysLater(blocks[1..], video, from, to);
    }
  }

  lemma {:induction false} ReadDone(q: Query, r: Reading, blocks: seq<Block>)
    requires r.done
    ensures Read(q, r, blocks).video == r.video
    decreases |blocks|
  {
    if blocks != [] && Take(q, r, blocks[0]).1 {
      ReadDone(q, Take(q, r, blocks[0]).0, blocks[1..]);
    }
  }

  lemma FramesStep(b: Block, blocks: seq<Block>, j: nat, video: nat)
    requires j <= |blocks|
    ensures Frames(([b] + blocks)[..1 + j], video)
         == (if b.track == video then [b] else []) + Frames(blocks[..j], video)
  {
    assert ([b] + blocks)[..1 + j] == [b] + blocks[..j];
    assert ([b] + blocks[..j])[1..] == blocks[..j];
  }

  /** Once it holds a frame, a reading takes every video frame up to the first keyframe past it. */
  lemma {:induction false} ReadStarted(q: Query, r: Reading, blocks: seq<Block>)
    requires !r.done && r.video != []
    ensures Read(q, r, blocks).video
         == r.video + Frames(blocks[..FirstKey(blocks, q.tracks.video, q.end)], q.tracks.video)
    decreases |blocks|
  {
    if blocks == [] {
      assert r.video + [] == r.video;
    } else {
      var b, rest := blocks[0], blocks[1..];
      var (r', more) := Take(q, r, b);
      assert blocks == [b] + rest;
      if r'.done {
        ReadDone(q, r', rest);
        assert r.video + [] == r.video;
      } else {
        ReadStarted(q, r', rest);
        FramesStep(b, rest, FirstKey(rest, q.tracks.video, q.end), q.tracks.video);
        var tail := Frames(rest[..FirstKey(rest, q.tracks.video, q.end)], q.tracks.video);
        assert r.video + ([b] + tail) == r.video + [b] + tail;
        assert r.video + ([] + tail) == r.video + tail;
      }
    }
  }

  /**
   Whatever the file, a segment's video is its frames from the first keyframe at the segment's
   start or later to the first at its end or later, of those read.
   */
  lemma {:induction false} ReadsBetweenKeys(q: Query, r: Reading, blocks: seq<Block>)
    requires q.start <= q.end && !r.done && r.video == []
    ensures Read(q, r, blocks).video == Between(blocks, q.tracks.video, q.start, q.end)
    decreases |blocks|
  {
    if blocks != [] {
      var b, rest := blocks[0], blocks[1..];
      var (r', more) := Take(q, r, b);
      assert blocks == [b] + rest;
      LaterKeysLater(rest, q.tracks.video, q.start, q.end);
      var (i, j) := (FirstKey(rest, q.tracks.video, q.start), FirstKey(rest, q.tracks.video, q.end));
      if r'.done {
        ReadDone(q, r', rest);
        assert blocks[0..0] == [];
      } else if r'.video != [] {
        ReadStarted(q, r', rest);
        FramesStep(b, rest, j, q.tracks.video);
        assert blocks[0..1 + j] == blocks[..1 + j];
        assert r.video + [b] == [b];
      } else {
        assert !(IsVideoKey(b, q.tracks.video) && b.timestamp >= q.start);
        ReadsBetweenKeys(q, r', rest);
        assert blocks[1 + i..1 + j] == rest[i..j];
      }
    }
  }

  // ----- The audio of a segment -----

  /** The audio frames with their delay off, from `from` (or the first, when `open`) to `to`. */
  function AudioIn(blocks: seq<Block>, t: Tracks, open: bool, from: int, to: int): seq<Block> {
    if blocks == [] then []
    else
      var b, rest := blocks[0], AudioIn(blocks[1..], t, open, from, to);
      var time := b.timestamp - t.delay;
      if IsAudio(b, t) && (open || from <= time) && time < to
      then [b.(timestamp := time)] + rest else rest
  }

  /** The audio's times do not fall. */
  ghost predicate AudioInOrder(blocks: seq<Block>, t: Tracks) {
    forall i, j | 0 <= i < j < |blocks| && IsAudio(blocks[i], t) && IsAudio(blocks[j], t) ::
      blocks[i].timestamp <= blocks[j].timestamp
  }

  lemma AudioOrderTail(blocks: seq<Block>, t: Tracks)
    requires blocks != [] && AudioInOrder(blocks, t)
    ensures AudioInOrder(blocks[1..], t)
    ensures IsAudio(blocks[0], t)
      ==> forall b <- blocks[1..] | IsAudio(b, t) :: blocks[0].timestamp <= b.timestamp
  {
  }

  lemma {:induction false} NoAudioIn(
    blocks: seq<Block>, t: Tracks, open: bool, from: int, to: int)
    requires forall b <- blocks :: IsAudio(b, t) ==>
               b.timestamp - t.delay >= to || (!open && b.timestamp - t.delay < from)
    ensures AudioIn(blocks, t, open, from, to) == []
  {
    if blocks != [] {
      assert blocks[0] in blocks;
      NoAudioIn(blocks[1..], t, open, from, to);
    }
  }

  /** Stopping early loses no audio: with its times in order, none of it is left by then. */
  lemma {:induction false} ReadsItsAudio(q: Query, r: Reading, blocks: seq<Block>)
    requires AudioInOrder(blocks, q.tracks)
    ensures Read(q, r, blocks).audio
         == r.audio + AudioIn(blocks, q.tracks, q.start == 0, q.audioFrom, q.end)
    decreases |blocks|
  {
    var open, from, to := q.start == 0, q.audioFrom, q.end;
    if blocks == [] {
      assert r.audio + [] == r.audio;
    } else {
      var b, rest := blocks[0], blocks[1..];
      var (r', more) := Take(q, r, b);
      AudioOrderTail(blocks, q.tracks);
      var tail := AudioIn(rest, q.tracks, open, from, to);
      if more {
        ReadsItsAudio(q, r', rest);
        var own := b.(timestamp := b.timestamp - q.tracks.delay);
        assert r.audio + [own] + tail == r.audio + ([own] + tail);
      } else {
        NoAudioIn(rest, q.tracks, open, from, to);
        assert r.audio + [] == r.audio;
      }
    }
  }

  // ----- The segments of a file -----

  /** Every frame of a file, in order. */
  function All(file: seq<Cluster>): seq<Block> {
    if file == [] then [] else file[0].blocks + All(file[1..])
  }

  predicate Has(file: seq<Cluster>, at: nat) {
    file != [] && (file[0].at == at || Has(file[1..], at))
  }

  /** The frames of the clusters from the one at `at` on, as `mkv::blocks` reads them. */
  function From(file: seq<Cluster>, at: nat): seq<Block> {
    if file == [] then [] else if file[0].at == at then All(file) else From(file[1..], at)
  }

  function Before(file: seq<Cluster>, at: nat): seq<Block> {
    if file == [] || file[0].at == at then [] else file[0].blocks + Before(file[1..], at)
  }

  lemma {:induction false} BeforeAndFrom(file: seq<Cluster>, at: nat)
    requires Has(file, at)
    ensures Before(file, at) + From(file, at) == All(file)
  {
    if file[0].at != at {
      BeforeAndFrom(file[1..], at);
      var first, before, rest := file[0].blocks, Before(file[1..], at), From(file[1..], at);
      assert first + before + rest == first + (before + rest);
    } else {
      assert [] + All(file) == All(file);
    }
  }

  /** The video's keyframes rise in time, in file order. */
  ghost predicate KeyframesRise(blocks: seq<Block>, video: nat) {
    forall i, j | 0 <= i < j < |blocks| && IsVideoKey(blocks[i], video)
                  && IsVideoKey(blocks[j], video) ::
      blocks[i].timestamp < blocks[j].timestamp
  }

  /** A key names its keyframe's cluster, or is the start of the file. */
  ghost predicate Honest(file: seq<Cluster>, video: nat, key: Key) {
    && Has(file, key.cluster)
    && (Before(file, key.cluster) == []
        || exists b <- From(file, key.cluster) ::
             IsVideoKey(b, video) && b.timestamp == key.time)
  }

  /** No keyframe a segment from `key` on could start with lies before its cluster. */
  lemma NoKeyBefore(file: seq<Cluster>, video: nat, key: Key)
    requires KeyframesRise(All(file), video) && Honest(file, video, key)
    ensures forall b <- Before(file, key.cluster) :: IsVideoKey(b, video) ==> b.timestamp < key.time
  {
    var before, rest := Before(file, key.cluster), From(file, key.cluster);
    BeforeAndFrom(file, key.cluster);
    if before != [] {
      var named :| named in rest && IsVideoKey(named, video) && named.timestamp == key.time;
      var j :| 0 <= j < |rest| && rest[j] == named;
      forall b | b in before && IsVideoKey(b, video) ensures b.timestamp < key.time {
        var i :| 0 <= i < |before| && before[i] == b;
        assert All(file)[i] == b && All(file)[|before| + j] == named;
      }
    }
  }

  lemma {:induction false} FirstKeyBehind(
    before: seq<Block>, blocks: seq<Block>, video: nat, time: int)
    requires forall b <- before :: IsVideoKey(b, video) ==> b.timestamp < time
    ensures FirstKey(before + blocks, video, time) == |before| + FirstKey(blocks, video, time)
  {
    if before == [] {
      assert before + blocks == blocks;
    } else {
      assert before[0] in before;
      assert (before + blocks)[1..] == before[1..] + blocks;
      FirstKeyBehind(before[1..], blocks, video, time);
    }
  }

  /** A segment's video is the same from any key's cluster at or before its start. */
  lemma SameFromAnyKey(file: seq<Cluster>, video: nat, key: Key, from: int, to: int)
    requires KeyframesRise(All(file), video) && Honest(file, video, key)
    requires key.time <= from <= to
    ensures Between(From(file, key.cluster), video, from, to) == Between(All(file), video, from, to)
  {
    NoKeyBefore(file, video, key);
    BeforeAndFrom(file, key.cluster);
    BetweenBehind(Before(file, key.cluster), From(file, key.cluster), video, from, to);
  }

  lemma BetweenBehind(
    before: seq<Block>, rest: seq<Block>, video: nat, from: int, to: int)
    requires forall b <- before :: IsVideoKey(b, video) ==> b.timestamp < from
    requires from <= to
    ensures Between(before + rest, video, from, to) == Between(rest, video, from, to)
  {
    FirstKeyBehind(before, rest, video, from);
    FirstKeyBehind(before, rest, video, to);
    LaterKeysLater(rest, video, from, to);
    var (i, j) := (FirstKey(rest, video, from), FirstKey(rest, video, to));
    assert (before + rest)[|before| + i..|before| + j] == rest[i..j];
  }

  lemma BetweenJoins(blocks: seq<Block>, video: nat, a: int, b: int, c: int)
    requires a <= b <= c
    ensures Between(blocks, video, a, b) + Between(blocks, video, b, c)
         == Between(blocks, video, a, c)
  {
    LaterKeysLater(blocks, video, a, b);
    LaterKeysLater(blocks, video, b, c);
    var (i, j, k) := (FirstKey(blocks, video, a), FirstKey(blocks, video, b),
                      FirstKey(blocks, video, c));
    FilterConcat(OnTrack(video), blocks[i..j], blocks[j..k]);
    assert blocks[i..j] + blocks[j..k] == blocks[i..k];
  }

  /** The video of every segment, each read from the cluster of the key beside it. */
  function VideoOfAll(
    file: seq<Cluster>, tracks: Tracks, segments: seq<Segment>, at: seq<Key>): seq<Block>
    requires |at| == |segments|
  {
    if segments == [] then []
    else
      var s := segments[0];
      Read(Query(tracks, s.start, s.end, s.start), NOTHING, From(file, at[0].cluster)).video
      + VideoOfAll(file, tracks, segments[1..], at[1..])
  }

  /**
   The segments partition the video: with keyframes that rise in file order and keys that name
   their keyframe's cluster, the segments' video one after another is the file's, in its order,
   from the first keyframe at the first segment's start or later to the first at the last one's
   end or later, from whichever key at or before its start each segment is read.
   */
  lemma {:induction false} SegmentsPartitionTheVideo(
    file: seq<Cluster>, tracks: Tracks, segments: seq<Segment>, at: seq<Key>, from: nat, to: nat)
    requires KeyframesRise(All(file), tracks.video)
    requires Tile(segments, from, to) && |at| == |segments|
    requires forall i | 0 <= i < |segments| ::
               Honest(file, tracks.video, at[i]) && at[i].time <= segments[i].start
    ensures from <= to
    ensures VideoOfAll(file, tracks, segments, at) == Between(All(file), tracks.video, from, to)
    decreases |segments|
  {
    var all, video := All(file), tracks.video;
    if segments == [] {
      var i := FirstKey(all, video, from);
      assert all[i..i] == [];
    } else {
      var s := segments[0];
      SegmentsPartitionTheVideo(file, tracks, segments[1..], at[1..], s.end, to);
      ReadsBetweenKeys(Query(tracks, s.start, s.end, s.start), NOTHING,
                       From(file, at[0].cluster));
      SameFromAnyKey(file, video, at[0], s.start, s.end);
      BetweenJoins(all, video, from, s.end, to);
    }
  }

  // ----- Copied audio -----

  lemma {:induction false} AudioBehind(
    before: seq<Block>, blocks: seq<Block>, t: Tracks, from: int, to: int)
    requires forall b <- before :: IsAudio(b, t) ==> b.timestamp - t.delay < from
    ensures AudioIn(before + blocks, t, false, from, to) == AudioIn(blocks, t, false, from, to)
  {
    if before == [] {
      assert before + blocks == blocks;
    } else {
      assert before[0] in before;
      assert (before + blocks)[1..] == before[1..] + blocks;
      AudioBehind(before[1..], blocks, t, from, to);
    }
  }

  lemma {:induction false} AudioJoins(
    blocks: seq<Block>, t: Tracks, open: bool, a: int, b: int, c: int)
    requires AudioInOrder(blocks, t) && a <= b <= c
    ensures AudioIn(blocks, t, open, a, b) + AudioIn(blocks, t, false, b, c)
         == AudioIn(blocks, t, open, a, c)
  {
    if blocks != [] {
      AudioOrderTail(blocks, t);
      AudioJoins(blocks[1..], t, open, a, b, c);
      var first := blocks[0];
      var time := first.timestamp - t.delay;
      if IsAudio(first, t) && b <= time {
        NoAudioIn(blocks[1..], t, open, a, b);
      }
    }
  }

  /** The copied audio of every segment, each read from its own cluster. */
  function AudioOfAll(file: seq<Cluster>, tracks: Tracks, segments: seq<Segment>): seq<Block> {
    if segments == [] then []
    else
      var s := segments[0];
      Read(Query(tracks, s.start, s.end, s.start), NOTHING, From(file, s.cluster)).audio
      + AudioOfAll(file, tracks, segments[1..])
  }

  /** No audio at or past the segment's start lies before its cluster. */
  ghost predicate AudioNotBehind(file: seq<Cluster>, t: Tracks, s: Segment) {
    && Has(file, s.cluster)
    && (forall b <- Before(file, s.cluster) ::
          IsAudio(b, t) ==> s.start > 0 && b.timestamp - t.delay < s.start)
  }

  lemma AudioOrderBehind(before: seq<Block>, rest: seq<Block>, t: Tracks)
    requires AudioInOrder(before + rest, t)
    ensures AudioInOrder(rest, t)
  {
    forall i, j | 0 <= i < j < |rest| && IsAudio(rest[i], t) && IsAudio(rest[j], t)
      ensures rest[i].timestamp <= rest[j].timestamp
    {
      assert (before + rest)[|before| + i] == rest[i] && (before + rest)[|before| + j] == rest[j];
    }
  }

  lemma AudioOfOne(file: seq<Cluster>, t: Tracks, s: Segment)
    requires AudioInOrder(All(file), t) && AudioNotBehind(file, t, s)
    ensures Read(Query(t, s.start, s.end, s.start), NOTHING, From(file, s.cluster)).audio
         == AudioIn(All(file), t, s.start == 0, s.start, s.end)
  {
    var before, rest := Before(file, s.cluster), From(file, s.cluster);
    BeforeAndFrom(file, s.cluster);
    AudioOrderBehind(before, rest, t);
    ReadsItsAudio(Query(t, s.start, s.end, s.start), NOTHING, rest);
    var own := AudioIn(rest, t, s.start == 0, s.start, s.end);
    assert [] + own == own;
    if s.start == 0 {
      AudioNone(before, rest, t, s.start, s.end);
    } else {
      AudioBehind(before, rest, t, s.start, s.end);
    }
  }

  lemma {:induction false} AudioNone(
    before: seq<Block>, blocks: seq<Block>, t: Tracks, from: int, to: int)
    requires forall b <- before :: !IsAudio(b, t)
    ensures AudioIn(before + blocks, t, true, from, to) == AudioIn(blocks, t, true, from, to)
  {
    if before == [] {
      assert before + blocks == blocks;
    } else {
      assert before[0] in before;
      assert (before + blocks)[1..] == before[1..] + blocks;
      AudioNone(before[1..], blocks, t, from, to);
    }
  }

  lemma {:induction false} LaterAudioPartitioned(
    file: seq<Cluster>, t: Tracks, segments: seq<Segment>, from: nat, to: nat)
    requires AudioInOrder(All(file), t) && Tile(segments, from, to) && from > 0
    requires forall s <- segments :: AudioNotBehind(file, t, s)
    ensures from <= to && AudioOfAll(file, t, segments) == AudioIn(All(file), t, false, from, to)
    decreases |segments|
  {
    if segments == [] {
      NoAudioIn(All(file), t, false, from, to);
    } else {
      var s := segments[0];
      AudioOfOne(file, t, s);
      LaterAudioPartitioned(file, t, segments[1..], s.end, to);
      AudioJoins(All(file), t, false, from, s.end, to);
    }
  }

  /**
   The segments partition copied audio too: with its times in order and none at or past a segment's
   start before its cluster, the segments' audio one after another is all of the file's before
   the last segment's end, the priming frames below zero among it, with the delay taken off.
   */
  lemma SegmentsPartitionTheAudio(
    file: seq<Cluster>, t: Tracks, segments: seq<Segment>, to: nat)
    requires AudioInOrder(All(file), t) && segments != [] && Tile(segments, 0, to)
    requires forall s <- segments :: AudioNotBehind(file, t, s)
    ensures AudioOfAll(file, t, segments) == AudioIn(All(file), t, true, 0, to)
  {
    var s := segments[0];
    AudioOfOne(file, t, s);
    LaterAudioPartitioned(file, t, segments[1..], s.end, to);
    AudioJoins(All(file), t, true, 0, s.end, to);
  }
}
