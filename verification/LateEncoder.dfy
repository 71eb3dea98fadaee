/**
 An encoder whose units come late and lie before zero: over a file of three segments, requests for
 which a continued segment's base does not follow from the one before
 (crates/anistream-cast/src/remux.rs, `segment`, where a base below zero is raised to it).
 */
module LateEncoder {
  import opened Bytes
  import opened Encode
  import opened Segments
  import opened Sorting

  const PAIR := Tracks(1, Some(2), 0)

  function VideoAt(time: int): Block { Block(1, time, true, []) }
  function SoundAt(time: int): Block { Block(2, time, true, []) }

  function UnitAt(samples: real): Unit { Unit([], samples / RATE) }

  /** An encoder that holds its first unit back, and gives it a time before zero. */
  const LATE := Stream(
    (fed: seq<Fed>) =>
      Some(if |fed| == 2 then [UnitAt(-48000.0)] else if |fed| == 3 then [UnitAt(-46976.0)] else []),
    (fed: seq<Fed>) => Some([]))

  /** Three segments, a key frame and a frame of audio in each. */
  const THREE := Setup(
    [Cluster(0, [VideoAt(0), SoundAt(0)]), Cluster(1, [VideoAt(10), SoundAt(10)]),
     Cluster(2, [VideoAt(20), SoundAt(20)])],
    PAIR, [Segment(0, 10, 0), Segment(10, 20, 1), Segment(20, 30, 2)], [Key(0, 0)], 0, 0, 1.0,
    (n: nat) => Some(LATE))

  /** What a stream that has been fed so many frames gives for its next. */
  function LateUnits(n: nat): seq<Unit> {
    if n < 2 then [] else if n == 2 then [UnitAt(-48000.0)] else [UnitAt(-48000.0), UnitAt(-46976.0)]
  }

  lemma {:induction false} LatePushes(fed: seq<Fed>, frames: seq<Fed>)
    ensures Push(LATE, fed, frames).Some?
    ensures LateUnits(|fed|) + Push(LATE, fed, frames).value == LateUnits(|fed| + |frames|)
    decreases |frames|
  {
    var was := LateUnits(|fed|);
    if frames == [] {
      assert was + [] == was;
    } else {
      LatePushes(fed + [frames[0]], frames[1..]);
      var units := LATE.push(fed + [frames[0]]).value;
      var more := Push(LATE, fed + [frames[0]], frames[1..]).value;
      assert was + units == LateUnits(|fed| + 1);
      assert was + (units + more) == was + units + more;
    }
  }

  lemma LatePushed(fed: seq<Fed>)
    ensures Push(LATE, [], fed) == Some(LateUnits(|fed|))
  {
    LatePushes([], fed);
    var units := Push(LATE, [], fed).value;
    assert [] + units == units;
  }

  lemma LateUnitsSpaced(n: nat)
    ensures Spaced(LateUnits(n))
  {
    assert UnitAt(-46976.0).pts * RATE == -46976.0 && UnitAt(-48000.0).pts * RATE == -48000.0;
  }

  lemma LateSpaces()
    ensures SpacesUnits(LATE)
  {
    forall fed: seq<Fed> | Push(LATE, [], fed).Some?
      ensures Spaced(Push(LATE, [], fed).value)
      ensures Spaced(Push(LATE, [], fed).value + LATE.flush(fed).value)
    {
      LatePushed(fed);
      LateUnitsSpaced(|fed|);
      assert LateUnits(|fed|) + [] == LateUnits(|fed|);
    }
  }

  /** A segment's key frame and audio, and nothing behind them, are read. */
  lemma PairRead(q: Query, v: Block, a: Block, rest: seq<Block>)
    requires q.tracks == PAIR && v == VideoAt(v.timestamp) && a == SoundAt(a.timestamp)
    requires q.start <= v.timestamp < q.end && WantsAudio(q, a.timestamp)
    requires rest == [] || (|rest| >= 2 && rest[0] == VideoAt(q.end) && rest[1] == SoundAt(q.end))
    ensures Read(q, NOTHING, [v, a] + rest).video == [v] && Read(q, NOTHING, [v, a] + rest).audio == [a]
  {
    var blocks := [v, a] + rest;
    var one, two := Segments.Reading([v], [], false), Segments.Reading([v], [a], false);
    assert [] + [v] == [v] && [] + [a] == [a] && a.(timestamp := a.timestamp - 0) == a;
    assert blocks[1..] == [a] + rest && ([a] + rest)[1..] == rest;
    assert Take(q, NOTHING, v) == (one, true) && Take(q, one, a) == (two, true);
    assert Read(q, NOTHING, blocks) == Read(q, one, [a] + rest) == Read(q, two, rest);
    if rest != [] {
      var three := two.(done := true);
      assert Take(q, two, rest[0]) == (three, true);
      assert rest[1..][0] == rest[1] && Take(q, three, rest[1]) == (three, false);
      assert Read(q, two, rest) == Read(q, three, rest[1..]) == three;
    }
  }

  lemma ThreeFrames()
    ensures From(THREE.file, 2) == [VideoAt(20), SoundAt(20)] + []
    ensures From(THREE.file, 1) == [VideoAt(10), SoundAt(10)] + From(THREE.file, 2)
    ensures From(THREE.file, 0) == [VideoAt(0), SoundAt(0)] + From(THREE.file, 1)
  {
    var f := THREE.file;
    assert f[1..][1..] == f[2..] && f[2..][1..] == [];
  }

  /** What serving a segment comes to, once it is known what is read and made for it. */
  lemma ServedAs(setup: Setup, state: State, i: nat, r: Running, frames: seq<Block>, units: seq<Unit>)
    requires i < |setup.segments| && Encode.Reading(setup, state, i).video != []
    requires frames == Encode.Reading(setup, state, i).audio
    requires Current(setup, state, i, setup.segments[i].start).0 == Some(r)
    requires Made(setup, r, frames, i + 1 == |setup.segments|) == Some(units)
    requires Continued(state, i) || units == []
    ensures Serve(setup, state, Request(i, true)).1 == Encoded(units)
    ensures i + 1 < |setup.segments| ==>
      Serve(setup, state, Request(i, true)).0.running == Some(FedOn(setup, r, i, frames))
  {
  }

  lemma PairOf(state: State, i: nat)
    requires i < 3
    requires EncodeFrom(THREE, state, i) <= 10 * i && ReadFrom(THREE, state, i) == i
    ensures Encode.Reading(THREE, state, i).video == [VideoAt(10 * i)]
    ensures Encode.Reading(THREE, state, i).audio == [SoundAt(10 * i)]
  {
    var s := THREE.segments[i];
    ThreeFrames();
    PairRead(Query(PAIR, s.start, s.end, EncodeFrom(THREE, state, i)), VideoAt(10 * i), SoundAt(10 * i),
             if i == 2 then [] else From(THREE.file, i + 1));
  }

  function UnitsAt(i: nat): seq<Unit> {
    if i == 1 then [UnitAt(-48000.0)] else if i == 2 then [UnitAt(-46976.0)] else []
  }

  const NEW := Running(0, 0, LATE, [], 0)

  lemma FreshIsNew()
    ensures EncodeFrom(THREE, FRESH, 0) == 0 && ReadFrom(THREE, FRESH, 0) == 0
    ensures Current(THREE, FRESH, 0, THREE.segments[0].start).0 == Some(NEW)
  {
  }

  lemma FirstServed(state: State, r: Running)
    requires EncodeFrom(THREE, state, 0) == 0 && ReadFrom(THREE, state, 0) == 0
    requires Current(THREE, state, 0, THREE.segments[0].start).0 == Some(r)
    requires r.stream == LATE && r.fedUntil == 0 && r.fed == []
    ensures Serve(THREE, state, Request(0, true)).1 == Encoded([])
    ensures Serve(THREE, state, Request(0, true)).0.running == Some(FedOn(THREE, r, 0, [SoundAt(0)]))
    ensures
      var after := FedOn(THREE, r, 0, [SoundAt(0)]);
      after.fedUntil == 1 && |after.fed| == 1
  {
    PairOf(state, 0);
    NewsPair(r, 0);
    ServedAs(THREE, state, 0, r, [SoundAt(0)], []);
  }

  lemma FirstPair()
    ensures
      var (after, outcome) := Serve(THREE, FRESH, Request(0, true));
      outcome == Encoded([]) && Going(after, 1) && GoingLate(after)
  {
    FreshIsNew();
    FirstServed(FRESH, NEW);
  }

  /** The encoder has served every segment before this one, and one frame of each. */
  predicate Going(state: State, next: nat) {
    && state.running.Some? && state.running.value.next == next
    && |state.running.value.fed| == next && state.running.value.fedUntil == 10 * next - 9
  }

  ghost predicate GoingLate(state: State) { state.running.Some? && state.running.value.stream == LATE }

  lemma NextPair(state: State, i: nat)
    requires 0 < i < 3 && Going(state, i) && GoingLate(state)
    ensures
      var (after, outcome) := Serve(THREE, state, Request(i, true));
      && outcome == Encoded(UnitsAt(i))
      && (i < 2 ==> Going(after, i + 1) && GoingLate(after))
  {
    var r := state.running.value;
    PairOf(state, i);
    NewsPair(r, i);
    ServedAs(THREE, state, i, r, [SoundAt(10 * i)], UnitsAt(i));
  }

  lemma NewsPair(r: Running, i: nat)
    requires i < 3 && r.stream == LATE && r.fedUntil <= 10 * i && |r.fed| == i
    ensures
      var frames := [SoundAt(10 * i)];
      && Made(THREE, r, frames, false) == Some(UnitsAt(i))
      && Made(THREE, r, frames, true) == Made(THREE, r, frames, false)
      && FedOn(THREE, r, i, frames).fedUntil == 10 * i + 1 && |FedOn(THREE, r, i, frames).fed| == i + 1
  {
    var a := SoundAt(10 * i);
    assert [a][1..] == [] && [a] + [] == [a];
    assert Filter(Since(r.fedUntil), [a]) == [a];
    var news := Feeds(THREE, [a]);
    assert |news| == 1 && news == [news[0]];
    PushOne(LATE, r.fed, news[0]);
    var units := LATE.push(r.fed + news).value;
    assert units + [] == units;
  }

  /** A file, an encoder and requests for which a continued segment's base does not follow. */
  lemma ABaseThatDoesNotFollow()
    ensures
      var before, a, b := [Request(0, true)], Request(1, true), Request(2, true);
      var mid := Serve(THREE, Run(THREE, before), a).0;
      && Serve(THREE, Run(THREE, before), a).1 == Encoded([UnitAt(-48000.0)])
      && Serve(THREE, mid, b).1 == Encoded([UnitAt(-46976.0)])
      && mid.running.Some? && SpacesUnits(mid.running.value.stream)
      && Base([UnitAt(-46976.0)]) != Base([UnitAt(-48000.0)]) + FRAME
  {
    var first := Request(0, true);
    FirstPair();
    assert [first][..0] == [] && Run(THREE, []) == FRESH;
    var one := Serve(THREE, FRESH, first).0;
    assert Run(THREE, [first]) == one;
    NextPair(one, 1);
    NextPair(Serve(THREE, one, Request(1, true)).0, 2);
    LateSpaces();
    assert Round(0.0) == 0;
  }
}
