/**
 Elements and clusters: `element`, `children` and `blocks` of crates/anistream-cast/src/mkv.rs,
 against a printer after RFC 8794, section 6. A file is its bytes, all of them at hand.
 */
module Clusters {
  import opened Bytes
  import opened Mkv
  import Segments

  const CLUSTER: nat := 0x1F43_B675
  const TIMESTAMP: nat := 0xE7
  const SIMPLE_BLOCK: nat := 0xA3
  const BLOCK_GROUP: nat := 0xA0
  const GROUPED_BLOCK: nat := 0xA1
  const REFERENCE: nat := 0xFB

  /** The most an element may hold. */
  const BODY_LIMIT: nat := 64 * 1024 * 1024

  // ----- Elements -----

  /** An element's id, its body's size, how long those took, and whether the size is unknown. */
  datatype Header = Header(id: nat, size: nat, head: nat, unknown: bool)

  function Element(data: seq<Byte>): (r: Result<Header, DemuxError>)
    ensures r.Ok? ==> 2 <= r.value.head <= |data|
  {
    match Vint(data, true)
    case Err(e) => Err(e)
    case Ok(id) =>
      match Vint(data[id.length..], false)
      case Err(e) => Err(e)
      case Ok(size) => Ok(Header(id.value, size.value, id.length + size.length, size.unknown))
  }

  datatype Child = Child(id: nat, body: seq<Byte>)

  /** How an element's head and a block are read. */
  datatype Ways = Ways(
    element: seq<Byte> -> Result<Header, DemuxError>,
    block: (seq<Byte>, int, Option<bool>) -> Result<seq<Block>, DemuxError>)

  /** A head takes some of the bytes there are. */
  ghost predicate Sound(f: Ways) {
    forall data :: f.element(data).Ok? ==> 0 < f.element(data).value.head <= |data|
  }

  const AS_THE_SOURCE := Ways(
    (data: seq<Byte>) => Element(data),
    (data: seq<Byte>, cluster: int, key: Option<bool>) => BlocksOf(data, cluster, key))

  /** What follows holds of any such ways; `MATROSKA` is the source's. */
  type Format = f: Ways | Sound(f) witness AS_THE_SOURCE

  const MATROSKA: Format := AS_THE_SOURCE

  /** `children`: what does not fit the body is cut at its end. */
  function Children(f: Format, body: seq<Byte>): Result<seq<Child>, DemuxError>
    decreases |body|
  {
    if body == [] then Ok([])
    else
      match f.element(body)
      case Err(e) => Err(e)
      case Ok(header) =>
        var end := Min(header.head + header.size, |body|);
        match Children(f, body[end..])
        case Err(e) => Err(e)
        case Ok(more) => Ok([Child(header.id, body[header.head..end])] + more)
  }

  /** `element`, reading from `at`. */
  method ReadElement(data: seq<Byte>, at: nat) returns (r: Result<Header, DemuxError>)
    requires at <= |data|
    ensures r == Element(data[at..])
  {
    var id := ReadVint(data, at, true);
    if id.Err? { return Err(id.error); }
    var size := ReadVint(data, id.value.1, false);
    assert data[at..][id.value.0.length..] == data[id.value.1..];
    if size.Err? { return Err(size.error); }
    return Ok(Header(id.value.0.value, size.value.0.value, size.value.1 - at, size.value.0.unknown));
  }

  /** `children`, at the start of one of them. */
  lemma NextChild(f: Format, body: seq<Byte>, at: nat, header: Header, end: nat)
    requires at < |body| && f.element(body[at..]) == Ok(header)
    requires end == Min(at + header.head + header.size, |body|)
    ensures at < at + header.head <= end
    ensures Children(f, body[at..])
         == match Children(f, body[end..])
            case Err(e) => Err(e)
            case Ok(more) => Ok([Child(header.id, body[at + header.head..end])] + more)
  {
    assert body[at..][end - at..] == body[end..];
    assert body[at..][header.head..end - at] == body[at + header.head..end];
  }

  predicate Joins(
    want: Result<seq<Child>, DemuxError>, had: seq<Child>, rest: Result<seq<Child>, DemuxError>)
  {
    match rest
    case Err(e) => want == Err(e)
    case Ok(more) => want == Ok(had + more)
  }

  lemma JoinsOne(
    want: Result<seq<Child>, DemuxError>, had: seq<Child>, child: Child,
    now: Result<seq<Child>, DemuxError>, rest: Result<seq<Child>, DemuxError>)
    requires Joins(want, had, now)
    requires now == match rest case Err(e) => Err(e) case Ok(more) => Ok([child] + more)
    ensures Joins(want, had + [child], rest)
  {
    if rest.Ok? {
      assert had + ([child] + rest.value) == had + [child] + rest.value;
    }
  }

  lemma ChildJoins(
    f: Format, want: Result<seq<Child>, DemuxError>, had: seq<Child>, body: seq<Byte>, at: nat,
    header: Header, end: nat)
    requires at < |body| && f.element(body[at..]) == Ok(header)
    requires end == Min(at + header.head + header.size, |body|)
    requires Joins(want, had, Children(f, body[at..]))
    ensures at < at + header.head <= end
    ensures Joins(want, had + [Child(header.id, body[at + header.head..end])], Children(f, body[end..]))
  {
    NextChild(f, body, at, header, end);
    JoinsOne(want, had, Child(header.id, body[at + header.head..end]), Children(f, body[at..]),
             Children(f, body[end..]));
  }

  lemma ChildFails(
    f: Format, want: Result<seq<Child>, DemuxError>, had: seq<Child>, rest: seq<Byte>, e: DemuxError)
    requires rest != [] && f.element(rest) == Err(e)
    requires Joins(want, had, Children(f, rest))
    ensures want == Err(e)
  {
  }

  lemma ChildrenDone(
    f: Format, want: Result<seq<Child>, DemuxError>, had: seq<Child>, rest: seq<Byte>)
    requires rest == [] && Joins(want, had, Children(f, rest))
    ensures want == Ok(had)
  {
    assert had + [] == had;
  }

  lemma JoinsNone(want: Result<seq<Child>, DemuxError>)
    ensures Joins(want, [], want)
  {
    if want.Ok? {
      assert [] + want.value == want.value;
    }
  }

  /** The child at `at`, and where it ends. */
  method ReadChild(f: Format, body: seq<Byte>, at: nat) returns (r: Result<(Child, nat), DemuxError>)
    requires at < |body|
    ensures
      match f.element(body[at..])
      case Err(e) => r == Err(e)
      case Ok(header) =>
        var (start, end) := (at + header.head, Min(at + header.head + header.size, |body|));
        at < start <= end && r == Ok((Child(header.id, body[start..end]), end))
  {
    var header := f.element(body[at..]);
    if header.Err? { return Err(header.error); }
    var start := at + header.value.head;
    var end := Min(start + header.value.size, |body|);
    return Ok((Child(header.value.id, body[start..end]), end));
  }

  method ReadChildren(f: Format, body: seq<Byte>) returns (r: Result<seq<Child>, DemuxError>)
    ensures r == Children(f, body)
  {
    var out: seq<Child>, at: nat := [], 0;
    ghost var want := Children(f, body);
    assert body[0..] == body;
    JoinsNone(want);
    while at < |body|
      invariant at <= |body| && Joins(want, out, Children(f, body[at..]))
    {
      var next := ReadChild(f, body, at);
      if next.Err? {
        ChildFails(f, want, out, body[at..], next.error);
        return Err(next.error);
      }
      var (child, end) := next.value;
      ChildJoins(f, want, out, body, at, f.element(body[at..]).value, end);
      out := out + [child];
      at := end;
    }
    ChildrenDone(f, want, out, body[at..]);
    return Ok(out);
  }

  // ----- A cluster's blocks -----

  /** `unsigned` cast to a signed 64-bit number: bytes past the eighth push the first ones out. */
  function Ticks(data: seq<Byte>): int {
    var n := Num(data) % 0x1_0000_0000_0000_0000;
    if n < 0x8000_0000_0000_0000 then n else n - 0x1_0000_0000_0000_0000
  }

  /** Blocks one after another, up to an error if there is one. */
  datatype Stream = Stream(blocks: seq<Block>, error: Option<DemuxError>)

  function Then(blocks: seq<Block>, rest: Stream): Stream { rest.(blocks := blocks + rest.blocks) }

  function FirstOf(children: seq<Child>, id: nat): Option<seq<Byte>> {
    if children == [] then None
    else if children[0].id == id then Some(children[0].body)
    else FirstOf(children[1..], id)
  }

  /** The blocks of one child of a cluster: a simple block's, or a group's first. */
  function ChildBlocks(f: Format, child: Child, timestamp: int): Result<seq<Block>, DemuxError>
  {
    if child.id == SIMPLE_BLOCK then f.block(child.body, timestamp, None)
    else if child.id == BLOCK_GROUP then
      match Children(f, child.body)
      case Err(e) => Err(e)
      case Ok(group) =>
        match FirstOf(group, GROUPED_BLOCK)
        case None => Ok([])
        case Some(data) => f.block(data, timestamp, Some(FirstOf(group, REFERENCE).None?))
    else Ok([])
  }

  function ClusterBlocks(f: Format, children: seq<Child>, timestamp: int): Stream
    decreases |children|
  {
    if children == [] then Stream([], None)
    else if children[0].id == TIMESTAMP then ClusterBlocks(f, children[1..], Ticks(children[0].body))
    else
      match ChildBlocks(f, children[0], timestamp)
      case Err(e) => Stream([], Some(e))
      case Ok(blocks) => Then(blocks, ClusterBlocks(f, children[1..], timestamp))
  }

  /** A cluster's body, or why it cannot be held. */
  function BodyAt(file: seq<Byte>, at: nat, size: nat): Result<seq<Byte>, DemuxError> {
    if size > BODY_LIMIT then Err(TooLarge)
    else if at + size > |file| then Err(EndOfFile)
    else Ok(file[at..at + size])
  }

  /** The blocks of a cluster's body. */
  function BodyBlocks(f: Format, body: seq<Byte>): Stream
  {
    match Children(f, body)
    case Err(e) => Stream([], Some(e))
    case Ok(children) => ClusterBlocks(f, children, 0)
  }

  /** The blocks of the cluster at `at`, and how long it is; nothing where no cluster is. */
  function ClusterAt(f: Format, file: seq<Byte>, at: nat): (r: Option<(Stream, nat)>)
    ensures r.Some? ==> at < |file| && r.value.1 > 0
  {
    if at > |file| || f.element(file[at..]).Err? then None
    else
      var header := f.element(file[at..]).value;
      var length := header.head + header.size;
      if header.id != CLUSTER then None
      else if header.unknown then Some((Stream([], Some(UnknownSize)), length))
      else
        match BodyAt(file, at + header.head, header.size)
        case Err(e) => Some((Stream([], Some(e)), length))
        case Ok(body) => Some((BodyBlocks(f, body), length))
  }

  /** The clusters of a file, by where they lie: each one's blocks, and how long it is. */
  type At = nat -> Option<(Stream, nat)>

  /** Each lies in the file, and takes some of it. */
  ghost predicate Bounded(cluster: At, size: nat) {
    forall at: nat :: cluster(at).Some? ==> at < size && cluster(at).value.1 > 0
  }

  function ClustersOf(f: Format, file: seq<Byte>): (cluster: At)
    ensures Bounded(cluster, |file|)
  {
    (at: nat) => ClusterAt(f, file, at)
  }

  /** What is read from the cluster at `at` on, to an error or the first that is no cluster. */
  function ReadOn(cluster: At, size: nat, at: nat): Stream
    requires Bounded(cluster, size)
    decreases size - at
  {
    match cluster(at)
    case None => Stream([], None)
    case Some((own, length)) =>
      if own.error.Some? then own else Then(own.blocks, ReadOn(cluster, size, at + length))
  }

  /** What `blocks` reads of a file from `at` on. */
  function BlocksFrom(f: Format, file: seq<Byte>, at: nat): Stream {
    ReadOn(ClustersOf(f, file), |file|, at)
  }

  // ----- Handing the blocks out -----

  /** The blocks handed to `take` one by one, until it says stop: its state, and whether it did not. */
  function Taken<T>(take: (T, Block) -> (T, bool), state: T, blocks: seq<Block>): (T, bool)
    decreases |blocks|
  {
    if blocks == [] then (state, true)
    else
      var (next, more) := take(state, blocks[0]);
      if more then Taken(take, next, blocks[1..]) else (next, false)
  }

  lemma {:induction false} TakenConcat<T>(
    take: (T, Block) -> (T, bool), state: T, a: seq<Block>, b: seq<Block>)
    ensures Taken(take, state, a + b)
         == if Taken(take, state, a).1 then Taken(take, Taken(take, state, a).0, b)
            else Taken(take, state, a)
    decreases |a|
  {
    if a == [] {
      assert a + b == b;
    } else {
      assert (a + b)[0] == a[0] && (a + b)[1..] == a[1..] + b;
      var (next, more) := take(state, a[0]);
      if more {
        TakenConcat(take, next, a[1..], b);
      }
    }
  }

  /** What comes of handing a stream out: an error behind where `take` stopped is never met. */
  function Served<T>(take: (T, Block) -> (T, bool), state: T, stream: Stream): (T, Option<DemuxError>) {
    var (end, more) := Taken(take, state, stream.blocks);
    (end, if more then stream.error else None)
  }

  lemma ServedThen<T>(take: (T, Block) -> (T, bool), state: T, own: seq<Block>, rest: Stream)
    ensures Served(take, state, Then(own, rest))
         == if Taken(take, state, own).1 then Served(take, Taken(take, state, own).0, rest)
            else (Taken(take, state, own).0, None)
  {
    TakenConcat(take, state, own, rest.blocks);
  }

  /** One cluster's blocks, or part of them. */
  method HandOut<T>(take: (T, Block) -> (T, bool), start: T, blocks: seq<Block>)
    returns (state: T, more: bool)
    ensures (state, more) == Taken(take, start, blocks)
  {
    state := start;
    for i := 0 to |blocks|
      invariant Taken(take, state, blocks[i..]) == Taken(take, start, blocks)
    {
      var (next, goesOn) := take(state, blocks[i]);
      assert blocks[i..][1..] == blocks[i + 1..];
      state := next;
      if !goesOn { return state, false; }
    }
    return state, true;
  }

  lemma ServesNext<T>(
    take: (T, Block) -> (T, bool), state: T, cluster: At, size: nat, at: nat, own: Stream, length: nat)
    requires Bounded(cluster, size) && cluster(at) == Some((own, length))
    ensures
      var (next, more) := Taken(take, state, own.blocks);
      Served(take, state, ReadOn(cluster, size, at))
      == if !more then (next, None)
         else if own.error.Some? then (next, own.error)
         else Served(take, next, ReadOn(cluster, size, at + length))
  {
    if own.error.None? {
      ServedThen(take, state, own.blocks, ReadOn(cluster, size, at + length));
    }
  }

  /** Cluster after cluster handed out, to a stop, an error or the end. */
  method ReadClusters<T>(
    cluster: At, ghost size: nat, from: nat, take: (T, Block) -> (T, bool), start: T)
    returns (state: T, error: Option<DemuxError>)
    requires Bounded(cluster, size)
    ensures (state, error) == Served(take, start, ReadOn(cluster, size, from))
  {
    var at := from;
    state := start;
    while true
      invariant Served(take, state, ReadOn(cluster, size, at)) == Served(take, start, ReadOn(cluster, size, from))
      decreases size - at
    {
      var next := cluster(at);
      if next.None? { return state, None; }
      var (own, length) := next.value;
      ServesNext(take, state, cluster, size, at, own, length);
      var more;
      state, more := HandOut(take, state, own.blocks);
      if !more { return state, None; }
      if own.error.Some? { return state, own.error; }
      at := at + length;
    }
  }

  /** `blocks`. */
  method ReadBlocks<T>(f: Format, file: seq<Byte>, cluster: nat, take: (T, Block) -> (T, bool), start: T)
    returns (state: T, error: Option<DemuxError>)
    ensures (state, error) == Served(take, start, BlocksFrom(f, file, cluster))
  {
    state, error := ReadClusters(ClustersOf(f, file), |file|, cluster, take, start);
  }

  // ----- Printing elements and clusters -----

  /** An id's bytes: their first says how many they are. */
  predicate IsId(id: seq<Byte>) { 1 <= |id| <= 8 && Length(id[0]) == |id| }

  /** An element to print: its id, its size's width and its body. */
  datatype Draft = Draft(id: seq<Byte>, width: nat, body: seq<Byte>)

  predicate Printable(p: Draft) {
    IsId(p.id) && 1 <= p.width <= 8 && |p.body| < Sevens(p.width)
  }

  type Printed = p: Draft | Printable(p) witness Draft([0x80], 1, [])

  function ElementBytes(p: Printed): (r: seq<Byte>)
    ensures |r| == |p.id| + p.width + |p.body|
  {
    p.id + VintBytes(|p.body|, p.width) + p.body
  }

  function AllBytes(ps: seq<Printed>): seq<Byte> {
    if ps == [] then [] else ElementBytes(ps[0]) + AllBytes(ps[1..])
  }

  function AsChildren(ps: seq<Printed>): seq<Child> {
    if ps == [] then [] else [Child(Num(ps[0].id), ps[0].body)] + AsChildren(ps[1..])
  }

  lemma IdReads(id: seq<Byte>, rest: seq<Byte>)
    requires IsId(id)
    ensures Vint(id + rest, true) == Ok(Number(Num(id), |id|, false))
    ensures (id + rest)[|id|..] == rest
  {
    assert [id[0]] + (id + rest)[1..|id|] == id;
  }

  lemma HeaderReads(
    data: seq<Byte>, id: nat, idLength: nat, size: nat, w: nat, unknown: bool, rest: seq<Byte>)
    requires Vint(data, true) == Ok(Number(id, idLength, false)) && data[idLength..] == rest
    requires Vint(rest, false) == Ok(Number(size, w, unknown))
    ensures Element(data) == Ok(Header(id, size, idLength + w, unknown))
  {
  }

  lemma HeadThenBody(id: seq<Byte>, size: seq<Byte>, body: seq<Byte>, rest: seq<Byte>)
    ensures
      var all, head := id + size + body + rest, |id| + |size|;
      && all == id + (size + (body + rest))
      && all[head..head + |body|] == body
      && all[head + |body|..] == rest
  {
    assert id + size + body + rest == (id + size) + (body + rest);
  }

  /** An element's head reads back, and its body lies behind it. */
  lemma ElementReads(p: Printed, rest: seq<Byte>)
    ensures Element(ElementBytes(p) + rest)
         == Ok(Header(Num(p.id), |p.body|, |p.id| + p.width, |p.body| == Sevens(p.width) - 1))
    ensures
      var all, head := ElementBytes(p) + rest, |p.id| + p.width;
      && all[head..head + |p.body|] == p.body
      && all[head + |p.body|..] == rest
  {
    var size := VintBytes(|p.body|, p.width);
    HeadThenBody(p.id, size, p.body, rest);
    IdReads(p.id, size + (p.body + rest));
    VintReads(|p.body|, p.width, p.body + rest);
    HeaderReads(ElementBytes(p) + rest, Num(p.id), |p.id|, |p.body|, p.width,
                |p.body| == Sevens(p.width) - 1, size + (p.body + rest));
  }

  /** A master's children read back: every id and body, in order. */
  lemma {:induction false} ChildrenReadBack(ps: seq<Printed>)
    ensures Children(MATROSKA, AllBytes(ps)) == Ok(AsChildren(ps))
  {
    if ps != [] {
      ChildrenReadBack(ps[1..]);
      NextPrinted(ps[0], AllBytes(ps[1..]), AsChildren(ps[1..]));
    }
  }

  lemma NextPrinted(p: Printed, rest: seq<Byte>, more: seq<Child>)
    requires Children(MATROSKA, rest) == Ok(more)
    ensures Children(MATROSKA, ElementBytes(p) + rest) == Ok([Child(Num(p.id), p.body)] + more)
  {
    ElementReads(p, rest);
    FirstChild(MATROSKA, ElementBytes(p) + rest, rest,
               Header(Num(p.id), |p.body|, |p.id| + p.width, |p.body| == Sevens(p.width) - 1),
               p.body, more);
  }

  lemma FirstChild(f: Format, data: seq<Byte>, rest: seq<Byte>, header: Header, body: seq<Byte>,
                   more: seq<Child>)
    requires data != [] && f.element(data) == Ok(header) && header.size == |body|
    requires |data| == header.head + |body| + |rest|
    requires data[header.head..header.head + |body|] == body
    requires data[header.head + |body|..] == rest && Children(f, rest) == Ok(more)
    ensures Children(f, data) == Ok([Child(header.id, body)] + more)
  {
  }

  const CLUSTER_ID: seq<Byte> := [0x1F, 0x43, 0xB6, 0x75]

  /** A cluster's blocks, if its size is known and can be held and they all read. */
  function BlocksRead(p: Printed): Option<seq<Block>> {
    if p.id != CLUSTER_ID || |p.body| > BODY_LIMIT || |p.body| == Sevens(p.width) - 1 then None
    else
      var read := BodyBlocks(MATROSKA, p.body);
      if read.error.Some? then None else Some(read.blocks)
  }

  /** A cluster's bytes, and the blocks they hold. */
  datatype Piece = Piece(bytes: seq<Byte>, blocks: seq<Block>)

  function PiecesBytes(ps: seq<Piece>): seq<Byte> {
    if ps == [] then [] else ps[0].bytes + PiecesBytes(ps[1..])
  }

  /** The clusters as they are printed, all of them readable. */
  function Pieces(ps: seq<Printed>): Option<seq<Piece>> {
    if ps == [] then Some([])
    else
      match (BlocksRead(ps[0]), Pieces(ps[1..]))
      case (Some(blocks), Some(more)) => Some([Piece(ElementBytes(ps[0]), blocks)] + more)
      case _ => None
  }

  /** Each cluster at its offset, the first at `at`. */
  function Placed(at: nat, ps: seq<Piece>): seq<Segments.Cluster>
    decreases |ps|
  {
    if ps == [] then []
    else [Segments.Cluster(at, ps[0].blocks)] + Placed(at + |ps[0].bytes|, ps[1..])
  }

  /** Where the clusters end: at no cluster. */
  predicate Ends(f: Format, tail: seq<Byte>) {
    f.element(tail).Err? || f.element(tail).value.id != CLUSTER
  }

  lemma ClusterId()
    ensures Num(CLUSTER_ID) == CLUSTER
  {
    var id := CLUSTER_ID;
    assert id[..3] == [0x1F, 0x43, 0xB6] && id[..3][..2] == [0x1F, 0x43];
    assert id[..3][..2][..1] == [0x1F] && id[..3][..2][..1][..0] == [];
    assert Num([0x1F]) == 0x1F && Num([0x1F, 0x43]) == 0x1F43;
    assert Num([0x1F, 0x43, 0xB6]) == 0x1F_43B6;
  }

  lemma DropDrop(s: seq<Byte>, i: nat, j: nat)
    requires i + j <= |s|
    ensures s[i..][j..] == s[i + j..]
  {
  }

  lemma DropSlice(s: seq<Byte>, i: nat, j: nat, k: nat)
    requires j <= k && i + k <= |s|
    ensures s[i..][j..k] == s[i + j..i + k]
  {
  }

  /** Bytes of a file, seen from where `own` begins in it. */
  lemma Within(file: seq<Byte>, at: nat, own: seq<Byte>, i: nat, j: nat)
    requires at <= |file| && file[at..] == own && i <= j <= |own|
    ensures at + j <= |file| && file[at + i..at + j] == own[i..j]
    ensures file[at + j..] == own[j..]
  {
    DropSlice(file, at, i, j);
    DropDrop(file, at, j);
  }

  /** One cluster of known size, wherever it lies. */
  lemma OneClusterAt(
    f: Format, file: seq<Byte>, at: nat, own: seq<Byte>, header: Header, body: seq<Byte>)
    requires f.element(own) == Ok(header) && header.id == CLUSTER && !header.unknown
    requires header.head + header.size <= |own| && header.size <= BODY_LIMIT
    requires body == own[header.head..header.head + header.size]
    requires at <= |file| && file[at..] == own
    ensures ClusterAt(f, file, at) == Some((BodyBlocks(f, body), header.head + header.size))
  {
    Within(file, at, own, header.head, header.head + header.size);
  }

  /** Past the first cluster lie the others. */
  lemma Others(file: seq<Byte>, at: nat, own: seq<Byte>, more: seq<Byte>, tail: seq<Byte>)
    requires at <= |file| && file[at..] == own + more + tail
    ensures file[at..] == own + (more + tail)
    ensures at + |own| <= |file| && file[at + |own|..] == more + tail
  {
    assert own + more + tail == own + (more + tail);
    Within(file, at, own + (more + tail), |own|, |own|);
  }

  /** Wherever a piece lies in a file, a cluster of its blocks and its length does. */
  ghost predicate ReadsAs(cluster: At, file: seq<Byte>, p: Piece) {
    forall at: nat, rest: seq<Byte> :: ReadsAt(cluster, file, p, at, rest)
  }

  predicate ReadsAt(cluster: At, file: seq<Byte>, p: Piece, at: nat, rest: seq<Byte>) {
    at <= |file| && file[at..] == p.bytes + rest ==>
      cluster(at) == Some((Stream(p.blocks, None), |p.bytes|))
  }

  ghost predicate AllReadAs(cluster: At, file: seq<Byte>, ps: seq<Piece>) {
    ps != [] ==> ReadsAs(cluster, file, ps[0]) && AllReadAs(cluster, file, ps[1..])
  }

  lemma ClusterHeadReads(p: Printed, rest: seq<Byte>)
    requires p.id == CLUSTER_ID && |p.body| != Sevens(p.width) - 1
    ensures MATROSKA.element(ElementBytes(p) + rest)
         == Ok(Header(CLUSTER, |p.body|, |p.id| + p.width, false))
  {
    ClusterId();
    ElementReads(p, rest);
  }

  lemma PrintedClusterAt(f: Format, p: Printed, file: seq<Byte>, at: nat, rest: seq<Byte>)
    requires f.element(ElementBytes(p) + rest) == Ok(Header(CLUSTER, |p.body|, |p.id| + p.width, false))
    requires |p.body| <= BODY_LIMIT && at <= |file| && file[at..] == ElementBytes(p) + rest
    ensures ClusterAt(f, file, at) == Some((BodyBlocks(f, p.body), |ElementBytes(p)|))
  {
    HeadThenBody(p.id, VintBytes(|p.body|, p.width), p.body, rest);
    OneClusterAt(f, file, at, ElementBytes(p) + rest,
                 Header(CLUSTER, |p.body|, |p.id| + p.width, false), p.body);
  }

  lemma PrintedReadsAs(file: seq<Byte>, p: Printed, blocks: seq<Block>)
    requires BlocksRead(p) == Some(blocks)
    ensures ReadsAs(ClustersOf(MATROSKA, file), file, Piece(ElementBytes(p), blocks))
  {
    var piece := Piece(ElementBytes(p), blocks);
    forall at: nat, rest: seq<Byte> ensures ReadsAt(ClustersOf(MATROSKA, file), file, piece, at, rest) {
      if at <= |file| && file[at..] == ElementBytes(p) + rest {
        ClusterHeadReads(p, rest);
        PrintedClusterAt(MATROSKA, p, file, at, rest);
      }
    }
  }

  lemma {:induction false} AllPrintedReadAs(file: seq<Byte>, ps: seq<Printed>)
    requires Pieces(ps).Some?
    ensures AllReadAs(ClustersOf(MATROSKA, file), file, Pieces(ps).value)
  {
    if ps != [] {
      var p, more := Piece(ElementBytes(ps[0]), BlocksRead(ps[0]).value), Pieces(ps[1..]).value;
      PrintedReadsAs(file, ps[0], p.blocks);
      AllPrintedReadAs(file, ps[1..]);
      OneMoreReadsAs(ClustersOf(MATROSKA, file), file, p, more);
    }
  }

  lemma OneMoreReadsAs(cluster: At, file: seq<Byte>, p: Piece, more: seq<Piece>)
    requires ReadsAs(cluster, file, p) && AllReadAs(cluster, file, more)
    ensures AllReadAs(cluster, file, [p] + more)
  {
    assert ([p] + more)[1..] == more;
  }

  /** The pieces lie at `at` one behind another, each a cluster of its blocks, and none behind them. */
  predicate Here(cluster: At, at: nat, ps: seq<Piece>)
    decreases |ps|
  {
    if ps == [] then cluster(at).None?
    else
      && cluster(at) == Some((Stream(ps[0].blocks, None), |ps[0].bytes|))
      && Here(cluster, at + |ps[0].bytes|, ps[1..])
  }

  lemma {:induction false} PiecesHere(
    cluster: At, file: seq<Byte>, at: nat, ps: seq<Piece>, tail: seq<Byte>)
    requires AllReadAs(cluster, file, ps)
    requires at <= |file| && file[at..] == PiecesBytes(ps) + tail
    requires forall end: nat | end <= |file| && file[end..] == tail :: cluster(end).None?
    ensures Here(cluster, at, ps)
    decreases |ps|
  {
    if ps == [] {
      assert [] + tail == tail;
    } else {
      var rest := PiecesBytes(ps[1..]) + tail;
      Others(file, at, ps[0].bytes, PiecesBytes(ps[1..]), tail);
      assert ReadsAt(cluster, file, ps[0], at, rest);
      PiecesHere(cluster, file, at + |ps[0].bytes|, ps[1..], tail);
    }
  }

  lemma NoneAtTheEnd(file: seq<Byte>, tail: seq<Byte>)
    requires Ends(MATROSKA, tail)
    ensures forall end: nat | end <= |file| && file[end..] == tail ::
              ClustersOf(MATROSKA, file)(end).None?
  {
  }

  lemma PlacedStep(at: nat, ps: seq<Piece>)
    requires ps != []
    ensures Placed(at, ps) != [] && Placed(at, ps)[0] == Segments.Cluster(at, ps[0].blocks)
    ensures Placed(at, ps)[1..] == Placed(at + |ps[0].bytes|, ps[1..])
    ensures Segments.All(Placed(at, ps))
         == ps[0].blocks + Segments.All(Placed(at + |ps[0].bytes|, ps[1..]))
  {
  }

  /** From where the clusters begin on, every block of every cluster, in order. */
  lemma {:induction false} AllClusters(cluster: At, size: nat, at: nat, ps: seq<Piece>)
    requires Bounded(cluster, size) && Here(cluster, at, ps)
    ensures ReadOn(cluster, size, at) == Stream(Segments.All(Placed(at, ps)), None)
    decreases |ps|
  {
    if ps != [] {
      AllClusters(cluster, size, at + |ps[0].bytes|, ps[1..]);
      PlacedStep(at, ps);
    }
  }

  lemma {:induction false} FromAnyCluster(
    cluster: At, size: nat, first: nat, ps: seq<Piece>, at: nat)
    requires Bounded(cluster, size) && Here(cluster, first, ps)
    requires Segments.Has(Placed(first, ps), at)
    ensures ReadOn(cluster, size, at) == Stream(Segments.From(Placed(first, ps), at), None)
    decreases |ps|
  {
    PlacedStep(first, ps);
    if at == first {
      AllClusters(cluster, size, first, ps);
    } else {
      FromAnyCluster(cluster, size, first + |ps[0].bytes|, ps[1..], at);
    }
  }

  /**
   Reading a file's bytes from any of its clusters gives the blocks of that cluster and all after
   it, in order and with no error: what a segment is cut from.
   */
  lemma ReadsFromAnyCluster(
    file: seq<Byte>, first: nat, ps: seq<Printed>, tail: seq<Byte>, at: nat)
    requires Pieces(ps).Some? && Ends(MATROSKA, tail)
    requires first <= |file| && file[first..] == PiecesBytes(Pieces(ps).value) + tail
    requires Segments.Has(Placed(first, Pieces(ps).value), at)
    ensures BlocksFrom(MATROSKA, file, at)
         == Stream(Segments.From(Placed(first, Pieces(ps).value), at), None)
  {
    var cluster, pieces := ClustersOf(MATROSKA, file), Pieces(ps).value;
    AllPrintedReadAs(file, ps);
    NoneAtTheEnd(file, tail);
    PiecesHere(cluster, file, first, pieces, tail);
    FromAnyCluster(cluster, |file|, first, pieces, at);
  }
}
