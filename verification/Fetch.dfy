/**
 A resource over HTTP read by ranges, as a file (crates/anistream-cast/src/fetch.rs, `RemoteFile`
 and `RangeFile`'s `Read` and `Seek`). What upstream answers is an input: it may fail at any time,
 and send less than was asked for.
 */
module Fetch {
  import opened Bytes

  const READ_AHEAD: nat := 0x10_0000

  datatype IoError = Failed | BadStatus(status: nat) | IgnoresRanges | BeforeTheStart

  /**
   An answer: its status, its `Content-Range` with the size that names, when that is a number, its
   `Content-Length`, and the chunks of its body, each of which may fail.
   */
  datatype Response = Response(
    status: nat, contentRange: Option<Option<nat>>, contentLength: Option<nat>,
    chunks: seq<Option<seq<Byte>>>)

  /** The size of the whole resource, when an answer says it. */
  function TotalSize(r: Response): Option<nat> {
    if r.contentRange.Some? then r.contentRange.value
    else if r.status == 200 then r.contentLength
    else None
  }

  /** What the n-th request, for the bytes from `at` on, is answered with. */
  type Upstream = (nat, nat) -> Option<Response>

  /** The chunks up to a failed one, and whether `limit` bytes come before it. */
  function Prefix(chunks: seq<Option<seq<Byte>>>, had: seq<Byte>, limit: nat): Option<seq<Byte>>
    decreases |chunks|
  {
    if |had| >= limit then Some(had[..limit])
    else if chunks == [] then Some(had)
    else if chunks[0].None? then None
    else Prefix(chunks[1..], had + chunks[0].value, limit)
  }

  /** `prefix`: the body's first `limit` bytes at most. */
  method ReadPrefix(chunks: seq<Option<seq<Byte>>>, limit: nat) returns (body: Option<seq<Byte>>)
    ensures body == Prefix(chunks, [], limit)
  {
    var out := [];
    var i := 0;
    while |out| < limit && i < |chunks|
      invariant i <= |chunks|
      invariant Prefix(chunks[i..], out, limit) == Prefix(chunks, [], limit)
    {
      assert chunks[i..][1..] == chunks[i + 1..];
      if chunks[i].None? { return None; }
      out := out + chunks[i].value;
      i := i + 1;
    }
    assert chunks[|chunks|..] == [] && (|out| == limit ==> out[..limit] == out);
    return Some(if |out| > limit then out[..limit] else out);
  }

  /** All the bytes of a body none of whose chunks fails. */
  function Whole(chunks: seq<Option<seq<Byte>>>): seq<Byte>
    requires forall c <- chunks :: c.Some?
  {
    if chunks == [] then [] else chunks[0].value + Whole(chunks[1..])
  }

  /** Part of the body is what the body starts with. */
  lemma {:induction false} PrefixIsPrefix(
    chunks: seq<Option<seq<Byte>>>, had: seq<Byte>, limit: nat)
    requires forall c <- chunks :: c.Some?
    ensures
      var all := had + Whole(chunks);
      Prefix(chunks, had, limit) == Some(if |all| < limit then all else all[..limit])
    decreases |chunks|
  {
    if |had| >= limit {
      assert (had + Whole(chunks))[..limit] == had[..limit];
    } else if chunks == [] {
      assert had + [] == had;
    } else {
      PrefixIsPrefix(chunks[1..], had + chunks[0].value, limit);
      assert had + chunks[0].value + Whole(chunks[1..])
          == had + (chunks[0].value + Whole(chunks[1..]));
    }
  }

  /** What one request brings: the size it says, and the bytes; or an error. */
  function Fetched(upstream: Upstream, n: nat, at: nat): Result<(Option<nat>, seq<Byte>), IoError> {
    match upstream(n, at)
    case None => Err(Failed)
    case Some(r) =>
      if r.status != 200 && r.status != 206 then Err(BadStatus(r.status))
      else if r.status == 200 && at > 0 then Err(IgnoresRanges)
      else
        match Prefix(r.chunks, [], READ_AHEAD)
        case None => Err(Failed)
        case Some(body) => Ok((TotalSize(r), body))
  }

  /**
   An upstream for `resource`: a body that arrives holds bytes of the resource from where it was
   asked, at least one when there is one; and a size it says is right.
   */
  ghost predicate Serves(upstream: Upstream, resource: seq<Byte>) {
    forall n: nat, at: nat :: Fetched(upstream, n, at).Ok? ==> ServedBy(Fetched(upstream, n, at).value, resource, at)
  }

  ghost predicate ServedBy(got: (Option<nat>, seq<Byte>), resource: seq<Byte>, at: nat) {
    && (got.0.Some? ==> got.0.value == |resource|)
    && (at <= |resource| ==> at + |got.1| <= |resource| && got.1 == resource[at..at + |got.1|])
    && (at < |resource| ==> got.1 != [])
  }

  /** An answer with the right status and the right bytes, short or not, is served so. */
  lemma ARightAnswerServes(upstream: Upstream, resource: seq<Byte>, n: nat, at: nat, to: nat)
    requires upstream(n, at).Some? && at < to <= |resource|
    requires forall c <- upstream(n, at).value.chunks :: c.Some?
    requires Whole(upstream(n, at).value.chunks) == resource[at..to]
    requires upstream(n, at).value.status == 206 || (upstream(n, at).value.status == 200 && at == 0)
    requires TotalSize(upstream(n, at).value) in {None, Some(|resource|)}
    ensures Fetched(upstream, n, at).Ok?
    ensures ServedBy(Fetched(upstream, n, at).value, resource, at)
  {
    var body := resource[at..to];
    PrefixIsPrefix(upstream(n, at).value.chunks, [], READ_AHEAD);
    assert [] + body == body;
    if |body| >= READ_AHEAD {
      assert body[..READ_AHEAD] == resource[at..at + READ_AHEAD];
    }
  }

  datatype SeekFrom = Start(at: nat) | End(delta: int) | Current(delta: int)

  /** Where a seek goes, unless that is no 64-bit position. */
  function Target(to: SeekFrom, size: nat, position: nat): Option<nat> {
    match to
    case Start(at) => Some(at)
    case End(delta) => if 0 <= size + delta < WORD64 then Some(size + delta) else None
    case Current(delta) => if 0 <= position + delta < WORD64 then Some(position + delta) else None
  }

  lemma Sliced(resource: seq<Byte>, buffer: seq<Byte>, from: nat, at: nat, n: nat)
    requires from + |buffer| <= |resource| && buffer == resource[from..from + |buffer|]
    requires from <= at && at + n <= from + |buffer|
    ensures buffer[at - from..][..n] == resource[at..at + n]
  {
  }

  class RemoteFile {
    const upstream: Upstream
    ghost const resource: seq<Byte>
    var asked: nat
    var size: nat
    var position: nat
    var buffer: seq<Byte>
    var bufferAt: nat

    /** What was read ahead mirrors the resource, and all that can be read of it is there. */
    ghost predicate Valid()
      reads this
    {
      && Serves(upstream, resource)
      && bufferAt + |buffer| <= size <= |resource|
      && buffer == resource[bufferAt..bufferAt + |buffer|]
      && (size == |resource| || (bufferAt == 0 && |buffer| == size))
    }

    constructor (upstream: Upstream, ghost resource: seq<Byte>)
      requires Serves(upstream, resource)
      ensures this.upstream == upstream && this.resource == resource
      ensures asked == 0 && size == 0 && position == 0 && buffer == [] && bufferAt == 0
    {
      this.upstream, this.resource := upstream, resource;
      asked, size, position, buffer, bufferAt := 0, 0, 0, [], 0;
    }

    /** Read ahead from `at`; an error changes nothing that was read. */
    method Fetch(at: nat) returns (r: Result<nat, IoError>)
      modifies this`asked, this`buffer, this`bufferAt
      ensures asked == old(asked) + 1
      ensures
        match Fetched(upstream, old(asked), at)
        case Err(e) => r == Err(e) && buffer == old(buffer) && bufferAt == old(bufferAt)
        case Ok((total, body)) =>
          && buffer == body && bufferAt == at
          && r == Ok(if total.Some? then total.value else at + |body|)
    {
      var answer := upstream(asked, at);
      asked := asked + 1;
      if answer.None? { return Err(Failed); }
      var response := answer.value;
      if response.status != 200 && response.status != 206 {
        return Err(BadStatus(response.status));
      }
      if response.status == 200 && at > 0 { return Err(IgnoresRanges); }
      var total := TotalSize(response);
      var body := ReadPrefix(response.chunks, READ_AHEAD);
      if body.None? { return Err(Failed); }
      buffer, bufferAt := body.value, at;
      return Ok(if total.Some? then total.value else at + |buffer|);
    }

    /**
     Open: the size is what the first answer says or, when it says none, what it brought. So the
     file is the whole resource exactly when the size was said or the first answer brought it all.
     */
    method Open() returns (r: Result<(), IoError>)
      requires asked == 0 && size == 0 && position == 0 && buffer == [] && bufferAt == 0
      requires Serves(upstream, resource)
      modifies this
      ensures r.Ok? <==> Fetched(upstream, 0, 0).Ok?
      ensures r.Ok? ==>
        && Valid() && position == 0
        && (size == |resource|
            <==> Fetched(upstream, 0, 0).value.0.Some? || |Fetched(upstream, 0, 0).value.1| == |resource|)
        && (size != |resource| ==> size == |Fetched(upstream, 0, 0).value.1|)
    {
      var got := Fetch(0);
      if got.Err? { return Err(got.error); }
      assert ServedBy(Fetched(upstream, 0, 0).value, resource, 0);
      size := got.value;
      return Ok(());
    }

    /** Read ahead when what was read does not hold the position. */
    method Cover() returns (r: Result<(), IoError>)
      requires Valid() && position < size
      modifies this`asked, this`buffer, this`bufferAt
      ensures Valid()
      ensures r.Ok? ==> bufferAt <= position < bufferAt + |buffer|
    {
      var end := bufferAt + |buffer|;
      if position < bufferAt || position >= end {
        ghost var n := asked;
        var got := Fetch(position);
        if got.Err? { return Err(got.error); }
        assert ServedBy(Fetched(upstream, n, position).value, resource, position);
      }
      return Ok(());
    }

    /**
     The bytes at the position, `want` of them at most: the resource's own, at least one before the
     end, and none from there on. An error moves nothing.
     */
    method Read(want: nat) returns (r: Result<seq<Byte>, IoError>)
      requires Valid()
      modifies this`asked, this`buffer, this`bufferAt, this`position
      ensures Valid()
      ensures r.Err? ==> position == old(position) && old(position) < size && want > 0
      ensures r.Ok? ==>
        && position == old(position) + |r.value| && |r.value| <= want
        && (r.value == [] <==> want == 0 || old(position) >= size)
        && (r.value != [] ==> position <= size && r.value == resource[old(position)..position])
    {
      if position >= size || want == 0 { return Ok([]); }
      var covered := Cover();
      if covered.Err? { return Err(covered.error); }
      var available := buffer[position - bufferAt..];
      var n := if |available| < want then |available| else want;
      var data := available[..n];
      Sliced(resource, buffer, bufferAt, position, n);
      position := position + n;
      return Ok(data);
    }

    /** A seek may go past the end, but not before the start. */
    method Seek(to: SeekFrom) returns (r: Result<nat, IoError>)
      modifies this`position
      ensures
        match Target(to, size, old(position))
        case None => r == Err(BeforeTheStart) && position == old(position)
        case Some(at) => r == Ok(at) && position == at
    {
      var target := Target(to, size, position);
      if target.None? { return Err(BeforeTheStart); }
      position := target.value;
      return Ok(position);
    }

    /** Reading until `want` bytes came or the end: however short the answers, they are all there. */
    method ReadExact(want: nat) returns (r: Result<seq<Byte>, IoError>)
      requires Valid()
      modifies this`asked, this`buffer, this`bufferAt, this`position
      ensures Valid()
      ensures r.Ok? && old(position) <= size ==>
        var end := if old(position) + want < size then old(position) + want else size;
        position == end && r.value == resource[old(position)..end]
      ensures r.Ok? && old(position) > size ==> r.value == [] && position == old(position)
    {
      var out: seq<Byte> := [];
      while |out| < want
        invariant Valid() && |out| <= want && position == old(position) + |out|
        invariant out != [] ==> position <= size
        invariant position <= size ==> out == resource[old(position)..position]
      {
        var some := Read(want - |out|);
        if some.Err? { return Err(some.error); }
        if some.value == [] { break; }
        out := out + some.value;
      }
      return Ok(out);
    }
  }

  // ----- Against the plain file -----

  datatype Op = ReadOp(want: nat) | SeekOp(to: SeekFrom)

  /** What an operation gave. */
  datatype Gave = Got(data: seq<Byte>) | At(position: nat) | Error

  /** Whether a plain file at `position`, of `bytes`, may give that and be at `after`. */
  predicate PlainGives(bytes: seq<Byte>, position: nat, op: Op, gave: Gave, after: nat) {
    match op
    case ReadOp(want) =>
      (match gave
       case Got(data) =>
         && after == position + |data| && |data| <= want
         && (data == [] <==> want == 0 || position >= |bytes|)
         && (data != [] ==> after <= |bytes| && data == bytes[position..after])
       case Error => after == position
       case At(_) => false)
    case SeekOp(to) =>
      (match Target(to, |bytes|, position)
       case None => gave == Error && after == position
       case Some(at) => gave == At(at) && after == at)
  }

  /** A plain file may give all of `gave`, and end at `after`. */
  predicate PlainRuns(bytes: seq<Byte>, position: nat, ops: seq<Op>, gave: seq<(Gave, nat)>)
    requires |ops| == |gave|
    decreases |ops|
  {
    ops != [] ==>
      && PlainGives(bytes, position, ops[0], gave[0].0, gave[0].1)
      && PlainRuns(bytes, gave[0].1, ops[1..], gave[1..])
  }

  lemma {:induction false} PlainRunsOn(
    bytes: seq<Byte>, position: nat, ops: seq<Op>, gave: seq<(Gave, nat)>, op: Op, last: (Gave, nat))
    requires |ops| == |gave| && PlainRuns(bytes, position, ops, gave)
    requires
      var now := if gave == [] then position else gave[|gave| - 1].1;
      PlainGives(bytes, now, op, last.0, last.1)
    ensures PlainRuns(bytes, position, ops + [op], gave + [last])
    decreases |ops|
  {
    if ops == [] {
      assert ([op])[1..] == [];
      assert ops + [op] == [op] && gave + [last] == [last];
    } else {
      PlainRunsOn(bytes, gave[0].1, ops[1..], gave[1..], op, last);
      assert (ops + [op])[1..] == ops[1..] + [op] && (gave + [last])[1..] == gave[1..] + [last];
    }
  }

  /** Any reads and seeks one after another give what the plain file would. */
  method Drive(file: RemoteFile, ops: seq<Op>) returns (gave: seq<(Gave, nat)>)
    requires file.Valid()
    modifies file`asked, file`buffer, file`bufferAt, file`position
    ensures file.Valid() && |gave| == |ops|
    ensures PlainRuns(file.resource[..file.size], old(file.position), ops, gave)
  {
    gave := [];
    ghost var plain := file.resource[..file.size];
    for i := 0 to |ops|
      invariant file.Valid() && |gave| == i
      invariant PlainRuns(plain, old(file.position), ops[..i], gave)
      invariant file.position == if gave == [] then old(file.position) else gave[i - 1].1
    {
      var one: Gave;
      ghost var was := file.position;
      match ops[i] {
        case ReadOp(want) =>
          var r := file.Read(want);
          one := if r.Ok? then Got(r.value) else Error;
          if one.Got? && one.data != [] {
            assert plain[was..file.position] == file.resource[was..file.position];
          }
        case SeekOp(to) =>
          var r := file.Seek(to);
          one := if r.Ok? then At(r.value) else Error;
      }
      PlainRunsOn(plain, old(file.position), ops[..i], gave, ops[i], (one, file.position));
      assert ops[..i] + [ops[i]] == ops[..i + 1];
      gave := gave + [(one, file.position)];
    }
    assert ops[..|ops|] == ops;
  }

  // ----- A first answer that says no size -----

  const TWO: seq<Byte> := [7, 7]

  /** One byte at a time, and no size. */
  const SLOW: Upstream := (n: nat, at: nat) =>
    Some(Response(206, None, None, if at < 2 then [Some([7])] else []))

  lemma SlowAnswers(n: nat, at: nat)
    ensures Fetched(SLOW, n, at) == Ok((None, if at < 2 then [7] else []))
  {
    var chunks: seq<Option<seq<Byte>>> := SLOW(n, at).value.chunks;
    PrefixIsPrefix(chunks, [], READ_AHEAD);
    if at < 2 {
      assert chunks[1..] == [] && [7 as Byte] + [] == [7] && [] + [7 as Byte] == [7];
    }
  }

  lemma SlowServes()
    ensures Serves(SLOW, TWO)
  {
    forall n: nat, at: nat | Fetched(SLOW, n, at).Ok?
      ensures ServedBy(Fetched(SLOW, n, at).value, TWO, at)
    {
      SlowAnswers(n, at);
      assert at < 2 ==> TWO[at..at + 1] == [7];
    }
  }

  /** Such a file ends where its first answer did. */
  method OpenShort() returns (size: nat)
    ensures size == 1 < |TWO|
  {
    SlowServes();
    SlowAnswers(0, 0);
    var file := new RemoteFile(SLOW, TWO);
    var opened' := file.Open();
    return file.size;
  }
}
