/**
 Reading Matroska: EBML numbers and elements, blocks and their laced frames
 (crates/anistream-cast/src/mkv.rs, `vint`, `element`, `children` and `block`), against printers
 after RFC 8794, sections 4 and 6, and RFC 9559, section 10.3.
 */
module Mkv {
  import opened Bytes
  import Segments

  type Block = Segments.Block

  datatype DemuxError = EndOfFile | BadNumber | ShortBlock | ShortLace | UnknownSize | TooLarge

  // ----- EBML numbers -----

  /** A number, how many bytes it took, and whether it is the size that says "unknown". */
  datatype Number = Number(value: nat, length: nat, unknown: bool)

  /** The number of bytes a number's first byte says it has: its leading zeros, and one. */
  function Length(first: Byte): (w: nat)
    ensures 1 <= w <= 9
  {
    if first >= 0x80 then 1
    else if first >= 0x40 then 2
    else if first >= 0x20 then 3
    else if first >= 0x10 then 4
    else if first >= 0x08 then 5
    else if first >= 0x04 then 6
    else if first >= 0x02 then 7
    else if first >= 0x01 then 8
    else 9
  }

  /** The marker bit of a number of `w` bytes: the first byte's, before its value bits. */
  function Marker(w: nat): (m: nat)
    requires 1 <= w <= 8
    ensures 1 <= m <= 0x80
  {
    if w == 1 then 0x80
    else if w == 2 then 0x40
    else if w == 3 then 0x20
    else if w == 4 then 0x10
    else if w == 5 then 0x08
    else if w == 6 then 0x04
    else if w == 7 then 0x02
    else 0x01
  }

  /** Two to the power of seven for each byte: how many numbers `w` bytes tell apart. */
  function Sevens(w: nat): (n: nat)
    requires w >= 1
    ensures n >= 0x80
  {
    if w == 1 then 0x80 else 0x80 * Sevens(w - 1)
  }

  lemma SevensAre()
    ensures Sevens(1) == 0x80 && Sevens(2) == 0x4000 && Sevens(3) == 0x20_0000
    ensures Sevens(4) == 0x1000_0000 && Sevens(5) == 0x8_0000_0000
    ensures Sevens(6) == 0x400_0000_0000 && Sevens(7) == 0x2_0000_0000_0000
    ensures Sevens(8) == 0x100_0000_0000_0000
  {
    assert Sevens(2) == 0x80 * Sevens(1) && Sevens(3) == 0x80 * Sevens(2);
    assert Sevens(4) == 0x80 * Sevens(3) && Sevens(5) == 0x80 * Sevens(4);
    assert Sevens(6) == 0x80 * Sevens(5) && Sevens(7) == 0x80 * Sevens(6);
  }

  /** The first byte without its marker bit. */
  function ValueBits(first: Byte, w: nat): Byte
    requires w == Length(first) <= 8
  {
    first - Marker(w)
  }

  function Vint(data: seq<Byte>, keepMarker: bool): (r: Result<Number, DemuxError>)
    ensures r.Ok? ==> 1 <= r.value.length <= 8 && r.value.length <= |data|
  {
    if data == [] then Err(EndOfFile)
    else
      var w := Length(data[0]);
      if w > 8 then Err(BadNumber)
      else if |data| < w then Err(EndOfFile)
      else
        var first := if keepMarker then data[0] else ValueBits(data[0], w);
        var value := Num([first] + data[1..w]);
        Ok(Number(value, w, !keepMarker && value == Sevens(w) - 1))
  }

  /** `vint`, reading from `at`. */
  method ReadVint(data: seq<Byte>, at: nat, keepMarker: bool)
    returns (r: Result<(Number, nat), DemuxError>)
    requires at <= |data|
    ensures
      match Vint(data[at..], keepMarker)
      case Err(e) => r == Err(e)
      case Ok(number) => r == Ok((number, at + number.length)) && at + number.length <= |data|
  {
    if at == |data| { return Err(EndOfFile); }
    var w := Length(data[at]);
    if w > 8 { return Err(BadNumber); }
    var first: Byte := if keepMarker then data[at] else ValueBits(data[at], w);
    var value: nat := first;
    var i := 1;
    assert Num([first]) == first by { assert [first][..0] == []; }
    while i < w
      invariant 1 <= i <= w && at + i <= |data|
      invariant value == Num([first] + data[at..][1..i])
    {
      if at + i == |data| { return Err(EndOfFile); }
      NumGrows([first] + data[at..][1..i], data[at + i]);
      assert [first] + data[at..][1..i + 1] == [first] + data[at..][1..i] + [data[at + i]];
      value := 0x100 * value + data[at + i];
      i := i + 1;
    }
    return Ok((Number(value, w, !keepMarker && value == Sevens(w) - 1), at + w));
  }

  lemma NumGrows(s: seq<Byte>, b: Byte)
    ensures Num(s + [b]) == 0x100 * Num(s) + b
  {
    assert (s + [b])[..|s|] == s;
  }

  lemma {:induction false} NumFront(b: Byte, s: seq<Byte>)
    ensures Num([b] + s) == b * Room(|s|) + Num(s)
  {
    if s == [] {
      assert [b] + s == [b] && [b][..0] == [];
    } else {
      var init, last := s[..|s| - 1], s[|s| - 1];
      NumFront(b, init);
      assert [b] + s == [b] + init + [last];
      NumGrows([b] + init, last);
    }
  }

  /** A number printed in `w` bytes: its value under the marker bit. */
  function VintBytes(value: nat, w: nat): (r: seq<Byte>)
    requires 1 <= w <= 8 && value < Sevens(w)
    ensures |r| == w
  {
    Be(value + Sevens(w), w)
  }

  lemma MarkerIs(w: nat)
    requires 1 <= w <= 8
    ensures Marker(w) * Room(w - 1) == Sevens(w) && 2 * Sevens(w) <= Room(w)
    ensures Sevens(w) <= 0x100_0000_0000_0000
  {
    SevensAre();
    assert Room(0) == 1 && Room(1) == 0x100 && Room(2) == 0x1_0000;
    assert Room(3) == 0x100_0000 && Room(4) == 0x1_0000_0000;
    assert Room(5) == 0x100_0000_0000 && Room(6) == 0x1_0000_0000_0000;
    assert Room(7) == 0x100_0000_0000_0000 && Room(8) == 0x1_0000_0000_0000_0000;
  }

  /** A first byte in its marker's range says its number's length. */
  lemma LengthIs(first: Byte, w: nat)
    requires 1 <= w <= 8 && Marker(w) <= first < 2 * Marker(w)
    ensures Length(first) == w
  {
  }

  lemma TimesLe(a: nat, b: nat, room: nat)
    requires a <= b
    ensures a * room <= b * room
  {
  }

  /** Between one and two markers' worth, the first byte holds one marker. */
  lemma FirstByte(first: Byte, tail: nat, value: nat, m: nat, room: nat)
    requires first * room + tail == value + m * room && tail < room && value < m * room
    ensures m <= first < 2 * m
  {
    if first < m {
      TimesLe(first + 1, m, room);
    } else if first >= 2 * m {
      TimesLe(2 * m, first, room);
    }
  }

  /** The first byte of a printed number says its length, and the rest its value. */
  lemma BytesTell(bytes: seq<Byte>, w: nat, value: nat)
    requires |bytes| == w && 1 <= w <= 8 && value < Sevens(w) && Num(bytes) == value + Sevens(w)
    ensures Length(bytes[0]) == w
    ensures Num([ValueBits(bytes[0], w)] + bytes[1..]) == value
  {
    var first, tail := bytes[0], bytes[1..];
    MarkerIs(w);
    assert bytes == [first] + tail;
    NumFront(first, tail);
    NumFits(tail);
    FirstByte(first, Num(tail), value, Marker(w), Room(w - 1));
    LengthIs(first, w);
    NumFront(ValueBits(first, w), tail);
    Distributes(first, Marker(w), Room(w - 1));
  }

  lemma BytesRead(bytes: seq<Byte>, w: nat, value: nat, rest: seq<Byte>)
    requires |bytes| == w && 1 <= w <= 8 && value < Sevens(w) && Num(bytes) == value + Sevens(w)
    ensures Vint(bytes + rest, false) == Ok(Number(value, w, value == Sevens(w) - 1))
    ensures (bytes + rest)[w..] == rest
  {
    BytesTell(bytes, w, value);
    assert (bytes + rest)[1..w] == bytes[1..];
  }

  /** A number printed in any width that holds it reads back. */
  lemma VintReads(value: nat, w: nat, rest: seq<Byte>)
    requires 1 <= w <= 8 && value < Sevens(w)
    ensures Vint(VintBytes(value, w) + rest, false)
         == Ok(Number(value, w, value == Sevens(w) - 1))
    ensures (VintBytes(value, w) + rest)[w..] == rest
  {
    MarkerIs(w);
    BeReads(value + Sevens(w), w);
    BytesRead(VintBytes(value, w), w, value, rest);
  }

  lemma Distributes(a: nat, b: nat, room: nat)
    requires b <= a
    ensures (a - b) * room == a * room - b * room
  {
  }

  // ----- Laced frames -----

  /** A Xiph size: bytes summed up to the first below 255. */
  function XiphSize(rest: seq<Byte>): Result<(nat, seq<Byte>), DemuxError> {
    if rest == [] then Err(ShortLace)
    else if rest[0] != 255 then Ok((rest[0], rest[1..]))
    else
      match XiphSize(rest[1..])
      case Err(e) => Err(e)
      case Ok((size, after)) => Ok((255 + size, after))
  }

  function XiphSizes(rest: seq<Byte>, n: nat): Result<(seq<nat>, seq<Byte>), DemuxError>
    decreases n
  {
    if n == 0 then Ok(([], rest))
    else
      match XiphSize(rest)
      case Err(e) => Err(e)
      case Ok((size, after)) =>
        match XiphSizes(after, n - 1)
        case Err(e) => Err(e)
        case Ok((more, last)) => Ok(([size] + more, last))
  }

  /** What is taken off a delta's value to make it signed: half its range. */
  function Bias(w: nat): nat
    requires 1 <= w <= 8
  {
    Sevens(w) / 2 - 1
  }

  /** `n` EBML sizes, each told by what it adds to the one before; below zero counts as zero. */
  function EbmlDeltas(rest: seq<Byte>, n: nat, size: int)
    : Result<(seq<nat>, seq<Byte>), DemuxError>
    decreases n
  {
    if n == 0 then Ok(([], rest))
    else
      match Vint(rest, false)
      case Err(e) => Err(e)
      case Ok(number) =>
        var next := size + number.value - Bias(number.length);
        match EbmlDeltas(rest[number.length..], n - 1, next)
        case Err(e) => Err(e)
        case Ok((more, last)) => Ok(([if next < 0 then 0 else next] + more, last))
  }

  /** The first size is read whatever the count. */
  function EbmlSizes(rest: seq<Byte>, count: nat): Result<(seq<nat>, seq<Byte>), DemuxError>
    requires count >= 1
  {
    match Vint(rest, false)
    case Err(e) => Err(e)
    case Ok(number) =>
      match EbmlDeltas(rest[number.length..], if count < 2 then 0 else count - 2, number.value)
      case Err(e) => Err(e)
      case Ok((more, last)) => Ok(([number.value] + more, last))
  }

  function Times(size: nat, n: nat): (r: seq<nat>)
    ensures |r| == n
  {
    if n == 0 then [] else [size] + Times(size, n - 1)
  }

  datatype Lacing = NoLacing | Xiph | Fixed | Ebml

  /** The sizes a lace's head gives, all but the last frame's, and the bytes after it. */
  function Sizes(lacing: Lacing, rest: seq<Byte>): Result<(seq<nat>, seq<Byte>), DemuxError> {
    if lacing.NoLacing? then Ok(([], rest))
    else if rest == [] then Err(ShortLace)
    else
      var count, tail := rest[0] as nat + 1, rest[1..];
      match lacing
      case Xiph => XiphSizes(tail, count - 1)
      case Ebml => EbmlSizes(tail, count)
      case Fixed => Ok((Times(|tail| / count, count - 1), tail))
  }

  function Min(a: nat, b: nat): nat { if a < b then a else b }

  /** A frame of each size while there are bytes, and a last one of what is left. */
  function Deal(sizes: seq<nat>, rest: seq<Byte>): (frames: seq<seq<Byte>>)
    ensures |frames| == |sizes| + 1
    decreases |sizes|
  {
    if sizes == [] then [rest]
    else
      var n := Min(sizes[0], |rest|);
      [rest[..n]] + Deal(sizes[1..], rest[n..])
  }

  function LacingOf(flags: Byte): Lacing {
    var bits := flags / 2 % 4;
    if bits == 0 then NoLacing else if bits == 1 then Xiph else if bits == 2 then Fixed else Ebml
  }

  function Frames(flags: Byte, rest: seq<Byte>): Result<seq<seq<Byte>>, DemuxError> {
    match Sizes(LacingOf(flags), rest)
    case Err(e) => Err(e)
    case Ok((sizes, tail)) => Ok(Deal(sizes, tail))
  }

  function Signed16(n: nat): int {
    if n < 0x8000 then n else n - 0x1_0000
  }

  function EachFrame(track: nat, timestamp: int, key: bool, frames: seq<seq<Byte>>): (r: seq<Block>)
    ensures |r| == |frames|
    ensures forall i | 0 <= i < |r| :: r[i] == Segments.Block(track, timestamp, key, frames[i])
  {
    seq(|frames|, i requires 0 <= i < |frames| => Segments.Block(track, timestamp, key, frames[i]))
  }

  /** What follows a block's track number: its time in the cluster, its flags and its frames. */
  function AfterTrack(data: seq<Byte>, track: nat, cluster: int, key: Option<bool>)
    : Result<seq<Block>, DemuxError>
  {
    if |data| < 3 then Err(ShortBlock)
    else
      var isKey := if key.Some? then key.value else data[2] >= 0x80;
      match Frames(data[2], data[3..])
      case Err(e) => Err(e)
      case Ok(frames) =>
        Ok(EachFrame(track, cluster + Signed16(Num(data[..2])), isKey, frames))
  }

  /** `block`: a block's frames, with the group's word on whether they are keys, or their own. */
  function BlocksOf(data: seq<Byte>, cluster: int, key: Option<bool>): Result<seq<Block>, DemuxError> {
    match Vint(data, false)
    case Err(e) => Err(e)
    case Ok(track) => AfterTrack(data[track.length..], track.value, cluster, key)
  }

  // ----- The loops -----

  /** A Xiph lace's sizes, byte by byte. */
  method ReadXiph(data: seq<Byte>, from: nat, n: nat)
    returns (r: Result<(seq<nat>, nat), DemuxError>)
    requires from <= |data|
    ensures
      match XiphSizes(data[from..], n)
      case Err(e) => r == Err(e)
      case Ok((sizes, rest)) => r.Ok? && r.value.1 <= |data| && rest == data[r.value.1..] && r.value.0 == sizes
  {
    var sizes: seq<nat>, at: nat := [], from;
    ghost var want := XiphSizes(data[from..], n);
    JoinsNone(want);
    for i := 0 to n
      invariant at <= |data|
      invariant Joins(want, sizes, XiphSizes(data[at..], n - i))
    {
      var size: nat := 0;
      ghost var start, whole := at, XiphSize(data[at..]);
      while true
        invariant start <= at <= |data|
        invariant
          match XiphSize(data[at..])
          case Err(e) => whole == Err(e)
          case Ok((more, after)) => whole == Ok((size + more, after))
        decreases |data| - at
      {
        if at == |data| { return Err(ShortLace); }
        var byte := data[at];
        assert data[at..][1..] == data[at + 1..];
        at := at + 1;
        size := size + byte;
        if byte != 255 { break; }
      }
      assert whole == Ok((size, data[at..]));
      JoinsOne(want, sizes, size, XiphSizes(data[at..], n - i - 1));
      sizes := sizes + [size];
    }
    return Ok((sizes, at));
  }

  /** `want` is `sizes` and then what `rest` says. */
  predicate Joins(
    want: Result<(seq<nat>, seq<Byte>), DemuxError>, sizes: seq<nat>,
    rest: Result<(seq<nat>, seq<Byte>), DemuxError>)
  {
    match rest
    case Err(e) => want == Err(e)
    case Ok((more, last)) => want == Ok((sizes + more, last))
  }

  lemma JoinsNone(want: Result<(seq<nat>, seq<Byte>), DemuxError>)
    ensures Joins(want, [], want)
  {
    if want.Ok? {
      assert [] + want.value.0 == want.value.0;
    }
  }

  lemma JoinsOne(
    want: Result<(seq<nat>, seq<Byte>), DemuxError>, sizes: seq<nat>, size: nat,
    rest: Result<(seq<nat>, seq<Byte>), DemuxError>)
    requires rest.Ok? ==> Joins(want, sizes, Ok(([size] + rest.value.0, rest.value.1)))
    requires rest.Err? ==> want == Err(rest.error)
    ensures Joins(want, sizes + [size], rest)
  {
    if rest.Ok? {
      assert sizes + ([size] + rest.value.0) == sizes + [size] + rest.value.0;
    }
  }

  /** An EBML lace's sizes, the running one within 64 signed bits. */
  method ReadEbml(data: seq<Byte>, from: nat, count: nat)
    returns (r: Result<(seq<nat>, nat), DemuxError>)
    requires from <= |data| && 1 <= count <= 256
    ensures
      match EbmlSizes(data[from..], count)
      case Err(e) => r == Err(e)
      case Ok((sizes, rest)) => r.Ok? && r.value.1 <= |data| && rest == data[r.value.1..] && r.value.0 == sizes
  {
    var first := ReadVint(data, from, false);
    if first.Err? { return Err(first.error); }
    VintBound(data[from..]);
    var sizes: seq<nat>, at: nat := [first.value.0.value], first.value.1;
    var size: int := first.value.0.value;
    ghost var want := EbmlSizes(data[from..], count);
    ghost var n := if count < 2 then 0 else count - 2;
    assert data[from..][first.value.0.length..] == data[at..];
    ghost var left: nat := n;
    var i := 1;
    while i < count - 1
      invariant 1 <= i && i - 1 + left == n && at <= |data|
      invariant -HALF * (i - 1) <= size < 2 * HALF + HALF * (i - 1)
      invariant Joins(want, sizes, EbmlDeltas(data[at..], left, size))
    {
      var next := ReadDelta(data, at, size, left);
      if next.Err? { return Err(next.error); }
      size := next.value.0;
      assert -0x8000_0000_0000_0000 <= size < 0x8000_0000_0000_0000;
      at, left := next.value.1, left - 1;
      var clipped: nat := if size < 0 then 0 else size;
      JoinsOne(want, sizes, clipped, EbmlDeltas(data[at..], left, size));
      sizes := sizes + [clipped];
      i := i + 1;
    }
    return Ok((sizes, at));
  }

  /** The next running size, and where its number ends. */
  method ReadDelta(data: seq<Byte>, at: nat, size: int, ghost left: nat)
    returns (r: Result<(int, nat), DemuxError>)
    requires at <= |data| && left > 0
    ensures r.Err? ==> EbmlDeltas(data[at..], left, size) == Err(r.error)
    ensures r.Ok? ==>
      var (next, end) := r.value;
      && end <= |data| && size - HALF < next <= size + HALF
      && EbmlDeltas(data[at..], left, size)
         == match EbmlDeltas(data[end..], left - 1, next)
            case Err(e) => Err(e)
            case Ok((more, last)) => Ok(([if next < 0 then 0 else next] + more, last))
  {
    var number := ReadVint(data, at, false);
    if number.Err? { return Err(number.error); }
    VintBound(data[at..]);
    assert data[at..][number.value.0.length..] == data[number.value.1..];
    return Ok((size + number.value.0.value - Bias(number.value.0.length), number.value.1));
  }

  /** The most a delta can add: half of what eight bytes tell apart. */
  const HALF: int := 0x80_0000_0000_0000

  lemma ValueBelow(first: Byte, w: nat, tail: seq<Byte>)
    requires 1 <= w <= 8 && first < Marker(w) && |tail| == w - 1
    ensures Num([first] + tail) < Sevens(w) <= 2 * HALF
  {
    NumFront(first, tail);
    NumFits(tail);
    MarkerIs(w);
    Below(first, Marker(w), Room(w - 1), Num(tail));
  }

  lemma Below(first: nat, m: nat, room: nat, tail: nat)
    requires first < m && tail < room
    ensures first * room + tail < m * room
  {
    TimesLe(first + 1, m, room);
    Distributes(first + 1, 1, room);
  }

  lemma ValueBitsBelow(first: Byte, w: nat)
    requires w == Length(first) <= 8
    ensures ValueBits(first, w) < Marker(w)
  {
  }

  lemma VintBound(data: seq<Byte>)
    ensures
      match Vint(data, false)
      case Err(_) => true
      case Ok(number) =>
        && number.value < Sevens(number.length) <= 2 * HALF
        && -HALF < number.value - Bias(number.length) <= HALF
  {
    if Vint(data, false).Ok? {
      var w := Length(data[0]);
      ValueBitsBelow(data[0], w);
      ValueBelow(ValueBits(data[0], w), w, data[1..w]);
      BiasIsHalf(w, Num([ValueBits(data[0], w)] + data[1..w]));
    }
  }

  lemma BiasIsHalf(w: nat, value: nat)
    requires 1 <= w <= 8 && value < Sevens(w) <= 2 * HALF
    ensures -HALF < value - Bias(w) <= HALF
  {
    SevensEven(w);
  }

  lemma SevensEven(w: nat)
    requires w >= 1
    ensures Sevens(w) == 2 * (Sevens(w) / 2)
  {
    if w > 1 {
      assert Sevens(w) == 2 * (0x40 * Sevens(w - 1));
    }
  }

  /** Every size of an EBML lace fits 64 signed bits, the most frames and the largest sums among them. */
  lemma {:induction false} DeltasFit(rest: seq<Byte>, n: nat, size: int, k: nat)
    requires size < 2 * HALF + HALF * k && k + n <= 254
    ensures EbmlDeltas(rest, n, size).Ok?
      ==> forall s <- EbmlDeltas(rest, n, size).value.0 :: s < 0x8000_0000_0000_0000
    decreases n
  {
    if n > 0 && Vint(rest, false).Ok? {
      VintBound(rest);
      var number := Vint(rest, false).value;
      DeltasFit(rest[number.length..], n - 1, size + number.value - Bias(number.length), k + 1);
    }
  }

  /** The frames of a block, split from its bytes one after another. */
  method Split(sizes: seq<nat>, rest: seq<Byte>) returns (frames: seq<seq<Byte>>)
    ensures frames == Deal(sizes, rest)
  {
    frames := [];
    var left := rest;
    assert [] + Deal(sizes, rest) == Deal(sizes, rest);
    for i := 0 to |sizes|
      invariant Deal(sizes, rest) == frames + Deal(sizes[i..], left)
    {
      var n := Min(sizes[i], |left|);
      assert sizes[i..][1..] == sizes[i + 1..];
      assert frames + ([left[..n]] + Deal(sizes[i + 1..], left[n..]))
          == frames + [left[..n]] + Deal(sizes[i + 1..], left[n..]);
      frames := frames + [left[..n]];
      left := left[n..];
    }
    frames := frames + [left];
  }

  method ReadFrames(flags: Byte, data: seq<Byte>) returns (r: Result<seq<seq<Byte>>, DemuxError>)
    ensures r == Frames(flags, data)
  {
    var sizes := ReadSizes(LacingOf(flags), data);
    if sizes.Err? { return Err(sizes.error); }
    var frames := Split(sizes.value.0, data[sizes.value.1..]);
    return Ok(frames);
  }

  /** The sizes a lace's head gives, and where the frames begin. */
  method ReadSizes(lacing: Lacing, data: seq<Byte>)
    returns (r: Result<(seq<nat>, nat), DemuxError>)
    ensures
      match Sizes(lacing, data)
      case Err(e) => r == Err(e)
      case Ok((sizes, rest)) => r.Ok? && r.value.1 <= |data| && rest == data[r.value.1..] && r.value.0 == sizes
  {
    assert data[0..] == data;
    if lacing == NoLacing { return Ok(([], 0)); }
    if data == [] { return Err(ShortLace); }
    var count := data[0] as nat + 1;
    match lacing
    case Xiph => r := ReadXiph(data, 1, count - 1);
    case Ebml => r := ReadEbml(data, 1, count);
    case Fixed =>
      var each := |data[1..]| / count;
      r := Ok((Times(each, count - 1), 1));
  }

  /** `block`, from the track number on. */
  method ReadBlock(data: seq<Byte>, cluster: int, key: Option<bool>)
    returns (r: Result<seq<Block>, DemuxError>)
    ensures r == BlocksOf(data, cluster, key)
  {
    assert data[0..] == data;
    var track := ReadVint(data, 0, false);
    if track.Err? { return Err(track.error); }
    var at := track.value.1;
    if |data| < at + 3 { return Err(ShortBlock); }
    assert data[at..][..2] == data[at..at + 2] && data[at..][3..] == data[at + 3..];
    var relative := Signed16(Num(data[at..at + 2]));
    var flags := data[at + 2];
    var isKey := if key.Some? then key.value else flags >= 0x80;
    var frames := ReadFrames(flags, data[at + 3..]);
    if frames.Err? { return Err(frames.error); }
    return Ok(EachFrame(track.value.0.value, cluster + relative, isKey, frames.value));
  }
}
