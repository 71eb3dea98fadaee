/**
 Lacing loses nothing and undoes its printers: the frames of crates/anistream-cast/src/mkv.rs,
 `block`, against the laces of RFC 9559, section 10.3.
 */
module Laces {
  import opened Bytes
  import opened Mkv

  // ----- Nothing is lost -----

  lemma {:induction false} DealLosesNothing(sizes: seq<nat>, rest: seq<Byte>)
    ensures Flatten(Deal(sizes, rest)) == rest
    decreases |sizes|
  {
    if sizes == [] {
      assert [rest][1..] == [];
      assert rest + [] == rest;
    } else {
      var n := Min(sizes[0], |rest|);
      DealLosesNothing(sizes[1..], rest[n..]);
      assert ([rest[..n]] + Deal(sizes[1..], rest[n..]))[1..] == Deal(sizes[1..], rest[n..]);
      assert rest[..n] + rest[n..] == rest;
    }
  }

  /** How many sizes a lace's head holds: the EBML one reads its first even for a single frame. */
  function SizeCount(lacing: Lacing, count: nat): nat
    requires count >= 1
  {
    if lacing.NoLacing? then 0 else if lacing.Ebml? && count == 1 then 1 else count - 1
  }

  lemma {:induction false} XiphHeadIs(rest: seq<Byte>, n: nat)
    ensures XiphSizes(rest, n).Ok? ==>
      |XiphSizes(rest, n).value.0| == n && IsTail(XiphSizes(rest, n).value.1, rest)
    decreases n
  {
    if n > 0 && XiphSize(rest).Ok? {
      XiphSizeIs(rest);
      var after := XiphSize(rest).value.1;
      XiphHeadIs(after, n - 1);
      if XiphSizes(after, n - 1).Ok? {
        TailOfTail(XiphSizes(after, n - 1).value.1, after, rest);
      }
    } else {
      assert rest[0..] == rest;
    }
  }

  predicate IsTail(tail: seq<Byte>, all: seq<Byte>) {
    |tail| <= |all| && tail == all[|all| - |tail|..]
  }

  lemma TailOfTail(a: seq<Byte>, b: seq<Byte>, c: seq<Byte>)
    requires IsTail(a, b) && IsTail(b, c)
    ensures IsTail(a, c)
  {
  }

  lemma {:induction false} XiphSizeIs(rest: seq<Byte>)
    ensures XiphSize(rest).Ok? ==> IsTail(XiphSize(rest).value.1, rest)
  {
    if rest != [] && rest[0] == 255 {
      XiphSizeIs(rest[1..]);
      if XiphSize(rest[1..]).Ok? {
        TailOfTail(XiphSize(rest[1..]).value.1, rest[1..], rest);
      }
    }
  }

  lemma {:induction false} EbmlDeltasAre(rest: seq<Byte>, n: nat, size: int)
    ensures EbmlDeltas(rest, n, size).Ok? ==>
      |EbmlDeltas(rest, n, size).value.0| == n && IsTail(EbmlDeltas(rest, n, size).value.1, rest)
    decreases n
  {
    if n > 0 && Vint(rest, false).Ok? {
      var number := Vint(rest, false).value;
      var after, next := rest[number.length..], size + number.value - Bias(number.length);
      EbmlDeltasAre(after, n - 1, next);
      if EbmlDeltas(after, n - 1, next).Ok? {
        TailOfTail(EbmlDeltas(after, n - 1, next).value.1, after, rest);
      }
    }
  }

  lemma SizesAre(lacing: Lacing, rest: seq<Byte>)
    ensures Sizes(lacing, rest).Ok? ==>
      && IsTail(Sizes(lacing, rest).value.1, rest)
      && |Sizes(lacing, rest).value.0|
         == if lacing.NoLacing? then 0 else SizeCount(lacing, rest[0] as nat + 1)
  {
    if !lacing.NoLacing? && rest != [] {
      var tail := rest[1..];
      match lacing
      case Xiph =>
        XiphHeadIs(tail, rest[0] as nat);
        if XiphSizes(tail, rest[0] as nat).Ok? {
          TailOfTail(XiphSizes(tail, rest[0] as nat).value.1, tail, rest);
        }
      case Ebml =>
        EbmlSizesAre(tail, rest[0] as nat + 1);
        if EbmlSizes(tail, rest[0] as nat + 1).Ok? {
          TailOfTail(EbmlSizes(tail, rest[0] as nat + 1).value.1, tail, rest);
        }
      case Fixed =>
    }
  }

  lemma EbmlSizesAre(rest: seq<Byte>, count: nat)
    requires count >= 1
    ensures EbmlSizes(rest, count).Ok? ==>
      && |EbmlSizes(rest, count).value.0| == SizeCount(Ebml, count)
      && IsTail(EbmlSizes(rest, count).value.1, rest)
  {
    if Vint(rest, false).Ok? {
      var number := Vint(rest, false).value;
      var n := if count < 2 then 0 else count - 2;
      EbmlDeltasAre(rest[number.length..], n, number.value);
      if EbmlDeltas(rest[number.length..], n, number.value).Ok? {
        TailOfTail(EbmlDeltas(rest[number.length..], n, number.value).value.1,
                   rest[number.length..], rest);
      }
    }
  }

  /**
   Whatever a lace says of its sizes, the frames one after another are the bytes after its head, and
   there are as many as its count byte says: but two where an EBML lace says one.
   */
  lemma LacesLoseNothing(flags: Byte, rest: seq<Byte>)
    ensures Frames(flags, rest).Ok? ==>
      && IsTail(Flatten(Frames(flags, rest).value), rest)
      && Sizes(LacingOf(flags), rest).Ok?
      && Flatten(Frames(flags, rest).value) == Sizes(LacingOf(flags), rest).value.1
      && |Frames(flags, rest).value|
         == if LacingOf(flags).NoLacing? then 1
            else if LacingOf(flags).Ebml? && rest[0] == 0 then 2
            else rest[0] as nat + 1
  {
    if Frames(flags, rest).Ok? {
      var (sizes, tail) := Sizes(LacingOf(flags), rest).value;
      SizesAre(LacingOf(flags), rest);
      DealLosesNothing(sizes, tail);
    }
  }

  // ----- Printing laces -----

  /** The sizes of all frames but the last. */
  function SizesOf(frames: seq<seq<Byte>>): (r: seq<nat>)
    requires frames != []
    ensures |r| == |frames| - 1
  {
    if |frames| == 1 then [] else [|frames[0]|] + SizesOf(frames[1..])
  }

  lemma {:induction false} DealsBack(frames: seq<seq<Byte>>)
    requires frames != []
    ensures Deal(SizesOf(frames), Flatten(frames)) == frames
  {
    if |frames| == 1 {
      assert frames[0] + [] == frames[0];
      assert frames == [frames[0]];
    } else {
      DealsBack(frames[1..]);
      var all := Flatten(frames);
      assert SizesOf(frames)[1..] == SizesOf(frames[1..]);
      assert all[..|frames[0]|] == frames[0] && all[|frames[0]|..] == Flatten(frames[1..]);
      assert [frames[0]] + frames[1..] == frames;
    }
  }

  function XiphBytes(size: nat): seq<Byte> {
    if size < 255 then [size] else [255] + XiphBytes(size - 255)
  }

  function XiphHead(sizes: seq<nat>): seq<Byte> {
    if sizes == [] then [] else XiphBytes(sizes[0]) + XiphHead(sizes[1..])
  }

  lemma {:induction false} XiphSizeReads(size: nat, rest: seq<Byte>)
    ensures XiphSize(XiphBytes(size) + rest) == Ok((size, rest))
  {
    if size >= 255 {
      XiphSizeReads(size - 255, rest);
      assert (XiphBytes(size) + rest)[1..] == XiphBytes(size - 255) + rest;
    }
  }

  lemma {:induction false} XiphHeadReads(sizes: seq<nat>, rest: seq<Byte>)
    ensures XiphSizes(XiphHead(sizes) + rest, |sizes|) == Ok((sizes, rest))
    decreases |sizes|
  {
    if sizes == [] {
      assert [] + rest == rest;
    } else {
      var more := XiphHead(sizes[1..]) + rest;
      assert XiphHead(sizes) + rest == XiphBytes(sizes[0]) + more;
      XiphSizeReads(sizes[0], more);
      XiphHeadReads(sizes[1..], rest);
      assert [sizes[0]] + sizes[1..] == sizes;
    }
  }

  /** Whether each delta, its bias added, fits the width it is printed in. */
  predicate DeltasFitWidths(sizes: seq<nat>, before: nat, widths: seq<nat>) {
    |sizes| == |widths|
    && (sizes != [] ==>
          && 1 <= widths[0] <= 8
          && 0 <= sizes[0] - before + Bias(widths[0]) < Sevens(widths[0])
          && DeltasFitWidths(sizes[1..], sizes[0], widths[1..]))
  }

  /** Each size as what it adds to the one before, signed by a bias. */
  function DeltaBytes(sizes: seq<nat>, before: nat, widths: seq<nat>): seq<Byte>
    requires DeltasFitWidths(sizes, before, widths)
  {
    if sizes == [] then []
    else VintBytes(sizes[0] - before + Bias(widths[0]), widths[0])
         + DeltaBytes(sizes[1..], sizes[0], widths[1..])
  }

  /** What a number read is to a running size, and the sizes after it. */
  lemma DeltaRead(all: seq<Byte>, number: Number, more: seq<Byte>, n: nat, before: int, size: nat)
    requires n > 0 && Vint(all, false) == Ok(number) && all[number.length..] == more
    requires size == before + number.value - Bias(number.length)
    ensures EbmlDeltas(all, n, before) == Before(size, EbmlDeltas(more, n - 1, size))
  {
  }

  function Before(size: nat, rest: Result<(seq<nat>, seq<Byte>), DemuxError>)
    : Result<(seq<nat>, seq<Byte>), DemuxError>
  {
    match rest
    case Err(e) => Err(e)
    case Ok((sizes, last)) => Ok(([size] + sizes, last))
  }

  lemma DeltaReads(size: nat, before: nat, w: nat, more: seq<Byte>, n: nat)
    requires 1 <= w <= 8 && 0 <= size - before + Bias(w) < Sevens(w) && n > 0
    ensures EbmlDeltas(VintBytes(size - before + Bias(w), w) + more, n, before)
         == Before(size, EbmlDeltas(more, n - 1, size))
  {
    var value := size - before + Bias(w);
    VintReads(value, w, more);
    DeltaRead(VintBytes(value, w) + more, Number(value, w, value == Sevens(w) - 1), more, n, before,
              size);
  }

  lemma DeltaBytesStep(sizes: seq<nat>, before: nat, widths: seq<nat>, rest: seq<Byte>)
    requires sizes != [] && DeltasFitWidths(sizes, before, widths)
    ensures DeltaBytes(sizes, before, widths) + rest
         == VintBytes(sizes[0] - before + Bias(widths[0]), widths[0])
            + (DeltaBytes(sizes[1..], sizes[0], widths[1..]) + rest)
  {
    Regroup(VintBytes(sizes[0] - before + Bias(widths[0]), widths[0]),
            DeltaBytes(sizes[1..], sizes[0], widths[1..]), rest);
  }

  lemma {:induction false} DeltasRead(
    sizes: seq<nat>, before: nat, widths: seq<nat>, rest: seq<Byte>)
    requires DeltasFitWidths(sizes, before, widths)
    ensures EbmlDeltas(DeltaBytes(sizes, before, widths) + rest, |sizes|, before) == Ok((sizes, rest))
    decreases |sizes|
  {
    if sizes == [] {
      assert [] + rest == rest;
    } else {
      var more := DeltaBytes(sizes[1..], sizes[0], widths[1..]) + rest;
      DeltasRead(sizes[1..], sizes[0], widths[1..], rest);
      NextDeltaRead(sizes, before, widths, rest, more);
    }
  }

  lemma NextDeltaRead(sizes: seq<nat>, before: nat, widths: seq<nat>, rest: seq<Byte>, more: seq<Byte>)
    requires sizes != [] && DeltasFitWidths(sizes, before, widths)
    requires more == DeltaBytes(sizes[1..], sizes[0], widths[1..]) + rest
    requires EbmlDeltas(more, |sizes| - 1, sizes[0]) == Ok((sizes[1..], rest))
    ensures EbmlDeltas(DeltaBytes(sizes, before, widths) + rest, |sizes|, before) == Ok((sizes, rest))
  {
    DeltaBytesStep(sizes, before, widths, rest);
    DeltaReads(sizes[0], before, widths[0], more, |sizes|);
    assert [sizes[0]] + sizes[1..] == sizes;
  }

  /** The frames of a lace can be told apart by its head. */
  predicate Lacable(lacing: Lacing, frames: seq<seq<Byte>>, widths: seq<nat>) {
    match lacing
    case NoLacing => |frames| == 1
    case Xiph => 1 <= |frames| <= 256
    case Fixed => 1 <= |frames| <= 256 && forall f <- frames :: |f| == |frames[0]|
    case Ebml =>
      && 2 <= |frames| <= 256 && widths != [] && 1 <= widths[0] <= 8
      && |frames[0]| < Sevens(widths[0])
      && DeltasFitWidths(SizesOf(frames)[1..], |frames[0]|, widths[1..])
  }

  /** The head a lace of the frames has; the numbers of an EBML one in these widths. */
  function Head(lacing: Lacing, frames: seq<seq<Byte>>, widths: seq<nat>): seq<Byte>
    requires Lacable(lacing, frames, widths)
  {
    match lacing
    case NoLacing => []
    case Xiph => [|frames| - 1] + XiphHead(SizesOf(frames))
    case Fixed => [|frames| - 1]
    case Ebml =>
      [|frames| - 1] + VintBytes(|frames[0]|, widths[0])
      + DeltaBytes(SizesOf(frames)[1..], |frames[0]|, widths[1..])
  }

  lemma OneMore(size: nat, n: nat)
    ensures size * (n + 1) == size * n + size
  {
  }

  lemma {:induction false} SameSizes(frames: seq<seq<Byte>>, size: nat)
    requires frames != [] && forall f <- frames :: |f| == size
    ensures SizesOf(frames) == Times(size, |frames| - 1)
    ensures |Flatten(frames)| == size * |frames|
  {
    assert frames[0] in frames;
    OneMore(size, |frames| - 1);
    if |frames| > 1 {
      SameSizes(frames[1..], size);
    } else {
      assert size * 0 == 0;
    }
  }

  lemma Divides(size: nat, n: nat)
    requires n > 0
    ensures size * n / n == size
  {
    var q := size * n / n;
    assert size * n == q * n + size * n % n;
    if q < size {
      TimesLe(q + 1, size, n);
    } else if q > size {
      TimesLe(size + 1, q, n);
    }
  }

  lemma EbmlHeadReads(frames: seq<seq<Byte>>, widths: seq<nat>, rest: seq<Byte>)
    requires Lacable(Ebml, frames, widths)
    ensures EbmlSizes(VintBytes(|frames[0]|, widths[0])
                      + DeltaBytes(SizesOf(frames)[1..], |frames[0]|, widths[1..]) + rest, |frames|)
         == Ok((SizesOf(frames), rest))
  {
    var first := VintBytes(|frames[0]|, widths[0]);
    var sizes := SizesOf(frames);
    var deltas := DeltaBytes(sizes[1..], |frames[0]|, widths[1..]);
    assert first + deltas + rest == first + (deltas + rest);
    VintReads(|frames[0]|, widths[0], deltas + rest);
    DeltasRead(sizes[1..], |frames[0]|, widths[1..], rest);
    assert [|frames[0]|] + sizes[1..] == sizes;
  }

  lemma Counted(count: Byte, head: seq<Byte>, body: seq<Byte>)
    ensures ([count] + head + body)[1..] == head + body
    ensures ([count] + head + body)[0] == count
  {
    assert [count] + head + body == [count] + (head + body);
  }

  lemma HeadReads(lacing: Lacing, frames: seq<seq<Byte>>, widths: seq<nat>)
    requires Lacable(lacing, frames, widths)
    ensures Sizes(lacing, Head(lacing, frames, widths) + Flatten(frames))
         == Ok((SizesOf(frames), Flatten(frames)))
  {
    var body := Flatten(frames);
    match lacing
    case NoLacing => assert [] + body == body;
    case Xiph =>
      Counted(|frames| - 1, XiphHead(SizesOf(frames)), body);
      XiphHeadReads(SizesOf(frames), body);
    case Fixed =>
      assert ([|frames| - 1] + body)[1..] == body;
      SameSizes(frames, |frames[0]|);
      Divides(|frames[0]|, |frames|);
    case Ebml => EbmlLaceReads(frames, widths, body);
  }

  lemma EbmlLaceReads(frames: seq<seq<Byte>>, widths: seq<nat>, body: seq<Byte>)
    requires Lacable(Ebml, frames, widths)
    ensures Sizes(Ebml, Head(Ebml, frames, widths) + body) == Ok((SizesOf(frames), body))
  {
    var sizes := VintBytes(|frames[0]|, widths[0])
                 + DeltaBytes(SizesOf(frames)[1..], |frames[0]|, widths[1..]);
    Counted(|frames| - 1, sizes, body);
    assert Head(Ebml, frames, widths) == [|frames| - 1] + sizes;
    EbmlHeadReads(frames, widths, body);
  }

  // ----- A block's flags -----

  /** The lacing bits of a block's flags (RFC 9559, section 10.2). */
  function LaceBits(lacing: Lacing): (bits: nat)
    ensures bits < 4
  {
    match lacing
    case NoLacing => 0
    case Xiph => 1
    case Fixed => 2
    case Ebml => 3
  }

  /** What else a block's flags say, three reserved bits among it. */
  datatype Marks = Marks(key: bool, reserved: nat, invisible: bool, discardable: bool)

  function FlagsByte(m: Marks, lacing: Lacing): Byte
    requires m.reserved < 8
  {
    (if m.key then 0x80 else 0) + 0x10 * m.reserved + (if m.invisible then 0x08 else 0)
    + 2 * LaceBits(lacing) + (if m.discardable then 0x01 else 0)
  }

  lemma FlagsRead(m: Marks, lacing: Lacing)
    requires m.reserved < 8
    ensures LacingOf(FlagsByte(m, lacing)) == lacing
    ensures FlagsByte(m, lacing) >= 0x80 <==> m.key
  {
    var bits, low := LaceBits(lacing), if m.discardable then 1 else 0;
    var high := (if m.key then 8 else 0) + m.reserved;
    var mid := 2 * high + if m.invisible then 1 else 0;
    assert FlagsByte(m, lacing) == 2 * (4 * mid + bits) + low;
  }

  /**
   Xiph, EBML and fixed-size laces, and a block without one, printed under the bits the standard
   gives them, read back to the frames laced.
   */
  lemma LacesReadBack(m: Marks, lacing: Lacing, frames: seq<seq<Byte>>, widths: seq<nat>)
    requires m.reserved < 8 && Lacable(lacing, frames, widths)
    ensures Frames(FlagsByte(m, lacing), Head(lacing, frames, widths) + Flatten(frames)) == Ok(frames)
  {
    FlagsRead(m, lacing);
    HeadReads(lacing, frames, widths);
    DealsBack(frames);
  }

  /** A block: its track in `w` bytes, its time in its cluster, its flags and its laced frames. */
  function BlockBytes(
    track: nat, w: nat, relative: int, m: Marks, lacing: Lacing, frames: seq<seq<Byte>>,
    widths: seq<nat>)
    : seq<Byte>
    requires 1 <= w <= 8 && track < Sevens(w) && -0x8000 <= relative < 0x8000 && m.reserved < 8
    requires Lacable(lacing, frames, widths)
  {
    VintBytes(track, w)
    + (Be(relative % 0x1_0000, 2) + [FlagsByte(m, lacing)]
       + (Head(lacing, frames, widths) + Flatten(frames)))
  }

  lemma TimeReads(relative: int)
    requires -0x8000 <= relative < 0x8000
    ensures Signed16(Num(Be(relative % 0x1_0000, 2))) == relative
  {
    assert Room(2) == 0x1_0000 by { assert Room(1) == 0x100; }
    BeReads(relative % 0x1_0000, 2);
  }

  lemma AfterTrackReads(
    track: nat, cluster: int, key: Option<bool>, relative: int, flags: Byte, lace: seq<Byte>,
    frames: seq<seq<Byte>>)
    requires -0x8000 <= relative < 0x8000 && Frames(flags, lace) == Ok(frames)
    ensures AfterTrack(Be(relative % 0x1_0000, 2) + [flags] + lace, track, cluster, key)
         == Ok(EachFrame(track, cluster + relative, if key.Some? then key.value else flags >= 0x80,
                         frames))
  {
    var time := Be(relative % 0x1_0000, 2);
    var rest := time + [flags] + lace;
    assert rest[..2] == time && rest[2] == flags && rest[3..] == lace;
    TimeReads(relative);
  }

  lemma TrackReads(track: nat, w: nat, rest: seq<Byte>, cluster: int, key: Option<bool>)
    requires 1 <= w <= 8 && track < Sevens(w)
    ensures BlocksOf(VintBytes(track, w) + rest, cluster, key) == AfterTrack(rest, track, cluster, key)
  {
    VintReads(track, w, rest);
  }

  /** A block printed reads back: every frame with its track, its time and whether it is a key. */
  lemma BlockReadsBack(
    track: nat, w: nat, relative: int, m: Marks, lacing: Lacing, frames: seq<seq<Byte>>,
    widths: seq<nat>, cluster: int, key: Option<bool>)
    requires 1 <= w <= 8 && track < Sevens(w) && -0x8000 <= relative < 0x8000 && m.reserved < 8
    requires Lacable(lacing, frames, widths)
    ensures BlocksOf(BlockBytes(track, w, relative, m, lacing, frames, widths), cluster, key)
         == Ok(EachFrame(track, cluster + relative, if key.Some? then key.value else m.key, frames))
  {
    var flags, lace := FlagsByte(m, lacing), Head(lacing, frames, widths) + Flatten(frames);
    FlagsRead(m, lacing);
    LacesReadBack(m, lacing, frames, widths);
    AfterTrackReads(track, cluster, key, relative, flags, lace, frames);
    TrackReads(track, w, Be(relative % 0x1_0000, 2) + [flags] + lace, cluster, key);
  }

  // ----- A lace that says one frame -----

  lemma OneSize(size: nat, w: nat, data: seq<Byte>)
    requires 1 <= w <= 8 && size < Sevens(w)
    ensures EbmlSizes(VintBytes(size, w) + data, 1) == Ok(([size], data))
  {
    VintReads(size, w, data);
    assert [size] + [] == [size];
  }

  lemma DealsTwo(size: nat, data: seq<Byte>)
    ensures Deal([size], data) == [data[..Min(size, |data|)], data[Min(size, |data|)..]]
  {
    assert [size][1..] == [];
  }

  /** Any EBML lace whose count byte says one frame gives two: its one size is read all the same. */
  lemma OneIsTwo(m: Marks, size: nat, w: nat, data: seq<Byte>)
    requires m.reserved < 8 && 1 <= w <= 8 && size < Sevens(w)
    ensures Frames(FlagsByte(m, Ebml), [0] + VintBytes(size, w) + data)
         == Ok([data[..Min(size, |data|)], data[Min(size, |data|)..]])
  {
    FlagsRead(m, Ebml);
    Counted(0, VintBytes(size, w), data);
    OneSize(size, w, data);
    DealsTwo(size, data);
  }
}
