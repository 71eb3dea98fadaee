/**
 One media fragment: the `moof` and `mdat` of `fragment`, `bx` and `full` in
 crates/anistream-cast/src/remux.rs.
 */
module Fragment {
  import opened Bytes
  import opened Timing

  // ----- Boxes -----

  type Kind = k: seq<Byte> | |k| == 4 witness [0, 0, 0, 0]

  const MOOF: Kind := [0x6D, 0x6F, 0x6F, 0x66]
  const MFHD: Kind := [0x6D, 0x66, 0x68, 0x64]
  const TRAF: Kind := [0x74, 0x72, 0x61, 0x66]
  const TFHD: Kind := [0x74, 0x66, 0x68, 0x64]
  const TFDT: Kind := [0x74, 0x66, 0x64, 0x74]
  const TRUN: Kind := [0x74, 0x72, 0x75, 0x6E]
  const MDAT: Kind := [0x6D, 0x64, 0x61, 0x74]

  /** `bx`: the length, cast to 32 bits, the kind and the body. */
  function Bx(kind: Kind, body: seq<Byte>): (r: seq<Byte>)
    ensures |r| == |body| + 8
  {
    Be32((|body| + 8) % WORD32) + kind + body
  }

  /** What a full box's body starts with: a version, and the low 24 bits of the flags. */
  function FullBody(version: Byte, flags: U32, body: seq<Byte>): (r: seq<Byte>)
    ensures |r| == |body| + 4
  {
    [version] + Be(flags, 3) + body
  }

  /** `full`. */
  function Full(kind: Kind, version: Byte, flags: U32, body: seq<Byte>): (r: seq<Byte>)
    ensures |r| == |body| + 12
  {
    Bx(kind, FullBody(version, flags, body))
  }

  // ----- The fragment -----

  datatype Traf = Traf(id: U32, base: U64, samples: seq<Sample>)

  /** `as i32` and back to bytes: the low 32 bits. */
  function Low32(n: int): U32 { n % WORD32 }

  const KEY_FLAGS: U32 := 0x0200_0000
  const DELTA_FLAGS: U32 := 0x0101_0000

  /** data offset, and each sample's duration, size, flags and composition offset. */
  const TRUN_FLAGS: U32 := 0xF01
  const DEFAULT_BASE_IS_MOOF: U32 := 0x02_0000

  function Entry(s: Sample): (r: seq<Byte>)
    ensures |r| == 16
  {
    Be32(s.duration) + Be32(s.size) + Be32(if s.key then KEY_FLAGS else DELTA_FLAGS)
    + Be32(Low32(s.offset))
  }

  function Entries(samples: seq<Sample>): (r: seq<Byte>)
    ensures |r| == 16 * |samples|
  {
    if samples == [] then [] else Entry(samples[0]) + Entries(samples[1..])
  }

  function TfhdBody(id: U32): (r: seq<Byte>)
    ensures |r| == 8
  {
    FullBody(0, DEFAULT_BASE_IS_MOOF, Be32(id))
  }

  function TfdtBody(base: U64): (r: seq<Byte>)
    ensures |r| == 12
  {
    FullBody(1, 0, Be64(base))
  }

  function TrunBody(samples: seq<Sample>, offset: U32): (r: seq<Byte>)
    ensures |r| == 12 + 16 * |samples|
  {
    FullBody(1, TRUN_FLAGS, Be32(|samples| % WORD32) + Be32(offset) + Entries(samples))
  }

  function TrafBody(traf: Traf, offset: U32): (r: seq<Byte>)
    ensures |r| == 16 + 20 + 20 + 16 * |traf.samples|
  {
    Bx(TFHD, TfhdBody(traf.id)) + Bx(TFDT, TfdtBody(traf.base))
    + Bx(TRUN, TrunBody(traf.samples, offset))
  }

  /** A `traf` box for each track; `offsets` beyond the tracks, or tracks beyond it, are dropped. */
  function Trafs(trafs: seq<Traf>, offsets: seq<U32>): seq<Byte> {
    if trafs == [] || offsets == [] then []
    else Bx(TRAF, TrafBody(trafs[0], offsets[0])) + Trafs(trafs[1..], offsets[1..])
  }

  function MoofBody(sequence: U32, trafs: seq<Traf>, offsets: seq<U32>): seq<Byte> {
    Bx(MFHD, FullBody(0, 0, Be32(sequence))) + Trafs(trafs, offsets)
  }

  function Moof(sequence: U32, trafs: seq<Traf>, offsets: seq<U32>): seq<Byte> {
    Bx(MOOF, MoofBody(sequence, trafs, offsets))
  }

  function Total(payloads: seq<seq<Byte>>): nat { |Flatten(payloads)| }

  /** The payloads of the first track, and of the others. */
  function Own(traf: Traf, payloads: seq<seq<Byte>>): nat {
    if |traf.samples| < |payloads| then |traf.samples| else |payloads|
  }

  /** Where each track's first payload lies, the first of all at `at`. */
  function DataOffsets(trafs: seq<Traf>, payloads: seq<seq<Byte>>, at: nat): (r: seq<U32>)
    ensures |r| == |trafs|
    decreases |trafs|
  {
    if trafs == [] then []
    else
      var n := Own(trafs[0], payloads);
      [Low32(at)] + DataOffsets(trafs[1..], payloads[n..], at + Total(payloads[..n]))
  }

  /** Zero offsets, to learn the length of the `moof`. */
  function Zeros(n: nat): (r: seq<U32>)
    ensures |r| == n
  {
    seq(n, i => 0)
  }

  function FragmentBytes(sequence: U32, trafs: seq<Traf>, payloads: seq<seq<Byte>>): seq<Byte> {
    var at := |Moof(sequence, trafs, Zeros(|trafs|))| + 8;
    Moof(sequence, trafs, DataOffsets(trafs, payloads, at))
    + Bx(MDAT, Flatten(payloads))
  }

  method BuildMoof(sequence: U32, trafs: seq<Traf>, offsets: seq<U32>) returns (moof: seq<Byte>)
    requires |offsets| == |trafs|
    ensures moof == Moof(sequence, trafs, offsets)
  {
    var body := Full(MFHD, 0, 0, Be32(sequence));
    ghost var want := body + Trafs(trafs, offsets);
    for i := 0 to |trafs|
      invariant want == body + Trafs(trafs[i..], offsets[i..])
    {
      var entries := [];
      var samples := trafs[i].samples;
      for j := 0 to |samples|
        invariant Entries(samples) == entries + Entries(samples[j..])
      {
        assert samples[j..][1..] == samples[j + 1..];
        Regroup(entries, Entry(samples[j]), Entries(samples[j + 1..]));
        entries := entries + Entry(samples[j]);
      }
      assert entries + [] == entries;
      var trun := Full(TRUN, 1, TRUN_FLAGS, Be32(|samples| % WORD32) + Be32(offsets[i]) + entries);
      var tfhd := Full(TFHD, 0, DEFAULT_BASE_IS_MOOF, Be32(trafs[i].id));
      var tfdt := Full(TFDT, 1, 0, Be64(trafs[i].base));
      var traf := Bx(TRAF, tfhd + tfdt + trun);
      assert trafs[i..][1..] == trafs[i + 1..] && offsets[i..][1..] == offsets[i + 1..];
      Regroup(body, traf, Trafs(trafs[i + 1..], offsets[i + 1..]));
      body := body + traf;
    }
    assert body + [] == body;
    moof := Bx(MOOF, body);
  }

  /** Past the payloads of one track's samples: `payload.next()` once a sample. */
  method PassOwn(traf: Traf, payloads: seq<seq<Byte>>, first: nat, from: nat)
    returns (next: nat, at: nat)
    requires first <= |payloads|
    ensures next == first + Own(traf, payloads[first..])
    ensures at == from + Total(payloads[first..next])
  {
    next, at := first, from;
    var own := Own(traf, payloads[first..]);
    for j := 0 to |traf.samples|
      invariant next == first + (if j < own then j else own)
      invariant at == from + Total(payloads[first..next])
    {
      if next < |payloads| {
        FlattenLast(payloads[first..next], payloads[next]);
        assert payloads[first..next] + [payloads[next]] == payloads[first..next + 1];
        at := at + |payloads[next]|;
        next := next + 1;
      }
    }
  }

  lemma DataOffsetsStep(trafs: seq<Traf>, payloads: seq<seq<Byte>>, i: nat, first: nat, from: nat)
    requires i < |trafs| && first <= |payloads|
    ensures
      var next := first + Own(trafs[i], payloads[first..]);
      DataOffsets(trafs[i..], payloads[first..], from)
      == [Low32(from)]
         + DataOffsets(trafs[i + 1..], payloads[next..], from + Total(payloads[first..next]))
  {
    var next := first + Own(trafs[i], payloads[first..]);
    assert payloads[first..][..next - first] == payloads[first..next];
    assert payloads[first..][next - first..] == payloads[next..];
    assert trafs[i..][1..] == trafs[i + 1..];
  }

  /** Where each track's payloads start, the first at `at`. */
  method LayOut(trafs: seq<Traf>, payloads: seq<seq<Byte>>, start: nat)
    returns (offsets: seq<U32>)
    ensures offsets == DataOffsets(trafs, payloads, start)
  {
    var at, next := start, 0;
    offsets := [];
    ghost var want := DataOffsets(trafs, payloads, at);
    assert [] + want == want;
    for i := 0 to |trafs|
      invariant next <= |payloads|
      invariant want == offsets + DataOffsets(trafs[i..], payloads[next..], at)
    {
      DataOffsetsStep(trafs, payloads, i, next, at);
      ghost var was, from := offsets, Low32(at);
      offsets := offsets + [Low32(at)];
      next, at := PassOwn(trafs[i], payloads, next, at);
      Append(was, from, DataOffsets(trafs[i + 1..], payloads[next..], at));
    }
    assert offsets + [] == offsets;
  }

  /** The fragment, its `moof` built once for its length and once with the real offsets. */
  method Fragment(sequence: U32, trafs: seq<Traf>, payloads: seq<seq<Byte>>)
    returns (out: seq<Byte>)
    ensures out == FragmentBytes(sequence, trafs, payloads)
  {
    var draft := BuildMoof(sequence, trafs, Zeros(|trafs|));
    var offsets := LayOut(trafs, payloads, |draft| + 8);
    var moof := BuildMoof(sequence, trafs, offsets);
    out := moof + Bx(MDAT, Flatten(payloads));
  }
}
