/**
 A reader of fragmented MP4 after ISO/IEC 14496-12, and the proof that it recovers from the bytes
 `Fragment` writes every track as it was: sections 4.2 (boxes), 8.8.7 (`tfhd`), 8.8.8 (`trun`) and
 8.8.12 (`tfdt`). The reader's box types, flag bits and sample flags are the standard's, spelled out
 here; it takes none from the writer. A data offset counts from the start of the `moof`, which is the
 start of the bytes, when the `tfhd` says so with its default-base-is-moof flag.
 */
module FragmentReader {
  import opened Bytes
  import opened Timing
  import opened Fragment

  // ----- The reader -----

  datatype Boxed = Boxed(kind: Kind, body: seq<Byte>)

  function ReadBox(data: seq<Byte>): (r: Option<(Boxed, seq<Byte>)>)
    ensures r.Some? ==> |r.value.1| < |data|
  {
    if |data| < 8 then None
    else
      var size := U32At(data);
      if size < 8 || size > |data| then None
      else Some((Boxed(data[4..8], data[8..size]), data[size..]))
  }

  function ReadBoxes(data: seq<Byte>): Option<seq<Boxed>>
    decreases |data|
  {
    if data == [] then Some([])
    else match ReadBox(data)
      case None => None
      case Some((first, rest)) =>
        match ReadBoxes(rest)
        case None => None
        case Some(more) => Some([first] + more)
  }

  /** The version, flags and body of a full box. */
  function ReadFull(data: seq<Byte>): Option<(Byte, nat, seq<Byte>)> {
    if |data| < 4 then None
    else Some((data[0], Num(data[1..4]), data[4..]))
  }

  /** Whether a flag is set; `mask` is its one bit. */
  predicate Bit(flags: nat, mask: nat)
    requires mask > 0
  {
    flags / mask % 2 == 1
  }

  /** A box type, by its four characters. */
  function Code(a: char, b: char, c: char, d: char): (r: Kind)
    requires a < '\U{80}' && b < '\U{80}' && c < '\U{80}' && d < '\U{80}'
  {
    [a as int, b as int, c as int, d as int]
  }

  /**
   One sample as a reader has it: how long, how large, whether it is a sync sample, what it says of
   depending on others (section 8.6.4: 1, it does; 2, it does not), and its composition offset.
   */
  datatype Stored = Stored(duration: U32, size: U32, sync: bool, dependsOn: nat, offset: int)

  /** A sample's flags (section 8.8.3.1): `sample_is_non_sync_sample` and `sample_depends_on`. */
  function SampleIs(duration: U32, size: U32, flags: U32, offset: int): Stored {
    Stored(duration, size, !Bit(flags, 0x1_0000), flags / 0x100_0000 % 4, offset)
  }

  function Signed(n: U32): int { if n < 0x8000_0000 then n else n - 0x1_0000_0000 }

  /** A word that a flag says is there, and what follows it. */
  function Word(present: bool, data: seq<Byte>): Option<(Option<U32>, seq<Byte>)> {
    if !present then Some((None, data))
    else if |data| < 4 then None
    else Some((Some(U32At(data)), data[4..]))
  }

  /** What a `tfhd` says of samples that do not say it themselves. */
  datatype Defaults = Defaults(duration: Option<U32>, size: Option<U32>, flags: Option<U32>)

  /** What each of a run's samples says of itself, and whether its offset has a sign. */
  datatype Layout = Layout(duration: bool, size: bool, flags: bool, offset: bool, signed: bool)

  /** The per-sample bits of a `trun`, and its version. */
  function LayoutOf(flags: nat, version: Byte): Layout {
    Layout(Bit(flags, 0x100), Bit(flags, 0x200), Bit(flags, 0x400), Bit(flags, 0x800), version != 0)
  }

  function Or(own: Option<U32>, otherwise: Option<U32>): Option<U32> {
    if own.Some? then own else otherwise
  }

  /** One sample of a run, and what follows it; none where nothing says one of its fields. */
  function ReadEntry(data: seq<Byte>, layout: Layout, defaults: Defaults): Option<(Stored, seq<Byte>)> {
    match Word(layout.duration, data)
    case None => None
    case Some((duration, a)) =>
      match Word(layout.size, a)
      case None => None
      case Some((size, b)) =>
        match Word(layout.flags, b)
        case None => None
        case Some((flags, c)) =>
          match Word(layout.offset, c)
          case None => None
          case Some((offset, rest)) =>
            match (Or(duration, defaults.duration), Or(size, defaults.size), Or(flags, defaults.flags))
            case (Some(d), Some(n), Some(f)) =>
              var time := if offset.None? then 0
                          else if layout.signed then Signed(offset.value) else offset.value;
              Some((SampleIs(d, n, f, time), rest))
            case _ => None
  }

  function ReadEntries(data: seq<Byte>, count: nat, layout: Layout, defaults: Defaults)
    : Option<seq<Stored>>
    decreases count
  {
    if count == 0 then Some([])
    else
      match ReadEntry(data, layout, defaults)
      case None => None
      case Some((s, rest)) =>
        match ReadEntries(rest, count - 1, layout, defaults)
        case None => None
        case Some(more) => Some([s] + more)
  }

  /** The payloads of consecutive samples, the first at `at`. */
  function Slices(whole: seq<Byte>, at: nat, samples: seq<Stored>): Option<seq<seq<Byte>>>
    decreases |samples|
  {
    if samples == [] then Some([])
    else if at + samples[0].size > |whole| then None
    else match Slices(whole, at + samples[0].size, samples[1..])
      case None => None
      case Some(more) => Some([whole[at..at + samples[0].size]] + more)
  }

  datatype Track = Track(id: U32, base: U64, samples: seq<Stored>, payloads: seq<seq<Byte>>)

  /**
   A track's id and defaults: the fields its flags say are there. A base offset of its own, or one
   that is not the `moof`'s start, is not read.
   */
  function ReadTfhd(data: seq<Byte>): Option<(U32, Defaults)> {
    match ReadFull(data)
    case None => None
    case Some((version, flags, body)) =>
      if Bit(flags, 0x1) || !Bit(flags, 0x2_0000) || |body| < 4 then None
      else
        match Word(Bit(flags, 0x2), body[4..])
        case None => None
        case Some((_, a)) =>
          match Word(Bit(flags, 0x8), a)
          case None => None
          case Some((duration, b)) =>
            match Word(Bit(flags, 0x10), b)
            case None => None
            case Some((size, c)) =>
              match Word(Bit(flags, 0x20), c)
              case None => None
              case Some((sample, _)) => Some((U32At(body), Defaults(duration, size, sample)))
  }

  function ReadTfdt(data: seq<Byte>): Option<U64> {
    match ReadFull(data)
    case None => None
    case Some((version, flags, body)) =>
      if version == 1 && |body| >= 8 then Some(U64At(body))
      else if version == 0 && |body| >= 4 then Some(U32At(body))
      else None
  }

  /** The data offset and the samples of a `trun`; one with flags for its first sample is not read. */
  function ReadTrun(data: seq<Byte>, defaults: Defaults): Option<(int, seq<Stored>)> {
    match ReadFull(data)
    case None => None
    case Some((version, flags, body)) =>
      if |body| < 4 || Bit(flags, 0x4) then None
      else
        match Word(Bit(flags, 0x1), body[4..])
        case None => None
        case Some((at, rest)) =>
          match ReadEntries(rest, U32At(body), LayoutOf(flags, version), defaults)
          case None => None
          case Some(samples) => Some((if at.Some? then Signed(at.value) else 0, samples))
  }

  function ReadTraf(body: seq<Byte>, whole: seq<Byte>): Option<Track> {
    match ReadBoxes(body)
    case None => None
    case Some(boxes) =>
      if |boxes| != 3 || boxes[0].kind != Code('t', 'f', 'h', 'd')
         || boxes[1].kind != Code('t', 'f', 'd', 't') || boxes[2].kind != Code('t', 'r', 'u', 'n')
      then None
      else
        match (ReadTfhd(boxes[0].body), ReadTfdt(boxes[1].body))
        case (Some((id, defaults)), Some(base)) =>
          (match ReadTrun(boxes[2].body, defaults)
           case None => None
           case Some((at, samples)) =>
             if at < 0 then None
             else (match Slices(whole, at, samples)
                   case None => None
                   case Some(payloads) => Some(Track(id, base, samples, payloads))))
        case _ => None
  }

  /** The tracks of the boxes, each read by `read`. */
  function ReadTrafs(boxes: seq<Boxed>, read: seq<Byte> -> Option<Track>): Option<seq<Track>> {
    if boxes == [] then Some([])
    else if boxes[0].kind != Code('t', 'r', 'a', 'f') then None
    else match (read(boxes[0].body), ReadTrafs(boxes[1..], read))
      case (Some(track), Some(more)) => Some([track] + more)
      case _ => None
  }

  function Reader(whole: seq<Byte>): seq<Byte> -> Option<Track> { body => ReadTraf(body, whole) }

  /** A fragment's sequence number and tracks. */
  function ReadFragment(whole: seq<Byte>): Option<(U32, seq<Track>)> {
    match ReadBoxes(whole)
    case None => None
    case Some(top) =>
      if |top| != 2 || top[0].kind != Code('m', 'o', 'o', 'f')
         || top[1].kind != Code('m', 'd', 'a', 't') then None
      else match ReadBoxes(top[0].body)
        case None => None
        case Some(boxes) =>
          if boxes == [] || boxes[0].kind != Code('m', 'f', 'h', 'd') then None
          else match (ReadFull(boxes[0].body), ReadTrafs(boxes[1..], Reader(whole)))
            case (Some((_, _, number)), Some(tracks)) =>
              if |number| < 4 then None else Some((U32At(number), tracks))
            case _ => None
  }

  // ----- Boxes read back -----

  lemma BoxReads(kind: Kind, body: seq<Byte>, rest: seq<Byte>)
    requires |body| + 8 < WORD32
    ensures ReadBox(Bx(kind, body) + rest) == Some((Boxed(kind, body), rest))
  {
    var size: U32 := |body| + 8;
    var data := Bx(kind, body) + rest;
    Be32Reads(size, kind + body + rest);
    assert data == Be32(size) + (kind + body + rest);
    assert data[4..8] == kind && data[8..size] == body && data[size..] == rest;
  }

  lemma BoxesRead(kind: Kind, body: seq<Byte>, rest: seq<Byte>, more: seq<Boxed>)
    requires |body| + 8 < WORD32 && ReadBoxes(rest) == Some(more)
    ensures ReadBoxes(Bx(kind, body) + rest) == Some([Boxed(kind, body)] + more)
  {
    BoxReads(kind, body, rest);
  }

  lemma OneBox(kind: Kind, body: seq<Byte>)
    requires |body| + 8 < WORD32
    ensures ReadBoxes(Bx(kind, body)) == Some([Boxed(kind, body)])
  {
    assert Bx(kind, body) + [] == Bx(kind, body);
    assert ReadBoxes([]) == Some([]);
    BoxesRead(kind, body, [], []);
    assert [Boxed(kind, body)] + [] == [Boxed(kind, body)];
  }

  lemma FullReads(version: Byte, flags: U32, body: seq<Byte>)
    requires flags < 0x100_0000
    ensures ReadFull(FullBody(version, flags, body)) == Some((version, flags, body))
  {
    var data := FullBody(version, flags, body);
    Rooms();
    BeReads(flags, 3);
    assert data[1..4] == Be(flags, 3) && data[4..] == body;
  }

  lemma SignedReads(n: int)
    requires -0x8000_0000 <= n < 0x8000_0000
    ensures Signed(Low32(n)) == n
  {
  }

  /** The sample a reader is to recover: a key frame is a sync sample that depends on no other. */
  function StoredAs(s: Sample): Stored {
    Stored(s.duration, s.size, s.key, if s.key then 2 else 1, s.offset)
  }

  lemma SampleFlagsSay(s: Sample)
    ensures SampleIs(s.duration, s.size, if s.key then KEY_FLAGS else DELTA_FLAGS, s.offset)
         == StoredAs(s)
  {
  }

  /** What the writer's `trun` flags and version say: every field, and offsets with a sign. */
  const ALL_FIELDS := Layout(true, true, true, true, true)

  lemma FlagsSay()
    ensures LayoutOf(TRUN_FLAGS, 1) == ALL_FIELDS
    ensures Bit(TRUN_FLAGS, 0x1) && !Bit(TRUN_FLAGS, 0x4)
    ensures Bit(DEFAULT_BASE_IS_MOOF, 0x2_0000) && !Bit(DEFAULT_BASE_IS_MOOF, 0x1)
    ensures !Bit(DEFAULT_BASE_IS_MOOF, 0x2) && !Bit(DEFAULT_BASE_IS_MOOF, 0x8)
    ensures !Bit(DEFAULT_BASE_IS_MOOF, 0x10) && !Bit(DEFAULT_BASE_IS_MOOF, 0x20)
  {
  }

  lemma TypesSay()
    ensures MOOF == Code('m', 'o', 'o', 'f') && MDAT == Code('m', 'd', 'a', 't')
    ensures MFHD == Code('m', 'f', 'h', 'd') && TRAF == Code('t', 'r', 'a', 'f')
    ensures TFHD == Code('t', 'f', 'h', 'd') && TFDT == Code('t', 'f', 'd', 't')
    ensures TRUN == Code('t', 'r', 'u', 'n')
  {
  }

  function AllStored(samples: seq<Sample>): (r: seq<Stored>)
    ensures |r| == |samples|
  {
    if samples == [] then [] else [StoredAs(samples[0])] + AllStored(samples[1..])
  }

  predicate OffsetFits(s: Sample) { -0x8000_0000 <= s.offset < 0x8000_0000 }

  /** The four words of an entry, one after another. */
  lemma EntryWords(s: Sample, rest: seq<Byte>) returns (a: seq<Byte>, b: seq<Byte>, c: seq<Byte>)
    requires OffsetFits(s)
    ensures
      var data, flags := Entry(s) + rest, if s.key then KEY_FLAGS else DELTA_FLAGS;
      && Word(true, data) == Some((Some(s.duration), a))
      && Word(true, a) == Some((Some(s.size), b))
      && Word(true, b) == Some((Some(flags), c))
      && Word(true, c) == Some((Some(Low32(s.offset)), rest))
  {
    var flags := if s.key then KEY_FLAGS else DELTA_FLAGS;
    c := Be32(Low32(s.offset)) + rest;
    b := Be32(flags) + c;
    a := Be32(s.size) + b;
    var data := Entry(s) + rest;
    Be32Reads(s.duration, a);
    Be32Reads(s.size, b);
    Be32Reads(flags, c);
    Be32Reads(Low32(s.offset), rest);
    assert data == Be32(s.duration) + a;
  }

  lemma EntryReads(s: Sample, rest: seq<Byte>, defaults: Defaults)
    requires OffsetFits(s)
    ensures ReadEntry(Entry(s) + rest, ALL_FIELDS, defaults) == Some((StoredAs(s), rest))
  {
    var a, b, c := EntryWords(s, rest);
    SignedReads(s.offset);
    SampleFlagsSay(s);
  }

  lemma {:induction false} EntriesRead(samples: seq<Sample>, defaults: Defaults)
    requires forall s <- samples :: OffsetFits(s)
    ensures ReadEntries(Entries(samples), |samples|, ALL_FIELDS, defaults) == Some(AllStored(samples))
  {
    if samples != [] {
      assert samples[0] in samples;
      EntriesRead(samples[1..], defaults);
      EntryReads(samples[0], Entries(samples[1..]), defaults);
    }
  }

  // ----- Payloads read back -----

  /** Each sample's size is its payload's length. */
  predicate Sized(samples: seq<Sample>, payloads: seq<seq<Byte>>) {
    |samples| == |payloads| && forall i | 0 <= i < |samples| :: samples[i].size == |payloads[i]|
  }

  lemma MiddleSlice(head: seq<Byte>, p: seq<Byte>, more: seq<Byte>, rest: seq<Byte>)
    ensures
      var whole := head + (p + more) + rest;
      && whole == (head + p) + more + rest
      && whole[|head|..|head| + |p|] == p && |head| + |p| <= |whole|
  {
    assert head + (p + more) + rest == head + (p + (more + rest));
  }

  lemma {:induction false} SlicesRead(
    head: seq<Byte>, payloads: seq<seq<Byte>>, rest: seq<Byte>, samples: seq<Sample>)
    requires Sized(samples, payloads)
    ensures Slices(head + Flatten(payloads) + rest, |head|, AllStored(samples)) == Some(payloads)
    decreases |samples|
  {
    if samples != [] {
      var p := payloads[0];
      MiddleSlice(head, p, Flatten(payloads[1..]), rest);
      SlicesRead(head + p, payloads[1..], rest, samples[1..]);
      AllStoredStep(samples);
      assert [p] + payloads[1..] == payloads;
    }
  }

  lemma AllStoredStep(samples: seq<Sample>)
    requires samples != []
    ensures AllStored(samples)[1..] == AllStored(samples[1..])
    ensures AllStored(samples)[0].size == samples[0].size
  {
  }

  // ----- Tracks read back -----

  /** The track a reader is to recover. */
  function Wanted(traf: Traf, payloads: seq<seq<Byte>>): Track {
    Track(traf.id, traf.base, AllStored(traf.samples), payloads)
  }

  const NO_DEFAULTS := Defaults(None, None, None)

  lemma TfhdReads(id: U32)
    ensures ReadTfhd(TfhdBody(id)) == Some((id, NO_DEFAULTS))
  {
    FullReads(0, DEFAULT_BASE_IS_MOOF, Be32(id));
    FlagsSay();
    Be32Reads(id, []);
    assert Be32(id) + [] == Be32(id);
  }

  lemma TfdtReads(base: U64)
    ensures ReadTfdt(TfdtBody(base)) == Some(base)
  {
    FullReads(1, 0, Be64(base));
    Be64Reads(base, []);
    assert Be64(base) + [] == Be64(base);
  }

  lemma TwoWords(a: U32, b: U32, rest: seq<Byte>)
    ensures
      var data := Be32(a) + Be32(b) + rest;
      U32At(data) == a && U32At(data[4..]) == b && data[8..] == rest
  {
    var tail := Be32(b) + rest;
    Be32Reads(a, tail);
    Be32Reads(b, rest);
    assert Be32(a) + Be32(b) + rest == Be32(a) + tail;
    assert tail[4..] == (Be32(a) + tail)[8..];
  }

  lemma TrunReads(samples: seq<Sample>, at: nat)
    requires at < 0x8000_0000 && |samples| < WORD32 && forall s <- samples :: OffsetFits(s)
    ensures ReadTrun(TrunBody(samples, at), NO_DEFAULTS) == Some((at, AllStored(samples)))
  {
    assert |samples| % WORD32 == |samples|;
    var body := Be32(|samples|) + Be32(at) + Entries(samples);
    FullReads(1, TRUN_FLAGS, body);
    FlagsSay();
    EntriesRead(samples, NO_DEFAULTS);
    TrunBodyReads(body, samples, at);
  }

  lemma TrunBodyReads(body: seq<Byte>, samples: seq<Sample>, at: nat)
    requires at < 0x8000_0000 && |samples| < WORD32
    requires body == Be32(|samples|) + Be32(at) + Entries(samples)
    ensures U32At(body) == |samples| && Word(true, body[4..]) == Some((Some(at), Entries(samples)))
    ensures Signed(at) == at
  {
    TwoWords(|samples|, at, Entries(samples));
    assert body[4..][4..] == body[8..];
  }

  lemma ThreeBoxes(a: Boxed, b: Boxed, c: Boxed)
    requires |a.body| + 8 < WORD32 && |b.body| + 8 < WORD32 && |c.body| + 8 < WORD32
    ensures ReadBoxes(Bx(a.kind, a.body) + Bx(b.kind, b.body) + Bx(c.kind, c.body))
         == Some([a, b, c])
  {
    var second, third := Bx(b.kind, b.body), Bx(c.kind, c.body);
    OneBox(c.kind, c.body);
    BoxesRead(b.kind, b.body, third, [c]);
    assert [b] + [c] == [b, c];
    BoxesRead(a.kind, a.body, second + third, [b, c]);
    assert [a] + [b, c] == [a, b, c];
    assert Bx(a.kind, a.body) + (second + third) == Bx(a.kind, a.body) + second + third;
  }

  lemma TrafBoxesRead(traf: Traf, at: U32)
    requires 16 * |traf.samples| + 20 < WORD32
    ensures ReadBoxes(TrafBody(traf, at)) == Some([
      Boxed(TFHD, TfhdBody(traf.id)), Boxed(TFDT, TfdtBody(traf.base)),
      Boxed(TRUN, TrunBody(traf.samples, at))])
  {
    ThreeBoxes(Boxed(TFHD, TfhdBody(traf.id)), Boxed(TFDT, TfdtBody(traf.base)),
               Boxed(TRUN, TrunBody(traf.samples, at)));
  }

  lemma TrafReads(traf: Traf, at: U32, head: seq<Byte>, payloads: seq<seq<Byte>>, rest: seq<Byte>,
                  whole: seq<Byte>)
    requires at == |head| < 0x8000_0000 && whole == head + Flatten(payloads) + rest
    requires TrackFits(traf, payloads)
    ensures ReadTraf(TrafBody(traf, at), whole) == Some(Wanted(traf, payloads))
  {
    TypesSay();
    TrafBoxesRead(traf, at);
    TfhdReads(traf.id);
    TfdtReads(traf.base);
    TrunReads(traf.samples, at);
    SlicesRead(head, payloads, rest, traf.samples);
  }

  /** Every sample of a track has its payload, and what is written fits its field. */
  predicate TrackFits(traf: Traf, own: seq<seq<Byte>>) {
    && Sized(traf.samples, own)
    && 16 * |traf.samples| + 64 < WORD32
    && (forall s <- traf.samples :: OffsetFits(s))
  }

  /** Each track with its own payloads. */
  predicate Fits(trafs: seq<Traf>, groups: seq<seq<seq<Byte>>>) {
    |trafs| == |groups| && forall i | 0 <= i < |trafs| :: TrackFits(trafs[i], groups[i])
  }

  function Tracks(trafs: seq<Traf>, groups: seq<seq<seq<Byte>>>): (r: seq<Track>)
    requires |trafs| == |groups|
    ensures |r| == |trafs|
    ensures forall i | 0 <= i < |r| :: r[i] == Wanted(trafs[i], groups[i])
  {
    seq(|trafs|, i requires 0 <= i < |trafs| => Wanted(trafs[i], groups[i]))
  }

  /** The bytes of the groups, one after another. */
  function Joined(groups: seq<seq<seq<Byte>>>): seq<Byte> { Flatten(Flatten(groups)) }

  lemma JoinedConcat(a: seq<seq<seq<Byte>>>, b: seq<seq<seq<Byte>>>)
    ensures Joined(a + b) == Joined(a) + Joined(b)
  {
    FlattenConcat(a, b);
    FlattenConcat(Flatten(a), Flatten(b));
  }

  lemma JoinedOne(own: seq<seq<Byte>>)
    ensures Joined([own]) == Flatten(own)
  {
    FlattenLast([], own);
    assert [] + [own] == [own] && [] + own == own;
  }

  /** The groups before one, it, and those after it. */
  lemma JoinedAround(a: seq<seq<seq<Byte>>>, own: seq<seq<Byte>>, c: seq<seq<seq<Byte>>>)
    ensures Joined(a + [own] + c) == Joined(a) + Flatten(own) + Joined(c)
  {
    JoinedConcat(a + [own], c);
    JoinedConcat(a, [own]);
    JoinedOne(own);
  }

  function TrafBoxes(trafs: seq<Traf>, offsets: seq<U32>): seq<Boxed>
    requires |trafs| == |offsets|
  {
    if trafs == [] then []
    else [Boxed(TRAF, TrafBody(trafs[0], offsets[0]))] + TrafBoxes(trafs[1..], offsets[1..])
  }

  lemma {:induction false} TrafBoxesAre(trafs: seq<Traf>, offsets: seq<U32>)
    requires |trafs| == |offsets|
    requires forall i | 0 <= i < |trafs| :: 16 * |trafs[i].samples| + 64 < WORD32
    ensures ReadBoxes(Trafs(trafs, offsets)) == Some(TrafBoxes(trafs, offsets))
    decreases |trafs|
  {
    if trafs != [] {
      TrafBoxesAre(trafs[1..], offsets[1..]);
      BoxesRead(TRAF, TrafBody(trafs[0], offsets[0]), Trafs(trafs[1..], offsets[1..]),
                TrafBoxes(trafs[1..], offsets[1..]));
    }
  }

  lemma {:induction false} BoxesReadAsTracks(
    trafs: seq<Traf>, offsets: seq<U32>, tracks: seq<Track>, read: seq<Byte> -> Option<Track>)
    requires |trafs| == |offsets| == |tracks|
    requires forall i | 0 <= i < |trafs| :: read(TrafBody(trafs[i], offsets[i])) == Some(tracks[i])
    ensures ReadTrafs(TrafBoxes(trafs, offsets), read) == Some(tracks)
  {
    if trafs != [] {
      TypesSay();
      var boxes := TrafBoxes(trafs, offsets);
      BoxesReadAsTracks(trafs[1..], offsets[1..], tracks[1..], read);
      assert read(TrafBody(trafs[0], offsets[0])) == Some(tracks[0]);
      assert boxes[1..] == TrafBoxes(trafs[1..], offsets[1..]);
      assert [tracks[0]] + tracks[1..] == tracks;
    }
  }

  lemma DataOffsetsFirst(trafs: seq<Traf>, own: seq<seq<Byte>>, others: seq<seq<Byte>>, at: nat)
    requires trafs != [] && |own| == |trafs[0].samples|
    ensures DataOffsets(trafs, own + others, at)
         == [Low32(at)] + DataOffsets(trafs[1..], others, at + |Flatten(own)|)
  {
    assert Own(trafs[0], own + others) == |own|;
    assert (own + others)[..|own|] == own && (own + others)[|own|..] == others;
  }

  lemma JoinedStep(groups: seq<seq<seq<Byte>>>, i: nat)
    requires 0 < i <= |groups|
    ensures |Joined(groups[..i])| == |Flatten(groups[0])| + |Joined(groups[1..][..i - 1])|
  {
    assert groups[..i] == [groups[0]] + groups[1..][..i - 1];
    JoinedConcat([groups[0]], groups[1..][..i - 1]);
    JoinedOne(groups[0]);
  }

  /** Each track's data offset is where the payloads of those before it end. */
  lemma {:induction false} DataOffsetIs(
    trafs: seq<Traf>, groups: seq<seq<seq<Byte>>>, at: nat, i: nat)
    requires |trafs| == |groups| && i < |trafs|
    requires forall j | 0 <= j < |trafs| :: |trafs[j].samples| == |groups[j]|
    ensures DataOffsets(trafs, Flatten(groups), at)[i] == Low32(at + |Joined(groups[..i])|)
    decreases i
  {
    var own, others := groups[0], groups[1..];
    var rest := DataOffsets(trafs[1..], Flatten(others), at + |Flatten(own)|);
    DataOffsetsFirst(trafs, own, Flatten(others), at);
    assert DataOffsets(trafs, Flatten(groups), at) == [Low32(at)] + rest;
    if i == 0 {
      assert Joined(groups[..0]) == [];
    } else {
      DataOffsetIs(trafs[1..], others, at + |Flatten(own)|, i - 1);
      JoinedStep(groups, i);
      assert ([Low32(at)] + rest)[i] == rest[i - 1];
    }
  }

  /** The payloads of one group, between those before and those after it. */
  lemma GroupLies(groups: seq<seq<seq<Byte>>>, head: seq<Byte>, i: nat)
    requires i < |groups|
    ensures head + Joined(groups)
         == head + Joined(groups[..i]) + Flatten(groups[i]) + Joined(groups[i + 1..])
  {
    var a, own, c := groups[..i], groups[i], groups[i + 1..];
    assert groups == a + [own] + c;
    JoinedAround(a, own, c);
    Around(head, Joined(a), Flatten(own), Joined(c));
  }

  lemma Around(head: seq<Byte>, a: seq<Byte>, b: seq<Byte>, c: seq<Byte>)
    ensures head + (a + b + c) == head + a + b + c
  {
  }

  /** What lies before a track's payloads ends at its data offset. */
  lemma TrackLies(trafs: seq<Traf>, groups: seq<seq<seq<Byte>>>, head: seq<Byte>, i: nat)
    returns (at: U32, before: seq<Byte>, after: seq<Byte>)
    requires |trafs| == |groups| && i < |trafs|
    requires forall j | 0 <= j < |trafs| :: |trafs[j].samples| == |groups[j]|
    requires |head + Joined(groups)| < 0x8000_0000
    ensures head + Joined(groups) == before + Flatten(groups[i]) + after
    ensures DataOffsets(trafs, Flatten(groups), |head|)[i] == at == |before| < 0x8000_0000
  {
    before, after := head + Joined(groups[..i]), Joined(groups[i + 1..]);
    GroupLies(groups, head, i);
    DataOffsetIs(trafs, groups, |head|, i);
    at := |before|;
  }

  lemma TrackReads(
    trafs: seq<Traf>, groups: seq<seq<seq<Byte>>>, head: seq<Byte>, whole: seq<Byte>, i: nat)
    requires Fits(trafs, groups) && whole == head + Joined(groups)
    requires |whole| < 0x8000_0000 && i < |trafs|
    ensures ReadTraf(TrafBody(trafs[i], DataOffsets(trafs, Flatten(groups), |head|)[i]), whole)
         == Some(Wanted(trafs[i], groups[i]))
  {
    var at, before, after := TrackLies(trafs, groups, head, i);
    TrafReads(trafs[i], at, before, groups[i], after, whole);
  }

  lemma TracksRead(
    trafs: seq<Traf>, groups: seq<seq<seq<Byte>>>, head: seq<Byte>, whole: seq<Byte>)
    requires Fits(trafs, groups) && whole == head + Joined(groups)
    requires |whole| < 0x8000_0000
    ensures ReadTrafs(TrafBoxes(trafs, DataOffsets(trafs, Flatten(groups), |head|)), Reader(whole))
         == Some(Tracks(trafs, groups))
  {
    var offsets, tracks := DataOffsets(trafs, Flatten(groups), |head|), Tracks(trafs, groups);
    var read := Reader(whole);
    forall i | 0 <= i < |trafs| ensures read(TrafBody(trafs[i], offsets[i])) == Some(tracks[i]) {
      TrackReads(trafs, groups, head, whole, i);
    }
    BoxesReadAsTracks(trafs, offsets, tracks, read);
  }

  // ----- The fragment read back -----

  lemma {:induction false} TrafsLength(trafs: seq<Traf>, a: seq<U32>, b: seq<U32>)
    requires |a| == |b|
    ensures |Trafs(trafs, a)| == |Trafs(trafs, b)|
  {
    if trafs != [] && a != [] {
      TrafsLength(trafs[1..], a[1..], b[1..]);
    }
  }

  /** The `moof` is as long whatever offsets it holds: the first pass tells the second's length. */
  lemma MoofLength(sequence: U32, trafs: seq<Traf>, a: seq<U32>, b: seq<U32>)
    requires |a| == |b|
    ensures |Moof(sequence, trafs, a)| == |Moof(sequence, trafs, b)|
  {
    TrafsLength(trafs, a, b);
  }

  lemma MoofReads(sequence: U32, trafs: seq<Traf>, offsets: seq<U32>)
    requires |trafs| == |offsets|
    requires forall i | 0 <= i < |trafs| :: 16 * |trafs[i].samples| + 64 < WORD32
    ensures ReadBoxes(MoofBody(sequence, trafs, offsets))
         == Some([Boxed(MFHD, FullBody(0, 0, Be32(sequence)))] + TrafBoxes(trafs, offsets))
  {
    TrafBoxesAre(trafs, offsets);
    BoxesRead(MFHD, FullBody(0, 0, Be32(sequence)), Trafs(trafs, offsets),
              TrafBoxes(trafs, offsets));
  }

  lemma TopReads(moofBody: seq<Byte>, data: seq<Byte>)
    requires |moofBody| + 8 < WORD32 && |data| + 8 < WORD32
    ensures ReadBoxes(Bx(MOOF, moofBody) + Bx(MDAT, data))
         == Some([Boxed(MOOF, moofBody), Boxed(MDAT, data)])
  {
    OneBox(MDAT, data);
    BoxesRead(MOOF, moofBody, Bx(MDAT, data), [Boxed(MDAT, data)]);
    var (moof, mdat) := (Boxed(MOOF, moofBody), Boxed(MDAT, data));
    assert [moof] + [mdat] == [moof, mdat];
  }

  lemma NumberReads(sequence: U32)
    ensures ReadFull(FullBody(0, 0, Be32(sequence))) == Some((0, 0, Be32(sequence)))
    ensures |Be32(sequence)| == 4 && U32At(Be32(sequence)) == sequence
  {
    FullReads(0, 0, Be32(sequence));
    Be32Reads(sequence, []);
    assert Be32(sequence) + [] == Be32(sequence);
  }

  lemma MdatIsLast(moof: seq<Byte>, data: seq<Byte>)
    ensures (moof + Bx(MDAT, data))[..|moof| + 8] + data == moof + Bx(MDAT, data)
  {
    assert Bx(MDAT, data) == Bx(MDAT, data)[..8] + data;
  }

  /** Two boxes, the first holding a sequence number and tracks, read as a fragment. */
  lemma PartsRead(whole: seq<Byte>, moof: Boxed, mdat: Boxed, mfhd: Boxed, boxes: seq<Boxed>,
                  number: seq<Byte>, tracks: seq<Track>)
    requires moof.kind == MOOF && mdat.kind == MDAT && mfhd.kind == MFHD && |number| >= 4
    requires ReadBoxes(whole) == Some([moof, mdat])
    requires ReadBoxes(moof.body) == Some([mfhd] + boxes)
    requires ReadFull(mfhd.body) == Some((0, 0, number))
    requires ReadTrafs(boxes, Reader(whole)) == Some(tracks)
    ensures ReadFragment(whole) == Some((U32At(number), tracks))
  {
    TypesSay();
    assert ([mfhd] + boxes)[1..] == boxes;
  }

  /** The offsets on the second pass, and the bytes up to the payloads they are counted from. */
  lemma LaidOut(sequence: U32, trafs: seq<Traf>, groups: seq<seq<seq<Byte>>>)
    returns (head: seq<Byte>, offsets: seq<U32>, moof: seq<Byte>)
    ensures FragmentBytes(sequence, trafs, Flatten(groups)) == head + Joined(groups)
    ensures FragmentBytes(sequence, trafs, Flatten(groups)) == Bx(MOOF, moof) + Bx(MDAT, Joined(groups))
    ensures offsets == DataOffsets(trafs, Flatten(groups), |head|)
    ensures moof == MoofBody(sequence, trafs, offsets)
  {
    var at := |Moof(sequence, trafs, Zeros(|trafs|))| + 8;
    offsets := DataOffsets(trafs, Flatten(groups), at);
    MoofLength(sequence, trafs, Zeros(|trafs|), offsets);
    moof := MoofBody(sequence, trafs, offsets);
    head := (Bx(MOOF, moof) + Bx(MDAT, Joined(groups)))[..at];
    MdatIsLast(Bx(MOOF, moof), Joined(groups));
  }

  /**
   A reader of the standard recovers from a fragment's bytes its sequence number and every track's
   id, base time, sample durations, sizes, flags and composition offsets, and exact payloads.
   */
  lemma FragmentReadsBack(sequence: U32, trafs: seq<Traf>, groups: seq<seq<seq<Byte>>>)
    requires Fits(trafs, groups)
    requires |FragmentBytes(sequence, trafs, Flatten(groups))| < 0x8000_0000
    ensures ReadFragment(FragmentBytes(sequence, trafs, Flatten(groups)))
         == Some((sequence, Tracks(trafs, groups)))
  {
    var head, offsets, moof := LaidOut(sequence, trafs, groups);
    WholeReads(sequence, trafs, groups, offsets, moof, head,
               FragmentBytes(sequence, trafs, Flatten(groups)));
  }

  lemma WholeReads(sequence: U32, trafs: seq<Traf>, groups: seq<seq<seq<Byte>>>,
                   offsets: seq<U32>, moof: seq<Byte>, head: seq<Byte>, whole: seq<Byte>)
    requires Fits(trafs, groups) && |whole| < 0x8000_0000
    requires offsets == DataOffsets(trafs, Flatten(groups), |head|)
    requires moof == MoofBody(sequence, trafs, offsets)
    requires whole == head + Joined(groups)
    requires whole == Bx(MOOF, moof) + Bx(MDAT, Joined(groups))
    ensures ReadFragment(whole) == Some((sequence, Tracks(trafs, groups)))
  {
    TopReads(moof, Joined(groups));
    MoofReads(sequence, trafs, offsets);
    NumberReads(sequence);
    TracksRead(trafs, groups, head, whole);
    PartsRead(whole, Boxed(MOOF, moof), Boxed(MDAT, Joined(groups)),
              Boxed(MFHD, FullBody(0, 0, Be32(sequence))), TrafBoxes(trafs, offsets),
              Be32(sequence), Tracks(trafs, groups));
  }
}
