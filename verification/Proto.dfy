/**
 The Cast v2 wire format: a hand-written protobuf printer and parser for `CastMessage`, and the
 length-prefixed frames they travel in (crates/anistream-cast/src/proto.rs).

 A Rust `String` is a byte sequence that is well-formed UTF-8. The methods are the source's loops;
 each is tied to a function, and the lemmas speak of the functions.
 */
module Proto {
  import opened Bytes
  import Strings

  /** The largest message accepted from a device. */
  const MAX_MESSAGE := 64 * 1024

  predicate Utf8(s: seq<Byte>) { Strings.FromUtf8(s).Some? }

  type Text = s: seq<Byte> | Utf8(s)

  datatype Payload = TextPayload(text: Text) | BinaryPayload(data: seq<Byte>)

  datatype CastMessage = CastMessage(
    source: Text, destination: Text, namespace: Text, payload: Payload)

  datatype DecodeError =
    | ShortVarint | LongVarint | PastMessage | NotUtf8 | ShortFixed32 | ShortFixed64 | UnknownWire

  // ----- Varints -----

  /** A varint: seven bits a byte, least significant first, the high bit on all but the last. */
  function Varint(value: nat): (bytes: seq<Byte>)
    ensures 0 < |bytes|
  {
    if value < 128 then [value] else [value % 128 + 128] + Varint(value / 128)
  }

  method AppendVarint(out: seq<Byte>, value: U64) returns (r: seq<Byte>)
    ensures r == out + Varint(value)
  {
    r := out;
    var left := value;
    while true
      invariant r + Varint(left) == out + Varint(value)
      decreases left
    {
      var byte := left % 128;
      ghost var was := left;
      left := left / 128;
      if left == 0 {
        r := r + [byte];
        return;
      }
      assert Varint(was) == [byte + 128] + Varint(left);
      r := r + [byte + 128];
    }
  }

  /** `n << 7 * k`, before any word ends. */
  function Shift(n: nat, k: nat): nat {
    if k == 0 then n else 128 * Shift(n, k - 1)
  }

  lemma {:induction false} ShiftAdds(a: nat, b: nat, k: nat)
    ensures Shift(a + b, k) == Shift(a, k) + Shift(b, k)
  {
    if k > 0 {
      ShiftAdds(a, b, k - 1);
    }
  }

  lemma {:induction false} ShiftMoves(a: nat, k: nat)
    ensures Shift(128 * a, k) == Shift(a, k + 1)
  {
    if k > 0 {
      ShiftMoves(a, k - 1);
    }
  }

  /** Where the bytes lie in the word: the tenth has room for one bit, an eleventh for none. */
  lemma Places()
    ensures Shift(1, 9) == WORD64 / 2 && Shift(1, 10) > WORD64
  {
    assert Shift(1, 3) == 0x20_0000;
    assert Shift(1, 6) == 0x400_0000_0000;
    assert Shift(1, 8) == 0x100_0000_0000_0000;
  }

  lemma ShiftGrows(a: nat, b: nat, k: nat)
    requires a <= b
    ensures Shift(a, k) <= Shift(b, k)
  {
    ShiftAdds(a, b - a, k);
  }

  /** Taking a number's low seven bits off at byte `k`. */
  lemma ShiftStep(value: nat, k: nat)
    requires 128 <= value && k < 10 && Shift(value, k) < WORD64
    ensures k < 9
    ensures Shift(value, k) == Shift(value % 128, k) + Shift(value / 128, k + 1)
  {
    var low, high := value % 128, value / 128;
    assert value == 128 * high + low;
    ShiftAdds(128 * high, low, k);
    ShiftMoves(high, k);
    ShiftGrows(1, high, k + 1);
    Places();
  }

  /** Byte `k`'s seven bits in the word: the tenth keeps one of them, the shift drops the rest. */
  function Placed(low: nat, k: nat): nat
    requires k < 10
  {
    Shift(if k == 9 then low % 2 else low, k)
  }

  lemma PlacedWhole(low: nat, k: nat)
    requires k < 10 && Shift(low, k) < WORD64
    ensures Placed(low, k) == Shift(low, k)
  {
    if k == 9 && 2 <= low {
      Places();
      ShiftGrows(2, low, 9);
    }
  }

  /**
   A varint's bytes from the `k`th on. `value |= bits << shift` puts the bits above those read so
   far, so it is an addition, and a shift drops what leaves the 64-bit word. At most ten bytes.
   */
  function ReadVarint(data: seq<Byte>, k: nat := 0): (r: Result<(nat, seq<Byte>), DecodeError>)
    requires k <= 10
    ensures r.Ok? ==> |r.value.1| < |data| && r.value.1 == data[|data| - |r.value.1|..]
    decreases 10 - k
  {
    if k == 10 then Err(LongVarint)
    else if data == [] then Err(ShortVarint)
    else
      var bits := Placed(data[0] % 128, k);
      if data[0] < 128 then Ok((bits, data[1..]))
      else match ReadVarint(data[1..], k + 1)
           case Ok((high, rest)) => Ok((bits + high, rest))
           case Err(e) => Err(e)
  }

  /** What was read from a later byte on, with the value of the bytes before it. */
  function Above(low: nat, r: Result<(nat, seq<Byte>), DecodeError>)
    : Result<(nat, seq<Byte>), DecodeError>
  {
    match r
    case Ok((high, rest)) => Ok((low + high, rest))
    case Err(e) => Err(e)
  }

  lemma AboveStep(value: nat, data: seq<Byte>, k: nat)
    requires k < 10 && data != []
    ensures Above(value, ReadVarint(data, k))
         == if data[0] < 128 then Ok((value + Placed(data[0] % 128, k), data[1..]))
            else Above(value + Placed(data[0] % 128, k), ReadVarint(data[1..], k + 1))
  {
  }

  method ReadVarintLoop(input: seq<Byte>) returns (r: Result<(nat, seq<Byte>), DecodeError>)
    ensures r == ReadVarint(input)
  {
    var data, k := input, 0;
    var value: nat := 0;
    ghost var want := ReadVarint(input);
    while k < 10
      invariant k <= 10
      invariant want == Above(value, ReadVarint(data, k))
    {
      if data == [] {
        return Err(ShortVarint);
      }
      AboveStep(value, data, k);
      var byte := data[0];
      data := data[1..];
      value := value + Placed(byte % 128, k);
      if byte < 128 {
        return Ok((value, data));
      }
      k := k + 1;
    }
    return Err(LongVarint);
  }

  lemma ReadVarintStep(low: nat, more: seq<Byte>, k: nat, high: nat, rest: seq<Byte>)
    requires low < 128 && k < 10 && ReadVarint(more, k + 1) == Ok((high, rest))
    ensures ReadVarint([low + 128] + more, k) == Ok((Placed(low, k) + high, rest))
  {
    var data := [low + 128] + more;
    assert data[0] % 128 == low && data[1..] == more;
  }

  lemma {:induction false} ReadVarintAt(value: nat, rest: seq<Byte>, k: nat)
    requires k < 10 && Shift(value, k) < WORD64
    ensures ReadVarint(Varint(value) + rest, k) == Ok((Shift(value, k), rest))
    decreases 10 - k
  {
    if value < 128 {
      PlacedWhole(value, k);
      assert ([value] + rest)[1..] == rest;
    } else {
      var low, high := value % 128, value / 128;
      ShiftStep(value, k);
      PlacedWhole(low, k);
      ReadVarintAt(high, rest, k + 1);
      ReadVarintStep(low, Varint(high) + rest, k, Shift(high, k + 1), rest);
      assert [low + 128] + (Varint(high) + rest) == Varint(value) + rest;
    }
  }

  /** `read_varint` undoes `varint` for every 64-bit value, and leaves what follows it. */
  lemma VarintRoundTrip(value: U64, rest: seq<Byte>)
    ensures ReadVarint(Varint(value) + rest) == Ok((value, rest))
  {
    ReadVarintAt(value, rest, 0);
  }

  lemma {:induction false} VarintLocal(a: seq<Byte>, b: seq<Byte>, k: nat)
    requires k <= 10 && ReadVarint(a, k).Ok?
    ensures ReadVarint(a + b, k) == Ok((ReadVarint(a, k).value.0, ReadVarint(a, k).value.1 + b))
    decreases 10 - k
  {
    assert (a + b)[1..] == a[1..] + b;
    if a[0] >= 128 {
      VarintLocal(a[1..], b, k + 1);
    }
  }

  /** A varint read is a 64-bit number: the bits are put together within the word. */
  lemma {:induction false} ReadVarintFits(data: seq<Byte>, k: nat)
    requires k <= 10 && ReadVarint(data, k).Ok?
    ensures k < 10 && ReadVarint(data, k).value.0 + Shift(1, k) <= WORD64
    decreases 10 - k
  {
    if data[0] >= 128 {
      ReadVarintFits(data[1..], k + 1);
    }
    PlacedFits(data[0] % 128, k);
  }

  lemma PlacedFits(low: nat, k: nat)
    requires low < 128 && k < 10
    ensures Placed(low, k) + Shift(1, k) <= WORD64
    ensures k < 9 ==> Placed(low, k) + Shift(1, k) <= Shift(1, k + 1)
  {
    Places();
    if k == 9 {
      ShiftGrows(low % 2, 1, 9);
    } else {
      ShiftGrows(low, 127, k);
      ShiftAdds(127, 1, k);
      ShiftMoves(1, k);
      ShiftTop(k + 1);
    }
  }

  lemma {:induction false} ShiftTop(k: nat)
    requires k < 10
    ensures Shift(1, k) <= WORD64 / 2
    decreases 10 - k
  {
    if k < 9 {
      ShiftTop(k + 1);
    } else {
      Places();
    }
  }

  // ----- Printing -----

  function VarintField(field: nat, value: nat): seq<Byte> {
    Varint(field * 8) + Varint(value)
  }

  function BytesField(field: nat, value: seq<Byte>): seq<Byte> {
    Varint(field * 8 + 2) + Varint(|value|) + value
  }

  function PayloadChunks(payload: Payload): seq<seq<Byte>> {
    match payload
    case TextPayload(text) => [VarintField(5, 0), BytesField(6, text)]
    case BinaryPayload(data) => [VarintField(5, 1), BytesField(7, data)]
  }

  /** The message's fields as the wire carries them, one chunk a field. */
  function Chunks(m: CastMessage): seq<seq<Byte>> {
    [VarintField(1, 0), BytesField(2, m.source), BytesField(3, m.destination),
     BytesField(4, m.namespace)]
    + PayloadChunks(m.payload)
  }

  method AppendVarintField(out: seq<Byte>, field: U64, value: U64) returns (r: seq<Byte>)
    requires field < 16
    ensures r == out + VarintField(field, value)
  {
    r := AppendVarint(out, field * 8);
    r := AppendVarint(r, value);
  }

  method AppendBytesField(out: seq<Byte>, field: U64, value: seq<Byte>) returns (r: seq<Byte>)
    requires field < 16 && |value| < WORD64
    ensures r == out + BytesField(field, value)
  {
    r := AppendVarint(out, field * 8 + 2);
    r := AppendVarint(r, |value|);
    r := r + value;
  }

  /** A buffer that fits a 64-bit machine, as every `String` and `Vec` does. */
  predicate Held(m: CastMessage) {
    && |m.source| < WORD64 && |m.destination| < WORD64 && |m.namespace| < WORD64
    && (match m.payload case TextPayload(t) => |t| < WORD64 case BinaryPayload(d) => |d| < WORD64)
  }

  method AppendPayload(out: seq<Byte>, payload: Payload) returns (r: seq<Byte>)
    requires match payload case TextPayload(t) => |t| < WORD64 case BinaryPayload(d) => |d| < WORD64
    ensures r == out + (PayloadChunks(payload)[0] + PayloadChunks(payload)[1])
  {
    match payload {
      case TextPayload(text) =>
        r := AppendVarintField(out, 5, 0);
        r := AppendBytesField(r, 6, text);
      case BinaryPayload(data) =>
        r := AppendVarintField(out, 5, 1);
        r := AppendBytesField(r, 7, data);
    }
  }

  method Encode(m: CastMessage) returns (out: seq<Byte>)
    requires Held(m)
    ensures out == Flatten(Chunks(m))
  {
    ghost var c := Chunks(m);
    FlattenSix(c);
    out := AppendVarintField([], 1, 0);
    assert out == c[0];
    out := AppendBytesField(out, 2, m.source);
    assert out == c[0] + c[1];
    out := AppendBytesField(out, 3, m.destination);
    assert out == c[0] + c[1] + c[2];
    out := AppendBytesField(out, 4, m.namespace);
    assert out == c[0] + c[1] + c[2] + c[3];
    out := AppendPayload(out, m.payload);
  }

  lemma FlattenPair(a: seq<Byte>, b: seq<Byte>)
    ensures Flatten([a, b]) == a + b
  {
    FlattenLast([], a);
    FlattenLast([a], b);
    assert [] + [a] == [a] && [a] + [b] == [a, b];
  }

  lemma FlattenSix(c: seq<seq<Byte>>)
    requires |c| == 6
    ensures Flatten(c) == c[0] + c[1] + c[2] + c[3] + (c[4] + c[5])
  {
    assert c == c[..4] + [c[4], c[5]] && c[..4] == [c[0], c[1]] + [c[2], c[3]];
    FlattenConcat(c[..4], [c[4], c[5]]);
    FlattenConcat([c[0], c[1]], [c[2], c[3]]);
    FlattenPair(c[0], c[1]);
    FlattenPair(c[2], c[3]);
    FlattenPair(c[4], c[5]);
  }

  // ----- Parsing -----

  /** One field read off the wire. */
  datatype Field = Number(id: nat, value: nat) | Data(id: nat, bytes: seq<Byte>) | Fixed

  /** The rest of a field whose key has been read. */
  function ReadBody(key: nat, data: seq<Byte>): (r: Result<(Field, seq<Byte>), DecodeError>)
    ensures r.Ok? ==> |r.value.1| <= |data|
  {
    var id, wire := key / 8, key % 8;
    if wire == 0 then
      match ReadVarint(data)
      case Err(e) => Err(e)
      case Ok((value, rest)) => Ok((Number(id, value), rest))
    else if wire == 2 then
      match ReadVarint(data)
      case Err(e) => Err(e)
      case Ok((len, rest)) =>
        if len > |rest| then Err(PastMessage) else Ok((Data(id, rest[..len]), rest[len..]))
    else if wire == 5 then
      if |data| < 4 then Err(ShortFixed32) else Ok((Fixed, data[4..]))
    else if wire == 1 then
      if |data| < 8 then Err(ShortFixed64) else Ok((Fixed, data[8..]))
    else Err(UnknownWire)
  }

  /** The first field of `data`, and what follows it. */
  function ReadField(data: seq<Byte>): (r: Result<(Field, seq<Byte>), DecodeError>)
    ensures r.Ok? ==> |r.value.1| < |data|
  {
    match ReadVarint(data)
    case Err(e) => Err(e)
    case Ok((key, rest)) => ReadBody(key, rest)
  }

  /** The message being read: the fields seen so far, later ones in place of earlier. */
  datatype Draft = Draft(
    source: Text, destination: Text, namespace: Text,
    binary: bool, text: Option<Text>, bytes: Option<seq<Byte>>)

  const BLANK := Draft([], [], [], false, None, None)

  /** Take one field into the draft; an unknown one is skipped. */
  function Take(d: Draft, f: Field): Result<Draft, DecodeError> {
    match f
    case Number(id, value) => Ok(if id == 5 then d.(binary := value == 1) else d)
    case Fixed => Ok(d)
    case Data(id, bytes) =>
      if id == 7 then Ok(d.(bytes := Some(bytes)))
      else if id in {2, 3, 4, 6} && !Utf8(bytes) then Err(NotUtf8)
      else if id == 2 then Ok(d.(source := bytes))
      else if id == 3 then Ok(d.(destination := bytes))
      else if id == 4 then Ok(d.(namespace := bytes))
      else if id == 6 then Ok(d.(text := Some(bytes)))
      else Ok(d)
  }

  function Finish(d: Draft): CastMessage {
    CastMessage(d.source, d.destination, d.namespace,
      if d.binary then BinaryPayload(if d.bytes.Some? then d.bytes.value else [])
      else TextPayload(if d.text.Some? then d.text.value else []))
  }

  function Fold(data: seq<Byte>, d: Draft): Result<Draft, DecodeError>
    decreases |data|
  {
    if data == [] then Ok(d)
    else match ReadField(data)
      case Err(e) => Err(e)
      case Ok((field, rest)) =>
        match Take(d, field)
        case Err(e) => Err(e)
        case Ok(d') => Fold(rest, d')
  }

  function Decoded(data: seq<Byte>): Result<CastMessage, DecodeError> {
    match Fold(data, BLANK)
    case Err(e) => Err(e)
    case Ok(d) => Ok(Finish(d))
  }

  method Decode(input: seq<Byte>) returns (r: Result<CastMessage, DecodeError>)
    ensures r == Decoded(input)
  {
    var data := input;
    var draft := BLANK;
    while data != []
      invariant Fold(data, draft) == Fold(input, BLANK)
      decreases |data|
    {
      var key := ReadVarintLoop(data);
      if key.Err? { return Err(key.error); }
      var (tag, rest) := key.value;
      var id, wire := tag / 8, tag % 8;
      var field;
      if wire == 0 {
        var value := ReadVarintLoop(rest);
        if value.Err? { return Err(value.error); }
        field, rest := Number(id, value.value.0), value.value.1;
      } else if wire == 2 {
        var len := ReadVarintLoop(rest);
        if len.Err? { return Err(len.error); }
        var (n, after) := len.value;
        if n > |after| { return Err(PastMessage); }
        field, rest := Data(id, after[..n]), after[n..];
      } else if wire == 5 {
        if |rest| < 4 { return Err(ShortFixed32); }
        field, rest := Fixed, rest[4..];
      } else if wire == 1 {
        if |rest| < 8 { return Err(ShortFixed64); }
        field, rest := Fixed, rest[8..];
      } else {
        return Err(UnknownWire);
      }
      assert ReadField(data) == Ok((field, rest));
      var taken := Take(draft, field);
      if taken.Err? { return Err(taken.error); }
      draft, data := taken.value, rest;
    }
    r := Ok(Finish(draft));
  }

  // ----- What a message means: the last of each field -----

  /** Every field of `data` in order, when all of them read. */
  function Fields(data: seq<Byte>): Result<seq<Field>, DecodeError>
    decreases |data|
  {
    if data == [] then Ok([])
    else match ReadField(data)
      case Err(e) => Err(e)
      case Ok((field, rest)) =>
        match Fields(rest)
        case Err(e) => Err(e)
        case Ok(fields) => Ok([field] + fields)
  }

  /** The bytes of the last length-delimited field `id`, if there is one. */
  function LastData(fields: seq<Field>, id: nat): Option<seq<Byte>> {
    if fields == [] then None
    else
      var f := fields[|fields| - 1];
      if f.Data? && f.id == id then Some(f.bytes) else LastData(fields[..|fields| - 1], id)
  }

  function LastNumber(fields: seq<Field>, id: nat): Option<nat> {
    if fields == [] then None
    else
      var f := fields[|fields| - 1];
      if f.Number? && f.id == id then Some(f.value) else LastNumber(fields[..|fields| - 1], id)
  }

  /** Every string field holds a string. */
  predicate StringsValid(fields: seq<Field>) {
    forall f <- fields :: f.Data? && f.id in {2, 3, 4, 6} ==> Utf8(f.bytes)
  }

  function OrEmpty(bytes: Option<seq<Byte>>): seq<Byte> {
    if bytes.Some? then bytes.value else []
  }

  lemma {:induction false} LastDataIsText(fields: seq<Field>, id: nat)
    requires StringsValid(fields) && id in {2, 3, 4, 6}
    ensures Utf8(OrEmpty(LastData(fields, id)))
  {
    if fields != [] {
      LastDataIsText(fields[..|fields| - 1], id);
    }
  }

  /** The draft that holds the last of each known field. */
  function Merged(fields: seq<Field>): Draft
    requires StringsValid(fields)
  {
    LastDataIsText(fields, 2); LastDataIsText(fields, 3);
    LastDataIsText(fields, 4); LastDataIsText(fields, 6);
    Draft(
      OrEmpty(LastData(fields, 2)), OrEmpty(LastData(fields, 3)), OrEmpty(LastData(fields, 4)),
      LastNumber(fields, 5) == Some(1),
      (if LastData(fields, 6).Some? then Some(LastData(fields, 6).value) else None),
      LastData(fields, 7))
  }

  lemma LastSnoc(fields: seq<Field>, f: Field)
    ensures forall id :: LastData(fields + [f], id)
                      == if f.Data? && f.id == id then Some(f.bytes) else LastData(fields, id)
    ensures forall id :: LastNumber(fields + [f], id)
                      == if f.Number? && f.id == id then Some(f.value) else LastNumber(fields, id)
  {
    assert (fields + [f])[..|fields|] == fields;
  }

  lemma StringsValidSnoc(fields: seq<Field>, f: Field)
    requires StringsValid(fields)
    ensures StringsValid(fields + [f])
      <==> (f.Data? && f.id in {2, 3, 4, 6} ==> Utf8(f.bytes))
  {
    assert f in fields + [f];
  }

  lemma MergedStep(fields: seq<Field>, f: Field)
    requires StringsValid(fields)
    ensures StringsValid(fields + [f]) <==> Take(Merged(fields), f).Ok?
    ensures StringsValid(fields + [f]) ==> Take(Merged(fields), f) == Ok(Merged(fields + [f]))
  {
    StringsValidSnoc(fields, f);
    LastSnoc(fields, f);
  }

  /** Fields from the front: the fold over the rest, whatever the draft. */
  function TakeAll(d: Draft, fields: seq<Field>): Result<Draft, DecodeError>
    decreases |fields|
  {
    if fields == [] then Ok(d)
    else match Take(d, fields[0])
      case Err(e) => Err(e)
      case Ok(d') => TakeAll(d', fields[1..])
  }

  /** Reading and taking field by field fails where either would, and is both when neither does. */
  lemma {:induction false} FoldTakesAll(data: seq<Byte>, d: Draft)
    ensures Fold(data, d).Ok? <==> Fields(data).Ok? && TakeAll(d, Fields(data).value).Ok?
    ensures Fold(data, d).Ok? ==> Fold(data, d) == TakeAll(d, Fields(data).value)
    decreases |data|
  {
    if data != [] && ReadField(data).Ok? {
      var (field, rest) := ReadField(data).value;
      if Take(d, field).Ok? {
        FoldTakesAll(rest, Take(d, field).value);
      }
      if Fields(rest).Ok? {
        assert Fields(data).value[1..] == Fields(rest).value;
      }
    }
  }

  lemma {:induction false} TakeAllMerges(seen: seq<Field>, fields: seq<Field>)
    requires StringsValid(seen)
    ensures TakeAll(Merged(seen), fields).Ok? <==> StringsValid(seen + fields)
    ensures StringsValid(seen + fields)
      ==> TakeAll(Merged(seen), fields) == Ok(Merged(seen + fields))
    decreases |fields|
  {
    if fields == [] {
      assert seen + fields == seen;
    } else {
      var f := fields[0];
      MergedStep(seen, f);
      assert seen + fields == seen + [f] + fields[1..];
      if StringsValid(seen + [f]) {
        TakeAllMerges(seen + [f], fields[1..]);
      } else {
        assert f in seen + fields;
      }
    }
  }

  /**
   `decode` succeeds exactly on bytes whose fields all read and whose string fields are UTF-8, and
   then every part of the message is the last field that carries it.
   */
  lemma DecodeIsLastOneWins(data: seq<Byte>)
    ensures Decoded(data).Ok? <==> Fields(data).Ok? && StringsValid(Fields(data).value)
    ensures Decoded(data).Ok? ==> Decoded(data) == Ok(Finish(Merged(Fields(data).value)))
  {
    assert Merged([]) == BLANK;
    FoldTakesAll(data, BLANK);
    if Fields(data).Ok? {
      TakeAllMerges([], Fields(data).value);
      assert [] + Fields(data).value == Fields(data).value;
    }
  }

  lemma DataLocal(key: nat, a: seq<Byte>, b: seq<Byte>)
    requires key % 8 == 2 && ReadBody(key, a).Ok?
    ensures ReadBody(key, a + b) == Ok((ReadBody(key, a).value.0, ReadBody(key, a).value.1 + b))
  {
    VarintLocal(a, b, 0);
    var (len, after) := ReadVarint(a).value;
    SplitLocal(after, b, len);
  }

  lemma SplitLocal(after: seq<Byte>, b: seq<Byte>, len: nat)
    requires len <= |after|
    ensures (after + b)[..len] == after[..len] && (after + b)[len..] == after[len..] + b
  {
  }

  lemma BodyLocal(key: nat, a: seq<Byte>, b: seq<Byte>)
    requires ReadBody(key, a).Ok?
    ensures ReadBody(key, a + b) == Ok((ReadBody(key, a).value.0, ReadBody(key, a).value.1 + b))
  {
    var wire := key % 8;
    if wire == 0 {
      VarintLocal(a, b, 0);
    } else if wire == 2 {
      DataLocal(key, a, b);
    } else {
      var n := if wire == 5 then 4 else 8;
      assert (a + b)[n..] == a[n..] + b;
    }
  }

  lemma FieldLocal(a: seq<Byte>, b: seq<Byte>)
    requires ReadField(a).Ok?
    ensures ReadField(a + b) == Ok((ReadField(a).value.0, ReadField(a).value.1 + b))
  {
    VarintLocal(a, b, 0);
    var (key, rest) := ReadVarint(a).value;
    BodyLocal(key, rest, b);
  }

  /** `more` behind the fields already read. */
  function After(fields: seq<Field>, more: Result<seq<Field>, DecodeError>)
    : Result<seq<Field>, DecodeError>
  {
    match more
    case Ok(rest) => Ok(fields + rest)
    case Err(e) => Err(e)
  }

  lemma FieldsStep(data: seq<Byte>, field: Field, rest: seq<Byte>)
    requires data != [] && ReadField(data) == Ok((field, rest))
    ensures Fields(data) == After([field], Fields(rest))
  {
  }

  /** Fields read to a boundary are the same whatever follows. */
  lemma {:induction false} FieldsConcat(a: seq<Byte>, b: seq<Byte>)
    requires Fields(a).Ok?
    ensures Fields(a + b) == After(Fields(a).value, Fields(b))
    decreases |a|
  {
    if a == [] {
      assert a + b == b;
      assert forall s: seq<Field> :: [] + s == s;
    } else {
      var (field, rest) := ReadField(a).value;
      FieldsStep(a, field, rest);
      FieldLocal(a, b);
      FieldsStep(a + b, field, rest + b);
      FieldsConcat(rest, b);
      if Fields(b).Ok? {
        assert [field] + (Fields(rest).value + Fields(b).value)
            == [field] + Fields(rest).value + Fields(b).value;
      }
    }
  }

  lemma {:induction false} LastDataConcat(a: seq<Field>, b: seq<Field>, id: nat)
    ensures LastData(a + b, id)
         == if LastData(b, id).Some? then LastData(b, id) else LastData(a, id)
    ensures LastNumber(a + b, id)
         == if LastNumber(b, id).Some? then LastNumber(b, id) else LastNumber(a, id)
  {
    if b == [] {
      assert a + b == a;
    } else {
      var n := |b| - 1;
      LastDataConcat(a, b[..n], id);
      assert (a + b)[..|a + b| - 1] == a + b[..n];
    }
  }

  /**
   Decoding two messages' bytes one after the other is decoding both's fields together: each part is
   the second's where the second says it, and the first's otherwise.
   */
  lemma DecodeConcatenation(a: seq<Byte>, b: seq<Byte>)
    requires Decoded(a).Ok? && Decoded(b).Ok?
    ensures Fields(a).Ok? && Fields(b).Ok? && StringsValid(Fields(a).value + Fields(b).value)
    ensures Decoded(a + b) == Ok(Finish(Merged(Fields(a).value + Fields(b).value)))
    ensures
      var second := Fields(b).value;
      var (x, y, z) := (Decoded(a).value, Decoded(b).value, Decoded(a + b).value);
      && z.source == (if LastData(second, 2).Some? then y.source else x.source)
      && z.destination == (if LastData(second, 3).Some? then y.destination else x.destination)
      && z.namespace == (if LastData(second, 4).Some? then y.namespace else x.namespace)
      && (z.payload.BinaryPayload?
          <==> (if LastNumber(second, 5).Some? then y else x).payload.BinaryPayload?)
      && (LastNumber(second, 5).Some? && LastData(second, 6).Some? && LastData(second, 7).Some?
          ==> z.payload == y.payload)
      && (LastNumber(second, 5).None? && LastData(second, 6).None? && LastData(second, 7).None?
          ==> z.payload == x.payload)
  {
    DecodeIsLastOneWins(a);
    DecodeIsLastOneWins(b);
    DecodeIsLastOneWins(a + b);
    FieldsConcat(a, b);
    var fa, fb := Fields(a).value, Fields(b).value;
    assert StringsValid(fa + fb);
    LastDataConcat(fa, fb, 2); LastDataConcat(fa, fb, 3); LastDataConcat(fa, fb, 4);
    LastDataConcat(fa, fb, 5); LastDataConcat(fa, fb, 6); LastDataConcat(fa, fb, 7);
  }

  // ----- Round trips -----

  predicate Known(f: Field) {
    (f.Number? && f.id == 5) || (f.Data? && f.id in {2, 3, 4, 6, 7})
  }

  /** Well-formed fields, none of them one the message has. */
  predicate Unknown(data: seq<Byte>) {
    Fields(data).Ok? && forall f <- Fields(data).value :: !Known(f)
  }

  lemma OneField(data: seq<Byte>, field: Field)
    requires data != [] && ReadField(data) == Ok((field, []))
    ensures Fields(data) == Ok([field])
  {
    FieldsStep(data, field, []);
    assert [field] + [] == [field];
  }

  lemma VarintFieldReads(id: nat, value: U64)
    requires id < 16
    ensures Fields(VarintField(id, value)) == Ok([Number(id, value)])
  {
    VarintRoundTrip(id * 8, Varint(value));
    VarintRoundTrip(value, []);
    assert Varint(value) + [] == Varint(value);
    OneField(VarintField(id, value), Number(id, value));
  }

  lemma BytesFieldReads(id: nat, value: seq<Byte>)
    requires id < 16 && |value| < WORD64
    ensures Fields(BytesField(id, value)) == Ok([Data(id, value)])
  {
    var key, tail := id * 8 + 2, Varint(|value|) + value;
    assert BytesField(id, value) == Varint(key) + tail;
    VarintRoundTrip(key, tail);
    DataReads(key, value);
    OneField(BytesField(id, value), Data(id, value));
  }

  lemma DataReads(key: nat, value: seq<Byte>)
    requires key % 8 == 2 && |value| < WORD64
    ensures ReadBody(key, Varint(|value|) + value) == Ok((Data(key / 8, value), []))
  {
    VarintRoundTrip(|value|, value);
    assert value[..|value|] == value && value[|value|..] == [];
  }

  /** The fields the message is printed as. */
  function PrintedFields(m: CastMessage): (fields: seq<Field>)
    ensures |fields| == 6
  {
    [Number(1, 0), Data(2, m.source), Data(3, m.destination), Data(4, m.namespace)]
    + match m.payload
      case TextPayload(text) => [Number(5, 0), Data(6, text)]
      case BinaryPayload(data) => [Number(5, 1), Data(7, data)]
  }

  lemma PayloadReads(m: CastMessage)
    requires Held(m)
    ensures Fields(Chunks(m)[4]) == Ok([PrintedFields(m)[4]])
    ensures Fields(Chunks(m)[5]) == Ok([PrintedFields(m)[5]])
  {
    match m.payload
    case TextPayload(text) =>
      VarintFieldReads(5, 0);
      BytesFieldReads(6, text);
    case BinaryPayload(data) =>
      VarintFieldReads(5, 1);
      BytesFieldReads(7, data);
  }

  lemma ChunksRead(m: CastMessage)
    requires Held(m)
    ensures ReadAs(Chunks(m), PrintedFields(m))
  {
    VarintFieldReads(1, 0);
    BytesFieldReads(2, m.source);
    BytesFieldReads(3, m.destination);
    BytesFieldReads(4, m.namespace);
    PayloadReads(m);
    forall i | 0 <= i < 6 ensures Fields(Chunks(m)[i]) == Ok([PrintedFields(m)[i]]) {
      assert i in {0, 1, 2, 3, 4, 5};
    }
  }

  /** The message's chunks from the `i`th on, each behind its gap, and the last gap. */
  function Interleaved(chunks: seq<seq<Byte>>, gaps: seq<seq<Byte>>): seq<Byte>
    requires |gaps| == |chunks| + 1
  {
    if chunks == [] then gaps[0]
    else gaps[0] + (chunks[0] + Interleaved(chunks[1..], gaps[1..]))
  }

  function KnownOnly(fields: seq<Field>): seq<Field> {
    if fields == [] then []
    else if Known(fields[0]) then [fields[0]] + KnownOnly(fields[1..])
    else KnownOnly(fields[1..])
  }

  lemma {:induction false} KnownOnlyConcat(a: seq<Field>, b: seq<Field>)
    ensures KnownOnly(a + b) == KnownOnly(a) + KnownOnly(b)
  {
    if a == [] {
      assert a + b == b;
    } else {
      assert (a + b)[1..] == a[1..] + b;
      KnownOnlyConcat(a[1..], b);
    }
  }

  lemma {:induction false} NoneKnown(fields: seq<Field>)
    requires forall f <- fields :: !Known(f)
    ensures KnownOnly(fields) == []
  {
    if fields != [] {
      NoneKnown(fields[1..]);
    }
  }

  /** The known fields of bytes that read to their end. */
  function KnownIn(data: seq<Byte>): seq<Field> {
    if Fields(data).Ok? then KnownOnly(Fields(data).value) else []
  }

  lemma KnownInConcat(a: seq<Byte>, b: seq<Byte>)
    requires Fields(a).Ok? && Fields(b).Ok?
    ensures Fields(a + b).Ok? && KnownIn(a + b) == KnownIn(a) + KnownIn(b)
  {
    FieldsConcat(a, b);
    KnownOnlyConcat(Fields(a).value, Fields(b).value);
  }

  lemma UnknownIn(gap: seq<Byte>, data: seq<Byte>)
    requires Unknown(gap) && Fields(data).Ok?
    ensures Fields(gap + data).Ok? && KnownIn(gap + data) == KnownIn(data)
  {
    NoneKnown(Fields(gap).value);
    KnownInConcat(gap, data);
    assert [] + KnownIn(data) == KnownIn(data);
  }

  lemma ChunkIn(chunk: seq<Byte>, field: Field, tail: seq<Byte>, fields: seq<Field>)
    requires Fields(chunk) == Ok([field])
    requires Fields(tail).Ok? && KnownIn(tail) == KnownOnly(fields)
    ensures Fields(chunk + tail).Ok?
    ensures KnownIn(chunk + tail) == KnownOnly([field] + fields)
  {
    KnownInConcat(chunk, tail);
    KnownOnlyConcat([field], fields);
  }

  /** Chunks that hold one field each. */
  predicate ReadAs(chunks: seq<seq<Byte>>, fields: seq<Field>) {
    |chunks| == |fields| && forall i | 0 <= i < |chunks| :: Fields(chunks[i]) == Ok([fields[i]])
  }

  lemma {:induction false} InterleavedReads(
    chunks: seq<seq<Byte>>, fields: seq<Field>, gaps: seq<seq<Byte>>)
    requires ReadAs(chunks, fields) && |gaps| == |chunks| + 1
    requires forall gap <- gaps :: Unknown(gap)
    ensures Fields(Interleaved(chunks, gaps)).Ok?
    ensures KnownIn(Interleaved(chunks, gaps)) == KnownOnly(fields)
    decreases |chunks|
  {
    assert gaps[0] in gaps;
    if chunks == [] {
      NoneKnown(Fields(gaps[0]).value);
    } else {
      var tail := Interleaved(chunks[1..], gaps[1..]);
      InterleavedReads(chunks[1..], fields[1..], gaps[1..]);
      ChunkIn(chunks[0], fields[0], tail, fields[1..]);
      UnknownIn(gaps[0], chunks[0] + tail);
      assert [fields[0]] + fields[1..] == fields;
    }
  }

  lemma {:induction false} StringsValidKnown(fields: seq<Field>)
    ensures StringsValid(fields) <==> StringsValid(KnownOnly(fields))
  {
    if fields != [] {
      StringsValidKnown(fields[1..]);
      assert fields == [fields[0]] + fields[1..];
    }
  }

  lemma {:induction false} LastKnown(fields: seq<Field>)
    ensures forall id <- {2, 3, 4, 6, 7} :: LastData(fields, id) == LastData(KnownOnly(fields), id)
    ensures LastNumber(fields, 5) == LastNumber(KnownOnly(fields), 5)
  {
    if fields != [] {
      var n := |fields| - 1;
      LastKnown(fields[..n]);
      LastSnoc(fields[..n], fields[n]);
      LastSnoc(KnownOnly(fields[..n]), fields[n]);
      assert fields == fields[..n] + [fields[n]];
      KnownOnlySnoc(fields[..n], fields[n]);
    }
  }

  lemma KnownOnlySnoc(fields: seq<Field>, f: Field)
    ensures KnownOnly(fields + [f])
         == if Known(f) then KnownOnly(fields) + [f] else KnownOnly(fields)
  {
    KnownOnlyConcat(fields, [f]);
    assert KnownOnly([f]) == if Known(f) then [f] else [];
  }

  lemma PrintedValid(m: CastMessage)
    ensures StringsValid(PrintedFields(m))
  {
  }

  lemma SixLast(f: seq<Field>)
    requires |f| == 6 && f[0].Number? && f[1].Data? && f[2].Data? && f[3].Data?
    requires f[4].Number? && f[5].Data?
    requires f[1].id == 2 && f[2].id == 3 && f[3].id == 4 && f[4].id == 5 && f[5].id in {6, 7}
    ensures LastData(f, 2) == Some(f[1].bytes) && LastData(f, 3) == Some(f[2].bytes)
    ensures LastData(f, 4) == Some(f[3].bytes) && LastNumber(f, 5) == Some(f[4].value)
    ensures LastData(f, f[5].id) == Some(f[5].bytes) && LastData(f, 13 - f[5].id) == None
  {
    LastSnoc(f[..0], f[0]); LastSnoc(f[..1], f[1]); LastSnoc(f[..2], f[2]);
    LastSnoc(f[..3], f[3]); LastSnoc(f[..4], f[4]); LastSnoc(f[..5], f[5]);
    assert f[..0] + [f[0]] == f[..1] && f[..1] + [f[1]] == f[..2] && f[..2] + [f[2]] == f[..3];
    assert f[..3] + [f[3]] == f[..4] && f[..4] + [f[4]] == f[..5] && f[..5] + [f[5]] == f;
  }

  lemma PrintedMeans(m: CastMessage)
    ensures StringsValid(PrintedFields(m)) && Finish(Merged(PrintedFields(m))) == m
  {
    PrintedValid(m);
    SixLast(PrintedFields(m));
  }

  /**
   `decode` undoes `encode`, with any well-formed unknown fields before, between and after the
   message's own.
   */
  lemma DecodeUndoesEncode(m: CastMessage, gaps: seq<seq<Byte>>)
    requires Held(m) && |gaps| == 7
    requires forall gap <- gaps :: Unknown(gap)
    ensures Decoded(Interleaved(Chunks(m), gaps)) == Ok(m)
  {
    ChunksRead(m);
    InterleavedReads(Chunks(m), PrintedFields(m), gaps);
    var fields := Fields(Interleaved(Chunks(m), gaps)).value;
    StringsValidKnown(fields);
    StringsValidKnown(PrintedFields(m));
    LastKnown(fields);
    LastKnown(PrintedFields(m));
    PrintedMeans(m);
    DecodeIsLastOneWins(Interleaved(Chunks(m), gaps));
    assert Merged(fields) == Merged(PrintedFields(m));
  }

  lemma {:induction false} InterleavedBare(chunks: seq<seq<Byte>>, gaps: seq<seq<Byte>>)
    requires |gaps| == |chunks| + 1 && forall i | 0 <= i < |gaps| :: gaps[i] == []
    ensures Interleaved(chunks, gaps) == Flatten(chunks)
    decreases |chunks|
  {
    if chunks != [] {
      assert [] + (chunks[0] + Flatten(chunks[1..])) == chunks[0] + Flatten(chunks[1..]);
      InterleavedBare(chunks[1..], gaps[1..]);
    }
  }

  lemma EncodeRoundTrip(m: CastMessage)
    requires Held(m)
    ensures Decoded(Flatten(Chunks(m))) == Ok(m)
  {
    var gaps: seq<seq<Byte>> := [[], [], [], [], [], [], []];
    assert Fields([]) == Ok([]) && Unknown([]);
    DecodeUndoesEncode(m, gaps);
    InterleavedBare(Chunks(m), gaps);
  }

  // ----- Frames -----

  function Framed(m: CastMessage): seq<Byte> {
    Be32(|Flatten(Chunks(m))| % WORD32) + Flatten(Chunks(m))
  }

  /** The length-prefixed frame that goes on the wire: the length is cast to 32 bits. */
  method Frame(m: CastMessage) returns (out: seq<Byte>)
    requires Held(m)
    ensures out == Framed(m)
  {
    var body := Encode(m);
    out := Be32(|body| % WORD32) + body;
  }
}
