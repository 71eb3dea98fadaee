/**
 Bytes, big-endian integers and the small result types every codec here shares.

 Rust's `u8` is `Byte`; a `Vec<u8>` or `&[u8]` is a `seq<Byte>`. A cast that drops high bits is
 written out with `%`.
 */
module Bytes {

  type Byte = b: int | 0 <= b < 0x100
  type U32 = n: int | 0 <= n < 0x1_0000_0000
  type U64 = n: int | 0 <= n < 0x1_0000_0000_0000_0000

  const WORD32: nat := 0x1_0000_0000
  const WORD64: nat := 0x1_0000_0000_0000_0000

  datatype Option<+T> = None | Some(value: T)

  datatype Result<+T, +E> = Ok(value: T) | Err(error: E)

  /** The parts, one after another. */
  function Flatten<T>(parts: seq<seq<T>>): seq<T> {
    if parts == [] then [] else parts[0] + Flatten(parts[1..])
  }

  lemma {:induction false} FlattenConcat<T>(a: seq<seq<T>>, b: seq<seq<T>>)
    ensures Flatten(a + b) == Flatten(a) + Flatten(b)
  {
    if a == [] {
      assert a + b == b;
    } else {
      assert (a + b)[0] == a[0] && (a + b)[1..] == a[1..] + b;
      FlattenConcat(a[1..], b);
    }
  }

  lemma FlattenLast<T>(a: seq<seq<T>>, x: seq<T>)
    ensures Flatten(a + [x]) == Flatten(a) + x
  {
    FlattenConcat(a, [x]);
    assert [x][1..] == [];
    assert Flatten([x]) == x + Flatten<T>([]);
  }

  lemma Regroup<T>(a: seq<T>, b: seq<T>, c: seq<T>)
    ensures a + (b + c) == a + b + c
  {
  }

  lemma Append<T>(a: seq<T>, x: T, b: seq<T>)
    ensures a + ([x] + b) == a + [x] + b
  {
  }

  /** The low `width` bytes of `n`, most significant first: `to_be_bytes`. */
  function Be(n: nat, width: nat): (r: seq<Byte>)
    ensures |r| == width
  {
    if width == 0 then [] else Be(n / 0x100, width - 1) + [n % 0x100]
  }

  /** The number bytes spell, most significant first: `from_be_bytes`. */
  function Num(data: seq<Byte>): nat {
    if data == [] then 0 else 0x100 * Num(data[..|data| - 1]) + data[|data| - 1] as int
  }

  /** How many numbers `width` bytes can spell. */
  function Room(width: nat): nat {
    if width == 0 then 1 else 0x100 * Room(width - 1)
  }

  lemma {:induction false} NumFits(data: seq<Byte>)
    ensures Num(data) < Room(|data|)
  {
    if data != [] {
      NumFits(data[..|data| - 1]);
    }
  }

  lemma {:induction false} BeReads(n: nat, width: nat)
    requires n < Room(width)
    ensures Num(Be(n, width)) == n
  {
    if width > 0 {
      BeReads(n / 0x100, width - 1);
      assert Be(n, width)[..width - 1] == Be(n / 0x100, width - 1);
    }
  }

  lemma Rooms()
    ensures Room(3) == 0x100_0000
    ensures Room(4) == 0x1_0000_0000
    ensures Room(8) == 0x1_0000_0000_0000_0000
  {
    assert Room(2) == 0x1_0000;
    assert Room(6) == 0x1_0000_0000_0000;
  }

  function Be32(n: U32): (r: seq<Byte>)
    ensures |r| == 4
  {
    Be(n, 4)
  }

  function Be64(n: U64): (r: seq<Byte>)
    ensures |r| == 8
  {
    Be(n, 8)
  }

  function U32At(data: seq<Byte>): U32
    requires |data| >= 4
  {
    NumFits(data[..4]); Rooms();
    Num(data[..4])
  }

  function U64At(data: seq<Byte>): U64
    requires |data| >= 8
  {
    NumFits(data[..8]); Rooms();
    Num(data[..8])
  }

  lemma Be32Reads(n: U32, rest: seq<Byte>)
    ensures U32At(Be32(n) + rest) == n
    ensures (Be32(n) + rest)[4..] == rest
  {
    Rooms();
    BeReads(n, 4);
    assert (Be32(n) + rest)[..4] == Be32(n);
  }

  lemma Be64Reads(n: U64, rest: seq<Byte>)
    ensures U64At(Be64(n) + rest) == n
    ensures (Be64(n) + rest)[8..] == rest
  {
    Rooms();
    BeReads(n, 8);
    assert (Be64(n) + rest)[..8] == Be64(n);
  }
}
