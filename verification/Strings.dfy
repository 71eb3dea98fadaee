/**
 The string operations of Rust's standard library that the relay, the playlists and the subtitles
 are made of, over Unicode characters, and UTF-8.
 */
module Strings {
  import opened Bytes

  // ----- White space and lines -----

  /** The ranges of Unicode's White_Space, in order. */
  function WhiteRange(k: nat): (nat, nat) {
    if k == 0 then (0x09, 0x0D)
    else if k == 1 then (0x20, 0x20)
    else if k == 2 then (0x85, 0x85)
    else if k == 3 then (0xA0, 0xA0)
    else if k == 4 then (0x1680, 0x1680)
    else if k == 5 then (0x2000, 0x200A)
    else if k == 6 then (0x2028, 0x2029)
    else if k == 7 then (0x202F, 0x202F)
    else if k == 8 then (0x205F, 0x205F)
    else (0x3000, 0x3000)
  }

  predicate WhiteFrom(n: nat, k: nat)
    decreases 10 - k
  {
    k < 10 && (WhiteRange(k).0 <= n <= WhiteRange(k).1 || WhiteFrom(n, k + 1))
  }

  /** `char::is_whitespace`. */
  predicate IsWhite(c: char) { WhiteFrom(c as int, 0) }

  lemma {:induction false} NotWhiteFrom(n: nat, k: nat)
    requires 0x21 <= n <= 0x7E
    ensures !WhiteFrom(n, k)
    decreases 10 - k
  {
    if k < 10 {
      NotWhiteFrom(n, k + 1);
    }
  }

  lemma GraphicIsNotWhite(c: char)
    requires '!' <= c <= '~'
    ensures !IsWhite(c) && c != '\n'
  {
    NotWhiteFrom(c as int, 0);
  }

  function TrimStart(s: string): (r: string)
    ensures |r| <= |s| && r == s[|s| - |r|..]
    ensures r != [] ==> !IsWhite(r[0])
  {
    if s != [] && IsWhite(s[0]) then TrimStart(s[1..]) else s
  }

  function TrimEnd(s: string): (r: string)
    ensures |r| <= |s| && r == s[..|r|]
    ensures r != [] ==> !IsWhite(r[|r| - 1])
  {
    if s != [] && IsWhite(s[|s| - 1]) then TrimEnd(s[..|s| - 1]) else s
  }

  function Trim(s: string): string { TrimEnd(TrimStart(s)) }

  /** Neither begins nor ends with white space. */
  predicate Trimmed(s: string) {
    s != [] ==> !IsWhite(s[0]) && !IsWhite(s[|s| - 1])
  }

  lemma TrimTrims(s: string)
    ensures Trimmed(Trim(s))
    ensures forall c <- Trim(s) :: c in s
  {
  }

  lemma TrimmedStays(s: string)
    requires Trimmed(s)
    ensures Trim(s) == s
  {
  }

  /** What stands before the first `c`, and whether and what stands after it. */
  function SplitOnce(s: string, c: char): (r: (string, Option<string>))
    ensures c !in r.0 && s == r.0 + (match r.1 case None => [] case Some(tail) => [c] + tail)
    ensures |r.0| <= |s| && (r.1.Some? ==> |r.1.value| < |s|)
  {
    if s == [] then ([], None)
    else if s[0] == c then ([], Some(s[1..]))
    else
      var (head, tail) := SplitOnce(s[1..], c);
      ([s[0]] + head, tail)
  }

  lemma {:induction false} SplitsAt(head: string, c: char, tail: string)
    requires c !in head
    ensures SplitOnce(head + [c] + tail, c) == (head, Some(tail))
  {
    if head == [] {
      assert [] + [c] + tail == [c] + tail;
    } else {
      SplitsAt(head[1..], c, tail);
      assert (head + [c] + tail)[1..] == head[1..] + [c] + tail;
      assert [head[0]] + head[1..] == head;
    }
  }

  lemma {:induction false} SplitsNowhere(s: string, c: char)
    requires c !in s
    ensures SplitOnce(s, c) == (s, None)
  {
    if s != [] {
      SplitsNowhere(s[1..], c);
      assert [s[0]] + s[1..] == s;
    }
  }

  /** `lines`, but for the carriage return a line may end with, which trimming takes off. */
  function Lines(text: string): seq<string>
    decreases |text|
  {
    if text == [] then []
    else
      match SplitOnce(text, '\n')
      case (line, None) => [line]
      case (line, Some(rest)) => [line] + Lines(rest)
  }

  /** Each line trimmed. */
  function TrimmedLines(text: string): seq<string> { TrimAll(Lines(text)) }

  function TrimAll(lines: seq<string>): (r: seq<string>)
    ensures |r| == |lines| && forall i | 0 <= i < |r| :: r[i] == Trim(lines[i])
  {
    seq(|lines|, i requires 0 <= i < |lines| => Trim(lines[i]))
  }

  /** Each line, and a line feed. */
  function Unlines(lines: seq<string>): string {
    if lines == [] then [] else lines[0] + "\n" + Unlines(lines[1..])
  }

  lemma {:induction false} LinesOfUnlines(lines: seq<string>)
    requires forall line <- lines :: '\n' !in line
    ensures Lines(Unlines(lines)) == lines
  {
    if lines != [] {
      assert lines[0] in lines;
      LinesOfUnlines(lines[1..]);
      SplitsAt(lines[0], '\n', Unlines(lines[1..]));
      assert [lines[0]] + lines[1..] == lines;
    }
  }

  lemma {:induction false} LinesHoldNoFeed(text: string)
    ensures forall line <- Lines(text) :: '\n' !in line
    decreases |text|
  {
    if text != [] && SplitOnce(text, '\n').1.Some? {
      LinesHoldNoFeed(SplitOnce(text, '\n').1.value);
    }
  }

  lemma TrimAllTrims(lines: seq<string>)
    requires forall line <- lines :: '\n' !in line
    ensures forall line <- TrimAll(lines) :: Trimmed(line) && '\n' !in line
  {
    forall i | 0 <= i < |lines| ensures Trimmed(TrimAll(lines)[i]) && '\n' !in TrimAll(lines)[i] {
      assert lines[i] in lines;
      TrimTrims(lines[i]);
    }
  }

  lemma TrimAllStays(lines: seq<string>)
    requires forall line <- lines :: Trimmed(line)
    ensures TrimAll(lines) == lines
  {
    forall i | 0 <= i < |lines| ensures TrimAll(lines)[i] == lines[i] {
      assert lines[i] in lines;
      TrimmedStays(lines[i]);
    }
  }

  // ----- Finding -----

  predicate StartsWith(s: string, prefix: string) { |prefix| <= |s| && s[..|prefix|] == prefix }

  predicate Begins(s: string, c: char) { s != [] && s[0] == c }

  /** `strip_prefix`. */
  function StripPrefix(s: string, prefix: string): Option<string> {
    if StartsWith(s, prefix) then Some(s[|prefix|..]) else None
  }

  /** The first place `what` stands at. */
  function Find(s: string, what: string): (r: Option<nat>)
    ensures r.Some? ==> r.value + |what| <= |s| && s[r.value..r.value + |what|] == what
    decreases |s|
  {
    if StartsWith(s, what) then Some(0)
    else if s == [] then None
    else
      match Find(s[1..], what)
      case None => None
      case Some(i) => Some(i + 1)
  }

  /** Whether `what` stands in `s` somewhere. */
  predicate Contains(s: string, what: string) { Find(s, what).Some? }

  lemma {:induction false} FindIsFirst(s: string, what: string, i: nat)
    requires i + |what| <= |s| && s[i..i + |what|] == what
    ensures Find(s, what).Some? && Find(s, what).value <= i
    decreases |s|
  {
    if !StartsWith(s, what) {
      assert i > 0;
      assert s[1..][i - 1..i - 1 + |what|] == what;
      FindIsFirst(s[1..], what, i - 1);
    }
  }

  function Lower(c: char): char { if 'A' <= c <= 'Z' then c - 'A' + 'a' else c }

  /** `to_ascii_lowercase`. */
  function Lowered(s: string): (r: string)
    ensures |r| == |s|
  {
    if s == [] then [] else [Lower(s[0])] + Lowered(s[1..])
  }

  lemma {:induction false} LoweredTwice(s: string)
    ensures Lowered(Lowered(s)) == Lowered(s)
  {
    if s != [] {
      LoweredTwice(s[1..]);
      assert ([Lower(s[0])] + Lowered(s[1..]))[1..] == Lowered(s[1..]);
    }
  }

  // ----- Numbers -----

  predicate IsDigit(c: char) { '0' <= c <= '9' }

  /** The number decimal digits spell; none for anything else. */
  function Decimal(s: string): Option<nat>
    decreases |s|
  {
    if s == [] then None
    else if !IsDigit(s[|s| - 1]) then None
    else
      var digit := s[|s| - 1] as int - '0' as int;
      if |s| == 1 then Some(digit)
      else
        match Decimal(s[..|s| - 1])
        case None => None
        case Some(n) => Some(10 * n + digit)
  }

  /** `parse` to an unsigned number below `room`: a plus sign may stand before it. */
  function Parse(s: string, room: nat): Option<nat> {
    match Decimal(if s != [] && s[0] == '+' then s[1..] else s)
    case None => None
    case Some(n) => if n < room then Some(n) else None
  }

  // ----- UTF-8 -----

  /** A character's bytes. */
  function CharBytes(c: char): (r: seq<Byte>)
    ensures 1 <= |r| <= 4
  {
    var n := c as int;
    if n < 0x80 then [n]
    else if n < 0x800 then [0xC0 + n / 0x40, 0x80 + n % 0x40]
    else if n < 0x1_0000 then [0xE0 + n / 0x1000, 0x80 + n / 0x40 % 0x40, 0x80 + n % 0x40]
    else [0xF0 + n / 0x4_0000, 0x80 + n / 0x1000 % 0x40, 0x80 + n / 0x40 % 0x40, 0x80 + n % 0x40]
  }

  function Utf8(s: string): seq<Byte> {
    if s == [] then [] else CharBytes(s[0]) + Utf8(s[1..])
  }

  /** How many bytes a character that begins so has, and the value bits of its first. */
  function CharHead(first: Byte): (nat, nat) {
    if first < 0x80 then (1, first)
    else if 0xC0 <= first < 0xE0 then (2, first - 0xC0)
    else if 0xE0 <= first < 0xF0 then (3, first - 0xE0)
    else if 0xF0 <= first < 0xF8 then (4, first - 0xF0)
    else (0, 0)
  }

  /** Six value bits for each byte that goes on. */
  function Continue(n: nat, rest: seq<Byte>): nat
    decreases |rest|
  {
    if rest == [] then n
    else Continue(0x40 * n + (if rest[0] >= 0x80 then (rest[0] - 0x80) % 0x40 else 0), rest[1..])
  }

  predicate IsScalar(n: nat) { n < 0xD800 || 0xE000 <= n < 0x11_0000 }

  /** A character's bytes read back, the bytes it would be printed as; none that are not. */
  function CharAt(data: seq<Byte>): (r: Option<(char, nat)>)
    ensures r.Some? ==> 1 <= r.value.1 <= |data| && CharBytes(r.value.0) == data[..r.value.1]
  {
    if data == [] then None
    else
      var (length, bits) := CharHead(data[0]);
      if length == 0 || |data| < length then None
      else
        var n := Continue(bits, data[1..length]);
        if !IsScalar(n) then None
        else
          var c := n as char;
          if CharBytes(c) == data[..length] then Some((c, length)) else None
  }

  function FromUtf8(data: seq<Byte>): Option<string>
    decreases |data|
  {
    if data == [] then Some([])
    else
      match CharAt(data)
      case None => None
      case Some((c, length)) =>
        match FromUtf8(data[length..])
        case None => None
        case Some(more) => Some([c] + more)
  }

  // ----- Bytes that are no UTF-8 -----

  /** How many bytes a character has that may begin so; 0 for none. */
  function Width(first: Byte): nat {
    if first < 0x80 then 1
    else if 0xC2 <= first < 0xE0 then 2
    else if 0xE0 <= first < 0xF0 then 3
    else if 0xF0 <= first < 0xF5 then 4
    else 0
  }

  predicate GoesOn(b: Byte) { 0x80 <= b < 0xC0 }

  /** Whether `second` may follow `first`: no over-long form, no surrogate, nothing past the last. */
  predicate Follows(first: Byte, second: Byte) {
    && GoesOn(second)
    && (first == 0xE0 ==> 0xA0 <= second)
    && (first == 0xED ==> second < 0xA0)
    && (first == 0xF0 ==> 0x90 <= second)
    && (first == 0xF4 ==> second < 0x90)
  }

  /** How many bytes that begin no character one replacement stands for: as far as one could go. */
  function Broken(data: seq<Byte>): (n: nat)
    requires data != []
    ensures 1 <= n <= |data|
  {
    if |data| < 2 || Width(data[0]) < 3 || !Follows(data[0], data[1]) then 1
    else if Width(data[0]) == 3 || |data| < 3 || !GoesOn(data[2]) then 2
    else 3
  }

  const REPLACEMENT := '\U{FFFD}'

  /** `from_utf8_lossy`. */
  function Lossy(data: seq<Byte>): string
    decreases |data|
  {
    if data == [] then []
    else
      match CharAt(data)
      case Some((c, length)) => [c] + Lossy(data[length..])
      case None => [REPLACEMENT] + Lossy(data[Broken(data)..])
  }

  /** What is UTF-8 is read as it is. */
  lemma {:induction false} LossyReads(data: seq<Byte>)
    requires FromUtf8(data).Some?
    ensures Lossy(data) == FromUtf8(data).value
    decreases |data|
  {
    if data != [] {
      LossyReads(data[CharAt(data).value.1..]);
    }
  }

  lemma ContinueOne(n: nat, a: Byte)
    requires 0x80 <= a < 0xC0
    ensures Continue(n, [a]) == 0x40 * n + a - 0x80
  {
    assert [a][1..] == [];
  }

  lemma ContinueMore(n: nat, a: Byte, rest: seq<Byte>)
    requires 0x80 <= a < 0xC0
    ensures Continue(n, [a] + rest) == Continue(0x40 * n + a - 0x80, rest)
  {
    assert ([a] + rest)[1..] == rest;
  }

  lemma TwoBytes(n: nat)
    ensures Continue(n / 0x40, [0x80 + n % 0x40]) == n
  {
    ContinueOne(n / 0x40, 0x80 + n % 0x40);
  }

  lemma ThreeBytes(n: nat)
    ensures Continue(n / 0x1000, [0x80 + n / 0x40 % 0x40, 0x80 + n % 0x40]) == n
  {
    var a, b: Byte := 0x80 + n / 0x40 % 0x40, 0x80 + n % 0x40;
    assert [a, b] == [a] + [b];
    ContinueMore(n / 0x1000, a, [b]);
    assert n / 0x1000 == n / 0x40 / 0x40;
    TwoBytes(n);
  }

  lemma FourBytes(n: nat)
    ensures Continue(n / 0x4_0000, [0x80 + n / 0x1000 % 0x40, 0x80 + n / 0x40 % 0x40, 0x80 + n % 0x40]) == n
  {
    var a, b, c: Byte := 0x80 + n / 0x1000 % 0x40, 0x80 + n / 0x40 % 0x40, 0x80 + n % 0x40;
    assert [a, b, c] == [a] + [b, c];
    ContinueMore(n / 0x4_0000, a, [b, c]);
    assert n / 0x4_0000 == n / 0x1000 / 0x40;
    ThreeBytes(n);
  }

  lemma CharAtIs(data: seq<Byte>, c: char, length: nat, bits: nat)
    requires data != [] && CharHead(data[0]) == (length, bits) && 1 <= length <= |data|
    requires Continue(bits, data[1..length]) == c as int && CharBytes(c) == data[..length]
    ensures CharAt(data) == Some((c, length))
  {
  }

  lemma CharReads(c: char, rest: seq<Byte>)
    ensures CharAt(CharBytes(c) + rest) == Some((c, |CharBytes(c)|))
  {
    var n, bytes := c as int, CharBytes(c);
    var data := bytes + rest;
    assert data[..|bytes|] == bytes && data[1..|bytes|] == bytes[1..];
    if n < 0x80 {
      CharAtIs(data, c, 1, n);
    } else if n < 0x800 {
      TwoBytes(n);
      CharAtIs(data, c, 2, n / 0x40);
    } else if n < 0x1_0000 {
      ThreeBytes(n);
      CharAtIs(data, c, 3, n / 0x1000);
    } else {
      FourBytes(n);
      CharAtIs(data, c, 4, n / 0x4_0000);
    }
  }

  lemma {:induction false} Utf8Reads(s: string)
    ensures FromUtf8(Utf8(s)) == Some(s)
  {
    if s != [] {
      CharReads(s[0], Utf8(s[1..]));
      Utf8Reads(s[1..]);
      assert (CharBytes(s[0]) + Utf8(s[1..]))[|CharBytes(s[0])|..] == Utf8(s[1..]);
      assert [s[0]] + s[1..] == s;
    }
  }
}
