/**
 The relay's addresses (crates/anistream-cast/src/relay.rs): percent-encoding, the way of a request,
 and the origins the relay may fetch from. Serving bodies is not part of this model.
 */
module Relay {
  import opened Bytes
  import opened Strings
  import opened Playlist

  // ----- Percent-encoding -----

  /** Left as it is: letters, digits, and `-`, `_`, `.`, `~` (section 2.3 of RFC 3986). */
  predicate Unreserved(b: Byte) {
    || 0x41 <= b <= 0x5A || 0x61 <= b <= 0x7A || 0x30 <= b <= 0x39
    || b == 0x2D || b == 0x5F || b == 0x2E || b == 0x7E
  }

  function HexDigit(n: nat): char
    requires n < 16
  {
    if n < 10 then '0' + n as char else 'A' + (n - 10) as char
  }

  function EncodeByte(b: Byte): string {
    if Unreserved(b) then [b as char] else ['%', HexDigit(b / 16), HexDigit(b % 16)]
  }

  function EncodeBytes(data: seq<Byte>): string {
    if data == [] then [] else EncodeByte(data[0]) + EncodeBytes(data[1..])
  }

  /** `encode`. */
  function Encode(url: string): string { EncodeBytes(Utf8(url)) }

  function HexValue(b: Byte): Option<nat> {
    if 0x30 <= b <= 0x39 then Some(b - 0x30)
    else if 0x41 <= b <= 0x46 then Some(b - 0x41 + 10)
    else if 0x61 <= b <= 0x66 then Some(b - 0x61 + 10)
    else None
  }

  /** `from_str_radix` of two characters in base 16: the first may be a plus sign. */
  function HexPair(a: Byte, b: Byte): Option<Byte> {
    match (HexValue(a), HexValue(b))
    case (Some(x), Some(y)) => Some(16 * x + y)
    case (None, Some(y)) => if a == 0x2B then Some(y) else None
    case _ => None
  }

  /** An address's bytes with the escapes replaced. */
  function DecodeBytes(data: seq<Byte>): seq<Byte>
    decreases |data|
  {
    if data == [] then []
    else if data[0] == 0x25 && |data| >= 3 && HexPair(data[1], data[2]).Some? then
      [HexPair(data[1], data[2]).value] + DecodeBytes(data[3..])
    else [data[0]] + DecodeBytes(data[1..])
  }

  method Percent(url: string) returns (out: string)
    ensures out == Encode(url)
  {
    out := [];
    var data := Utf8(url);
    ghost var want := Encode(url);
    assert [] + want == want && data[0..] == data;
    for i := 0 to |data|
      invariant want == out + EncodeBytes(data[i..])
    {
      var b := data[i];
      assert data[i..][1..] == data[i + 1..];
      Regroup(out, EncodeByte(b), EncodeBytes(data[i + 1..]));
      if Unreserved(b) {
        out := out + [b as char];
      } else {
        out := out + ['%', HexDigit(b / 16), HexDigit(b % 16)];
      }
    }
    assert out + [] == out;
  }

  /** `decode`: the escapes replaced, and then what is no UTF-8. */
  function Decode(encoded: string): string { Lossy(DecodeBytes(Utf8(encoded))) }

  method Unpercent(encoded: string) returns (url: string)
    ensures url == Decode(encoded)
  {
    var out: seq<Byte> := [];
    var data, i := Utf8(encoded), 0;
    ghost var want := DecodeBytes(data);
    assert [] + want == want && data[0..] == data;
    while i < |data|
      invariant 0 <= i <= |data| && want == out + DecodeBytes(data[i..])
    {
      var byte: Byte, step := data[i], 1;
      if data[i] == 0x25 && i + 3 <= |data| && HexPair(data[i + 1], data[i + 2]).Some? {
        byte, step := HexPair(data[i + 1], data[i + 2]).value, 3;
      }
      assert data[i..][step..] == data[i + step..];
      Regroup(out, [byte], DecodeBytes(data[i + step..]));
      out := out + [byte];
      i := i + step;
    }
    assert out + [] == out;
    url := Lossy(out);
  }

  lemma {:induction false} Utf8Concat(a: string, b: string)
    ensures Utf8(a + b) == Utf8(a) + Utf8(b)
  {
    if a == [] {
      assert a + b == b;
    } else {
      Utf8Concat(a[1..], b);
      assert (a + b)[1..] == a[1..] + b;
      Regroup(CharBytes(a[0]), Utf8(a[1..]), Utf8(b));
    }
  }

  lemma AsciiOne(c: char)
    requires c as int < 0x80
    ensures Utf8([c]) == [c as int as Byte]
  {
    assert [c][1..] == [];
  }

  lemma HexReads(n: nat)
    requires n < 16
    ensures HexDigit(n) as int < 0x80 && HexValue(HexDigit(n) as int) == Some(n)
  {
  }

  lemma EncodedByte(b: Byte)
    ensures Utf8(EncodeByte(b))
         == if Unreserved(b) then [b] else [0x25, HexDigit(b / 16) as int, HexDigit(b % 16) as int]
  {
    if Unreserved(b) {
      AsciiOne(b as char);
    } else {
      var x, y := HexDigit(b / 16), HexDigit(b % 16);
      HexReads(b / 16);
      HexReads(b % 16);
      AsciiOne('%');
      AsciiOne(x);
      AsciiOne(y);
      assert ['%', x, y] == ['%'] + ([x] + [y]);
      Utf8Concat(['%'], [x] + [y]);
      Utf8Concat([x], [y]);
    }
  }

  lemma DecodesOne(b: Byte, rest: seq<Byte>)
    ensures DecodeBytes(Utf8(EncodeByte(b)) + rest) == [b] + DecodeBytes(rest)
  {
    var own := Utf8(EncodeByte(b));
    EncodedByte(b);
    HexReads(b / 16);
    HexReads(b % 16);
    assert (own + rest)[|own|..] == rest;
  }

  /** Decoding undoes encoding, whatever the bytes. */
  lemma {:induction false} BytesDecodeBack(data: seq<Byte>)
    ensures DecodeBytes(Utf8(EncodeBytes(data))) == data
  {
    if data != [] {
      var rest := EncodeBytes(data[1..]);
      Utf8Concat(EncodeByte(data[0]), rest);
      DecodesOne(data[0], Utf8(rest));
      BytesDecodeBack(data[1..]);
      assert [data[0]] + data[1..] == data;
    }
  }

  /** Decoding an encoded address gives the address. */
  lemma DecodeUndoesEncode(url: string)
    ensures Decode(Encode(url)) == url
  {
    BytesDecodeBack(Utf8(url));
    Utf8Reads(url);
    LossyReads(Utf8(url));
  }

  /** Neither white space nor a control character: the printable ones of ASCII. */
  predicate Graphic(s: string) { forall c <- s :: '!' <= c <= '~' }

  lemma {:induction false} EncodedIsGraphic(data: seq<Byte>)
    ensures Graphic(EncodeBytes(data)) && '?' !in EncodeBytes(data) && '/' !in EncodeBytes(data)
  {
    if data != [] {
      EncodedIsGraphic(data[1..]);
      OneIsGraphic(data[0]);
    }
  }

  lemma OneIsGraphic(b: Byte)
    ensures Graphic(EncodeByte(b)) && '?' !in EncodeByte(b) && '/' !in EncodeByte(b)
  {
    if !Unreserved(b) {
      HexIsGraphic(b / 16);
      HexIsGraphic(b % 16);
    }
  }

  lemma HexIsGraphic(n: nat)
    requires n < 16
    ensures '0' <= HexDigit(n) <= 'F' && HexDigit(n) != '?'
  {
  }

  // ----- The way of a request -----

  datatype Way =
    | NotFound
    | Preflight
    | BadMethod
    | Kept(id: string)
    | SharedFile(id: string)
    | Upstream(url: string)
    | Dynamic(path: string)

  /** What stands behind the token, before any query. */
  function Behind(target: string, token: string): Option<string> {
    match StripPrefix(SplitOnce(target, '?').0, "/")
    case None => None
    case Some(t) =>
      match StripPrefix(t, token)
      case None => None
      case Some(u) => StripPrefix(u, "/")
  }

  /** Where `answer` sends a request: by its method, and its target behind the token. */
  function Route(method': string, target: string, token: string): Way {
    match Behind(target, token)
    case None => NotFound
    case Some(rest) => RouteBehind(method', rest)
  }

  function RouteBehind(method': string, rest: string): Way {
    if method' == "OPTIONS" then Preflight
    else if method' != "GET" && method' != "HEAD" then BadMethod
    else if StartsWith(rest, "b/") then Kept(SplitOnce(rest[2..], '/').0)
    else if StartsWith(rest, "s/") then SharedFile(SplitOnce(rest[2..], '/').0)
    else if StartsWith(rest, "u/") then Upstream(Decode(rest[2..]))
    else if StartsWith(rest, "x/") then Dynamic(rest[2..])
    else NotFound
  }

  /** The target of an address the relay handed out, when nothing or a query follows it. */
  function Target(token: string, path: string, query: Option<string>): string {
    "/" + (token + ("/" + path)) + (if query.Some? then ['?'] + query.value else [])
  }

  lemma Strips(prefix: string, rest: string)
    ensures StripPrefix(prefix + rest, prefix) == Some(rest)
  {
    assert (prefix + rest)[..|prefix|] == prefix && (prefix + rest)[|prefix|..] == rest;
  }

  /** A handed address's target leads behind the token, its query dropped. */
  lemma LeadsBehind(token: string, path: string, query: Option<string>)
    requires '?' !in token && '?' !in path
    ensures Behind(Target(token, path, query), token) == Some(path)
  {
    var whole := "/" + (token + ("/" + path));
    assert '?' !in whole;
    if query.Some? {
      SplitsAt(whole, '?', query.value);
      assert Target(token, path, query) == whole + ['?'] + query.value;
    } else {
      SplitsNowhere(whole, '?');
      assert Target(token, path, query) == whole;
    }
    Strips("/", token + ("/" + path));
    Strips(token, "/" + path);
    Strips("/", path);
  }

  predicate Fetches(method': string) { method' == "GET" || method' == "HEAD" }

  /** A path in one of the relay's four rooms. */
  lemma InRoom(room: string, path: string)
    requires |room| == 2
    ensures (room + path)[2..] == path
    ensures forall other: string | |other| == 2 :: StartsWith(room + path, other) <==> other == room
  {
    assert (room + path)[..2] == room;
  }

  lemma InUpstreamRoom(method': string, coded: string)
    requires Fetches(method')
    ensures RouteBehind(method', "u/" + coded) == Upstream(Decode(coded))
  {
    InRoom("u/", coded);
  }

  /**
   Every address handed out for another leads back to it: through the query's split, the token, the
   room and the decoding, whatever the address.
   */
  lemma UpstreamLeadsBack(method': string, token: string, url: string, query: Option<string>)
    requires '?' !in token && Fetches(method')
    ensures Route(method', Target(token, "u/" + Encode(url), query), token) == Upstream(url)
  {
    EncodedIsGraphic(Utf8(url));
    LeadsBehind(token, "u/" + Encode(url), query);
    InUpstreamRoom(method', Encode(url));
    DecodeUndoesEncode(url);
  }

  /** A file's address and a clip's lead to what was shared, whatever they are called. */
  lemma SharedLeadsBack(
    method': string, token: string, id: string, name: string, query: Option<string>)
    requires '?' !in token && Fetches(method') && '?' !in id && '/' !in id
    ensures Route(method', Target(token, "s/" + (id + "/" + Encode(name)), query), token) == SharedFile(id)
    ensures Route(method', Target(token, "b/" + (id + "/" + Encode(name)), query), token) == Kept(id)
  {
    var path := id + "/" + Encode(name);
    EncodedIsGraphic(Utf8(name));
    SplitsAt(id, '/', Encode(name));
    assert path == id + ['/'] + Encode(name);
    LeadsBehind(token, "s/" + path, query);
    InRoom("s/", path);
    LeadsBehind(token, "b/" + path, query);
    InRoom("b/", path);
  }

  // ----- The origins -----

  /** What stands before the first of these characters. */
  function UpTo(s: string, stops: string): string {
    if s == [] || s[0] in stops then [] else [s[0]] + UpTo(s[1..], stops)
  }

  /** `scheme://authority` of an address with a scheme. */
  function Origin(url: string): (r: Option<string>)
    ensures r.Some? <==> Contains(url, SCHEME)
  {
    match Find(url, SCHEME)
    case None => None
    case Some(i) => Some(Lowered(url[..i]) + SCHEME + Lowered(UpTo(url[i + 3..], "/?#")))
  }

  /** The addresses a line's rewriting hands to the proxy. */
  function HandedBy(line: string, base: string): seq<string> {
    if line == [] then []
    else if line[0] != '#' then [Resolve(base, line)]
    else
      match UriSpan(line)
      case None => []
      case Some((from, to)) => [Resolve(base, line[from..to])]
  }

  function Handed(lines: seq<string>, base: string): seq<string> {
    if lines == [] then [] else HandedBy(lines[0], base) + Handed(lines[1..], base)
  }

  /** These are all: a rewriting depends on the proxy at them alone. */
  lemma {:induction false} RewritingHandsThese(
    lines: seq<string>, base: string, p: string -> string, q: string -> string)
    requires forall url <- Handed(lines, base) :: p(url) == q(url)
    ensures RewriteLines(lines, base, p) == RewriteLines(lines, base, q)
  {
    if lines != [] {
      var line, rest := lines[0], Handed(lines[1..], base);
      assert forall url <- HandedBy(line, base) :: url in HandedBy(line, base) + rest;
      assert forall url <- rest :: url in HandedBy(line, base) + rest;
      if line != [] && line[0] != '#' {
        assert Resolve(base, line) in HandedBy(line, base);
      } else if line != [] && UriSpan(line).Some? {
        var (from, to) := UriSpan(line).value;
        assert Resolve(base, line[from..to]) in HandedBy(line, base);
      }
      RewritingHandsThese(lines[1..], base, p, q);
    }
  }

  function OriginsOf(urls: seq<string>): set<string> {
    set url <- urls | Origin(url).Some? :: Origin(url).value
  }

  /** The relay's own address of another. */
  function Proxy(host: string, token: string): string -> string {
    (url: string) => "http://" + host + "/" + token + "/u/" + Encode(url)
  }

  predicate MayFetch(origins: set<string>, url: string) {
    Origin(url).Some? && Origin(url).value in origins
  }

  class Relay {
    const host: string
    const token: string
    var origins: set<string>
    var files: map<string, string>
    var kept: set<string>

    constructor (host: string, token: string)
      ensures this.host == host && this.token == token
      ensures origins == {} && files == map[] && kept == {}
    {
      this.host, this.token := host, token;
      origins, files, kept := {}, map[], {};
    }

    /** An address that fetches `upstream`; its origin is allowed from now. */
    method UpstreamUrl(upstream: string) returns (url: string)
      modifies this`origins
      ensures url == Proxy(host, token)(upstream)
      ensures origins == old(origins) + OriginsOf([upstream])
    {
      var origin := Origin(upstream);
      if origin.Some? {
        origins := origins + {origin.value};
      }
      var encoded := Percent(upstream);
      url := "http://" + host + "/" + token + "/u/" + encoded;
    }

    method ShareFile(id: string, path: string, name: string) returns (url: string)
      modifies this`files
      ensures files == old(files)[id := path]
      ensures url == "http://" + host + "/" + token + "/s/" + id + "/" + Encode(name)
    {
      files := files[id := path];
      var encoded := Percent(name);
      url := "http://" + host + "/" + token + "/s/" + id + "/" + encoded;
    }

    method ShareBytes(id: string, name: string) returns (url: string)
      modifies this`kept
      ensures kept == old(kept) + {id}
      ensures url == "http://" + host + "/" + token + "/b/" + id + "/" + Encode(name)
    {
      kept := kept + {id};
      var encoded := Percent(name);
      url := "http://" + host + "/" + token + "/b/" + id + "/" + encoded;
    }

    /** A playlist fetched from `base`, rewritten; the origins of its addresses are allowed. */
    method ServePlaylist(text: string, base: string) returns (out: string)
      modifies this`origins
      ensures out == Rewritten(text, base, Proxy(host, token))
      ensures origins == old(origins) + OriginsOf(Handed(TrimmedLines(text), base))
    {
      out := RewritePlaylist(text, base, Proxy(host, token));
      origins := origins + OriginsOf(Handed(TrimmedLines(text), base));
    }

    /** Whether a request's address may be fetched. */
    method Allowed(url: string) returns (yes: bool)
      ensures yes <==> MayFetch(origins, url)
    {
      var origin := Origin(url);
      yes := origin.Some? && origin.value in origins;
    }

    /** Close: what was shared is forgotten. */
    method Close()
      modifies this
      ensures origins == {} && files == map[] && kept == {}
    {
      origins, files, kept := {}, map[], {};
    }
  }

  // ----- Handed addresses stay allowed -----

  /** What happens at a relay that changes what it may fetch, or does not. */
  datatype Step = Hands(url: string) | Serves(text: string, base: string) | Others | Closes

  /** The addresses a step hands out. */
  function HandedOut(step: Step): seq<string> {
    match step
    case Hands(url) => [url]
    case Serves(text, base) => Handed(TrimmedLines(text), base)
    case Others => []
    case Closes => []
  }

  function After(origins: set<string>, step: Step): set<string> {
    if step == Closes then {} else origins + OriginsOf(HandedOut(step))
  }

  function AfterAll(origins: set<string>, steps: seq<Step>): set<string>
    decreases |steps|
  {
    if steps == [] then origins else AfterAll(After(origins, steps[0]), steps[1..])
  }

  lemma {:induction false} StaysAllowed(origins: set<string>, steps: seq<Step>, url: string)
    requires MayFetch(origins, url) && Closes !in steps
    ensures MayFetch(AfterAll(origins, steps), url)
    decreases |steps|
  {
    if steps != [] {
      assert steps[0] in steps;
      StaysAllowed(After(origins, steps[0]), steps[1..], url);
    }
  }

  /** An address with a scheme, once handed out, may be fetched until the relay closes. */
  lemma HandedStaysAllowed(origins: set<string>, url: string, later: seq<Step>)
    requires Contains(url, SCHEME) && Closes !in later
    ensures MayFetch(AfterAll(After(origins, Hands(url)), later), url)
  {
    assert Origin(url).value in OriginsOf([url]) by { assert url in [url]; }
    StaysAllowed(After(origins, Hands(url)), later, url);
  }

  lemma {:induction false} HandedHaveSchemes(lines: seq<string>, base: string)
    requires Contains(SplitOnce(base, '?').0, SCHEME)
    ensures forall url <- Handed(lines, base) :: Contains(url, SCHEME)
  {
    if lines != [] {
      HandedHaveSchemes(lines[1..], base);
      var line := lines[0];
      if line != [] && line[0] != '#' {
        ResolvedHasScheme(base, line);
      } else if line != [] && UriSpan(line).Some? {
        var (from, to) := UriSpan(line).value;
        ResolvedHasScheme(base, line[from..to]);
      }
    }
  }

  /**
   Every address of a playlist served leads back too: each has a scheme, and may be fetched until
   the relay closes.
   */
  lemma ServedStaysAllowed(
    origins: set<string>, text: string, base: string, url: string, later: seq<Step>)
    requires Contains(SplitOnce(base, '?').0, SCHEME) && Closes !in later
    requires url in Handed(TrimmedLines(text), base)
    ensures MayFetch(AfterAll(After(origins, Serves(text, base)), later), url)
  {
    HandedHaveSchemes(TrimmedLines(text), base);
    StaysAllowed(After(origins, Serves(text, base)), later, url);
  }

  /** The relay's address of another is its host and that one's target. */
  lemma ProxyIsTarget(host: string, token: string, url: string)
    ensures Proxy(host, token)(url) == "http://" + host + Target(token, "u/" + Encode(url), None)
  {
    assert "http://" + host + "/" + token + "/u/" + Encode(url)
        == "http://" + host + ("/" + (token + ("/" + ("u/" + Encode(url)))) + []);
  }

  /** A request for the relay's address of `url`, a query behind it or not, fetches `url`. */
  ghost predicate LeadsTo(
    host: string, token: string, address: string, url: string, origins: set<string>)
  {
    && address == "http://" + host + Target(token, "u/" + Encode(url), None)
    && (forall query: Option<string>, method': string | Fetches(method') ::
          Route(method', Target(token, "u/" + Encode(url), query), token) == Upstream(url))
    && MayFetch(origins, url)
  }

  lemma LeadsThere(host: string, token: string, url: string, origins: set<string>)
    requires '?' !in token && MayFetch(origins, url)
    ensures LeadsTo(host, token, Proxy(host, token)(url), url, origins)
  {
    ProxyIsTarget(host, token, url);
    forall query: Option<string>, method': string | Fetches(method')
      ensures Route(method', Target(token, "u/" + Encode(url), query), token) == Upstream(url)
    {
      UpstreamLeadsBack(method', token, url, query);
    }
  }

  /** Every address handed out for one with a scheme leads back to it, until the relay closes. */
  lemma HandedLeadsBack(
    host: string, token: string, url: string, origins: set<string>, later: seq<Step>)
    requires '?' !in token && Contains(url, SCHEME) && Closes !in later
    ensures LeadsTo(host, token, Proxy(host, token)(url), url,
                    AfterAll(After(origins, Hands(url)), later))
  {
    HandedStaysAllowed(origins, url, later);
    LeadsThere(host, token, url, AfterAll(After(origins, Hands(url)), later));
  }

  /** So does every address in a playlist the relay rewrites. */
  lemma ServedLeadsBack(
    host: string, token: string, text: string, base: string, url: string, origins: set<string>,
    later: seq<Step>)
    requires '?' !in token && Contains(SplitOnce(base, '?').0, SCHEME) && Closes !in later
    requires url in Handed(TrimmedLines(text), base)
    ensures LeadsTo(host, token, Proxy(host, token)(url), url,
                    AfterAll(After(origins, Serves(text, base)), later))
  {
    ServedStaysAllowed(origins, text, base, url, later);
    LeadsThere(host, token, url, AfterAll(After(origins, Serves(text, base)), later));
  }

  // ----- What is allowed, exactly -----

  /** Whether a step hands out an address of this origin. */
  function Naming(origin: Option<string>): Step -> bool {
    (step: Step) => origin.Some? && origin.value in OriginsOf(HandedOut(step))
  }

  /** Whether a step did so, and the relay has not closed since. */
  predicate HandedSince(steps: seq<Step>, names: Step -> bool) {
    exists i :: 0 <= i < |steps| && names(steps[i]) && Closes !in steps[i..]
  }

  lemma {:induction false} AfterSnoc(origins: set<string>, steps: seq<Step>, last: Step)
    ensures AfterAll(origins, steps + [last]) == After(AfterAll(origins, steps), last)
    decreases |steps|
  {
    if steps == [] {
      assert [] + [last] == [last] && [last][1..] == [];
    } else {
      AfterSnoc(After(origins, steps[0]), steps[1..], last);
      assert (steps + [last])[1..] == steps[1..] + [last];
    }
  }

  lemma SinceSnoc(steps: seq<Step>, last: Step, names: Step -> bool)
    requires last != Closes
    ensures HandedSince(steps + [last], names) <==> names(last) || HandedSince(steps, names)
  {
    var all := steps + [last];
    assert all[|steps|] == last && all[|steps|..] == [last];
    forall i | 0 <= i < |steps|
      ensures all[i] == steps[i] && (Closes in all[i..] <==> Closes in steps[i..])
    {
      assert all[i..] == steps[i..] + [last];
    }
    if HandedSince(steps, names) {
      var i :| 0 <= i < |steps| && names(steps[i]) && Closes !in steps[i..];
      assert names(all[i]) && Closes !in all[i..];
    }
  }

  lemma NoneSinceClose(steps: seq<Step>, names: Step -> bool)
    requires steps != [] && steps[|steps| - 1] == Closes
    ensures !HandedSince(steps, names)
  {
    forall i | 0 <= i < |steps| ensures Closes in steps[i..] {
      assert steps[i..][|steps| - 1 - i] == Closes;
    }
  }

  /**
   The relay fetches an address just when one of its origin was handed out, by itself or in a
   playlist served, and the relay has not closed since.
   */
  lemma {:induction false} AllowedExactly(steps: seq<Step>, url: string)
    ensures MayFetch(AfterAll({}, steps), url) <==> HandedSince(steps, Naming(Origin(url)))
    decreases |steps|
  {
    if steps != [] {
      var before, last := steps[..|steps| - 1], steps[|steps| - 1];
      assert before + [last] == steps;
      AllowedExactly(before, url);
      AfterSnoc({}, before, last);
      if last == Closes {
        NoneSinceClose(steps, Naming(Origin(url)));
      } else {
        SinceSnoc(before, last, Naming(Origin(url)));
      }
    }
  }

  /** After a close nothing may be fetched but what has an origin handed out since. */
  lemma NothingAfterClose(earlier: seq<Step>, later: seq<Step>, url: string)
    requires forall step <- later :: !Naming(Origin(url))(step)
    ensures !MayFetch(AfterAll({}, earlier + [Closes] + later), url)
  {
    var steps := earlier + [Closes] + later;
    AllowedExactly(steps, url);
    forall i | 0 <= i <= |earlier| ensures Closes in steps[i..] {
      assert steps[i..][|earlier| - i] == Closes;
    }
    forall i | |earlier| < i < |steps| ensures !Naming(Origin(url))(steps[i]) {
      assert steps[i] in later;
    }
  }

  // ----- The relay's addresses in a playlist -----

  lemma ProxyIsClean(host: string, token: string)
    requires Graphic(host) && Graphic(token)
    ensures Clean(Proxy(host, token))
  {
    forall u: string ensures IsUri(Proxy(host, token)(u)) && Trimmed(Proxy(host, token)(u))
                             && '\n' !in Proxy(host, token)(u)
    {
      var r := Proxy(host, token)(u);
      EncodedIsGraphic(Utf8(u));
      assert Graphic(r) && r[0] == 'h';
      GraphicStands(r);
    }
  }

  lemma GraphicStands(r: string)
    requires Graphic(r) && r != []
    ensures Trimmed(r) && '\n' !in r
  {
    assert r[0] in r && r[|r| - 1] in r;
    GraphicIsNotWhite(r[0]);
    GraphicIsNotWhite(r[|r| - 1]);
  }

  /** The best variant of a master playlist served is the one served to, through the relay. */
  lemma ServedVariantIsTheSame(text: string, base: string, host: string, token: string)
    requires Graphic(host) && Graphic(token)
    requires forall line <- TrimmedLines(text) :: PlainTag(line)
    ensures BestVariant(Rewritten(text, base, Proxy(host, token)))
         == match BestVariant(text)
            case None => None
            case Some(v) => Some(v.(uri := Proxy(host, token)(Resolve(base, v.uri))))
  {
    ProxyIsClean(host, token);
    RewritingKeepsTheVariant(text, base, Proxy(host, token));
  }
}
