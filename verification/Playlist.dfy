/**
 HLS playlists: rewriting one so that its addresses lead through the relay
 (crates/anistream-cast/src/relay.rs, `rewrite_playlist` and `resolve`), and reading a master's best
 variant (crates/anistream-cast/src/probe.rs, `best_variant` and `attribute`).
 */
module Playlist {
  import opened Bytes
  import opened Strings

  // ----- Addresses -----

  const SCHEME := "://"

  /** The last place `c` stands at. */
  function LastIndex(s: string, c: char): (r: Option<nat>)
    ensures r.Some? ==> r.value < |s| && s[r.value] == c
  {
    if s == [] then None
    else if s[|s| - 1] == c then Some(|s| - 1)
    else LastIndex(s[..|s| - 1], c)
  }

  function SchemeEnd(base: string): (n: nat)
    ensures n <= |base|
  {
    match Find(base, SCHEME)
    case None => 0
    case Some(i) => i + 3
  }

  function AuthorityEnd(base: string): (n: nat)
    ensures SchemeEnd(base) <= n <= |base|
  {
    match Find(base[SchemeEnd(base)..], "/")
    case None => |base|
    case Some(i) => SchemeEnd(base) + i
  }

  function Under(path: string, reference: string): string {
    if path != [] && path[|path| - 1] == '/' then path + reference else path + "/" + reference
  }

  /** What a reference that is no address and not rooted resolves to. */
  function Beside(base: string, path: string, reference: string): string {
    match LastIndex(path, '/')
    case Some(i) => if i >= AuthorityEnd(base) then path[..i + 1] + reference
                    else Under(path, reference)
    case None => Under(path, reference)
  }

  /** `resolve`. */
  function Resolve(base: string, reference: string): string {
    if Contains(reference, SCHEME) then reference
    else if Begins(reference, '/') then base[..AuthorityEnd(base)] + reference
    else
      Beside(base, SplitOnce(base, '?').0, reference)
  }

  /** What an address resolved has before its own path, a scheme among it. */
  lemma HasScheme(s: string, i: nat)
    requires i + 3 <= |s| && s[i..i + 3] == SCHEME
    ensures Contains(s, SCHEME)
  {
    FindIsFirst(s, SCHEME, i);
  }

  lemma KeepsScheme(head: string, tail: string)
    requires Contains(head, SCHEME)
    ensures Contains(head + tail, SCHEME)
  {
    var i := Find(head, SCHEME).value;
    assert (head + tail)[i..i + 3] == head[i..i + 3];
    HasScheme(head + tail, i);
  }

  lemma UnderHasScheme(path: string, reference: string)
    requires Contains(path, SCHEME)
    ensures Contains(Under(path, reference), SCHEME)
  {
    KeepsScheme(path, reference);
    KeepsScheme(path, "/");
    KeepsScheme(path + "/", reference);
  }

  lemma CutHasScheme(base: string, path: string, n: nat, reference: string)
    requires Contains(base, SCHEME) && path == SplitOnce(base, '?').0
    requires AuthorityEnd(base) < n <= |path|
    ensures Contains(path[..n] + reference, SCHEME)
  {
    var at := Find(base, SCHEME).value;
    assert path[..n][at..at + 3] == base[at..at + 3];
    HasScheme(path[..n], at);
    KeepsScheme(path[..n], reference);
  }

  lemma RootedHasScheme(base: string, reference: string)
    requires Contains(base, SCHEME)
    ensures Contains(base[..AuthorityEnd(base)] + reference, SCHEME)
  {
    var at := Find(base, SCHEME).value;
    assert base[..AuthorityEnd(base)][at..at + 3] == base[at..at + 3];
    HasScheme(base[..AuthorityEnd(base)], at);
    KeepsScheme(base[..AuthorityEnd(base)], reference);
  }

  lemma BesideHasScheme(base: string, path: string, reference: string)
    requires path == SplitOnce(base, '?').0 && Contains(path, SCHEME) && Contains(base, SCHEME)
    ensures Contains(Beside(base, path, reference), SCHEME)
  {
    UnderHasScheme(path, reference);
    var slash := LastIndex(path, '/');
    if slash.Some? && slash.value >= AuthorityEnd(base) {
      CutHasScheme(base, path, slash.value + 1, reference);
    }
  }

  lemma PathIsPrefix(base: string, path: string)
    requires path == SplitOnce(base, '?').0 && Contains(path, SCHEME)
    ensures Contains(base, SCHEME)
  {
    KeepsScheme(path, base[|path|..]);
    assert path + base[|path|..] == base;
  }

  /** A reference resolved against an address with a scheme before its query has a scheme. */
  lemma ResolvedHasScheme(base: string, reference: string)
    requires Contains(SplitOnce(base, '?').0, SCHEME)
    ensures Contains(Resolve(base, reference), SCHEME)
  {
    var path := SplitOnce(base, '?').0;
    PathIsPrefix(base, path);
    RootedHasScheme(base, reference);
    BesideHasScheme(base, path, reference);
  }

  // ----- Rewriting -----

  const URI := "URI=\""

  /** Where the value of a line's first URI attribute begins and ends. */
  function UriSpan(line: string): (r: Option<(nat, nat)>)
    ensures r.Some? ==> 5 <= r.value.0 <= r.value.1 <= |line| && line[r.value.0 - 1] == '"'
  {
    match Find(line, URI)
    case None => None
    case Some(start) =>
      assert line[start..start + 5][4] == '"';
      match Find(line[start + 5..], "\"")
      case None => Some((start + 5, |line|))
      case Some(e) => Some((start + 5, start + 5 + e))
  }

  /** One trimmed line, its address led through the relay. */
  function RewriteLine(line: string, base: string, proxy: string -> string): string {
    if line == [] then []
    else if line[0] != '#' then proxy(Resolve(base, line))
    else
      match UriSpan(line)
      case None => line
      case Some((from, to)) => line[..from] + proxy(Resolve(base, line[from..to])) + line[to..]
  }

  function RewriteLines(lines: seq<string>, base: string, proxy: string -> string): (r: seq<string>)
    ensures |r| == |lines|
  {
    if lines == [] then []
    else [RewriteLine(lines[0], base, proxy)] + RewriteLines(lines[1..], base, proxy)
  }

  function Rewritten(text: string, base: string, proxy: string -> string): string {
    Unlines(RewriteLines(TrimmedLines(text), base, proxy))
  }

  method RewriteOne(line: string, base: string, proxy: string -> string) returns (out: string)
    ensures out == RewriteLine(Trim(line), base, proxy)
  {
    var trimmed := Trim(line);
    if trimmed == [] { return []; }
    if trimmed[0] != '#' { return proxy(Resolve(base, trimmed)); }
    var span := UriSpan(trimmed);
    if span.None? { return trimmed; }
    var (from, to) := span.value;
    out := trimmed[..from];
    out := out + proxy(Resolve(base, trimmed[from..to]));
    out := out + trimmed[to..];
  }

  /** `rewrite_playlist`. */
  method RewritePlaylist(text: string, base: string, proxy: string -> string) returns (out: string)
    ensures out == Rewritten(text, base, proxy)
  {
    out := [];
    var lines := Lines(text);
    ghost var want := Rewritten(text, base, proxy);
    assert [] + want == want && lines[0..] == lines;
    for i := 0 to |lines|
      invariant want == out + Unlines(RewriteLines(TrimAll(lines[i..]), base, proxy))
    {
      ghost var rest := Unlines(RewriteLines(TrimAll(lines[i + 1..]), base, proxy));
      NextLineAt(lines, i, base, proxy);
      var own := RewriteOne(lines[i], base, proxy);
      RegroupFour(out, own, "\n", rest);
      out := out + own + "\n";
    }
    assert out + [] == out;
  }

  lemma RegroupFour(a: string, b: string, c: string, d: string)
    ensures a + (b + c + d) == a + b + c + d
  {
  }

  lemma NextLineAt(lines: seq<string>, i: nat, base: string, proxy: string -> string)
    requires i < |lines|
    ensures Unlines(RewriteLines(TrimAll(lines[i..]), base, proxy))
         == RewriteLine(Trim(lines[i]), base, proxy) + "\n"
            + Unlines(RewriteLines(TrimAll(lines[i + 1..]), base, proxy))
  {
    assert lines[i..][1..] == lines[i + 1..];
    NextLine(lines[i..], base, proxy);
  }

  lemma NextLine(lines: seq<string>, base: string, proxy: string -> string)
    requires lines != []
    ensures Unlines(RewriteLines(TrimAll(lines), base, proxy))
         == RewriteLine(Trim(lines[0]), base, proxy) + "\n"
            + Unlines(RewriteLines(TrimAll(lines[1..]), base, proxy))
  {
    var trimmed := TrimAll(lines);
    assert trimmed[1..] == TrimAll(lines[1..]);
    var rewritten := RewriteLines(trimmed, base, proxy);
    assert rewritten[1..] == RewriteLines(trimmed[1..], base, proxy);
  }

  // ----- Attributes -----

  /** `trim_start_matches(',')`. */
  function TrimCommas(s: string): (r: string)
    ensures |r| <= |s|
  {
    if s != [] && s[0] == ',' then TrimCommas(s[1..]) else s
  }

  predicate SameName(key: string, name: string) { Lowered(Trim(key)) == Lowered(name) }

  /** A value, quoted or not, and what stands after it; none where a quote does not close. */
  function Value(after: string): (r: Option<(string, string)>)
    ensures r.Some? ==> |r.value.1| <= |after|
  {
    if Begins(after, '"') then
      (match SplitOnce(after[1..], '"')
       case (value, None) => None
       case (value, Some(rest)) => Some((value, TrimCommas(rest))))
    else
      var (value, rest) := SplitOnce(after, ',');
      Some((value, if rest.Some? then rest.value else []))
  }

  /** `attribute`: the first attribute of the name, whatever its case. */
  function Attribute(attrs: string, name: string): Option<string>
    decreases |attrs|
  {
    if attrs == [] then None
    else
      match SplitOnce(attrs, '=')
      case (key, None) => None
      case (key, Some(after)) =>
        match Value(after)
        case None => None
        case Some((value, next)) =>
          if SameName(key, name) then Some(value) else Attribute(next, name)
  }

  method ReadAttribute(attrs: string, name: string) returns (r: Option<string>)
    ensures r == Attribute(attrs, name)
  {
    var rest := attrs;
    while rest != []
      invariant Attribute(rest, name) == Attribute(attrs, name)
      decreases |rest|
    {
      var (key, after) := SplitOnce(rest, '=');
      if after.None? { return None; }
      var value := Value(after.value);
      if value.None? { return None; }
      if SameName(key, name) { return Some(value.value.0); }
      rest := value.value.1;
    }
    return None;
  }

  /** An attribute to print. */
  datatype Attr = Attr(name: string, value: string, quoted: bool)

  /** A name and a value that can be told apart from what stands around them. */
  predicate Printable(a: Attr) {
    && '=' !in a.name && Trimmed(a.name) && !Begins(a.name, ',')
    && (if a.quoted then '"' !in a.value else ',' !in a.value && !Begins(a.value, '"'))
  }

  function AttrText(a: Attr): string {
    a.name + ['='] + ValueText(a)
  }

  /** The attributes, commas between them. */
  function AttrList(attrs: seq<Attr>): string {
    if attrs == [] then []
    else if |attrs| == 1 then AttrText(attrs[0])
    else AttrText(attrs[0]) + [','] + AttrList(attrs[1..])
  }

  function FirstOf(attrs: seq<Attr>, name: string): Option<string> {
    if attrs == [] then None
    else if Lowered(attrs[0].name) == Lowered(name) then Some(attrs[0].value)
    else FirstOf(attrs[1..], name)
  }

  function ValueText(a: Attr): string { if a.quoted then ['"'] + a.value + ['"'] else a.value }

  lemma CommaGoes(rest: string)
    requires !Begins(rest, ',')
    ensures TrimCommas([','] + rest) == rest
  {
    assert ([','] + rest)[1..] == rest;
  }

  lemma QuotedReads(value: string, rest: string)
    requires '"' !in value
    ensures Value(['"'] + value + ['"'] + rest) == Some((value, TrimCommas(rest)))
  {
    var after := ['"'] + value + ['"'] + rest;
    assert after[1..] == value + ['"'] + rest;
    SplitsAt(value, '"', rest);
  }

  lemma UnquotedReads(value: string, rest: string)
    requires ',' !in value && !Begins(value, '"')
    ensures Value(value + [','] + rest) == Some((value, rest))
    ensures Value(value) == Some((value, []))
  {
    SplitsAt(value, ',', rest);
    SplitsNowhere(value, ',');
    assert (value + [','] + rest)[0] == if value == [] then ',' else value[0];
  }

  lemma ValueReads(a: Attr, rest: string)
    requires Printable(a) && !Begins(rest, ',')
    ensures Value(ValueText(a) + ([','] + rest)) == Some((a.value, rest))
    ensures Value(ValueText(a)) == Some((a.value, []))
  {
    if a.quoted {
      QuotedReads(a.value, [','] + rest);
      CommaGoes(rest);
      QuotedReads(a.value, []);
      assert ValueText(a) + [] == ValueText(a);
    } else {
      UnquotedReads(a.value, rest);
      assert a.value + [','] + rest == a.value + ([','] + rest);
    }
  }

  lemma AttributeFirst(
    attrs: string, key: string, after: string, value: string, next: string, name: string)
    requires attrs != [] && SplitOnce(attrs, '=') == (key, Some(after))
    requires Value(after) == Some((value, next))
    ensures Attribute(attrs, name)
         == if SameName(key, name) then Some(value) else Attribute(next, name)
  {
  }

  lemma SameNameIs(key: string, name: string)
    requires Trimmed(key)
    ensures SameName(key, name) <==> Lowered(key) == Lowered(name)
  {
    TrimmedStays(key);
  }

  lemma AttributeIs(name': string, after: string, value: string, next: string, name: string)
    requires '=' !in name' && Trimmed(name') && Value(after) == Some((value, next))
    ensures Attribute(name' + ['='] + after, name)
         == if Lowered(name') == Lowered(name) then Some(value) else Attribute(next, name)
  {
    SplitsAt(name', '=', after);
    SameNameIs(name', name);
    AttributeFirst(name' + ['='] + after, name', after, value, next, name);
  }

  lemma OneAttribute(a: Attr, rest: string, name: string)
    requires Printable(a) && !Begins(rest, ',')
    ensures Attribute(AttrText(a) + [','] + rest, name)
         == if Lowered(a.name) == Lowered(name) then Some(a.value) else Attribute(rest, name)
    ensures Attribute(AttrText(a), name)
         == if Lowered(a.name) == Lowered(name) then Some(a.value) else Attribute([], name)
  {
    var text := ValueText(a);
    ValueReads(a, rest);
    AttributeIs(a.name, text + ([','] + rest), a.value, rest, name);
    Joined(a.name, text, rest);
    AttributeIs(a.name, text, a.value, [], name);
  }

  lemma Joined(name: string, text: string, rest: string)
    ensures name + ['='] + (text + ([','] + rest)) == name + ['='] + text + [','] + rest
  {
  }

  lemma {:induction false} ListStarts(attrs: seq<Attr>)
    requires forall a <- attrs :: Printable(a)
    ensures !Begins(AttrList(attrs), ',')
  {
    if attrs != [] {
      assert attrs[0] in attrs;
      assert AttrList(attrs)[0] == if attrs[0].name == [] then '=' else attrs[0].name[0];
    }
  }

  /** The reader undoes the printer: it finds the first attribute of a name, quoted or not. */
  lemma {:induction false} AttributeReadsBack(attrs: seq<Attr>, name: string)
    requires forall a <- attrs :: Printable(a)
    ensures Attribute(AttrList(attrs), name) == FirstOf(attrs, name)
  {
    if attrs != [] {
      assert attrs[0] in attrs;
      ListStarts(attrs[1..]);
      OneAttribute(attrs[0], AttrList(attrs[1..]), name);
      AttributeReadsBack(attrs[1..], name);
    }
  }

  // ----- The best variant -----

  const STREAM_INF := "#EXT-X-STREAM-INF:"

  datatype Variant = Variant(uri: string, codecs: Option<string>, height: Option<nat>)

  predicate IsUri(line: string) { line != [] && line[0] != '#' }

  /** The next address, and the lines after it. */
  function NextUri(lines: seq<string>): (r: Option<(string, seq<string>)>)
    ensures r.Some? ==> |r.value.1| < |lines| && IsUri(r.value.0)
  {
    if lines == [] then None
    else if IsUri(lines[0]) then Some((lines[0], lines[1..]))
    else NextUri(lines[1..])
  }

  function Bandwidth(attrs: string): nat {
    match Attribute(attrs, "BANDWIDTH")
    case None => 0
    case Some(b) =>
      match Parse(b, 0x1_0000_0000_0000_0000)
      case None => 0
      case Some(n) => n
  }

  /** What stands after the first `x` or `X`. */
  function AfterCross(s: string): Option<string> {
    if s == [] then None else if s[0] == 'x' || s[0] == 'X' then Some(s[1..]) else AfterCross(s[1..])
  }

  function Height(attrs: string): Option<nat> {
    match Attribute(attrs, "RESOLUTION")
    case None => None
    case Some(r) =>
      match AfterCross(r)
      case None => None
      case Some(h) => Parse(h, 0x1_0000_0000)
  }

  /** The better of a variant and the best so far. */
  function Better(best: Option<(nat, Variant)>, attrs: string, uri: string): Option<(nat, Variant)> {
    var bandwidth := Bandwidth(attrs);
    if best.None? || bandwidth > best.value.0
    then Some((bandwidth, Variant(uri, Attribute(attrs, "CODECS"), Height(attrs))))
    else best
  }

  /** The variant with the most bandwidth of these lines, unless `best` has as much. */
  function Best(lines: seq<string>, best: Option<(nat, Variant)>): Option<(nat, Variant)>
    decreases |lines|
  {
    if lines == [] then best
    else
      match StripPrefix(lines[0], STREAM_INF)
      case None => Best(lines[1..], best)
      case Some(attrs) =>
        match NextUri(lines[1..])
        case None => best
        case Some((uri, rest)) => Best(rest, Better(best, attrs, uri))
  }

  function BestVariant(text: string): Option<Variant> {
    match Best(TrimmedLines(text), None)
    case None => None
    case Some((_, variant)) => Some(variant)
  }

  /** `best_variant`. */
  method ReadBestVariant(text: string) returns (r: Option<Variant>)
    ensures r == BestVariant(text)
  {
    var best: Option<(nat, Variant)> := None;
    var lines := TrimmedLines(text);
    while lines != []
      invariant Best(lines, best) == Best(TrimmedLines(text), None)
      decreases |lines|
    {
      var attrs := StripPrefix(lines[0], STREAM_INF);
      if attrs.None? {
        lines := lines[1..];
      } else {
        var next := NextUri(lines[1..]);
        if next.None? { break; }
        var bandwidth := Bandwidth(attrs.value);
        var codecs := Attribute(attrs.value, "CODECS");
        var height := Height(attrs.value);
        if best.None? || bandwidth > best.value.0 {
          best := Some((bandwidth, Variant(next.value.0, codecs, height)));
        }
        lines := next.value.1;
      }
    }
    return if best.Some? then Some(best.value.1) else None;
  }

  // ----- Rewriting keeps the meaning -----

  /** A proxy's addresses stand on a line of their own, and are no tags. */
  ghost predicate Clean(proxy: string -> string) {
    forall u :: IsUri(proxy(u)) && Trimmed(proxy(u)) && '\n' !in proxy(u)
  }

  /** A STREAM-INF tag without a URI attribute, or another line. */
  predicate PlainTag(line: string) { StartsWith(line, STREAM_INF) ==> !Contains(line, URI) }

  lemma RewrittenTag(line: string, from: nat, to: nat, put: string)
    requires 0 < from <= to <= |line| && line[0] == '#' && line[from - 1] == '"'
    requires Trimmed(line) && '\n' !in line && !StartsWith(line, STREAM_INF)
    requires put != [] && Trimmed(put) && '\n' !in put
    ensures
      var r := line[..from] + put + line[to..];
      Trimmed(r) && '\n' !in r && !IsUri(r) && !StartsWith(r, STREAM_INF)
  {
    var r := line[..from] + put + line[to..];
    SpliceKeeps(line, from, to, put);
    if StartsWith(r, STREAM_INF) {
      SameTag(line, r, from);
    }
  }

  lemma StartsWithHash(r: string)
    requires IsUri(r)
    ensures !StartsWith(r, STREAM_INF)
  {
    assert STREAM_INF[0] == '#';
  }

  /** What rewriting leaves of a trimmed line. */
  lemma RewrittenLine(line: string, base: string, proxy: string -> string)
    requires Clean(proxy) && Trimmed(line) && '\n' !in line && PlainTag(line)
    ensures Trimmed(RewriteLine(line, base, proxy)) && '\n' !in RewriteLine(line, base, proxy)
    ensures LineAlike(line, RewriteLine(line, base, proxy), base, proxy)
  {
    if line != [] && line[0] != '#' {
      StartsWithHash(line);
      StartsWithHash(proxy(Resolve(base, line)));
    } else if line != [] && UriSpan(line).Some? {
      var (from, to) := UriSpan(line).value;
      RewrittenTag(line, from, to, proxy(Resolve(base, line[from..to])));
    }
  }

  lemma SpliceKeeps(line: string, from: nat, to: nat, put: string)
    requires 0 < from <= to <= |line| && Trimmed(line) && '\n' !in line
    requires put != [] && Trimmed(put) && '\n' !in put
    ensures
      var r := line[..from] + put + line[to..];
      && r != [] && r[0] == line[0] && Trimmed(r) && '\n' !in r && r[..from] == line[..from]
  {
  }

  lemma NoQuoteInTheTag()
    ensures forall i | 0 <= i < |STREAM_INF| :: STREAM_INF[i] != '"'
  {
  }

  /** A tag with a quote in it is not a STREAM-INF tag before the quote, so it is none after. */
  lemma SameTag(line: string, r: string, from: nat)
    requires 0 < from <= |line| && from <= |r| && r[..from] == line[..from]
    requires line[from - 1] == '"' && StartsWith(r, STREAM_INF)
    ensures StartsWith(line, STREAM_INF)
  {
    NoQuoteInTheTag();
    assert r[from - 1] == r[..from][from - 1] == '"';
    assert forall i | 0 <= i < |STREAM_INF| :: r[i] == r[..|STREAM_INF|][i] == STREAM_INF[i];
    assert from > |STREAM_INF|;
    assert line[..|STREAM_INF|] == line[..from][..|STREAM_INF|];
    assert r[..|STREAM_INF|] == r[..from][..|STREAM_INF|];
  }

  /** The lines before a rewriting, and after. */
  ghost predicate Alike(a: seq<string>, b: seq<string>, base: string, proxy: string -> string) {
    |a| == |b| && forall i | 0 <= i < |a| :: LineAlike(a[i], b[i], base, proxy)
  }

  predicate LineAlike(a: string, b: string, base: string, proxy: string -> string) {
    && (IsUri(b) <==> IsUri(a)) && (IsUri(a) ==> b == proxy(Resolve(base, a)))
    && StripPrefix(b, STREAM_INF) == StripPrefix(a, STREAM_INF)
  }

  lemma {:induction false} RewrittenAlike(lines: seq<string>, base: string, proxy: string -> string)
    requires Clean(proxy)
    requires forall line <- lines :: Trimmed(line) && '\n' !in line && PlainTag(line)
    ensures Alike(lines, RewriteLines(lines, base, proxy), base, proxy)
    ensures forall line <- RewriteLines(lines, base, proxy) :: Trimmed(line) && '\n' !in line
  {
    if lines != [] {
      assert lines[0] in lines;
      RewrittenLine(lines[0], base, proxy);
      RewrittenAlike(lines[1..], base, proxy);
    }
  }

  lemma {:induction false} NextUriAlike(
    a: seq<string>, b: seq<string>, base: string, proxy: string -> string)
    requires Alike(a, b, base, proxy)
    ensures
      match NextUri(a)
      case None => NextUri(b).None?
      case Some((uri, rest)) =>
        && NextUri(b).Some? && NextUri(b).value.0 == proxy(Resolve(base, uri))
        && Alike(rest, NextUri(b).value.1, base, proxy)
  {
    if a != [] {
      assert LineAlike(a[0], b[0], base, proxy);
      NextUriAlike(a[1..], b[1..], base, proxy);
    }
  }

  function Led(best: Option<(nat, Variant)>, base: string, proxy: string -> string)
    : Option<(nat, Variant)>
  {
    match best
    case None => None
    case Some((bandwidth, v)) => Some((bandwidth, v.(uri := proxy(Resolve(base, v.uri)))))
  }

  lemma BetterLed(
    best: Option<(nat, Variant)>, attrs: string, uri: string, base: string, proxy: string -> string)
    ensures Better(Led(best, base, proxy), attrs, proxy(Resolve(base, uri)))
         == Led(Better(best, attrs, uri), base, proxy)
  {
  }

  lemma {:induction false} BestAlike(
    a: seq<string>, b: seq<string>, best: Option<(nat, Variant)>, base: string,
    proxy: string -> string)
    requires Alike(a, b, base, proxy)
    ensures Best(b, Led(best, base, proxy)) == Led(Best(a, best), base, proxy)
    decreases |a|
  {
    if a != [] {
      assert LineAlike(a[0], b[0], base, proxy);
      NextUriAlike(a[1..], b[1..], base, proxy);
      match StripPrefix(a[0], STREAM_INF)
      case None => BestAlike(a[1..], b[1..], best, base, proxy);
      case Some(attrs) =>
        if NextUri(a[1..]).Some? {
          var (uri, rest) := NextUri(a[1..]).value;
          BetterLed(best, attrs, uri, base, proxy);
          BestAlike(rest, NextUri(b[1..]).value.1, Better(best, attrs, uri), base, proxy);
        }
    }
  }

  /**
   Rewriting a master playlist keeps its meaning: the variant read from the rewritten text is the
   same one, with its codecs and height, and its address resolved and led through the relay.
   */
  lemma RewritingKeepsTheVariant(text: string, base: string, proxy: string -> string)
    requires Clean(proxy) && forall line <- TrimmedLines(text) :: PlainTag(line)
    ensures BestVariant(Rewritten(text, base, proxy))
         == match BestVariant(text)
            case None => None
            case Some(v) => Some(v.(uri := proxy(Resolve(base, v.uri))))
  {
    var lines := TrimmedLines(text);
    var out := RewriteLines(lines, base, proxy);
    LinesHoldNoFeed(text);
    TrimAllTrims(Lines(text));
    RewrittenAlike(lines, base, proxy);
    LinesOfUnlines(out);
    TrimAllStays(out);
    BestAlike(lines, out, None, base, proxy);
  }
}
