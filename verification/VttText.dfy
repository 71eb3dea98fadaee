/**
 The text of one ASS event as WebVTT (crates/anistream-cast/src/vtt.rs, `text_of`): the tags it
 opens and closes, what it escapes, and the lines it leaves.
 */
module VttText {
  import opened Bytes
  import opened Strings

  datatype Style = Style(alignment: nat, bold: bool, italic: bool)

  const DEFAULT := Style(2, false, false)

  /** What is on while the text is written. */
  datatype Pen = Pen(alignment: nat, bold: bool, italic: bool, underline: bool)

  // ----- Override tags -----

  /** The parts of `s` between the `c`s. */
  function SplitAll(s: string, c: char): seq<string>
    decreases |s|
  {
    match SplitOnce(s, c)
    case (head, None) => [head]
    case (head, Some(tail)) => [head] + SplitAll(tail, c)
  }

  /** A block's tags: its parts between backslashes that are not empty, trimmed. */
  function TagsOf(block: string): seq<string> { Kept(SplitAll(block, '\\')) }

  function Kept(parts: seq<string>): seq<string> {
    if parts == [] then []
    else (if parts[0] != [] then [Trim(parts[0])] else []) + Kept(parts[1..])
  }

  /** What a tag of this letter sets: `1` is on, `0` or nothing off. */
  function Toggle(tag: string, letter: char): Option<bool> {
    if !Begins(tag, letter) then None
    else if tag[1..] == "1" then Some(true)
    else if tag[1..] == "0" || tag[1..] == "" then Some(false)
    else None
  }

  function Opening(letter: char): string { ['<', letter, '>'] }
  function Closing(letter: char): string { ['<', '/', letter, '>'] }

  function Switch(letter: char, was: bool, on: bool): string {
    if was == on then [] else if on then Opening(letter) else Closing(letter)
  }

  function CloseAll(p: Pen): string {
    (if p.underline then Closing('u') else []) + (if p.italic then Closing('i') else [])
    + (if p.bold then Closing('b') else [])
  }

  function OpenStyle(style: Style): string {
    (if style.bold then Opening('b') else []) + (if style.italic then Opening('i') else [])
  }

  function Alignment(tag: string): Option<nat> {
    match StripPrefix(tag, "an")
    case None => None
    case Some(n) => Parse(n, 0x100)
  }

  /** What a tag writes, and the pen after it. */
  function TagStep(tag: string, style: Style, p: Pen): (string, Pen) {
    if Alignment(tag).Some? then ([], p.(alignment := Alignment(tag).value))
    else if Toggle(tag, 'i').Some? then
      var on := Toggle(tag, 'i').value;
      (Switch('i', p.italic, on), p.(italic := on))
    else if Toggle(tag, 'b').Some? then
      var on := Toggle(tag, 'b').value;
      (Switch('b', p.bold, on), p.(bold := on))
    else if Toggle(tag, 'u').Some? then
      var on := Toggle(tag, 'u').value;
      (Switch('u', p.underline, on), p.(underline := on))
    else if tag == "r" then
      (CloseAll(p) + OpenStyle(style), Pen(p.alignment, style.bold, style.italic, false))
    else ([], p)
  }

  function TagSteps(tags: seq<string>, style: Style, p: Pen): (string, Pen)
    decreases |tags|
  {
    if tags == [] then ([], p)
    else
      var (out, q) := TagStep(tags[0], style, p);
      var (more, last) := TagSteps(tags[1..], style, q);
      (out + more, last)
  }

  // ----- The text -----

  const NBSP: char := '\U{00a0}'

  /** One character of the text, and how many it takes: an escape, an entity or itself. */
  function CharStep(rest: string): (r: (string, nat))
    requires rest != []
    ensures 1 <= r.1 <= |rest|
  {
    var c := rest[0];
    if c == '\\' && |rest| > 1 && (rest[1] == 'N' || rest[1] == 'n') then ("\n", 2)
    else if c == '\\' && |rest| > 1 && rest[1] == 'h' then ([NBSP], 2)
    else if c == '&' then ("&amp;", 1)
    else if c == '<' then ("&lt;", 1)
    else if c == '>' then ("&gt;", 1)
    else ([c], 1)
  }

  /** The block of tags the text begins with, and what follows it. */
  function Block(rest: string): (r: Option<(string, string)>)
    ensures r.Some? ==> |r.value.1| < |rest|
  {
    if !Begins(rest, '{') then None
    else
      match SplitOnce(rest[1..], '}')
      case (_, None) => None
      case (block, Some(tail)) => Some((block, tail))
  }

  /** What the text writes, and the pen after it. */
  function Write(rest: string, style: Style, p: Pen): (string, Pen)
    decreases |rest|
  {
    if rest == [] then ([], p)
    else
      match Block(rest)
      case Some((block, tail)) =>
        var (out, q) := TagSteps(TagsOf(block), style, p);
        var (more, last) := Write(tail, style, q);
        (out + more, last)
      case None =>
        var (out, n) := CharStep(rest);
        var (more, last) := Write(rest[n..], style, p);
        (out + more, last)
  }

  function Start(style: Style): Pen { Pen(style.alignment, style.bold, style.italic, false) }

  /** Everything written, every tag closed at the end. */
  function Written(text: string, style: Style): string {
    var (out, p) := Write(text, style, Start(style));
    OpenStyle(style) + out + CloseAll(p)
  }

  /** The lines that are not empty once trimmed, one after another. */
  function Tidy(lines: seq<string>): seq<string> {
    if lines == [] then []
    else (if Trim(lines[0]) == [] then [] else [Trim(lines[0])]) + Tidy(lines[1..])
  }

  function Join(lines: seq<string>): string {
    if lines == [] then []
    else if |lines| == 1 then lines[0]
    else lines[0] + "\n" + Join(lines[1..])
  }

  /** `text_of`: the body and the alignment. */
  function TextOf(text: string, style: Style): (string, nat) {
    (Join(Tidy(Lines(Written(text, style)))), Write(text, style, Start(style)).1.alignment)
  }

  /** The loop of `text_of`, appending to what is written. */
  method WriteRest(text: string, style: Style, start: Pen) returns (out: string, pen: Pen)
    ensures (out, pen) == Write(text, style, start)
  {
    out, pen := [], start;
    var rest := text;
    ghost var (all, last) := Write(text, style, pen);
    assert [] + all == all;
    while rest != []
      invariant Write(rest, style, pen).1 == last
      invariant all == out + Write(rest, style, pen).0
      decreases |rest|
    {
      var wrote, next, tail := WriteNext(rest, style, pen);
      Regroup(out, wrote, Write(tail, style, next).0);
      out, pen, rest := out + wrote, next, tail;
    }
    assert out + [] == out;
  }

  /** All of the text between what its style opens and what is left open. */
  method WriteText(text: string, style: Style) returns (out: string, alignment: nat)
    ensures out == Written(text, style)
    ensures alignment == Write(text, style, Start(style)).1.alignment
  {
    out := if style.bold then Opening('b') else [];
    if style.italic {
      out := out + Opening('i');
    }
    var wrote, pen := WriteRest(text, style, Start(style));
    assert out == OpenStyle(style);
    out := out + wrote;
    out := out + CloseAll(pen);
    alignment := pen.alignment;
  }

  method MakeText(text: string, style: Style) returns (body: string, alignment: nat)
    ensures (body, alignment) == TextOf(text, style)
  {
    var out;
    out, alignment := WriteText(text, style);
    body := Join(Tidy(Lines(out)));
  }

  /** A block of tags, or one character. */
  method WriteNext(rest: string, style: Style, pen: Pen)
    returns (wrote: string, next: Pen, tail: string)
    requires rest != []
    ensures |tail| < |rest|
    ensures Write(rest, style, pen)
         == (wrote + Write(tail, style, next).0, Write(tail, style, next).1)
  {
    var block := Block(rest);
    if block.Some? {
      wrote, next := WriteTags(TagsOf(block.value.0), style, pen);
      return wrote, next, block.value.1;
    }
    var (out, n) := CharStep(rest);
    return out, pen, rest[n..];
  }

  method WriteTags(tags: seq<string>, style: Style, pen: Pen) returns (out: string, next: Pen)
    ensures (out, next) == TagSteps(tags, style, pen)
  {
    out, next := [], pen;
    ghost var (all, last) := TagSteps(tags, style, pen);
    assert [] + all == all && tags[0..] == tags;
    for i := 0 to |tags|
      invariant TagSteps(tags[i..], style, next).1 == last
      invariant all == out + TagSteps(tags[i..], style, next).0
    {
      assert tags[i..][1..] == tags[i + 1..];
      var (wrote, after) := TagStep(tags[i], style, next);
      Regroup(out, wrote, TagSteps(tags[i + 1..], style, after).0);
      out, next := out + wrote, after;
    }
    assert out + [] == out;
  }

  // ----- Reading tags -----

  /** Which of the three tags are open. */
  datatype On = On(bold: bool, italic: bool, underline: bool)

  const NONE := On(false, false, false)

  /** Where a reader of the written text stands: between characters, or inside a tag. */
  datatype Mode = Outside | Less | Slash | OpenLetter(letter: char) | CloseLetter(letter: char)

  datatype Reader = Reader(on: On, mode: Mode)

  function IsOn(on: On, letter: char): bool {
    if letter == 'b' then on.bold else if letter == 'i' then on.italic else on.underline
  }

  function Set(on: On, letter: char, to: bool): On {
    if letter == 'b' then on.(bold := to)
    else if letter == 'i' then on.(italic := to)
    else on.(underline := to)
  }

  predicate IsLetter(c: char) { c == 'b' || c == 'i' || c == 'u' }

  /**
   One character read; none where the text breaks the rules: a tag is one of the three letters', it
   opens only what is closed and closes only what is open, and `>` stands nowhere else.
   */
  function Step(r: Reader, c: char): Option<Reader> {
    match r.mode
    case Outside =>
      if c == '<' then Some(r.(mode := Less)) else if c == '>' then None else Some(r)
    case Less =>
      if c == '/' then Some(r.(mode := Slash))
      else if IsLetter(c) then Some(r.(mode := OpenLetter(c))) else None
    case Slash => if IsLetter(c) then Some(r.(mode := CloseLetter(c))) else None
    case OpenLetter(letter) =>
      if c == '>' && !IsOn(r.on, letter) then Some(Reader(Set(r.on, letter, true), Outside)) else None
    case CloseLetter(letter) =>
      if c == '>' && IsOn(r.on, letter) then Some(Reader(Set(r.on, letter, false), Outside)) else None
  }

  function Walk(r: Reader, s: string): Option<Reader>
    decreases |s|
  {
    if s == [] then Some(r)
    else
      match Step(r, s[0])
      case None => None
      case Some(next) => Walk(next, s[1..])
  }

  lemma {:induction false} WalkConcat(r: Reader, a: string, b: string)
    ensures Walk(r, a + b)
         == match Walk(r, a) case None => None case Some(next) => Walk(next, b)
    decreases |a|
  {
    if a == [] {
      assert a + b == b;
    } else {
      assert (a + b)[0] == a[0] && (a + b)[1..] == a[1..] + b;
      match Step(r, a[0])
      case None =>
      case Some(next) => WalkConcat(next, a[1..], b);
    }
  }

  /** From between characters to between characters. */
  ghost predicate Leads(from: On, s: string, to: On) {
    Walk(Reader(from, Outside), s) == Some(Reader(to, Outside))
  }

  lemma LeadsOn(a: On, s: string, b: On, t: string, c: On)
    requires Leads(a, s, b) && Leads(b, t, c)
    ensures Leads(a, s + t, c)
  {
    WalkConcat(Reader(a, Outside), s, t);
  }

  lemma OpeningLeads(on: On, letter: char)
    requires IsLetter(letter) && !IsOn(on, letter)
    ensures Leads(on, Opening(letter), Set(on, letter, true))
  {
    var s := Opening(letter);
    assert s[1..] == [letter, '>'] && s[1..][1..] == ['>'] && s[1..][1..][1..] == [];
    var r := Reader(on, Outside);
    assert Walk(Reader(on, OpenLetter(letter)), ['>']) == Walk(Reader(Set(on, letter, true), Outside), []);
    assert Walk(Reader(on, Less), [letter, '>']) == Walk(Reader(on, OpenLetter(letter)), ['>']);
  }

  lemma ClosingLeads(on: On, letter: char)
    requires IsLetter(letter) && IsOn(on, letter)
    ensures Leads(on, Closing(letter), Set(on, letter, false))
  {
    var s := Closing(letter);
    assert s[1..] == ['/', letter, '>'] && s[1..][1..] == [letter, '>'];
    assert s[1..][1..][1..] == ['>'] && s[1..][1..][1..][1..] == [];
    assert Walk(Reader(on, CloseLetter(letter)), ['>']) == Walk(Reader(Set(on, letter, false), Outside), []);
    assert Walk(Reader(on, Slash), [letter, '>']) == Walk(Reader(on, CloseLetter(letter)), ['>']);
    assert Walk(Reader(on, Less), ['/', letter, '>']) == Walk(Reader(on, Slash), [letter, '>']);
  }

  function OnOf(p: Pen): On { On(p.bold, p.italic, p.underline) }

  lemma SwitchLeads(on: On, letter: char, to: bool)
    requires IsLetter(letter)
    ensures Leads(on, Switch(letter, IsOn(on, letter), to), Set(on, letter, to))
  {
    if IsOn(on, letter) == to {
      assert Set(on, letter, to) == on;
    } else if to {
      OpeningLeads(on, letter);
    } else {
      ClosingLeads(on, letter);
    }
  }

  lemma CloseAllLeads(p: Pen)
    ensures Leads(OnOf(p), CloseAll(p), NONE)
  {
    var a := OnOf(p);
    var b := a.(underline := false);
    var c := b.(italic := false);
    SwitchLeads(a, 'u', false);
    SwitchLeads(b, 'i', false);
    SwitchLeads(c, 'b', false);
    LeadsOn(a, Switch('u', p.underline, false), b, Switch('i', p.italic, false), c);
    LeadsOn(a, Switch('u', p.underline, false) + Switch('i', p.italic, false), c,
            Switch('b', p.bold, false), NONE);
  }

  lemma OpenStyleLeads(style: Style)
    ensures Leads(NONE, OpenStyle(style), On(style.bold, style.italic, false))
  {
    var b := NONE.(bold := style.bold);
    SwitchLeads(NONE, 'b', style.bold);
    SwitchLeads(b, 'i', style.italic);
    LeadsOn(NONE, Switch('b', false, style.bold), b, Switch('i', false, style.italic),
            On(style.bold, style.italic, false));
  }

  lemma TagStepLeads(tag: string, style: Style, p: Pen)
    ensures Leads(OnOf(p), TagStep(tag, style, p).0, OnOf(TagStep(tag, style, p).1))
  {
    if Alignment(tag).Some? {
    } else if Toggle(tag, 'i').Some? {
      SwitchLeads(OnOf(p), 'i', Toggle(tag, 'i').value);
    } else if Toggle(tag, 'b').Some? {
      SwitchLeads(OnOf(p), 'b', Toggle(tag, 'b').value);
    } else if Toggle(tag, 'u').Some? {
      SwitchLeads(OnOf(p), 'u', Toggle(tag, 'u').value);
    } else if tag == "r" {
      CloseAllLeads(p);
      OpenStyleLeads(style);
      LeadsOn(OnOf(p), CloseAll(p), NONE, OpenStyle(style), On(style.bold, style.italic, false));
    }
  }

  lemma {:induction false} TagStepsLead(tags: seq<string>, style: Style, p: Pen)
    ensures Leads(OnOf(p), TagSteps(tags, style, p).0, OnOf(TagSteps(tags, style, p).1))
    decreases |tags|
  {
    if tags != [] {
      var (out, q) := TagStep(tags[0], style, p);
      var (more, last) := TagSteps(tags[1..], style, q);
      TagStepLeads(tags[0], style, p);
      TagStepsLead(tags[1..], style, q);
      LeadsOn(OnOf(p), out, OnOf(q), more, OnOf(last));
    }
  }

  lemma {:induction false} PlainLeads(on: On, s: string)
    requires '<' !in s && '>' !in s
    ensures Leads(on, s, on)
  {
    if s != [] {
      assert s[0] in s;
      PlainLeads(on, s[1..]);
    }
  }

  lemma CharStepIsPlain(rest: string)
    requires rest != []
    ensures '<' !in CharStep(rest).0 && '>' !in CharStep(rest).0
  {
  }

  lemma {:induction false} WriteLeads(rest: string, style: Style, p: Pen)
    ensures Leads(OnOf(p), Write(rest, style, p).0, OnOf(Write(rest, style, p).1))
    decreases |rest|
  {
    if rest != [] {
      match Block(rest)
      case Some((block, tail)) =>
        var (out, q) := TagSteps(TagsOf(block), style, p);
        var (more, last) := Write(tail, style, q);
        TagStepsLead(TagsOf(block), style, p);
        WriteLeads(tail, style, q);
        LeadsOn(OnOf(p), out, OnOf(q), more, OnOf(last));
      case None =>
        var (out, n) := CharStep(rest);
        var (more, last) := Write(rest[n..], style, p);
        CharStepIsPlain(rest);
        PlainLeads(OnOf(p), out);
        WriteLeads(rest[n..], style, p);
        LeadsOn(OnOf(p), out, OnOf(p), more, OnOf(last));
    }
  }

  /** What is written opens and closes each tag in turn, and ends with all closed. */
  lemma WrittenLeads(text: string, style: Style)
    ensures Leads(NONE, Written(text, style), NONE)
  {
    var start := Start(style);
    var (out, p) := Write(text, style, start);
    OpenStyleLeads(style);
    WriteLeads(text, style, start);
    CloseAllLeads(p);
    LeadsOn(NONE, OpenStyle(style), OnOf(start), out, OnOf(p));
    LeadsOn(NONE, OpenStyle(style) + out, OnOf(p), CloseAll(p), NONE);
  }

  // ----- Tidying keeps it -----

  lemma TagCharsAreNotWhite()
    ensures !IsWhite('<') && !IsWhite('>') && !IsWhite('/')
    ensures !IsWhite('b') && !IsWhite('i') && !IsWhite('u')
  {
    GraphicIsNotWhite('<');
    GraphicIsNotWhite('>');
    GraphicIsNotWhite('/');
    GraphicIsNotWhite('b');
    GraphicIsNotWhite('i');
    GraphicIsNotWhite('u');
  }

  lemma {:induction false} TrimStartLeads(a: On, s: string, b: On)
    requires Leads(a, s, b)
    ensures Leads(a, TrimStart(s), b)
  {
    if s != [] && IsWhite(s[0]) {
      TagCharsAreNotWhite();
      TrimStartLeads(a, s[1..], b);
    }
  }

  lemma LastIsOutside(a: On, s: string, c: char, b: On)
    requires Leads(a, s + [c], b) && (IsWhite(c) || c == '\n')
    ensures Leads(a, s, b)
  {
    TagCharsAreNotWhite();
    WalkConcat(Reader(a, Outside), s, [c]);
    assert [c][1..] == [];
  }

  lemma {:induction false} TrimEndLeads(a: On, s: string, b: On)
    requires Leads(a, s, b)
    ensures Leads(a, TrimEnd(s), b)
  {
    if s != [] && IsWhite(s[|s| - 1]) {
      assert s == s[..|s| - 1] + [s[|s| - 1]];
      LastIsOutside(a, s[..|s| - 1], s[|s| - 1], b);
      TrimEndLeads(a, s[..|s| - 1], b);
    }
  }

  /** Where a line ends no tag is cut in two. */
  lemma LineLeads(a: On, line: string, rest: string, b: On) returns (mid: On)
    requires Leads(a, line + ['\n'] + rest, b)
    ensures Leads(a, line, mid) && Leads(mid, rest, b)
  {
    var start := Reader(a, Outside);
    assert line + ['\n'] + rest == line + (['\n'] + rest);
    WalkConcat(start, line, ['\n'] + rest);
    assert (['\n'] + rest)[1..] == rest;
    mid := Walk(start, line).value.on;
  }

  lemma JoinFirst(line: string, lines: seq<string>)
    ensures Join([line] + lines) == if lines == [] then line else line + (['\n'] + Join(lines))
  {
    assert ([line] + lines)[1..] == lines;
    if lines != [] {
      assert line + "\n" + Join(lines) == line + (['\n'] + Join(lines));
    }
  }

  lemma JoinedAfter(a: On, own: string, mid: On, lines: seq<string>, b: On)
    requires Leads(a, own, mid) && Leads(mid, Join(lines), b)
    ensures Leads(a, Join([own] + lines), b)
  {
    JoinFirst(own, lines);
    if lines == [] {
    } else {
      PlainLeads(mid, ['\n']);
      LeadsOn(mid, ['\n'], mid, Join(lines), b);
      LeadsOn(a, own, mid, ['\n'] + Join(lines), b);
    }
  }

  lemma JoinedLeads(a: On, line: string, mid: On, lines: seq<string>, b: On)
    requires Leads(a, Trim(line), mid) && Leads(mid, Join(lines), b)
    ensures Leads(a, Join((if Trim(line) == [] then [] else [Trim(line)]) + lines), b)
  {
    var own := Trim(line);
    if own == [] {
      assert [] + lines == lines;
    } else {
      JoinedAfter(a, own, mid, lines, b);
    }
  }

  lemma TrimLeads(a: On, s: string, b: On)
    requires Leads(a, s, b)
    ensures Leads(a, Trim(s), b)
  {
    TrimStartLeads(a, s, b);
    TrimEndLeads(a, TrimStart(s), b);
  }

  lemma TidyFirst(line: string, lines: seq<string>)
    ensures Tidy([line] + lines)
         == (if Trim(line) == [] then [] else [Trim(line)]) + Tidy(lines)
  {
    assert ([line] + lines)[1..] == lines;
  }

  lemma LinesFirst(line: string, rest: string)
    requires '\n' !in line
    ensures Lines(line + ['\n'] + rest) == [line] + Lines(rest)
    ensures line != [] ==> Lines(line) == [line]
  {
    SplitsAt(line, '\n', rest);
    SplitsNowhere(line, '\n');
  }

  lemma {:induction false} TidyLeads(a: On, s: string, b: On)
    requires Leads(a, s, b)
    ensures Leads(a, Join(Tidy(Lines(s))), b)
    decreases |s|
  {
    var (line, tail) := SplitOnce(s, '\n');
    if s == [] {
    } else if tail.None? {
      LinesFirst(s, []);
      LastLineLeads(a, s, b);
    } else {
      var rest := tail.value;
      assert s == line + ['\n'] + rest;
      LinesFirst(line, rest);
      var mid := LineLeads(a, line, rest, b);
      TidyLeads(mid, rest, b);
      TrimLeads(a, line, mid);
      TidyFirst(line, Lines(rest));
      JoinedLeads(a, line, mid, Tidy(Lines(rest)), b);
    }
  }

  lemma LastLineLeads(a: On, s: string, b: On)
    requires Leads(a, s, b)
    ensures Leads(a, Join(Tidy([s])), b)
  {
    TrimLeads(a, s, b);
    TidyFirst(s, []);
    assert [s] + [] == [s];
    JoinedLeads(a, s, b, [], b);
  }

  /**
   In the body each of the three tags opens and closes in turn and ends closed, through resets, and
   nothing else stands between angle brackets.
   */
  lemma BodyTagsAlternate(text: string, style: Style)
    ensures Leads(NONE, TextOf(text, style).0, NONE)
  {
    WrittenLeads(text, style);
    TidyLeads(NONE, Written(text, style), NONE);
  }

  lemma WalkOne(r: Reader, c: char, rest: string)
    ensures Walk(r, [c] + rest)
         == match Step(r, c) case None => None case Some(next) => Walk(next, rest)
  {
    assert ([c] + rest)[1..] == rest;
  }

  lemma ArrowStops(r: Reader, rest: string)
    ensures Walk(r, ['-'] + (['-'] + (['>'] + rest))).None?
  {
    WalkOne(r, '-', ['-'] + (['>'] + rest));
    if Step(r, '-').Some? {
      WalkOne(r, '-', ['>'] + rest);
      WalkOne(r, '>', rest);
    }
  }

  lemma NoArrow(a: On, s: string, b: On, i: nat)
    requires Leads(a, s, b) && i + 3 <= |s|
    ensures s[i..i + 3] != "-->"
  {
    if s[i..i + 3] == "-->" {
      var rest := ['-'] + (['-'] + (['>'] + s[i + 3..]));
      assert s[i] == s[i..i + 3][0] && s[i + 1] == s[i..i + 3][1] && s[i + 2] == s[i..i + 3][2];
      assert s == s[..i] + rest;
      WalkConcat(Reader(a, Outside), s[..i], rest);
      if Walk(Reader(a, Outside), s[..i]).Some? {
        ArrowStops(Walk(Reader(a, Outside), s[..i]).value, s[i + 3..]);
      }
    }
  }

  /** The body holds no arrow, so no line of it reads as a cue's times. */
  lemma BodyHasNoArrow(text: string, style: Style, i: nat)
    requires i + 3 <= |TextOf(text, style).0|
    ensures TextOf(text, style).0[i..i + 3] != "-->"
  {
    BodyTagsAlternate(text, style);
    NoArrow(NONE, TextOf(text, style).0, NONE, i);
  }

  /** A body's lines: none is empty, and none ends or begins with white space. */
  ghost predicate Tidied(lines: seq<string>) {
    forall line <- lines :: line != [] && Trimmed(line) && '\n' !in line
  }

  lemma {:induction false} TidyTidies(lines: seq<string>)
    requires forall line <- lines :: '\n' !in line
    ensures Tidied(Tidy(lines))
  {
    if lines != [] {
      assert lines[0] in lines;
      TrimTrims(lines[0]);
      TidyTidies(lines[1..]);
    }
  }

  /** The body is its lines joined, no blank one among them. */
  function BodyLines(text: string, style: Style): seq<string> { Tidy(Lines(Written(text, style))) }

  lemma BodyHasNoBlankLine(text: string, style: Style)
    ensures TextOf(text, style).0 == Join(BodyLines(text, style)) && Tidied(BodyLines(text, style))
  {
    LinesHoldNoFeed(Written(text, style));
    TidyTidies(Lines(Written(text, style)));
  }

  // ----- No carriage return -----

  lemma NoReturnInTail(rest: string)
    requires '\r' !in rest && Block(rest).Some?
    ensures '\r' !in Block(rest).value.1
  {
    var head, tail := SplitOnce(rest[1..], '}').0, Block(rest).value.1;
    assert rest[1..] == head + (['}'] + tail);
    forall i | 0 <= i < |tail| ensures tail[i] in rest {
      assert rest[1..][|head| + 1 + i] == tail[i];
    }
  }

  lemma {:induction false} NoReturnWritten(rest: string, style: Style, p: Pen)
    requires '\r' !in rest
    ensures '\r' !in Write(rest, style, p).0
    decreases |rest|
  {
    if rest != [] {
      match Block(rest)
      case Some((block, tail)) =>
        NoReturnInTags(TagsOf(block), style, p);
        NoReturnInTail(rest);
        NoReturnWritten(tail, style, TagSteps(TagsOf(block), style, p).1);
      case None =>
        NoReturnInChar(rest);
        NoReturnWritten(rest[CharStep(rest).1..], style, p);
    }
  }

  lemma NoReturnInChar(rest: string)
    requires rest != [] && '\r' !in rest
    ensures '\r' !in CharStep(rest).0
  {
  }

  lemma {:induction false} NoReturnInTags(tags: seq<string>, style: Style, p: Pen)
    ensures '\r' !in TagSteps(tags, style, p).0
    decreases |tags|
  {
    if tags != [] {
      NoReturnInTags(tags[1..], style, TagStep(tags[0], style, p).1);
    }
  }

  lemma NoReturnInLine(line: string, lines: seq<string>)
    requires '\r' !in line && '\r' !in Join(lines)
    ensures '\r' !in Join((if Trim(line) == [] then [] else [Trim(line)]) + lines)
  {
    TrimTrims(line);
    JoinFirst(Trim(line), lines);
    assert [] + lines == lines;
  }

  lemma {:induction false} NoReturnInTidy(lines: seq<string>)
    requires forall line <- lines :: '\r' !in line
    ensures '\r' !in Join(Tidy(lines))
  {
    if lines != [] {
      assert lines[0] in lines;
      NoReturnInTidy(lines[1..]);
      NoReturnInLine(lines[0], Tidy(lines[1..]));
    }
  }

  lemma {:induction false} LinesHoldNoReturn(s: string)
    requires '\r' !in s
    ensures forall line <- Lines(s) :: '\r' !in line
    decreases |s|
  {
    if s != [] && SplitOnce(s, '\n').1.Some? {
      LinesHoldNoReturn(SplitOnce(s, '\n').1.value);
    }
  }

  lemma NoReturnInClose(style: Style, p: Pen)
    ensures '\r' !in OpenStyle(style) && '\r' !in CloseAll(p)
  {
  }

  /** A script without carriage returns gives bodies without any. */
  lemma BodyHasNoReturn(text: string, style: Style)
    requires '\r' !in text
    ensures '\r' !in TextOf(text, style).0
  {
    NoReturnWritten(text, style, Start(style));
    NoReturnInClose(style, Write(text, style, Start(style)).1);
    LinesHoldNoReturn(Written(text, style));
    NoReturnInTidy(Lines(Written(text, style)));
  }
}
