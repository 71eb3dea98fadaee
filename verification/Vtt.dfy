/**
 ASS to WebVTT (crates/anistream-cast/src/vtt.rs, `convert`, `time` and `stamp`), and a reader of
 what it prints. How a number with a fraction is read and how a name is split into words are inputs.
 */
module Vtt {
  import opened Bytes
  import opened Sorting
  import opened Strings
  import opened VttText

  /** How floating-point text reads, and a style's name as lower-case words. */
  datatype Locale = Locale(number: string -> Option<real>, words: string -> seq<string>)

  // ----- Times -----


  /** `round` and a cast to 64 bits: what is below zero becomes zero. */
  function Rounded(x: real): nat {
    if x < 0.0 then 0
    else
      var n := (x + 0.5).Floor;
      if n >= WORD64 then WORD64 - 1 else n
  }

  /** `h:mm:ss.cc` in milliseconds, in 64 bits that wrap. */
  function Time(l: Locale, text: string): (r: Option<nat>)
    ensures r.Some? ==> r.value < WORD64
  {
    var parts := SplitAll(Trim(text), ':');
    if |parts| < 3 then None
    else
      match (Parse(parts[0], WORD64), Parse(parts[1], WORD64), l.number(parts[2]))
      case (Some(h), Some(m), Some(s)) => Some((h * 3_600_000 + m * 60_000 + Rounded(s * 1000.0)) % WORD64)
      case _ => None
  }

  function Digits(n: nat): (r: string)
    ensures r != []
  {
    if n < 10 then ['0' + n as char] else Digits(n / 10) + ['0' + (n % 10) as char]
  }

  /** At least `width` digits, zeros before. */
  function Padded(n: nat, width: nat): string {
    Zeros(if |Digits(n)| < width then width - |Digits(n)| else 0) + Digits(n)
  }

  function Zeros(n: nat): string { if n == 0 then [] else ['0'] + Zeros(n - 1) }

  function Seconds(ms: nat): string { Padded(ms / 1000 % 60, 2) + ['.'] + Padded(ms % 1000, 3) }

  /** `hh:mm:ss.mmm`. */
  function Stamp(ms: nat): string {
    Padded(ms / 3_600_000, 2) + [':'] + (Padded(ms / 60_000 % 60, 2) + [':'] + Seconds(ms))
  }

  predicate AllDigits(s: string) { forall c <- s :: IsDigit(c) }

  lemma {:induction false} DigitsRead(n: nat)
    ensures AllDigits(Digits(n)) && Decimal(Digits(n)) == Some(n)
  {
    if n >= 10 {
      DigitsRead(n / 10);
      var s := Digits(n);
      assert s[..|s| - 1] == Digits(n / 10);
    }
  }

  lemma {:induction false} ZerosRead(n: nat, s: string)
    requires AllDigits(s) && Decimal(s).Some?
    ensures AllDigits(Zeros(n) + s) && Decimal(Zeros(n) + s) == Decimal(s)
  {
    if n == 0 {
      assert [] + s == s;
    } else {
      ZerosRead(n - 1, s);
      assert Zeros(n) + s == ['0'] + (Zeros(n - 1) + s);
      ZeroFirst(Zeros(n - 1) + s);
    }
  }

  lemma {:induction false} ZeroFirst(s: string)
    requires Decimal(s).Some?
    ensures Decimal(['0'] + s) == Decimal(s)
  {
    var t := ['0'] + s;
    if |s| == 1 {
      assert t[..1] == ['0'];
      assert Decimal(['0']) == Some(0);
    } else {
      assert t[..|t| - 1] == ['0'] + s[..|s| - 1];
      ZeroFirst(s[..|s| - 1]);
    }
  }

  lemma PaddedReads(n: nat, width: nat)
    ensures AllDigits(Padded(n, width)) && Decimal(Padded(n, width)) == Some(n)
    ensures Padded(n, width) != []
  {
    DigitsRead(n);
    ZerosRead(if |Digits(n)| < width then width - |Digits(n)| else 0, Digits(n));
  }

  lemma DigitsParse(s: string, n: nat)
    requires AllDigits(s) && Decimal(s) == Some(n) && n < WORD64
    ensures Parse(s, WORD64) == Some(n)
  {
    if s != [] {
      assert s[0] in s;
    }
  }

  lemma NotAmongDigits(s: string, c: char)
    requires AllDigits(s) && !IsDigit(c)
    ensures c !in s
  {
  }

  /** Decimals read as what they say. */
  ghost predicate ReadsSeconds(l: Locale) {
    forall ms: nat :: l.number(Seconds(ms)) == Some(Fraction(ms))
  }

  lemma SplitThree(a: string, b: string, c: string)
    requires ':' !in a && ':' !in b && ':' !in c
    ensures SplitAll(a + [':'] + (b + [':'] + c), ':') == [a, b, c]
  {
    SplitsAt(a, ':', b + [':'] + c);
    SplitsAt(b, ':', c);
    SplitsNowhere(c, ':');
    assert SplitAll(c, ':') == [c];
    assert SplitAll(b + [':'] + c, ':') == [b] + [c];
  }

  lemma StampTrimmed(ms: nat)
    ensures Trimmed(Stamp(ms)) && ' ' !in Stamp(ms) && '\n' !in Stamp(ms)
    ensures ':' !in Seconds(ms)
  {
    var h, m := Padded(ms / 3_600_000, 2), Padded(ms / 60_000 % 60, 2);
    PaddedReads(ms / 3_600_000, 2);
    PaddedReads(ms / 60_000 % 60, 2);
    SecondsPlain(ms);
    var s := Stamp(ms);
    assert forall c <- s :: IsDigit(c) || c == ':' || c == '.';
    assert s[0] in s && s[|s| - 1] in s;
    GraphicIsNotWhite(s[0]);
    GraphicIsNotWhite(s[|s| - 1]);
  }

  lemma SecondsPlain(ms: nat)
    ensures Seconds(ms) != [] && forall c <- Seconds(ms) :: IsDigit(c) || c == '.'
  {
    PaddedReads(ms / 1000 % 60, 2);
    PaddedReads(ms % 1000, 3);
  }

  lemma Whole(ms: nat)
    ensures Rounded(((ms / 1000 % 60) as real + (ms % 1000) as real / 1000.0) * 1000.0)
         == ms / 1000 % 60 * 1000 + ms % 1000
    ensures ms / 3_600_000 * 3_600_000 + ms / 60_000 % 60 * 60_000 + (ms / 1000 % 60 * 1000 + ms % 1000) == ms
  {
    var a, b := ms / 1000 % 60, ms % 1000;
    assert (a as real + b as real / 1000.0) * 1000.0 == (a * 1000 + b) as real;
    assert ((a * 1000 + b) as real + 0.5).Floor == a * 1000 + b;
    Clock(ms);
  }

  lemma Clock(ms: nat)
    ensures ms / 3_600_000 * 3_600_000 + ms / 60_000 % 60 * 60_000 + (ms / 1000 % 60 * 1000 + ms % 1000) == ms
  {
    var seconds, minutes := ms / 1000, ms / 60_000;
    assert minutes == seconds / 60;
    assert ms / 3_600_000 == minutes / 60;
  }

  lemma TimeIs(
    l: Locale, text: string, a: string, b: string, c: string, h: nat, m: nat, x: real, ms: nat)
    requires SplitAll(Trim(text), ':') == [a, b, c]
    requires Parse(a, WORD64) == Some(h) && Parse(b, WORD64) == Some(m) && l.number(c) == Some(x)
    requires ms == h * 3_600_000 + m * 60_000 + Rounded(x * 1000.0) < WORD64
    ensures Time(l, text) == Some(ms)
  {
  }

  lemma StampSplits(ms: nat)
    ensures SplitAll(Trim(Stamp(ms)), ':')
         == [Padded(ms / 3_600_000, 2), Padded(ms / 60_000 % 60, 2), Seconds(ms)]
  {
    var h, m := Padded(ms / 3_600_000, 2), Padded(ms / 60_000 % 60, 2);
    PaddedReads(ms / 3_600_000, 2);
    PaddedReads(ms / 60_000 % 60, 2);
    NotAmongDigits(h, ':');
    NotAmongDigits(m, ':');
    StampTrimmed(ms);
    TrimmedStays(Stamp(ms));
    SplitThree(h, m, Seconds(ms));
  }

  lemma PaddedParses(n: nat)
    requires n < WORD64
    ensures Parse(Padded(n, 2), WORD64) == Some(n)
  {
    PaddedReads(n, 2);
    DigitsParse(Padded(n, 2), n);
  }

  function Fraction(ms: nat): real { (ms / 1000 % 60) as real + (ms % 1000) as real / 1000.0 }

  lemma SecondsRead(l: Locale, ms: nat)
    requires ReadsSeconds(l)
    ensures l.number(Seconds(ms)) == Some(Fraction(ms))
  {
  }

  lemma PartsAddUp(ms: nat)
    ensures ms / 3_600_000 * 3_600_000 + ms / 60_000 % 60 * 60_000 + Rounded(Fraction(ms) * 1000.0) == ms
  {
    Whole(ms);
  }

  lemma TimeOfParts(l: Locale, text: string, h: nat, m: nat, c: string, x: real, ms: nat)
    requires SplitAll(Trim(text), ':') == [Padded(h, 2), Padded(m, 2), c]
    requires l.number(c) == Some(x) && h < WORD64 && m < WORD64
    requires ms == h * 3_600_000 + m * 60_000 + Rounded(x * 1000.0) < WORD64
    ensures Time(l, text) == Some(ms)
  {
    PaddedParses(h);
    PaddedParses(m);
    TimeIs(l, text, Padded(h, 2), Padded(m, 2), c, h, m, x, ms);
  }

  /** Reading a printed time gives the time. */
  lemma TimeUndoesStamp(l: Locale, ms: nat)
    requires ReadsSeconds(l) && ms < WORD64
    ensures Time(l, Stamp(ms)) == Some(ms)
  {
    var h, m := ms / 3_600_000, ms / 60_000 % 60;
    SecondsRead(l, ms);
    StampSplits(ms);
    PartsAddUp(ms);
    TimeOfParts(l, Stamp(ms), h, m, Seconds(ms), Fraction(ms), ms);
  }

  // ----- One event -----

  datatype Cue = Cue(start: nat, end: nat, settings: string, body: string)

  datatype Tally = Tally(
    events: nat, kept: nat, typesetting: nat, songs: nat, drawings: nat, duplicates: nat, empty: nat)

  const SIGN_WORDS: seq<string> := ["sign", "signs", "title", "ts", "typeset", "caption"]
  const NOTE_WORDS: seq<string> := ["note", "notes", "tl"]
  const SONG_WORDS: seq<string> :=
    ["op", "ed", "song", "songs", "kara", "karaoke", "lyrics", "insert", "opening", "ending",
     "romaji", "kanji", "eng-op", "eng-ed"]

  /** Every override tag in the text, without its backslash. */
  function OverrideTags(text: string): seq<string>
    decreases |text|
  {
    match SplitOnce(text, '{')
    case (_, None) => []
    case (_, Some(inner)) =>
      match SplitOnce(inner, '}')
      case (_, None) => []
      case (block, Some(rest)) => TagsOf(block) + OverrideTags(rest)
  }

  predicate IsDrawing(tag: string) {
    match StripPrefix(tag, "p")
    case None => false
    case Some(n) => Parse(n, 0x1_0000_0000).Some? && Parse(n, 0x1_0000_0000).value > 0
  }

  predicate Timed(tag: string, prefix: string) {
    match StripPrefix(tag, prefix)
    case None => false
    case Some(n) => n != [] && forall c <- n :: IsDigit(c)
  }

  predicate IsKaraoke(tag: string) {
    Timed(tag, "k") || Timed(tag, "K") || Timed(tag, "kf") || Timed(tag, "ko")
  }

  predicate Turned(l: Locale, tag: string, prefix: string) {
    match StripPrefix(tag, prefix)
    case None => false
    case Some(n) =>
      match l.number(n)
      case None => false
      case Some(x) => x > 0.01 || x < -0.01
  }

  predicate IsTypeset(l: Locale, tag: string) {
    || StartsWith(tag, "move(") || StartsWith(tag, "org(")
    || StartsWith(tag, "clip(") || StartsWith(tag, "iclip(")
    || Turned(l, tag, "frz") || Turned(l, tag, "frx") || Turned(l, tag, "fry")
    || Turned(l, tag, "fr") || Turned(l, tag, "fax") || Turned(l, tag, "fay")
  }

  function TrimClosing(s: string): string {
    if s != [] && s[|s| - 1] == ')' then TrimClosing(s[..|s| - 1]) else s
  }

  /** The height a tag places the line at. */
  function PositionY(l: Locale, tag: string): Option<real> {
    match StripPrefix(tag, "pos(")
    case None => None
    case Some(inner) =>
      var parts := SplitAll(TrimClosing(inner), ',');
      if |parts| < 2 then None else l.number(Trim(parts[1]))
  }

  function FirstY(l: Locale, tags: seq<string>): Option<real> {
    if tags == [] then None
    else if PositionY(l, tags[0]).Some? then PositionY(l, tags[0])
    else FirstY(l, tags[1..])
  }

  /** A placed line's alignment: its column, in the third of the screen it stands in. */
  function Placed(alignment: nat, y: real, height: real): nat {
    var column := (if alignment > 0 then alignment - 1 else 0) % 3 + 1;
    if height == 0.0 then (if y < 0.0 then 6 + column else column)
    else if y / height < 0.34 then 6 + column
    else if y / height < 0.66 then 3 + column
    else column
  }

  function Settings(alignment: nat): string {
    (if 7 <= alignment <= 9 then " line:5%" else if 4 <= alignment <= 6 then " line:50%" else "")
    + (if alignment % 3 == 1 then " position:10% align:start"
       else if alignment % 3 == 0 then " position:90% align:end" else "")
  }

  /** What becomes of an event. */
  datatype Fate = Unread | Song | Sign | Drawing | Empty | Duplicate | Kept(cue: Cue)

  /** An event as its line gives it. */
  datatype Event = Event(start: string, end: string, style: string, text: string)

  /** Whether one of the words is on the list. */
  predicate AnyWord(words: seq<string>, list: seq<string>) {
    words != [] && (words[0] in list || AnyWord(words[1..], list))
  }

  predicate AnyTag(tags: seq<string>, p: string -> bool) {
    tags != [] && (p(tags[0]) || AnyTag(tags[1..], p))
  }

  /** Why an event is not shown at all. */
  datatype Bar = SongBar | SignBar | DrawingBar

  function Barred(l: Locale, words: seq<string>, tags: seq<string>): Option<Bar> {
    if AnyWord(words, SONG_WORDS) then Some(SongBar)
    else if AnyWord(words, SIGN_WORDS) then Some(SignBar)
    else if AnyTag(tags, (t: string) => IsDrawing(t)) then Some(DrawingBar)
    else if AnyTag(tags, (t: string) => IsKaraoke(t)) then Some(SongBar)
    else if AnyTag(tags, (t: string) => IsTypeset(l, t)) then Some(SignBar)
    else None
  }

  /** Where a shown event stands. */
  function Stands(
    l: Locale, words: seq<string>, tags: seq<string>, height: real, alignment: nat): nat
  {
    var y := FirstY(l, tags);
    if AnyWord(words, NOTE_WORDS) then 8
    else if y.Some? then Placed(alignment, y.value, height) else alignment
  }

  /** A cue, unless it says nothing or was said. */
  function Shown(cue: Cue, seen: set<(nat, nat, string)>): Fate {
    if Trim(cue.body) == [] then Empty
    else if (cue.start, cue.end, cue.body) in seen then Duplicate
    else Kept(cue)
  }

  /** What becomes of an event, by its times, what bars it, and the cue it would make. */
  function Judged(
    times: Option<(nat, nat)>, bar: Option<Bar>, cue: Cue, seen: set<(nat, nat, string)>): Fate
  {
    match times
    case None => Unread
    case Some((start, end)) =>
      match bar
      case Some(SongBar) => Song
      case Some(SignBar) => Sign
      case Some(DrawingBar) => Drawing
      case None => Shown(cue.(start := start, end := end), seen)
  }

  function TimesOf(l: Locale, e: Event): Option<(nat, nat)> {
    match (Time(l, e.start), Time(l, e.end))
    case (Some(start), Some(end)) => Some((start, end))
    case _ => None
  }

  function StyleNamed(styles: map<string, Style>, name: string): Style {
    if name in styles then styles[name] else DEFAULT
  }

  /** The cue an event makes, but for its times. */
  function CueOf(l: Locale, styles: map<string, Style>, height: real, e: Event): Cue {
    var name := Trim(e.style);
    var (body, alignment) := TextOf(e.text, StyleNamed(styles, name));
    Cue(0, 0, Settings(Stands(l, l.words(name), OverrideTags(e.text), height, alignment)), body)
  }

  /** What becomes of an event of a script read so far. */
  function FateOf(l: Locale): (Script, Event) -> Fate {
    (s: Script, e: Event) =>
      Judged(TimesOf(l, e), Barred(l, l.words(Trim(e.style)), OverrideTags(e.text)),
             CueOf(l, s.styles, s.height, e), s.book.seen)
  }

  /** The events told apart by what became of them; those unread are counted here alone. */
  datatype Book = Book(
    cues: seq<Cue>, seen: set<(nat, nat, string)>, tally: Tally, unread: nat)

  const NO_CUES := Book([], {}, Tally(0, 0, 0, 0, 0, 0, 0), 0)

  function Enter(b: Book, fate: Fate): Book {
    var t := b.tally.(events := b.tally.events + 1);
    match fate
    case Unread => b.(tally := t, unread := b.unread + 1)
    case Song => b.(tally := t.(songs := t.songs + 1))
    case Sign => b.(tally := t.(typesetting := t.typesetting + 1))
    case Drawing => b.(tally := t.(drawings := t.drawings + 1))
    case Empty => b.(tally := t.(empty := t.empty + 1))
    case Duplicate => b.(tally := t.(duplicates := t.duplicates + 1))
    case Kept(cue) =>
      Book(b.cues + [cue], b.seen + {(cue.start, cue.end, cue.body)}, t.(kept := t.kept + 1), b.unread)
  }

  // ----- The script -----

  datatype Script = Script(
    section: string, styleFormat: seq<string>, eventFormat: seq<string>, styles: map<string, Style>,
    height: real, book: Book)

  const BLANK := Script([], [], [], map[], 288.0, NO_CUES)

  function TrimMark(s: string): string {
    if s != [] && s[0] == '\U{feff}' then TrimMark(s[1..]) else s
  }

  /** At most `n` parts of `s` between commas. */
  function SplitN(s: string, n: nat): seq<string>
    decreases n
  {
    if n <= 1 then [s]
    else
      match SplitOnce(s, ',')
      case (head, None) => [head]
      case (head, Some(tail)) => [head] + SplitN(tail, n - 1)
  }

  function Names(parts: seq<string>): seq<string> {
    if parts == [] then [] else [Lowered(Trim(parts[0]))] + Names(parts[1..])
  }

  function IndexOf(format: seq<string>, name: string): Option<nat> {
    if format == [] then None
    else if format[0] == name then Some(0)
    else
      match IndexOf(format[1..], name)
      case None => None
      case Some(i) => Some(i + 1)
  }

  function Field(format: seq<string>, fields: seq<string>, name: string): Option<string> {
    match IndexOf(format, name)
    case None => None
    case Some(i) => if i < |fields| then Some(fields[i]) else None
  }

  function OrEmpty(s: Option<string>): string { if s.Some? then s.value else [] }

  function Fields(format: seq<string>, rest: string): seq<string> {
    SplitN(rest, if |format| > 1 then |format| else 1)
  }

  function EventOf(s: Script, rest: string): Event {
    var fields := Fields(s.eventFormat, rest);
    Event(OrEmpty(Field(s.eventFormat, fields, "start")), OrEmpty(Field(s.eventFormat, fields, "end")),
          OrEmpty(Field(s.eventFormat, fields, "style")), OrEmpty(Field(s.eventFormat, fields, "text")))
  }

  /** A style's name, and the style. */
  function StyleOf(s: Script, rest: string): (string, Style) {
    var fields := Fields(s.styleFormat, rest);
    var alignment := Field(s.styleFormat, fields, "alignment");
    var bold, italic := Field(s.styleFormat, fields, "bold"), Field(s.styleFormat, fields, "italic");
    var parsed := if alignment.Some? then Parse(Trim(alignment.value), 0x100) else None;
    (Trim(OrEmpty(Field(s.styleFormat, fields, "name"))),
     Style(if parsed.Some? then parsed.value else 2,
           bold.Some? && Trim(bold.value) != "0", italic.Some? && Trim(italic.value) != "0"))
  }

  predicate InStyles(section: string) { section == "[v4+ styles]" || section == "[v4 styles]" }

  /** What a line of the script says. */
  datatype Says =
    | Nothing
    | Section(name: string)
    | Height(height: Option<real>)
    | StyleFormat(names: seq<string>)
    | StyleNamed'(name: string, style: Style)
    | EventFormat(names: seq<string>)
    | Dialogue(event: Event)

  /** What kind of line a section's is, by what stands before its colon. */
  datatype Kind = NoKind | HeightKind | StyleFormatKind | StyleKind | EventFormatKind | DialogueKind

  function KindOf(section: string, kind: string): Kind {
    if section == "[script info]" && kind == "PlayResY" then HeightKind
    else if InStyles(section) && kind == "Format" then StyleFormatKind
    else if InStyles(section) && kind == "Style" then StyleKind
    else if section == "[events]" && kind == "Format" then EventFormatKind
    else if section == "[events]" && kind == "Dialogue" then DialogueKind
    else NoKind
  }

  /** What stands behind a colon says, by the line's kind. */
  function SaysAs(l: Locale, kind: Kind, s: Script, rest: string): Says {
    match kind
    case HeightKind => Height(l.number(Trim(rest)))
    case StyleFormatKind => StyleFormat(Names(SplitAll(rest, ',')))
    case StyleKind => StyleNamed'(StyleOf(s, rest).0, StyleOf(s, rest).1)
    case EventFormatKind => EventFormat(Names(SplitAll(rest, ',')))
    case DialogueKind => Dialogue(EventOf(s, rest))
    case NoKind => Nothing
  }

  /** How a script's section and a line's kind read on. */
  type Reading = (Script, string, string) -> Says

  function ReadingOf(l: Locale): Reading {
    (s: Script, kind: string, rest: string) => SaysAs(l, KindOf(s.section, kind), s, rest)
  }

  function SaysBy(reading: Reading, s: Script, raw: string): Says {
    var line := TrimEnd(TrimMark(raw));
    if Begins(line, '[') then Section(Lowered(line))
    else
      match SplitOnce(line, ':')
      case (_, None) => Nothing
      case (kind, Some(after)) => reading(s, kind, TrimStart(after))
  }

  function SaysOf(l: Locale): (Script, string) -> Says {
    (s: Script, raw: string) => SaysBy(ReadingOf(l), s, raw)
  }

  function Heed(judge: (Script, Event) -> Fate, s: Script, says: Says): Script {
    match says
    case Nothing => s
    case Section(name) => s.(section := name)
    case Height(n) => if n.Some? then s.(height := n.value) else s
    case StyleFormat(names) => s.(styleFormat := names)
    case StyleNamed'(name, style) => s.(styles := s.styles[name := style])
    case EventFormat(names) => s.(eventFormat := names)
    case Dialogue(e) => s.(book := Enter(s.book, judge(s, e)))
  }

  /** One line of the script: what it says is heeded. */
  function ReadBy(judge: (Script, Event) -> Fate, says: (Script, string) -> Says)
    : (Script, string) -> Script
  {
    (s: Script, raw: string) => Heed(judge, s, says(s, raw))
  }

  function ReadLine(l: Locale): (Script, string) -> Script {
    ReadBy(FateOf(l), SaysOf(l))
  }

  function ReadLines(read: (Script, string) -> Script, s: Script, lines: seq<string>): Script
    decreases |lines|
  {
    if lines == [] then s else ReadLines(read, read(s, lines[0]), lines[1..])
  }

  // ----- Printing -----

  predicate CueLe(a: Cue, b: Cue) { a.start < b.start || (a.start == b.start && a.end <= b.end) }

  const CUE_ORDER: (Cue, Cue) -> bool := (a, b) => CueLe(a, b)

  function TimesLine(c: Cue): string { Stamp(c.start) + " --> " + Stamp(c.end) + c.settings }

  function CueText(c: Cue): string { TimesLine(c) + "\n" + c.body + "\n\n" }

  function CuesText(cues: seq<Cue>): string {
    if cues == [] then [] else CueText(cues[0]) + CuesText(cues[1..])
  }

  function Printed(cues: seq<Cue>): string { "WEBVTT\n\n" + CuesText(cues) }

  /** `convert`: the text and the tally. */
  function Converted(l: Locale, ass: string): (string, Tally) {
    var book := ReadLines(ReadLine(l), BLANK, Lines(ass)).book;
    (Printed(Sort(CUE_ORDER, book.cues)), book.tally)
  }

  method Convert(l: Locale, ass: string) returns (out: string, tally: Tally)
    ensures (out, tally) == Converted(l, ass)
  {
    var script := BLANK;
    var lines := Lines(ass);
    var read := ReadLine(l);
    assert lines[0..] == lines;
    for i := 0 to |lines|
      invariant ReadLines(read, script, lines[i..]) == ReadLines(read, BLANK, lines)
    {
      assert lines[i..][1..] == lines[i + 1..];
      script := read(script, lines[i]);
    }
    out := Print(Sort(CUE_ORDER, script.book.cues));
    tally := script.book.tally;
  }

  method Print(cues: seq<Cue>) returns (out: string)
    ensures out == Printed(cues)
  {
    out := "WEBVTT\n\n";
    ghost var want := CuesText(cues);
    for i := 0 to |cues|
      invariant "WEBVTT\n\n" + want == out + CuesText(cues[i..])
    {
      assert cues[i..][1..] == cues[i + 1..];
      Regroup(out, CueText(cues[i]), CuesText(cues[i + 1..]));
      out := out + CueText(cues[i]);
    }
    assert out + [] == out;
  }

  // ----- What the tally accounts for -----

  /** Every event whose times read is in the tally once; the cues are the kept ones, none twice. */
  ghost predicate Accounts(b: Book) {
    var t := b.tally;
    && t.events == b.unread + t.kept + t.typesetting + t.songs + t.drawings + t.duplicates + t.empty
    && t.kept == |b.cues|
    && (forall i | 0 <= i < |b.cues| :: KeyOf(b.cues[i]) in b.seen)
    && (forall i, j | 0 <= i < j < |b.cues| :: KeyOf(b.cues[i]) != KeyOf(b.cues[j]))
  }

  function KeyOf(c: Cue): (nat, nat, string) { (c.start, c.end, c.body) }

  lemma EnterAccounts(b: Book, fate: Fate)
    requires Accounts(b)
    requires fate.Kept? ==> KeyOf(fate.cue) !in b.seen
    ensures Accounts(Enter(b, fate))
  {
  }

  lemma JudgedIsNew(
    times: Option<(nat, nat)>, bar: Option<Bar>, cue: Cue, seen: set<(nat, nat, string)>)
    ensures Judged(times, bar, cue, seen).Kept? ==> KeyOf(Judged(times, bar, cue, seen).cue) !in seen
  {
  }

  /** What is said once is not kept again. */
  ghost predicate KeepsNew(judge: (Script, Event) -> Fate) {
    forall s: Script, e: Event :: judge(s, e).Kept? ==> KeyOf(judge(s, e).cue) !in s.book.seen
  }

  lemma FatesAreNew(l: Locale)
    ensures KeepsNew(FateOf(l))
  {
    forall s: Script, e: Event
      ensures FateOf(l)(s, e).Kept? ==> KeyOf(FateOf(l)(s, e).cue) !in s.book.seen
    {
      JudgedIsNew(TimesOf(l, e), Barred(l, l.words(Trim(e.style)), OverrideTags(e.text)),
                  CueOf(l, s.styles, s.height, e), s.book.seen);
    }
  }

  lemma HeedAccounts(judge: (Script, Event) -> Fate, s: Script, says: Says)
    requires KeepsNew(judge) && Accounts(s.book)
    ensures Accounts(Heed(judge, s, says).book)
  {
    if says.Dialogue? {
      EnterAccounts(s.book, judge(s, says.event));
    }
  }

  lemma {:induction false} LinesAccount(
    judge: (Script, Event) -> Fate, says: (Script, string) -> Says, s: Script, lines: seq<string>)
    requires KeepsNew(judge) && Accounts(s.book)
    ensures Accounts(ReadLines(ReadBy(judge, says), s, lines).book)
    decreases |lines|
  {
    if lines != [] {
      var next := ReadBy(judge, says)(s, lines[0]);
      HeedAccounts(judge, s, says(s, lines[0]));
      LinesAccount(judge, says, next, lines[1..]);
    }
  }

  /** The events and cues of a whole script. */
  function BookOf(l: Locale, ass: string): Book { ReadLines(ReadLine(l), BLANK, Lines(ass)).book }

  /**
   The tally of any script accounts for every event whose times read, once; the cues are as many as
   were kept, and no two say the same at the same times.
   */
  lemma TallyAccounts(l: Locale, ass: string)
    ensures Accounts(BookOf(l, ass))
  {
    FatesAreNew(l);
    LinesAccount(FateOf(l), SaysOf(l), BLANK, Lines(ass));
  }

  // ----- Every cue prints well -----

  predicate ArrowAt(s: string, i: nat) { i + 3 <= |s| && s[i..i + 3] == "-->" }

  /** A body of lines, none blank, with no arrow, and tags that open and close in turn. */
  ghost predicate FineBody(body: string) {
    && Lines(body) != [] && Tidied(Lines(body)) && Join(Lines(body)) == body
    && (forall i: nat :: !ArrowAt(body, i))
    && Leads(NONE, body, NONE)
  }

  predicate FineSettings(settings: string) { '\n' !in settings && (settings != [] ==> settings[0] == ' ') }

  ghost predicate Fine(c: Cue) {
    c.start < WORD64 && c.end < WORD64 && FineSettings(c.settings) && FineBody(c.body)
  }

  lemma TidiedParts(lines: seq<string>)
    requires Tidied(lines) && lines != []
    ensures lines[0] != [] && '\n' !in lines[0] && Tidied(lines[1..])
  {
    assert lines[0] in lines;
    forall line | line in lines[1..] ensures line in lines {
    }
  }

  lemma {:induction false} LinesOfJoin(lines: seq<string>)
    requires Tidied(lines)
    ensures Lines(Join(lines)) == lines
  {
    if lines != [] {
      TidiedParts(lines);
      assert lines == [lines[0]] + lines[1..];
      LinesOfJoin(lines[1..]);
      JoinFirst(lines[0], lines[1..]);
      LinesFirst(lines[0], Join(lines[1..]));
      assert lines[0] + ['\n'] + Join(lines[1..]) == lines[0] + (['\n'] + Join(lines[1..]));
    }
  }

  lemma BodyIsFine(text: string, style: Style)
    requires Trim(TextOf(text, style).0) != []
    ensures FineBody(TextOf(text, style).0)
  {
    var body := TextOf(text, style).0;
    BodyHasNoBlankLine(text, style);
    LinesOfJoin(BodyLines(text, style));
    BodyTagsAlternate(text, style);
    forall i: nat ensures !ArrowAt(body, i) {
      if i + 3 <= |body| {
        NoArrow(NONE, body, NONE, i);
      }
    }
  }

  lemma SettingsAreFine(alignment: nat)
    ensures FineSettings(Settings(alignment))
  {
  }

  lemma JudgedIsFine(
    times: Option<(nat, nat)>, bar: Option<Bar>, cue: Cue, seen: set<(nat, nat, string)>)
    requires times.Some? ==> times.value.0 < WORD64 && times.value.1 < WORD64
    requires FineSettings(cue.settings) && (Trim(cue.body) != [] ==> FineBody(cue.body))
    ensures Judged(times, bar, cue, seen).Kept? ==> Fine(Judged(times, bar, cue, seen).cue)
  {
  }

  ghost predicate KeepsFine(judge: (Script, Event) -> Fate) {
    forall s: Script, e: Event :: judge(s, e).Kept? ==> Fine(judge(s, e).cue)
  }

  lemma CueIsFine(l: Locale, styles: map<string, Style>, height: real, e: Event)
    ensures
      var cue := CueOf(l, styles, height, e);
      FineSettings(cue.settings) && (Trim(cue.body) != [] ==> FineBody(cue.body))
  {
    var name := Trim(e.style);
    var style := StyleNamed(styles, name);
    SettingsAreFine(Stands(l, l.words(name), OverrideTags(e.text), height, TextOf(e.text, style).1));
    if Trim(TextOf(e.text, style).0) != [] {
      BodyIsFine(e.text, style);
    }
  }

  lemma FateIsFine(l: Locale, s: Script, e: Event)
    ensures
      var fate := Judged(TimesOf(l, e), Barred(l, l.words(Trim(e.style)), OverrideTags(e.text)),
                         CueOf(l, s.styles, s.height, e), s.book.seen);
      fate.Kept? ==> Fine(fate.cue)
  {
    CueIsFine(l, s.styles, s.height, e);
    JudgedIsFine(TimesOf(l, e), Barred(l, l.words(Trim(e.style)), OverrideTags(e.text)),
                 CueOf(l, s.styles, s.height, e), s.book.seen);
  }

  lemma FatesAreFine(l: Locale)
    ensures KeepsFine(FateOf(l))
  {
    forall s: Script, e: Event ensures FateOf(l)(s, e).Kept? ==> Fine(FateOf(l)(s, e).cue) {
      FateIsFine(l, s, e);
    }
  }

  ghost predicate AllFine(cues: seq<Cue>) { forall c <- cues :: Fine(c) }

  lemma EnterFine(b: Book, fate: Fate)
    requires AllFine(b.cues) && (fate.Kept? ==> Fine(fate.cue))
    ensures AllFine(Enter(b, fate).cues)
  {
  }

  lemma HeedFine(judge: (Script, Event) -> Fate, s: Script, says: Says)
    requires KeepsFine(judge) && AllFine(s.book.cues)
    ensures AllFine(Heed(judge, s, says).book.cues)
  {
    if says.Dialogue? {
      EnterFine(s.book, judge(s, says.event));
    }
  }

  lemma {:induction false} LinesFine(
    judge: (Script, Event) -> Fate, says: (Script, string) -> Says, s: Script, lines: seq<string>)
    requires KeepsFine(judge) && AllFine(s.book.cues)
    ensures AllFine(ReadLines(ReadBy(judge, says), s, lines).book.cues)
    decreases |lines|
  {
    if lines != [] {
      var next := ReadBy(judge, says)(s, lines[0]);
      HeedFine(judge, s, says(s, lines[0]));
      LinesFine(judge, says, next, lines[1..]);
    }
  }

  /** Every cue of any script prints well. */
  lemma CuesAreFine(l: Locale, ass: string)
    ensures AllFine(BookOf(l, ass).cues)
  {
    FatesAreFine(l);
    LinesFine(FateOf(l), SaysOf(l), BLANK, Lines(ass));
  }

  // ----- No carriage return -----

  /** A line that holds a carriage return, if any, only as its last character. */
  predicate ReturnAtEnd(line: string) {
    forall i | 0 <= i < |line| - 1 :: line[i] != '\r'
  }

  /** Every carriage return stands right before a line feed. */
  predicate NoBareReturn(text: string) {
    forall i | 0 <= i < |text| && text[i] == '\r' :: i + 1 < |text| && text[i + 1] == '\n'
  }

  lemma FirstLineReturns(line: string, rest: string)
    requires NoBareReturn(line + ['\n'] + rest)
    ensures ReturnAtEnd(line) || '\n' in line
    ensures NoBareReturn(rest)
  {
    var text := line + ['\n'] + rest;
    forall i | 0 <= i < |rest| && rest[i] == '\r' ensures i + 1 < |rest| && rest[i + 1] == '\n' {
      assert text[|line| + 1 + i] == rest[i];
      assert text[|line| + 1 + i + 1] == '\n';
    }
    if '\n' !in line {
      forall i | 0 <= i < |line| - 1 ensures line[i] != '\r' {
        assert text[i] == line[i] && text[i + 1] == line[i + 1];
        assert line[i + 1] in line;
      }
    }
  }

  lemma {:induction false} LinesReturnAtEnd(text: string)
    requires NoBareReturn(text)
    ensures forall line <- Lines(text) :: ReturnAtEnd(line)
    decreases |text|
  {
    if text != [] {
      var (line, tail) := SplitOnce(text, '\n');
      if tail.Some? {
        assert text == line + ['\n'] + tail.value;
        FirstLineReturns(line, tail.value);
        LinesReturnAtEnd(tail.value);
      } else {
        assert text == line && Lines(text) == [line];
        forall i | 0 <= i < |line| - 1 ensures line[i] != '\r' {
          assert line[i + 1] in line && line[i + 1] != '\n';
        }
      }
    }
  }

  lemma ReturnIsWhite()
    ensures IsWhite('\r')
  {
    assert WhiteRange(0) == (0x09, 0x0D);
  }

  lemma {:induction false} TrimMarkKeeps(line: string)
    requires ReturnAtEnd(line)
    ensures ReturnAtEnd(TrimMark(line))
  {
    if line != [] && line[0] == '\U{feff}' {
      forall i | 0 <= i < |line[1..]| - 1 ensures line[1..][i] != '\r' {
        assert line[1..][i] == line[i + 1];
      }
      TrimMarkKeeps(line[1..]);
    }
  }

  /** Trimming takes the carriage return off. */
  lemma TrimmedOff(line: string)
    requires ReturnAtEnd(line)
    ensures '\r' !in TrimEnd(TrimMark(line))
  {
    var s := TrimMark(line);
    TrimMarkKeeps(line);
    ReturnIsWhite();
    var r := TrimEnd(s);
    forall i | 0 <= i < |r| ensures r[i] != '\r' {
      assert r[i] == s[i];
    }
  }

  lemma {:induction false} NoReturnInParts(s: string, n: nat)
    requires '\r' !in s
    ensures forall part <- SplitN(s, n) :: '\r' !in part
    decreases n
  {
    if n > 1 && SplitOnce(s, ',').1.Some? {
      NoReturnInParts(SplitOnce(s, ',').1.value, n - 1);
    }
  }

  lemma NoReturnInEvent(s: Script, rest: string)
    requires '\r' !in rest
    ensures '\r' !in EventOf(s, rest).text
  {
    NoReturnInParts(rest, if |s.eventFormat| > 1 then |s.eventFormat| else 1);
    var fields := Fields(s.eventFormat, rest);
    FieldIsAmong(s.eventFormat, fields, "text");
  }

  lemma FieldIsAmong(format: seq<string>, fields: seq<string>, name: string)
    ensures Field(format, fields, name).Some? ==> Field(format, fields, name).value in fields
  {
  }

  /** What a line says of an event holds no carriage return. */
  ghost predicate SaysNoReturn(says: (Script, string) -> Says) {
    forall s: Script, raw: string | ReturnAtEnd(raw) && says(s, raw).Dialogue? ::
      '\r' !in says(s, raw).event.text
  }

  ghost predicate KeepsNoReturn(judge: (Script, Event) -> Fate) {
    forall s: Script, e: Event | '\r' !in e.text && judge(s, e).Kept? ::
      '\r' !in judge(s, e).cue.body
  }

  lemma AfterColon(line: string)
    requires '\r' !in line && SplitOnce(line, ':').1.Some?
    ensures '\r' !in TrimStart(SplitOnce(line, ':').1.value)
  {
  }

  /** Nothing read behind a colon holds a carriage return that was not there. */
  ghost predicate ReadsNoReturn(reading: Reading) {
    forall s: Script, kind: string, rest: string | '\r' !in rest && reading(s, kind, rest).Dialogue? ::
      '\r' !in reading(s, kind, rest).event.text
  }

  lemma LineSaysNoReturn(reading: Reading, s: Script, raw: string)
    requires ReadsNoReturn(reading) && ReturnAtEnd(raw) && SaysBy(reading, s, raw).Dialogue?
    ensures '\r' !in SaysBy(reading, s, raw).event.text
  {
    TrimmedOff(raw);
    AfterColon(TrimEnd(TrimMark(raw)));
  }

  lemma ReadingHoldsNoReturn(l: Locale)
    ensures ReadsNoReturn(ReadingOf(l))
  {
    forall s: Script, kind: string, rest: string
      | '\r' !in rest && ReadingOf(l)(s, kind, rest).Dialogue?
      ensures '\r' !in ReadingOf(l)(s, kind, rest).event.text
    {
      SaidNoReturn(l, KindOf(s.section, kind), s, rest);
    }
  }

  lemma SaidNoReturn(l: Locale, kind: Kind, s: Script, rest: string)
    requires '\r' !in rest && SaysAs(l, kind, s, rest).Dialogue?
    ensures '\r' !in SaysAs(l, kind, s, rest).event.text
  {
    NoReturnInEvent(s, rest);
  }

  lemma JudgedBody(
    times: Option<(nat, nat)>, bar: Option<Bar>, cue: Cue, seen: set<(nat, nat, string)>)
    ensures Judged(times, bar, cue, seen).Kept? ==> Judged(times, bar, cue, seen).cue.body == cue.body
  {
  }

  lemma FatesHoldNoReturn(l: Locale)
    ensures KeepsNoReturn(FateOf(l))
  {
    forall s: Script, e: Event | '\r' !in e.text && FateOf(l)(s, e).Kept?
      ensures '\r' !in FateOf(l)(s, e).cue.body
    {
      BodyHasNoReturn(e.text, StyleNamed(s.styles, Trim(e.style)));
      JudgedBody(TimesOf(l, e), Barred(l, l.words(Trim(e.style)), OverrideTags(e.text)),
                 CueOf(l, s.styles, s.height, e), s.book.seen);
    }
  }

  lemma HeedNoReturn(judge: (Script, Event) -> Fate, s: Script, says: Says)
    requires KeepsNoReturn(judge) && forall c <- s.book.cues :: '\r' !in c.body
    requires says.Dialogue? ==> '\r' !in says.event.text
    ensures forall c <- Heed(judge, s, says).book.cues :: '\r' !in c.body
  {
  }

  lemma {:induction false} LinesHoldNoReturns(
    judge: (Script, Event) -> Fate, says: (Script, string) -> Says, s: Script, lines: seq<string>)
    requires KeepsNoReturn(judge) && SaysNoReturn(says)
    requires forall line <- lines :: ReturnAtEnd(line)
    requires forall c <- s.book.cues :: '\r' !in c.body
    ensures forall c <- ReadLines(ReadBy(judge, says), s, lines).book.cues :: '\r' !in c.body
    decreases |lines|
  {
    if lines != [] {
      var next := ReadBy(judge, says)(s, lines[0]);
      assert lines[0] in lines;
      HeedNoReturn(judge, s, says(s, lines[0]));
      LinesHoldNoReturns(judge, says, next, lines[1..]);
    }
  }

  /** A script without a bare carriage return gives cues without any. */
  lemma CuesHoldNoReturn(l: Locale, ass: string)
    requires NoBareReturn(ass)
    ensures forall c <- BookOf(l, ass).cues :: '\r' !in c.body
  {
    FatesHoldNoReturn(l);
    SaidHoldsNoReturn(l);
    LinesReturnAtEnd(ass);
    LinesHoldNoReturns(FateOf(l), SaysOf(l), BLANK, Lines(ass));
  }

  lemma SaidHoldsNoReturn(l: Locale)
    ensures SaysNoReturn(SaysOf(l))
  {
    ReadingHoldsNoReturn(l);
    forall s: Script, raw: string | ReturnAtEnd(raw) && SaysOf(l)(s, raw).Dialogue?
      ensures '\r' !in SaysOf(l)(s, raw).event.text
    {
      LineSaysNoReturn(ReadingOf(l), s, raw);
    }
  }

  // ----- Reading the text back -----

  /** Lines in groups, a blank one or more between them. */
  function Groups(lines: seq<string>, group: seq<string>): seq<seq<string>>
    decreases |lines|
  {
    if lines == [] then (if group == [] then [] else [group])
    else if lines[0] == [] then (if group == [] then [] else [group]) + Groups(lines[1..], [])
    else Groups(lines[1..], group + [lines[0]])
  }

  /** A cue's times and settings: two times with an arrow between, and what stands after a space. */
  function ReadTimes(time: string -> Option<nat>, line: string): Option<(nat, nat, string)> {
    match SplitOnce(line, ' ')
    case (_, None) => None
    case (start, Some(after)) =>
      match StripPrefix(after, "--> ")
      case None => None
      case Some(rest) =>
        var (end, settings) := SplitOnce(rest, ' ');
        match (time(start), time(end))
        case (Some(a), Some(b)) => Some((a, b, if settings.Some? then " " + settings.value else []))
        case _ => None
  }

  /** How a line of times reads. */
  type Times = string -> Option<(nat, nat, string)>

  function TimesOfLocale(l: Locale): Times {
    (line: string) => ReadTimes((text: string) => Time(l, text), line)
  }

  function ReadCue(times: Times, group: seq<string>): Option<Cue> {
    if group == [] then None
    else
      match times(group[0])
      case None => None
      case Some((start, end, settings)) => Some(Cue(start, end, settings, Join(group[1..])))
  }

  function ReadCues(times: Times, groups: seq<seq<string>>): Option<seq<Cue>> {
    if groups == [] then Some([])
    else
      match (ReadCue(times, groups[0]), ReadCues(times, groups[1..]))
      case (Some(cue), Some(more)) => Some([cue] + more)
      case _ => None
  }

  /** A WebVTT file's cues. */
  function ReadVtt(l: Locale, text: string): Option<seq<Cue>> {
    var groups := Groups(Lines(text), []);
    if groups == [] || groups[0] != ["WEBVTT"] then None
    else ReadCues(TimesOfLocale(l), groups[1..])
  }

  /** A cue's lines, the blank one after it among them. */
  function CueGroup(c: Cue): seq<string> { [TimesLine(c)] + Lines(c.body) }

  function CueGroups(cues: seq<Cue>): (r: seq<seq<string>>)
    ensures |r| == |cues|
  {
    if cues == [] then [] else [CueGroup(cues[0])] + CueGroups(cues[1..])
  }

  /** Each group's lines, and a blank one. */
  function Spaced(groups: seq<seq<string>>): seq<string> {
    if groups == [] then [] else groups[0] + [""] + Spaced(groups[1..])
  }

  /** A group is lines, none blank. */
  predicate Solid(group: seq<string>) { group != [] && forall line <- group :: line != [] && '\n' !in line }

  lemma {:induction false} GroupEnds(lines: seq<string>, group: seq<string>, rest: seq<string>)
    requires group + lines != [] && forall line <- lines :: line != []
    ensures Groups(lines + [""] + rest, group) == [group + lines] + Groups(rest, [])
    decreases |lines|
  {
    if lines == [] {
      assert [] + [""] + rest == [""] + rest && ([""] + rest)[1..] == rest;
      assert group + lines == group;
    } else {
      assert lines[0] in lines;
      assert (lines + [""] + rest)[1..] == lines[1..] + [""] + rest;
      assert group + [lines[0]] + lines[1..] == group + lines;
      assert |group + [lines[0]] + lines[1..]| > 0;
      assert forall line <- lines[1..] :: line in lines;
      GroupEnds(lines[1..], group + [lines[0]], rest);
    }
  }

  lemma {:induction false} GroupsRead(groups: seq<seq<string>>)
    requires forall g <- groups :: Solid(g)
    ensures Groups(Spaced(groups), []) == groups
  {
    if groups != [] {
      assert groups[0] in groups;
      GroupsRead(groups[1..]);
      assert [] + groups[0] == groups[0];
      GroupEnds(groups[0], [], Spaced(groups[1..]));
      assert [groups[0]] + groups[1..] == groups;
    }
  }

  lemma {:induction false} UnlinesConcat(a: seq<string>, b: seq<string>)
    ensures Unlines(a + b) == Unlines(a) + Unlines(b)
  {
    if a == [] {
      assert a + b == b;
    } else {
      assert (a + b)[0] == a[0] && (a + b)[1..] == a[1..] + b;
      UnlinesConcat(a[1..], b);
      Regroup(a[0] + "\n", Unlines(a[1..]), Unlines(b));
    }
  }

  lemma {:induction false} JoinThenFeed(lines: seq<string>)
    requires lines != []
    ensures Unlines(lines) == Join(lines) + "\n"
  {
    if |lines| == 1 {
      assert lines[1..] == [];
      assert lines[0] + "\n" + [] == lines[0] + "\n";
    } else {
      JoinThenFeed(lines[1..]);
      Regroup(lines[0] + "\n", Join(lines[1..]), "\n");
    }
  }

  lemma UnlinesOne(line: string)
    ensures Unlines([line]) == line + "\n"
  {
    assert [line][1..] == [];
    assert line + "\n" + [] == line + "\n";
  }

  /** A cue's text is its lines, and a blank one. */
  lemma CueTextIs(c: Cue)
    requires FineBody(c.body)
    ensures CueText(c) == Unlines(CueGroup(c) + [""])
  {
    var lines := Lines(c.body);
    UnlinesConcat([TimesLine(c)] + lines, [""]);
    UnlinesConcat([TimesLine(c)], lines);
    UnlinesOne(TimesLine(c));
    UnlinesOne("");
    JoinThenFeed(lines);
    Feeds(TimesLine(c), c.body);
  }

  lemma Feeds(times: string, body: string)
    ensures times + "\n" + body + "\n\n" == times + "\n" + (body + "\n") + ("" + "\n")
  {
    assert "\n\n" == "\n" + "\n";
  }

  lemma {:induction false} CuesTextIs(cues: seq<Cue>)
    requires AllFine(cues)
    ensures CuesText(cues) == Unlines(Spaced(CueGroups(cues)))
  {
    if cues != [] {
      assert cues[0] in cues;
      CueTextIs(cues[0]);
      CuesTextIs(cues[1..]);
      UnlinesConcat(CueGroup(cues[0]) + [""], Spaced(CueGroups(cues[1..])));
    }
  }

  lemma GroupIsSolid(c: Cue)
    requires Fine(c)
    ensures Solid(CueGroup(c))
  {
    StampTrimmed(c.start);
    StampTrimmed(c.end);
    PaddedReads(c.start / 3_600_000, 2);
    assert '\n' !in TimesLine(c) && TimesLine(c) != [];
    forall line | line in CueGroup(c) ensures line != [] && '\n' !in line {
      assert line == TimesLine(c) || line in Lines(c.body);
    }
  }

  lemma {:induction false} GroupsAreSolid(cues: seq<Cue>)
    requires AllFine(cues)
    ensures forall g <- CueGroups(cues) :: Solid(g)
  {
    if cues != [] {
      assert cues[0] in cues;
      GroupIsSolid(cues[0]);
      GroupsAreSolid(cues[1..]);
    }
  }

  lemma {:induction false} SpacedHoldNoFeed(groups: seq<seq<string>>)
    requires forall g <- groups :: Solid(g)
    ensures forall line <- Spaced(groups) :: '\n' !in line
  {
    if groups != [] {
      assert groups[0] in groups;
      SpacedHoldNoFeed(groups[1..]);
    }
  }

  lemma ArrowStrips(rest: string)
    ensures StripPrefix("--> " + rest, "--> ") == Some(rest)
  {
    assert ("--> " + rest)[..4] == "--> " && ("--> " + rest)[4..] == rest;
  }

  lemma SettingsSplit(b: string, settings: string)
    requires ' ' !in b && FineSettings(settings)
    ensures SplitOnce(b + settings, ' ') == (b, if settings == [] then None else Some(settings[1..]))
    ensures settings != [] ==> " " + settings[1..] == settings
  {
    if settings == [] {
      assert b + settings == b;
      SplitsNowhere(b, ' ');
    } else {
      SplitsAt(b, ' ', settings[1..]);
      assert b + settings == b + [' '] + settings[1..];
    }
  }

  lemma TimesSplit(a: string, b: string, settings: string)
    requires ' ' !in a
    ensures SplitOnce(a + " --> " + b + settings, ' ') == (a, Some("--> " + (b + settings)))
  {
    assert a + " --> " + b + settings == a + [' '] + ("--> " + (b + settings));
    SplitsAt(a, ' ', "--> " + (b + settings));
  }

  lemma TimesReadFrom(
    time: string -> Option<nat>, a: string, b: string, settings: string, start: nat, end: nat)
    requires ' ' !in a && ' ' !in b && FineSettings(settings)
    requires time(a) == Some(start) && time(b) == Some(end)
    ensures ReadTimes(time, a + " --> " + b + settings) == Some((start, end, settings))
  {
    TimesSplit(a, b, settings);
    ArrowStrips(b + settings);
    SettingsSplit(b, settings);
  }

  /** A cue's times and settings read back. */
  lemma TimesRead(l: Locale, c: Cue)
    requires ReadsSeconds(l) && Fine(c)
    ensures TimesOfLocale(l)(TimesLine(c)) == Some((c.start, c.end, c.settings))
  {
    StampTrimmed(c.start);
    StampTrimmed(c.end);
    TimeUndoesStamp(l, c.start);
    TimeUndoesStamp(l, c.end);
    TimesReadFrom((text: string) => Time(l, text), Stamp(c.start), Stamp(c.end), c.settings, c.start,
                  c.end);
  }

  lemma GroupReads(times: Times, line: string, lines: seq<string>, c: Cue)
    requires times(line) == Some((c.start, c.end, c.settings)) && Join(lines) == c.body
    ensures ReadCue(times, [line] + lines) == Some(c)
  {
    assert ([line] + lines)[1..] == lines;
  }

  /** What each group reads as, all groups read as. */
  lemma {:induction false} AllRead(times: Times, groups: seq<seq<string>>, cues: seq<Cue>)
    requires |groups| == |cues|
    requires forall i | 0 <= i < |cues| :: ReadCue(times, groups[i]) == Some(cues[i])
    ensures ReadCues(times, groups) == Some(cues)
  {
    if cues != [] {
      AllRead(times, groups[1..], cues[1..]);
      assert ReadCue(times, groups[0]) == Some(cues[0]);
      assert [cues[0]] + cues[1..] == cues;
    }
  }

  lemma {:induction false} GroupAt(cues: seq<Cue>, i: nat)
    requires i < |cues|
    ensures CueGroups(cues)[i] == CueGroup(cues[i])
  {
    if i > 0 {
      GroupAt(cues[1..], i - 1);
    }
  }

  lemma CuesRead(l: Locale, cues: seq<Cue>)
    requires ReadsSeconds(l) && AllFine(cues)
    ensures ReadCues(TimesOfLocale(l), CueGroups(cues)) == Some(cues)
  {
    var times := TimesOfLocale(l);
    forall i | 0 <= i < |cues| ensures ReadCue(times, CueGroups(cues)[i]) == Some(cues[i]) {
      var c := cues[i];
      assert c in cues;
      GroupAt(cues, i);
      TimesRead(l, c);
      GroupReads(times, TimesLine(c), Lines(c.body), c);
    }
    AllRead(times, CueGroups(cues), cues);
  }

  /** What is printed reads back: splitting on blank lines recovers every cue. */
  lemma PrintedReadsBack(l: Locale, cues: seq<Cue>)
    requires ReadsSeconds(l) && AllFine(cues)
    ensures ReadVtt(l, Printed(cues)) == Some(cues)
  {
    var groups := [["WEBVTT"]] + CueGroups(cues);
    CuesTextIs(cues);
    GroupsAreSolid(cues);
    HeaderIs(CueGroups(cues));
    SpacedHoldNoFeed(groups);
    LinesOfUnlines(Spaced(groups));
    GroupsRead(groups);
    CuesRead(l, cues);
    assert groups[1..] == CueGroups(cues);
  }

  lemma HeaderIs(groups: seq<seq<string>>)
    ensures "WEBVTT\n\n" + Unlines(Spaced(groups)) == Unlines(Spaced([["WEBVTT"]] + groups))
    ensures Solid(["WEBVTT"])
  {
    assert ([["WEBVTT"]] + groups)[1..] == groups;
    UnlinesConcat(["WEBVTT"] + [""], Spaced(groups));
    UnlinesConcat(["WEBVTT"], [""]);
    UnlinesOne("WEBVTT");
    UnlinesOne("");
    assert "WEBVTT\n\n" == "WEBVTT" + "\n" + ("" + "\n");
  }

  lemma CueOrder()
    ensures TotalPreorder(CUE_ORDER)
  {
  }

  /**
   Converting any script and reading the text back gives the kept cues in a stable order by time:
   sorted, the same ones, and those of one start and end as the script had them.
   */
  lemma ConvertedReadsBack(l: Locale, ass: string, key: Cue)
    requires ReadsSeconds(l)
    ensures
      var kept, sorted := BookOf(l, ass).cues, Sort(CUE_ORDER, BookOf(l, ass).cues);
      && ReadVtt(l, Converted(l, ass).0) == Some(sorted)
      && SortedBy(CUE_ORDER, sorted) && multiset(sorted) == multiset(kept)
      && Filter(Ties(CUE_ORDER, key), sorted) == Filter(Ties(CUE_ORDER, key), kept)
  {
    var kept := BookOf(l, ass).cues;
    var sorted := Sort(CUE_ORDER, kept);
    CuesAreFine(l, ass);
    CueOrder();
    SortSorts(CUE_ORDER, kept);
    SortStable(CUE_ORDER, kept, key);
    forall c | c in sorted ensures Fine(c) {
      assert c in multiset(sorted);
    }
    PrintedReadsBack(l, sorted);
  }
}
