/**
 The ways a stream can be cast to a TV, best first (crates/anistream-cast/src/formats.rs).

 What a TV's memory knows is a map from format parts to answers. The source keys it by the parts'
 names; here the parts themselves are the keys, and `NamesTellPartsApart` says why that is the
 same.
 */
module Formats {
  import opened Bytes
  import opened Sorting
  import Strings

  datatype VideoFormat = H264 | Hevc | HevcMain10 | Vp9 | Av1 | OtherVideo(name: string)

  datatype AudioCodec = Aac | Opus | Flac | Ac3 | Eac3 | Dts | TrueHd | OtherAudio(name: string)

  /** The container the TV is handed. */
  datatype Delivery = HlsFmp4 | HlsTs | Mp4 | Mkv | WebM

  /** How the TV's media element reads it. */
  datatype Family = InHls | Progressive

  /** What a TV's memory keeps an answer for. */
  datatype Part =
    | VideoPart(video: VideoFormat, lines: nat, family: Family)
    | AudioPart(audio: AudioCodec, family: Family)
    | ContainerPart(delivery: Delivery)

  /** What happened when a TV was handed a part, and when. */
  datatype Answer = Answer(played: bool, at: int)

  type Answers = map<Part, Answer>

  predicate Refused(known: Answers, part: Part) { part in known && !known[part].played }

  predicate Played(known: Answers, part: Part) { part in known && known[part].played }

  function FamilyOf(delivery: Delivery): Family {
    if delivery.HlsFmp4? || delivery.HlsTs? then InHls else Progressive
  }

  function HeightClass(height: Option<nat>): nat {
    var lines := if height.Some? then height.value else 1080;
    if lines <= 720 then 720 else if lines <= 1080 then 1080 else 2160
  }

  /** Whether any receiver could try it. */
  predicate Castable(video: VideoFormat) { !video.OtherVideo? }

  predicate PlaysEverywhere(video: VideoFormat, height: Option<nat>, delivery: Delivery) {
    video == H264
    && (HeightClass(height) == 720
        || (HeightClass(height) == 1080 && FamilyOf(delivery) == Progressive))
  }

  datatype AudioPlan = Copy(codec: AudioCodec) | ToAac(from: AudioCodec) | Silent

  datatype Route = Direct(url: string) | Relayed(remux: bool)

  datatype CastPlan = CastPlan(
    route: Route, video: VideoFormat, height: Option<nat>, audio: AudioPlan, delivery: Delivery)

  function VideoPartOf(plan: CastPlan): Part {
    VideoPart(plan.video, HeightClass(plan.height), FamilyOf(plan.delivery))
  }

  function AudioPartOf(plan: CastPlan): Option<Part> {
    match plan.audio
    case Copy(codec) =>
      if codec == Aac then None else Some(AudioPart(codec, FamilyOf(plan.delivery)))
    case _ => None
  }

  /** The parts a TV's memory keeps an answer for, in the order a refusal is blamed. */
  function Parts(plan: CastPlan): (r: seq<Part>)
    ensures ContainerPart(plan.delivery) in r
    ensures forall part <- r :: Teachable(part) || !Castable(plan.video)
  {
    (if PlaysEverywhere(plan.video, plan.height, plan.delivery) then [] else [VideoPartOf(plan)])
    + (match AudioPartOf(plan) case Some(part) => [part] case None => [])
    + [ContainerPart(plan.delivery)]
  }

  /** What a TV's answer is ever kept for: neither AAC nor a picture every Chromecast plays. */
  predicate Teachable(part: Part) {
    match part
    case VideoPart(video, lines, family) =>
      && Castable(video) && lines in [720, 1080, 2160]
      && !(video == H264 && (lines == 720 || (lines == 1080 && family == Progressive)))
    case AudioPart(codec, _) => codec != Aac
    case ContainerPart(_) => true
  }

  /** Whether the TV is asked with a clip before a plan: a file whose picture it may not decode. */
  predicate WantsClip(plan: CastPlan) {
    FamilyOf(plan.delivery) == Progressive
    && !PlaysEverywhere(plan.video, plan.height, plan.delivery)
  }

  /** None of the plan's parts is known to be refused. */
  predicate AllowedBy(known: Answers, plan: CastPlan) {
    forall part <- Parts(plan) :: !Refused(known, part)
  }

  function Allowed(known: Answers): CastPlan -> bool { (plan: CastPlan) => AllowedBy(known, plan) }

  // ----- The parts' names -----

  function VideoName(video: VideoFormat): string
    requires Castable(video)
  {
    match video
    case H264 => "h264"
    case Hevc => "hevc"
    case HevcMain10 => "hevc-main10"
    case Vp9 => "vp9"
    case Av1 => "av1"
  }

  function AudioName(codec: AudioCodec): string {
    match codec
    case Aac => "aac"
    case Opus => "opus"
    case Flac => "flac"
    case Ac3 => "ac3"
    case Eac3 => "eac3"
    case Dts => "dts"
    case TrueHd => "truehd"
    case OtherAudio(name) => "audio:" + Strings.Lowered(name)
  }

  function DeliveryName(delivery: Delivery): string {
    match delivery
    case HlsFmp4 => "hls-fmp4"
    case HlsTs => "hls-ts"
    case Mp4 => "mp4"
    case Mkv => "mkv"
    case WebM => "webm"
  }

  function FamilyName(family: Family): string {
    match family
    case InHls => "hls"
    case Progressive => "progressive"
  }

  function LinesName(lines: nat): string
    requires lines in [720, 1080, 2160]
  {
    if lines == 720 then "720" else if lines == 1080 then "1080" else "2160"
  }

  /** A part that some plan of this module's can hold. */
  predicate Held(part: Part) {
    Teachable(part) && (part.AudioPart? ==> Copied(part.audio))
  }

  function Name(part: Part): string
    requires Held(part)
  {
    match part
    case VideoPart(video, lines, family) =>
      VideoName(video) + "/" + LinesName(lines) + "/" + FamilyName(family)
    case AudioPart(codec, family) => AudioName(codec) + "/" + FamilyName(family)
    case ContainerPart(delivery) => DeliveryName(delivery)
  }

  /** What stands before a name's first slash, and after it; all of it, and nothing, without one. */
  function Split(name: string): (string, string) {
    if name == [] then ("", "")
    else if name[0] == '/' then ("", name[1..])
    else var (head, tail) := Split(name[1..]); ([name[0]] + head, tail)
  }

  lemma {:induction false} SplitAtSlash(head: string, tail: string)
    requires '/' !in head
    ensures Split(head + "/" + tail) == (head, tail)
  {
    if head == [] {
      assert (head + "/" + tail)[1..] == tail;
    } else {
      SplitAtSlash(head[1..], tail);
      assert (head + "/" + tail)[1..] == head[1..] + "/" + tail;
      assert [head[0]] + head[1..] == head;
    }
  }

  lemma {:induction false} SplitWhole(name: string)
    requires '/' !in name
    ensures Split(name) == (name, "")
  {
    if name != [] {
      SplitWhole(name[1..]);
      assert [name[0]] + name[1..] == name;
    }
  }

  /** The format's own name, and the rest. */
  lemma NameSplits(part: Part)
    requires Held(part)
    ensures
      match part
      case VideoPart(video, lines, family) =>
        Split(Name(part)) == (VideoName(video), LinesName(lines) + "/" + FamilyName(family))
        && Split(Split(Name(part)).1) == (LinesName(lines), FamilyName(family))
      case AudioPart(codec, family) => Split(Name(part)) == (AudioName(codec), FamilyName(family))
      case ContainerPart(delivery) => Split(Name(part)) == (DeliveryName(delivery), "")
  {
    match part
    case VideoPart(video, lines, family) =>
      var rest := LinesName(lines) + "/" + FamilyName(family);
      SplitAtSlash(VideoName(video), rest);
      SplitAtSlash(LinesName(lines), FamilyName(family));
      assert Name(part) == VideoName(video) + "/" + rest;
    case AudioPart(codec, family) =>
      SplitAtSlash(AudioName(codec), FamilyName(family));
    case ContainerPart(delivery) =>
      SplitWhole(DeliveryName(delivery));
  }

  function Head(part: Part): string
    requires Held(part)
  {
    match part
    case VideoPart(video, _, _) => VideoName(video)
    case AudioPart(codec, _) => AudioName(codec)
    case ContainerPart(delivery) => DeliveryName(delivery)
  }

  lemma HeadsTell(p: Part, q: Part)
    requires Held(p) && Held(q) && Head(p) == Head(q)
    ensures p.VideoPart? ==> q.VideoPart? && p.video == q.video
    ensures p.AudioPart? ==> q.AudioPart? && p.audio == q.audio
    ensures p.ContainerPart? ==> q.ContainerPart? && p.delivery == q.delivery
  {
  }

  lemma TailsTell(a: Family, b: Family, m: nat, n: nat)
    requires m in [720, 1080, 2160] && n in [720, 1080, 2160]
    ensures FamilyName(a) == FamilyName(b) ==> a == b
    ensures LinesName(m) == LinesName(n) ==> m == n
  {
  }

  /** No two parts share a name. */
  lemma NamesTellPartsApart(p: Part, q: Part)
    requires Held(p) && Held(q)
    ensures Name(p) == Name(q) <==> p == q
  {
    if Name(p) == Name(q) {
      NameSplits(p);
      NameSplits(q);
      HeadsTell(p, q);
      match p
      case VideoPart(_, lines, family) => TailsTell(family, q.family, lines, q.lines);
      case AudioPart(_, family) => TailsTell(family, q.family, 720, 720);
      case ContainerPart(_) =>
    }
  }

  predicate IsVideo(part: Part, video: VideoFormat) { part.VideoPart? && part.video == video }

  lemma PrefixIsHead(name: string, head: string)
    requires '/' !in head && head + "/" <= name
    ensures Split(name).0 == head
  {
    SplitAtSlash(head, name[|head| + 1..]);
    assert name == head + "/" + name[|head| + 1..];
  }

  lemma StartsWith(head: string, tail: string)
    ensures head + "/" <= head + "/" + tail
  {
  }

  lemma NoSlashInHeads(part: Part)
    requires Held(part)
    ensures '/' !in Head(part)
  {
  }

  lemma HeadOfName(part: Part)
    requires Held(part)
    ensures Split(Name(part)).0 == Head(part)
    ensures !part.ContainerPart? ==> Head(part) + "/" <= Name(part)
  {
    NameSplits(part);
    match part
    case VideoPart(video, lines, family) =>
      StartsWith(VideoName(video), LinesName(lines) + "/" + FamilyName(family));
      assert Name(part) == VideoName(video) + "/" + (LinesName(lines) + "/" + FamilyName(family));
    case AudioPart(codec, family) => StartsWith(AudioName(codec), FamilyName(family));
    case ContainerPart(_) =>
  }

  /** A name starts with a format's, and a slash, just when it is that format's part. */
  lemma PrefixTells(part: Part, video: VideoFormat)
    requires Held(part) && Castable(video)
    ensures VideoName(video) + "/" <= Name(part) <==> IsVideo(part, video)
  {
    HeadOfName(part);
    var some := VideoPart(video, 2160, InHls);
    NoSlashInHeads(some);
    if part.VideoPart? && part.video == video {
      assert Head(part) == VideoName(video);
    }
    if Head(some) + "/" <= Name(part) {
      PrefixIsHead(Name(part), Head(some));
      HeadsTell(some, part);
    }
  }

  predicate IsAudioOf(part: Part, codec: Option<AudioCodec>) {
    part.AudioPart? && codec == Some(part.audio)
  }

  lemma AudioHeadTells(part: Part, codec: AudioCodec)
    requires Held(part) && !codec.OtherAudio?
    ensures Head(part) == AudioName(codec) <==> IsAudioOf(part, Some(codec))
    ensures '/' !in AudioName(codec)
  {
  }

  /** No part's name begins as those of unnamed codecs do. */
  lemma NoneIsOther(part: Part)
    requires Held(part)
    ensures |Name(part)| >= 2 && Name(part)[1] != 'u'
  {
    var head := Head(part);
    assert |head| >= 2 && head[1] != 'u';
    HeadBegins(part);
  }

  lemma HeadBegins(part: Part)
    requires Held(part)
    ensures Head(part) <= Name(part)
  {
    HeadOfName(part);
    if !part.ContainerPart? {
      assert Head(part) <= Head(part) + "/";
    }
  }

  /** The same of audio: a codec's name and a slash begin just that codec's parts. */
  lemma AudioPrefixTells(part: Part, codec: AudioCodec)
    requires Held(part)
    ensures AudioName(codec) + "/" <= Name(part) <==> IsAudioOf(part, Some(codec))
  {
    var prefix := AudioName(codec) + "/";
    if codec.OtherAudio? {
      NoneIsOther(part);
      assert prefix[1] == 'u';
    } else {
      HeadOfName(part);
      AudioHeadTells(part, codec);
      if prefix <= Name(part) {
        PrefixIsHead(Name(part), AudioName(codec));
      }
    }
  }

  // ----- The plans -----

  datatype SourceKind = Hls | ProgressiveFile | Torrent | LocalFile | DeepLink

  /** `loopback` says whether the address is this device's own. */
  datatype CastSource = CastSource(
    url: string, loopback: bool, kind: SourceKind, headers: seq<(string, string)>)

  /** What was read of a stream: its audio tracks are their codecs, where known. */
  datatype MediaInfo = MediaInfo(
    video: Option<VideoFormat>, height: Option<nat>, audio: seq<Option<AudioCodec>>,
    choice: nat, container: Option<Delivery>)

  datatype Uncastable =
    | NoVideo(video: VideoFormat)
    | NoAudio(audio: Option<AudioCodec>)
    | NoContainer(delivery: Delivery)
    | OtherApp

  /** A stream to cast: what `probed` says of its CORS and what `decodes` says of the encoder. */
  datatype Stream = Stream(
    source: CastSource, media: MediaInfo, probed: bool, decodes: AudioCodec -> bool)

  predicate LocalOnly(source: CastSource) {
    source.kind.Torrent? || source.kind.LocalFile? || source.loopback
  }

  /** Whether the TV gets it as it is when the container carries it. */
  predicate Copied(codec: AudioCodec) { codec.Aac? || codec.Opus? || codec.Flac? }

  function VideoOf(s: Stream): VideoFormat {
    if s.media.video.Some? then s.media.video.value else H264
  }

  function ContainerOf(s: Stream): Delivery {
    if s.media.container.Some? then s.media.container.value
    else if s.source.kind.Hls? then HlsTs else Mp4
  }

  predicate ChosenIsFirst(media: MediaInfo) {
    media.choice == 0 || media.choice >= |media.audio|
  }

  function ChosenAudio(media: MediaInfo): Option<Option<AudioCodec>> {
    if media.choice < |media.audio| then Some(media.audio[media.choice])
    else if media.audio != [] then Some(media.audio[0])
    else None
  }

  function AudioOf(s: Stream): Option<AudioCodec> {
    match ChosenAudio(s.media)
    case Some(Some(codec)) => Some(codec)
    case Some(None) => Some(Aac)
    case None => if ContainerOf(s).Mkv? then None else Some(Aac)
  }

  /** Audio as it is, when the container carries it and the TV plays it there. */
  function CopyIn(s: Stream, known: Answers, delivery: Delivery): Option<AudioPlan> {
    match AudioOf(s)
    case None => Some(Silent)
    case Some(codec) =>
      if Copied(codec) && !Refused(known, AudioPart(codec, FamilyOf(delivery)))
      then Some(Copy(codec)) else None
  }

  predicate Untried(known: Answers, audio: AudioPlan) {
    audio.Copy? && !Played(known, AudioPart(audio.codec, InHls))
  }

  /** Whether remuxed audio may go as AAC: unless the copy is known to play, or it is AAC. */
  predicate OffersAac(s: Stream, known: Answers) {
    var copied := CopyIn(s, known, HlsFmp4);
    && AudioOf(s).Some? && AudioOf(s).value != Aac && s.decodes(AudioOf(s).value)
    && (copied.None? || Untried(known, copied.value))
  }

  function PlanOf(s: Stream, route: Route, audio: AudioPlan, delivery: Delivery): CastPlan {
    CastPlan(route, VideoOf(s), s.media.height, audio, delivery)
  }

  function Remuxed(s: Stream, audio: AudioPlan): CastPlan {
    PlanOf(s, Relayed(true), audio, HlsFmp4)
  }

  function IfSome(audio: Option<AudioPlan>, plan: AudioPlan -> CastPlan): seq<CastPlan> {
    if audio.Some? then [plan(audio.value)] else []
  }

  function MkvDrafts(s: Stream, known: Answers): seq<CastPlan> {
    IfSome(CopyIn(s, known, HlsFmp4), (audio: AudioPlan) => Remuxed(s, audio))
    + (if OffersAac(s, known) then [Remuxed(s, ToAac(AudioOf(s).value))] else [])
    + (if ChosenIsFirst(s.media)
       then IfSome(CopyIn(s, known, Mkv), (audio: AudioPlan) => PlanOf(s, Relayed(false), audio, Mkv))
       else [])
  }

  predicate DirectAllowed(s: Stream) {
    s.source.headers == [] && !LocalOnly(s.source)
    && (FamilyOf(ContainerOf(s)) == Progressive || s.probed)
  }

  /** The plans before those the TV refuses are left out. */
  function Drafts(s: Stream, known: Answers): seq<CastPlan> {
    var container := ContainerOf(s);
    if container.Mkv? then MkvDrafts(s, known)
    else
      match CopyIn(s, known, container)
      case None => []
      case Some(audio) =>
        (if DirectAllowed(s) then [PlanOf(s, Direct(s.source.url), audio, container)] else [])
        + [PlanOf(s, Relayed(false), audio, container)]
  }

  /** The first part refused of each plan that holds one. */
  function Blamed(known: Answers, plans: seq<CastPlan>): seq<Part> {
    if plans == [] then []
    else
      (match FirstRefused(known, Parts(plans[0])) case Some(part) => [part] case None => [])
      + Blamed(known, plans[1..])
  }

  function FirstRefused(known: Answers, parts: seq<Part>): Option<Part> {
    if parts == [] then None
    else if Refused(known, parts[0]) then Some(parts[0])
    else FirstRefused(known, parts[1..])
  }

  /** Why nothing is left: the picture before the sound before the container. */
  function Why(s: Stream, blamed: seq<Part>): Uncastable {
    if exists part <- blamed :: IsVideo(part, VideoOf(s)) then NoVideo(VideoOf(s))
    else if exists part <- blamed :: IsAudioOf(part, AudioOf(s)) then NoAudio(AudioOf(s))
    else NoContainer(ContainerOf(s))
  }

  function CastPlans(s: Stream, known: Answers): Result<seq<CastPlan>, Uncastable> {
    if s.source.kind.DeepLink? then Err(OtherApp)
    else if !Castable(VideoOf(s)) then Err(NoVideo(VideoOf(s)))
    else
      var drafts := Drafts(s, known);
      if drafts == [] then Err(NoAudio(AudioOf(s)))
      else
        var kept := Filter(Allowed(known), drafts);
        if kept == [] then Err(Why(s, Blamed(known, drafts))) else Ok(kept)
  }

  /** `cast_plans`. */
  method MakePlans(s: Stream, known: Answers) returns (r: Result<seq<CastPlan>, Uncastable>)
    ensures r == CastPlans(s, known)
  {
    if s.source.kind.DeepLink? { return Err(OtherApp); }
    var video := if s.media.video.Some? then s.media.video.value else H264;
    if !Castable(video) { return Err(NoVideo(video)); }
    var container := ContainerOf(s);
    var plans: seq<CastPlan> := [];
    if container == Mkv {
      var copied := CopyIn(s, known, HlsFmp4);
      if copied.Some? { plans := plans + [Remuxed(s, copied.value)]; }
      if OffersAac(s, known) { plans := plans + [Remuxed(s, ToAac(AudioOf(s).value))]; }
      if ChosenIsFirst(s.media) {
        var audio := CopyIn(s, known, Mkv);
        if audio.Some? { plans := plans + [PlanOf(s, Relayed(false), audio.value, Mkv)]; }
      }
      if plans == [] { return Err(NoAudio(AudioOf(s))); }
    } else {
      var audio := CopyIn(s, known, container);
      if audio.None? { return Err(NoAudio(AudioOf(s))); }
      if DirectAllowed(s) {
        plans := plans + [PlanOf(s, Direct(s.source.url), audio.value, container)];
      }
      plans := plans + [PlanOf(s, Relayed(false), audio.value, container)];
    }
    assert plans == Drafts(s, known);
    var kept, blamed := LeaveOut(known, plans);
    if kept == [] { return Err(Why(s, blamed)); }
    return Ok(kept);
  }

  /** The plans without those holding a refused part, and the first such part of each of those. */
  method LeaveOut(known: Answers, plans: seq<CastPlan>)
    returns (kept: seq<CastPlan>, blamed: seq<Part>)
    ensures kept == Filter(Allowed(known), plans) && blamed == Blamed(known, plans)
  {
    kept, blamed := [], [];
    ghost var allKept, allBlamed := Filter(Allowed(known), plans), Blamed(known, plans);
    assert [] + allKept == allKept && [] + allBlamed == allBlamed;
    for i := 0 to |plans|
      invariant allKept == kept + Filter(Allowed(known), plans[i..])
      invariant allBlamed == blamed + Blamed(known, plans[i..])
    {
      var part := FirstRefused(known, Parts(plans[i]));
      LeaveOutStep(known, plans, i, part);
      if part.Some? {
        Append(blamed, part.value, Blamed(known, plans[i + 1..]));
        blamed := blamed + [part.value];
      } else {
        Append(kept, plans[i], Filter(Allowed(known), plans[i + 1..]));
        kept := kept + [plans[i]];
      }
    }
    assert kept + [] == kept && blamed + [] == blamed;
  }

  lemma LeaveOutStep(known: Answers, plans: seq<CastPlan>, i: nat, part: Option<Part>)
    requires i < |plans| && part == FirstRefused(known, Parts(plans[i]))
    ensures Blamed(known, plans[i..])
         == if part.Some? then [part.value] + Blamed(known, plans[i + 1..])
            else Blamed(known, plans[i + 1..])
    ensures Filter(Allowed(known), plans[i..])
         == if part.Some? then Filter(Allowed(known), plans[i + 1..])
            else [plans[i]] + Filter(Allowed(known), plans[i + 1..])
  {
    var rest := Blamed(known, plans[i + 1..]);
    assert plans[i..][1..] == plans[i + 1..] && [] + rest == rest;
    FirstRefusedOrAllowed(known, Parts(plans[i]));
  }

  lemma {:induction false} FirstRefusedOrAllowed(known: Answers, parts: seq<Part>)
    ensures FirstRefused(known, parts).None? <==> forall part <- parts :: !Refused(known, part)
    ensures FirstRefused(known, parts).Some? ==>
      FirstRefused(known, parts).value in parts && Refused(known, FirstRefused(known, parts).value)
  {
    if parts != [] && !Refused(known, parts[0]) {
      FirstRefusedOrAllowed(known, parts[1..]);
      assert parts == [parts[0]] + parts[1..];
    }
  }
}
