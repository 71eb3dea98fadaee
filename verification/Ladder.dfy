/**
 What a TV's answers come to over any run of casts: the knowledge a cast's tries build up
 (crates/anistream-cast/src/memory.rs and the tries of crates/anistream-cast/src/player.rs), and
 what the plans of crates/anistream-cast/src/formats.rs make of it.
 */
module Ladder {
  import opened Bytes
  import opened Formats
  import opened Memory
  import opened Sorting
  import SourceWait

  // ----- Tries and what they teach -----

  /** How the source behind the relay did during a try, as it was read at its end. */
  datatype Source = Source(served: bool, busy: bool, troubled: bool)

  datatype Failure = Lost | NeverFetches | CastRefused | CannotCast(why: Uncastable)

  /** How one load went: `Denied` is the receiver's own word, and `Stuck` a plan that never moved. */
  datatype Verdict =
    | Moved
    | Denied(source: Source)
    | Stuck(source: Source)
    | OutOfPatience
    | Broke(failure: Failure)

  datatype Blame = Nothing | Format | Audio

  /** Media was asked for, and the TV was waiting on nothing slow or failing. */
  predicate Fair(source: Source) { source.served && !source.busy && !source.troubled }

  /** What a try that did not play is held against: `refused` and `stalled`. */
  function BlameOf(verdict: Verdict): Blame {
    match verdict
    case Denied(source) => if Fair(source) then Format else Nothing
    case Stuck(source) => if Fair(source) then Blame.Audio else Nothing
    case _ => Nothing
  }

  /** What happens to one TV's record. */
  datatype Event =
    | Asked(now: int)
    | Reached(firmware: Option<string>)
    | TriedPlan(plan: CastPlan, verdict: Verdict, at: int)
    | TriedClip(plan: CastPlan, verdict: Verdict, at: int)

  function Learn(caps: Caps, e: Event): Caps {
    match e
    case Asked(now) => Expired(caps, now)
    case Reached(firmware) => Met(caps, firmware)
    case TriedPlan(plan, verdict, at) =>
      if verdict.Moved? then Recorded(caps, plan, true, at)
      else (match BlameOf(verdict)
            case Nothing => caps
            case Format => Recorded(caps, plan, false, at)
            case Audio => Stalled(caps, plan, at))
    case TriedClip(plan, verdict, at) =>
      if verdict.Moved? then Remembered(caps, VideoPartOf(plan), true, at)
      else if BlameOf(verdict).Format? then Remembered(caps, VideoPartOf(plan), false, at)
      else caps
  }

  /** Only castable plans are tried, and a clip is shown only for a picture not known to play. */
  predicate Proper(caps: Caps, e: Event) {
    match e
    case TriedPlan(plan, _, _) => Castable(plan.video)
    case TriedClip(plan, _, _) =>
      Castable(plan.video) && WantsClip(plan) && !Played(caps.formats, VideoPartOf(plan))
    case _ => true
  }

  function Run(caps: Caps, events: seq<Event>): Caps
    decreases |events|
  {
    if events == [] then caps else Run(Learn(caps, events[0]), events[1..])
  }

  predicate ProperRun(caps: Caps, events: seq<Event>)
    decreases |events|
  {
    events != [] ==> Proper(caps, events[0]) && ProperRun(Learn(caps, events[0]), events[1..])
  }

  lemma {:induction false} RunConcat(caps: Caps, a: seq<Event>, b: seq<Event>)
    ensures Run(caps, a + b) == Run(Run(caps, a), b)
    ensures ProperRun(caps, a) && ProperRun(Run(caps, a), b) ==> ProperRun(caps, a + b)
    decreases |a|
  {
    if a == [] {
      assert a + b == b;
    } else {
      assert (a + b)[0] == a[0] && (a + b)[1..] == a[1..] + b;
      RunConcat(Learn(caps, a[0]), a[1..], b);
    }
  }

  // ----- What plays stays known to play -----

  lemma LearnKeeps(caps: Caps, e: Event, part: Part)
    requires Proper(caps, e) && Played(caps.formats, part)
    ensures Played(Learn(caps, e).formats, part)
  {
    if e.TriedPlan? {
      AllPlayedPlays(caps.formats, Parts(e.plan), e.at);
      FirstUnplayedIs(caps.formats, Parts(e.plan));
    }
  }

  lemma LearnTeachable(caps: Caps, e: Event)
    requires Proper(caps, e) && OnlyTeachable(caps.formats)
    ensures OnlyTeachable(Learn(caps, e).formats)
  {
    if e.TriedPlan? {
      AllPlayedPlays(caps.formats, Parts(e.plan), e.at);
      FirstUnplayedIs(caps.formats, Parts(e.plan));
      AudioIsAPart(e.plan);
    }
  }

  lemma AudioIsAPart(plan: CastPlan)
    ensures AudioPartOf(plan).Some? ==> AudioPartOf(plan).value in Parts(plan)
  {
  }

  /**
   A part known to play is never marked refused, nor forgotten: over any run of casts, stalls,
   refusals, clips, expiries and firmware changes.
   */
  lemma {:induction false} PlayedStaysPlayed(caps: Caps, events: seq<Event>)
    requires ProperRun(caps, events)
    ensures forall part :: Played(caps.formats, part) ==> Played(Run(caps, events).formats, part)
    ensures OnlyTeachable(caps.formats) ==> OnlyTeachable(Run(caps, events).formats)
    decreases |events|
  {
    if events != [] {
      var next := Learn(caps, events[0]);
      forall part | Played(caps.formats, part) ensures Played(next.formats, part) {
        LearnKeeps(caps, events[0], part);
      }
      if OnlyTeachable(caps.formats) {
        LearnTeachable(caps, events[0]);
      }
      PlayedStaysPlayed(next, events[1..]);
    }
  }

  /**
   Only a fair try marks a part refused: media was asked for and the source was well. And only a
   part of what was tried, not known to play before.
   */
  lemma RefusalNeedsAFairTry(caps: Caps, e: Event, part: Part)
    requires Proper(caps, e)
    requires Refused(Learn(caps, e).formats, part) && !Refused(caps.formats, part)
    ensures e.TriedPlan? || e.TriedClip?
    ensures (e.verdict.Denied? || e.verdict.Stuck?) && Fair(e.verdict.source)
    ensures part !in caps.formats
    ensures e.TriedPlan? ==> part in Parts(e.plan)
    ensures e.TriedClip? ==> part == VideoPartOf(e.plan) && e.verdict.Denied?
    ensures e.verdict.Stuck? ==> part.AudioPart?
  {
    if e.TriedPlan? {
      AllPlayedPlays(caps.formats, Parts(e.plan), e.at);
      FirstUnplayedIs(caps.formats, Parts(e.plan));
      AudioIsAPart(e.plan);
    }
  }

  /** What a verdict on the source says of a try. */
  function Judged(w: SourceWait.Watch): Source
    requires w.Verdict?
  {
    Source(w.served, w.busy, w.troubled)
  }

  /**
   However the relay's waits interleave with the reset and the reads of a try's verdict, a part is
   newly marked refused only when media was asked for and no wait there was then was still on, or had
   failed or been slow and said so since the reset.
   */
  lemma NeverTaughtUnfairly(
    steps: seq<SourceWait.Step>, s: SourceWait.State, caps: Caps, e: Event, part: Part)
    requires SourceWait.CanRun(SourceWait.INITIAL, steps)
    requires s == SourceWait.Run(SourceWait.INITIAL, steps) && s.watch.Verdict?
    requires Proper(caps, e) && (e.TriedPlan? || e.TriedClip?)
    requires e.verdict.Denied? || e.verdict.Stuck? ==> e.verdict.source == Judged(s.watch)
    requires Refused(Learn(caps, e).formats, part) && !Refused(caps.formats, part)
    ensures s.watch.served
    ensures forall id <- s.waits :: s.waits[id].began < s.watch.at ==>
              s.waits[id].left.Some? && s.waits[id].left.value < s.watch.at
              && !SourceWait.WroteSince(s.waits[id], s.resetAt)
  {
    RefusalNeedsAFairTry(caps, e, part);
    SourceWait.AFairVerdictMissesNone(steps);
  }

  // ----- Once played, never uncastable -----

  lemma {:induction false} FilterHas<T(!new)>(p: T -> bool, s: seq<T>)
    ensures forall x :: x in Filter(p, s) <==> x in s && p(x)
  {
    if s != [] {
      FilterHas(p, s[1..]);
      assert s == [s[0]] + s[1..];
    }
  }

  lemma AllPlayedAllowed(known: Answers, plan: CastPlan)
    requires forall part <- Parts(plan) :: Played(known, part)
    ensures AllowedBy(known, plan)
  {
  }

  /** What a plan's audio says of how it was drafted. */
  lemma DraftedFrom(s: Stream, known: Answers, plan: CastPlan)
    requires plan in Drafts(s, known)
    ensures plan.video == VideoOf(s) && plan.height == s.media.height
    ensures plan.audio.ToAac? ==>
      && plan == Remuxed(s, ToAac(AudioOf(s).value)) && ContainerOf(s).Mkv?
      && AudioOf(s) == Some(plan.audio.from) && OffersAac(s, known)
    ensures !plan.audio.ToAac? ==> CopyIn(s, known, plan.delivery) == Some(plan.audio)
  {
  }

  lemma CopyKept(s: Stream, before: Answers, after: Answers, plan: CastPlan)
    requires plan in Drafts(s, before) && !plan.audio.ToAac? && OnlyTeachable(after)
    requires forall part <- Parts(plan) :: Played(after, part)
    ensures CopyIn(s, after, plan.delivery) == Some(plan.audio)
  {
    DraftedFrom(s, before, plan);
    AudioIsAPart(plan);
  }

  /** A plan all of whose parts are known to play is drafted again, or its audio's copy is. */
  lemma DraftedAgain(s: Stream, before: Answers, after: Answers, plan: CastPlan)
    returns (again: CastPlan)
    requires plan in Drafts(s, before) && OnlyTeachable(after)
    requires forall part <- Parts(plan) :: Played(after, part)
    ensures again in Drafts(s, after)
    ensures again == plan || (plan.audio.ToAac? && again == plan.(audio := Copy(plan.audio.from)))
    ensures forall part <- Parts(again) :: Played(after, part)
  {
    DraftedFrom(s, before, plan);
    again := plan;
    if plan.audio.ToAac? {
      if !OffersAac(s, after) {
        again := plan.(audio := Copy(plan.audio.from));
        assert CopyIn(s, after, HlsFmp4) == Some(again.audio);
      }
    } else {
      CopyKept(s, before, after, plan);
    }
  }

  /**
   Once a plan has played on a TV, its stream never becomes uncastable there: whatever happens
   later, that plan is still offered or, where it turned the audio to AAC and the audio's copy has
   since played too, the copy is.
   */
  lemma OncePlayedNeverUncastable(
    s: Stream, before: Caps, plan: CastPlan, at: int, events: seq<Event>)
    requires OnlyTeachable(before.formats)
    requires CastPlans(s, before.formats).Ok? && plan in CastPlans(s, before.formats).value
    requires ProperRun(Learn(before, TriedPlan(plan, Moved, at)), events)
    ensures
      var after := Run(Learn(before, TriedPlan(plan, Moved, at)), events).formats;
      && CastPlans(s, after).Ok?
      && (plan in CastPlans(s, after).value
          || (plan.audio.ToAac?
              && plan.(audio := Copy(plan.audio.from)) in CastPlans(s, after).value))
  {
    var played := Learn(before, TriedPlan(plan, Moved, at));
    var after := Run(played, events).formats;
    FilterHas(Allowed(before.formats), Drafts(s, before.formats));
    DraftedFrom(s, before.formats, plan);
    AllPlayedPlays(before.formats, Parts(plan), at);
    LearnTeachable(before, TriedPlan(plan, Moved, at));
    PlayedStaysPlayed(played, events);
    var again := DraftedAgain(s, before.formats, after, plan);
    AllPlayedAllowed(after, again);
    FilterHas(Allowed(after), Drafts(s, after));
  }

  // ----- A load's refusals, and planning anew -----

  /** What a load teaches while nothing expires: more refusals, and answers about the picture. */
  ghost predicate Taught(before: Answers, after: Answers) {
    && (forall part | Refused(before, part) :: Refused(after, part))
    && (forall part | Played(before, part) :: Played(after, part))
    && (forall part: Part | part.AudioPart? && Played(after, part) :: Played(before, part))
  }

  /** A load's own tries: of plans holding nothing known to be refused, and that did not play. */
  predicate LoadEvent(caps: Caps, e: Event) {
    && (e.TriedPlan? || e.TriedClip?) && Proper(caps, e)
    && AllowedBy(caps.formats, e.plan) && (e.TriedPlan? ==> !e.verdict.Moved?)
  }

  predicate LoadRun(caps: Caps, events: seq<Event>)
    decreases |events|
  {
    events != [] ==> LoadEvent(caps, events[0]) && LoadRun(Learn(caps, events[0]), events[1..])
  }

  lemma LoadEventTeaches(caps: Caps, e: Event)
    requires LoadEvent(caps, e)
    ensures Taught(caps.formats, Learn(caps, e).formats)
  {
    forall part | Played(caps.formats, part) ensures Played(Learn(caps, e).formats, part) {
      LearnKeeps(caps, e, part);
    }
    FirstUnplayedIs(caps.formats, Parts(e.plan));
    if e.TriedClip? {
      ClippedIsAPart(e.plan);
    }
  }

  lemma ClippedIsAPart(plan: CastPlan)
    requires WantsClip(plan)
    ensures VideoPartOf(plan) in Parts(plan)
  {
  }

  lemma {:induction false} LoadTeaches(caps: Caps, events: seq<Event>)
    requires LoadRun(caps, events) && OnlyTeachable(caps.formats)
    ensures Taught(caps.formats, Run(caps, events).formats)
    ensures OnlyTeachable(Run(caps, events).formats)
    decreases |events|
  {
    if events != [] {
      var next := Learn(caps, events[0]);
      LoadEventTeaches(caps, events[0]);
      LearnTeachable(caps, events[0]);
      LoadTeaches(next, events[1..]);
    }
  }

  /** The plans of `s` that hold nothing refused: what is offered, or nothing. */
  function Offered(s: Stream, known: Answers): seq<CastPlan> {
    match CastPlans(s, known)
    case Ok(plans) => plans
    case Err(_) => []
  }

  lemma OfferedAre(s: Stream, known: Answers)
    requires !s.source.kind.DeepLink? && Castable(VideoOf(s))
    ensures Offered(s, known) == Filter(Allowed(known), Drafts(s, known))
  {
  }

  lemma {:induction false} FilterTwice(before: Answers, after: Answers, plans: seq<CastPlan>)
    requires Taught(before, after)
    ensures Filter(Allowed(after), Filter(Allowed(before), plans)) == Filter(Allowed(after), plans)
  {
    if plans != [] {
      var rest := Filter(Allowed(before), plans[1..]);
      FilterTwice(before, after, plans[1..]);
      assert ([plans[0]] + rest)[1..] == rest;
      if AllowedBy(after, plans[0]) {
        assert AllowedBy(before, plans[0]);
      }
    }
  }

  lemma FilterOne(known: Answers, plan: CastPlan)
    ensures Filter(Allowed(known), [plan]) == if AllowedBy(known, plan) then [plan] else []
  {
    assert [plan][1..] == [];
    assert [plan] + [] == [plan];
  }

  /** A copy drafted before is drafted after, or is of audio refused since; none is drafted anew. */
  lemma CopyTaught(s: Stream, before: Answers, after: Answers, delivery: Delivery)
    requires Taught(before, after) && OnlyTeachable(after)
    ensures CopyIn(s, after, delivery) == CopyIn(s, before, delivery)
      || (CopyIn(s, after, delivery).None? && CopyIn(s, before, delivery).Some?
          && CopyIn(s, before, delivery).value.Copy?
          && forall route ::
               !AllowedBy(after, PlanOf(s, route, CopyIn(s, before, delivery).value, delivery)))
  {
    var was := CopyIn(s, before, delivery);
    if was.Some? && CopyIn(s, after, delivery) != was {
      forall route ensures !AllowedBy(after, PlanOf(s, route, was.value, delivery)) {
        var plan := PlanOf(s, route, was.value, delivery);
        AudioIsAPart(plan);
        assert Refused(after, AudioPart(was.value.codec, FamilyOf(delivery)));
      }
    }
  }

  lemma IfSomeTaught(s: Stream, before: Answers, after: Answers, delivery: Delivery, route: Route)
    requires Taught(before, after) && OnlyTeachable(after)
    ensures
      var make := (audio: AudioPlan) => PlanOf(s, route, audio, delivery);
      Filter(Allowed(after), IfSome(CopyIn(s, before, delivery), make))
      == Filter(Allowed(after), IfSome(CopyIn(s, after, delivery), make))
  {
    CopyTaught(s, before, after, delivery);
    if CopyIn(s, before, delivery).Some? {
      FilterOne(after, PlanOf(s, route, CopyIn(s, before, delivery).value, delivery));
    }
  }

  lemma AacTaught(s: Stream, before: Answers, after: Answers)
    requires Taught(before, after) && OnlyTeachable(after)
    ensures OffersAac(s, before) == OffersAac(s, after)
  {
    CopyTaught(s, before, after, HlsFmp4);
  }

  lemma DraftsTaught(s: Stream, before: Answers, after: Answers)
    requires Taught(before, after) && OnlyTeachable(after)
    ensures Filter(Allowed(after), Drafts(s, before)) == Filter(Allowed(after), Drafts(s, after))
  {
    if ContainerOf(s).Mkv? {
      MkvDraftsTaught(s, before, after);
    } else {
      OtherDraftsTaught(s, before, after);
    }
  }

  lemma MkvDraftsTaught(s: Stream, before: Answers, after: Answers)
    requires Taught(before, after) && OnlyTeachable(after) && ContainerOf(s).Mkv?
    ensures Filter(Allowed(after), Drafts(s, before)) == Filter(Allowed(after), Drafts(s, after))
  {
    var remux := (audio: AudioPlan) => PlanOf(s, Relayed(true), audio, HlsFmp4);
    var whole := (audio: AudioPlan) => PlanOf(s, Relayed(false), audio, Mkv);
    IfSomeTaught(s, before, after, HlsFmp4, Relayed(true));
    IfSomeTaught(s, before, after, Mkv, Relayed(false));
    AacTaught(s, before, after);
    ThreeParts(s, before, after);
    ThreeParts(s, after, after);
  }

  lemma ThreeParts(s: Stream, known: Answers, after: Answers)
    ensures
      Filter(Allowed(after), MkvDrafts(s, known))
      == Filter(Allowed(after), IfSome(CopyIn(s, known, HlsFmp4),
                                       (audio: AudioPlan) => PlanOf(s, Relayed(true), audio, HlsFmp4)))
         + Filter(Allowed(after),
                  if OffersAac(s, known) then [Remuxed(s, ToAac(AudioOf(s).value))] else [])
         + Filter(Allowed(after),
                  if ChosenIsFirst(s.media)
                  then IfSome(CopyIn(s, known, Mkv),
                              (audio: AudioPlan) => PlanOf(s, Relayed(false), audio, Mkv))
                  else [])
  {
    var a := IfSome(CopyIn(s, known, HlsFmp4),
                    (audio: AudioPlan) => PlanOf(s, Relayed(true), audio, HlsFmp4));
    var b := if OffersAac(s, known) then [Remuxed(s, ToAac(AudioOf(s).value))] else [];
    var c := if ChosenIsFirst(s.media)
             then IfSome(CopyIn(s, known, Mkv),
                         (audio: AudioPlan) => PlanOf(s, Relayed(false), audio, Mkv))
             else [];
    assert MkvDrafts(s, known) == a + b + c;
    FilterConcat(Allowed(after), a + b, c);
    FilterConcat(Allowed(after), a, b);
  }

  lemma OtherDraftsTaught(s: Stream, before: Answers, after: Answers)
    requires Taught(before, after) && OnlyTeachable(after) && !ContainerOf(s).Mkv?
    ensures Filter(Allowed(after), Drafts(s, before)) == Filter(Allowed(after), Drafts(s, after))
  {
    var d, was := ContainerOf(s), CopyIn(s, before, ContainerOf(s));
    CopyTaught(s, before, after, d);
    if was.Some? && CopyIn(s, after, d) != was {
      var direct, relayed := PlanOf(s, Direct(s.source.url), was.value, d),
                             PlanOf(s, Relayed(false), was.value, d);
      FilterConcat(Allowed(after), [direct], [relayed]);
      FilterOne(after, direct);
      FilterOne(after, relayed);
    }
  }

  /**
   Skipping the plans that hold a part refused as a load goes on is planning anew: what is offered
   after the load's refusals is what was offered before, without the plans holding a refused part.
   */
  lemma ReplanningIsSkipping(s: Stream, before: Caps, events: seq<Event>)
    requires OnlyTeachable(before.formats) && LoadRun(before, events)
    ensures
      var after := Run(before, events).formats;
      Offered(s, after) == Filter(Allowed(after), Offered(s, before.formats))
  {
    var after := Run(before, events).formats;
    LoadTeaches(before, events);
    if !s.source.kind.DeepLink? && Castable(VideoOf(s)) {
      OfferedAre(s, before.formats);
      OfferedAre(s, after);
      DraftsTaught(s, before.formats, after);
      FilterTwice(before.formats, after, Drafts(s, before.formats));
    }
  }

  // ----- Each refusal that teaches anything gets nearer the end -----

  function PartsOfAll(plans: seq<CastPlan>): seq<Part> {
    if plans == [] then [] else Parts(plans[0]) + PartsOfAll(plans[1..])
  }

  /** The parts of the plans nothing is known of. */
  function Unknown(known: Answers, plans: seq<CastPlan>): set<Part> {
    set part <- PartsOfAll(plans) | part !in known
  }

  lemma {:induction false} PartsAreOfAll(plans: seq<CastPlan>, plan: CastPlan)
    requires plan in plans
    ensures forall part <- Parts(plan) :: part in PartsOfAll(plans)
  {
    if plan != plans[0] {
      PartsAreOfAll(plans[1..], plan);
    }
  }

  /** A part newly known shrinks what is unknown. */
  lemma OneLessUnknown(before: Answers, after: Answers, plans: seq<CastPlan>, part: Part)
    requires forall p :: p in before ==> p in after
    requires part in after && part !in before && part in PartsOfAll(plans)
    ensures Unknown(after, plans) < Unknown(before, plans)
    ensures |Unknown(after, plans)| < |Unknown(before, plans)|
  {
    var was, now := Unknown(before, plans), Unknown(after, plans);
    assert part in was && part !in now;
    SmallerSet(now, was, part);
  }

  lemma SmallerSet<T>(a: set<T>, b: set<T>, x: T)
    requires a <= b && x in b && x !in a
    ensures |a| < |b|
  {
    var both := a + (b - a);
    assert both == b && x in b - a;
    assert |both| == |a| + |b - a|;
  }

  /**
   A try of an offered plan that changes what is known of the formats leaves fewer parts unknown,
   and one that was held against the plan leaves the plan out; a refusal changes nothing only
   when it was unfair, or every part it could blame is known to play.
   */
  lemma RefusalsTeach(caps: Caps, plan: CastPlan, verdict: Verdict, at: int, plans: seq<CastPlan>)
    requires AllowedBy(caps.formats, plan) && plan in plans && !verdict.Moved?
    ensures
      var after := Learn(caps, TriedPlan(plan, verdict, at)).formats;
      if after == caps.formats then
        match BlameOf(verdict)
        case Nothing => true
        case Format => forall part <- Parts(plan) :: Played(caps.formats, part)
        case Audio => AudioPartOf(plan).None? || Played(caps.formats, AudioPartOf(plan).value)
      else
        && !AllowedBy(after, plan)
        && Unknown(after, plans) < Unknown(caps.formats, plans)
        && |Unknown(after, plans)| < |Unknown(caps.formats, plans)|
  {
    var after := Learn(caps, TriedPlan(plan, verdict, at)).formats;
    FirstUnplayedIs(caps.formats, Parts(plan));
    AudioIsAPart(plan);
    PartsAreOfAll(plans, plan);
    var blamed :=
      match BlameOf(verdict)
      case Nothing => None
      case Format => FirstUnplayed(caps.formats, Parts(plan))
      case Audio => StallBlame(caps.formats, plan);
    if blamed.Some? {
      assert after == caps.formats[blamed.value := Answer(false, at)];
      assert Refused(after, blamed.value) && blamed.value !in caps.formats;
      OneLessUnknown(caps.formats, after, plans, blamed.value);
    }
  }

  // ----- Why nothing is left -----

  lemma {:induction false} BlamedAre(known: Answers, plans: seq<CastPlan>)
    ensures forall part <- Blamed(known, plans) :: Refused(known, part)
    ensures Filter(Allowed(known), plans) == [] ==>
      forall plan <- plans :: exists part <- Blamed(known, plans) :: part in Parts(plan)
    ensures forall part <- Blamed(known, plans) :: exists plan <- plans :: part in Parts(plan)
  {
    if plans != [] {
      BlamedAre(known, plans[1..]);
      FirstRefusedOrAllowed(known, Parts(plans[0]));
      assert plans == [plans[0]] + plans[1..];
      var first := FirstRefused(known, Parts(plans[0]));
      var own := if first.Some? then [first.value] else [];
      assert Blamed(known, plans) == own + Blamed(known, plans[1..]);
    }
  }

  lemma PartKinds(plan: CastPlan, part: Part)
    requires part in Parts(plan)
    ensures part.VideoPart? ==> part == VideoPartOf(plan)
    ensures part.AudioPart? ==> plan.audio == Copy(part.audio)
    ensures part.ContainerPart? ==> part.delivery == plan.delivery
  {
  }

  lemma PictureBlamed(s: Stream, known: Answers, plans: seq<CastPlan>)
    requires exists part <- Blamed(known, plans) :: part.VideoPart?
    ensures exists plan <- plans :: Refused(known, VideoPartOf(plan))
  {
    BlamedAre(known, plans);
    var part :| part in Blamed(known, plans) && part.VideoPart?;
    var plan :| plan in plans && part in Parts(plan);
    PartKinds(plan, part);
  }

  lemma SoundBlamed(known: Answers, plans: seq<CastPlan>)
    requires exists part <- Blamed(known, plans) :: part.AudioPart?
    ensures exists plan <- plans :: AudioPartOf(plan).Some? && Refused(known, AudioPartOf(plan).value)
  {
    BlamedAre(known, plans);
    var part :| part in Blamed(known, plans) && part.AudioPart?;
    var plan :| plan in plans && part in Parts(plan);
    AudioPartIs(plan, part);
  }

  lemma BlamedFor(known: Answers, plans: seq<CastPlan>, plan: CastPlan) returns (part: Part)
    requires plan in plans && Filter(Allowed(known), plans) == []
    ensures part in Blamed(known, plans) && part in Parts(plan) && Refused(known, part)
  {
    BlamedAre(known, plans);
    part :| part in Blamed(known, plans) && part in Parts(plan);
  }

  lemma NeitherPictureNorSound(s: Stream, known: Answers, plan: CastPlan, part: Part)
    requires plan in Drafts(s, known) && part in Parts(plan)
    requires !IsVideo(part, VideoOf(s)) && !IsAudioOf(part, AudioOf(s))
    ensures part == ContainerPart(plan.delivery)
  {
    DraftedFrom(s, known, plan);
    PartKinds(plan, part);
    if plan.audio.Copy? {
      CopiedIsTheSource(s, known, plan);
    }
  }

  lemma ContainerBlamed(s: Stream, known: Answers, drafts: seq<CastPlan>, plan: CastPlan)
    requires drafts == Drafts(s, known) && plan in drafts && Filter(Allowed(known), drafts) == []
    requires forall part <- Blamed(known, drafts) ::
               !IsVideo(part, VideoOf(s)) && !IsAudioOf(part, AudioOf(s))
    ensures Refused(known, ContainerPart(plan.delivery))
  {
    var part := BlamedFor(known, drafts, plan);
    NeitherPictureNorSound(s, known, plan, part);
  }

  /**
   The reason given when nothing is left is true of the plans there were: the picture or the sound
   named is refused in one of them, and a container is named only when each plan's is refused.
   */
  lemma TheReasonIsTrue(s: Stream, known: Answers)
    requires CastPlans(s, known).Err? && Drafts(s, known) != []
    requires !s.source.kind.DeepLink? && Castable(VideoOf(s))
    ensures
      match CastPlans(s, known).error
      case NoVideo(video) =>
        video == VideoOf(s)
        && exists plan <- Drafts(s, known) :: Refused(known, VideoPartOf(plan))
      case NoAudio(codec) =>
        codec == AudioOf(s)
        && exists plan <- Drafts(s, known) ::
             AudioPartOf(plan).Some? && Refused(known, AudioPartOf(plan).value)
      case NoContainer(delivery) =>
        delivery == ContainerOf(s)
        && forall plan <- Drafts(s, known) :: Refused(known, ContainerPart(plan.delivery))
      case OtherApp => false
  {
    ReasonOf(s, known, Drafts(s, known), Blamed(known, Drafts(s, known)));
  }

  lemma ReasonOf(s: Stream, known: Answers, drafts: seq<CastPlan>, blamed: seq<Part>)
    requires drafts == Drafts(s, known) && blamed == Blamed(known, drafts)
    requires Filter(Allowed(known), drafts) == []
    ensures
      match Why(s, blamed)
      case NoVideo(video) => exists plan <- drafts :: Refused(known, VideoPartOf(plan))
      case NoAudio(codec) =>
        exists plan <- drafts :: AudioPartOf(plan).Some? && Refused(known, AudioPartOf(plan).value)
      case NoContainer(delivery) =>
        forall plan <- drafts :: Refused(known, ContainerPart(plan.delivery))
      case OtherApp => false
  {
    match Why(s, blamed)
    case NoVideo(_) => PictureBlamed(s, known, drafts);
    case NoAudio(_) => SoundBlamed(known, drafts);
    case NoContainer(_) =>
      forall plan | plan in drafts ensures Refused(known, ContainerPart(plan.delivery)) {
        ContainerBlamed(s, known, drafts, plan);
      }
    case OtherApp =>
  }

  lemma AudioPartIs(plan: CastPlan, part: Part)
    requires part in Parts(plan) && part.AudioPart?
    ensures AudioPartOf(plan) == Some(part)
  {
  }

  lemma CopiedIsTheSource(s: Stream, known: Answers, plan: CastPlan)
    requires plan in Drafts(s, known) && plan.audio.Copy?
    ensures AudioOf(s) == Some(plan.audio.codec)
  {
    DraftedFrom(s, known, plan);
  }
}
