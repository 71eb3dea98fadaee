/**
 Trying a stream's plans in order until one plays (crates/anistream-cast/src/player.rs, `attempt`
 and `ask_with_clip`), and the end-to-end result: what has once played on a TV stays castable.
 */
module Attempt {
  import opened Bytes
  import opened Formats
  import opened Ladder
  import opened Memory

  /**
   What the world does in the turn of one plan: the clock when the memory is read, how the clip and
   the plan itself would go, and whether the plan can be staged.
   */
  datatype Turn = Turn(
    asked: int, clip: Verdict, clipAt: int, staged: bool, tried: Verdict, triedAt: int)

  /**
   A TV for one cast: its turns, and the clock when the plans are made, when the audio tracks to
   offer are looked up, and after the last plan.
   */
  datatype Tv = Tv(turns: nat -> Turn, begins: int, chooses: int, ends: int)

  /** Go on to the next plan, with a reason a clip gave; or stop. */
  datatype Next = Go(why: Option<Uncastable>) | Stop(result: Result<CastPlan, Failure>)

  /** Whether there is a clip of a picture. */
  predicate HasClip(video: VideoFormat, height: Option<nat>) {
    Castable(video) && (video == H264 ==> HeightClass(height) > 1080)
  }

  predicate AsksWithClip(known: Answers, plan: CastPlan) {
    WantsClip(plan) && !Played(known, VideoPartOf(plan)) && HasClip(plan.video, plan.height)
  }

  // ----- One plan's turn -----

  /** The clip's part of a turn: what it tells, and how to go on unless with the plan itself. */
  function ClipTurn(caps: Caps, plan: CastPlan, turn: Turn): (seq<Event>, Option<Next>) {
    if !AsksWithClip(caps.formats, plan) then ([], None)
    else if turn.clip.Broke? then ([], Some(Stop(Err(turn.clip.failure))))
    else
      ([TriedClip(plan, turn.clip, turn.clipAt)],
       if BlameOf(turn.clip).Format? then Some(Go(Some(NoVideo(plan.video)))) else None)
  }

  function PlanTurn(plan: CastPlan, turn: Turn, why: Option<Uncastable>): (seq<Event>, Next) {
    if !turn.staged then ([], Go(why))
    else
      match turn.tried
      case Broke(failure) => ([], Stop(Err(failure)))
      case Moved => ([TriedPlan(plan, Moved, turn.triedAt)], Stop(Ok(plan)))
      case _ => ([TriedPlan(plan, turn.tried, turn.triedAt)], Go(None))
  }

  function TakeTurn(caps: Caps, plan: CastPlan, turn: Turn, why: Option<Uncastable>)
    : (seq<Event>, Next)
  {
    var asked := Learn(caps, Asked(turn.asked));
    if !AllowedBy(asked.formats, plan) then ([Asked(turn.asked)], Go(why))
    else
      var (clipped, next) := ClipTurn(asked, plan, turn);
      if next.Some? then ([Asked(turn.asked)] + clipped, next.value)
      else
        var (tried, then') := PlanTurn(plan, turn, why);
        ([Asked(turn.asked)] + clipped + tried, then')
  }

  /** The plans from the `i`-th on. */
  function Climb(caps: Caps, plans: seq<CastPlan>, i: nat, tv: Tv, why: Option<Uncastable>)
    : (seq<Event>, Next)
    requires i <= |plans|
    decreases |plans| - i
  {
    if i == |plans| then ([], Go(why))
    else
      var (events, next) := TakeTurn(caps, plans[i], tv.turns(i), why);
      if next.Stop? then (events, next)
      else
        var (more, last) := Climb(Run(caps, events), plans, i + 1, tv, next.why);
        (events + more, last)
  }

  // ----- The audio tracks to offer -----

  /** Whether the memory is read for the audio tracks: only a remux can change them. */
  predicate OffersAudio(s: Stream) { s.media.container == Some(Mkv) && |s.media.audio| >= 2 }

  /** What looking them up does to the memory. */
  function Choosing(s: Stream, tv: Tv): seq<Event> {
    if OffersAudio(s) then [Asked(tv.chooses)] else []
  }

  predicate HasRemux(plans: seq<CastPlan>) {
    exists i :: 0 <= i < |plans| && plans[i].route == Relayed(true)
  }

  /** Whether the TV could be given the `i`th track, as far as is known. */
  predicate Choosable(s: Stream, known: Answers, i: nat) {
    var plans := CastPlans(s.(media := s.media.(choice := i)), known);
    plans.Ok? && HasRemux(plans.value)
  }

  function Chooses(s: Stream, known: Answers): nat -> bool { (i: nat) => Choosable(s, known, i) }

  /** The ones of the first `n` numbers that can be. */
  function Those(can: nat -> bool, n: nat): seq<nat> {
    if n == 0 then [] else Those(can, n - 1) + (if can(n - 1) then [n - 1] else [])
  }

  /** The audio tracks an attempt offers. */
  function AudioChoices(caps: Caps, s: Stream, tv: Tv): seq<nat> {
    var asked := Learn(caps, Asked(tv.begins));
    if CastPlans(s, asked.formats).Err? || !OffersAudio(s) then []
    else Those(Chooses(s, Learn(asked, Asked(tv.chooses)).formats), |s.media.audio|)
  }

  // ----- A whole attempt's events -----

  function Events(caps: Caps, s: Stream, tv: Tv): seq<Event> {
    var asked := Learn(caps, Asked(tv.begins));
    match CastPlans(s, asked.formats)
    case Err(_) => [Asked(tv.begins)]
    case Ok(plans) =>
      var (events, next) := Climb(Run(asked, Choosing(s, tv)), plans, 0, tv, None);
      [Asked(tv.begins)] + Choosing(s, tv) + events + (if next.Stop? then [] else [Asked(tv.ends)])
  }

  /** What an attempt whose plans all failed says: what the TV refused, when that leaves nothing. */
  function Reason(s: Stream, known: Answers, why: Option<Uncastable>): Failure {
    match CastPlans(s, known)
    case Err(e) => CannotCast(e)
    case Ok(_) => if why.Some? then CannotCast(why.value) else CastRefused
  }

  function Outcome(caps: Caps, s: Stream, tv: Tv): Result<CastPlan, Failure> {
    var asked := Learn(caps, Asked(tv.begins));
    match CastPlans(s, asked.formats)
    case Err(e) => Err(CannotCast(e))
    case Ok(plans) =>
      match Climb(Run(asked, Choosing(s, tv)), plans, 0, tv, None).1
      case Stop(result) => result
      case Go(why) => Err(Reason(s, Run(caps, Events(caps, s, tv)).formats, why))
  }

  // ----- The attempt -----

  /** Nothing of the other TVs' records changed. */
  ghost predicate OthersKept(was: map<string, Caps>, now: map<string, Caps>, id: string) {
    && (forall other | other in was && other != id :: other in now && now[other] == was[other])
    && (forall other | other in now && other != id :: other in was)
  }

  method Try(memory: CastMemory, id: string, s: Stream, tv: Tv)
    returns (r: Result<CastPlan, Failure>, audio: seq<nat>)
    modifies memory
    ensures r == Outcome(CapsOf(old(memory.tvs), id), s, tv)
    ensures audio == AudioChoices(CapsOf(old(memory.tvs), id), s, tv)
    ensures CapsOf(memory.tvs, id)
         == Run(CapsOf(old(memory.tvs), id), Events(CapsOf(old(memory.tvs), id), s, tv))
    ensures OthersKept(old(memory.tvs), memory.tvs, id)
  {
    ghost var was := CapsOf(memory.tvs, id);
    var caps := memory.Caps(id, tv.begins);
    RunOne(was, Asked(tv.begins));
    var planned := MakePlans(s, caps.formats);
    if planned.Err? { return Err(CannotCast(planned.error)), []; }
    audio := OfferAudio(memory, id, s, tv);
    ghost var start := [Asked(tv.begins)] + Choosing(s, tv);
    RunConcat(was, [Asked(tv.begins)], Choosing(s, tv));
    ghost var climbed := Climb(Run(was, start), planned.value, 0, tv, None).0;
    var next := ClimbPlans(memory, id, planned.value, tv);
    RunConcat(was, start, climbed);
    if next.Stop? {
      assert start + climbed + [] == start + climbed;
      return next.result, audio;
    }
    RunConcat(was, start + climbed, [Asked(tv.ends)]);
    RunOne(Run(was, start + climbed), Asked(tv.ends));
    caps := memory.Caps(id, tv.ends);
    var again := MakePlans(s, caps.formats);
    if again.Err? { return Err(CannotCast(again.error)), audio; }
    return Err(if next.why.Some? then CannotCast(next.why.value) else CastRefused), audio;
  }

  /** The audio tracks the TV could be given, of a file that is remuxed and has more than one. */
  method OfferAudio(memory: CastMemory, id: string, s: Stream, tv: Tv) returns (audio: seq<nat>)
    modifies memory
    ensures audio
         == if OffersAudio(s)
            then Those(Chooses(s, Learn(CapsOf(old(memory.tvs), id), Asked(tv.chooses)).formats),
                       |s.media.audio|)
            else []
    ensures CapsOf(memory.tvs, id) == Run(CapsOf(old(memory.tvs), id), Choosing(s, tv))
    ensures OthersKept(old(memory.tvs), memory.tvs, id)
  {
    if !OffersAudio(s) { return []; }
    RunOne(CapsOf(memory.tvs, id), Asked(tv.chooses));
    var caps := memory.Caps(id, tv.chooses);
    audio := Those(Chooses(s, caps.formats), |s.media.audio|);
  }

  /** The plans one after another, until one plays or the TV is lost. */
  method ClimbPlans(memory: CastMemory, id: string, plans: seq<CastPlan>, tv: Tv)
    returns (next: Next)
    modifies memory
    ensures next == Climb(CapsOf(old(memory.tvs), id), plans, 0, tv, None).1
    ensures CapsOf(memory.tvs, id)
         == Run(CapsOf(old(memory.tvs), id),
                Climb(CapsOf(old(memory.tvs), id), plans, 0, tv, None).0)
    ensures OthersKept(old(memory.tvs), memory.tvs, id)
  {
    ghost var caps := CapsOf(memory.tvs, id);
    next := Go(None);
    ghost var want := Climb(caps, plans, 0, tv, None);
    ghost var events := [];
    assert [] + want.0 == want.0;
    for i := 0 to |plans|
      invariant next.Go? && CapsOf(memory.tvs, id) == Run(caps, events)
      invariant want.0 == events + Climb(Run(caps, events), plans, i, tv, next.why).0
      invariant want.1 == Climb(Run(caps, events), plans, i, tv, next.why).1
      invariant OthersKept(old(memory.tvs), memory.tvs, id)
    {
      ghost var now, turn := ClimbStep(caps, events, plans, i, tv, next.why);
      next := PlayTurn(memory, id, plans[i], tv.turns(i), next.why);
      events := events + turn;
      if next.Stop? { return; }
    }
    assert events + [] == events;
  }

  lemma ClimbStep(caps: Caps, events: seq<Event>, plans: seq<CastPlan>, i: nat, tv: Tv,
                  why: Option<Uncastable>)
    returns (now: Caps, turn: seq<Event>)
    requires i < |plans|
    ensures now == Run(caps, events) && turn == TakeTurn(now, plans[i], tv.turns(i), why).0
    ensures Run(caps, events + turn) == Run(now, turn)
    ensures
      var next := TakeTurn(now, plans[i], tv.turns(i), why).1;
      var (all, last) := Climb(now, plans, i, tv, why);
      if next.Stop? then all == turn && last == next
      else
        var (more, then') := Climb(Run(now, turn), plans, i + 1, tv, next.why);
        last == then' && events + all == events + turn + more
  {
    now := Run(caps, events);
    turn := TakeTurn(now, plans[i], tv.turns(i), why).0;
    RunConcat(caps, events, turn);
    var next := TakeTurn(now, plans[i], tv.turns(i), why).1;
    if next.Go? {
      var more := Climb(Run(now, turn), plans, i + 1, tv, next.why).0;
      assert events + (turn + more) == events + turn + more;
    }
  }

  lemma RunOne(caps: Caps, e: Event)
    ensures Run(caps, [e]) == Learn(caps, e)
    ensures ProperRun(caps, [e]) <==> Proper(caps, e)
  {
    assert [e][1..] == [];
  }

  /** A plan's turn: passed over, asked about with a clip, staged and tried. */
  method PlayTurn(memory: CastMemory, id: string, plan: CastPlan, turn: Turn,
                  why: Option<Uncastable>)
    returns (next: Next)
    modifies memory
    ensures next == TakeTurn(CapsOf(old(memory.tvs), id), plan, turn, why).1
    ensures CapsOf(memory.tvs, id)
         == Run(CapsOf(old(memory.tvs), id),
                TakeTurn(CapsOf(old(memory.tvs), id), plan, turn, why).0)
    ensures OthersKept(old(memory.tvs), memory.tvs, id)
  {
    ghost var was := CapsOf(memory.tvs, id);
    ghost var asked := [Asked(turn.asked)];
    var caps := memory.Caps(id, turn.asked);
    RunOne(was, Asked(turn.asked));
    if !AllowedBy(caps.formats, plan) { return Go(why); }
    ghost var (clipped, _) := ClipTurn(caps, plan, turn);
    RunConcat(was, asked, clipped);
    if WantsClip(plan) && !Played(caps.formats, VideoPartOf(plan))
       && HasClip(plan.video, plan.height)
    {
      var goOn := AskWithClip(memory, id, plan, turn);
      if goOn.Err? { return Stop(Err(goOn.error)); }
      if !goOn.value { return Go(Some(NoVideo(plan.video))); }
    }
    ghost var (tried, _) := PlanTurn(plan, turn, why);
    RunConcat(was, asked + clipped, tried);
    next := TryStaged(memory, id, plan, turn, why);
  }

  /** Stage a plan and try it, and note what that teaches. */
  method TryStaged(memory: CastMemory, id: string, plan: CastPlan, turn: Turn,
                   why: Option<Uncastable>)
    returns (next: Next)
    modifies memory
    ensures next == PlanTurn(plan, turn, why).1
    ensures CapsOf(memory.tvs, id)
         == Run(CapsOf(old(memory.tvs), id), PlanTurn(plan, turn, why).0)
    ensures OthersKept(old(memory.tvs), memory.tvs, id)
  {
    if !turn.staged { return Go(why); }
    if turn.tried.Broke? { return Stop(Err(turn.tried.failure)); }
    RunOne(CapsOf(memory.tvs, id), TriedPlan(plan, turn.tried, turn.triedAt));
    if turn.tried.Moved? {
      memory.Record(id, plan, true, turn.triedAt);
      return Stop(Ok(plan));
    }
    var blame := BlameOf(turn.tried);
    if blame.Format? {
      memory.Record(id, plan, false, turn.triedAt);
    } else if blame.Audio? {
      var _ := memory.RecordStall(id, plan, turn.triedAt);
    }
    next := Go(None);
  }

  /** Whether to go on with the plan, after the clip of its picture. */
  method AskWithClip(memory: CastMemory, id: string, plan: CastPlan, turn: Turn)
    returns (goOn: Result<bool, Failure>)
    requires AsksWithClip(CapsOf(memory.tvs, id).formats, plan)
    modifies memory
    ensures turn.clip.Broke? ==> goOn == Err(turn.clip.failure)
    ensures !turn.clip.Broke? ==> goOn == Ok(!BlameOf(turn.clip).Format?)
    ensures CapsOf(memory.tvs, id)
         == Run(CapsOf(old(memory.tvs), id), ClipTurn(CapsOf(old(memory.tvs), id), plan, turn).0)
    ensures OthersKept(old(memory.tvs), memory.tvs, id)
  {
    ghost var was := CapsOf(memory.tvs, id);
    RunOne(was, TriedClip(plan, turn.clip, turn.clipAt));
    if turn.clip.Broke? { return Err(turn.clip.failure); }
    if turn.clip.Moved? {
      memory.Note(id, VideoPartOf(plan), true, turn.clipAt);
      return Ok(true);
    }
    if BlameOf(turn.clip).Format? {
      memory.Note(id, VideoPartOf(plan), false, turn.clipAt);
      return Ok(false);
    }
    return Ok(true);
  }

  // ----- What an attempt comes to -----

  lemma ClipTurnProper(caps: Caps, plan: CastPlan, turn: Turn)
    requires Castable(plan.video)
    ensures ProperRun(caps, ClipTurn(caps, plan, turn).0)
  {
  }

  lemma PlanTurnProper(caps: Caps, plan: CastPlan, turn: Turn, why: Option<Uncastable>)
    requires Castable(plan.video)
    ensures ProperRun(caps, PlanTurn(plan, turn, why).0)
    ensures PlanTurn(plan, turn, why).1.Stop? && PlanTurn(plan, turn, why).1.result.Ok? ==>
      forall part <- Parts(plan) :: Played(Run(caps, PlanTurn(plan, turn, why).0).formats, part)
  {
    if turn.staged && turn.tried.Moved? {
      RunOne(caps, TriedPlan(plan, Moved, turn.triedAt));
      AllPlayedPlays(caps.formats, Parts(plan), turn.triedAt);
    }
  }

  lemma TurnProper(caps: Caps, plan: CastPlan, turn: Turn, why: Option<Uncastable>)
    requires Castable(plan.video)
    ensures
      var (events, next) := TakeTurn(caps, plan, turn, why);
      && ProperRun(caps, events)
      && (next.Stop? && next.result.Ok? ==>
            next.result.value == plan
            && forall part <- Parts(plan) :: Played(Run(caps, events).formats, part))
  {
    var asked := Learn(caps, Asked(turn.asked));
    var start := [Asked(turn.asked)];
    var (clipped, next) := ClipTurn(asked, plan, turn);
    var (tried, _) := PlanTurn(plan, turn, why);
    ClipTurnProper(asked, plan, turn);
    RunOne(caps, Asked(turn.asked));
    RunConcat(caps, start, clipped);
    RunConcat(caps, start + clipped, tried);
    PlanTurnProper(Run(asked, clipped), plan, turn, why);
  }

  lemma {:induction false} ClimbProper(
    caps: Caps, plans: seq<CastPlan>, i: nat, tv: Tv, why: Option<Uncastable>)
    requires i <= |plans| && forall plan <- plans :: Castable(plan.video)
    ensures
      var (events, next) := Climb(caps, plans, i, tv, why);
      && ProperRun(caps, events)
      && (next.Stop? && next.result.Ok? ==>
            next.result.value in plans
            && forall part <- Parts(next.result.value) :: Played(Run(caps, events).formats, part))
    decreases |plans| - i
  {
    if i < |plans| {
      TurnProper(caps, plans[i], tv.turns(i), why);
      var (events, next) := TakeTurn(caps, plans[i], tv.turns(i), why);
      if next.Go? {
        ClimbProper(Run(caps, events), plans, i + 1, tv, next.why);
        RunConcat(caps, events, Climb(Run(caps, events), plans, i + 1, tv, next.why).0);
      }
    }
  }

  lemma {:induction false} PlannedCastable(s: Stream, known: Answers)
    requires CastPlans(s, known).Ok?
    ensures forall plan <- CastPlans(s, known).value :: Castable(plan.video)
  {
    FilterHas(Allowed(known), Drafts(s, known));
    forall plan | plan in Drafts(s, known) ensures plan.video == VideoOf(s) {
      DraftedFrom(s, known, plan);
    }
  }

  /**
   Whatever the TV, the source and the clock do, an attempt keeps to the rules of a run; and when
   it says a plan plays, that plan was offered when it began and its every part is known to play.
   */
  lemma AttemptKeepsTheRules(caps: Caps, s: Stream, tv: Tv)
    ensures ProperRun(caps, Events(caps, s, tv))
    ensures Outcome(caps, s, tv).Ok? ==>
      && CastPlans(s, Learn(caps, Asked(tv.begins)).formats).Ok?
      && Outcome(caps, s, tv).value in CastPlans(s, Learn(caps, Asked(tv.begins)).formats).value
      && forall part <- Parts(Outcome(caps, s, tv).value) ::
           Played(Run(caps, Events(caps, s, tv)).formats, part)
  {
    var asked := Learn(caps, Asked(tv.begins));
    RunOne(caps, Asked(tv.begins));
    if CastPlans(s, asked.formats).Ok? {
      var plans := CastPlans(s, asked.formats).value;
      var start := [Asked(tv.begins)] + Choosing(s, tv);
      RunConcat(caps, [Asked(tv.begins)], Choosing(s, tv));
      ChoosingProper(asked, s, tv);
      var (events, next) := Climb(Run(caps, start), plans, 0, tv, None);
      PlannedCastable(s, asked.formats);
      ClimbProper(Run(caps, start), plans, 0, tv, None);
      RunConcat(caps, start, events);
      Ending(caps, start + events, if next.Stop? then [] else [Asked(tv.ends)]);
      if next.Stop? {
        assert start + events + [] == start + events;
      }
    }
  }

  lemma ChoosingProper(caps: Caps, s: Stream, tv: Tv)
    ensures ProperRun(caps, Choosing(s, tv))
  {
    RunOne(caps, Asked(tv.chooses));
  }

  lemma Ending(caps: Caps, events: seq<Event>, end: seq<Event>)
    requires ProperRun(caps, events) && (end == [] || (|end| == 1 && end[0].Asked?))
    ensures ProperRun(caps, events + end)
  {
    RunConcat(caps, events, end);
    if end != [] {
      RunOne(Run(caps, events), end[0]);
      assert end == [end[0]];
    }
  }

  lemma {:induction false} ThoseThatCan(can: nat -> bool, n: nat)
    ensures forall i: nat :: i in Those(can, n) <==> i < n && can(i)
    ensures forall j, k :: 0 <= j < k < |Those(can, n)| ==> Those(can, n)[j] < Those(can, n)[k]
  {
    if n > 0 {
      ThoseThatCan(can, n - 1);
      var less := Those(can, n - 1);
      forall j, k | 0 <= j < k < |Those(can, n)| ensures Those(can, n)[j] < Those(can, n)[k] {
        assert less[j] in less;
      }
    }
  }

  /**
   The tracks offered for choice are exactly those a remux could carry to the TV as far as is then
   known, in the file's order, each once.
   */
  lemma TracksOffered(caps: Caps, s: Stream, tv: Tv)
    requires CastPlans(s, Learn(caps, Asked(tv.begins)).formats).Ok? && OffersAudio(s)
    ensures
      var known := Run(Learn(caps, Asked(tv.begins)), Choosing(s, tv)).formats;
      var audio := AudioChoices(caps, s, tv);
      && (forall i: nat :: i in audio <==> i < |s.media.audio| && Chooses(s, known)(i))
      && (forall j, k :: 0 <= j < k < |audio| ==> audio[j] < audio[k])
  {
    var asked := Learn(caps, Asked(tv.begins));
    RunOne(asked, Asked(tv.chooses));
    ThoseThatCan(Chooses(s, Learn(asked, Asked(tv.chooses)).formats), |s.media.audio|);
  }

  // ----- Many casts -----

  /** What happens to a TV between and in casts: it is reached, looked up, or a stream is cast. */
  datatype Happening =
    | Reaches(firmware: Option<string>)
    | LooksUp(now: int)
    | Casts(stream: Stream, tv: Tv)

  function EventsOf(caps: Caps, h: Happening): seq<Event> {
    match h
    case Reaches(firmware) => [Reached(firmware)]
    case LooksUp(now) => [Asked(now)]
    case Casts(stream, tv) => Events(caps, stream, tv)
  }

  function History(caps: Caps, happenings: seq<Happening>): seq<Event>
    decreases |happenings|
  {
    if happenings == [] then []
    else
      var events := EventsOf(caps, happenings[0]);
      events + History(Run(caps, events), happenings[1..])
  }

  lemma {:induction false} HistoryProper(caps: Caps, happenings: seq<Happening>)
    ensures ProperRun(caps, History(caps, happenings))
    decreases |happenings|
  {
    if happenings != [] {
      var events := EventsOf(caps, happenings[0]);
      if happenings[0].Casts? {
        AttemptKeepsTheRules(caps, happenings[0].stream, happenings[0].tv);
      }
      HistoryProper(Run(caps, events), happenings[1..]);
      RunConcat(caps, events, History(Run(caps, events), happenings[1..]));
    }
  }

  /**
   Once a cast of a stream has played on a TV, that stream stays castable there: after any further
   casts of any streams, however they go, lookups and firmware changes, it has plans.
   */
  lemma OnceCastAlwaysCastable(caps: Caps, s: Stream, tv: Tv, later: seq<Happening>)
    requires OnlyTeachable(caps.formats) && Outcome(caps, s, tv).Ok?
    ensures
      var played := Run(caps, Events(caps, s, tv));
      CastPlans(s, Run(played, History(played, later)).formats).Ok?
  {
    var plan, events := Outcome(caps, s, tv).value, Events(caps, s, tv);
    var played := Run(caps, events);
    var after := Run(played, History(played, later)).formats;
    var before := Learn(caps, Asked(tv.begins)).formats;
    AttemptKeepsTheRules(caps, s, tv);
    HistoryProper(played, later);
    PlayedStaysPlayed(caps, events);
    PlayedStaysPlayed(played, History(played, later));
    FilterHas(Allowed(before), Drafts(s, before));
    DraftedFrom(s, before, plan);
    var again := DraftedAgain(s, before, after, plan);
    AllPlayedAllowed(after, again);
    FilterHas(Allowed(after), Drafts(s, after));
  }
}
