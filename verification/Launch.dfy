/**
 Launching the receiver app against stopping it (crates/anistream-cast/src/player.rs, `Inner::app`,
 `close` and `quit`). A launch is a task of its own: it outlives the load that wanted it, so more
 than one can be in flight. Registering an app and looking at `quit` share one critical section.
 */
module Launch {
  import opened Bytes

  type Session = string

  /** The load being tried: it waits for a launch, or holds the app it was given. */
  datatype Load = NoLoad | Working(held: Option<Session>) | Waiting(launch: nat)

  /**
   `media` is the app in force, `flying` the launches not yet answered, `launched` the apps that
   launches came up with, and `stopped` those sent a STOP. `lost` says which apps another took
   the place of in `media` and that have been neither sent a STOP nor put back since.
   */
  datatype State = State(
    media: Option<Session>, quit: bool, closed: bool, load: Load, flying: set<nat>, next: nat,
    launched: set<Session>, stopped: set<Session>, lost: set<Session>)

  const INITIAL := State(None, false, false, NoLoad, {}, 0, {}, {}, {})

  datatype Step =
    | Starts
    | Aborts
    | WantsApp
    | Answers(launch: nat, session: Session)
    | Fails(launch: nat)
    | PutsBack
    | ClosesIdle
    | Quits
    | QuitCloses

  predicate Enabled(s: State, step: Step) {
    match step
    case WantsApp => s.load.Working?
    case Answers(launch, _) => launch in s.flying
    case Fails(launch) => launch in s.flying
    case PutsBack => s.load.Working? && s.load.held.Some?
    case QuitCloses => s.quit
    case _ => true
  }

  /** `session` takes the place of the app in force. */
  function Registered(s: State, session: Session): State {
    var over := if Overwrites(s, session) && s.media.value !in s.stopped then {s.media.value} else {};
    s.(media := Some(session), lost := s.lost + over - {session})
  }

  predicate Overwrites(s: State, session: Session) {
    s.media.Some? && s.media.value != session
  }

  function Stopped(s: State, session: Session): State {
    s.(stopped := s.stopped + {session}, lost := s.lost - {session})
  }

  /** `close`: the app in force, if any, is taken and sent a STOP. */
  function Closed(s: State): State {
    match s.media
    case None => s
    case Some(session) => Stopped(s.(media := None), session)
  }

  /** What the load waiting for a launch does with its answer. */
  function Told(s: State, launch: nat, answer: Option<Session>): Load {
    if s.load == Waiting(launch) then (if answer.Some? then Working(answer) else NoLoad)
    else s.load
  }

  function Answered(s: State, launch: nat, session: Session): State {
    var t := s.(flying := s.flying - {launch}, launched := s.launched + {session});
    if s.quit then Stopped(t, session).(load := Told(s, launch, None))
    else Registered(t, session).(load := Told(s, launch, Some(session)))
  }

  function Do(s: State, step: Step): State {
    match step
    case Starts => s.(load := Working(None))
    case Aborts => s.(load := NoLoad)
    case WantsApp =>
      if s.media.Some? then s.(load := Working(s.media))
      else s.(load := Waiting(s.next), flying := s.flying + {s.next}, next := s.next + 1)
    case Answers(launch, session) => Answered(s, launch, session)
    case Fails(launch) => s.(flying := s.flying - {launch}, load := Told(s, launch, None))
    case PutsBack =>
      (match s.load
       case Working(Some(session)) => Registered(s, session)
       case _ => s)
    case ClosesIdle => Closed(s)
    case Quits => s.(quit := true, load := NoLoad)
    case QuitCloses => Closed(s).(closed := true)
  }

  predicate CanRun(s: State, steps: seq<Step>)
    decreases |steps|
  {
    steps != [] ==> Enabled(s, steps[0]) && CanRun(Do(s, steps[0]), steps[1..])
  }

  function Run(s: State, steps: seq<Step>): State
    decreases |steps|
  {
    if steps == [] then s else Run(Do(s, steps[0]), steps[1..])
  }

  // ----- The critical sections -----

  class Launcher {
    var media: Option<Session>
    var quit: bool
    ghost var rest: State

    /** The whole state, the fields the program keeps among it. */
    ghost function View(): State
      reads this
    {
      rest.(media := media, quit := quit)
    }

    constructor ()
      ensures View() == INITIAL
    {
      media, quit, rest := None, false, INITIAL;
    }

    /** A launch's answer: the app is put in force, or closed again after a quit. */
    method Answer(launch: nat, session: Session) returns (stops: bool)
      requires launch in View().flying
      modifies this
      ensures View() == Do(old(View()), Answers(launch, session))
      ensures stops == old(quit)
    {
      ghost var was := View();
      if !quit {
        media := Some(session);
        stops := false;
      } else {
        stops := true;
      }
      rest := Do(was, Answers(launch, session));
    }

    /** The app in force is taken; its STOP goes out. */
    method Close() returns (stopped: Option<Session>)
      modifies this
      ensures View() == Do(old(View()), ClosesIdle)
      ensures stopped == old(media)
    {
      ghost var was := View();
      stopped := media;
      media := None;
      rest := Do(was, ClosesIdle);
    }

    method Quit() returns (stopped: Option<Session>)
      modifies this
      ensures View() == Do(Do(old(View()), Quits), QuitCloses)
      ensures stopped == old(media)
    {
      ghost var was := View();
      quit := true;
      rest := Do(was, Quits);
      assert View() == Do(was, Quits);
      stopped := Close();
      rest := rest.(closed := true);
    }
  }

  // ----- Which apps are left on the TV -----

  function Held(s: State): Option<Session> {
    if s.load.Working? then s.load.held else None
  }

  /** `lost` is what has been launched, is not in force and was not sent a STOP. */
  ghost predicate Inv(s: State) {
    && (forall x :: x in s.lost <==> x in s.launched && x !in s.stopped && s.media != Some(x))
    && (s.media.Some? ==> s.media.value in s.launched)
    && (Held(s).Some? ==> Held(s).value in s.launched)
    && (s.quit && Held(s).Some? ==> Held(s) == s.media || Held(s).value in s.stopped)
    && (s.closed ==>
          && s.quit
          && (s.media.Some? ==> s.media.value in s.stopped)
          && (Held(s).Some? ==> Held(s).value in s.stopped))
    && (forall l <- s.flying :: l < s.next)
  }

  lemma StepKeepsInv(s: State, step: Step)
    requires Inv(s) && Enabled(s, step)
    ensures Inv(Do(s, step))
  {
  }

  lemma {:induction false} RunKeepsInv(s: State, steps: seq<Step>)
    requires Inv(s) && CanRun(s, steps)
    ensures Inv(Run(s, steps))
    decreases |steps|
  {
    if steps != [] {
      StepKeepsInv(s, steps[0]);
      RunKeepsInv(Do(s, steps[0]), steps[1..]);
    }
  }

  /**
   Once quit has closed and every launch has come back, the apps this sender launched and never
   sent a STOP are exactly those overwritten by another and not put back: none is left if and
   only if none was lost so.
   */
  lemma OrphansAreTheOverwritten(steps: seq<Step>)
    requires CanRun(INITIAL, steps)
    requires Run(INITIAL, steps).closed && Run(INITIAL, steps).flying == {}
    ensures
      var s := Run(INITIAL, steps);
      && s.launched - s.stopped == s.lost
      && (s.launched <= s.stopped <==> s.lost == {})
  {
    RunKeepsInv(INITIAL, steps);
  }

  /** Every app put in force finds none, or itself, there. */
  predicate NeverOverwrites(s: State, steps: seq<Step>)
    decreases |steps|
  {
    steps != [] ==>
      && (steps[0].Answers? && !s.quit ==> !Overwrites(s, steps[0].session))
      && (steps[0].PutsBack? && Held(s).Some? ==> !Overwrites(s, Held(s).value))
      && NeverOverwrites(Do(s, steps[0]), steps[1..])
  }

  lemma {:induction false} NothingLost(s: State, steps: seq<Step>)
    requires s.lost == {} && CanRun(s, steps) && NeverOverwrites(s, steps)
    ensures Run(s, steps).lost == {}
    decreases |steps|
  {
    if steps != [] {
      NothingLost(Do(s, steps[0]), steps[1..]);
    }
  }

  /** Each launch begins with none in flight: no load was aborted while its launch was out. */
  predicate OneAtATime(s: State, steps: seq<Step>)
    decreases |steps|
  {
    steps != [] ==>
      && (steps[0].WantsApp? && s.media.None? ==> s.flying == {})
      && OneAtATime(Do(s, steps[0]), steps[1..])
  }

  /** With one launch at a time, none is out while an app is in force. */
  ghost predicate Alone(s: State) {
    && (s.flying != {} ==> s.media.None? && Held(s).None?)
    && (forall a, b :: a in s.flying && b in s.flying ==> a == b)
    && (Held(s).Some? && s.media.Some? ==> Held(s) == s.media)
  }

  lemma AloneKeeps(s: State, step: Step)
    requires Alone(s) && Enabled(s, step)
    requires step.WantsApp? && s.media.None? ==> s.flying == {}
    ensures Alone(Do(s, step))
  {
  }

  lemma {:induction false} AloneNeverOverwrites(s: State, steps: seq<Step>)
    requires Alone(s) && CanRun(s, steps) && OneAtATime(s, steps)
    ensures NeverOverwrites(s, steps)
    decreases |steps|
  {
    if steps != [] {
      AloneKeeps(s, steps[0]);
      AloneNeverOverwrites(Do(s, steps[0]), steps[1..]);
    }
  }

  /** No app is orphaned when no launch begins while another is in flight. */
  lemma NoneOrphaned(steps: seq<Step>)
    requires CanRun(INITIAL, steps) && OneAtATime(INITIAL, steps)
    requires Run(INITIAL, steps).closed && Run(INITIAL, steps).flying == {}
    ensures Run(INITIAL, steps).launched <= Run(INITIAL, steps).stopped
  {
    AloneNeverOverwrites(INITIAL, steps);
    NothingLost(INITIAL, steps);
    OrphansAreTheOverwritten(steps);
  }

  // ----- Two launches in flight -----

  lemma RunStep(s: State, step: Step, rest: seq<Step>)
    ensures Run(s, [step] + rest) == Run(Do(s, step), rest)
    ensures CanRun(s, [step] + rest) <==> Enabled(s, step) && CanRun(Do(s, step), rest)
  {
    assert ([step] + rest)[1..] == rest;
  }

  /** A load aborted while its launch is out, a second load, and the viewer quits. */
  function TwoLaunches(a: Session, b: Session): seq<Step> {
    [Starts] + ([WantsApp] + ([Aborts] + ([Starts] + ([WantsApp] + ([Answers(0, a)]
    + ([Answers(1, b)] + ([Quits] + [QuitCloses])))))))
  }

  /** With different apps the first is left on the TV with no STOP; with the same, none is. */
  lemma TwoLaunchesOrphanOne(a: Session, b: Session)
    ensures
      var s := Run(INITIAL, TwoLaunches(a, b));
      && CanRun(INITIAL, TwoLaunches(a, b)) && s.closed && s.flying == {}
      && s.launched - s.stopped == if a == b then {} else {a}
  {
    var s1 := Do(INITIAL, Starts);
    var s2 := Do(s1, WantsApp);
    var s3 := Do(s2, Aborts);
    var s4 := Do(s3, Starts);
    var s5 := Do(s4, WantsApp);
    var s6 := Do(s5, Answers(0, a));
    var s7 := Do(s6, Answers(1, b));
    var s8 := Do(s7, Quits);
    RunStep(s8, QuitCloses, []);
    assert [QuitCloses] + [] == [QuitCloses];
    RunStep(s7, Quits, [QuitCloses]);
    RunStep(s6, Answers(1, b), [Quits] + [QuitCloses]);
    var r6 := [Answers(1, b)] + ([Quits] + [QuitCloses]);
    RunStep(s5, Answers(0, a), r6);
    var r5 := [Answers(0, a)] + r6;
    RunStep(s4, WantsApp, r5);
    RunStep(s3, Starts, [WantsApp] + r5);
    RunStep(s2, Aborts, [Starts] + ([WantsApp] + r5));
    RunStep(s1, WantsApp, [Aborts] + ([Starts] + ([WantsApp] + r5)));
    RunStep(INITIAL, Starts, [WantsApp] + ([Aborts] + ([Starts] + ([WantsApp] + r5))));
    assert s8.flying == {};
  }
}
