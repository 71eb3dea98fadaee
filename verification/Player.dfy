/**
 The cast player as an event machine (crates/anistream-cast/src/player.rs): what its state and
 what the session hears become as loads, receiver messages, polls, quits and a lost connection
 interleave. Each step is what the source does under one hold of the state's lock.
 */
module Player {
  import opened Bytes

  datatype App = App(session: string, transport: string)

  datatype PlayState = Idle | Playing | PausedState | BufferingState | LoadingState | OtherState

  datatype IdleReason = Finished | Interrupted | OtherReason

  datatype MediaStatus = MediaStatus(
    session: int, state: PlayState, position: real, duration: Option<real>, rate: real,
    idleReason: Option<IdleReason>, volume: Option<real>, muted: Option<bool>)

  datatype Why = TakenOver | AppClosed | ConnectionClosed | NothingCast

  /** What the session hears; `LoadAsked` marks in the trace where it asked for a load. */
  datatype Said =
    | LoadAsked
    | Loaded
    | Progress(position: real, duration: Option<real>)
    | Paused(paused: bool)
    | Buffering(buffering: bool)
    | Speed(rate: real)
    | Volume(level: real)
    | Ended(complete: bool)
    | Replaced

  /**
   The receiver app the cast has, and how the cast ended; `closing` says that the poll found it
   idle and is closing the app.
   */
  datatype Link = Link(app: Option<App>, closed: bool, quit: bool, closing: bool, failure: Option<Why>)

  /** What the session was last told of the playback. */
  datatype Shown = Shown(paused: Option<bool>, buffering: bool, rate: Option<real>)

  /** The TV's volume as it was last told. */
  datatype Sound = Sound(level: Option<real>, muted: Option<bool>)

  /**
   The player's state. `attempting` says that a load's task still runs, `errored` that the receiver
   reported an error while one was tried, and `listening` that the events go to a session.
   */
  datatype State = State(
    link: Link, shown: Shown, trying: bool, attempting: bool, reloading: bool, ended: bool,
    loaded: Option<int>, last: Option<MediaStatus>, errored: bool, sound: Sound, listening: bool,
    heard: seq<Said>)

  const INITIAL := State(
    Link(None, false, false, false, None), Shown(None, false, None), false, false, false, false,
    None, None, false, Sound(None, None), true, [])

  /** What can happen. */
  datatype Step =
    | Start(quiet: bool)
    | Launched(app: App)
    | TriesPlan
    | Plays(quiet: bool)
    | Fails
    | Reloads
    | ReceiverStatus(level: Option<real>, muted: Option<bool>, sessions: seq<string>, running: bool)
    | ConnectionCloses(source: string)
    | MediaErrs
    | MediaSays(status: MediaStatus)
    | ChannelCloses
    | Stops
    | SeesIdle
    | ClosesIdle
    | Quits
    | QuitDone

  // ----- Each step -----

  function Says(s: State, e: Said): State {
    if s.listening then s.(heard := s.heard + [e]) else s
  }

  /** `apply` of a status with an idle reason. */
  function ApplyIdle(s: State, session: int, reason: IdleReason): State {
    if s.loaded != Some(session) || s.ended || s.reloading then s
    else
      match reason
      case Finished => Says(s.(ended := true), Ended(true))
      case Interrupted => Says(s, Replaced)
      case OtherReason => Says(s.(ended := true), Ended(false))
  }

  /** A new media session, said unless it is a reload of our own. */
  function ApplySession(s: State, session: int): State {
    if s.loaded == Some(session) then s
    else
      var opened' := s.(loaded := Some(session), ended := false);
      if s.reloading then opened'.(reloading := false)
      else Says(opened'.(shown := s.shown.(paused := None, rate := None)), Loaded)
  }

  function ApplyPaused(s: State, paused: bool): State {
    if s.shown.paused == Some(paused) then s
    else Says(s.(shown := s.shown.(paused := Some(paused))), Paused(paused))
  }

  function ApplyBuffering(s: State, buffering: bool): State {
    if s.shown.buffering == buffering then s
    else Says(s.(shown := s.shown.(buffering := buffering)), Buffering(buffering))
  }

  function ApplyRate(s: State, rate: real): State {
    if s.shown.rate == Some(rate) then s
    else Says(s.(shown := s.shown.(rate := Some(rate))), Speed(rate))
  }

  /** What changed since the last status applied. */
  function Changed(s: State, status: MediaStatus): State {
    var a := ApplyPaused(s, status.state.PausedState?);
    var b := ApplyBuffering(a, status.state.BufferingState? || status.state.LoadingState?);
    ApplyRate(b, status.rate)
  }

  /** `apply`: `Loaded` for a new media session, then what changed. */
  function Applied(s: State, status: MediaStatus): State {
    if status.idleReason.Some? then ApplyIdle(s, status.session, status.idleReason.value)
    else if status.state.Idle? then s
    else
      var opened' := ApplySession(s, status.session);
      Changed(Says(opened', Progress(status.position, status.duration)), status)
  }

  function ApplyLevel(s: State, level: Option<real>): State {
    if level.Some? && s.sound.level != level
    then Says(s.(sound := s.sound.(level := level)), Volume(level.value)) else s
  }

  /** The volume as it was told: a level that moved is said, and being muted is only kept. */
  function ApplyVolume(s: State, level: Option<real>, muted: Option<bool>): State {
    var t := ApplyLevel(s, level);
    if muted.Some? then t.(sound := t.sound.(muted := muted)) else t
  }

  function EndOnce(s: State): State {
    if s.ended then s else Says(s.(ended := true), Ended(false))
  }

  function CastEnded(s: State, why: Why): State {
    if s.link.closed then s
    else EndOnce(s.(link := s.link.(closed := true, app := None, failure := Some(why))))
  }

  /** Whether a step can happen: a load's task ends once, and the poll closes what it saw idle. */
  predicate Enabled(s: State, step: Step) {
    match step
    case TriesPlan => s.attempting
    case Plays(_) => s.attempting
    case Fails => s.attempting
    case SeesIdle =>
      s.shown.paused == Some(true) && !s.trying && !s.link.closed && !s.link.quit
    case ClosesIdle => s.link.closing
    case QuitDone => s.link.quit
    case _ => true
  }

  function LostTheApp(s: State): Link {
    s.link.(closed := true,
            failure := if s.link.failure.Some? then s.link.failure else Some(ConnectionClosed))
  }

  function Do(s: State, step: Step): State {
    match step
    case Start(_) =>
      Says(s.(trying := true, attempting := true, reloading := false, ended := false,
              loaded := None, link := s.link.(failure := None)), LoadAsked)
    case Launched(app) => if s.link.quit then s else s.(link := s.link.(app := Some(app)))
    case TriesPlan => s.(last := None, errored := false)
    case Plays(quiet) =>
      var t := s.(trying := false, attempting := false, reloading := quiet);
      if s.last.Some? then Applied(t, s.last.value) else t
    case Fails =>
      Says(s.(trying := false, attempting := false, ended := true,
              link := s.link.(failure := Some(NothingCast))), Ended(false))
    case Reloads => if s.trying then s else s.(reloading := true)
    case ReceiverStatus(level, muted, sessions, running) =>
      var t := ApplyVolume(s, level, muted);
      if t.link.app.Some? && t.link.app.value.session !in sessions && !t.link.quit
      then CastEnded(t, if running then TakenOver else AppClosed) else t
    case ConnectionCloses(source) =>
      if s.link.app.Some? && s.link.app.value.transport == source && !s.link.quit
      then CastEnded(s, AppClosed) else s
    case MediaErrs => if s.trying then s.(errored := true) else s
    case MediaSays(status) =>
      var t := ApplyVolume(s, status.volume, status.muted).(last := Some(status));
      if t.trying then t else Applied(t, status)
    case ChannelCloses =>
      if s.link.closed || s.link.quit then s else EndOnce(s.(link := LostTheApp(s)))
    case Stops => s.(attempting := false)
    case SeesIdle => s.(link := s.link.(closing := true, app := None))
    case ClosesIdle => EndOnce(s.(link := s.link.(closing := false, closed := true)))
    case Quits => s.(attempting := false, link := s.link.(quit := true, app := None))
    case QuitDone => s.(listening := false)
  }

  /** The states a run passes through are those its steps lead to, as long as each can happen. */
  predicate CanRun(s: State, steps: seq<Step>)
    decreases |steps|
  {
    steps != [] ==> Enabled(s, steps[0]) && CanRun(Do(s, steps[0]), steps[1..])
  }

  function Run(s: State, steps: seq<Step>): State
    decreases |steps|
  {
    if steps == [] then s else Run(Do(s, steps[0]), steps[1..])
  }

  // ----- The player -----

  class CastPlayer {
    var state: State

    constructor ()
      ensures state == INITIAL
    {
      state := INITIAL;
    }

    method Say(e: Said)
      modifies this
      ensures state == Says(old(state), e)
    {
      if state.listening {
        state := state.(heard := state.heard + [e]);
      }
    }

    method Start(quiet: bool)
      modifies this
      ensures state == Do(old(state), Step.Start(quiet))
    {
      state := state.(trying := true, attempting := true, reloading := false, ended := false,
                      loaded := None, link := state.link.(failure := None));
      Say(LoadAsked);
    }

    /** A load's task ends with its plan playing. */
    method Play(quiet: bool)
      requires state.attempting
      modifies this
      ensures state == Do(old(state), Plays(quiet))
    {
      state := state.(trying := false, attempting := false);
      state := state.(reloading := quiet);
      if state.last.Some? { Apply(state.last.value); }
    }

    /** A load's task ends with nothing playing: its `Ended` has no guard. */
    method Fail()
      requires state.attempting
      modifies this
      ensures state == Do(old(state), Fails)
    {
      state := state.(trying := false, attempting := false);
      state := state.(ended := true, link := state.link.(failure := Some(NothingCast)));
      Say(Ended(false));
    }

    method Apply(status: MediaStatus)
      modifies this
      ensures state == Applied(old(state), status)
    {
      var newSession := state.loaded != Some(status.session);
      if status.idleReason.Some? {
        if newSession || state.ended || state.reloading { return; }
        state := state.(ended := true);
        match status.idleReason.value {
          case Finished => Say(Ended(true));
          case Interrupted =>
            state := state.(ended := false);
            assert state == old(state);
            Say(Replaced);
          case OtherReason => Say(Ended(false));
        }
        return;
      }
      if status.state.Idle? { return; }
      if newSession {
        state := state.(loaded := Some(status.session), ended := false);
        if state.reloading {
          state := state.(reloading := false);
        } else {
          state := state.(shown := state.shown.(paused := None, rate := None));
          Say(Loaded);
        }
      }
      Say(Progress(status.position, status.duration));
      Changes(status);
    }

    /** What changed since the last status applied. */
    method Changes(status: MediaStatus)
      modifies this
      ensures state == Changed(old(state), status)
    {
      NotePaused(status.state.PausedState?);
      NoteBuffering(status.state.BufferingState? || status.state.LoadingState?);
      if state.shown.rate != Some(status.rate) {
        state := state.(shown := state.shown.(rate := Some(status.rate)));
        Say(Speed(status.rate));
      }
    }

    method NotePaused(paused: bool)
      modifies this
      ensures state == ApplyPaused(old(state), paused)
    {
      if state.shown.paused != Some(paused) {
        state := state.(shown := state.shown.(paused := Some(paused)));
        Say(Paused(paused));
      }
    }

    method NoteBuffering(buffering: bool)
      modifies this
      ensures state == ApplyBuffering(old(state), buffering)
    {
      if state.shown.buffering != buffering {
        state := state.(shown := state.shown.(buffering := buffering));
        Say(Buffering(buffering));
      }
    }

    method NoteVolume(level: Option<real>, muted: Option<bool>)
      modifies this
      ensures state == ApplyVolume(old(state), level, muted)
    {
      if level.Some? && state.sound.level != level {
        state := state.(sound := state.sound.(level := level));
        Say(Volume(level.value));
      }
      if muted.Some? && state.sound.muted != muted {
        state := state.(sound := state.sound.(muted := muted));
      }
    }

    method EndCast(why: Why)
      modifies this
      ensures state == CastEnded(old(state), why)
    {
      if state.link.closed { return; }
      state := state.(link := state.link.(closed := true, app := None, failure := Some(why)));
      End();
    }

    /** `Ended`, unless it was said. */
    method End()
      modifies this
      ensures state == EndOnce(old(state))
    {
      if !state.ended {
        state := state.(ended := true);
        Say(Ended(false));
      }
    }

    /** `receive`: one message of the receiver's. */
    method Receive(message: Step)
      requires message.ReceiverStatus? || message.ConnectionCloses? || message.MediaErrs?
               || message.MediaSays?
      modifies this
      ensures state == Do(old(state), message)
    {
      match message
      case ReceiverStatus(level, muted, sessions, running) =>
        NoteVolume(level, muted);
        var app := state.link.app;
        var stillOurs := app.Some? && app.value.session in sessions;
        if app.Some? && !stillOurs && !state.link.quit {
          EndCast(if running then TakenOver else AppClosed);
        }
      case ConnectionCloses(source) =>
        var ours := state.link.app.Some? && state.link.app.value.transport == source;
        if ours && !state.link.quit {
          EndCast(AppClosed);
        }
      case MediaErrs =>
        if state.trying {
          state := state.(errored := true);
        }
      case MediaSays(status) =>
        NoteVolume(status.volume, status.muted);
        state := state.(last := Some(status));
        if !state.trying {
          Apply(status);
        }
    }

    /** The end of `pump`: the TV went away. */
    method ChannelClosed()
      modifies this
      ensures state == Do(old(state), ChannelCloses)
    {
      if !state.link.closed && !state.link.quit {
        state := state.(link := state.link.(closed := true));
        if state.link.failure.None? {
          state := state.(link := state.link.(failure := Some(ConnectionClosed)));
        }
        End();
      }
    }

    /** The end of an idle cast, its app closed. */
    method CloseIdle()
      requires state.link.closing
      modifies this
      ensures state == Do(old(state), ClosesIdle)
    {
      state := state.(link := state.link.(closing := false, closed := true));
      End();
    }
  }

  // ----- The shape of what the session hears -----

  /** Whether a load was asked for and no `Loaded` has come since. */
  predicate Loading(t: seq<Said>) {
    t != [] && (t[|t| - 1].LoadAsked? || (!t[|t| - 1].Loaded? && Loading(t[..|t| - 1])))
  }

  predicate OfPlayback(e: Said) { e.Progress? || e.Paused? || e.Buffering? || e.Speed? }

  /** Nothing of playback is said between a load and its `Loaded`. */
  predicate QuietWhileLoading(t: seq<Said>) {
    t != [] ==>
      && QuietWhileLoading(t[..|t| - 1])
      && (OfPlayback(t[|t| - 1]) ==> !Loading(t[..|t| - 1]))
  }

  /** The last `Buffering` said; not buffering before the first. */
  predicate LastBuffering(t: seq<Said>) {
    t != [] && (if t[|t| - 1].Buffering? then t[|t| - 1].buffering else LastBuffering(t[..|t| - 1]))
  }

  /** `Buffering` says true, false, true, false and so on. */
  predicate BufferingAlternates(t: seq<Said>) {
    t != [] ==>
      && BufferingAlternates(t[..|t| - 1])
      && (t[|t| - 1].Buffering? ==> t[|t| - 1].buffering != LastBuffering(t[..|t| - 1]))
  }

  /** The last `Paused` said since the last `Loaded`. */
  function LastPaused(t: seq<Said>): Option<bool> {
    if t == [] || t[|t| - 1].Loaded? then None
    else if t[|t| - 1].Paused? then Some(t[|t| - 1].paused)
    else LastPaused(t[..|t| - 1])
  }

  function LastSpeed(t: seq<Said>): Option<real> {
    if t == [] || t[|t| - 1].Loaded? then None
    else if t[|t| - 1].Speed? then Some(t[|t| - 1].rate)
    else LastSpeed(t[..|t| - 1])
  }

  /** The same `Paused` or `Speed` is said again only across a `Loaded`. */
  predicate NoneRepeated(t: seq<Said>) {
    t != [] ==>
      && NoneRepeated(t[..|t| - 1])
      && (t[|t| - 1].Paused? ==> LastPaused(t[..|t| - 1]) != Some(t[|t| - 1].paused))
      && (t[|t| - 1].Speed? ==> LastSpeed(t[..|t| - 1]) != Some(t[|t| - 1].rate))
  }

  /** How often `Ended` was said since the last load or `Loaded`. */
  function EndsSince(t: seq<Said>): nat {
    if t == [] || t[|t| - 1].Loaded? || t[|t| - 1].LoadAsked? then 0
    else EndsSince(t[..|t| - 1]) + if t[|t| - 1].Ended? then 1 else 0
  }

  /** After a `Loaded`, `Ended` comes at most once before the next load or `Loaded`. */
  predicate EndsOnce(t: seq<Said>) {
    t != [] ==> EndsOnce(t[..|t| - 1]) && (!Loading(t) ==> EndsSince(t) <= 1)
  }

  /** What the trace says of the state, reloads or not. */
  ghost predicate InStep(s: State) {
    && BufferingAlternates(s.heard) && NoneRepeated(s.heard)
    && (s.listening ==>
          && s.shown.buffering == LastBuffering(s.heard)
          && s.shown.paused == LastPaused(s.heard)
          && s.shown.rate == LastSpeed(s.heard))
  }

  /** What the trace says of the state without reloads. */
  ghost predicate InTime(s: State) {
    && QuietWhileLoading(s.heard) && EndsOnce(s.heard) && !s.reloading
    && (s.attempting ==> s.trying) && EndsSince(s.heard) <= 2
    && (s.listening ==>
          && (Loading(s.heard) ==> s.loaded.None?)
          && (s.ended <==> EndsSince(s.heard) > 0)
          && (s.trying ==> Loading(s.heard))
          && (s.attempting ==> EndsSince(s.heard) <= 1))
  }

  predicate ReloadFree(step: Step) {
    !step.Reloads? && (step.Start? ==> !step.quiet) && (step.Plays? ==> !step.quiet)
  }

  lemma SaidOfPlayback(t: seq<Said>, e: Said)
    ensures LastBuffering(t + [e]) == if e.Buffering? then e.buffering else LastBuffering(t)
    ensures BufferingAlternates(t + [e])
      <==> BufferingAlternates(t) && (e.Buffering? ==> e.buffering != LastBuffering(t))
    ensures LastPaused(t + [e])
         == if e.Loaded? then None else if e.Paused? then Some(e.paused) else LastPaused(t)
    ensures LastSpeed(t + [e])
         == if e.Loaded? then None else if e.Speed? then Some(e.rate) else LastSpeed(t)
    ensures NoneRepeated(t + [e])
      <==> NoneRepeated(t) && (e.Paused? ==> LastPaused(t) != Some(e.paused))
                           && (e.Speed? ==> LastSpeed(t) != Some(e.rate))
  {
    assert (t + [e])[..|t + [e]| - 1] == t;
  }

  lemma SaidInTime(t: seq<Said>, e: Said)
    ensures Loading(t + [e]) <==> e.LoadAsked? || (!e.Loaded? && Loading(t))
    ensures QuietWhileLoading(t + [e])
      <==> QuietWhileLoading(t) && (OfPlayback(e) ==> !Loading(t))
    ensures EndsSince(t + [e])
         == if e.Loaded? || e.LoadAsked? then 0 else EndsSince(t) + if e.Ended? then 1 else 0
    ensures EndsOnce(t + [e])
      <==> EndsOnce(t) && (!Loading(t + [e]) ==> EndsSince(t + [e]) <= 1)
  {
    assert (t + [e])[..|t + [e]| - 1] == t;
  }

  // ----- Each part of a step keeps it -----

  lemma EndOnceKeeps(s: State)
    ensures InStep(s) ==> InStep(EndOnce(s))
    ensures InTime(s) ==> InTime(EndOnce(s))
  {
    SaidOfPlayback(s.heard, Ended(false));
    SaidInTime(s.heard, Ended(false));
  }

  lemma CastEndedKeeps(s: State, why: Why)
    ensures InStep(s) ==> InStep(CastEnded(s, why))
    ensures InTime(s) ==> InTime(CastEnded(s, why))
  {
    EndOnceKeeps(s.(link := s.link.(closed := true, app := None, failure := Some(why))));
  }

  lemma LevelKeeps(s: State, level: Option<real>)
    ensures InStep(s) ==> InStep(ApplyLevel(s, level))
    ensures InTime(s) ==> InTime(ApplyLevel(s, level))
  {
    if level.Some? && s.sound.level != level && s.listening {
      SaidOfPlayback(s.heard, Volume(level.value));
      SaidInTime(s.heard, Volume(level.value));
      var t := ApplyLevel(s, level);
      assert t.heard == s.heard + [Volume(level.value)];
    }
  }

  lemma VolumeKeeps(s: State, level: Option<real>, muted: Option<bool>)
    ensures InStep(s) ==> InStep(ApplyVolume(s, level, muted))
    ensures InTime(s) ==> InTime(ApplyVolume(s, level, muted))
  {
    LevelKeeps(s, level);
  }

  lemma IdleKeeps(s: State, session: int, reason: IdleReason)
    ensures InStep(s) ==> InStep(ApplyIdle(s, session, reason))
    ensures InTime(s) ==> InTime(ApplyIdle(s, session, reason))
  {
    var e := match reason case Finished => Ended(true) case Interrupted => Replaced
             case OtherReason => Ended(false);
    SaidOfPlayback(s.heard, e);
    SaidInTime(s.heard, e);
  }

  /** A session is open: what playback says next comes after its `Loaded`. */
  ghost predicate Opened(s: State) { InTime(s) && !s.trying && (s.listening ==> !Loading(s.heard)) }

  lemma SessionKeeps(s: State, session: int)
    ensures InStep(s) ==> InStep(ApplySession(s, session))
  {
    SaidOfPlayback(s.heard, Loaded);
  }

  lemma SessionOpens(s: State, session: int)
    requires InTime(s) && !s.trying
    ensures Opened(ApplySession(s, session))
  {
    SaidInTime(s.heard, Loaded);
  }

  lemma ProgressKeeps(s: State, position: real, duration: Option<real>)
    ensures InStep(s) ==> InStep(Says(s, Progress(position, duration)))
    ensures Opened(s) ==> Opened(Says(s, Progress(position, duration)))
  {
    SaidOfPlayback(s.heard, Progress(position, duration));
    SaidInTime(s.heard, Progress(position, duration));
  }

  lemma PausedKeeps(s: State, paused: bool)
    ensures InStep(s) ==> InStep(ApplyPaused(s, paused))
    ensures Opened(s) ==> Opened(ApplyPaused(s, paused))
  {
    SaidOfPlayback(s.heard, Paused(paused));
    SaidInTime(s.heard, Paused(paused));
  }

  lemma BufferingKeeps(s: State, buffering: bool)
    ensures InStep(s) ==> InStep(ApplyBuffering(s, buffering))
    ensures Opened(s) ==> Opened(ApplyBuffering(s, buffering))
  {
    SaidOfPlayback(s.heard, Buffering(buffering));
    SaidInTime(s.heard, Buffering(buffering));
  }

  lemma RateKeeps(s: State, rate: real)
    ensures InStep(s) ==> InStep(ApplyRate(s, rate))
    ensures Opened(s) ==> Opened(ApplyRate(s, rate))
  {
    SaidOfPlayback(s.heard, Speed(rate));
    SaidInTime(s.heard, Speed(rate));
  }

  lemma ChangedKeeps(s: State, status: MediaStatus)
    ensures InStep(s) ==> InStep(Changed(s, status))
    ensures Opened(s) ==> Opened(Changed(s, status))
  {
    var buffering := status.state.BufferingState? || status.state.LoadingState?;
    PausedKeeps(s, status.state.PausedState?);
    var a := ApplyPaused(s, status.state.PausedState?);
    BufferingKeeps(a, buffering);
    RateKeeps(ApplyBuffering(a, buffering), status.rate);
  }

  lemma AppliedKeeps(s: State, status: MediaStatus)
    ensures InStep(s) ==> InStep(Applied(s, status))
    ensures InTime(s) && !s.trying ==> InTime(Applied(s, status))
  {
    if status.idleReason.Some? {
      IdleKeeps(s, status.session, status.idleReason.value);
    } else if !status.state.Idle? {
      var a := ApplySession(s, status.session);
      SessionKeeps(s, status.session);
      if InTime(s) && !s.trying {
        SessionOpens(s, status.session);
      }
      ProgressKeeps(a, status.position, status.duration);
      ChangedKeeps(Says(a, Progress(status.position, status.duration)), status);
    }
  }

  lemma StartKeeps(s: State, quiet: bool)
    ensures InStep(s) ==> InStep(Do(s, Start(quiet)))
    ensures InTime(s) ==> InTime(Do(s, Start(quiet)))
  {
    SaidOfPlayback(s.heard, LoadAsked);
    SaidInTime(s.heard, LoadAsked);
  }

  lemma PlaysKeeps(s: State, quiet: bool)
    ensures InStep(s) ==> InStep(Do(s, Plays(quiet)))
    ensures InTime(s) && !quiet ==> InTime(Do(s, Plays(quiet)))
  {
    if s.last.Some? {
      AppliedKeeps(s.(trying := false, attempting := false, reloading := quiet), s.last.value);
    }
  }

  lemma FailsKeeps(s: State)
    ensures InStep(s) ==> InStep(Do(s, Fails))
    ensures InTime(s) && s.attempting ==> InTime(Do(s, Fails))
  {
    SaidOfPlayback(s.heard, Ended(false));
    SaidInTime(s.heard, Ended(false));
  }

  lemma ReceiverKeeps(
    s: State, level: Option<real>, muted: Option<bool>, sessions: seq<string>, running: bool)
    ensures InStep(s) ==> InStep(Do(s, ReceiverStatus(level, muted, sessions, running)))
    ensures InTime(s) ==> InTime(Do(s, ReceiverStatus(level, muted, sessions, running)))
  {
    VolumeKeeps(s, level, muted);
    CastEndedKeeps(ApplyVolume(s, level, muted), if running then TakenOver else AppClosed);
  }

  lemma MediaKeeps(s: State, status: MediaStatus)
    ensures InStep(s) ==> InStep(Do(s, MediaSays(status)))
    ensures InTime(s) ==> InTime(Do(s, MediaSays(status)))
  {
    var t := ApplyVolume(s, status.volume, status.muted).(last := Some(status));
    VolumeKeeps(s, status.volume, status.muted);
    AppliedKeeps(t, status);
  }

  lemma ClosesKeeps(s: State, step: Step)
    requires step.ChannelCloses? || step.ConnectionCloses?
    ensures InStep(s) ==> InStep(Do(s, step))
    ensures InTime(s) ==> InTime(Do(s, step))
  {
    EndOnceKeeps(s.(link := LostTheApp(s)));
    CastEndedKeeps(s, AppClosed);
  }

  lemma ClosesIdleKeeps(s: State)
    ensures InStep(s) ==> InStep(Do(s, ClosesIdle))
    ensures InTime(s) ==> InTime(Do(s, ClosesIdle))
  {
    EndOnceKeeps(s.(link := s.link.(closing := false, closed := true)));
  }

  // ----- Over every run -----

  lemma StepInStep(s: State, step: Step)
    requires InStep(s) && Enabled(s, step)
    ensures InStep(Do(s, step))
  {
    match step
    case Start(quiet) => StartKeeps(s, quiet);
    case Plays(quiet) => PlaysKeeps(s, quiet);
    case Fails => FailsKeeps(s);
    case ReceiverStatus(level, muted, sessions, running) =>
      ReceiverKeeps(s, level, muted, sessions, running);
    case MediaSays(status) => MediaKeeps(s, status);
    case ConnectionCloses(_) => ClosesKeeps(s, step);
    case ChannelCloses => ClosesKeeps(s, step);
    case ClosesIdle => ClosesIdleKeeps(s);
    case _ =>
  }

  lemma StepInTime(s: State, step: Step)
    requires InTime(s) && Enabled(s, step) && ReloadFree(step)
    ensures InTime(Do(s, step))
  {
    match step
    case Start(quiet) => StartKeeps(s, quiet);
    case Plays(quiet) => PlaysKeeps(s, quiet);
    case Fails => FailsKeeps(s);
    case ReceiverStatus(level, muted, sessions, running) =>
      ReceiverKeeps(s, level, muted, sessions, running);
    case MediaSays(status) => MediaKeeps(s, status);
    case ConnectionCloses(_) => ClosesKeeps(s, step);
    case ChannelCloses => ClosesKeeps(s, step);
    case ClosesIdle => ClosesIdleKeeps(s);
    case _ =>
  }

  lemma {:induction false} RunInStep(s: State, steps: seq<Step>)
    requires InStep(s) && CanRun(s, steps)
    ensures InStep(Run(s, steps))
    decreases |steps|
  {
    if steps != [] {
      StepInStep(s, steps[0]);
      RunInStep(Do(s, steps[0]), steps[1..]);
    }
  }

  lemma {:induction false} RunInTime(s: State, steps: seq<Step>)
    requires InTime(s) && CanRun(s, steps) && forall step <- steps :: ReloadFree(step)
    ensures InTime(Run(s, steps))
    decreases |steps|
  {
    if steps != [] {
      assert steps[0] in steps;
      StepInTime(s, steps[0]);
      RunInTime(Do(s, steps[0]), steps[1..]);
    }
  }

  /**
   Over every run, reloads of our own included, `Buffering` strictly alternates from true, and the
   same `Paused` or `Speed` is said again only across a `Loaded`.
   */
  lemma NothingSaidTwice(steps: seq<Step>)
    requires CanRun(INITIAL, steps)
    ensures BufferingAlternates(Run(INITIAL, steps).heard)
    ensures NoneRepeated(Run(INITIAL, steps).heard)
  {
    RunInStep(INITIAL, steps);
  }

  /**
   Over every run without a reload of our own, nothing of playback is said between a load and the
   next `Loaded`; after a `Loaded` at most one `Ended` comes before the next load or `Loaded`,
   and after a load at most two: `OneEndedExactly` says when it is one.
   */
  lemma SaidInOrder(steps: seq<Step>)
    requires CanRun(INITIAL, steps) && forall step <- steps :: ReloadFree(step)
    ensures QuietWhileLoading(Run(INITIAL, steps).heard)
    ensures EndsOnce(Run(INITIAL, steps).heard)
    ensures EndsSince(Run(INITIAL, steps).heard) <= 2
  {
    RunInTime(INITIAL, steps);
  }

  // ----- When one `Ended` is all -----

  /** At no time has `Ended` been said more than once since the last load or `Loaded`. */
  predicate OnceOnly(t: seq<Said>) {
    t != [] ==> OnceOnly(t[..|t| - 1]) && EndsSince(t) <= 1
  }

  /** No load fails where the cast has ended already and the session hears: the guard not there. */
  predicate NeverFailsEnded(s: State, steps: seq<Step>)
    decreases |steps|
  {
    steps != [] ==>
      && !(steps[0].Fails? && s.ended && s.listening)
      && NeverFailsEnded(Do(s, steps[0]), steps[1..])
  }

  /** One of the two has said `Ended` twice just when the other has. */
  ghost predicate AsOften(s: State, t: State) { OnceOnly(t.heard) <==> OnceOnly(s.heard) }

  lemma SaidOnce(t: seq<Said>, e: Said)
    ensures OnceOnly(t + [e]) <==> OnceOnly(t) && EndsSince(t + [e]) <= 1
    ensures !e.Ended? ==> (OnceOnly(t + [e]) <==> OnceOnly(t))
  {
    SaidInTime(t, e);
    assert (t + [e])[..|t + [e]| - 1] == t;
  }

  lemma SaysAsOften(s: State, e: Said)
    requires !e.Ended?
    ensures AsOften(s, Says(s, e))
  {
    SaidOnce(s.heard, e);
  }

  /** `Ended` behind its guard. */
  lemma GuardedAsOften(s: State, complete: bool)
    requires InTime(s) && !s.ended
    ensures AsOften(s, Says(s, Ended(complete)))
  {
    SaidOnce(s.heard, Ended(complete));
    SaidInTime(s.heard, Ended(complete));
  }

  lemma EndOnceAsOften(s: State)
    requires InTime(s)
    ensures AsOften(s, EndOnce(s))
  {
    if !s.ended {
      GuardedAsOften(s, false);
    }
  }

  lemma CastEndedAsOften(s: State, why: Why)
    requires InTime(s)
    ensures AsOften(s, CastEnded(s, why))
  {
    EndOnceAsOften(s.(link := s.link.(closed := true, app := None, failure := Some(why))));
  }

  lemma VolumeAsOften(s: State, level: Option<real>, muted: Option<bool>)
    ensures AsOften(s, ApplyVolume(s, level, muted))
  {
    if level.Some? {
      SaidOnce(s.heard, Volume(level.value));
    }
  }

  lemma IdleAsOften(s: State, session: int, reason: IdleReason)
    requires InTime(s)
    ensures AsOften(s, ApplyIdle(s, session, reason))
  {
    SaidOnce(s.heard, Replaced);
    if !s.ended {
      GuardedAsOften(s, reason.Finished?);
    }
  }

  lemma PausedAsOften(s: State, paused: bool)
    ensures AsOften(s, ApplyPaused(s, paused))
  {
    SaidOnce(s.heard, Paused(paused));
  }

  lemma BufferingAsOften(s: State, buffering: bool)
    ensures AsOften(s, ApplyBuffering(s, buffering))
  {
    SaidOnce(s.heard, Buffering(buffering));
  }

  lemma RateAsOften(s: State, rate: real)
    ensures AsOften(s, ApplyRate(s, rate))
  {
    SaidOnce(s.heard, Speed(rate));
  }

  lemma ChangedAsOften(s: State, status: MediaStatus)
    ensures AsOften(s, Changed(s, status))
  {
    var paused := status.state.PausedState?;
    var buffering := status.state.BufferingState? || status.state.LoadingState?;
    var a := ApplyPaused(s, paused);
    PausedAsOften(s, paused);
    BufferingAsOften(a, buffering);
    RateAsOften(ApplyBuffering(a, buffering), status.rate);
  }

  lemma AppliedAsOften(s: State, status: MediaStatus)
    requires InTime(s)
    ensures AsOften(s, Applied(s, status))
  {
    if status.idleReason.Some? {
      IdleAsOften(s, status.session, status.idleReason.value);
    } else if !status.state.Idle? {
      var opened' := ApplySession(s, status.session);
      SaidOnce(s.heard, Loaded);
      SaysAsOften(opened', Progress(status.position, status.duration));
      ChangedAsOften(Says(opened', Progress(status.position, status.duration)), status);
    }
  }

  lemma PlaysAsOften(s: State, quiet: bool)
    requires InTime(s) && !quiet
    ensures AsOften(s, Do(s, Plays(quiet)))
  {
    if s.last.Some? {
      AppliedAsOften(s.(trying := false, attempting := false, reloading := quiet), s.last.value);
    }
  }

  lemma ReceiverAsOften(
    s: State, level: Option<real>, muted: Option<bool>, sessions: seq<string>, running: bool)
    requires InTime(s)
    ensures AsOften(s, Do(s, ReceiverStatus(level, muted, sessions, running)))
  {
    VolumeAsOften(s, level, muted);
    VolumeKeeps(s, level, muted);
    CastEndedAsOften(ApplyVolume(s, level, muted), if running then TakenOver else AppClosed);
  }

  lemma MediaAsOften(s: State, status: MediaStatus)
    requires InTime(s)
    ensures AsOften(s, Do(s, MediaSays(status)))
  {
    VolumeAsOften(s, status.volume, status.muted);
    VolumeKeeps(s, status.volume, status.muted);
    AppliedAsOften(ApplyVolume(s, status.volume, status.muted).(last := Some(status)), status);
  }

  lemma ClosesAsOften(s: State, step: Step)
    requires step.ChannelCloses? || step.ClosesIdle? || step.ConnectionCloses?
    requires InTime(s)
    ensures AsOften(s, Do(s, step))
  {
    EndOnceAsOften(s.(link := LostTheApp(s)));
    EndOnceAsOften(s.(link := s.link.(closing := false, closed := true)));
    CastEndedAsOften(s, AppClosed);
  }

  /** A failing load says a second `Ended` just where the guard would have stopped it. */
  lemma FailsAsOften(s: State)
    requires InTime(s)
    ensures OnceOnly(Do(s, Fails).heard) <==> OnceOnly(s.heard) && !(s.ended && s.listening)
  {
    SaidOnce(s.heard, Ended(false));
    SaidInTime(s.heard, Ended(false));
  }

  lemma StepAsOften(s: State, step: Step)
    requires InTime(s) && Enabled(s, step) && ReloadFree(step) && !step.Fails?
    ensures AsOften(s, Do(s, step))
  {
    match step
    case Start(_) => SaidOnce(s.heard, LoadAsked);
    case Plays(quiet) => PlaysAsOften(s, quiet);
    case ReceiverStatus(level, muted, sessions, running) =>
      ReceiverAsOften(s, level, muted, sessions, running);
    case MediaSays(status) => MediaAsOften(s, status);
    case ConnectionCloses(_) => ClosesAsOften(s, step);
    case ChannelCloses => ClosesAsOften(s, step);
    case ClosesIdle => ClosesAsOften(s, step);
    case _ =>
  }

  lemma {:induction false} RunAsOften(s: State, steps: seq<Step>)
    requires InTime(s) && CanRun(s, steps) && forall step <- steps :: ReloadFree(step)
    ensures OnceOnly(Run(s, steps).heard) <==> OnceOnly(s.heard) && NeverFailsEnded(s, steps)
    decreases |steps|
  {
    if steps != [] {
      assert steps[0] in steps;
      StepInTime(s, steps[0]);
      if steps[0].Fails? {
        FailsAsOften(s);
      } else {
        StepAsOften(s, steps[0]);
      }
      RunAsOften(Do(s, steps[0]), steps[1..]);
    }
  }

  /**
   Over every run without a reload of our own, `Ended` is said at most once after each load and each
   `Loaded` exactly when no load fails where the cast has ended already and the session still hears.
   */
  lemma OneEndedExactly(steps: seq<Step>)
    requires CanRun(INITIAL, steps) && forall step <- steps :: ReloadFree(step)
    ensures OnceOnly(Run(INITIAL, steps).heard) <==> NeverFailsEnded(INITIAL, steps)
  {
    RunAsOften(INITIAL, steps);
  }

  /** Two is reached: a load whose app another sender closes ends there, and again as it fails. */
  lemma FailureEndsAgain(app: App)
    ensures
      var steps := [Start(false), Launched(app), ConnectionCloses(app.transport), Fails];
      && CanRun(INITIAL, steps)
      && Run(INITIAL, steps).heard == [LoadAsked, Ended(false), Ended(false)]
  {
    var one := Do(INITIAL, Start(false));
    var two := Do(one, Launched(app));
    var three := Do(two, ConnectionCloses(app.transport));
    RunStep(three, Fails, []);
    RunStep(two, ConnectionCloses(app.transport), [Fails]);
    RunStep(one, Launched(app), [ConnectionCloses(app.transport), Fails]);
    RunStep(INITIAL, Start(false), [Launched(app), ConnectionCloses(app.transport), Fails]);
    assert [Fails] == [Fails] + [];
    assert [ConnectionCloses(app.transport), Fails] == [ConnectionCloses(app.transport)] + [Fails];
    assert [Launched(app), ConnectionCloses(app.transport), Fails]
        == [Launched(app)] + [ConnectionCloses(app.transport), Fails];
    assert [Start(false), Launched(app), ConnectionCloses(app.transport), Fails]
        == [Start(false)] + [Launched(app), ConnectionCloses(app.transport), Fails];
  }

  lemma RunStep(s: State, step: Step, rest: seq<Step>)
    ensures Run(s, [step] + rest) == Run(Do(s, step), rest)
    ensures CanRun(s, [step] + rest) <==> Enabled(s, step) && CanRun(Do(s, step), rest)
  {
    assert ([step] + rest)[1..] == rest;
  }

  /** Nothing was said from `s` to `t`, and nobody hears. */
  predicate Silent(s: State, t: State) { t.heard == s.heard && !t.listening }

  lemma SilentChanged(s: State, status: MediaStatus)
    requires !s.listening
    ensures Silent(s, Changed(s, status))
  {
    var a := ApplyPaused(s, status.state.PausedState?);
    assert Silent(s, a);
    var b := ApplyBuffering(a, status.state.BufferingState? || status.state.LoadingState?);
    assert Silent(s, b);
  }

  lemma SilentApplied(s: State, status: MediaStatus)
    requires !s.listening
    ensures Silent(s, Applied(s, status))
  {
    var a := ApplySession(s, status.session);
    assert Silent(s, a);
    SilentChanged(Says(a, Progress(status.position, status.duration)), status);
  }

  lemma SilentVolume(s: State, level: Option<real>, muted: Option<bool>)
    requires !s.listening
    ensures Silent(s, ApplyVolume(s, level, muted))
  {
  }

  lemma SilentEnd(s: State, why: Why)
    requires !s.listening
    ensures Silent(s, EndOnce(s)) && Silent(s, CastEnded(s, why))
  {
  }

  lemma SilentClose(s: State)
    requires !s.listening
    ensures Silent(s, Do(s, ChannelCloses)) && Silent(s, Do(s, ClosesIdle))
  {
  }

  lemma SilentMessage(s: State, step: Step)
    requires !s.listening && (step.ReceiverStatus? || step.MediaSays?)
    ensures Silent(s, Do(s, step))
  {
    match step
    case ReceiverStatus(level, muted, _, running) =>
      SilentVolume(s, level, muted);
      SilentEnd(ApplyVolume(s, level, muted), if running then TakenOver else AppClosed);
    case MediaSays(status) =>
      SilentVolume(s, status.volume, status.muted);
      SilentApplied(ApplyVolume(s, status.volume, status.muted).(last := Some(status)), status);
  }

  lemma SilentStep(s: State, step: Step)
    requires !s.listening
    ensures Silent(s, Do(s, step))
  {
    match step
    case Plays(quiet) =>
      if s.last.Some? {
        SilentApplied(s.(trying := false, attempting := false, reloading := quiet), s.last.value);
      }
    case ReceiverStatus(_, _, _, _) => SilentMessage(s, step);
    case MediaSays(_) => SilentMessage(s, step);
    case ConnectionCloses(_) => SilentEnd(s, AppClosed);
    case ChannelCloses => SilentClose(s);
    case ClosesIdle => SilentClose(s);
    case _ =>
  }

  /** Once quit is done, the session hears nothing more. */
  lemma {:induction false} NothingAfterQuit(s: State, steps: seq<Step>)
    requires !s.listening && CanRun(s, steps)
    ensures Run(s, steps).heard == s.heard
    decreases |steps|
  {
    if steps != [] {
      SilentStep(s, steps[0]);
      NothingAfterQuit(Do(s, steps[0]), steps[1..]);
    }
  }
}
