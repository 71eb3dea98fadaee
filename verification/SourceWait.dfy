/**
 Waiting on the source behind the relay, and judging a TV by it (crates/anistream-cast/src/relay.rs,
 `SourceWait`, `reset_stats` and `source`; crates/anistream-cast/src/player.rs, `refused` and
 `stalled`). Each read and write of a shared cell is one step, and steps of many waits interleave
 with those of the one that resets the cells and reads them.
 */
module SourceWait {
  import opened Bytes

  /** How far a wait is: its drop writes trouble if it was slow, then the time, then the counter. */
  datatype Phase = Waiting | Judged | Settled | Gone

  /** A wait; `wrote` is when it last wrote trouble, and `left` when it took itself off the counter. */
  datatype Wait = Wait(phase: Phase, began: nat, wrote: Option<nat>, left: Option<nat>)

  /** The one that tries a plan: it resets the cells, and then reads them one after another. */
  datatype Watch =
    | Idle
    | Resetting(done: nat)
    | Watching
    | ReadBusy(busy: bool, at: nat)
    | ReadTrouble(busy: bool, at: nat, troubled: bool)
    | ReadAll(busy: bool, at: nat, troubled: bool, quietSince: nat)
    | Verdict(busy: bool, at: nat, troubled: bool, served: bool)

  /**
   `waits` are all there ever were, by number; `live` those not gone. `resetAt` is when trouble was
   last reset, and `lastWriter` who wrote it last.
   */
  datatype State = State(
    clock: nat, count: nat, trouble: bool, settled: nat, media: nat, waits: map<nat, Wait>,
    live: set<nat>, watch: Watch, resetAt: nat, lastWriter: Option<nat>)

  const INITIAL := State(0, 0, false, 0, 0, map[], {}, Idle, 0, None)

  datatype Step =
    | Begins(id: nat)
    | Fails(id: nat)
    | Judges(id: nat, slow: bool)
    | Settles(id: nat)
    | Leaves(id: nat)
    | AsksForMedia
    | Resets
    | Reads

  predicate InPhase(s: State, id: nat, phase: Phase) { id in s.waits && s.waits[id].phase == phase }

  predicate Enabled(s: State, step: Step) {
    match step
    case Begins(id) => id !in s.waits
    case Fails(id) => InPhase(s, id, Waiting)
    case Judges(id, _) => InPhase(s, id, Waiting)
    case Settles(id) => InPhase(s, id, Judged)
    case Leaves(id) => InPhase(s, id, Settled)
    case AsksForMedia => true
    case Resets => !s.watch.ReadBusy? && !s.watch.ReadTrouble? && !s.watch.ReadAll?
    case Reads => !s.watch.Idle? && !s.watch.Resetting?
  }

  /** Trouble written by a wait. */
  function Wrote(s: State, id: nat): State
    requires id in s.waits
  {
    s.(trouble := true, waits := s.waits[id := s.waits[id].(wrote := Some(s.clock))],
       lastWriter := Some(id))
  }

  /** The next store of a reset: the requests', the media's, trouble's and the time's. */
  function ResetNext(s: State): State {
    var done := if s.watch.Resetting? then s.watch.done else 0;
    if done == 0 then s.(watch := Resetting(1))
    else if done == 1 then s.(media := 0, watch := Resetting(2))
    else if done == 2 then
      s.(trouble := false, resetAt := s.clock, lastWriter := None, watch := Resetting(3))
    else s.(settled := s.clock, watch := Watching)
  }

  /** The next read: of the counter, of trouble and of the time, and then of the media asked for. */
  function ReadNext(s: State): State {
    match s.watch
    case ReadBusy(busy, at) => s.(watch := ReadTrouble(busy, at, s.trouble))
    case ReadTrouble(busy, at, troubled) => s.(watch := ReadAll(busy, at, troubled, s.settled))
    case ReadAll(busy, at, troubled, _) => s.(watch := Verdict(busy, at, troubled, s.media > 0))
    case _ => s.(watch := ReadBusy(s.count > 0, s.clock))
  }

  function Act(s: State, step: Step): State
    requires Enabled(s, step)
  {
    match step
    case Begins(id) =>
      s.(count := s.count + 1, live := s.live + {id},
         waits := s.waits[id := Wait(Waiting, s.clock, None, None)])
    case Fails(id) => Wrote(s, id)
    case Judges(id, slow) =>
      var t := if slow then Wrote(s, id) else s;
      t.(waits := t.waits[id := t.waits[id].(phase := Judged)])
    case Settles(id) =>
      s.(settled := s.clock, waits := s.waits[id := s.waits[id].(phase := Settled)])
    case Leaves(id) =>
      s.(count := if s.count > 0 then s.count - 1 else 0, live := s.live - {id},
         waits := s.waits[id := s.waits[id].(phase := Gone, left := Some(s.clock))])
    case AsksForMedia => s.(media := s.media + 1)
    case Resets => ResetNext(s)
    case Reads => ReadNext(s)
  }

  function Do(s: State, step: Step): State
    requires Enabled(s, step)
  {
    var t := Act(s, step);
    t.(clock := s.clock + 1)
  }

  predicate CanRun(s: State, steps: seq<Step>)
    decreases |steps|
  {
    steps != [] ==> Enabled(s, steps[0]) && CanRun(Do(s, steps[0]), steps[1..])
  }

  function Run(s: State, steps: seq<Step>): State
    requires CanRun(s, steps)
    decreases |steps|
  {
    if steps == [] then s else Run(Do(s, steps[0]), steps[1..])
  }

  // ----- The shared cells -----

  /** The cells themselves; the rest of the state is what is known of who wrote them. */
  class Shared {
    var sourceWaits: nat
    var sourceTrouble: bool
    var sourceSettled: nat
    ghost var rest: State

    ghost function View(): State
      reads this
    {
      rest.(count := sourceWaits, trouble := sourceTrouble, settled := sourceSettled)
    }

    constructor ()
      ensures View() == INITIAL
    {
      sourceWaits, sourceTrouble, sourceSettled, rest := 0, false, 0, INITIAL;
    }

    method Begin(ghost id: nat)
      requires Enabled(View(), Begins(id))
      modifies this
      ensures View() == Do(old(View()), Begins(id))
    {
      ghost var was := View();
      sourceWaits := sourceWaits + 1;
      rest := Do(was, Begins(id));
    }

    method Failed(ghost id: nat)
      requires Enabled(View(), Fails(id))
      modifies this
      ensures View() == Do(old(View()), Fails(id))
    {
      ghost var was := View();
      sourceTrouble := true;
      rest := Do(was, Fails(id));
    }

    /** The drop of a wait, if nothing else ran between its writes. */
    method Drop(ghost id: nat, slow: bool, now: nat)
      requires Enabled(View(), Judges(id, slow)) && sourceWaits > 0 && now == View().clock + 1
      modifies this
      ensures View() == Do(Do(Do(old(View()), Judges(id, slow)), Settles(id)), Leaves(id))
    {
      ghost var was := View();
      if slow {
        sourceTrouble := true;
      }
      sourceSettled := now;
      sourceWaits := sourceWaits - 1;
      rest := Do(Do(Do(was, Judges(id, slow)), Settles(id)), Leaves(id));
    }
  }

  // ----- What holds at every step -----

  /** Whether a wait wrote trouble at `since` or later. */
  predicate WroteSince(w: Wait, since: nat) { w.wrote.Some? && w.wrote.value >= since }

  /** The counter is the number of waits not gone. */
  ghost predicate Counted(s: State) {
    && s.count == |s.live|
    && (forall id :: id in s.live <==> id in s.waits && s.waits[id].phase != Gone)
  }

  /** A wait's times are past, and it left just when it is gone. */
  predicate TimedWait(w: Wait, clock: nat) {
    && w.began < clock && (w.wrote.Some? ==> w.wrote.value < clock)
    && (w.left.Some? <==> w.phase == Gone) && (w.left.Some? ==> w.left.value < clock)
  }

  ghost predicate Timed(s: State) {
    s.resetAt <= s.clock && forall id <- s.waits :: TimedWait(s.waits[id], s.clock)
  }

  /** Trouble is set just when some wait wrote it since the reset. */
  ghost predicate Blamed(s: State) {
    && (s.trouble <==> s.lastWriter.Some?)
    && (s.lastWriter.Some? ==>
          s.lastWriter.value in s.waits && WroteSince(s.waits[s.lastWriter.value], s.resetAt))
    && (forall id <- s.waits :: WroteSince(s.waits[id], s.resetAt) ==> s.trouble)
  }

  ghost predicate Inv(s: State) { Counted(s) && Timed(s) && Blamed(s) }

  /** What the reads made so far still tell. */
  ghost predicate Told(s: State) {
    match s.watch
    case ReadBusy(busy, at) => at < s.clock && (!busy ==> AllLeft(s, at))
    case ReadTrouble(busy, at, troubled) => BothTold(s, busy, at, troubled)
    case ReadAll(busy, at, troubled, _) => BothTold(s, busy, at, troubled)
    case Verdict(busy, at, troubled, _) => BothTold(s, busy, at, troubled)
    case _ => true
  }

  ghost predicate BothTold(s: State, busy: bool, at: nat, troubled: bool) {
    && at < s.clock
    && (!busy ==> AllLeft(s, at))
    && (!troubled ==> NoneWrote(s, at))
    && (troubled ==> exists id <- s.waits :: WroteSince(s.waits[id], s.resetAt))
  }

  /** Every wait begun before `at` was off the counter by then. */
  ghost predicate AllLeft(s: State, at: nat) {
    forall id <- s.waits :: s.waits[id].began < at ==> s.waits[id].left.Some? && s.waits[id].left.value < at
  }

  /** No wait gone by `at` wrote trouble since the reset. */
  ghost predicate NoneWrote(s: State, at: nat) {
    forall id <- s.waits ::
      s.waits[id].left.Some? && s.waits[id].left.value < at ==> !WroteSince(s.waits[id], s.resetAt)
  }

  lemma NoneLive(live: set<nat>)
    ensures |live| == 0 <==> live == {}
  {
  }

  lemma OneMore(live: set<nat>, id: nat)
    requires id !in live
    ensures |live + {id}| == |live| + 1
  {
  }

  lemma OneLess(live: set<nat>, id: nat)
    requires id in live
    ensures |live - {id}| == |live| - 1
  {
  }

  lemma CountedBeginning(s: State, id: nat)
    requires Counted(s) && Enabled(s, Begins(id))
    ensures Counted(Do(s, Begins(id)))
  {
    assert id !in s.live;
    OneMore(s.live, id);
  }

  lemma CountedLeaving(s: State, id: nat)
    requires Counted(s) && Enabled(s, Leaves(id))
    ensures Counted(Do(s, Leaves(id)))
  {
    assert id in s.live;
    OneLess(s.live, id);
  }

  lemma CountedKept(s: State, step: Step)
    requires Counted(s) && Enabled(s, step)
    ensures Counted(Do(s, step))
  {
    match step
    case Begins(id) => CountedBeginning(s, id);
    case Leaves(id) => CountedLeaving(s, id);
    case _ => CountedOtherwise(s, step);
  }

  lemma CountedOtherwise(s: State, step: Step)
    requires Counted(s) && Enabled(s, step) && !step.Begins? && !step.Leaves?
    ensures Counted(Do(s, step))
  {
  }

  lemma TimedKept(s: State, step: Step)
    requires Timed(s) && Enabled(s, step)
    ensures Timed(Do(s, step))
  {
    var t := Do(s, step);
    forall id | id in t.waits ensures TimedWait(t.waits[id], t.clock) {
      assert id in s.waits ==> TimedWait(s.waits[id], s.clock);
    }
  }

  lemma BlamedKept(s: State, step: Step)
    requires Timed(s) && Blamed(s) && Enabled(s, step)
    ensures Blamed(Do(s, step))
  {
    var t := Do(s, step);
    forall id | id in t.waits && WroteSince(t.waits[id], t.resetAt) ensures t.trouble {
      assert id in s.waits ==> TimedWait(s.waits[id], s.clock);
    }
  }

  lemma StepKeepsInv(s: State, step: Step)
    requires Inv(s) && Enabled(s, step)
    ensures Inv(Do(s, step))
  {
    CountedKept(s, step);
    TimedKept(s, step);
    BlamedKept(s, step);
  }

  /** A step of a wait changes nothing that reads made before it tell. */
  lemma LeftKept(s: State, step: Step, at: nat)
    requires Timed(s) && Enabled(s, step) && at <= s.clock && AllLeft(s, at)
    ensures AllLeft(Do(s, step), at)
  {
    var t := Do(s, step);
    forall id | id in t.waits && t.waits[id].began < at
      ensures t.waits[id].left.Some? && t.waits[id].left.value < at
    {
      assert id in s.waits && TimedWait(s.waits[id], s.clock);
    }
  }

  lemma NoneWroteKept(s: State, step: Step, at: nat)
    requires Timed(s) && Enabled(s, step) && at <= s.clock && !step.Resets? && NoneWrote(s, at)
    ensures NoneWrote(Do(s, step), at)
  {
    var t := Do(s, step);
    forall id | id in t.waits && t.waits[id].left.Some? && t.waits[id].left.value < at
      ensures !WroteSince(t.waits[id], t.resetAt)
    {
      assert id in s.waits && TimedWait(s.waits[id], s.clock);
    }
  }

  lemma SomeoneKept(s: State, step: Step)
    requires Timed(s) && Enabled(s, step) && !step.Resets?
    requires exists id <- s.waits :: WroteSince(s.waits[id], s.resetAt)
    ensures exists id <- Do(s, step).waits :: WroteSince(Do(s, step).waits[id], Do(s, step).resetAt)
  {
    var id :| id in s.waits && WroteSince(s.waits[id], s.resetAt);
    var t := Do(s, step);
    assert id in t.waits && WroteSince(t.waits[id], t.resetAt);
  }

  lemma BothKept(s: State, step: Step, busy: bool, at: nat, troubled: bool)
    requires Timed(s) && Enabled(s, step) && !step.Resets? && BothTold(s, busy, at, troubled)
    ensures BothTold(Do(s, step), busy, at, troubled)
  {
    if !busy { LeftKept(s, step, at); }
    if troubled { SomeoneKept(s, step); } else { NoneWroteKept(s, step, at); }
  }

  /** A read of the counter that finds none finds every wait gone. */
  lemma ReadsBusy(s: State)
    requires Counted(s) && Timed(s) && s.count == 0
    ensures AllLeft(s, s.clock)
  {
    NoneLive(s.live);
    forall id | id in s.waits
      ensures s.waits[id].left.Some? && s.waits[id].left.value < s.clock
    {
      assert id !in s.live;
      assert TimedWait(s.waits[id], s.clock);
    }
  }

  lemma ReadsTrouble(s: State, busy: bool, at: nat)
    requires Blamed(s) && at < s.clock && (!busy ==> AllLeft(s, at))
    ensures BothTold(s, busy, at, s.trouble)
  {
  }

  lemma StepKeepsTold(s: State, step: Step)
    requires Inv(s) && Told(s) && Enabled(s, step)
    ensures Told(Do(s, step))
  {
    if step.Resets? {
    } else if step.Reads? {
      ReadKeepsTold(s);
    } else {
      match s.watch
      case ReadBusy(busy, at) => if !busy { LeftKept(s, step, at); }
      case ReadTrouble(busy, at, troubled) => BothKept(s, step, busy, at, troubled);
      case ReadAll(busy, at, troubled, _) => BothKept(s, step, busy, at, troubled);
      case Verdict(busy, at, troubled, _) => BothKept(s, step, busy, at, troubled);
      case _ =>
    }
  }

  lemma ReadKeepsTold(s: State)
    requires Inv(s) && Told(s) && Enabled(s, Reads)
    ensures Told(Do(s, Reads))
  {
    match s.watch
    case ReadBusy(busy, at) =>
      ReadsTrouble(s, busy, at);
      BothKept(s, Reads, busy, at, s.trouble);
    case ReadTrouble(busy, at, troubled) => BothKept(s, Reads, busy, at, troubled);
    case ReadAll(busy, at, troubled, _) => BothKept(s, Reads, busy, at, troubled);
    case _ =>
      if s.count == 0 {
        ReadsBusy(s);
        LeftKept(s, Reads, s.clock);
      }
  }

  lemma {:induction false} RunKeeps(s: State, steps: seq<Step>)
    requires Inv(s) && Told(s) && CanRun(s, steps)
    ensures Inv(Run(s, steps)) && Told(Run(s, steps))
    decreases |steps|
  {
    if steps != [] {
      StepKeepsInv(s, steps[0]);
      StepKeepsTold(s, steps[0]);
      RunKeeps(Do(s, steps[0]), steps[1..]);
    }
  }

  /** Over every interleaving the counter is the number of waits not gone. */
  lemma CounterCountsTheLive(steps: seq<Step>)
    requires CanRun(INITIAL, steps)
    ensures
      var s := Run(INITIAL, steps);
      && s.count == |s.live|
      && (forall id :: id in s.live <==> id in s.waits && s.waits[id].phase != Gone)
  {
    RunKeeps(INITIAL, steps);
  }

  /**
   A verdict that saw the source neither busy nor in trouble missed no wait that failed or was slow
   and said so since the reset: of all the waits there were when it looked, every one was gone, and
   none had written trouble since. And one that saw trouble saw some wait's.
   */
  lemma AFairVerdictMissesNone(steps: seq<Step>)
    requires CanRun(INITIAL, steps) && Run(INITIAL, steps).watch.Verdict?
    ensures
      var s := Run(INITIAL, steps);
      var v := s.watch;
      && (!v.busy && !v.troubled ==>
            forall id <- s.waits :: s.waits[id].began < v.at ==>
              s.waits[id].left.Some? && s.waits[id].left.value < v.at
              && !WroteSince(s.waits[id], s.resetAt))
      && (v.troubled ==> exists id <- s.waits :: WroteSince(s.waits[id], s.resetAt))
  {
    RunKeeps(INITIAL, steps);
  }

  /** A wait that failed or was slow, and left the counter since the reset. */
  predicate EndedBadly(w: Wait, resetAt: nat, at: nat) {
    w.wrote.Some? && w.left.Some? && resetAt <= w.left.value < at
  }

  /** A wait that wrote trouble before the reset's own store, and left after it. */
  predicate Straddles(w: Wait, resetAt: nat, at: nat) {
    w.wrote.Some? && w.wrote.value < resetAt && w.left.Some? && resetAt <= w.left.value < at
  }

  /**
   The bad waits that ended since the reset and that a verdict neither busy nor troubled missed are
   exactly those that straddle the reset.
   */
  lemma OnlyStraddlersAreMissed(steps: seq<Step>, id: nat)
    requires CanRun(INITIAL, steps) && Run(INITIAL, steps).watch.Verdict?
    requires id in Run(INITIAL, steps).waits
    requires !Run(INITIAL, steps).watch.busy && !Run(INITIAL, steps).watch.troubled
    ensures
      var s := Run(INITIAL, steps);
      EndedBadly(s.waits[id], s.resetAt, s.watch.at) <==> Straddles(s.waits[id], s.resetAt, s.watch.at)
  {
    RunKeeps(INITIAL, steps);
  }

  // ----- A wait that straddles the reset -----

  lemma RunStep(s: State, step: Step, rest: seq<Step>)
    requires Enabled(s, step)
    ensures CanRun(s, [step] + rest) <==> CanRun(Do(s, step), rest)
    ensures CanRun(Do(s, step), rest) ==> Run(s, [step] + rest) == Run(Do(s, step), rest)
  {
    assert ([step] + rest)[1..] == rest;
  }

  /** A slow wait judged before trouble is reset and gone after it. */
  const STRADDLES: seq<Step> :=
    [Begins(0)] + ([Judges(0, true)] + ([Resets] + ([Resets] + ([Resets] + ([Resets]
    + ([Settles(0)] + ([Leaves(0)] + ([AsksForMedia] + ([Reads] + ([Reads] + ([Reads]
    + ([Reads] + []))))))))))))

  /** It ended badly since the reset, and the verdict saw nothing of it. */
  lemma AStraddlerIsMissed()
    ensures CanRun(INITIAL, STRADDLES)
    ensures
      var s := Run(INITIAL, STRADDLES);
      && s.watch.Verdict? && !s.watch.busy && !s.watch.troubled && s.watch.served
      && 0 in s.waits && EndedBadly(s.waits[0], s.resetAt, s.watch.at)
  {
    var s1 := Do(INITIAL, Begins(0));
    var s2 := Do(s1, Judges(0, true));
    var s3 := Do(s2, Resets);
    var s4 := Do(s3, Resets);
    var s5 := Do(s4, Resets);
    var s6 := Do(s5, Resets);
    Straddled(s6);
    var r7 := [Settles(0)] + ([Leaves(0)] + ([AsksForMedia] + ([Reads] + ([Reads] + ([Reads]
              + ([Reads] + []))))));
    RunStep(s5, Resets, r7);
    RunStep(s4, Resets, [Resets] + r7);
    RunStep(s3, Resets, [Resets] + ([Resets] + r7));
    RunStep(s2, Resets, [Resets] + ([Resets] + ([Resets] + r7)));
    RunStep(s1, Judges(0, true), [Resets] + ([Resets] + ([Resets] + ([Resets] + r7))));
    RunStep(INITIAL, Begins(0),
            [Judges(0, true)] + ([Resets] + ([Resets] + ([Resets] + ([Resets] + r7)))));
  }

  lemma Straddled(s: State)
    requires s == State(6, 1, false, 5, 0, map[0 := Wait(Judged, 0, Some(1), None)], {0}, Watching, 4, None)
    ensures
      var rest := [Settles(0)] + ([Leaves(0)] + ([AsksForMedia] + ([Reads] + ([Reads] + ([Reads]
                  + ([Reads] + []))))));
      && CanRun(s, rest)
      && Run(s, rest).watch == Verdict(false, 9, false, true) && Run(s, rest).resetAt == 4
      && Run(s, rest).waits == map[0 := Wait(Gone, 0, Some(1), Some(7))]
  {
    var s7 := Do(s, Settles(0));
    var s8 := Do(s7, Leaves(0));
    var s9 := Do(s8, AsksForMedia);
    assert s9.live == {} && s9.waits == map[0 := Wait(Gone, 0, Some(1), Some(7))];
    Seen(s9);
    RunStep(s8, AsksForMedia, [Reads] + ([Reads] + ([Reads] + ([Reads] + []))));
    RunStep(s7, Leaves(0), [AsksForMedia] + ([Reads] + ([Reads] + ([Reads] + ([Reads] + [])))));
    RunStep(s, Settles(0),
            [Leaves(0)] + ([AsksForMedia] + ([Reads] + ([Reads] + ([Reads] + ([Reads] + []))))));
  }

  lemma Seen(s: State)
    requires s.watch == Watching && s.count == 0 && !s.trouble && s.media == 1
    ensures
      var rest := [Reads] + ([Reads] + ([Reads] + ([Reads] + [])));
      && CanRun(s, rest)
      && Run(s, rest).watch == Verdict(false, s.clock, false, true)
      && Run(s, rest).resetAt == s.resetAt && Run(s, rest).waits == s.waits
  {
    var s1 := Do(s, Reads);
    var s2 := Do(s1, Reads);
    var s3 := Do(s2, Reads);
    RunStep(s3, Reads, []);
    RunStep(s2, Reads, [Reads] + []);
    RunStep(s1, Reads, [Reads] + ([Reads] + []));
    RunStep(s, Reads, [Reads] + ([Reads] + ([Reads] + [])));
  }
}
