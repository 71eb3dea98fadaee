/**
 The Cast channel (crates/anistream-cast/src/channel.rs): the reader splitting a byte stream into
 messages, and the table that matches replies to the requests waiting on them.

 `Requests` is the state the sender's tasks and the reader share. Each of its methods is one atomic
 step of the source, between two awaits or lock releases; any task may take the next step. What
 the steps do to the state is `Next`, and the lemmas are about every sequence of steps.
 */
module Channel {
  import opened Bytes
  import opened Proto

  // ----- The reader: frames to messages -----

  /** Why the reader stopped. */
  datatype Stop = Ended | TooLarge

  /** What a frame's body adds to the messages. */
  function Heard(body: seq<Byte>): seq<CastMessage> {
    match Decoded(body)
    case Ok(m) => [m]
    case Err(_) => []
  }

  /** The messages in `stream`, up to its end or a frame too large; a malformed one is skipped. */
  function Split(stream: seq<Byte>): (seq<CastMessage>, Stop)
    decreases |stream|
  {
    if |stream| < 4 then ([], Ended)
    else
      var len := U32At(stream);
      if len > MAX_MESSAGE then ([], TooLarge)
      else if |stream| < 4 + len then ([], Ended)
      else
        var (messages, stop) := Split(stream[4 + len..]);
        (Heard(stream[4..4 + len]) + messages, stop)
  }

  lemma SplitStep(stream: seq<Byte>, body: seq<Byte>, rest: seq<Byte>)
    requires |stream| >= 4 && U32At(stream) <= MAX_MESSAGE && |stream| >= 4 + U32At(stream)
    requires body == stream[4..4 + U32At(stream)] && rest == stream[4 + U32At(stream)..]
    ensures Split(stream) == (Heard(body) + Split(rest).0, Split(rest).1)
  {
  }

  /** What is left to read, behind the messages read so far. */
  function Ahead(messages: seq<CastMessage>, rest: seq<Byte>): (seq<CastMessage>, Stop) {
    (messages + Split(rest).0, Split(rest).1)
  }

  lemma AheadStep(messages: seq<CastMessage>, stream: seq<Byte>, body: seq<Byte>, rest: seq<Byte>)
    requires |stream| >= 4 && U32At(stream) <= MAX_MESSAGE && |stream| >= 4 + U32At(stream)
    requires body == stream[4..4 + U32At(stream)] && rest == stream[4 + U32At(stream)..]
    ensures Ahead(messages, stream) == Ahead(messages + Heard(body), rest)
  {
    SplitStep(stream, body, rest);
    assert messages + (Heard(body) + Split(rest).0) == messages + Heard(body) + Split(rest).0;
  }

  lemma AheadNone(messages: seq<CastMessage>, stream: seq<Byte>)
    requires Split(stream).0 == []
    ensures Ahead(messages, stream) == (messages, Split(stream).1)
  {
    assert messages + [] == messages;
  }

  method ReadLoop(stream: seq<Byte>) returns (messages: seq<CastMessage>, stop: Stop)
    ensures (messages, stop) == Split(stream)
  {
    var rest := stream;
    messages := [];
    ghost var want := Split(stream);
    assert [] + want.0 == want.0;
    while |rest| >= 4
      invariant want == Ahead(messages, rest)
      decreases |rest|
    {
      var len := U32At(rest);
      if len > MAX_MESSAGE {
        AheadNone(messages, rest);
        return messages, TooLarge;
      }
      if |rest| < 4 + len {
        AheadNone(messages, rest);
        return messages, Ended;
      }
      var body := rest[4..4 + len];
      AheadStep(messages, rest, body, rest[4 + len..]);
      rest := rest[4 + len..];
      var message := Decode(body);
      messages := if message.Ok? then messages + [message.value] else messages + [];
    }
    AheadNone(messages, rest);
    return messages, Ended;
  }

  /** Messages framed one after another, and a frame not all there. */
  function Sent(messages: seq<CastMessage>, partial: seq<Byte>): seq<Byte> {
    if messages == [] then partial else Framed(messages[0]) + Sent(messages[1..], partial)
  }

  lemma BodySplits(head: seq<Byte>, body: seq<Byte>, heard: seq<CastMessage>, rest: seq<Byte>)
    requires |body| <= MAX_MESSAGE && head == Be32(|body|) && Heard(body) == heard
    ensures Split(head + body + rest) == (heard + Split(rest).0, Split(rest).1)
  {
    var stream := head + body + rest;
    assert stream == head + (body + rest);
    Be32Reads(|body|, body + rest);
    assert stream[4..4 + |body|] == body && stream[4 + |body|..] == rest;
    SplitStep(stream, body, rest);
  }

  lemma HeardBack(m: CastMessage, body: seq<Byte>)
    requires Held(m) && body == Flatten(Chunks(m))
    ensures Heard(body) == [m]
  {
    EncodeRoundTrip(m);
  }

  lemma SplitFrame(m: CastMessage, head: seq<Byte>, body: seq<Byte>, rest: seq<Byte>)
    requires Held(m) && |body| <= MAX_MESSAGE && head == Be32(|body|) && body == Flatten(Chunks(m))
    ensures Split(head + body + rest) == ([m] + Split(rest).0, Split(rest).1)
  {
    HeardBack(m, body);
    BodySplits(head, body, [m], rest);
  }

  lemma FrameIs(m: CastMessage, body: seq<Byte>)
    requires body == Flatten(Chunks(m)) && |body| <= MAX_MESSAGE
    ensures Framed(m) == Be32(|body|) + body
  {
    assert |body| % WORD32 == |body|;
  }

  /** The start of a frame within the limit whose bytes have not all come. */
  predicate Partial(stream: seq<Byte>) {
    |stream| < 4 || (U32At(stream) <= MAX_MESSAGE && |stream| < 4 + U32At(stream))
  }

  lemma SplitPartial(stream: seq<Byte>)
    requires Partial(stream)
    ensures Split(stream) == ([], Ended)
  {
  }

  predicate Sendable(m: CastMessage) { Held(m) && |Flatten(Chunks(m))| <= MAX_MESSAGE }

  /** A stream of frames within the limit splits back into exactly the messages sent. */
  lemma {:induction false} SplitUndoesFrame(messages: seq<CastMessage>, partial: seq<Byte>)
    requires forall m <- messages :: Sendable(m)
    requires Partial(partial)
    ensures Split(Sent(messages, partial)) == (messages, Ended)
  {
    if messages == [] {
      SplitPartial(partial);
    } else {
      assert messages[0] in messages;
      var rest := Sent(messages[1..], partial);
      SplitUndoesFrame(messages[1..], partial);
      var body := Flatten(Chunks(messages[0]));
      FrameIs(messages[0], body);
      SplitFrame(messages[0], Be32(|body|), body, rest);
      assert [messages[0]] + messages[1..] == messages;
    }
  }

  // ----- Requests and their replies -----

  /** The request id every status poll goes out with. */
  const POLL_REQUEST: nat := 0x100_0000_0000

  /** What the reader makes of a message: a heartbeat's, or one with this `requestId`, 0 for none. */
  datatype Message = Heartbeat | Answer(id: nat, payload: nat)

  datatype Outcome = Replied(message: Message) | Refused | Closed | TimedOut

  /** Where one call of `request` is. */
  datatype Phase =
    | Numbered          // its id is taken
    | Registered        // its sender half is in the table
    | Waiting           // its message is on the way; it waits on its receiver half
    | GaveUp            // its wait timed out; its entry is still in the table
    | Done(outcome: Outcome)

  datatype View = View(
    next: nat,
    phase: map<nat, Phase>,
    pending: set<nat>,           // the table: whose sender half it holds
    reply: map<nat, Message>,    // what was sent through a sender half
    closed: bool,
    clearedAt: Option<nat>)      // `next` when the reader cleared the table

  datatype Step =
    | TakeId
    | Register(id: nat)
    | Send(id: nat, gone: bool)   // whether the writer is gone
    | Deliver(message: Message)
    | Wake(id: nat)
    | TimeOut(id: nat)
    | Remove(id: nat)
    | Clear
    | Close

  predicate In(s: View, id: nat, p: Phase) { id in s.phase && s.phase[id] == p }

  /** Whether a step can be taken; the reader reads nothing once it has cleared the table. */
  predicate Enabled(s: View, step: Step) {
    match step
    case TakeId => true
    case Register(id) => In(s, id, Numbered)
    case Send(id, _) => In(s, id, Registered)
    case Deliver(_) => s.clearedAt.None?
    case Wake(id) => In(s, id, Waiting) && id !in s.pending
    case TimeOut(id) => In(s, id, Waiting) && id in s.pending
    case Remove(id) => In(s, id, GaveUp)
    case Clear => s.clearedAt.None?
    case Close => s.clearedAt.Some? && !s.closed
  }

  function Next(s: View, step: Step): View
    requires Enabled(s, step)
  {
    match step
    case TakeId => s.(next := s.next + 1, phase := s.phase[s.next := Numbered])
    case Register(id) => s.(phase := s.phase[id := Registered], pending := s.pending + {id})
    case Send(id, gone) =>
      // A refused request returns at once; its entry stays.
      s.(phase := s.phase[id := if s.closed || gone then Done(Refused) else Waiting])
    case Deliver(Heartbeat) => s
    case Deliver(Answer(id, payload)) =>
      if id != 0 && id in s.pending
      then s.(pending := s.pending - {id}, reply := s.reply[id := Answer(id, payload)])
      else s
    case Wake(id) =>
      s.(phase := s.phase[id := Done(if id in s.reply then Replied(s.reply[id]) else Closed)])
    case TimeOut(id) => s.(phase := s.phase[id := GaveUp])
    case Remove(id) => s.(phase := s.phase[id := Done(TimedOut)], pending := s.pending - {id})
    case Clear => s.(pending := {}, clearedAt := Some(s.next))
    case Close => s.(closed := true)
  }

  const START := View(1, map[], {}, map[], false, None)

  /** The state after `steps`; a step not enabled is one its task does not take. */
  function Run(s: View, steps: seq<Step>): View
    decreases |steps|
  {
    if steps == [] then s
    else Run(if Enabled(s, steps[0]) then Next(s, steps[0]) else s, steps[1..])
  }

  /** The shared state, as the tasks change it. */
  class Requests {
    var next: nat
    var phase: map<nat, Phase>
    var pending: set<nat>
    var reply: map<nat, Message>
    var closed: bool
    ghost var clearedAt: Option<nat>

    ghost function State(): View
      reads this
    {
      View(next, phase, pending, reply, closed, clearedAt)
    }

    constructor ()
      ensures State() == START
    {
      next, phase, pending, reply, closed, clearedAt := 1, map[], {}, map[], false, None;
    }

    method TakeNumber() returns (id: nat)
      modifies this
      ensures id == old(next) && State() == Next(old(State()), TakeId)
    {
      id := next;
      next := next + 1;
      phase := phase[id := Numbered];
    }

    method Insert(id: nat)
      requires Enabled(State(), Register(id))
      modifies this
      ensures State() == Next(old(State()), Register(id))
    {
      pending := pending + {id};
      phase := phase[id := Registered];
    }

    method SendOut(id: nat, gone: bool) returns (refused: bool)
      requires Enabled(State(), Send(id, gone))
      modifies this
      ensures State() == Next(old(State()), Send(id, gone)) && refused == (old(closed) || gone)
    {
      refused := closed || gone;
      if refused {
        phase := phase[id := Done(Refused)];
      } else {
        phase := phase[id := Waiting];
      }
    }

    /** The reader's way with one message; `event` is whether the session hears it. */
    method Receive(message: Message) returns (event: bool)
      requires Enabled(State(), Deliver(message))
      modifies this
      ensures State() == Next(old(State()), Deliver(message))
      ensures event <==> message.Answer?
    {
      if message.Heartbeat? { return false; }
      if message.id != 0 && message.id in pending {
        pending := pending - {message.id};
        reply := reply[message.id := message];
        return true;
      }
      return true;
    }

    method Finish(id: nat) returns (outcome: Outcome)
      requires Enabled(State(), Wake(id))
      modifies this
      ensures State() == Next(old(State()), Wake(id)) && phase[id] == Done(outcome)
    {
      outcome := if id in reply then Replied(reply[id]) else Closed;
      phase := phase[id := Done(outcome)];
    }

    method GiveUp(id: nat)
      requires Enabled(State(), TimeOut(id))
      modifies this
      ensures State() == Next(old(State()), TimeOut(id))
    {
      phase := phase[id := GaveUp];
    }

    method Forget(id: nat)
      requires Enabled(State(), Remove(id))
      modifies this
      ensures State() == Next(old(State()), Remove(id))
    {
      pending := pending - {id};
      phase := phase[id := Done(TimedOut)];
    }

    method ClearTable()
      requires Enabled(State(), Clear)
      modifies this
      ensures State() == Next(old(State()), Clear)
    {
      pending := {};
      clearedAt := Some(next);
    }

    method SetClosed()
      requires Enabled(State(), Close)
      modifies this
      ensures State() == Next(old(State()), Close)
    {
      closed := true;
    }
  }

  /** What every step keeps. */
  predicate Inv(s: View) {
    && 1 <= s.next
    && (forall id <- s.phase :: 0 < id < s.next)
    && (forall id <- s.pending :: id in s.phase && s.phase[id] != Numbered && id !in s.reply)
    && (forall id <- s.reply :: id in s.phase && s.phase[id] != Numbered)
    && (forall id <- s.reply :: s.reply[id].Answer? && s.reply[id].id == id)
    && (forall id <- s.phase :: s.phase[id].Done? && s.phase[id].outcome.Replied?
          ==> id in s.reply && s.phase[id].outcome.message == s.reply[id])
    && (s.closed ==> s.clearedAt.Some?)
  }

  lemma StepKeepsInv(s: View, step: Step)
    requires Inv(s) && Enabled(s, step)
    ensures Inv(Next(s, step))
  {
  }

  lemma {:induction false} RunKeepsInv(s: View, steps: seq<Step>)
    requires Inv(s)
    ensures Inv(Run(s, steps))
    decreases |steps|
  {
    if steps != [] {
      if Enabled(s, steps[0]) {
        StepKeepsInv(s, steps[0]);
        RunKeepsInv(Next(s, steps[0]), steps[1..]);
      } else {
        RunKeepsInv(s, steps[1..]);
      }
    }
  }

  /** A request that ended with a reply ended with one that carries its own id. */
  lemma RepliesReachTheirOwn(steps: seq<Step>, id: nat)
    requires id in Run(START, steps).phase && Run(START, steps).phase[id].Done?
    requires Run(START, steps).phase[id].outcome.Replied?
    ensures Run(START, steps).phase[id].outcome.message.Answer?
    ensures Run(START, steps).phase[id].outcome.message.id == id
  {
    RunKeepsInv(START, steps);
  }

  /**
   A reply changes nothing for any request but the one whose id it carries, and something for that
   one only while it waits in the table; with a poll's id, nothing at all while fewer than 2^40
   requests were made.
   */
  lemma AReplyWakesAtMostItsOwn(steps: seq<Step>, id: nat, payload: nat)
    requires Run(START, steps).clearedAt.None?
    ensures
      var s := Run(START, steps);
      var t := Next(s, Deliver(Answer(id, payload)));
      && t.phase == s.phase && t.next == s.next
      && (forall other :: other != id ==>
            (other in t.pending <==> other in s.pending)
            && (other in t.reply <==> other in s.reply)
            && (other in s.reply ==> t.reply[other] == s.reply[other]))
      && (id !in s.pending ==> t == s)
      && (id in s.pending ==> id !in s.reply && id !in t.pending
                              && id in t.reply && t.reply[id] == Answer(id, payload))
    ensures id == POLL_REQUEST && Run(START, steps).next <= POLL_REQUEST
      ==> Next(Run(START, steps), Deliver(Answer(id, payload))) == Run(START, steps)
  {
    RunKeepsInv(START, steps);
  }

  /** Once the reader has cleared the table. */
  predicate AfterClear(s: View, before: set<nat>, replies: map<nat, Message>) {
    && s.clearedAt.Some? && s.reply == replies
    && (forall id <- before :: id in s.phase && s.phase[id] != Numbered && id !in s.pending)
  }

  lemma {:induction false} AfterClearHolds(
    s: View, before: set<nat>, replies: map<nat, Message>, steps: seq<Step>)
    requires AfterClear(s, before, replies)
    requires forall id <- s.phase :: id < s.next
    ensures AfterClear(Run(s, steps), before, replies)
    decreases |steps|
  {
    if steps != [] {
      if Enabled(s, steps[0]) {
        AfterClearHolds(Next(s, steps[0]), before, replies, steps[1..]);
      } else {
        AfterClearHolds(s, before, replies, steps[1..]);
      }
    }
  }

  /**
   The reader's last clear leaves no waiter behind: whoever had registered by then is out of the
   table for good, so a wait still on is one that can wake at once, and one that starts later wakes
   at once too.
   */
  lemma ClearLeavesNoWaiter(before: seq<Step>, after: seq<Step>, id: nat)
    requires Enabled(Run(START, before), Clear)
    requires id in Run(START, before).phase && Run(START, before).phase[id] != Numbered
    ensures
      var t := Run(Next(Run(START, before), Clear), after);
      && id in t.phase && id !in t.pending
      && !Enabled(t, TimeOut(id)) && (In(t, id, Waiting) ==> Enabled(t, Wake(id)))
  {
    var s := Run(START, before);
    RunKeepsInv(START, before);
    var registered := set i | i in s.phase && s.phase[i] != Numbered;
    AfterClearHolds(Next(s, Clear), registered, s.reply, after);
  }

  /**
   A request registered after the clear is never answered: the only ways it can end are the refusal
   by `send`, once the channel is marked closed or its writer is gone, and its own time-out.
   */
  lemma AfterTheClearRefusedOrTimedOut(
    before: seq<Step>, after: seq<Step>, id: nat, outcome: Outcome)
    requires Enabled(Run(START, before), Clear)
    requires id !in Run(START, before).phase || Run(START, before).phase[id] == Numbered
    requires In(Run(Next(Run(START, before), Clear), after), id, Done(outcome))
    ensures outcome in {Refused, TimedOut}
  {
    var s := Run(START, before);
    RunKeepsInv(START, before);
    LateRequest(Next(s, Clear), id, after);
  }

  /** A request that registers after the clear is in the table until it gives up or is refused. */
  predicate Late(s: View, id: nat) {
    && s.clearedAt.Some? && (forall i <- s.phase :: i < s.next)
    && (id in s.phase ==>
          match s.phase[id]
          case Numbered => true
          case Registered => id in s.pending
          case Waiting => id in s.pending
          case GaveUp => true
          case Done(outcome) => outcome in {Refused, TimedOut})
  }

  lemma {:induction false} LateRequest(s: View, id: nat, steps: seq<Step>)
    requires Late(s, id)
    ensures Late(Run(s, steps), id)
    decreases |steps|
  {
    if steps != [] {
      if Enabled(s, steps[0]) {
        LateRequest(Next(s, steps[0]), id, steps[1..]);
      } else {
        LateRequest(s, id, steps[1..]);
      }
    }
  }
}
