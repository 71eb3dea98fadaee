/**
 What each TV played and refused (crates/anistream-cast/src/memory.rs). Times are Unix seconds.
 */
module Memory {
  import opened Bytes
  import opened Formats

  /** How long a refusal is believed. */
  const REFUSAL_KEPT: int := 30 * 24 * 60 * 60

  /** What is learned of one TV; its id, name, model and volume are not part of this model. */
  datatype Caps = Caps(firmware: Option<string>, formats: Answers, relayedLast: bool)

  const BLANK := Caps(None, map[], false)

  // ----- What each kind of news does to a TV's record -----

  function Remembered(caps: Caps, part: Part, played: bool, at: int): Caps {
    caps.(formats := caps.formats[part := Answer(played, at)])
  }

  function AllPlayed(known: Answers, parts: seq<Part>, at: int): Answers
    decreases parts
  {
    if parts == [] then known
    else AllPlayed(known[parts[0] := Answer(true, at)], parts[1..], at)
  }

  /** The part a refusal is blamed on: the first not known to play. */
  function FirstUnplayed(known: Answers, parts: seq<Part>): Option<Part> {
    if parts == [] then None
    else if !Played(known, parts[0]) then Some(parts[0])
    else FirstUnplayed(known, parts[1..])
  }

  function Recorded(caps: Caps, plan: CastPlan, played: bool, at: int): Caps {
    var blamed := FirstUnplayed(caps.formats, Parts(plan));
    var formats :=
      if played then AllPlayed(caps.formats, Parts(plan), at)
      else if blamed.Some? then caps.formats[blamed.value := Answer(false, at)]
      else caps.formats;
    caps.(formats := formats, relayedLast := plan.route.Relayed?)
  }

  /** The part a stall is blamed on: a copied audio codec not known to play. */
  function StallBlame(known: Answers, plan: CastPlan): Option<Part> {
    match AudioPartOf(plan)
    case Some(part) => if Played(known, part) then None else Some(part)
    case None => None
  }

  function Stalled(caps: Caps, plan: CastPlan, at: int): Caps {
    match StallBlame(caps.formats, plan)
    case Some(part) => Remembered(caps, part, false, at)
    case None => caps
  }

  function Believed(known: Answers, now: int): Answers {
    map part | part in known && (known[part].played || now - known[part].at < REFUSAL_KEPT) :: known[part]
  }

  function Expired(caps: Caps, now: int): Caps { caps.(formats := Believed(caps.formats, now)) }

  function OnlyPlayed(known: Answers): Answers {
    map part | part in known && known[part].played :: known[part]
  }

  /** A changed firmware drops every refusal. */
  function Met(caps: Caps, firmware: Option<string>): Caps {
    if firmware.None? then caps
    else
      var changed := caps.firmware.Some? && caps.firmware != firmware;
      Caps(firmware, if changed then OnlyPlayed(caps.formats) else caps.formats, caps.relayedLast)
  }

  // ----- The memory -----

  function CapsOf(tvs: map<string, Caps>, id: string): Caps {
    if id in tvs then tvs[id] else BLANK
  }

  class CastMemory {
    var tvs: map<string, Caps>

    constructor ()
      ensures tvs == map[]
    {
      tvs := map[];
    }

    /** What is known of a TV, the refusals that have expired dropped for good. */
    method Caps(id: string, now: int) returns (caps: Caps)
      modifies this
      ensures caps == Expired(CapsOf(old(tvs), id), now)
      ensures tvs == if id in old(tvs) then old(tvs)[id := caps] else old(tvs)
    {
      if id in tvs {
        caps := Expired(tvs[id], now);
        tvs := tvs[id := caps];
      } else {
        caps := BLANK;
      }
    }

    method Seen(id: string, firmware: Option<string>)
      modifies this
      ensures tvs == old(tvs)[id := Met(CapsOf(old(tvs), id), firmware)]
    {
      var caps := CapsOf(tvs, id);
      if firmware.Some? {
        if caps.firmware.Some? && caps.firmware.value != firmware.value {
          caps := caps.(formats := OnlyPlayed(caps.formats));
        }
        caps := caps.(firmware := firmware);
      }
      tvs := tvs[id := caps];
    }

    method Record(id: string, plan: CastPlan, played: bool, now: int)
      modifies this
      ensures tvs == old(tvs)[id := Recorded(CapsOf(old(tvs), id), plan, played, now)]
    {
      var caps := CapsOf(tvs, id);
      var parts := Parts(plan);
      if played {
        ghost var want := AllPlayed(caps.formats, parts, now);
        for i := 0 to |parts|
          invariant AllPlayed(caps.formats, parts[i..], now) == want
          invariant caps.firmware == CapsOf(tvs, id).firmware
          invariant tvs == old(tvs)
        {
          assert parts[i..][1..] == parts[i + 1..];
          caps := Remembered(caps, parts[i], true, now);
        }
      } else {
        var i := 0;
        while i < |parts| && Played(caps.formats, parts[i])
          invariant i <= |parts|
          invariant FirstUnplayed(caps.formats, parts[i..]) == FirstUnplayed(caps.formats, parts)
        {
          assert parts[i..][1..] == parts[i + 1..];
          i := i + 1;
        }
        if i < |parts| {
          caps := Remembered(caps, parts[i], false, now);
        }
      }
      tvs := tvs[id := caps.(relayedLast := plan.route.Relayed?)];
    }

    method RecordStall(id: string, plan: CastPlan, now: int) returns (blamed: Option<Part>)
      modifies this
      ensures blamed == StallBlame(CapsOf(old(tvs), id).formats, plan)
      ensures tvs == old(tvs)[id := Stalled(CapsOf(old(tvs), id), plan, now)]
    {
      var caps := CapsOf(tvs, id);
      tvs := tvs[id := caps];
      var part := AudioPartOf(plan);
      if part.None? || Played(caps.formats, part.value) { return None; }
      tvs := tvs[id := Remembered(caps, part.value, false, now)];
      return part;
    }

    method Note(id: string, part: Part, played: bool, now: int)
      modifies this
      ensures tvs == old(tvs)[id := Remembered(CapsOf(old(tvs), id), part, played, now)]
    {
      tvs := tvs[id := Remembered(CapsOf(tvs, id), part, played, now)];
    }
  }

  // ----- What playing and refusing come to -----

  lemma {:induction false} AllPlayedPlays(known: Answers, parts: seq<Part>, at: int)
    ensures forall part <- parts :: Played(AllPlayed(known, parts, at), part)
    ensures forall part :: Played(known, part) ==> Played(AllPlayed(known, parts, at), part)
    ensures forall part | part in AllPlayed(known, parts, at) :: part in known || part in parts
    ensures forall part | Refused(AllPlayed(known, parts, at), part) :: Refused(known, part)
    decreases parts
  {
    if parts != [] {
      AllPlayedPlays(known[parts[0] := Answer(true, at)], parts[1..], at);
      assert parts == [parts[0]] + parts[1..];
      assert Played(known[parts[0] := Answer(true, at)], parts[0]);
    }
  }

  lemma {:induction false} FirstUnplayedIs(known: Answers, parts: seq<Part>)
    ensures FirstUnplayed(known, parts).None? <==> forall part <- parts :: Played(known, part)
    ensures FirstUnplayed(known, parts).Some? ==>
      && FirstUnplayed(known, parts).value in parts
      && !Played(known, FirstUnplayed(known, parts).value)
  {
    if parts != [] && Played(known, parts[0]) {
      FirstUnplayedIs(known, parts[1..]);
      assert parts == [parts[0]] + parts[1..];
    }
  }

  /** Every answer kept is for a part that a TV can teach anything about. */
  ghost predicate OnlyTeachable(known: Answers) { forall part <- known :: Teachable(part) }
}
