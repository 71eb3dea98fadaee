# Casting a stream to a TV: a model and its proofs

This project models the Rust crate `crates/anistream-cast`, which casts an anime stream to a Cast
receiver, and proves what the crate's parts promise one another. Every statement is about all inputs,
all runs or all interleavings. `dafny verify dfyconfig.toml` checks everything.

## What is modelled

**The remuxer** (`Segments`, `Timing`, `CopiedSound`, `Fragment`, `FragmentReader`, `Presented`,
`WholeFile`, `Encode`, `LateEncoder`, over `Mkv`, `Laces`, `Clusters`). A Matroska file is cut at its cues into HLS segments on demand. The
segments partition the file; decode times found by sorting put every frame at its own time; a reader
of ISO/IEC 14496-12, written here from the standard, recovers every field and payload of the bytes.
`Presented.SegmentsShowTheFile` joins the three: what a player shows of all the segments' bytes is
the file's video, every frame once and on time; `WholeFile.FileInSegmentsOut` reads that file from
its bytes and plans it from its cues. Audio re-encoded by a running encoder is fed once and
in order under any sequence of requests. The Matroska reader is proved against printers written here
from RFC 8794 and RFC 9559.

**The plan ladder** (`Formats`, `Memory`, `Ladder`, `Attempt`). What a TV played and refused is
remembered by format part. A part known to play is never marked refused, so a stream once cast on a
TV stays castable there; skipping plans as a load goes on is the same as planning anew; each refusal
that teaches anything gets nearer the end.

**The player** (`Player`, `Launch`). An event machine whose trace keeps its shape over every
interleaving, and the race of launching the receiver app against quitting.

**The relay and the file behind it** (`SourceWait`, `Fetch`, `Playlist`, `Relay`). The counters a
verdict on a TV is read from, a read-ahead file that refines the plain file, playlist rewriting that
keeps a master's meaning, and addresses that lead back to what they stand for.

**The codecs** (`Proto`, `Channel`, `VttText`, `Vtt`). The hand-written protobuf, framing, request and
reply matching, and ASS to WebVTT with a reader of the result.

`Bytes`, `Strings` and `Sorting` hold what these share. Code that changes state is a class or a loop
tied by its contract to a function; the theorems are about those functions. Steps of concurrent code
are single atomic reads, writes or critical sections, and runs are sequences of them.

## Where the code falls short of the plainest promise

These are results: each has the exact condition under which the promise holds, and an input for which
it does not.

- An app can be orphaned. A load aborted while its launch is out frees the launching lock, so two
  launches can be in flight, and the second answer overwrites the first app
  (`Launch.TwoLaunchesOrphanOne`). The apps left are exactly the overwritten ones
  (`Launch.OrphansAreTheOverwritten`). LAUNCH joins an app that runs already, so the two are then
  the same one and none is left.
- A slow wait that wrote its trouble before a reset and ended after it goes unseen
  (`SourceWait.AStraddlerIsMissed`), and exactly such ones do (`SourceWait.OnlyStraddlersAreMissed`).
- A failed load says `Ended` without looking whether it was said, so two can follow one load
  (`Player.FailureEndsAgain`), and never three (`Player.SaidInOrder`). There is never a second one
  exactly when no load fails in a cast that has ended while the session hears
  (`Player.OneEndedExactly`).
- A remote file whose first answer names no size ends where that answer did (`Fetch.OpenShort`), unless
  it brought everything (`Fetch.RemoteFile.Open`).
- A continued segment's base time follows from the one before if and only if that one's first unit
  rounds to zero or later (`Encode.ContinuedBaseFollows`), because times below zero are raised to
  zero. A fresh segment's units are trimmed and always do (`Encode.TrimmedStartsInTime`); a continued
  one's need not (`LateEncoder.ABaseThatDoesNotFollow`).
- A sample is decoded and presented at its time exactly while no gap before it exceeds 32 bits
  (`Timing.PlayedAtItsTime`, `Timing.PresentedAtItsOwnTime`, `Timing.AWideGapIsCut`), and offsets sum
  to zero exactly when no time was clamped (`Timing.OffsetsSumToZero`, `Timing.AClampedTimeShows`).
- An EBML lace that says one frame yields two (`Laces.LacesLoseNothing`, `Laces.OneIsTwo`).

## Model

| member | source | states |
|---|---|---|
| Segments.Plan | crates/anistream-cast/src/remux.rs:269-301 | the plan `open` makes: which of its two errors comes when (no cue for the video, before no duration), and otherwise the greedy cut and the keys a lead-in may start at |
| Segments.KeysIncrease | crates/anistream-cast/src/remux.rs:269-290 | sorting and deduplicating leaves keys with strictly rising times, the first of them at 0 |
| Segments.PlanCovers | crates/anistream-cast/src/remux.rs:269-301 | the segments follow one another with no gap from 0 to the duration or past it, each starts at a key in the cluster that key names, and each ends at the first key a target away or at the end of the file |
| Segments.ReadSegment | crates/anistream-cast/src/remux.rs:438-478 | the loop that collects a segment's video and audio, its early stops included |
| Segments.ReadsBetweenKeys | crates/anistream-cast/src/remux.rs:456-464 | of any blocks, a segment's video is what lies from the first keyframe at its start or later to the first at its end or later |
| Segments.ReadsItsAudio | crates/anistream-cast/src/remux.rs:465-478 | with audio in order, stopping early loses none of the audio in range |
| Segments.SameFromAnyKey | crates/anistream-cast/src/remux.rs:438-447 | a segment's video is the same from the cluster of any key at or before its start |
| Segments.SegmentsPartitionTheVideo | crates/anistream-cast/src/remux.rs:440-478 | the segments' video, one after another, is the file's from the first keyframe to the first one at or past the end, wherever each is read from |
| Segments.SegmentsPartitionTheAudio | crates/anistream-cast/src/remux.rs:465-478 | the same of copied audio, the priming frames below zero in the first segment |
| Timing.SampleTable | crates/anistream-cast/src/remux.rs:483-506 | the whole sample table and its base time |
| Timing.PlayedAtItsTime | crates/anistream-cast/src/remux.rs:483-504 | base plus the durations before a sample is its decode time exactly while every gap before it fits 32 bits, and less otherwise |
| Timing.PresentedAtItsOwnTime | crates/anistream-cast/src/remux.rs:483-504 | base, durations and composition offset add up to the frame's own time, a clamped one too, exactly while every gap before it fits 32 bits |
| Timing.AWideGapIsCut | crates/anistream-cast/src/remux.rs:491-496 | two frames 2^32 ticks apart, of which the second is decoded and presented too early |
| Timing.DurationsSpanTheSegment | crates/anistream-cast/src/remux.rs:491-496 | durations add up to the segment: from its first decode time to its end |
| Timing.OffsetsSumToZero | crates/anistream-cast/src/remux.rs:485-502 | the composition offsets sum to zero if and only if no time was clamped |
| Timing.AClampedTimeShows | crates/anistream-cast/src/remux.rs:485-502 | a frame before zero whose segment's offsets do not sum to zero |
| Timing.SegmentsAbut | crates/anistream-cast/src/remux.rs:485-496 | a segment whose frames lie inside it, one exactly at its start, plays from exactly its start to exactly its end |
| CopiedSound.SoundKeepsPace | crates/anistream-cast/src/remux.rs:526-547 | copied audio whose frames say how long they last keeps the distance its first frame has from the truth: rounding never adds up |
| CopiedSound.SegmentsOfSoundMeet | crates/anistream-cast/src/remux.rs:526-547 | so from one segment of a track to the next there is a gap or an overlap of less than two of the file's ticks and a sample, wherever the cut lies |
| CopiedSound.SoundFallsBehind | crates/anistream-cast/src/remux.rs:535-547 | copied audio whose frames do not say is never ahead of its own times, and behind by less than a sample a frame |
| Fragment.BuildMoof | crates/anistream-cast/src/remux.rs:617-641 | the `moof` for given offsets, box by box and entry by entry |
| Fragment.PassOwn | crates/anistream-cast/src/remux.rs:643-650 | passing one track's payloads, however many there are |
| Fragment.LayOut | crates/anistream-cast/src/remux.rs:642-650 | each track's data offset |
| Fragment.Fragment | crates/anistream-cast/src/remux.rs:615-660 | the two passes and the `mdat`: the fragment's bytes |
| FragmentReader.MoofLength | crates/anistream-cast/src/remux.rs:642 | the `moof` is as long whatever offsets it holds, so the first pass tells the second's |
| FragmentReader.DataOffsetIs | crates/anistream-cast/src/remux.rs:643-650 | each data offset is where the payloads of the tracks before it end |
| FragmentReader.FragmentReadsBack | crates/anistream-cast/src/remux.rs:615-684 | a reader of ISO/IEC 14496-12 (sections 4.2, 8.8.7, 8.8.8, 8.8.12) that knows the types and takes from the flag bits which fields are there recovers every track's id, base time, exact payloads and, for each sample, its duration, size, offset and whether it is a sync sample and depends on others |
| Presented.SegmentShowsItsFrames | crates/anistream-cast/src/remux.rs:483-506 | end to end for a segment: a reader of its bytes shows its frames and no others, each with its own bytes, at the time its file says, shifted, and a sync sample (sample_is_non_sync_sample clear) exactly when it is a key frame |
| Presented.SegmentSpansItsTime | crates/anistream-cast/src/remux.rs:485-496 | such a reader plays a segment from exactly its start to exactly its end |
| Presented.SegmentsShowTheFile | crates/anistream-cast/src/remux.rs:415-557 | end to end for a file: reading every segment's bytes shows the file's video, every frame once, in order and on time, from whichever key each segment was read |
| WholeFile.ReadSegmentBytes | crates/anistream-cast/src/remux.rs:448-480 | the reading half of a segment over the file's bytes: what `BytesRead` says, or the first error before it stops reading |
| WholeFile.BytesRead | crates/anistream-cast/src/remux.rs:448-480 | read from a printed file's bytes at any of its clusters, a segment is what it is read from that file's blocks, with no error |
| WholeFile.FileInSegmentsOut | crates/anistream-cast/src/remux.rs:269-557 | bytes in, bytes out: of a file planned from its cues and read from its bytes at any of the plan's keys, a reader of the segments' bytes is shown the file's video from its first keyframe to the plan's end, its duration or later |
| Encode.Remuxer.EncodeAudio | crates/anistream-cast/src/remux.rs:559-604 | the running encoder taken, fed, flushed, trimmed and put back; any error leaves none |
| Encode.Remuxer.FeedAll | crates/anistream-cast/src/remux.rs:584-589 | only the frames past the last one fed are pushed, in order, up to an error |
| Encode.Remuxer.Segment | crates/anistream-cast/src/remux.rs:415-481 | where a segment is read from, and what state and outcome a request leaves |
| Encode.LeadInClear | crates/anistream-cast/src/remux.rs:428-447 | a run's audio is all the file's from its lead-in on exactly when none of that lies before the cluster the run is read from; none does when the lead-in stays at 0 or above or the segment starts at 0 |
| Encode.EachFrameFedOnce | crates/anistream-cast/src/remux.rs:425-455 | over any sequence of requests, repeats, jumps and failures included, a running encoder was fed exactly once and in order the audio of its run, of all that is read from where it began: from a lead-in before its first segment to the end of the last |
| Encode.AllTheFileIsFed | crates/anistream-cast/src/remux.rs:425-455 | that is all the file's audio there, unless the run began at a segment whose lead-in reaches below 0 |
| Encode.NoneSurvives | crates/anistream-cast/src/remux.rs:568-604 | no encoder survives an encode error or the last segment; any other failure leaves the state alone |
| Encode.ContinuedBaseFollows | crates/anistream-cast/src/remux.rs:510-512 | with units 1024 samples apart, in any file, a continued segment's `tfdt` is the previous one's plus 1024 a unit if and only if that one's first unit rounds to zero or later |
| LateEncoder.ABaseThatDoesNotFollow | crates/anistream-cast/src/remux.rs:510-512 | a file, an encoder and three requests after which it does not |
| Encode.TrimmedStartsInTime | crates/anistream-cast/src/remux.rs:592-596 | a fresh encoder's trimmed units always do |
| Mkv.ReadVint | crates/anistream-cast/src/mkv.rs:79-96 | a number, its length, whether it says unknown, and each error: what `VintReads` prints |
| Mkv.VintReads | crates/anistream-cast/src/mkv.rs:79-96 | a number printed in any width that holds it reads back (RFC 8794, section 4) |
| Mkv.ReadXiph | crates/anistream-cast/src/mkv.rs:366-379 | the sizes of a Xiph lace |
| Mkv.ReadDelta | crates/anistream-cast/src/mkv.rs:386-389 | one signed delta of an EBML lace |
| Mkv.ReadEbml | crates/anistream-cast/src/mkv.rs:380-392 | the sizes of an EBML lace, its running size within 64 signed bits at every step |
| Mkv.DeltasFit | crates/anistream-cast/src/mkv.rs:383-390 | every size of an EBML lace of up to 256 frames fits 64 signed bits |
| Mkv.ReadSizes | crates/anistream-cast/src/mkv.rs:358-397 | the sizes of any lace, and where its frames begin |
| Mkv.Split | crates/anistream-cast/src/mkv.rs:398-405 | dealing the bytes out to the frames, short ones when bytes run out |
| Mkv.ReadFrames | crates/anistream-cast/src/mkv.rs:357-406 | the frames of a block behind its flags |
| Mkv.ReadBlock | crates/anistream-cast/src/mkv.rs:348-412 | a block's frames with its track, signed time and key flag, and each error: what `Laces.BlockReadsBack` prints |
| Laces.LacesLoseNothing | crates/anistream-cast/src/mkv.rs:357-406 | whatever a lace says, its frames one after another are the bytes after its head, and they are as many as it says, two where an EBML lace says one |
| Laces.LacesReadBack | crates/anistream-cast/src/mkv.rs:357-406 | Xiph, EBML (signed deltas, any widths) and fixed-size laces, printed under the bits the standard gives each, parse back to the frames laced (RFC 9559, section 10.3) |
| Laces.BlockReadsBack | crates/anistream-cast/src/mkv.rs:348-412 | a printed block reads back with its track, its signed time and its key flag, whatever the other bits of its flags |
| Laces.OneIsTwo | crates/anistream-cast/src/mkv.rs:380-405 | any EBML lace that says one frame gives two: one of the size read and one of what is left |
| Clusters.ReadElement | crates/anistream-cast/src/mkv.rs:99-103 | an element's id, size, head length and unknown mark, as `ChildrenReadBack` prints them |
| Clusters.ReadChildren | crates/anistream-cast/src/mkv.rs:122-133 | every child with its id and body, one that overruns cut at the end of its parent, or the first error |
| Clusters.ChildrenReadBack | crates/anistream-cast/src/mkv.rs:122-133 | a printed master's children read back, ids and bodies in order (RFC 8794, section 6) |
| Clusters.ReadBlocks | crates/anistream-cast/src/mkv.rs:301-345 | the blocks of cluster after cluster handed out one by one until they are wanted no more, an error comes or an element is no cluster; the blocks are those `ReadsFromAnyCluster` names |
| Clusters.ReadsFromAnyCluster | crates/anistream-cast/src/mkv.rs:301-345 | from any cluster of a file, exactly the blocks of that cluster and all after it |
| Formats.MakePlans | crates/anistream-cast/src/formats.rs:453-571 | the plans in order, or why there are none: the list that `Ladder.ReplanningIsSkipping` and `Ladder.OncePlayedNeverUncastable` are about |
| Formats.LeaveOut | crates/anistream-cast/src/formats.rs:545-550 | the refused plans left out, and the first refused part of each |
| Formats.NamesTellPartsApart | crates/anistream-cast/src/formats.rs:78-80 | no two parts share a name, so a map keyed by names is one keyed by parts |
| Formats.PrefixTells | crates/anistream-cast/src/formats.rs:552-558 | a part's name starts with a video format's and a slash exactly when it is that format's part |
| Formats.AudioPrefixTells | crates/anistream-cast/src/formats.rs:553-560 | and with an audio codec's and a slash exactly when it is that codec's part; none does for a codec never copied |
| Memory.CastMemory.Caps | crates/anistream-cast/src/memory.rs:166-177 | the record without its expired refusals, which are dropped for good |
| Memory.CastMemory.Seen | crates/anistream-cast/src/memory.rs:180-205 | a changed firmware drops every refusal and nothing else |
| Memory.CastMemory.Record | crates/anistream-cast/src/memory.rs:67-79 | every part played, or the first part not known to play refused |
| Memory.CastMemory.RecordStall | crates/anistream-cast/src/memory.rs:84-88 | only a copied audio codec not known to play is blamed |
| Ladder.PlayedStaysPlayed | crates/anistream-cast/src/memory.rs:67-93 | over any run of casts, stalls, refusals, clips, expiries and firmware changes a part known to play is never marked refused nor forgotten |
| Ladder.RefusalNeedsAFairTry | crates/anistream-cast/src/player.rs:1257-1272 | only a fair try marks a part refused, only a part of what was tried, and only one nothing was known of |
| Ladder.NeverTaughtUnfairly | crates/anistream-cast/src/player.rs:1257-1272 | however the relay's waits interleave with a verdict's reads, a newly refused part means media was asked for and no wait was still on or had said it went badly |
| Ladder.OncePlayedNeverUncastable | crates/anistream-cast/src/formats.rs:453-571 | a plan that has played is offered after any later run or, where it turned the audio to AAC, its copy is |
| Ladder.ReplanningIsSkipping | crates/anistream-cast/src/player.rs:1038-1043 | after a load's refusals, planning anew gives the earlier list without the plans holding a refused part |
| Ladder.RefusalsTeach | crates/anistream-cast/src/memory.rs:67-88 | a try held against a plan that changes the memory leaves that plan out and strictly fewer parts unknown, and one that changes nothing was unfair or could blame only parts known to play |
| Ladder.TheReasonIsTrue | crates/anistream-cast/src/formats.rs:545-570 | the reason given when nothing is left names a part that is refused; a container only when each plan's is |
| Attempt.Try | crates/anistream-cast/src/player.rs:996-1100 | an attempt: its outcome, the audio tracks it offers, what the TV's record becomes through every reading of it, and that no other TV's changes |
| Attempt.OfferAudio | crates/anistream-cast/src/player.rs:1117-1144 | the audio tracks offered, and the reading of the record it takes |
| Attempt.TracksOffered | crates/anistream-cast/src/player.rs:1117-1144 | the tracks offered are exactly those a remux could carry as far as is then known, in order, each once |
| Attempt.ClimbPlans | crates/anistream-cast/src/player.rs:1036-1096 | the loop over the plans, each turn seeing what the ones before it taught |
| Attempt.PlayTurn | crates/anistream-cast/src/player.rs:1038-1071 | one plan: skipped if refused by now, asked about with a clip, staged and tried |
| Attempt.TryStaged | crates/anistream-cast/src/player.rs:1073-1094 | what a try that played or did not teaches |
| Attempt.AskWithClip | crates/anistream-cast/src/player.rs:1163-1194 | the clip's answer noted, and whether to go on |
| Attempt.AttemptKeepsTheRules | crates/anistream-cast/src/player.rs:1038-1096 | every attempt is a run the memory's theorems speak of, a clip asked only about a picture not known to play; and when it says a plan plays, that plan was offered and its every part is known to play |
| Attempt.OnceCastAlwaysCastable | crates/anistream-cast/src/player.rs:996-1100 | a stream once cast on a TV has plans there after any further casts, lookups and firmware changes |
| Player.CastPlayer.Start | crates/anistream-cast/src/player.rs:562-575 | a load asked for: what is forgotten, and that nothing else is |
| Player.CastPlayer.Play | crates/anistream-cast/src/player.rs:579-593 | its end with a plan playing, the last status applied |
| Player.CastPlayer.Fail | crates/anistream-cast/src/player.rs:594-599 | its end with none, `Ended` said without a guard |
| Player.CastPlayer.Apply | crates/anistream-cast/src/player.rs:1388-1440 | a status applied: the whole new state and exactly what is said, in the order `SaidInOrder` speaks of |
| Player.CastPlayer.Receive | crates/anistream-cast/src/player.rs:1481-1531 | one message: a receiver status with its level and mute that may have lost our app, a close of our connection, a media error noted, or a media status held back while a load is tried |
| Player.CastPlayer.NoteVolume | crates/anistream-cast/src/player.rs:1443-1455 | the level, or that it is muted, said when it moved |
| Player.CastPlayer.EndCast | crates/anistream-cast/src/player.rs:1534-1547 | a cast that is over is closed once, its reason kept, and `Ended` said unless it was |
| Player.CastPlayer.ChannelClosed | crates/anistream-cast/src/player.rs:1464-1478 | the connection lost: closed once, a reason already there kept, `Ended` said unless it was |
| Player.CastPlayer.CloseIdle | crates/anistream-cast/src/player.rs:1571-1577 | an idle cast closed, `Ended` said unless it was |
| Player.NothingSaidTwice | crates/anistream-cast/src/player.rs:1422-1440 | over every run, reloads included, `Buffering` alternates from true, and equal `Paused` or `Speed` repeat only across a `Loaded` |
| Player.SaidInOrder | crates/anistream-cast/src/player.rs:1388-1440 | over every run without a reload of our own, nothing of playback is said between a load and its `Loaded`, after a `Loaded` at most one `Ended` comes before the next load or `Loaded`, and after a load at most two; when one is all, `Player.OneEndedExactly` says |
| Player.OneEndedExactly | crates/anistream-cast/src/player.rs:579-599 | over every such run, no load and no `Loaded` is ever followed by a second `Ended` if and only if no load fails where the cast has ended already and the session still hears: the guard the failure arm lacks |
| Player.FailureEndsAgain | crates/anistream-cast/src/player.rs:594-599 | a second one is reached: a run in which the unguarded `Ended` repeats `end_cast`'s |
| Player.NothingAfterQuit | crates/anistream-cast/src/player.rs:773-783 | once quit is done nothing more is said |
| Launch.Launcher.Answer | crates/anistream-cast/src/player.rs:408-421 | a launch's answer registered, or closed again after a quit, in one critical section |
| Launch.Launcher.Close | crates/anistream-cast/src/player.rs:828-840 | the app in force taken and sent a STOP |
| Launch.Launcher.Quit | crates/anistream-cast/src/player.rs:773-783 | `quit` set, then the app closed |
| Launch.OrphansAreTheOverwritten | crates/anistream-cast/src/player.rs:401-424 | in every interleaving, once quit and all launches are done, the apps left with no STOP are exactly those another took the place of and that were not put back |
| Launch.NothingLost | crates/anistream-cast/src/player.rs:401-424 | none is, when no app put in force finds another there |
| Launch.NoneOrphaned | crates/anistream-cast/src/player.rs:401-424 | no app is orphaned when no launch begins while another is in flight |
| Launch.TwoLaunchesOrphanOne | crates/anistream-cast/src/player.rs:401-424 | a load aborted mid-launch and a second launch leave the first app on the TV when the two differ, and none when they are the same |
| SourceWait.Shared.Begin | crates/anistream-cast/src/relay.rs:95-98 | a wait counted |
| SourceWait.Shared.Failed | crates/anistream-cast/src/relay.rs:101-103 | trouble written |
| SourceWait.Shared.Drop | crates/anistream-cast/src/relay.rs:106-114 | a drop's three writes, if nothing runs between them |
| SourceWait.CounterCountsTheLive | crates/anistream-cast/src/relay.rs:88-114 | over every interleaving of single reads and writes the counter is the number of live waits |
| SourceWait.AFairVerdictMissesNone | crates/anistream-cast/src/relay.rs:270-287 | a verdict that saw neither busy nor trouble missed no wait that had said it went badly since the reset; one that saw trouble saw some wait's |
| SourceWait.OnlyStraddlersAreMissed | crates/anistream-cast/src/relay.rs:270-287 | under a verdict neither busy nor troubled, a wait ended badly since the reset, and so went unseen, just when it wrote its trouble before the reset's own store and left behind it |
| SourceWait.AStraddlerIsMissed | crates/anistream-cast/src/relay.rs:106-114 | such a wait exists: it writes before the reset and leaves after it |
| Fetch.ReadPrefix | crates/anistream-cast/src/fetch.rs:53-62 | the body's first bytes, or the failure of a chunk before them |
| Fetch.PrefixIsPrefix | crates/anistream-cast/src/fetch.rs:53-62 | of a body that does not fail, exactly its first `limit` bytes |
| Fetch.ARightAnswerServes | crates/anistream-cast/src/fetch.rs:245-268 | a right answer, short or not, is accepted and holds the resource's bytes |
| Fetch.RemoteFile.Fetch | crates/anistream-cast/src/fetch.rs:245-268 | the buffer and the size said, or an error that changes neither |
| Fetch.RemoteFile.Open | crates/anistream-cast/src/fetch.rs:222-240 | the size is the resource's exactly when the first answer says it or brings all of it |
| Fetch.OpenShort | crates/anistream-cast/src/fetch.rs:222-268 | a resource of two bytes, served one at a time and without a size, opens as a file of one |
| Fetch.RemoteFile.Cover | crates/anistream-cast/src/fetch.rs:280-283 | reading ahead only when the position is not buffered |
| Fetch.RemoteFile.Read | crates/anistream-cast/src/fetch.rs:272-293 | the resource's bytes at the position, at least one before the end, none from there on; an error moves nothing |
| Fetch.RemoteFile.Seek | crates/anistream-cast/src/fetch.rs:297-311 | each kind of seek, and the error before the start |
| Fetch.RemoteFile.ReadExact | crates/anistream-cast/src/fetch.rs:271-293 | repeated reads bring every byte asked for up to the end, however short the answers |
| Fetch.Drive | crates/anistream-cast/src/fetch.rs:271-311 | any sequence of reads and seeks gives what the plain file would, the buffer mirroring it throughout |
| Playlist.ResolvedHasScheme | crates/anistream-cast/src/relay.rs:775-791 | a reference resolved against an address with a scheme has one |
| Playlist.RewritePlaylist | crates/anistream-cast/src/relay.rs:750-772 | each address and each tag's URI led through the relay, everything else kept: the text `RewritingKeepsTheVariant` is about |
| Playlist.ReadAttribute | crates/anistream-cast/src/probe.rs:162-179 | the value `AttributeReadsBack` finds, or none where a quote does not close |
| Playlist.AttributeReadsBack | crates/anistream-cast/src/probe.rs:162-179 | of a printed attribute list it finds the first of a name, quoted or not, whatever its case (section 4.2 of RFC 8216) |
| Playlist.ReadBestVariant | crates/anistream-cast/src/probe.rs:142-159 | the variant with the most bandwidth, the first of equals, with its codecs and height; what rewriting keeps |
| Playlist.RewritingKeepsTheVariant | crates/anistream-cast/src/relay.rs:750-791 | the best variant of a rewritten master is the same, codecs and height, its address resolved and led through the relay (section 4.3.4.2 of RFC 8216) |
| Relay.Percent | crates/anistream-cast/src/relay.rs:793-804 | every byte but the unreserved ones as two hex digits: what `DecodeUndoesEncode` decodes |
| Relay.Unpercent | crates/anistream-cast/src/relay.rs:806-823 | each well-formed escape replaced, anything else left as it is, a sign among the digits as the source reads it, and what is then no UTF-8 replaced a maximal part at a time; of what `Percent` printed, the address |
| Relay.DecodeUndoesEncode | crates/anistream-cast/src/relay.rs:793-823 | decoding undoes encoding for every address (section 2.1 of RFC 3986) |
| Relay.UpstreamLeadsBack | crates/anistream-cast/src/relay.rs:424-466 | through the query's split, the token, the room and the decoding, a handed target leads to its address |
| Relay.SharedLeadsBack | crates/anistream-cast/src/relay.rs:218-237 | a shared file's and a clip's address lead to what was shared, whatever the name |
| Relay.Relay.UpstreamUrl | crates/anistream-cast/src/relay.rs:239-244 | the address, and its origin allowed |
| Relay.Relay.ShareFile | crates/anistream-cast/src/relay.rs:218-225 | a file shared under its id |
| Relay.Relay.ShareBytes | crates/anistream-cast/src/relay.rs:227-236 | a clip shared under its id |
| Relay.Relay.ServePlaylist | crates/anistream-cast/src/relay.rs:697-708 | a playlist rewritten, the origins of its addresses allowed |
| Relay.Relay.Close | crates/anistream-cast/src/relay.rs:203-211 | what was shared forgotten |
| Relay.RewritingHandsThese | crates/anistream-cast/src/relay.rs:700-708 | the addresses whose origins are allowed are all that a rewriting hands out |
| Relay.HandedStaysAllowed | crates/anistream-cast/src/relay.rs:239-244 | a handed address with a scheme may be fetched after any further requests until close |
| Relay.ServedStaysAllowed | crates/anistream-cast/src/relay.rs:700-708 | so may every address of a rewritten playlist |
| Relay.HandedLeadsBack | crates/anistream-cast/src/relay.rs:425-466 | the address handed out, requested with any query, fetches the address it stands for, until close |
| Relay.ServedLeadsBack | crates/anistream-cast/src/relay.rs:700-708 | so does every address in a rewritten playlist |
| Relay.AllowedExactly | crates/anistream-cast/src/relay.rs:595-599 | over any steps, an address may be fetched if and only if one of its origin was handed out, by itself or in a playlist served, and the relay has not closed since |
| Relay.NothingAfterClose | crates/anistream-cast/src/relay.rs:203-211 | so after a close, whatever came before and comes after, only an origin handed out since may be fetched |
| Relay.ServedVariantIsTheSame | crates/anistream-cast/src/relay.rs:697-708 | the best variant of a served master, with the relay's own addresses |
| VttText.WriteRest | crates/anistream-cast/src/vtt.rs:268-328 | the loop over tag blocks and characters, the pen carried along |
| VttText.WriteText | crates/anistream-cast/src/vtt.rs:251-334 | everything written between what the style opens and what is left open, which `BodyTagsAlternate` walks |
| VttText.MakeText | crates/anistream-cast/src/vtt.rs:251-341 | the body, tidied of blank lines, and the alignment: what the four lemmas below are about |
| VttText.BodyTagsAlternate | crates/anistream-cast/src/vtt.rs:251-341 | in every body each of the three tags opens and closes in turn and ends closed, through resets, and no other angle bracket stands |
| VttText.BodyHasNoArrow | crates/anistream-cast/src/vtt.rs:318-323 | no body holds an arrow |
| VttText.BodyHasNoBlankLine | crates/anistream-cast/src/vtt.rs:335-341 | every line of a body is non-empty and trimmed |
| VttText.BodyHasNoReturn | crates/anistream-cast/src/vtt.rs:251-341 | text without carriage returns gives a body without any |
| Vtt.TimeUndoesStamp | crates/anistream-cast/src/vtt.rs:179-195 | reading a printed time gives the time, for all 64-bit values |
| Vtt.Convert | crates/anistream-cast/src/vtt.rs:56-176 | the text that `ConvertedReadsBack` reads back, and the tally that `TallyAccounts` accounts for |
| Vtt.Print | crates/anistream-cast/src/vtt.rs:168-176 | the cues printed in turn |
| Vtt.TallyAccounts | crates/anistream-cast/src/vtt.rs:98-165 | every event whose times read is in the tally once, and no two cues say the same at the same times |
| Vtt.CuesAreFine | crates/anistream-cast/src/vtt.rs:153-165 | every cue of any script has a body without blank lines or arrows, its tags in turn |
| Vtt.CuesHoldNoReturn | crates/anistream-cast/src/vtt.rs:76-165 | of a script without a bare carriage return no cue holds one |
| Vtt.PrintedReadsBack | crates/anistream-cast/src/vtt.rs:169-175 | splitting the printed text on blank lines recovers every cue |
| Vtt.ConvertedReadsBack | crates/anistream-cast/src/vtt.rs:56-176 | what is read back of any script is its kept cues, sorted by time, those of equal times in the script's order |
| Proto.AppendVarint | crates/anistream-cast/src/proto.rs:140-150 | appends exactly the bytes that `VarintRoundTrip` reads back |
| Proto.ReadVarintLoop | crates/anistream-cast/src/proto.rs:163-174 | `read_varint`, its two errors and the dropped high bits of a tenth byte included |
| Proto.VarintRoundTrip | crates/anistream-cast/src/proto.rs:140-174 | reading undoes printing for every 64-bit value, and leaves what follows |
| Proto.ReadVarintFits | crates/anistream-cast/src/proto.rs:163-174 | what is read never leaves 64 bits |
| Proto.Encode | crates/anistream-cast/src/proto.rs:53-70 | the bytes `DecodeUndoesEncode` decodes, whatever well-formed unknown fields stand between them |
| Proto.Decode | crates/anistream-cast/src/proto.rs:82-133 | the loop and each of its errors: the message `DecodeIsLastOneWins` describes |
| Proto.Frame | crates/anistream-cast/src/proto.rs:73-79 | the length prefix, cast to 32 bits, and the body: what `Channel.SplitUndoesFrame` splits back |
| Proto.DecodeIsLastOneWins | crates/anistream-cast/src/proto.rs:82-133 | decoding succeeds exactly when every field reads and the string fields are UTF-8, and each part is then the last field that carries it |
| Proto.DecodeConcatenation | crates/anistream-cast/src/proto.rs:82-133 | decoding a concatenation is merging, the last one winning |
| Proto.DecodeUndoesEncode | crates/anistream-cast/src/proto.rs:53-133 | decoding undoes encoding with any unknown well-formed fields before, between and after the message's |
| Proto.EncodeRoundTrip | crates/anistream-cast/src/proto.rs:53-133 | and with none |
| Channel.ReadLoop | crates/anistream-cast/src/channel.rs:269-294 | the reader's loop: messages, a malformed one skipped, and why it stopped |
| Channel.SplitUndoesFrame | crates/anistream-cast/src/channel.rs:269-289 | a stream of frames within the limit, the last perhaps not all there, splits into exactly the messages sent |
| Channel.Requests.TakeNumber | crates/anistream-cast/src/channel.rs:202 | an id taken |
| Channel.Requests.Insert | crates/anistream-cast/src/channel.rs:205-206 | the sender half registered |
| Channel.Requests.SendOut | crates/anistream-cast/src/channel.rs:207 | the message sent, or refused with its entry left behind |
| Channel.Requests.Receive | crates/anistream-cast/src/channel.rs:299-328 | one message: a heartbeat, a reply or an event |
| Channel.Requests.Finish | crates/anistream-cast/src/channel.rs:208-211 | a waiter woken, with its reply or by the table's end |
| Channel.Requests.Forget | crates/anistream-cast/src/channel.rs:208-211 | a timed-out entry removed |
| Channel.Requests.ClearTable | crates/anistream-cast/src/channel.rs:332 | the reader's last clear |
| Channel.RepliesReachTheirOwn | crates/anistream-cast/src/channel.rs:313-325 | over every interleaving a request that ended with a reply got one with its own id |
| Channel.AReplyWakesAtMostItsOwn | crates/anistream-cast/src/channel.rs:313-325 | a reply changes nothing for any other request, and a poll's changes nothing at all below 2^40 requests (client.rs, line 355) |
| Channel.ClearLeavesNoWaiter | crates/anistream-cast/src/channel.rs:331-333 | every waiter registered before the final clear can wake, whatever happens after |
| Channel.AfterTheClearRefusedOrTimedOut | crates/anistream-cast/src/channel.rs:196-211 | one registered after it ends refused or timed out, never with a reply |
| Sorting.SortSorts | crates/anistream-cast/src/remux.rs:486 | a sort as the segments' and the cues' are: sorted |
| Sorting.SortStable | crates/anistream-cast/src/vtt.rs:168 | and stable |

## Left out

Not modelled:

- JSON building and reading, sockets, TLS, timeouts and silence limits, saving and loading
  `cast-tvs.json`.
- The boxes of `init()`, the codecs string, `esds`, `dops`, `dfla` and the media playlist the remuxer
  prints: long constant layouts.
- `Remuxer::open`'s choice of tracks and the shift it scans for, the Matroska header, tracks and cues:
  tracks, cues and the shift are inputs.
- Reading a copied audio frame's length from its own header (`remux.rs`, lines 865-905): what it says
  is an input.
- The AAC encoders: a stream is any function of what it was fed (`aac.rs`, lines 81-85), and a
  spacing of 1024 samples is a hypothesis where it is needed.
- `f64` rounding: seconds are reals, and ticks and milliseconds integers. Orderings weaker than one
  step after another for the relaxed atomics.
- Clocks and patience: how a try ends (`try_plan`, `had_its_chance`) is an input, as are staging and
  what the probe reads of a stream.
- Reading codec names into formats, the choice of language, the other fields of a TV's record (id,
  name, model, volume).
- The player's commands (pause, seek, rate, volume, subtitles), the published status and how long a
  pause has lasted; the idle poll is a step that may happen whenever a pause was told.
- Serving bodies and ranges, the CORS headers, who may connect; the HTTP client: an answer's status,
  `Content-Range` and `Content-Length` arrive read.
- In `Launch`, `add_subtitle`'s loading of the media again; the registration a load makes once its
  media is loaded is the step `PutsBack`.

Stated with a hypothesis, or less than the whole:

- Segments.SegmentsPartitionTheVideo: assumes keyframe times that rise in file order and keys that name their keyframe's cluster; without them the reading loop itself, proved for any blocks, may skip or repeat.
- Segments.SegmentsPartitionTheAudio: assumes audio in order and none at or past a segment's start before its cluster.
- FragmentReader.FragmentReadsBack: assumes a fragment below 2^31 bytes, because a data offset is cast to 32 signed bits, and every sample with its payload; the reader knows a fragment's shape as the standard fixes it, but not an explicit base data offset nor a first sample's own flags, which no fragment here has.
- WholeFile.FileInSegmentsOut: assumes keyframe times that rise, cues that name their keyframe's cluster, and clusters whose elements have printed sizes.
- Presented.SegmentsShowTheFile: assumes fields wide enough for what is written in them, and speaks of the video; the sound beside it is any tracks that fit.
- Encode.EachFrameFedOnce: assumes audio in order, a cue at 0 and none of the audio past a cue before the cue's cluster; from a segment whose lead-in reaches below 0 no cue is found, reading begins at the segment itself, and what of the lead-in lies before it is not fed.
- Formats.MakePlans: a TV's answers are keyed by parts, which `Formats.NamesTellPartsApart` shows to be the same as by names for the codecs that are ever copied.
- Fetch.Drive: assumes an upstream whose accepted answers hold the resource's bytes, at least one before the end, and the right size when they name one.
- Playlist.RewritingKeepsTheVariant: assumes no STREAM-INF tag with a URI attribute, whose value the rewriting would change.
- Vtt.TimeUndoesStamp: how `f64` text reads is an input, assumed to read printed seconds as what they say; times wrap in 64 bits as in a release build.
- Vtt.Convert: how a style's name splits into words is an input.
- SourceWait.Shared.Drop: its three writes in a row; the theorems are about runs in which others come between them.
- Player.SaidInOrder: speaks of runs without a reload of our own; with one, `Player.NothingSaidTwice` still holds.
- Channel.AReplyWakesAtMostItsOwn: request ids do not wrap.
