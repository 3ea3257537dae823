# Verified model of the practice player, its capture protocol, its guided sessions and its checkers

This project models five parts of the repository in Dafny and proves what they promise.

**The playback clock and what hangs on it.** `Transport` is the browser transport: one clock derived
from an anchor, whose position wraps loops, counts repetitions and stops at a target. Reading the
position can itself change the state and emit events whose snapshots read it again. `TransportLaws`
proves that reads do not disturb each other and that musical time is conserved, `TransportOperations`
what each operation does to the position a reader sees, then and later. `AudioScheduler` is the
look-ahead note scheduler and `SchedulerLaws` shows that many short ticks play the plan the way one
ideal schedule would. `TeachingTimeline` and `TimelineLaws` are the anchor table between ticks and
seconds and its hand-written inverse, `PracticeActions` turns recommended actions into rates and loops,
`MediaSync` and `MediaSyncLaws` are the drift-correction ladder.

**The received-attempt protocol.** `AttemptModel` is the capture controller as a transition system: each
run of code between two awaits is one step, every await leaves an outstanding reply, and replies arrive
in any order with any outcome. `AttemptInvariant` and `AttemptPreservation` carry one inductive invariant
over all interleavings, `AttemptLaws` draws the protocol's promises from it, `AttemptOutcomes` tells from
the events alone what is shown, captured and sent, `AttemptLiveness` says from which states the user can
get on, and `AttemptController` is the object itself, one method per step, tied
to the transition system and keeping the same invariant.

**Guidance.** `EducationContracts` holds the records and their constructor checks, `Guidance` the
projection of findings onto events, `GuidanceLaws` its independence of order, and `EducationMeaning` and
`GuidanceMeaning` what the constructors accept and a projection holds.

**Guided sessions.** `GuidedSession` is the service over immutable records, `GuidedSessionLaws` its
lifecycle over whole runs, `GuidedEvidenceLaws` exactly what evidence and operations it accepts,
`GuidedClient` the browser's gates, executor and Apply button,
`GuidedClientLaws` their agreement with the service, and `GuidedApply` the button against a service that
may lose messages and whose answers may arrive late and in any order.

**Two checkers.** `BeginEvidence`, `BeginEvidenceChecks` and `BeginEvidenceLaws` are the begin-recovery
evidence verifier and what a packet without problems proves, `BeginEvidenceMeaning` is the same verdict
told field by field, and `BeginEvidenceSample` is one such packet. `InFlight` and `InFlightLaws` are the
in-flight register's reconciler and its repair, `InFlightMeaning` what each finding means.

The modules named Laws, Operations, Outcomes and Meaning state their results over what an onlooker sees:
readings, events, requests, records and findings, with the fields written out.

Objects that the source updates in place are classes whose methods are proved against functions on their
state; records and pure functions are datatypes and functions. Times are reals, with floor division
written out in `RealDivision`; integers are unbounded.

## Where the code differs from what is said about it

Each of these has its exact condition and an input that shows it.

- A loop can end outside the duration, because `setDuration` does not re-check it
  (web/mvp1/transport.js:45-55) although `setLoop` refuses such a loop. Reads are then no longer
  independent: `TransportLaws.PollIndependenceExactly`, and the run `TransportLaws.PollDependenceRun`.
- `setRate` re-anchors a clock that its own read has just stopped (web/mvp1/transport.js:98-101), so a
  stopped clock may carry an anchor: `TransportLaws.StoppedWithAnchorExactly`, and the run
  `TransportLaws.StoppedWithAnchorRun`.
- `play` announces itself and returns true on a transport resting at the end of a loop whose repetitions are
  used up, but its own announcement stops it again (web/mvp1/transport.js:57-66, 158-166):
  `TransportOperations.PlayStartsExactly`, and the run `TransportOperations.FinishedLoopRun`.
- The tick table is described as invertible, but a table with one anchor, or with two anchors at the same
  second, is valid and is not: `TimelineLaws.RoundTripExactly`, and the tables of
  `TimelineLaws.OneAnchorLosesTicks` and `TimelineLaws.EqualSecondsLoseTicks`.
- A range check is said to keep the follower from repeating a seek forever (web/mvp1/media-sync.js:290-298).
  It does so for the element named there, one that reports an empty range: such an element is never sought
  (`MediaSyncLaws.NeverSeeksExactly`). An element that reports a range holding its place and does not move
  is sought for as long as the calls go on: at every call if it throws, and otherwise at every call 250 ms
  after the one before. `MediaSyncLaws.AlwaysSeeksExactly` is the condition, and the runs are
  `MediaSyncLaws.SilentElementRun` and `MediaSyncLaws.ThrowingElementRun`.
- A late begin reply consults the pending start of whichever generation is current
  (web/mvp1/received_attempt_controller.js:171-198), unlike append, finish and cancel replies:
  `AttemptLaws.LateBeginInertExactly`, and the run `AttemptLaws.LateBeginTouchesNewerStart`. The newer
  start's own reply can then leave the user with an unconfirmed begin and nothing to ask about, where
  only leaving the page helps. It is the only dead end: `AttemptLiveness.StartableExactly`, and the run
  `AttemptLiveness.LostRun`. A late append reply still unmarks its own pump (line 348).
- The guidance digest is said to give every caller the same answer for the same content
  (src/master_all_strings/education/guidance.py:219-228). The sort is stable and its key leaves out the
  evidence, message and values, so two items that tie keep the caller's order:
  `GuidanceLaws.DigestIgnoresOrderExactly`, and the items of `GuidanceLaws.DisagreeingTieExists`. Lists
  built from an evaluation never tie.
- The Apply gate does not look at the session's status (web/mvp1/guided_disposition.js:83-90):
  `GuidedClientLaws.ExecutionGateAgreesExactly`, and the run `GuidedClientLaws.LeftSessionRun`.

## Model

| member | source | states |
|---|---|---|
| `Transport.Transport.constructor` | web/mvp1/transport.js:9-19 | A new transport is stopped at zero, rate 1, no loop, no events |
| `Transport.Transport.PositionSeconds` | web/mvp1/transport.js:134-149 | Reading the position changes the fields, returns the position and emits exactly what `Poll` says: wraps, the stop at the target and completion included |
| `Transport.Transport.WrapLoop` | web/mvp1/transport.js:151-172 | A crossing counts every lap at once, keeps the remainder inside the loop, or stops at the target with the overshoot dropped |
| `Transport.Transport.EmitEvent` | web/mvp1/transport.js:29-43 | An event's snapshot reads `playing` first and then polls the position, which may emit further events before it |
| `Transport.Transport.SetDuration` | web/mvp1/transport.js:45-55 | Polls, clamps the position to the new duration and re-anchors a playing clock; a negative duration changes nothing |
| `Transport.Transport.Play` | web/mvp1/transport.js:57-66 | Starts a stopped clock, from the loop start or zero when it rests at the end |
| `Transport.Transport.Pause` | web/mvp1/transport.js:68-75 | Freezes the polled position |
| `Transport.Transport.Restart` | web/mvp1/transport.js:77-83 | Stops at zero with no repetitions |
| `Transport.Transport.Seek` | web/mvp1/transport.js:85-91 | Moves to the clamped position and re-anchors a playing clock |
| `Transport.Transport.SetRate` | web/mvp1/transport.js:93-104 | Four rates only; a playing clock keeps its polled position across the change; a refused rate changes nothing |
| `Transport.Transport.SetLoop` | web/mvp1/transport.js:106-126 | Accepts exactly the loops of positive length inside a known duration; a refusal changes nothing |
| `Transport.Transport.ClearLoop` | web/mvp1/transport.js:128-132 | Removes the loop and the repetition count |
| `TransportLaws.PollBetween` | web/mvp1/transport.js:134-172 | A read in between does not change what a later read sees |
| `TransportLaws.PollIndependence` | web/mvp1/transport.js:134-172 | Reading at any ascending times leaves the same position, repetition count and playing flag as reading once, the stop at the target included |
| `TransportLaws.PollIndependenceExactly` | web/mvp1/transport.js:45-55 | Reads are independent of each other if and only if an enabled loop ends inside the duration, which `setDuration` does not re-check |
| `TransportLaws.SeenOutsideDuration` | web/mvp1/transport.js:134-149 | The two times at which a loop past the duration shows: an earlier read completes the lesson where a later one alone would have wrapped |
| `TransportLaws.PollDependenceRun` | web/mvp1/transport.js:45-55 | A run of the operations that ends so: ten seconds, a loop from 2 to 8, then five seconds and play; reading at 5 s stops the lesson, reading only at 8 s finds it looping |
| `TransportLaws.StoppedWithAnchorExactly` | web/mvp1/transport.js:93-104 | A rate change leaves a stopped clock with an anchor if and only if its own read reached the target, or the end without a crossing, or the clock was stopped with one already |
| `TransportLaws.StoppedWithAnchorRun` | web/mvp1/transport.js:93-104 | A run of the operations that ends so: a ten second lesson played from 0 and its rate changed at 11 s |
| `TransportLaws.PollSettles` | web/mvp1/transport.js:134-172 | After a read at `t` nothing is left to wrap, stop or complete at `t` |
| `TransportLaws.ApplyConserves` | web/mvp1/transport.js:57-104 | One poll, rate change, pause or play moves musical time by exactly what rolled since the last one |
| `TransportLaws.MusicalTimeConserved` | web/mvp1/transport.js:57-172 | Until the target stops it, repetitions times loop length plus position grows by exactly the sum of rate times elapsed time over any interleaving of polls, rate changes, pauses and plays |
| `TransportLaws.TargetStopsExactly` | web/mvp1/transport.js:151-166 | The target stops the loop if and only if the musical time reached it, and the clock then rests at the loop end with the target count |
| `TransportLaws.StopIsAnnounced` | web/mvp1/transport.js:158-166 | A read that finds the last repetition played emits the loop-complete event |
| `TransportOperations.SeekLands` | web/mvp1/transport.js:85-91 | A seek to a place inside the lesson, and before the end of an enabled loop if playing, is where a reader then finds the transport, which goes on from there as it was: stopped, or playing at its rate; rate, duration, loop and repetitions stay |
| `TransportOperations.SeekOutside` | web/mvp1/transport.js:85-91 | A target outside the lesson is its nearer end: a stopped transport rests there, and a playing one sought past the end without a loop is over |
| `TransportOperations.SeekWraps` | web/mvp1/transport.js:85-172 | A playing transport sought past the end of its loop is back inside it with the laps in between counted |
| `TransportOperations.RestartRests` | web/mvp1/transport.js:77-83 | After a restart every later read finds zero, no repetitions and a stopped transport |
| `TransportOperations.ClearLoopGoesOn` | web/mvp1/transport.js:128-132 | Without its loop the transport goes straight on, to the end of the lesson, and counts no repetitions |
| `TransportOperations.SetLoopGoesOn` | web/mvp1/transport.js:106-126 | A loop is taken exactly when 0 <= start < end <= duration; repetitions start at none, and a transport with room goes on as it was |
| `TransportOperations.PlayGoesOn` | web/mvp1/transport.js:57-66 | A stopped transport plays on from where a reader saw it, or from the end of the lesson at the loop start or zero; a playing one is left alone |
| `TransportOperations.PauseRests` | web/mvp1/transport.js:68-75 | Every later read finds a paused transport where a reader saw it |
| `TransportOperations.RateGoesOn` | web/mvp1/transport.js:93-104 | One of the four rates is taken and any other refused; the position stays and plays on at the new rate |
| `TransportOperations.DurationGoesOn` | web/mvp1/transport.js:45-55 | A duration of at least zero is taken; the position stays unless the lesson is now shorter, and a playing transport plays on unless that is its end |
| `TransportOperations.PlayStartsExactly` | web/mvp1/transport.js:57-66 | Play starts a stopped transport if and only if it does not rest at or past the end of a loop whose repetitions are used up |
| `TransportOperations.FinishedLoopRun` | web/mvp1/transport.js:57-172 | A run of the operations that ends there: ten seconds, a loop from 2 to 8 to be played once; at 9 s play starts nothing |
| `TransportOperations.OperationsTell` | web/mvp1/transport.js:29-132 | Every accepted operation that changes the transport tells its listeners so, last of all, with what a reader then sees |
| `AudioScheduling.AudioScheduler.LoadPlan` | web/mvp1/audio_scheduler.js:28-50 | Silences first, then accepts exactly the plans whose events are ordered between any two of them and end after they begin; the loop compares neighbours only |
| `AudioScheduling.AudioScheduler.SetEnabled` | web/mvp1/audio_scheduler.js:52-55 | Disabling silences and forgets what was scheduled |
| `AudioScheduling.AudioScheduler.Panic` | web/mvp1/audio_scheduler.js:73-77 | Silences the synth and empties the scheduled set |
| `AudioScheduling.AudioScheduler.Tick` | web/mvp1/audio_scheduler.js:79-121 | One tick reads the transport, hears what that read emitted, and schedules exactly the due notes of that window |
| `AudioScheduling.AudioScheduler.ScheduleDue` | web/mvp1/audio_scheduler.js:89-121 | The loop hands over exactly the plan's events inside the horizon that were not handed over before |
| `AudioScheduling.AudioScheduler.OnTransport` | web/mvp1/audio_scheduler.js:123-135 | Any event but play silences; play forgets what was scheduled and ticks at once |
| `SchedulerLaws.TickEach` | web/mvp1/audio_scheduler.js:96-118 | One tick schedules each due id once, remembers exactly those and makes no other note |
| `SchedulerLaws.TickIndependent` | web/mvp1/audio_scheduler.js:89-108 | The audio time of an onset does not depend on the tick that schedules it |
| `SchedulerLaws.OneTick` | web/mvp1/audio_scheduler.js:79-121 | What one more tick of an uninterrupted stretch adds: the events newly inside the horizon, each once, faithful to the plan |
| `SchedulerLaws.StretchKept` | web/mvp1/audio_scheduler.js:79-121 | After any ticks less than the look-ahead apart, the scheduled ids are exactly the events reached |
| `SchedulerLaws.SchedulerRefinesIdeal` | web/mvp1/audio_scheduler.js:79-135 | In an uninterrupted stretch, from the start or from the tick whose own read wraps the loop, every event reached is handed to the synth exactly once, not after it is due, at the ideal schedule's start and release times with release after start, and nothing else is |
| `SchedulerLaws.TickAfterRead` | web/mvp1/audio_scheduler.js:79-135 | A tick whose read wraps the loop hears the wrap, which silences and forgets, and is then a tick of the settled clock |
| `SchedulerLaws.EveryLapRefinesIdeal` | web/mvp1/audio_scheduler.js:79-135 | However often the loop wraps, the ticks of all laps are one run, and each lap plays every event as its own ideal schedule has it |
| `SchedulerLaws.StoppingTick` | web/mvp1/audio_scheduler.js:79-121 | A tick whose own read stops the transport still hands over, once each, the events due where it came to rest; no later tick hands over anything |
| `SchedulerLaws.HeardExactly` | web/mvp1/audio_scheduler.js:123-135 | Every transport event but play silences the synth once and forgets what was scheduled |
| `SchedulerLaws.SilentExactly` | web/mvp1/audio_scheduler.js:79-87 | A tick does nothing at all unless sound is on, a plan is loaded, the transport plays and the synth is ready |
| `AudioScheduling.PlayableExactly` | web/mvp1/audio_scheduler.js:28-50 | The plans accepted: of this version, lasting, with events that end after they begin and are ordered by onset, then release, then id |
| `TeachingTimeline.RequireAnchorTable` | web/mvp1/teaching-timeline.js:28-63 | Accepts exactly the non-empty tables that start at tick 0 with increasing ticks and non-decreasing seconds |
| `TeachingTimeline.SecondsAtTick` | web/mvp1/teaching-timeline.js:79-97 | The early-return scan computes the piecewise-linear reading of the table, or reports a bad table or argument |
| `TeachingTimeline.TickAtSeconds` | web/mvp1/teaching-timeline.js:99-119 | The same scan the other way, rounded half away from zero |
| `TeachingTimeline.ResolveFocusRangeSeconds` | web/mvp1/teaching-timeline.js:128-139 | A non-empty tick range becomes the exact seconds of its two ends |
| `TimelineLaws.SecondsMonotone` | web/mvp1/teaching-timeline.js:79-97 | A later tick is never earlier in seconds |
| `TimelineLaws.TickMonotone` | web/mvp1/teaching-timeline.js:99-119 | Later seconds are never an earlier tick |
| `TimelineLaws.SecondsStrict` | web/mvp1/teaching-timeline.js:79-97 | With strictly increasing seconds a later tick is strictly later |
| `TimelineLaws.RoundTripExactly` | web/mvp1/teaching-timeline.js:71-119 | Every natural tick comes back from seconds, past the last anchor too, if and only if the table has a second anchor and strictly increasing seconds |
| `TimelineLaws.OneAnchorLosesTicks` | web/mvp1/teaching-timeline.js:71-119 | With one anchor tick 1 reads as second 0, which reads as tick 0 |
| `TimelineLaws.EqualSecondsLoseTicks` | web/mvp1/teaching-timeline.js:28-119 | A legal table with two anchors at one second loses the later one's tick |
| `TimelineLaws.SecondsNearTick` | web/mvp1/teaching-timeline.js:65-119 | Seconds to tick and back lands within half a tick at the segment's rate |
| `TimelineLaws.SecondsAtAnchor` | web/mvp1/teaching-timeline.js:79-97 | At an anchor's tick the reading is the anchor's seconds |
| `TimelineLaws.RoundNear` | web/mvp1/teaching-timeline.js:21-26 | Rounding moves a value by at most one half |
| `TimelineLaws.RoundExactly` | web/mvp1/teaching-timeline.js:21-26 | A value rounds to the whole number nearest to it, and halfway to the one further from zero |
| `TimelineLaws.SecondsInProportion` | web/mvp1/teaching-timeline.js:79-97 | Between two anchors, and past the last two, seconds grow with ticks in the proportion of the anchors, on every valid table |
| `TimelineLaws.SecondsOfOne` | web/mvp1/teaching-timeline.js:90-97 | One anchor alone gives its second for every tick |
| `TimelineLaws.TicksInProportion` | web/mvp1/teaching-timeline.js:99-119 | Where the seconds of two anchors differ, the tick is the whole number nearest to their proportion |
| `TimelineLaws.TicksAtEnds` | web/mvp1/teaching-timeline.js:99-119 | Up to the first anchor the tick is zero, and past a last segment that takes no time the tick of the last anchor |
| `PracticeActions.PracticeActionController.ApplySlowDown` | web/mvp1/practice_actions.js:48-73 | Applied if and only if the requested rate is one of the four, which is then the transport's rate; otherwise the transport is untouched |
| `PracticeActions.PracticeActionController.ApplyIsolatePassage` | web/mvp1/practice_actions.js:75-122 | The transport never refuses the loop; it is applied if and only if the passage, cut at the lesson end, has positive length, and then is exactly that loop |
| `PracticeActions.IsolationAlwaysLegal` | web/mvp1/practice_actions.js:75-122 | On a strict table a non-empty tick range makes a legal loop of positive length if and only if it starts before the lesson end |
| `PracticeActions.LoopableExactly` | web/mvp1/practice_actions.js:75-110 | On any table: a passage becomes a loop if and only if the table is valid, the ticks are a range from zero on, and the passage begins before it ends and before the lesson does |
| `PracticeActions.IsolatedLoop` | web/mvp1/practice_actions.js:93-112 | The loop runs from the first second of the passage to its last or the end of the lesson, as often as the policy says, with nothing played of it |
| `MediaSync.MediaSyncFollower.OnTimeline` | web/mvp1/media-sync.js:185-275 | One timeline state does to the element, the settle window and the counters exactly what the drift ladder says, and reports it, whichever commands the element refuses by throwing |
| `MediaSync.MediaSyncFollower.SetBinding` | web/mvp1/media-sync.js:128-142 | A new binding sets the mode, drops the settle window and restores the rate when detached |
| `MediaSync.MediaSyncFollower.SetMode` | web/mvp1/media-sync.js:144-154 | Synchronizing without a binding stays detached |
| `MediaSync.MediaSyncFollower.CanSeek` | web/mvp1/media-sync.js:299-308 | A seek target is allowed if and only if some reported range holds it, or none are reported |
| `MediaSync.MediaSyncFollower.Seek` | web/mvp1/media-sync.js:310-319 | A hard seek lands on the lesson at the transport's rate, is counted and opens the settle window; one the element refuses does none of this, and one whose rate it refuses still counts |
| `MediaSyncLaws.NextDrift` | web/mvp1/media-sync.js:257-274 | What one sample and the gap after it do to the drift |
| `MediaSyncLaws.ResampleShrinks` | web/mvp1/media-sync.js:55-67 | A drift above 40 ms and at most 150 ms strictly shrinks at every sample, by at least the least nudge unless it enters the band, and no seek happens |
| `MediaSyncLaws.DriftAfter` | web/mvp1/media-sync.js:257-274 | After any number of samples the drift is in the band to stay, or has lost that many least nudges |
| `MediaSyncLaws.ResampleConverges` | web/mvp1/media-sync.js:17-28 | Enough samples, by a bound computed from the 5% nudge and the smallest gap, bring any drift of at most 150 ms into the 40 ms band without one hard seek |
| `MediaSyncLaws.NoSecondSeekWhileSettling` | web/mvp1/media-sync.js:225-244 | Over any calls before the settle deadline that never measure the element in the band, no second hard seek happens |
| `MediaSyncLaws.SeekOpensWindow` | web/mvp1/media-sync.js:310-319 | A call seeks at most once, onto the lesson, and then waits 250 ms |
| `MediaSyncLaws.SeekCountedExactly` | web/mvp1/media-sync.js:246-319 | A call counts a seek if and only if it reports one and the element did not refuse it; a refused one is reported, moves nothing and opens no window |
| `MediaSyncLaws.SeeksExactly` | web/mvp1/media-sync.js:185-275 | A call seeks if and only if the follower is synchronized, finds the element misplaced (it has a place to be that its reported ranges hold, and is told to go there or is more than 150 ms away), and no seek is still landing |
| `MediaSyncLaws.AlwaysSeeksExactly` | web/mvp1/media-sync.js:225-319 | A run seeks at every call, however long it is, if and only if every call finds the element misplaced and comes after a refused seek or at least 250 ms after the one before; all but the refused ones are counted |
| `MediaSyncLaws.NeverSeeksExactly` | web/mvp1/media-sync.js:290-308 | With no seek landing, a run never seeks if and only if no call finds the element misplaced; so an element whose ranges hold nothing is never sought |
| `MediaSyncLaws.RefusedSeeksRepeat` | web/mvp1/media-sync.js:310-319 | An element that refuses its seeks is asked at every call that finds it misplaced, none is counted and no window opens |
| `MediaSyncLaws.SilentElementRun` | web/mvp1/media-sync.js:185-319 | An element at 0 that reports 0 to 1000 s and ignores its seeks, with the lesson resting at 100 s and a call every 250 ms: sought and counted at every call, for any number of calls |
| `MediaSyncLaws.ThrowingElementRun` | web/mvp1/media-sync.js:310-319 | The same element throwing, with a call every 20 ms: sought at every call and never counted |
| `MediaSyncLaws.SeekLandsOnLesson` | web/mvp1/media-sync.js:76-100 | A counted seek takes the element as far past the media anchor as the lesson is past its own |
| `MediaSyncLaws.UnmeasuredExactly` | web/mvp1/media-sync.js:185-224 | Each status but the measured ones, exactly when it is reported: detached, no element or no time, stalled, and a lesson before its anchor, past its end or past the media end |
| `MediaSyncLaws.MeasuredExactly` | web/mvp1/media-sync.js:225-275 | What one call reports of a measured element, by how far it is off: 40 and 150 ms, a seek it cannot make, a seek it was told to make, a seek still landing |
| `MediaSyncLaws.RateExactly` | web/mvp1/media-sync.js:257-274 | The rate the element is left with: that of the transport in the band, 5% less when ahead, 5% more when behind, untouched while a seek lands |
| `MediaSyncLaws.PausedExactly` | web/mvp1/media-sync.js:200-223 | Whether the element is paused afterwards, by the binding, the lesson and what it refuses |
| `MediaSyncLaws.WindowExactly` | web/mvp1/media-sync.js:225-244 | When a settle window opens, lasts and ends |
| `MediaSyncLaws.ToldExactly` | web/mvp1/media-sync.js:225-275 | What a report says of the expected time, the actual time and the correction |
| `AttemptControllers.AttemptController.Start` | web/mvp1/received_attempt_controller.js:132-170 | A start refused while active or unconfirmed; else a new generation with nothing captured and one keyed begin request |
| `AttemptControllers.AttemptController.BeginReply` | web/mvp1/received_attempt_controller.js:170-243 | A late reply closes whatever start is pending; a live one settles, or starts mounting the attempt |
| `AttemptControllers.AttemptController.MountReply` | web/mvp1/received_attempt_controller.js:247-287 | A late mount cancels the attempt at the server; a failed one cancels it here; else capture begins |
| `AttemptControllers.AttemptController.OnMidi` | web/mvp1/received_attempt_controller.js:289-312 | A message is numbered, queued and pumped; a full queue cancels |
| `AttemptControllers.AttemptController.Drain` | web/mvp1/received_attempt_controller.js:323-357 | From the head of the pump's loop to its next await: send the head, or stop and perhaps finish |
| `AttemptControllers.AttemptController.AppendReply` | web/mvp1/received_attempt_controller.js:332-357 | The next acknowledgement advances the queue; anything else empties it and cancels; a stale reply only unmarks its own pump |
| `AttemptControllers.AttemptController.Finish` | web/mvp1/received_attempt_controller.js:359-365 | Intake stops and the pump drains before the finish is sent |
| `AttemptControllers.AttemptController.FinishReply` | web/mvp1/received_attempt_controller.js:372-393 | A live reply ends in evaluated, rejected or unconfirmed |
| `AttemptControllers.AttemptController.RetryFinish` | web/mvp1/received_attempt_controller.js:395-406 | Only an unconfirmed finish is sent again |
| `AttemptControllers.AttemptController.Cancel` | web/mvp1/received_attempt_controller.js:408-422 | Cancelling before there is an attempt moves to a new generation; otherwise one terminal request |
| `AttemptControllers.AttemptController.PerformCancel` | web/mvp1/received_attempt_controller.js:424-438 | Intake stops, the queue is dropped and the cancel takes the terminal slot, once |
| `AttemptControllers.AttemptController.CancelReply` | web/mvp1/received_attempt_controller.js:439-455 | A live reply ends in interrupted, rejected or unconfirmed |
| `AttemptControllers.AttemptController.ResolveBegin` | web/mvp1/received_attempt_controller.js:457-465 | One recovery at a time, for the pending key |
| `AttemptControllers.AttemptController.ResolveReply` | web/mvp1/received_attempt_controller.js:466-488 | Only a reply for the request still pending settles it |
| `AttemptControllers.AttemptController.Abandon` | web/mvp1/received_attempt_controller.js:497-522 | Leaving closes the pending start or cancels the open attempt, and forgets both |
| `AttemptControllers.AttemptController.Handle` | web/mvp1/received_attempt_controller.js:132-527 | Every enabled event is handled by the method that implements its step and keeps the object's invariant: the queue never exceeds 256, is empty unless an attempt is live, and then is exactly the captured messages from acked on |
| `AttemptPreservation.StepKeeps` | web/mvp1/received_attempt_controller.js:132-522 | Every step of the protocol keeps the whole invariant: control, every attempt's story, and the live queue |
| `AttemptPreservation.RunKeeps` | web/mvp1/received_attempt_controller.js:132-522 | The invariant holds after every interleaving of page events and replies |
| `AttemptLaws.AppendsInOrder` | web/mvp1/received_attempt_controller.js:289-346 | The messages captured for an attempt are numbered 0, 1, 2, ...; those sent are the first of them, unaltered, in order and each once; all were sent before any finish |
| `AttemptLaws.QueueIsUnacknowledged` | web/mvp1/received_attempt_controller.js:297-346 | While an attempt is open its queue holds exactly the captured messages from acked to nextSequence - 1, at most 256, and all before the head, with the head if one is in flight, have been sent |
| `AttemptLaws.OneAppendInFlight` | web/mvp1/received_attempt_controller.js:316-346 | At most one append of an attempt is outstanding, once |
| `AttemptLaws.NoOrphanedAttempt` | web/mvp1/received_attempt_controller.js:236-271 | Every attempt whose start was accepted is the open one, is being mounted, or was told to finish or cancel |
| `AttemptLaws.LateRepliesInert` | web/mvp1/received_attempt_controller.js:332-455 | In every reachable state an append, finish or cancel reply for an attempt other than the current one changes nothing but the mark of that attempt's own pump |
| `AttemptLaws.LateBeginInertExactly` | web/mvp1/received_attempt_controller.js:171-198 | A late begin reply changes nothing if and only if no start is pending; else it closes that start |
| `AttemptLaws.LateBeginTouchesNewerStart` | web/mvp1/received_attempt_controller.js:171-198 | A concrete run, start, leave, start, in which the first start's late reply closes the second |
| `AttemptLaws.TerminalExclusive` | web/mvp1/received_attempt_controller.js:352-446 | Unless abandoned, an attempt never gets both a finish and a cancel, nor two cancels |
| `AttemptLaws.FinishMeansDrained` | web/mvp1/received_attempt_controller.js:352-355 | Once an attempt has had a finish, every message captured for it has been sent and acknowledged |
| `AttemptLaws.OutcomesAreEarned` | web/mvp1/received_attempt_controller.js:367-455 | An evaluated attempt was finished, not cancelled, and fully sent and acknowledged; an interrupted one still shown was cancelled once and never finished; a rejected one was told to end |
| `AttemptLaws.EndsAfterEverything` | web/mvp1/received_attempt_controller.js:109-112 | Every finish or cancel of an attempt that had been capturing is timed no earlier than its beginning and every message captured for it |
| `AttemptOutcomes.ShownWasAnswered` | web/mvp1/received_attempt_controller.js:170-488 | Over every interleaving, what is shown was answered: an evaluated attempt by an accepted finish of it, a rejected one by a refused finish or cancel of it, an interrupted one by an accepted cancel or the word of the server on a start, a doubt by an answer that leaves it |
| `AttemptOutcomes.EndAnswered` | web/mvp1/received_attempt_controller.js:372-455 | The answer to a finish or cancel that is still current settles its attempt, each outcome exactly: evaluated, interrupted, rejected or unconfirmed |
| `AttemptOutcomes.RetryExactly` | web/mvp1/received_attempt_controller.js:395-406 | An unclear finish, and nothing else, is sent again for the same attempt, timed no earlier than its last message |
| `AttemptOutcomes.BeginAnswered` | web/mvp1/received_attempt_controller.js:170-243 | The answer to a start that is still current: idle, interrupted, unconfirmed or mounting, what stays pending and what is begun, each exactly |
| `AttemptOutcomes.RecoveryAnswered` | web/mvp1/received_attempt_controller.js:466-488 | The answer to a recovery settles the pending start as idle or interrupted or leaves it in doubt; one for another start, or a late one, only ends the recovery |
| `AttemptOutcomes.RecoveryAsked` | web/mvp1/received_attempt_controller.js:457-465 | A recovery is asked for once at a time, for the start in doubt |
| `AttemptOutcomes.StartExactly` | web/mvp1/received_attempt_controller.js:132-170 | When a start is refused, and what a new one opens: a generation with nothing captured, one keyed request timed now |
| `AttemptOutcomes.MountAnswered` | web/mvp1/received_attempt_controller.js:247-287 | A mounted attempt captures exactly if its input is connected, else it is cancelled; one mounted too late is cancelled at the server |
| `AttemptOutcomes.MessageHeard` | web/mvp1/received_attempt_controller.js:289-312 | A message heard is captured as it was played, under the next number, unless 256 are waiting, when the attempt is cancelled |
| `AttemptOutcomes.CapturedExactly` | web/mvp1/received_attempt_controller.js:289-312 | Nothing else is ever captured; entering and leaving the capturing phase both put earlier inputs out of date |
| `AttemptOutcomes.CapturedWasPlayed` | web/mvp1/received_attempt_controller.js:289-312 | Every captured message of a run was played with that time, position and payload |
| `AttemptOutcomes.AppendAnswered` | web/mvp1/received_attempt_controller.js:332-357 | The next acknowledgement takes the message off the queue and sends the next or, when all are through, the finish; any other answer drops the queue and cancels |
| `AttemptOutcomes.FinishAsked` | web/mvp1/received_attempt_controller.js:359-365 | Finishing stops the intake; with nothing left to acknowledge the finish goes out at once |
| `AttemptOutcomes.CancelAsked` | web/mvp1/received_attempt_controller.js:408-438 | A cancel before an attempt is open moves to a new generation; one of an open attempt drops its queue and goes out once |
| `AttemptOutcomes.DisconnectIsCancel` | web/mvp1/received_attempt_controller.js:274-287 | Losing the connected input while starting or capturing is a cancel; losing another does nothing |
| `AttemptOutcomes.LeftBehind` | web/mvp1/received_attempt_controller.js:497-522 | Leaving leaves nothing open and puts every reply and input out of date |
| `AttemptOutcomes.LeavingTells` | web/mvp1/received_attempt_controller.js:497-522 | It tells the server to close the pending start, or else to cancel the running attempt, and nothing otherwise |
| `AttemptLiveness.StartableExactly` | web/mvp1/received_attempt_controller.js:132-134 | From a reachable state some further events, none of them leaving the page or changing lesson, let the user start again if and only if the state is not an unconfirmed begin whose pending start is gone |
| `AttemptLiveness.LeavingFrees` | web/mvp1/received_attempt_controller.js:497-522 | Abandoning or hiding always makes a start possible again |
| `AttemptLiveness.LostStays` | web/mvp1/received_attempt_controller.js:132-134 | In that one dead end nothing but leaving ends it: no start, recovery, retry, finish, cancel or late reply changes the phase |
| `AttemptLiveness.LostRun` | web/mvp1/received_attempt_controller.js:171-217 | A run into it: start, leave, start, the first start's late reply, and then the second's own well-formed one |
| `EducationContracts.CatalogIsModest` | src/master_all_strings/education/messages.py:9-26 | No key of the message catalog contains a forbidden mastery token |
| `EducationContracts.ActionsAreModest` | src/master_all_strings/education/guided_session.py:78-92 | A valid next action never trips the wording check of a later record |
| `EducationMeaning.IdentifierExactly` | src/master_all_strings/education/errors.py:22-32 | An identifier is a text that is not empty and that stripping leaves alone |
| `EducationMeaning.ModestExactly` | src/master_all_strings/education/guided_session.py:78-85 | The wording check refuses exactly the texts that contain a mastery word in whatever letters |
| `EducationMeaning.NextActionExactly` | src/master_all_strings/education/contracts.py:225-259 | What a next action of each kind needs |
| `EducationMeaning.FindingExactly` | src/master_all_strings/education/contracts.py:162-208 | What a finding needs: evidence, and no reference twice |
| `EducationMeaning.EvaluationExactly` | src/master_all_strings/education/contracts.py:328-365 | What an evaluation needs: findings told apart by their ids, and well-formed parts |
| `EducationMeaning.ItemExactly` | src/master_all_strings/education/guidance.py:98-115 | What a guidance item needs |
| `EducationMeaning.ProjectionExactly` | src/master_all_strings/education/guidance.py:137-158 | What a guidance projection needs |
| `EducationMeaning.ActionExactly` | src/master_all_strings/education/guided_session.py:101-130 | The states an action record can be in |
| `EducationMeaning.ContextExactly` | src/master_all_strings/education/guided_session.py:147-168 | What a context needs |
| `EducationMeaning.AttemptExactly` | src/master_all_strings/education/guided_session.py:237-270 | What an attempt record needs |
| `EducationMeaning.SessionExactly` | src/master_all_strings/education/guided_session.py:295-336 | What a session record needs: attempts numbered in order, told apart by id and by performance, all under its pins, the last one current |
| `Guidance.ItemsFromFinding` | src/master_all_strings/education/guidance_builder.py:57-64 | One item per referenced event, or one without an event; fails exactly when a referenced event's zone is not an identifier |
| `Guidance.BuildProjection` | src/master_all_strings/education/guidance_builder.py:67-118 | The loop over findings builds exactly the sorted items, digest and provenance of the projection, or names the fault |
| `Guidance.GuidedEventIds` | src/master_all_strings/education/guidance.py:168-179 | Each event some item cites, once, in the order of first citing, and no other |
| `GuidanceLaws.SortKeeps` | src/master_all_strings/education/guidance.py:182-197 | Sorting orders the items by finding, event, type and severity and only permutes them |
| `GuidanceLaws.FindingOrderIrrelevant` | src/master_all_strings/education/guidance_builder.py:90-118 | Permuting the findings changes nothing: not the items, their order, the digest, nor which fault is reported |
| `GuidanceLaws.EveryReferenceOnce` | src/master_all_strings/education/guidance_builder.py:57-64 | Each pair of a finding and an event it refers to, or a finding without events, appears in exactly one item, copied faithfully |
| `GuidanceLaws.EveryItemFromAFinding` | src/master_all_strings/education/guidance_builder.py:32-64 | And no other item appears |
| `GuidanceLaws.BuiltIsValid` | src/master_all_strings/education/guidance_builder.py:107-118 | A built projection and its items pass every constructor check |
| `GuidanceLaws.ZonesKeepDigest` | src/master_all_strings/education/guidance.py:45-50 | Zones never change the digest |
| `GuidanceLaws.DigestIgnoresOrderExactly` | src/master_all_strings/education/guidance.py:207-240 | The digest is the same for every order of a list of items if and only if items with the same sort key agree, zones aside |
| `GuidanceLaws.DisagreeingTieExists` | src/master_all_strings/education/guidance.py:182-197 | Two valid items with one sort key whose order changes the digest |
| `GuidanceMeaning.ProjectExactly` | src/master_all_strings/education/guidance_builder.py:67-118 | An evaluation is projected unless the revision, the policy, a zone of one of its events or the given provenance is not made of identifiers; the first of these is reported |
| `GuidanceMeaning.ProjectedExactly` | src/master_all_strings/education/guidance_builder.py:90-118 | What a projection says of its evaluation, revision, policy and producer |
| `GuidanceMeaning.ItemsExactly` | src/master_all_strings/education/guidance_builder.py:32-64 | The items are exactly those that copy a finding for one of its events, or for none if it has none, with the zone of that event |
| `GuidanceMeaning.ItemsInOrder` | src/master_all_strings/education/guidance.py:182-197 | They are ordered by finding, then event, then kind, then severity, text by text |
| `GuidanceMeaning.CitedInOrder` | src/master_all_strings/education/guidance.py:168-179 | Cited events are listed in the order in which items first cite them |
| `GuidedSessionLaws.CreateSuffices` | src/master_all_strings/education/guided_session_service.py:184-217 | Creation from valid evidence either refuses in its own checks or gives a session that passes every constructor check, with a true digest |
| `GuidedSessionLaws.GuardsSuffice` | src/master_all_strings/education/guided_session_service.py:220-427 | On any valid session an operation with valid inputs that passes its own checks builds records that pass every constructor check, and the stored digest covers exactly their semantic fields |
| `GuidedSessionLaws.DraftSuffices` | src/master_all_strings/education/guided_session.py:361-367 | A well-formed draft gets its own digest and nothing else changes |
| `GuidedSessionLaws.AppendRecordsEvidence` | src/master_all_strings/education/guided_session_service.py:220-263 | An appended attempt carries the given evidence, its own index, fresh ids and the authoritative digests, undecided, after unchanged earlier attempts |
| `GuidedSessionLaws.DecisionRecorded` | src/master_all_strings/education/guided_session_service.py:266-312 | A decision is accepted if and only if one is awaited, and records just itself |
| `GuidedSessionLaws.ExecutionRecorded` | src/master_all_strings/education/guided_session_service.py:315-390 | An execution records the reported status and what was executed, by default the recommendation; it closes the session exactly for a succeeded CONTINUE |
| `GuidedSessionLaws.StepKeeps` | src/master_all_strings/education/guided_session_service.py:133-427 | Every accepted operation keeps the lifecycle, the ids, the pins and the history, and is counted once |
| `GuidedSessionLaws.RunInvariant` | src/master_all_strings/education/guided_session_service.py:184-427 | In every reachable session all attempts but the last are resolved and no finished CONTINUE, the status says exactly where the last one stands, the digest is true, and n attempts have seen at most 3n + 1 operations, which the session counts exactly |
| `GuidedSessionLaws.RunContinues` | src/master_all_strings/education/guided_session_service.py:133-152 | Later sessions of a run keep the identity, pins and every resolved attempt of earlier ones |
| `GuidedSessionLaws.ClosedExactly` | src/master_all_strings/education/guided_session_service.py:382-390 | A session is closed if and only if it holds a succeeded CONTINUE, which is then its last attempt |
| `GuidedSessionLaws.TerminalIsFinal` | src/master_all_strings/education/guided_session_service.py:409-412 | A closed or left session refuses everything |
| `GuidedSessionLaws.BuiltProjectionIsEvidence` | src/master_all_strings/education/guided_session_service.py:98-124 | A projection built from an evaluation is always evidence for it: creation is refused only for a blank id |
| `GuidedEvidenceLaws.CreateExactly` | src/master_all_strings/education/guided_session_service.py:98-217 | A session is created if and only if the ids are identifiers and the projection names the performance, digest and primary action of the evaluation |
| `GuidedEvidenceLaws.CreatedExactly` | src/master_all_strings/education/guided_session_service.py:155-217 | It then holds that evidence as its only attempt, undecided |
| `GuidedEvidenceLaws.AppendExactly` | src/master_all_strings/education/guided_session_service.py:98-263 | An attempt is appended if and only if it is, the session awaits one, pins and index match, and its id and performance are fresh |
| `GuidedEvidenceLaws.AppendedExactly` | src/master_all_strings/education/guided_session_service.py:220-263 | And the session then holds the evidence as one more attempt, undecided, after the earlier ones |
| `GuidedEvidenceLaws.ExecuteExactly` | src/master_all_strings/education/guided_session_service.py:315-390 | An outcome is recorded if and only if an accepted action waits for it and it is an outcome the action can have |
| `GuidedEvidenceLaws.LeaveExactly` | src/master_all_strings/education/guided_session_service.py:393-427 | A session is left if and only if it is not over and the lesson changes; it keeps its attempts and notes where the learner went |
| `GuidedEvidenceLaws.SessionDigestExactly` | src/master_all_strings/education/guided_session.py:339-367 | Two sessions have the same digest if and only if they agree in every field but the provenance |
| `GuidedEvidenceLaws.GuidanceDigestExactly` | src/master_all_strings/education/guidance.py:200-240 | Two projections have the same digest if and only if they agree in every field it covers and in their sorted items but for the zones |
| `GuidedEvidenceLaws.GuidanceIsOwn` | src/master_all_strings/education/guided_session_service.py:98-263 | Over every run given true digests, the guidance digest of each attempt is of guidance on its own performance, evaluation, revision and action |
| `GuidedClientLaws.DispositionGateAgrees` | web/mvp1/guided_disposition.js:74-81 | The accept and decline controls are live if and only if the service accepts a decision, and then it accepts either |
| `GuidedClientLaws.ExecutionGateAgreesExactly` | web/mvp1/guided_disposition.js:83-90 | The Apply gate agrees with the service if and only if the session was not left with its action accepted and pending |
| `GuidedClientLaws.LeftSessionStaysApplicable` | web/mvp1/guided_disposition.js:83-90 | Leaving an accepted session makes one whose gate is open while the service refuses every execution |
| `GuidedClientLaws.CreateAcceptLeave` | src/master_all_strings/education/guided_session_service.py:393-427 | Creating a session, accepting its first action and leaving always ends with the gate open on a session that refuses every execution |
| `GuidedClientLaws.LeftSessionRun` | src/master_all_strings/education/guided_session_service.py:393-427 | One such run of the service, from a valid evaluation |
| `GuidedClientLaws.OutcomesAreAccepted` | web/mvp1/guided-action-executor.js:90-130 | Whatever the runtime does and whichever action the caller names, the reported outcome is one the service accepts |
| `GuidedClientLaws.ExecutedExactly` | web/mvp1/guided-action-executor.js:20-130 | The executor succeeds if and only if the accepted action waits, is the one asked for, and the page can do what it asks; it is unsupported exactly for the two views |
| `GuidedClientLaws.ClickedExactly` | web/mvp1/guided-action-executor.js:176-204 | A click on a waiting action that is neither out nor locked sends what running it came to, for the attempt shown; any other click does nothing |
| `GuidedClientLaws.AnsweredExactly` | web/mvp1/guided-action-executor.js:205-238 | A recorded answer is shown; a lost one locks the attempt of an action that succeeded |
| `GuidedClient.ApplyHandler.Click` | web/mvp1/guided-action-executor.js:176-204 | A click runs the action only past the gate, the in-flight flag and the lock, and reports it for the attempt shown |
| `GuidedClient.ApplyHandler.Recorded` | web/mvp1/guided-action-executor.js:205-238 | A recorded answer replaces the session; a success whose evidence failed locks its attempt |
| `GuidedClient.ApplyHandler.SetSession` | web/mvp1/app.js:107-111 | The page shows another session to the handler and changes nothing else of it |
| `GuidedApply.StepKeepsInv` | web/mvp1/guided-action-executor.js:163-239 | Clicks, recordings that succeed, get lost, lose their answer or reach the service after they were given up, answers of other requests shown at any later time, a cleared page and other use of the service keep every applied action spent, locked or in flight |
| `GuidedApply.AppliedAtMostOnce` | web/mvp1/guided-action-executor.js:163-239 | Over every such run, recordings and answers arriving late and in any order included, the runtime action succeeds at most once per session and attempt |
| `GuidedApply.ExecutionResolves` | src/master_all_strings/education/guided_session_service.py:315-390 | After an execution is recorded every attempt of the session is resolved |
| `BeginEvidenceChecks.EvidenceVerifier.VerifyRun` | scripts/verify_do016_begin_recovery_evidence.py:115-134 | Reports nothing exactly when the header is a complete, clean, live run of this schema |
| `BeginEvidenceChecks.EvidenceVerifier.ReadBytes` | scripts/verify_do016_begin_recovery_evidence.py:189-205 | Gives the recorded bytes if and only if they are base64 with the recorded hash |
| `BeginEvidenceChecks.EvidenceVerifier.Decode` | scripts/verify_do016_begin_recovery_evidence.py:137-186 | The exchange as its bytes say it; reports nothing exactly when the parsed copies agree with the bytes |
| `BeginEvidenceChecks.EvidenceVerifier.VerifyEpochs` | scripts/verify_do016_begin_recovery_evidence.py:216-237 | Reports nothing exactly when two processes A and B with a restart between them are described |
| `BeginEvidenceChecks.EvidenceVerifier.VerifyOrder` | scripts/verify_do016_begin_recovery_evidence.py:240-256 | Reports nothing exactly when numbers increase, fill 1 to n + 1 with the restart, and scenarios do not interleave |
| `BeginEvidenceChecks.EvidenceVerifier.VerifyShape` | scripts/verify_do016_begin_recovery_evidence.py:259-324 | Reports nothing exactly when request, response and attempt have the right shape and belong together |
| `BeginEvidenceChecks.EvidenceVerifier.VerifySequences` | scripts/verify_do016_begin_recovery_evidence.py:337-353 | Reports nothing exactly when each scenario recorded its expected exchanges |
| `BeginEvidenceChecks.EvidenceVerifier.VerifyKeys` | scripts/verify_do016_begin_recovery_evidence.py:360-379 | Reports nothing exactly when every key is bound to one payload and each scenario has one key of its own |
| `BeginEvidenceChecks.EvidenceVerifier.VerifyIdentities` | scripts/verify_do016_begin_recovery_evidence.py:382-411 | Comparing with dictionaries of firsts reports nothing exactly when any two answers with attempts agree; returns each scenario's interrupted attempt |
| `BeginEvidenceChecks.EvidenceVerifier.VerifyRestart` | scripts/verify_do016_begin_recovery_evidence.py:414-431 | Reports nothing exactly when the replay repeats the aborted bytes and the epochs split at the restart |
| `BeginEvidenceChecks.EvidenceVerifier.VerifyFeedback` | scripts/verify_do016_begin_recovery_evidence.py:434-454 | Reports nothing exactly when the page showed each recovered attempt without an evaluation |
| `BeginEvidenceChecks.EvidenceVerifier.VerifyEvidence` | scripts/verify_do016_begin_recovery_evidence.py:84-112 | Returns no problem if and only if the packet is acceptable in every respect, for packets whose JSON values compare structurally: a status written 200.0 is refused here and a key that cannot be hashed is reported |
| `BeginEvidenceChecks.FittingIsIdentity` | scripts/verify_do016_begin_recovery_evidence.py:382-411 | Comparing each exchange with the dictionaries compares it with every earlier one |
| `BeginEvidenceLaws.Numbering` | scripts/verify_do016_begin_recovery_evidence.py:240-247 | Increasing numbers that fill 1 to n + 1 with the restart's are their place, plus one after the restart |
| `BeginEvidenceLaws.BlocksAreAll` | scripts/verify_do016_begin_recovery_evidence.py:248-256 | Scenarios in order are blocks, one after the other |
| `BeginEvidenceLaws.ThirteenExchanges` | scripts/verify_do016_begin_recovery_evidence.py:51-79 | There are exactly thirteen exchanges, each the expected one at its place |
| `BeginEvidenceLaws.RestartIsTwelve` | scripts/verify_do016_begin_recovery_evidence.py:414-431 | The restart is number 12, the first eleven exchanges are 1 to 11 in epoch A, the last two 13 and 14 in epoch B, and the replayed begin repeats the aborted bytes |
| `BeginEvidenceLaws.KeysPerScenario` | scripts/verify_do016_begin_recovery_evidence.py:360-379 | Two exchanges share a key if and only if they share a scenario, and then a payload |
| `BeginEvidenceLaws.AcceptedIsWitnessed` | scripts/verify_do016_begin_recovery_evidence.py:84-112 | A packet with no problems is the whole witnessed run: thirteen exchanges in order and numbered around the restart, epochs split, five keys each with one payload |
| `BeginEvidenceLaws.AcceptedExactly` | scripts/verify_do016_begin_recovery_evidence.py:240-431 | The recorded exchanges are accepted if and only if they are the witnessed run, each has the right shape, and their attempts agree |
| `BeginEvidenceSample.SampleAccepted` | scripts/verify_do016_begin_recovery_evidence.py:240-431 | Thirteen exchanges that every check accepts, with the restart at 12 |
| `BeginEvidenceSample.PacketAccepted` | scripts/verify_do016_begin_recovery_evidence.py:84-112 | A whole packet around them, bytes, hashes, epochs and page texts included, without a problem |
| `BeginEvidenceLaws.RecoveriesInterruptTheirBegins` | scripts/verify_do016_begin_recovery_evidence.py:382-411 | In an accepted run a recovery interrupts the very attempt its scenario began, repeats give the same result, and scenarios have different attempts |
| `BeginEvidenceLaws.FeedbackNamesTheAttempt` | scripts/verify_do016_begin_recovery_evidence.py:434-454 | And the page showed each recovered attempt's id |
| `BeginEvidenceMeaning.PacketExactly` | scripts/verify_do016_begin_recovery_evidence.py:84-454 | A packet is accepted if and only if it is evidence of the whole run, told field by field: header, restart, bytes and hashes, the thirteen lines of the transcript, requests and answers, keys, attempts and page texts |
| `BeginEvidenceMeaning.WholeRunExactly` | scripts/verify_do016_begin_recovery_evidence.py:240-431 | Exchanges are accepted if and only if they are the thirteen of the transcript, each asking and answering, with one key and payload to a scenario and attempts that agree |
| `BeginEvidenceMeaning.ShapeExactly` | scripts/verify_do016_begin_recovery_evidence.py:259-324 | A request asks to begin with a version 4 UUID and five fields; an answer is an error, or echoes the key and carries an attempt with the pins of the request, with no notes if it was interrupted |
| `BeginEvidenceMeaning.AgreeExactly` | scripts/verify_do016_begin_recovery_evidence.py:382-411 | Two answers agree when they name one attempt for one key, different attempts for different keys, and one document for the interruptions of a scenario |
| `BeginEvidenceMeaning.RecordsExactly` | scripts/verify_do016_begin_recovery_evidence.py:137-205 | An exchange is decoded exactly when its bytes are base64 with the recorded hash and hold the objects recorded beside them |
| `BeginEvidenceMeaning.RunExactly` | scripts/verify_do016_begin_recovery_evidence.py:115-134 | The header of an accepted packet, field by field |
| `BeginEvidenceMeaning.EpochsExactly` | scripts/verify_do016_begin_recovery_evidence.py:216-237 | The two processes of an accepted packet, field by field |
| `BeginEvidenceMeaning.FeedbackExactly` | scripts/verify_do016_begin_recovery_evidence.py:434-454 | The page passes exactly when it visibly showed the id of every recovered attempt, that no evaluation was produced, and no match |
| `InFlight.ValidateRows` | scripts/check_in_flight.py:176-211 | No problem if and only if every row is well formed and no branch or pull request is listed twice |
| `InFlight.Reconciler.GroupByBranch` | scripts/check_in_flight.py:268-270 | The dictionary of open numbers per branch, forks left out |
| `InFlight.Reconciler.JudgeRow` | scripts/check_in_flight.py:275-342 | One row's finding, in the order of the checks: live rows first, then stale ones, then misplaced numbers |
| `InFlight.Reconciler.Reconcile` | scripts/check_in_flight.py:225-381 | The loops report exactly the specified findings, split into failures and notes in order |
| `InFlightLaws.PassesExactly` | scripts/check_in_flight.py:225-381 | On a working branch reconciliation passes if and only if no other branch's row is stale, the branch has at most one open pull request, has a row if it has one, and its row names it |
| `InFlightLaws.NothingFailsElsewhere` | scripts/check_in_flight.py:214-222 | From main or a detached head nothing ever fails |
| `InFlightLaws.LiveRowsAreNotStale` | scripts/check_in_flight.py:279-301 | A row whose branch has an open pull request is never called stale, in a failure or a note |
| `InFlightLaws.RepairWorks` | scripts/check_in_flight.py:225-381 | Dropping other branches' stale rows and setting or adding the own row from the open pull request makes reconciliation pass |
| `InFlightLaws.RepairableExactly` | scripts/check_in_flight.py:345-352 | Some register passes if and only if the branch has at most one open pull request |
| `InFlightLaws.PassingNeedsNoRepair` | scripts/check_in_flight.py:225-381 | Reconciliation passes if and only if the repair would change nothing |
| `InFlightLaws.RepairStaysValidExactly` | scripts/check_in_flight.py:205-210 | A valid register stays valid when repaired if and only if no other branch's row names the own pull request |
| `InFlightMeaning.FindingsExactly` | scripts/check_in_flight.py:225-381 | What is a failure and what a note, finding by finding, told from the register, the open pull requests and the current branch |
| `InFlightMeaning.FindingsInOrder` | scripts/check_in_flight.py:275-381 | Failures and notes come rows first, then branches, then pull requests from forks |
| `InFlightMeaning.LiveExactly` | scripts/check_in_flight.py:268-274 | The numbers a finding names are those of the open pull requests of its branch here, in ascending order |
| `InFlightMeaning.RegisterExactly` | scripts/check_in_flight.py:176-211 | A register is in order when its rows are filled in and no branch and no pull request has two |

## Left out

- Floating point: times, rates and seconds are reals, so rounding is not modelled.
- Listener re-entrancy: a transport's listeners are the log of events they are told; a listener that calls back into the transport while it emits is not modelled, except for the scheduler, which hears what its own reads emit.
- AudioScheduling.AudioScheduler.Tick: the synth and the audio context are the notes handed over and the clock read; timers are the sequence of ticks, and the guarantee is per uninterrupted stretch, as in the source.
- TeachingTimeline class: sequence numbers, followers and playhead states are not modelled, only the table functions they use.
- PracticeActions.PracticeActionController.ApplyIsolatePassage: the focus range resolver is the page's, which turns a refusal into no range (web/mvp1/app.js:156-163); another resolver that throws would leave the source's method by exception, and here is an unresolved range.
- MediaSync.MediaSyncFollower.OnTimeline: a property of the media element that throws when it is read is not modelled, as the source does not catch it either; a play that is refused leaves the element paused.
- MediaSyncLaws.ResampleConverges: assumes an element that does not stall, takes the rate it is given and plays at it.
- Attempt protocol: device selection, interaction locks, playback, feedback texts and notices are not modelled; hiding the page abandons in the same step (web/mvp1/lesson_practice.js:555-562), and the page is current exactly while it is not hidden.
- AttemptLaws.NoOrphanedAttempt: assumes that a server never starts the same attempt id for two begin requests, and that start keys are unique; keys are named by the generation that minted them.
- AttemptControllers.AttemptController.AppendReply: the reply's body is only its accepted-event count; that the server counts accepted messages is an assumption.
- Digests: SHA-256 and canonical JSON are constructors over the digested content, so equal digests mean equal content.
- Provenance of a session is a map, whose sorted items the source stores.
- EducationContracts.CatalogIsModest: lower-casing is ASCII, which is all the catalog uses.
- Guided session contexts, evaluations and guidance are assumed to have passed their own constructors; the HTTP and JSON layer between browser and service is taken to deliver records unchanged.
- GuidedSessionController: its lesson pins, syncing and transition requests are only the requests `GuidedApply` lets the service serve and the sessions it lets the page show.
- GuidedApply.AppliedAtMostOnce: every request other than a recording is answered at most once, at any later time; the page puts the answer to leaving a session aside (web/mvp1/guided_disposition.js:315-336), and never reads a session back from the service.
- BeginEvidenceChecks.EvidenceVerifier.VerifyEvidence: JSON values compare structurally, so Python's equality of 1, 1.0 and True is not modelled (a status written 200.0 is accepted by the source and refused here), and a key that cannot be hashed, an exception in the source, is a problem reported here.
- Evidence packets: base64, SHA-256 and JSON parsing are parameters; report texts are shortened.
- InFlight.ValidateRows: cells are taken as parsed; reading the Markdown table itself (`parse_register`), git and GitHub are not modelled, and digits are ASCII.
- HTTP clients, servers, DOM, Web MIDI, renderers, fixture builders and the Educational evaluation itself.
