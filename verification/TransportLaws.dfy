/** What polling the transport's clock means over whole runs. */
module TransportLaws {
  import opened Prelude
  import opened RealDivision
  import opened Transport

  /** A loop is safe when it is off or ends inside the duration (no duration: anywhere). */
  predicate LoopInsideDuration(c: Clock) {
    Looping(c) && c.durationSeconds > 0.0 ==> c.loop.value.endSeconds <= c.durationSeconds
  }

  /** What an onlooker sees when reading the clock at `now`. */
  datatype Reading = Reading(position: real, repetitions: int, playing: bool)

  function Read(c: Clock, now: real): Reading
    requires Valid(c)
  {
    var p := Poll(c, now);
    Reading(p.position, p.clock.repetitionCount, p.clock.playing)
  }

  predicate After(c: Clock, now: real) {
    c.anchorWallMs.Some? ==> c.anchorWallMs.value <= now
  }

  lemma ElapsedSplits(a: real, b: real, d: real, rate: real)
    requires a <= b <= d && rate > 0.0
    ensures Elapsed(a, d, rate) == Elapsed(a, b, rate) + Elapsed(b, d, rate)
    ensures Elapsed(a, b, rate) >= 0.0 && Elapsed(b, b, rate) == 0.0
    ensures Elapsed(b, d, rate) == (d - b) / 1000.0 * rate
  {
    var x := (b - a) / 1000.0;
    var y := (d - b) / 1000.0;
    MulMono(0.0, x, rate);
    MulMono(0.0, y, rate);
    assert (d - a) / 1000.0 == x + y;
    assert (x + y) * rate == x * rate + y * rate;
    assert (b - b) / 1000.0 * rate == 0.0;
  }

  /** When a read would leave the clock alone, emitting adds its own event and nothing else. */
  lemma EmitAlone(c: Clock, kind: Kind, now: real)
    requires Valid(c) && !Crosses(c, now) && !Ends(c, now)
    ensures Emit(c, kind, now).clock == c && Settled(c, now)
    ensures |Emit(c, kind, now).events| == 1 && Emit(c, kind, now).events[0].kind == kind
  {
  }

  /** A clock a read at `now` would leave alone. Every operation leaves its clock so. */
  predicate Settled(c: Clock, now: real)
    requires Valid(c)
  {
    Poll(c, now).clock == c && Poll(c, now).events == []
  }

  /** One read of a playing clock whose loop is safe, in one step of arithmetic. */
  lemma PollPlaying(c: Clock, now: real)
    requires Valid(c) && c.playing && LoopInsideDuration(c)
    ensures var p := Poll(c, now);
      if Crosses(c, now) then
        if ReachesTarget(c, now) then
          p.clock == Finished(c) && p.position == c.loop.value.endSeconds
        else p.clock == Wrapped(c, now) && p.position == p.clock.baseSeconds
      else if Ends(c, now) then p.clock == Completed(c) && p.position == c.durationSeconds
      else p.clock == c && p.position == Raw(c, now)
  {
    if Crosses(c, now) && ReachesTarget(c, now) {
      EmitAlone(Finished(c), LoopCompleteEvent, now);
    } else if Crosses(c, now) {
      var w := Wrapped(c, now);
      assert Raw(w, now) == w.baseSeconds;
      EmitAlone(w, WrapEvent, now);
    } else if Ends(c, now) {
      EmitAlone(Completed(c), CompleteEvent, now);
    }
  }

  /** A read in between changes nothing a later read can see. */
  lemma PollBetween(c: Clock, t1: real, t2: real)
    requires Valid(c) && LoopInsideDuration(c) && After(c, t1) && t1 <= t2
    ensures Read(Poll(c, t1).clock, t2) == Read(c, t2)
    ensures LoopInsideDuration(Poll(c, t1).clock) && After(Poll(c, t1).clock, t1)
  {
    if c.playing {
      PollPlaying(c, t1);
      PollPlaying(c, t2);
      ElapsedSplits(c.anchorWallMs.value, t1, t2, c.playbackRate);
      if Crosses(c, t1) {
        CrossedBetween(c, t1, t2);
      }
    }
  }

  lemma CrossedBetween(c: Clock, t1: real, t2: real)
    requires Valid(c) && c.playing && LoopInsideDuration(c) && After(c, t1) && t1 <= t2 && Crosses(c, t1)
    ensures Read(Poll(c, t1).clock, t2) == Read(c, t2)
  {
    var end := c.loop.value.endSeconds;
    PollPlaying(c, t1);
    PollPlaying(c, t2);
    ElapsedSplits(c.anchorWallMs.value, t1, t2, c.playbackRate);
    var more := Elapsed(t1, t2, c.playbackRate);
    assert Raw(c, t2) - end == Raw(c, t1) - end + more;
    QuotientInTwoGoes(Raw(c, t1) - end, more, c.loop.value.Length());
    if !ReachesTarget(c, t1) {
      var w := Wrapped(c, t1);
      PollPlaying(w, t2);
      assert Raw(w, t2) - end == Remainder(Raw(c, t1) - end, c.loop.value.Length()) + more - c.loop.value.Length();
    }
  }

  function PollAll(c: Clock, times: seq<real>): (r: Clock)
    requires Valid(c)
    ensures Valid(r)
    decreases |times|
  {
    if times == [] then c else PollAll(Poll(c, times[0]).clock, times[1..])
  }

  predicate Ascending(from: real, times: seq<real>, to: real)
    decreases |times|
  {
    if times == [] then from <= to else from <= times[0] && Ascending(times[0], times[1..], to)
  }

  /** Any number of reads leaves the same position, repetition count and playing flag as one. */
  lemma {:induction false} PollIndependence(c: Clock, from: real, times: seq<real>, to: real)
    requires Valid(c) && LoopInsideDuration(c) && After(c, from) && Ascending(from, times, to)
    ensures Read(PollAll(c, times), to) == Read(c, to)
    decreases |times|
  {
    if times != [] {
      AscendingBounds(times[0], times[1..], to);
      PollBetween(c, times[0], to);
      PollIndependence(Poll(c, times[0]).clock, times[0], times[1..], to);
    }
  }

  lemma {:induction false} AscendingBounds(from: real, times: seq<real>, to: real)
    requires Ascending(from, times, to)
    ensures from <= to
    decreases |times|
  {
    if times != [] {
      AscendingBounds(times[0], times[1..], to);
    }
  }

  lemma {:induction false} PollKeepsRate(c: Clock, now: real)
    requires Valid(c)
    ensures Poll(c, now).clock.playbackRate == c.playbackRate
    decreases Rank(c, now)
  {
    if Crosses(c, now) {
      PollKeepsRate(if ReachesTarget(c, now) then Finished(c) else Wrapped(c, now), now);
    } else if Ends(c, now) {
      PollKeepsRate(Completed(c), now);
    }
  }

  lemma PollSettles(c: Clock, now: real)
    requires Valid(c) && After(c, now)
    ensures Settled(Poll(c, now).clock, now)
  {
    if Crosses(c, now) && ReachesTarget(c, now) {
      EmitAlone(Finished(c), LoopCompleteEvent, now);
    } else if Crosses(c, now) {
      WrapSettles(c, now);
    } else if Ends(c, now) {
      EmitAlone(Completed(c), CompleteEvent, now);
    }
  }

  /** After a wrap the clock rests inside the loop, or past the duration and so completed. */
  lemma WrapSettles(c: Clock, now: real)
    requires Valid(c) && Crosses(c, now) && !ReachesTarget(c, now)
    ensures var w := Wrapped(c, now);
      && Poll(c, now).clock == (if Ends(w, now) then Completed(w) else w)
      && Settled(Poll(c, now).clock, now)
  {
    var w := Wrapped(c, now);
    assert Raw(w, now) == w.baseSeconds;
    assert Poll(c, now).clock == Emit(w, WrapEvent, now).clock;
    if Ends(w, now) {
      EmitAlone(Completed(w), CompleteEvent, now);
      assert Poll(w, now).clock == Emit(Completed(w), CompleteEvent, now).clock;
    } else {
      EmitAlone(w, WrapEvent, now);
    }
  }

  predicate Unseen(c: Clock, t1: real, t2: real)
    requires Valid(c)
  {
    Read(Poll(c, t1).clock, t2) == Read(c, t2)
  }

  /** `setDuration` does not re-check a loop, so the loop can end outside the duration. Reads are
      independent of each other exactly when it does not. */
  lemma PollIndependenceExactly(c: Clock, start: real)
    requires Valid(c) && c.playing && c.anchorWallMs == Some(start) && Settled(c, start)
    ensures (forall t1, t2 | start <= t1 <= t2 :: Unseen(c, t1, t2)) <==> LoopInsideDuration(c)
  {
    if LoopInsideDuration(c) {
      forall t1, t2 | start <= t1 <= t2
        ensures Unseen(c, t1, t2)
      {
        PollBetween(c, t1, t2);
      }
    } else {
      BelowDuration(c, start);
      var t1 := WhenAt(c, start, c.durationSeconds);
      var t2 := WhenAt(c, start, c.loop.value.endSeconds);
      SeenOutsideDuration(c, t1, t2);
      assert !Unseen(c, t1, t2);
    }
  }

  lemma BelowDuration(c: Clock, now: real)
    requires Valid(c) && c.playing && Settled(c, now) && c.anchorWallMs == Some(now) && !LoopInsideDuration(c)
    ensures c.baseSeconds < c.durationSeconds
  {
    ElapsedSplits(now, now, now, c.playbackRate);
    if Crosses(c, now) && !ReachesTarget(c, now) {
      WrapSettles(c, now);
    } else if Crosses(c, now) {
      EmitAlone(Finished(c), LoopCompleteEvent, now);
    } else if Ends(c, now) {
      EmitAlone(Completed(c), CompleteEvent, now);
    }
  }

  /** The wall time at which an undisturbed clock reaches `position`. */
  lemma WhenAt(c: Clock, start: real, position: real) returns (t: real)
    requires Valid(c) && c.anchorWallMs == Some(start) && position >= c.baseSeconds
    ensures t >= start && Raw(c, t) == position
    ensures t == start + (position - c.baseSeconds) * 1000.0 / c.playbackRate
  {
    t := start + (position - c.baseSeconds) * 1000.0 / c.playbackRate;
  }

  lemma SeenOutsideDuration(c: Clock, t1: real, t2: real)
    requires Valid(c) && c.playing && !LoopInsideDuration(c)
    requires Raw(c, t1) == c.durationSeconds && Raw(c, t2) == c.loop.value.endSeconds
    ensures !Unseen(c, t1, t2)
  {
    EmitAlone(Completed(c), CompleteEvent, t1);
    QuotientUnique(0.0, c.loop.value.Length(), 0);
    assert Read(Poll(c, t1).clock, t2).repetitions == c.repetitionCount;
    if ReachesTarget(c, t2) {
      EmitAlone(Finished(c), LoopCompleteEvent, t2);
      assert Read(Poll(c, t1).clock, t2).position == c.durationSeconds;
    } else {
      WrapSettles(c, t2);
    }
  }

  /** On a new transport: a duration, a loop inside it, a shorter duration, and play, all at `now`. */
  function Shortened(long: real, loop: Loop, short: real, now: real): Result<Clock, ()> {
    match SetDurationSpec(INITIAL, long, now)
    case Failure(e) => Failure(e)
    case Success(sized) =>
      match SetLoopSpec(sized.clock, loop, now)
      case Failure(e) => Failure(e)
      case Success(looped) =>
        match SetDurationSpec(looped.clock, short, now)
        case Failure(e) => Failure(e)
        case Success(cut) => Success(PlaySpec(cut.clock, now).clock)
  }

  lemma DurationOfNew(c: Clock, seconds: real, now: real)
    requires Valid(c) && !c.playing && c.baseSeconds == 0.0 && seconds > 0.0
    ensures SetDurationSpec(c, seconds, now).Success?
    ensures SetDurationSpec(c, seconds, now).value.clock == c.(durationSeconds := seconds)
  {
    EmitAlone(c.(durationSeconds := seconds), DurationEvent, now);
  }

  lemma LoopOfStopped(c: Clock, loop: Loop, now: real)
    requires Valid(c) && !c.playing && LoopAccepted(c, loop.startSeconds, loop.endSeconds)
    ensures SetLoopSpec(c, loop, now).Success?
    ensures SetLoopSpec(c, loop, now).value.clock == c.(loop := Some(loop), repetitionCount := 0)
  {
    EmitAlone(c.(loop := Some(loop), repetitionCount := 0), LoopEvent, now);
  }

  lemma PlayFromStart(c: Clock, now: real)
    requires Valid(c) && !c.playing && c.baseSeconds == 0.0 && c.durationSeconds > 0.0
    requires Looping(c) ==> c.loop.value.endSeconds > 0.0
    ensures var d := c.(playing := true, anchorWallMs := Some(now));
      PlaySpec(c, now).clock == d && Settled(d, now)
  {
    ElapsedSplits(now, now, now, c.playbackRate);
    EmitAlone(c.(playing := true, anchorWallMs := Some(now)), PlayEvent, now);
  }

  lemma ShortenedIs(long: real, loop: Loop, short: real, now: real)
    requires 0.0 <= loop.startSeconds < loop.endSeconds <= long && 0.0 < short
    ensures var c := Clock(true, 0.0, Some(now), 1.0, short, Some(loop), 0);
      Shortened(long, loop, short, now) == Success(c) && Valid(c) && Settled(c, now)
  {
    DurationOfNew(INITIAL, long, now);
    var sized := INITIAL.(durationSeconds := long);
    LoopOfStopped(sized, loop, now);
    DurationOfNew(sized.(loop := Some(loop)), short, now);
    PlayFromStart(sized.(loop := Some(loop), durationSeconds := short), now);
  }

  /** A clock at zero with a loop past the duration that begins inside it. */
  predicate LoopsPast(c: Clock, now: real) {
    && Valid(c) && c.playing && c.anchorWallMs == Some(now) && c.playbackRate == 1.0 && c.baseSeconds == 0.0
    && Looping(c) && c.loop.value.target.None? && !LoopInsideDuration(c) && c.loop.value.startSeconds < c.durationSeconds
  }

  /** A read when the lesson ends completes it. */
  lemma EarlyRead(c: Clock, now: real, t1: real, t2: real)
    requires LoopsPast(c, now) && t1 == now + c.durationSeconds * 1000.0
    ensures Read(Poll(c, t1).clock, t2) == Reading(c.durationSeconds, c.repetitionCount, false)
  {
    assert Raw(c, t1) == c.durationSeconds;
    EmitAlone(Completed(c), CompleteEvent, t1);
  }

  /** A read at the loop's end alone wraps. */
  lemma LateRead(c: Clock, now: real, t2: real)
    requires LoopsPast(c, now) && t2 == now + c.loop.value.endSeconds * 1000.0
    ensures Read(c, t2) == Reading(c.loop.value.startSeconds, c.repetitionCount + 1, true)
  {
    assert Raw(c, t2) == c.loop.value.endSeconds;
    QuotientUnique(0.0, c.loop.value.Length(), 0);
    WrapSettles(c, t2);
    EmitAlone(Wrapped(c, t2), WrapEvent, t2);
  }

  /** Ten seconds, a loop from 2 to 8, then five seconds, and play at 0: the reads at 5 and 8 seconds
      depend on each other. */
  lemma PollDependenceRun() returns (c: Clock, zero: real, t1: real, t2: real)
    ensures zero == 0.0 && t1 == 5000.0 && t2 == 8000.0
    ensures Shortened(10.0, Loop(true, 2.0, 8.0, None), 5.0, zero) == Success(c)
    ensures Valid(c) && c.playing && Settled(c, zero) && !LoopInsideDuration(c)
    ensures Read(Poll(c, t1).clock, t2) == Reading(5.0, 0, false)
    ensures Read(c, t2) == Reading(2.0, 1, true)
  {
    var loop := Loop(true, 2.0, 8.0, None);
    zero := 0.0;
    ShortenedIs(10.0, loop, 5.0, zero);
    c := Shortened(10.0, loop, 5.0, zero).value;
    t1, t2 := zero + c.durationSeconds * 1000.0, zero + c.loop.value.endSeconds * 1000.0;
    EarlyRead(c, zero, t1, t2);
    LateRead(c, zero, t2);
  }

  // ----- An anchor on a stopped clock -----

  /** Reading a playing clock at `now` stops it: at the target, or at the end of the lesson, which a
      wrap can overshoot when the loop lies past it. */
  predicate ReadStops(c: Clock, now: real)
    requires Valid(c)
  {
    if Crosses(c, now) then ReachesTarget(c, now) || Ends(Wrapped(c, now), now) else Ends(c, now)
  }

  lemma ReadStopsExactly(c: Clock, now: real)
    requires Valid(c) && c.playing
    ensures Poll(c, now).clock.playing <==> !ReadStops(c, now)
    ensures var p := Poll(c, now);
      !ReadStops(c, now) ==>
        && (Looping(p.clock) ==> p.position < p.clock.loop.value.endSeconds)
        && (p.clock.durationSeconds > 0.0 ==> p.position < p.clock.durationSeconds)
  {
    if Crosses(c, now) && ReachesTarget(c, now) {
      EmitAlone(Finished(c), LoopCompleteEvent, now);
    } else if Crosses(c, now) {
      WrapSettles(c, now);
    } else if Ends(c, now) {
      EmitAlone(Completed(c), CompleteEvent, now);
    }
  }

  /** A rate change leaves a stopped clock with an anchor if and only if its own read stopped the
      clock, or the clock was stopped and had one already. */
  lemma StoppedWithAnchorExactly(c: Clock, rate: real, now: real)
    requires Valid(c) && ValidRate(rate)
    ensures SetRateSpec(c, rate, now).Success?
    ensures var d := SetRateSpec(c, rate, now).value.clock;
      !d.playing && d.anchorWallMs.Some? <==> if c.playing then ReadStops(c, now) else c.anchorWallMs.Some?
  {
    if c.playing {
      var p := Poll(c, now);
      ReadStopsExactly(c, now);
      PollStaysNonnegative(c, now);
      var moved := p.clock.(baseSeconds := p.position, anchorWallMs := Some(now), playbackRate := rate);
      ElapsedSplits(now, now, now, rate);
      EmitAlone(moved, RateEvent, now);
    } else {
      EmitAlone(c.(playbackRate := rate), RateEvent, now);
    }
  }

  /** A lesson played past its end: the rate change stops it and leaves an anchor behind. */
  lemma LateRateStops(c: Clock, rate: real, now: real)
    requires Valid(c) && c.playing && c.anchorWallMs.Some? && c.loop.None? && c.durationSeconds > 0.0
    requires ValidRate(rate) && Raw(c, now) >= c.durationSeconds
    ensures SetRateSpec(c, rate, now).Success?
    ensures SetRateSpec(c, rate, now).value.clock
         == Completed(c).(anchorWallMs := Some(now), playbackRate := rate)
  {
    EmitAlone(Completed(c), CompleteEvent, now);
    EmitAlone(Completed(c).(anchorWallMs := Some(now), playbackRate := rate), RateEvent, now);
  }

  /** Ten seconds on a new transport, played from 0, and the rate changed at 11 seconds. */
  lemma StoppedWithAnchorRun() returns (sized: Clock, played: Clock, zero: real, late: real)
    ensures zero == 0.0 && late == 11000.0
    ensures SetDurationSpec(INITIAL, 10.0, zero).Success? && SetDurationSpec(INITIAL, 10.0, zero).value.clock == sized
    ensures Valid(sized) && PlaySpec(sized, zero).clock == played
    ensures Valid(played) && SetRateSpec(played, 0.5, late).Success?
    ensures SetRateSpec(played, 0.5, late).value.clock == Clock(false, 10.0, Some(late), 0.5, 10.0, None, 0)
  {
    zero, late := 0.0, 11000.0;
    DurationOfNew(INITIAL, 10.0, zero);
    sized := INITIAL.(durationSeconds := 10.0);
    PlayFromStart(sized, zero);
    played := PlaySpec(sized, zero).clock;
    LateRateStops(played, 0.5, late);
  }

  // ----- Conservation of musical time -----

  datatype Op = PollAt(at: real) | RateAt(rate: real, at: real) | PauseAt(at: real) | PlayAt(at: real)

  /** A refused rate changes nothing. */
  function Apply(c: Clock, op: Op): (r: Changed)
    requires Valid(c)
    ensures Valid(r.clock)
  {
    match op
    case PollAt(t) => var p := Poll(c, t); Changed(p.clock, p.events)
    case RateAt(rate, t) => (match SetRateSpec(c, rate, t) case Success(r) => r case Failure(_) => Quiet(c))
    case PauseAt(t) => PauseSpec(c, t)
    case PlayAt(t) => PlaySpec(c, t)
  }

  function RunOps(c: Clock, ops: seq<Op>): (r: Changed)
    requires Valid(c)
    ensures Valid(r.clock)
    decreases |ops|
  {
    if ops == [] then Quiet(c)
    else
      var first := Apply(c, ops[0]);
      var rest := RunOps(first.clock, ops[1..]);
      Changed(rest.clock, first.events + rest.events)
  }

  predicate TargetStopped(events: seq<Event>) {
    exists e <- events :: e.kind == LoopCompleteEvent
  }

  predicate Timely(from: real, ops: seq<Op>, to: real)
    decreases |ops|
  {
    if ops == [] then from <= to else from <= ops[0].at && Timely(ops[0].at, ops[1..], to)
  }

  function Rolls(c: Clock, from: real, to: real): real {
    if c.playing then Elapsed(from, to, c.playbackRate) else 0.0
  }

  /** Rate times elapsed time, summed over every stretch the run plays through. */
  function Flow(c: Clock, from: real, ops: seq<Op>, to: real): real
    requires Valid(c)
    decreases |ops|
  {
    if ops == [] then Rolls(c, from, to)
    else Rolls(c, from, ops[0].at) + Flow(Apply(c, ops[0]).clock, ops[0].at, ops[1..], to)
  }

  /** Repetitions and position as one musical distance. */
  function Distance(loop: Loop, repetitions: int, position: real): real {
    repetitions as real * loop.Length() + position
  }

  function Musical(c: Clock, now: real): real
    requires Valid(c) && c.loop.Some?
  {
    Distance(c.loop.value, c.repetitionCount, if c.playing then Raw(c, now) else c.baseSeconds)
  }

  predicate Practising(c: Clock, from: real) {
    Valid(c) && Looping(c) && LoopInsideDuration(c) && After(c, from) && c.baseSeconds < c.loop.value.endSeconds
  }

  predicate Stops(c: Clock, now: real)
    requires Valid(c)
  {
    Crosses(c, now) && ReachesTarget(c, now)
  }

  lemma ReadMusical(c: Clock, now: real)
    requires Practising(c, now) && !Stops(c, now)
    ensures var r := Read(c, now);
      Distance(c.loop.value, r.repetitions, r.position) == Musical(c, now)
    ensures var p := Poll(c, now);
      && Practising(p.clock, now) && Musical(p.clock, now) == Musical(c, now)
      && p.clock.loop == c.loop && p.clock.playing == c.playing && p.clock.playbackRate == c.playbackRate
      && 0.0 <= p.position < c.loop.value.endSeconds
  {
    if c.playing {
      PollPlaying(c, now);
      if Crosses(c, now) {
        WrapKeepsMusical(c, now);
      }
    }
  }

  lemma WrapKeepsMusical(c: Clock, now: real)
    requires Valid(c) && Crosses(c, now)
    ensures Musical(Wrapped(c, now), now) == Musical(c, now)
    ensures Raw(Wrapped(c, now), now) == Wrapped(c, now).baseSeconds
  {
    var len := c.loop.value.Length();
    var q := Quotient(Raw(c, now) - c.loop.value.endSeconds, len);
    assert (c.repetitionCount + (q + 1)) as real * len
        == c.repetitionCount as real * len + q as real * len + len;
  }

  /** A poll that finds the last repetition played says so to the listeners. */
  lemma StopIsAnnounced(c: Clock, now: real)
    requires Valid(c) && Stops(c, now)
    ensures TargetStopped(Poll(c, now).events)
  {
    EmitAlone(Finished(c), LoopCompleteEvent, now);
    assert Poll(c, now).events[0].kind == LoopCompleteEvent;
  }

  predicate Reads(c: Clock, op: Op) {
    c.playing && !op.PlayAt? && !(op.RateAt? && !ValidRate(op.rate))
  }

  /** One operation moves musical time by exactly what rolled since the last one. */
  lemma ApplyConserves(c: Clock, from: real, op: Op)
    requires Practising(c, from) && from <= op.at
    requires !TargetStopped(Apply(c, op).events)
    ensures var d := Apply(c, op).clock;
      && Practising(d, op.at) && d.loop == c.loop
      && Musical(d, op.at) == Musical(c, from) + Rolls(c, from, op.at)
  {
    Rolled(c, from, op.at);
    if Reads(c, op) {
      PollEventsKept(c, op);
      if Stops(c, op.at) {
        StopIsAnnounced(c, op.at);
      }
      ReadKeeps(c, op);
    } else {
      SilentKeeps(c, op);
    }
  }

  lemma Rolled(c: Clock, from: real, to: real)
    requires Practising(c, from) && from <= to
    ensures Musical(c, to) == Musical(c, from) + Rolls(c, from, to)
  {
    if c.playing {
      ElapsedSplits(c.anchorWallMs.value, from, to, c.playbackRate);
    }
  }

  lemma ReadKeeps(c: Clock, op: Op)
    requires Practising(c, op.at) && Reads(c, op) && !Stops(c, op.at)
    ensures var d := Apply(c, op).clock;
      && Practising(d, op.at) && d.loop == c.loop && Musical(d, op.at) == Musical(c, op.at)
  {
    ReadMusical(c, op.at);
    PollFlat(c, op.at);
    var p := Poll(c, op.at);
    if op.PauseAt? {
      EmitAlone(p.clock.(baseSeconds := p.position, playing := false, anchorWallMs := None), PauseEvent, op.at);
    } else if op.RateAt? {
      AnchoredAt(p.clock.(baseSeconds := p.position, anchorWallMs := Some(op.at), playbackRate := op.rate),
                 RateEvent, op.at);
    }
  }

  lemma SilentKeeps(c: Clock, op: Op)
    requires Practising(c, op.at) && !Reads(c, op)
    ensures var d := Apply(c, op).clock;
      && Practising(d, op.at) && d.loop == c.loop && Musical(d, op.at) == Musical(c, op.at)
  {
    if !c.playing && op.PlayAt? {
      AnchoredAt(c.(playing := true, anchorWallMs := Some(op.at)), PlayEvent, op.at);
    } else if !c.playing && op.RateAt? && ValidRate(op.rate) {
      EmitAlone(c.(playbackRate := op.rate), RateEvent, op.at);
    }
  }

  lemma AnchoredAt(d: Clock, kind: Kind, now: real)
    requires Valid(d) && d.playing && d.anchorWallMs == Some(now) && LoopInsideDuration(d) && Looping(d)
    requires d.baseSeconds < d.loop.value.endSeconds
    ensures Emit(d, kind, now).clock == d && Raw(d, now) == d.baseSeconds
  {
    ElapsedSplits(now, now, now, d.playbackRate);
    EmitAlone(d, kind, now);
  }

  lemma PollFlat(c: Clock, now: real)
    requires Practising(c, now) && c.playing && !Stops(c, now)
    ensures var p := Poll(c, now); p.clock.anchorWallMs.Some? && Raw(p.clock, now) == p.position
  {
    PollPlaying(c, now);
    if Crosses(c, now) {
      WrapKeepsMusical(c, now);
    }
  }

  lemma PollEventsKept(c: Clock, op: Op)
    requires Valid(c) && c.playing && !op.PlayAt? && !(op.RateAt? && !ValidRate(op.rate))
    requires !TargetStopped(Apply(c, op).events)
    ensures !TargetStopped(Poll(c, op.at).events)
  {
    assert Poll(c, op.at).events <= Apply(c, op).events;
  }

  /** Until the target stops it, repetitions and position together grow by exactly the sum of
      rate times elapsed time, over any interleaving of polls, rate changes, pauses and plays. */
  lemma {:induction false} MusicalTimeConserved(c: Clock, from: real, ops: seq<Op>, to: real)
    requires Practising(c, from) && !Stops(c, from) && Timely(from, ops, to)
    requires var run := RunOps(c, ops); !TargetStopped(run.events) && !Stops(run.clock, to)
    ensures var d := RunOps(c, ops).clock;
      var start := Read(c, from);
      var end := Read(d, to);
      && d.loop == c.loop
      && Distance(c.loop.value, end.repetitions, end.position)
         == Distance(c.loop.value, start.repetitions, start.position) + Flow(c, from, ops, to)
  {
    ReadMusical(c, from);
    RunConserves(c, from, ops, to);
    ReadMusical(RunOps(c, ops).clock, to);
  }

  lemma {:induction false} RunConserves(c: Clock, from: real, ops: seq<Op>, to: real)
    requires Practising(c, from) && Timely(from, ops, to) && !TargetStopped(RunOps(c, ops).events)
    ensures var d := RunOps(c, ops).clock;
      && Practising(d, to) && d.loop == c.loop
      && Musical(d, to) == Musical(c, from) + Flow(c, from, ops, to)
    decreases |ops|
  {
    if ops == [] {
      if c.playing {
        ElapsedSplits(c.anchorWallMs.value, from, to, c.playbackRate);
      }
    } else {
      var first := Apply(c, ops[0]);
      var rest := RunOps(first.clock, ops[1..]);
      assert forall e <- first.events :: e in RunOps(c, ops).events;
      assert forall e <- rest.events :: e in RunOps(c, ops).events;
      ApplyConserves(c, from, ops[0]);
      RunConserves(first.clock, ops[0].at, ops[1..], to);
    }
  }

  /** The target stops a playing loop exactly when the musical time played reaches it, and the
      overshoot is dropped: the clock then rests at the loop end with the target count. */
  lemma TargetStopsExactly(c: Clock, now: real)
    requires Practising(c, now) && c.playing
    requires c.loop.value.target.Some? && c.repetitionCount < c.loop.value.target.value
    ensures var loop := c.loop.value;
      Stops(c, now) <==> Musical(c, now) >= Distance(loop, loop.target.value, loop.startSeconds)
    ensures Stops(c, now) ==> Read(c, now) == Reading(c.loop.value.endSeconds, c.loop.value.target.value, false)
    ensures !Stops(c, now) ==> Read(c, now).playing
  {
    var loop := c.loop.value;
    var n := loop.target.value - 1 - c.repetitionCount;
    var x := Raw(c, now) - loop.endSeconds;
    PollPlaying(c, now);
    QuotientAtLeast(x, loop.Length(), n);
    assert loop.target.value as real * loop.Length()
        == n as real * loop.Length() + c.repetitionCount as real * loop.Length() + loop.Length();
    MulMono(0.0, loop.Length(), 1.0);
    if !Crosses(c, now) {
      QuotientAtLeast(x, loop.Length(), 0);
    }
  }
}
