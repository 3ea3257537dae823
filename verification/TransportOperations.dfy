/** What each operation of the transport does to the position a reader sees, then and later. */
module TransportOperations {
  import opened Prelude
  import opened RealDivision
  import opened Transport
  import opened TransportLaws

  /** Before the end of the lesson and of an enabled loop. */
  predicate Room(c: Clock, position: real) {
    && 0.0 <= position
    && (c.durationSeconds > 0.0 ==> position < c.durationSeconds)
    && (c.loop.Some? && c.loop.value.enabled ==> position < c.loop.value.endSeconds)
  }

  /** The lesson, the loop and the rate are as they were. */
  predicate SameSettings(c: Clock, d: Clock) {
    d.playbackRate == c.playbackRate && d.durationSeconds == c.durationSeconds && d.loop == c.loop
  }

  /** `position`, and what is played from `now` to `t` at the clock's rate. */
  function Later(position: real, rate: real, now: real, t: real): real { position + (t - now) / 1000.0 * rate }

  /** The position cut at the end of the lesson, if it has one. */
  function Cut(position: real, duration: real): real {
    if duration > 0.0 && position > duration then duration else position
  }

  // ----- Clocks started at a known place -----

  lemma RoomBefore(c: Clock, position: real, now: real, t: real)
    requires Valid(c) && 0.0 <= position && now <= t && Room(c, Later(position, c.playbackRate, now, t))
    ensures Room(c, position)
  {
    MulMono(0.0, (t - now) / 1000.0, c.playbackRate);
  }

  /** A clock anchored at `now` plays on from its base while there is room. */
  lemma RollsOn(d: Clock, now: real, t: real)
    requires Valid(d) && d.playing && d.anchorWallMs == Some(now) && now <= t
    requires Room(d, Later(d.baseSeconds, d.playbackRate, now, t))
    ensures Read(d, t) == Reading(Later(d.baseSeconds, d.playbackRate, now, t), d.repetitionCount, true)
    ensures !Crosses(d, t) && !Ends(d, t)
  {
    ElapsedSplits(now, now, t, d.playbackRate);
  }

  /** What announcing a change of such a clock leaves. */
  lemma AnnouncedRolls(before: seq<Event>, d: Clock, kind: Kind, now: real, t: real)
    requires Valid(d) && d.playing && d.anchorWallMs == Some(now) && now <= t
    requires Room(d, Later(d.baseSeconds, d.playbackRate, now, t))
    ensures Announce(before, d, kind, now).clock == d
    ensures Read(d, t) == Reading(Later(d.baseSeconds, d.playbackRate, now, t), d.repetitionCount, true)
  {
    RoomBefore(d, d.baseSeconds, now, t);
    RollsOn(d, now, now);
    RollsOn(d, now, t);
    EmitAlone(d, kind, now);
  }

  lemma AnnouncedRests(before: seq<Event>, d: Clock, kind: Kind, now: real)
    requires Valid(d) && !d.playing
    ensures Announce(before, d, kind, now).clock == d
    ensures forall t :: Read(d, t) == Reading(Cut(d.baseSeconds, d.durationSeconds), d.repetitionCount, false)
  {
    EmitAlone(d, kind, now);
  }

  lemma {:induction false} PollKeepsSettings(c: Clock, now: real)
    requires Valid(c)
    ensures SameSettings(c, Poll(c, now).clock)
    decreases Rank(c, now)
  {
    if Crosses(c, now) {
      PollKeepsSettings(if ReachesTarget(c, now) then Finished(c) else Wrapped(c, now), now);
    } else if Ends(c, now) {
      PollKeepsSettings(Completed(c), now);
    }
  }

  // ----- Seeking -----

  /** A seek lands where it was asked to, and the transport goes on from there as it was: a stopped one
      stays, a playing one plays on at its rate. */
  lemma SeekLands(c: Clock, x: real, now: real, t: real)
    requires Valid(c) && now <= t && 0.0 <= x
    requires if c.playing then Room(c, Later(x, c.playbackRate, now, t)) else c.durationSeconds > 0.0 ==> x <= c.durationSeconds
    ensures var d := SeekSpec(c, x, now).clock;
      && SameSettings(c, d)
      && Read(d, t) == Reading(if c.playing then Later(x, c.playbackRate, now, t) else x, c.repetitionCount, c.playing)
  {
    if c.playing {
      RoomBefore(c, x, now, t);
      AnnouncedRolls([], c.(baseSeconds := x, anchorWallMs := Some(now)), SeekEvent, now, t);
    } else {
      AnnouncedRests([], c.(baseSeconds := x), SeekEvent, now);
    }
  }

  /** A target outside the lesson is its nearer end. A stopped transport rests there; a playing one
      without a loop to wrap is at once at its end. */
  lemma SeekOutside(c: Clock, x: real, now: real, t: real)
    requires Valid(c) && now <= t && (x < 0.0 || (c.durationSeconds > 0.0 && x >= c.durationSeconds))
    ensures var end := if x < 0.0 then 0.0 else c.durationSeconds;
      && SeekSpec(c, x, now) == SeekSpec(c, end, now)
      && (!c.playing ==> Read(SeekSpec(c, x, now).clock, t) == Reading(end, c.repetitionCount, false))
      && (c.playing && x >= 0.0 && !Looping(c) ==>
            Read(SeekSpec(c, x, now).clock, t) == Reading(end, c.repetitionCount, false))
  {
    var end := if x < 0.0 then 0.0 else c.durationSeconds;
    if !c.playing {
      AnnouncedRests([], c.(baseSeconds := end), SeekEvent, now);
    } else if x >= 0.0 && !Looping(c) {
      SeekToEnd(c.(baseSeconds := end, anchorWallMs := Some(now)), now);
    }
  }

  lemma SeekToEnd(d: Clock, now: real)
    requires Valid(d) && d.playing && d.anchorWallMs == Some(now) && !Looping(d)
    requires d.durationSeconds > 0.0 && d.baseSeconds == d.durationSeconds
    ensures forall t :: Read(Emit(d, SeekEvent, now).clock, t) == Reading(d.durationSeconds, d.repetitionCount, false)
  {
    EmitAlone(Completed(d), CompleteEvent, now);
  }

  /** A playing transport sought past the end of its loop is back inside it, with the laps in between
      counted. */
  lemma SeekWraps(c: Clock, x: real, now: real)
    requires Valid(c) && c.playing && Looping(c) && LoopInsideDuration(c)
    requires c.loop.value.endSeconds <= x && (c.durationSeconds > 0.0 ==> x <= c.durationSeconds)
    requires c.loop.value.target.None?
    ensures var (r, loop) := (Read(SeekSpec(c, x, now).clock, now), c.loop.value);
      && r.playing && loop.startSeconds <= r.position < loop.endSeconds
      && Distance(loop, r.repetitions, r.position) == Distance(loop, c.repetitionCount, x)
  {
    var d := c.(baseSeconds := x, anchorWallMs := Some(now));
    ElapsedSplits(now, now, now, c.playbackRate);
    WrapKeepsMusical(d, now);
    PollPlaying(d, now);
    PollSettles(d, now);
    assert Announce([], d, SeekEvent, now).clock == Poll(d, now).clock;
    PollPlaying(Poll(d, now).clock, now);
  }

  // ----- Restarting and clearing the loop -----

  /** After a restart the transport rests at zero, with no repetitions, for good. */
  lemma RestartRests(c: Clock, now: real, t: real)
    requires Valid(c)
    ensures var d := RestartSpec(c, now).clock; SameSettings(c, d) && Read(d, t) == Reading(0.0, 0, false)
  {
    AnnouncedRests([], c.(playing := false, baseSeconds := 0.0, anchorWallMs := None, repetitionCount := 0), RestartEvent, now);
  }

  /** Where a clock is when nothing wraps it or ends it. */
  function Straight(c: Clock, t: real): real
    requires Valid(c)
  {
    if c.playing then Later(c.baseSeconds, c.playbackRate, c.anchorWallMs.value, t) else c.baseSeconds
  }

  /** Without its loop the transport goes straight on from where it was, to the end of the lesson; the
      repetitions are forgotten, and no later read counts any. */
  lemma ClearLoopGoesOn(c: Clock, now: real, t: real)
    requires Valid(c) && After(c, now) && now <= t
    ensures var d := ClearLoopSpec(c, now).clock;
      && d.loop == None && d.playbackRate == c.playbackRate && d.durationSeconds == c.durationSeconds
      && Read(d, t) == Reading(Cut(Straight(c, t), c.durationSeconds), 0,
                               c.playing && !(c.durationSeconds > 0.0 && Straight(c, t) >= c.durationSeconds))
  {
    var d := c.(loop := None, repetitionCount := 0);
    if c.playing {
      ElapsedSplits(c.anchorWallMs.value, now, t, c.playbackRate);
      ElapsedSplits(c.anchorWallMs.value, c.anchorWallMs.value, t, c.playbackRate);
      ElapsedSplits(c.anchorWallMs.value, c.anchorWallMs.value, now, c.playbackRate);
      PollPlaying(d, now);
      PollPlaying(d, t);
      PollBetween(d, now, t);
    } else {
      AnnouncedRests([], d, LoopEvent, now);
    }
  }

  /** A loop is taken exactly when 0 <= start < end <= duration; its repetitions start at none, and a
      transport with room goes on as it was. */
  lemma SetLoopGoesOn(c: Clock, loop: Loop, now: real, t: real)
    requires Valid(c) && After(c, now) && now <= t
    ensures SetLoopSpec(c, loop, now).Success? <==>
      && 0.0 <= loop.startSeconds < loop.endSeconds
      && (c.durationSeconds > 0.0 ==> loop.endSeconds <= c.durationSeconds)
    ensures SetLoopSpec(c, loop, now).Success? && Room(c.(loop := Some(loop)), Straight(c, t)) ==>
      var d := SetLoopSpec(c, loop, now).value.clock;
      && d.loop == Some(loop) && d.playbackRate == c.playbackRate && d.durationSeconds == c.durationSeconds
      && Read(d, t) == Reading(Straight(c, t), 0, c.playing)
  {
    var d := c.(loop := Some(loop), repetitionCount := 0);
    if SetLoopSpec(c, loop, now).Success? && Room(d, Straight(c, t)) {
      if c.playing {
        ElapsedSplits(c.anchorWallMs.value, now, t, c.playbackRate);
        ElapsedSplits(c.anchorWallMs.value, c.anchorWallMs.value, t, c.playbackRate);
        ElapsedSplits(c.anchorWallMs.value, c.anchorWallMs.value, now, c.playbackRate);
        EmitAlone(d, LoopEvent, now);
      } else {
        AnnouncedRests([], d, LoopEvent, now);
      }
    }
  }

  // ----- Playing and pausing -----

  /** Where play begins: at the position, or from a lesson's end at the loop's start or at zero. */
  function StartsAt(c: Clock, position: real): real {
    if c.durationSeconds > 0.0 && position == c.durationSeconds then
      if c.loop.Some? && c.loop.value.enabled then c.loop.value.startSeconds else 0.0
    else position
  }

  /** A stopped transport with room plays on from where a reader saw it, or from the start if that was
      the end of the lesson; a playing one is left alone. */
  lemma PlayGoesOn(c: Clock, now: real, t: real)
    requires Valid(c) && now <= t
    ensures c.playing ==> PlaySpec(c, now) == Changed(c, [])
    ensures var s := StartsAt(c, Read(c, now).position);
      !c.playing && Room(c, Later(s, c.playbackRate, now, t)) ==>
        var d := PlaySpec(c, now).clock;
        && SameSettings(c, d)
        && Read(d, t) == Reading(Later(s, c.playbackRate, now, t), c.repetitionCount, true)
  {
    var s := StartsAt(c, Read(c, now).position);
    if !c.playing && Room(c, Later(s, c.playbackRate, now, t)) {
      assert PlayFrom(c) == s;
      AnnouncedRolls([], c.(baseSeconds := s, playing := true, anchorWallMs := Some(now)), PlayEvent, now, t);
    }
  }

  /** A paused transport rests where it was, for good. */
  lemma PauseRests(c: Clock, now: real, t: real)
    requires Valid(c)
    ensures !c.playing ==> PauseSpec(c, now) == Changed(c, [])
    ensures var (d, r) := (PauseSpec(c, now).clock, Read(c, now));
      c.playing ==> SameSettings(c, d) && Read(d, t) == Reading(Cut(r.position, c.durationSeconds), r.repetitions, false)
  {
    if c.playing {
      var p := Poll(c, now);
      PollStaysNonnegative(c, now);
      PollKeepsSettings(c, now);
      AnnouncedRests(p.events, p.clock.(baseSeconds := p.position, playing := false, anchorWallMs := None), PauseEvent, now);
    }
  }

  // ----- Rate and duration -----

  /** One of the four rates is taken, any other refused; the position stays, and plays on at the new
      rate. */
  lemma RateGoesOn(c: Clock, rate: real, now: real, t: real)
    requires Valid(c) && now <= t
    ensures SetRateSpec(c, rate, now).Success? <==> rate == 0.5 || rate == 0.75 || rate == 1.0 || rate == 1.5
    ensures SetRateSpec(c, rate, now).Success? ==>
      var (d, r) := (SetRateSpec(c, rate, now).value.clock, Read(c, now));
      && d.playbackRate == rate && d.durationSeconds == c.durationSeconds && d.loop == c.loop
      && (!r.playing ==> Read(d, t) == Reading(Cut(r.position, c.durationSeconds), r.repetitions, false))
      && (r.playing && Room(c, Later(r.position, rate, now, t)) ==>
            Read(d, t) == Reading(Later(r.position, rate, now, t), r.repetitions, true))
  {
    if SetRateSpec(c, rate, now).Success? {
      if c.playing {
        var p := Poll(c, now);
        PollStaysNonnegative(c, now);
        PollKeepsSettings(c, now);
        var d := p.clock.(baseSeconds := p.position, anchorWallMs := Some(now), playbackRate := rate);
        PollKeepsSettings(d, now);
        if !p.clock.playing {
          AnnouncedRests(p.events, d, RateEvent, now);
        } else if Room(c, Later(p.position, rate, now, t)) {
          AnnouncedRolls(p.events, d, RateEvent, now, t);
        }
      } else {
        AnnouncedRests([], c.(playbackRate := rate), RateEvent, now);
      }
    }
  }

  /** A duration of at least zero is taken. The position stays unless the lesson is now shorter, and a
      playing transport plays on unless that is its end. */
  lemma DurationGoesOn(c: Clock, seconds: real, now: real, t: real)
    requires Valid(c) && After(c, now) && now <= t
    ensures SetDurationSpec(c, seconds, now).Success? <==> seconds >= 0.0
    ensures SetDurationSpec(c, seconds, now).Success? ==>
      var (d, r) := (SetDurationSpec(c, seconds, now).value.clock, Read(c, now));
      var at := Cut(r.position, seconds);
      && d.playbackRate == c.playbackRate && d.durationSeconds == seconds && d.loop == c.loop
      && (!r.playing || (seconds > 0.0 && r.position >= seconds) ==> Read(d, t) == Reading(at, r.repetitions, false))
      && (r.playing && Room(c.(durationSeconds := seconds), Later(at, c.playbackRate, now, t)) ==>
            Read(d, t) == Reading(Later(at, c.playbackRate, now, t), r.repetitions, true))
  {
    if seconds >= 0.0 {
      var p := Poll(c, now);
      var at := Cut(p.position, seconds);
      PollStaysNonnegative(c, now);
      PollKeepsSettings(c, now);
      var d := p.clock.(durationSeconds := seconds, baseSeconds := at);
      if !p.clock.playing {
        AnnouncedRests(p.events, d, DurationEvent, now);
      } else {
        var e := d.(anchorWallMs := Some(now));
        PollKeepsSettings(e, now);
        if seconds > 0.0 && p.position >= seconds {
          ReadStopsExactly(c, now);
          CutShort(e, now);
        } else if Room(e, Later(at, c.playbackRate, now, t)) {
          AnnouncedRolls(p.events, e, DurationEvent, now, t);
        }
      }
    }
  }

  lemma CutShort(d: Clock, now: real)
    requires Valid(d) && d.playing && d.anchorWallMs == Some(now) && d.durationSeconds > 0.0
    requires d.baseSeconds == d.durationSeconds && (Looping(d) ==> d.baseSeconds < d.loop.value.endSeconds)
    ensures forall t :: Read(Emit(d, DurationEvent, now).clock, t) == Reading(d.durationSeconds, d.repetitionCount, false)
  {
    ElapsedSplits(now, now, now, d.playbackRate);
    EmitAlone(Completed(d), CompleteEvent, now);
  }

  // ----- Playing a loop whose target was reached -----

  /** A stopped transport starts if and only if it does not rest at or past the end of a loop with its
      repetitions used up: there the announcement's own read stops it again. */
  lemma PlayStartsExactly(c: Clock, now: real)
    requires Valid(c) && !c.playing && LoopInsideDuration(c)
    ensures var s := StartsAt(c, Read(c, now).position);
      PlaySpec(c, now).clock.playing <==>
        !(&& c.loop.Some? && c.loop.value.enabled && s >= c.loop.value.endSeconds && c.loop.value.target.Some?
          && Distance(c.loop.value, c.repetitionCount, s) >= Distance(c.loop.value, c.loop.value.target.value, c.loop.value.startSeconds))
  {
    var s := StartsAt(c, Read(c, now).position);
    var d := c.(baseSeconds := s, playing := true, anchorWallMs := Some(now));
    assert PlayFrom(c) == s;
    ElapsedSplits(now, now, now, c.playbackRate);
    assert Raw(d, now) == s;
    assert PlaySpec(c, now).clock == Poll(d, now).clock;
    PollPlaying(d, now);
    if Crosses(d, now) && c.loop.value.target.Some? {
      var loop := c.loop.value;
      var n := loop.target.value - 1 - c.repetitionCount;
      QuotientAtLeast(s - loop.endSeconds, loop.Length(), n);
      assert loop.target.value as real * loop.Length()
        == n as real * loop.Length() + c.repetitionCount as real * loop.Length() + loop.Length();
    }
  }

  /** Resting where its target stopped it, before the end of the lesson, play leaves it as it was. */
  lemma FinishedLoopStays(c: Clock, now: real)
    requires Valid(c) && !c.playing && c.anchorWallMs == None && Looping(c) && c.loop.value.target == Some(c.repetitionCount)
    requires c.baseSeconds == c.loop.value.endSeconds && c.loop.value.endSeconds < c.durationSeconds
    ensures PlaySpec(c, now).clock == c
  {
    var d := c.(playing := true, anchorWallMs := Some(now));
    ElapsedSplits(now, now, now, c.playbackRate);
    assert Raw(d, now) == c.baseSeconds && Raw(d, now) - c.loop.value.endSeconds == 0.0;
    QuotientUnique(0.0, c.loop.value.Length(), 0);
    assert Crosses(d, now) && ReachesTarget(d, now);
    assert Finished(d) == c;
    EmitAlone(Finished(d), LoopCompleteEvent, now);
    assert PlayFrom(c) == c.baseSeconds && Poll(d, now).clock == c;
  }

  lemma LoopPlayedOut(c: Clock, loop: Loop, now: real, end: real)
    requires Valid(c) && c.playing && c.anchorWallMs == Some(now) && c.baseSeconds == 0.0 && c.playbackRate == 1.0
    requires c.loop == Some(loop) && loop.enabled && loop.target == Some(1) && c.repetitionCount == 0
    requires end == now + loop.endSeconds * 1000.0
    ensures Poll(c, end).clock
      == c.(playing := false, anchorWallMs := None, baseSeconds := loop.endSeconds, repetitionCount := 1)
  {
    assert Raw(c, end) == loop.endSeconds;
    QuotientUnique(0.0, loop.Length(), 0);
    EmitAlone(Finished(c), LoopCompleteEvent, end);
  }

  /** Ten seconds with a loop from 2 to 8 to be played once, from 0: once it is over, at 8 s, play at
      9 s starts nothing. */
  lemma FinishedLoopRun() returns (sized: Clock, looped: Clock, played: Clock, done: Clock, zero: real, end: real, later: real)
    ensures zero == 0.0 && end == 8000.0 && later == 9000.0
    ensures SetDurationSpec(INITIAL, 10.0, zero).Success? && SetDurationSpec(INITIAL, 10.0, zero).value.clock == sized
    ensures Valid(sized) && SetLoopSpec(sized, Loop(true, 2.0, 8.0, Some(1)), zero).Success?
    ensures SetLoopSpec(sized, Loop(true, 2.0, 8.0, Some(1)), zero).value.clock == looped
    ensures Valid(looped) && PlaySpec(looped, zero).clock == played && Valid(played) && played.playing
    ensures Poll(played, end).clock == done && Valid(done) && !done.playing && PlaySpec(done, later).clock == done
  {
    var loop := Loop(true, 2.0, 8.0, Some(1));
    zero, end, later := 0.0, 8000.0, 9000.0;
    DurationOfNew(INITIAL, 10.0, zero);
    sized := INITIAL.(durationSeconds := 10.0);
    LoopOfStopped(sized, loop, zero);
    looped := sized.(loop := Some(loop));
    PlayFromStart(looped, zero);
    played := PlaySpec(looped, zero).clock;
    assert end == zero + loop.endSeconds * 1000.0;
    LoopPlayedOut(played, loop, zero, end);
    done := Poll(played, end).clock;
    FinishedLoopStays(done, later);
  }

  // ----- What listeners are told -----

  /** The last of some events is of this kind and tells what a reader of the clock then sees. Only
      `playing` may be out of date, by a stop that was announced before it. */
  ghost predicate Tells(events: seq<Event>, kind: Kind, d: Clock, now: real)
    requires Valid(d)
  {
    && events != []
    && var (last, r) := (events[|events| - 1], Read(d, now));
    && last.kind == kind
    && last.snapshot.repetitionCount == r.repetitions && last.snapshot.playbackRate == d.playbackRate
    && last.snapshot.durationSeconds == d.durationSeconds && last.snapshot.loop == d.loop
    && (last.snapshot.playing != d.playing ==> exists i | 0 <= i < |events| - 1 :: events[i].kind in {LoopCompleteEvent, CompleteEvent})
    && (d.playing || d.baseSeconds <= d.durationSeconds || d.durationSeconds <= 0.0 ==> last.snapshot.positionSeconds == r.position)
  }

  lemma {:induction false} PollStopsAloud(c: Clock, now: real)
    requires Valid(c)
    ensures var p := Poll(c, now);
      p.clock.playing != c.playing ==> exists i | 0 <= i < |p.events| :: p.events[i].kind in {LoopCompleteEvent, CompleteEvent}
    decreases Rank(c, now)
  {
    if Crosses(c, now) && ReachesTarget(c, now) {
      EmitAlone(Finished(c), LoopCompleteEvent, now);
      assert Poll(c, now).events[0].kind == LoopCompleteEvent;
    } else if Crosses(c, now) {
      PollStopsAloud(Wrapped(c, now), now);
      var q := Poll(Wrapped(c, now), now);
      assert Poll(c, now).events[..|q.events|] == q.events;
      if q.clock.playing != c.playing {
        var i :| 0 <= i < |q.events| && q.events[i].kind in {LoopCompleteEvent, CompleteEvent};
        assert Poll(c, now).events[i] == q.events[i];
      }
    } else if Ends(c, now) {
      EmitAlone(Completed(c), CompleteEvent, now);
      assert Poll(c, now).events[0].kind == CompleteEvent;
    }
  }

  lemma AnnounceTells(before: seq<Event>, c: Clock, kind: Kind, now: real)
    requires Valid(c) && After(c, now)
    ensures var r := Announce(before, c, kind, now); before <= r.events && Tells(r.events, kind, r.clock, now)
  {
    var p := Poll(c, now);
    var r := Announce(before, c, kind, now);
    PollSettles(c, now);
    PollStopsAloud(c, now);
    PositionTold(c, now);
    assert r.events == before + p.events + [Event(kind, SnapshotOf(c.playing, p))];
    if p.clock.playing != c.playing {
      var i :| 0 <= i < |p.events| && p.events[i].kind in {LoopCompleteEvent, CompleteEvent};
      assert r.events[|before| + i] == p.events[i];
    }
  }

  /** A second read at once sees the same position, unless it was left past the end of the lesson. */
  lemma PositionTold(c: Clock, now: real)
    requires Valid(c) && After(c, now)
    ensures var p := Poll(c, now);
      p.clock.playing || p.clock.baseSeconds <= p.clock.durationSeconds || p.clock.durationSeconds <= 0.0 ==>
        Read(p.clock, now).position == p.position
  {
    if Crosses(c, now) && ReachesTarget(c, now) {
      EmitAlone(Finished(c), LoopCompleteEvent, now);
    } else if Crosses(c, now) {
      WrapSettles(c, now);
      ElapsedSplits(now, now, now, c.playbackRate);
    } else if Ends(c, now) {
      EmitAlone(Completed(c), CompleteEvent, now);
    }
  }

  /** Every accepted operation that changes the transport tells its listeners so, last of all. */
  lemma OperationsTell(c: Clock, x: real, loop: Loop, now: real)
    requires Valid(c) && After(c, now)
    ensures Tells(SeekSpec(c, x, now).events, SeekEvent, SeekSpec(c, x, now).clock, now)
    ensures Tells(RestartSpec(c, now).events, RestartEvent, RestartSpec(c, now).clock, now)
    ensures Tells(ClearLoopSpec(c, now).events, LoopEvent, ClearLoopSpec(c, now).clock, now)
    ensures !c.playing ==> Tells(PlaySpec(c, now).events, PlayEvent, PlaySpec(c, now).clock, now)
    ensures c.playing ==> Tells(PauseSpec(c, now).events, PauseEvent, PauseSpec(c, now).clock, now)
    ensures var r := SetLoopSpec(c, loop, now); r.Success? ==> Tells(r.value.events, LoopEvent, r.value.clock, now)
    ensures var r := SetRateSpec(c, x, now); r.Success? ==> Tells(r.value.events, RateEvent, r.value.clock, now)
    ensures var r := SetDurationSpec(c, x, now); r.Success? ==> Tells(r.value.events, DurationEvent, r.value.clock, now)
  {
    SimpleTell(c, x, loop, now);
    PauseTells(c, now);
    RateTells(c, x, now);
    DurationTells(c, x, now);
  }

  lemma PauseTells(c: Clock, now: real)
    requires Valid(c) && After(c, now)
    ensures c.playing ==> Tells(PauseSpec(c, now).events, PauseEvent, PauseSpec(c, now).clock, now)
  {
    var p := Poll(c, now);
    PollStaysNonnegative(c, now);
    AnnounceTells(p.events, p.clock.(baseSeconds := p.position, playing := false, anchorWallMs := None), PauseEvent, now);
  }

  lemma RateTells(c: Clock, rate: real, now: real)
    requires Valid(c) && After(c, now)
    ensures var r := SetRateSpec(c, rate, now); r.Success? ==> Tells(r.value.events, RateEvent, r.value.clock, now)
  {
    if ValidRate(rate) && c.playing {
      var p := Poll(c, now);
      PollStaysNonnegative(c, now);
      AnnounceTells(p.events, p.clock.(baseSeconds := p.position, anchorWallMs := Some(now), playbackRate := rate), RateEvent, now);
    } else if ValidRate(rate) {
      AnnounceTells([], c.(playbackRate := rate), RateEvent, now);
    }
  }

  lemma DurationTells(c: Clock, seconds: real, now: real)
    requires Valid(c) && After(c, now)
    ensures var r := SetDurationSpec(c, seconds, now); r.Success? ==> Tells(r.value.events, DurationEvent, r.value.clock, now)
  {
    if seconds >= 0.0 {
      var p := Poll(c, now);
      ReadAfter(c, now);
      var d := p.clock.(durationSeconds := seconds);
      var e := d.(baseSeconds := Clamp(d, p.position));
      AnnounceTells(p.events, if e.playing then e.(anchorWallMs := Some(now)) else e, DurationEvent, now);
    }
  }

  lemma ReadAfter(c: Clock, now: real)
    requires Valid(c) && After(c, now)
    ensures After(Poll(c, now).clock, now)
  {
    if Crosses(c, now) && ReachesTarget(c, now) {
      EmitAlone(Finished(c), LoopCompleteEvent, now);
    } else if Crosses(c, now) {
      WrapSettles(c, now);
    } else if Ends(c, now) {
      EmitAlone(Completed(c), CompleteEvent, now);
    }
  }

  lemma SimpleTell(c: Clock, x: real, loop: Loop, now: real)
    requires Valid(c) && After(c, now)
    ensures Tells(SeekSpec(c, x, now).events, SeekEvent, SeekSpec(c, x, now).clock, now)
    ensures Tells(RestartSpec(c, now).events, RestartEvent, RestartSpec(c, now).clock, now)
    ensures Tells(ClearLoopSpec(c, now).events, LoopEvent, ClearLoopSpec(c, now).clock, now)
    ensures !c.playing ==> Tells(PlaySpec(c, now).events, PlayEvent, PlaySpec(c, now).clock, now)
    ensures var r := SetLoopSpec(c, loop, now); r.Success? ==> Tells(r.value.events, LoopEvent, r.value.clock, now)
  {
    var moved := c.(baseSeconds := Clamp(c, x));
    AnnounceTells([], if c.playing then moved.(anchorWallMs := Some(now)) else moved, SeekEvent, now);
    AnnounceTells([], c.(playing := false, baseSeconds := 0.0, anchorWallMs := None, repetitionCount := 0), RestartEvent, now);
    AnnounceTells([], c.(loop := None, repetitionCount := 0), LoopEvent, now);
    if !c.playing {
      AnnounceTells([], c.(baseSeconds := PlayFrom(c), playing := true, anchorWallMs := Some(now)), PlayEvent, now);
    }
    if SetLoopSpec(c, loop, now).Success? {
      AnnounceTells([], c.(loop := Some(loop), repetitionCount := 0), LoopEvent, now);
    }
  }
}
