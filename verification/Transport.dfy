/** The browser transport: one anchor-derived musical clock (web/mvp1/transport.js).

    `Clock` is the value of the transport's fields. `Poll` is what reading the position does
    to them: reading can wrap the loop, or stop the transport, and each of those emits an event
    whose snapshot reads the position again. `Transport` is the object itself. */
module Transport {
  import opened Prelude
  import opened RealDivision

  datatype Loop = Loop(enabled: bool, startSeconds: real, endSeconds: real, target: Option<int>)
  {
    function Length(): real { endSeconds - startSeconds }
  }

  datatype Clock = Clock(
    playing: bool,
    baseSeconds: real,
    anchorWallMs: Option<real>,
    playbackRate: real,
    durationSeconds: real,
    loop: Option<Loop>,
    repetitionCount: int)

  datatype Kind =
    | DurationEvent | PlayEvent | PauseEvent | RestartEvent | SeekEvent | RateEvent | LoopEvent
    | WrapEvent | LoopCompleteEvent | CompleteEvent

  datatype Snapshot = Snapshot(
    playing: bool,
    positionSeconds: real,
    playbackRate: real,
    durationSeconds: real,
    loop: Option<Loop>,
    repetitionCount: int)

  datatype Event = Event(kind: Kind, snapshot: Snapshot)

  datatype Polled = Polled(clock: Clock, position: real, events: seq<Event>)

  const INITIAL := Clock(false, 0.0, None, 1.0, 0.0, None, 0)

  predicate ValidRate(rate: real) { rate == 0.5 || rate == 0.75 || rate == 1.0 || rate == 1.5 }

  /** What every operation keeps. A stopped clock may still carry an anchor. */
  predicate Valid(c: Clock) {
    && ValidRate(c.playbackRate)
    && c.durationSeconds >= 0.0
    && c.baseSeconds >= 0.0
    && (c.playing ==> c.anchorWallMs.Some?)
    && (c.loop.Some? ==> 0.0 <= c.loop.value.startSeconds < c.loop.value.endSeconds)
  }

  function Clamp(c: Clock, seconds: real): (r: real)
    ensures Valid(c) ==> r >= 0.0
  {
    var lower := Max(0.0, seconds);
    if c.durationSeconds > 0.0 then Min(lower, c.durationSeconds) else lower
  }

  /** Musical seconds a rate covers between two wall times; a clock that runs backwards covers none. */
  function Elapsed(from: real, to: real, rate: real): real {
    Max(0.0, (to - from) / 1000.0 * rate)
  }

  function Raw(c: Clock, now: real): (r: real)
    requires c.anchorWallMs.Some?
    ensures r >= c.baseSeconds
  {
    c.baseSeconds + Elapsed(c.anchorWallMs.value, now, c.playbackRate)
  }

  predicate Looping(c: Clock) { c.loop.Some? && c.loop.value.enabled }

  predicate Crosses(c: Clock, now: real) {
    c.playing && c.anchorWallMs.Some? && Looping(c) && Raw(c, now) >= c.loop.value.endSeconds
  }

  predicate Ends(c: Clock, now: real) {
    c.playing && c.anchorWallMs.Some? && c.durationSeconds > 0.0 && Raw(c, now) >= c.durationSeconds
  }

  function Crossings(c: Clock, now: real): int
    requires Valid(c) && Crosses(c, now)
  {
    Quotient(Raw(c, now) - c.loop.value.endSeconds, c.loop.value.Length()) + 1
  }

  predicate ReachesTarget(c: Clock, now: real)
    requires Valid(c) && Crosses(c, now)
  {
    && c.loop.value.target.Some?
    && c.repetitionCount + Crossings(c, now) >= c.loop.value.target.value
  }

  /** The fields after the last repetition was played. */
  function Finished(c: Clock): Clock
    requires Looping(c) && c.loop.value.target.Some?
  {
    c.(repetitionCount := c.loop.value.target.value, baseSeconds := c.loop.value.endSeconds,
       playing := false, anchorWallMs := None)
  }

  function Wrapped(c: Clock, now: real): Clock
    requires Valid(c) && Crosses(c, now)
  {
    var loop := c.loop.value;
    c.(repetitionCount := c.repetitionCount + Crossings(c, now),
       baseSeconds := loop.startSeconds + Remainder(Raw(c, now) - loop.endSeconds, loop.Length()),
       anchorWallMs := Some(now))
  }

  function Completed(c: Clock): Clock {
    c.(baseSeconds := c.durationSeconds, playing := false, anchorWallMs := None)
  }

  /** How many events one read can still cause: a wrap can be followed by a completion. */
  function Rank(c: Clock, now: real): nat {
    if Crosses(c, now) then 2 else if c.playing then 1 else 0
  }

  /** Reading the position at wall time `now`. */
  function Poll(c: Clock, now: real): (p: Polled)
    requires Valid(c)
    ensures Valid(p.clock)
    decreases Rank(c, now), 0
  {
    if !c.playing || c.anchorWallMs.None? then Polled(c, Clamp(c, c.baseSeconds), [])
    else if Crosses(c, now) then
      if ReachesTarget(c, now) then
        var e := Emit(Finished(c), LoopCompleteEvent, now);
        Polled(e.clock, e.clock.baseSeconds, e.events)
      else
        var e := Emit(Wrapped(c, now), WrapEvent, now);
        Polled(e.clock, e.clock.baseSeconds, e.events)
    else if Ends(c, now) then
      var e := Emit(Completed(c), CompleteEvent, now);
      Polled(e.clock, e.clock.baseSeconds, e.events)
    else Polled(c, Clamp(c, Raw(c, now)), [])
  }

  /** Emitting builds the snapshot first: `playing` is read before the position is polled. */
  function Emit(c: Clock, kind: Kind, now: real): (p: Polled)
    requires Valid(c)
    ensures Valid(p.clock)
    decreases Rank(c, now), 1
  {
    var p := Poll(c, now);
    Polled(p.clock, p.position, p.events + [Event(kind, SnapshotOf(c.playing, p))])
  }

  function SnapshotOf(playing: bool, p: Polled): Snapshot {
    Snapshot(playing, p.position, p.clock.playbackRate, p.clock.durationSeconds, p.clock.loop,
             p.clock.repetitionCount)
  }

  /** A state change followed by its event. */
  datatype Changed = Changed(clock: Clock, events: seq<Event>)

  function Announce(before: seq<Event>, c: Clock, kind: Kind, now: real): Changed
    requires Valid(c)
  {
    var e := Emit(c, kind, now);
    Changed(e.clock, before + e.events)
  }

  function Quiet(c: Clock): Changed { Changed(c, []) }

  function PlayFrom(c: Clock): real {
    if c.durationSeconds > 0.0 && c.baseSeconds >= c.durationSeconds then
      if Looping(c) then c.loop.value.startSeconds else 0.0
    else c.baseSeconds
  }

  function PlaySpec(c: Clock, now: real): (r: Changed)
    requires Valid(c)
    ensures Valid(r.clock)
  {
    if c.playing then Quiet(c)
    else Announce([], c.(baseSeconds := PlayFrom(c), playing := true, anchorWallMs := Some(now)), PlayEvent, now)
  }

  function PauseSpec(c: Clock, now: real): (r: Changed)
    requires Valid(c)
    ensures Valid(r.clock)
  {
    if !c.playing then Quiet(c)
    else
      var p := Poll(c, now);
      PollStaysNonnegative(c, now);
      Announce(p.events, p.clock.(baseSeconds := p.position, playing := false, anchorWallMs := None),
               PauseEvent, now)
  }

  function RestartSpec(c: Clock, now: real): (r: Changed)
    requires Valid(c)
    ensures Valid(r.clock)
  {
    Announce([], c.(playing := false, baseSeconds := 0.0, anchorWallMs := None, repetitionCount := 0),
             RestartEvent, now)
  }

  function SeekSpec(c: Clock, seconds: real, now: real): (r: Changed)
    requires Valid(c)
    ensures Valid(r.clock)
  {
    var moved := c.(baseSeconds := Clamp(c, seconds));
    Announce([], if c.playing then moved.(anchorWallMs := Some(now)) else moved, SeekEvent, now)
  }

  function SetRateSpec(c: Clock, rate: real, now: real): (r: Result<Changed, ()>)
    requires Valid(c)
    ensures r.Success? ==> Valid(r.value.clock)
  {
    if !ValidRate(rate) then Failure(())
    else if c.playing then
      var p := Poll(c, now);
      PollStaysNonnegative(c, now);
      // The anchor is set even when this very read stopped the transport.
      Success(Announce(p.events,
        p.clock.(baseSeconds := p.position, anchorWallMs := Some(now), playbackRate := rate), RateEvent, now))
    else Success(Announce([], c.(playbackRate := rate), RateEvent, now))
  }

  function SetDurationSpec(c: Clock, seconds: real, now: real): (r: Result<Changed, ()>)
    requires Valid(c)
    ensures r.Success? ==> Valid(r.value.clock)
  {
    if seconds < 0.0 then Failure(())
    else
      var p := Poll(c, now);
      var resized := p.clock.(durationSeconds := seconds);
      var moved := resized.(baseSeconds := Clamp(resized, p.position));
      Success(Announce(p.events, if moved.playing then moved.(anchorWallMs := Some(now)) else moved,
                       DurationEvent, now))
  }

  predicate LoopAccepted(c: Clock, startSeconds: real, endSeconds: real) {
    && startSeconds >= 0.0
    && endSeconds > startSeconds
    && !(c.durationSeconds > 0.0 && endSeconds > c.durationSeconds)
  }

  function SetLoopSpec(c: Clock, loop: Loop, now: real): (r: Result<Changed, ()>)
    requires Valid(c)
    ensures r.Success? <==> LoopAccepted(c, loop.startSeconds, loop.endSeconds)
    ensures r.Success? ==> Valid(r.value.clock)
  {
    if !LoopAccepted(c, loop.startSeconds, loop.endSeconds) then Failure(())
    else Success(Announce([], c.(loop := Some(loop), repetitionCount := 0), LoopEvent, now))
  }

  function ClearLoopSpec(c: Clock, now: real): (r: Changed)
    requires Valid(c)
    ensures Valid(r.clock)
  {
    Announce([], c.(loop := None, repetitionCount := 0), LoopEvent, now)
  }

  lemma PollStaysNonnegative(c: Clock, now: real)
    requires Valid(c)
    ensures Poll(c, now).position >= 0.0
  {
  }

  /** The transport object. `log` is what its listeners were told, in order. */
  class Transport {
    var playing: bool
    var baseSeconds: real
    var anchorWallMs: Option<real>
    var playbackRate: real
    var durationSeconds: real
    var loop: Option<Loop>
    var repetitionCount: int
    var log: seq<Event>

    ghost function State(): Clock
      reads this
    {
      Clock(playing, baseSeconds, anchorWallMs, playbackRate, durationSeconds, loop, repetitionCount)
    }

    constructor ()
      ensures State() == INITIAL && log == [] && Valid(State())
    {
      playing, baseSeconds, anchorWallMs := false, 0.0, None;
      playbackRate, durationSeconds, loop, repetitionCount := 1.0, 0.0, None, 0;
      log := [];
    }

    method PositionSeconds(now: real) returns (position: real)
      requires Valid(State())
      modifies this
      ensures State() == Poll(old(State()), now).clock
      ensures position == Poll(old(State()), now).position
      ensures log == old(log) + Poll(old(State()), now).events
      decreases Rank(State(), now), 0
    {
      if !playing || anchorWallMs.None? {
        return ClampHere(baseSeconds);
      }
      var elapsed := (now - anchorWallMs.value) / 1000.0 * playbackRate;
      var rawPosition := baseSeconds + Max(0.0, elapsed);
      if loop.Some? && loop.value.enabled && rawPosition >= loop.value.endSeconds {
        position := WrapLoop(rawPosition, now);
        return;
      }
      if durationSeconds > 0.0 && rawPosition >= durationSeconds {
        baseSeconds, playing, anchorWallMs := durationSeconds, false, None;
        EmitEvent(CompleteEvent, now);
        return baseSeconds;
      }
      return ClampHere(rawPosition);
    }

    method WrapLoop(rawPosition: real, now: real) returns (position: real)
      requires Valid(State()) && Crosses(State(), now) && rawPosition == Raw(State(), now)
      modifies this
      ensures State() == Poll(old(State()), now).clock
      ensures position == Poll(old(State()), now).position
      ensures log == old(log) + Poll(old(State()), now).events
      decreases 1, 2
    {
      var length := loop.value.endSeconds - loop.value.startSeconds;
      var crossings := Quotient(rawPosition - loop.value.endSeconds, length) + 1;
      var nextRepetition := repetitionCount + crossings;
      if loop.value.target.Some? && nextRepetition >= loop.value.target.value {
        repetitionCount, baseSeconds := loop.value.target.value, loop.value.endSeconds;
        playing, anchorWallMs := false, None;
        EmitEvent(LoopCompleteEvent, now);
        return baseSeconds;
      }
      repetitionCount := nextRepetition;
      baseSeconds := loop.value.startSeconds + Remainder(rawPosition - loop.value.endSeconds, length);
      anchorWallMs := Some(now);
      EmitEvent(WrapEvent, now);
      return baseSeconds;
    }

    method EmitEvent(kind: Kind, now: real)
      requires Valid(State())
      modifies this
      ensures State() == Emit(old(State()), kind, now).clock
      ensures log == old(log) + Emit(old(State()), kind, now).events
      decreases Rank(State(), now), 1
    {
      var wasPlaying := playing;
      var position := PositionSeconds(now);
      log := log + [Event(kind, Snapshot(wasPlaying, position, playbackRate, durationSeconds, loop, repetitionCount))];
    }

    method SetDuration(seconds: real, now: real) returns (ok: bool)
      requires Valid(State())
      modifies this
      ensures ok == SetDurationSpec(old(State()), seconds, now).Success?
      ensures ok ==> Became(old(State()), old(log), SetDurationSpec(old(State()), seconds, now).value)
      ensures !ok ==> State() == old(State()) && log == old(log)
    {
      if seconds < 0.0 {
        return false;
      }
      var position := PositionSeconds(now);
      durationSeconds := seconds;
      baseSeconds := ClampHere(position);
      if playing {
        anchorWallMs := Some(now);
      }
      EmitEvent(DurationEvent, now);
      return true;
    }

    method Play(now: real) returns (started: bool)
      requires Valid(State())
      modifies this
      ensures started == !old(playing)
      ensures Became(old(State()), old(log), PlaySpec(old(State()), now))
    {
      if playing {
        return false;
      }
      if durationSeconds > 0.0 && baseSeconds >= durationSeconds {
        baseSeconds := if loop.Some? && loop.value.enabled then loop.value.startSeconds else 0.0;
      }
      playing, anchorWallMs := true, Some(now);
      EmitEvent(PlayEvent, now);
      return true;
    }

    method Pause(now: real) returns (paused: bool)
      requires Valid(State())
      modifies this
      ensures paused == old(playing)
      ensures Became(old(State()), old(log), PauseSpec(old(State()), now))
    {
      if !playing {
        return false;
      }
      PollStaysNonnegative(State(), now);
      baseSeconds := PositionSeconds(now);
      playing, anchorWallMs := false, None;
      EmitEvent(PauseEvent, now);
      return true;
    }

    method Restart(now: real)
      requires Valid(State())
      modifies this
      ensures Became(old(State()), old(log), RestartSpec(old(State()), now))
    {
      playing, baseSeconds, anchorWallMs, repetitionCount := false, 0.0, None, 0;
      EmitEvent(RestartEvent, now);
    }

    method Seek(seconds: real, now: real)
      requires Valid(State())
      modifies this
      ensures Became(old(State()), old(log), SeekSpec(old(State()), seconds, now))
    {
      baseSeconds := ClampHere(seconds);
      if playing {
        anchorWallMs := Some(now);
      }
      EmitEvent(SeekEvent, now);
    }

    method SetRate(rate: real, now: real) returns (ok: bool)
      requires Valid(State())
      modifies this
      ensures ok == SetRateSpec(old(State()), rate, now).Success?
      ensures ok ==> Became(old(State()), old(log), SetRateSpec(old(State()), rate, now).value)
      ensures !ok ==> State() == old(State()) && log == old(log)
    {
      if rate != 0.5 && rate != 0.75 && rate != 1.0 && rate != 1.5 {
        return false;
      }
      if playing {
        PollStaysNonnegative(State(), now);
        baseSeconds := PositionSeconds(now);
        anchorWallMs := Some(now);
      }
      playbackRate := rate;
      EmitEvent(RateEvent, now);
      return true;
    }

    method SetLoop(next: Loop, now: real) returns (ok: bool)
      requires Valid(State())
      modifies this
      ensures ok == SetLoopSpec(old(State()), next, now).Success?
      ensures ok ==> Became(old(State()), old(log), SetLoopSpec(old(State()), next, now).value)
      ensures !ok ==> State() == old(State()) && log == old(log)
    {
      if next.startSeconds < 0.0 || next.endSeconds <= next.startSeconds
         || (durationSeconds > 0.0 && next.endSeconds > durationSeconds) {
        return false;
      }
      loop, repetitionCount := Some(next), 0;
      EmitEvent(LoopEvent, now);
      return true;
    }

    method ClearLoop(now: real)
      requires Valid(State())
      modifies this
      ensures Became(old(State()), old(log), ClearLoopSpec(old(State()), now))
    {
      loop, repetitionCount := None, 0;
      EmitEvent(LoopEvent, now);
    }

    ghost predicate Became(before: Clock, beforeLog: seq<Event>, change: Changed)
      reads this
    {
      State() == change.clock && log == beforeLog + change.events
    }

    function ClampHere(seconds: real): (r: real)
      reads this
      ensures r == Clamp(State(), seconds)
    {
      var lower := Max(0.0, seconds);
      if durationSeconds > 0.0 then Min(lower, durationSeconds) else lower
    }
  }
}
