/** Many short ticks play the plan the way one ideal schedule would. */
module SchedulerLaws {
  import opened Prelude
  import opened Transport
  import opened TransportLaws
  import opened AudioScheduling
  import RealDivision

  predicate UniqueIds(events: seq<PlanEvent>) {
    forall i, j | 0 <= i < j < |events| :: events[i].eventId != events[j].eventId
  }

  function Times(notes: seq<Note>, id: string): nat {
    if notes == [] then 0 else (if notes[0].eventId == id then 1 else 0) + Times(notes[1..], id)
  }

  lemma {:induction false} TimesAdds(a: seq<Note>, b: seq<Note>, id: string)
    ensures Times(a + b, id) == Times(a, id) + Times(b, id)
  {
    if a == [] {
      assert a + b == b;
    } else {
      assert (a + b)[1..] == a[1..] + b;
      TimesAdds(a[1..], b, id);
    }
  }

  predicate DueNow(events: seq<PlanEvent>, scheduled: set<string>, w: Window, id: string) {
    exists e <- events :: e.eventId == id && Due(e, scheduled, w)
  }

  /** One tick schedules each due id once, remembers exactly those, and makes no other note. */
  lemma {:induction false} TickEach(events: seq<PlanEvent>, scheduled: set<string>, w: Window, id: string)
    requires w.rate > 0.0
    ensures Times(TickNotes(events, scheduled, w), id) == if DueNow(events, scheduled, w, id) then 1 else 0
    ensures id in TickScheduled(events, scheduled, w) <==> id in scheduled || DueNow(events, scheduled, w, id)
    decreases |events|
  {
    if events != [] {
      var e := events[0];
      assert forall x <- events :: x == e || x in events[1..];
      if Due(e, scheduled, w) {
        TickEach(events[1..], scheduled + {e.eventId}, w, id);
        var rest := TickNotes(events[1..], scheduled + {e.eventId}, w);
        assert TickNotes(events, scheduled, w)[1..] == rest;
        assert e in events;
        if id != e.eventId {
          assert DueNow(events[1..], scheduled + {e.eventId}, w, id) <==> DueNow(events, scheduled, w, id);
        }
      } else {
        TickEach(events[1..], scheduled, w, id);
        assert DueNow(events[1..], scheduled, w, id) <==> DueNow(events, scheduled, w, id);
      }
    }
  }

  lemma {:induction false} TickOrigin(events: seq<PlanEvent>, scheduled: set<string>, w: Window, n: Note) returns (e: PlanEvent)
    requires w.rate > 0.0 && n in TickNotes(events, scheduled, w)
    ensures e in events && Due(e, scheduled, w) && n == NoteFor(e, w)
    decreases |events|
  {
    e := events[0];
    if Due(e, scheduled, w) {
      if n != NoteFor(e, w) {
        e := TickOrigin(events[1..], scheduled + {e.eventId}, w, n);
      }
    } else {
      e := TickOrigin(events[1..], scheduled, w, n);
    }
  }

  // ----- An uninterrupted playing stretch -----

  /** Both clocks run at the same rate: the audio clock reads this at wall time `t`. */
  function AudioAt(audioBase: real, t: real): real { audioBase + t / 1000.0 }

  /** The wall time at which the undisturbed transport is at `position`. */
  function WallAt(c: Clock, position: real): real
    requires Valid(c) && c.anchorWallMs.Some?
  {
    c.anchorWallMs.value + (position - c.baseSeconds) * 1000.0 / c.playbackRate
  }

  /** How the plan itself says an event should sound, given where the stretch began. */
  function Ideal(c: Clock, audioBase: real, first: real, e: PlanEvent, issuedAt: real): Note
    requires Valid(c) && c.anchorWallMs.Some?
  {
    var onset := Max(Raw(c, first), e.onsetSeconds);
    var startAt := AudioAt(audioBase, WallAt(c, onset));
    Note(e.eventId, e.midiNote, e.velocity, e.centsOffset, startAt,
         startAt + (e.releaseSeconds - onset) / c.playbackRate, issuedAt)
  }

  predicate Flows(c: Clock, t: real) {
    Valid(c) && c.playing && After(c, t) && !Crosses(c, t) && !Ends(c, t)
  }

  predicate Stretch(c: Clock, ticks: seq<real>, lookahead: real) {
    && Valid(c) && c.playing
    && ticks != []
    && (forall t <- ticks :: Flows(c, t))
    && (forall i | 0 < i < |ticks| :: 0.0 <= ticks[i] - ticks[i - 1] < lookahead * 1000.0)
  }

  predicate Equipped(d: Desk) {
    && d.enabled && d.plan.Some? && d.lookaheadSeconds > 0.0
    && UniqueIds(d.plan.value.events)
    && forall e <- d.plan.value.events :: e.onsetSeconds < e.releaseSeconds
  }

  predicate Opens(d: Desk) { Equipped(d) && d.scheduled == {} }

  datatype Rig = Rig(desk: Desk, clock: Clock)

  /** The desk and the transport after a run of ticks. */
  function RunTicks(r: Rig, ticks: seq<real>, audioBase: real): (after: Rig)
    requires Valid(r.clock)
    ensures Valid(after.clock)
  {
    if ticks == [] then r
    else
      var before := RunTicks(r, ticks[..|ticks| - 1], audioBase);
      var t := ticks[|ticks| - 1];
      Rig(Ticked(before.desk, before.clock, t, AudioAt(audioBase, t), true),
          TickedClock(before.desk, before.clock, t, true))
  }

  function HorizonAt(d: Desk, c: Clock, t: real): real
    requires c.anchorWallMs.Some?
  {
    Raw(c, t) + d.lookaheadSeconds * c.playbackRate
  }

  /** An event the stretch has to have scheduled by the time `last` is ticked. */
  predicate Reached(d: Desk, c: Clock, first: real, last: real, e: PlanEvent)
    requires c.anchorWallMs.Some?
  {
    e.releaseSeconds > Raw(c, first) && e.onsetSeconds < HorizonAt(d, c, last)
  }

  predicate Faithful(d: Desk, c: Clock, audioBase: real, first: real, n: Note)
    requires Valid(c) && c.anchorWallMs.Some? && d.plan.Some?
  {
    exists e <- d.plan.value.events ::
      && n == Ideal(c, audioBase, first, e, n.issuedAt)
      && n.issuedAt <= n.startAt < n.releaseAt
  }

  /** What has been handed to the synth after the ticks up to `last`. */
  predicate Kept(d: Desk, c: Clock, audioBase: real, first: real, last: real, now: Desk)
    requires Valid(c) && c.anchorWallMs.Some? && d.plan.Some?
  {
    && now == d.(scheduled := now.scheduled, notes := now.notes)
    && d.notes <= now.notes
    && (forall e <- d.plan.value.events :: e.eventId in now.scheduled <==> Reached(d, c, first, last, e))
    && (forall e <- d.plan.value.events ::
          Times(now.notes[|d.notes|..], e.eventId) == if e.eventId in now.scheduled then 1 else 0)
    && (forall n <- now.notes[|d.notes|..] :: Faithful(d, c, audioBase, first, n))
  }

  lemma FlowingPoll(c: Clock, t: real)
    requires Flows(c, t)
    ensures Poll(c, t) == Polled(c, Raw(c, t), [])
  {
  }

  lemma PositionsOrdered(c: Clock, s: real, t: real)
    requires Flows(c, s) && s <= t
    ensures Raw(c, t) == Raw(c, s) + (t - s) / 1000.0 * c.playbackRate
  {
    ElapsedSplits(c.anchorWallMs.value, s, t, c.playbackRate);
  }

  /** Where a note lands on the audio clock does not depend on the tick that schedules it. */
  lemma TickIndependent(c: Clock, audioBase: real, t: real, position: real, e: PlanEvent)
    requires Flows(c, t) && position == Raw(c, t)
    ensures (Max(position, e.onsetSeconds) - position) / c.playbackRate + AudioAt(audioBase, t)
         == AudioAt(audioBase, WallAt(c, Max(position, e.onsetSeconds)))
  {
    ElapsedSplits(c.anchorWallMs.value, t, t, c.playbackRate);
    ElapsedSplits(c.anchorWallMs.value, c.anchorWallMs.value, t, c.playbackRate);
    assert Raw(c, t) == c.baseSeconds + (t - c.anchorWallMs.value) / 1000.0 * c.playbackRate;
  }

  /** What was scheduled before tick `t`: nothing, or all that tick `prev` could reach. */
  predicate Before(d: Desk, c: Clock, audioBase: real, first: real, prev: Option<real>, t: real, now: Desk)
    requires Valid(c) && c.anchorWallMs.Some? && d.plan.Some?
  {
    match prev
    case None => first == t && now == d
    case Some(s) =>
      && Flows(c, s) && first <= s && 0.0 <= t - s < d.lookaheadSeconds * 1000.0
      && Kept(d, c, audioBase, first, s, now)
  }

  lemma ReachAdvances(d: Desk, c: Clock, s: real, t: real)
    requires Flows(c, s) && Flows(c, t) && 0.0 <= t - s < d.lookaheadSeconds * 1000.0
    ensures Raw(c, s) <= Raw(c, t) < HorizonAt(d, c, s) <= HorizonAt(d, c, t)
  {
    PositionsOrdered(c, s, t);
    var gap := (t - s) / 1000.0;
    assert 0.0 <= gap < d.lookaheadSeconds;
    RealDivision.MulMono(0.0, gap, c.playbackRate);
    RealDivision.MulMono(gap, d.lookaheadSeconds, c.playbackRate);
  }

  lemma DueExactly(d: Desk, c: Clock, audioBase: real, first: real, prev: Option<real>, t: real, now: Desk, e: PlanEvent)
    requires Flows(c, first) && Flows(c, t) && first <= t && Opens(d) && e in d.plan.value.events
    requires Before(d, c, audioBase, first, prev, t, now)
    ensures var w := WindowAt(now, c, Raw(c, t), AudioAt(audioBase, t));
      && (e.eventId in now.scheduled || Due(e, now.scheduled, w) <==> Reached(d, c, first, t, e))
      && (Due(e, now.scheduled, w) ==> Max(w.position, e.onsetSeconds) == Max(Raw(c, first), e.onsetSeconds))
  {
    PositionsOrdered(c, first, t);
    RealDivision.MulMono(0.0, (t - first) / 1000.0, c.playbackRate);
    if prev.Some? {
      ReachAdvances(d, c, prev.value, t);
    }
  }

  lemma NewNoteFaithful(d: Desk, c: Clock, audioBase: real, first: real, t: real, w: Window, e: PlanEvent)
    requires Flows(c, t) && Valid(c) && Opens(d) && e in d.plan.value.events
    requires w.position == Raw(c, t) && w.rate == c.playbackRate && w.audio == AudioAt(audioBase, t)
    requires Max(w.position, e.onsetSeconds) == Max(Raw(c, first), e.onsetSeconds)
    requires e.releaseSeconds > w.position
    ensures Faithful(d, c, audioBase, first, NoteFor(e, w))
  {
    TickIndependent(c, audioBase, t, w.position, e);
    var n := NoteFor(e, w);
    assert n == Ideal(c, audioBase, first, e, n.issuedAt);
  }

  lemma UniqueDue(d: Desk, scheduled: set<string>, w: Window, e: PlanEvent)
    requires Opens(d) && e in d.plan.value.events
    ensures DueNow(d.plan.value.events, scheduled, w, e.eventId) <==> Due(e, scheduled, w)
  {
  }

  lemma OneTick(d: Desk, c: Clock, audioBase: real, first: real, prev: Option<real>, t: real, now: Desk)
    requires Flows(c, first) && Flows(c, t) && first <= t && Opens(d)
    requires Before(d, c, audioBase, first, prev, t, now)
    ensures TickedClock(now, c, t, true) == c
    ensures Kept(d, c, audioBase, first, t, Ticked(now, c, t, AudioAt(audioBase, t), true))
  {
    FlowingPoll(c, t);
    var events := d.plan.value.events;
    var w := WindowAt(now, c, Raw(c, t), AudioAt(audioBase, t));
    var after := Ticked(now, c, t, AudioAt(audioBase, t), true);
    var made := TickNotes(events, now.scheduled, w);
    assert after.notes == now.notes + made;
    assert after.notes[|d.notes|..] == now.notes[|d.notes|..] + made;
    forall e <- events
      ensures e.eventId in after.scheduled <==> Reached(d, c, first, t, e)
      ensures Times(after.notes[|d.notes|..], e.eventId) == if e.eventId in after.scheduled then 1 else 0
    {
      TickEach(events, now.scheduled, w, e.eventId);
      UniqueDue(d, now.scheduled, w, e);
      DueExactly(d, c, audioBase, first, prev, t, now, e);
      TimesAdds(now.notes[|d.notes|..], made, e.eventId);
    }
    forall n <- made
      ensures Faithful(d, c, audioBase, first, n)
    {
      var e := TickOrigin(events, now.scheduled, w, n);
      DueExactly(d, c, audioBase, first, prev, t, now, e);
      NewNoteFaithful(d, c, audioBase, first, t, w, e);
    }
  }

  lemma {:induction false} StretchKept(d: Desk, c: Clock, ticks: seq<real>, audioBase: real)
    requires Opens(d) && Stretch(c, ticks, d.lookaheadSeconds)
    ensures var after := RunTicks(Rig(d, c), ticks, audioBase);
      && after.clock == c && ticks[0] <= ticks[|ticks| - 1]
      && Kept(d, c, audioBase, ticks[0], ticks[|ticks| - 1], after.desk)
    decreases |ticks|
  {
    var n := |ticks| - 1;
    assert ticks[0] in ticks && ticks[n] in ticks;
    if n == 0 {
      assert ticks[..0] == [];
      OneTick(d, c, audioBase, ticks[0], None, ticks[0], d);
    } else {
      var sooner := ticks[..n];
      assert sooner[0] == ticks[0] && sooner[n - 1] == ticks[n - 1];
      StretchKept(d, c, sooner, audioBase);
      OneTick(d, c, audioBase, ticks[0], Some(ticks[n - 1]), ticks[n],
              RunTicks(Rig(d, c), sooner, audioBase).desk);
    }
  }

  // ----- Stretches that begin with a wrap -----

  /** What the desk has heard, and where the clock stands, once a tick has read the transport. */
  function AfterRead(r: Rig, t: real): Rig
    requires Valid(r.clock)
  {
    Rig(Heard(r.desk, Poll(r.clock, t).events), Poll(r.clock, t).clock)
  }

  /** A stretch begins at a tick that finds the transport playing and leaves it so: with nothing
      scheduled, or with the read that wraps the loop. */
  predicate Begins(r: Rig, t: real) {
    && Valid(r.clock) && After(r.clock, t) && Equipped(r.desk)
    && r.clock.playing && Poll(r.clock, t).clock.playing
    && (r.desk.scheduled == {} || Crosses(r.clock, t))
  }

  lemma StillPlaying(c: Clock, t: real)
    requires Valid(c) && After(c, t) && c.playing && Poll(c, t).clock.playing
    ensures var p := Poll(c, t);
      && Flows(p.clock, t) && p.position == Raw(p.clock, t)
      && if Crosses(c, t) then p.clock == Wrapped(c, t) && |p.events| == 1 && p.events[0].kind == WrapEvent
         else p.clock == c && p.events == []
  {
    if Crosses(c, t) && ReachesTarget(c, t) {
      EmitAlone(Finished(c), LoopCompleteEvent, t);
    } else if Crosses(c, t) {
      var w := Wrapped(c, t);
      WrapSettles(c, t);
      assert w.playing && !Ends(w, t) && Raw(w, t) == w.baseSeconds;
      EmitAlone(w, WrapEvent, t);
    } else if Ends(c, t) {
      EmitAlone(Completed(c), CompleteEvent, t);
    } else {
      FlowingPoll(c, t);
    }
  }

  /** A wrap silences the synth and forgets what was scheduled; nothing else changes. */
  lemma ReadOpens(r: Rig, t: real)
    requires Begins(r, t)
    ensures Opens(AfterRead(r, t).desk) && Flows(AfterRead(r, t).clock, t)
    ensures AfterRead(r, t).desk == if Crosses(r.clock, t) then Panicked(r.desk) else r.desk
  {
    StillPlaying(r.clock, t);
    var events := Poll(r.clock, t).events;
    if Crosses(r.clock, t) {
      assert events[1..] == [];
      assert Heard(Panicked(r.desk), events[1..]) == Panicked(r.desk);
    }
  }

  /** The tick that wraps hears the wrap first, and is then a tick of the settled clock. */
  lemma TickAfterRead(r: Rig, t: real, audio: real)
    requires Begins(r, t)
    ensures Ticked(r.desk, r.clock, t, audio, true) == Ticked(AfterRead(r, t).desk, AfterRead(r, t).clock, t, audio, true)
    ensures TickedClock(r.desk, r.clock, t, true) == TickedClock(AfterRead(r, t).desk, AfterRead(r, t).clock, t, true)
  {
    StillPlaying(r.clock, t);
    ReadOpens(r, t);
    FlowingPoll(AfterRead(r, t).clock, t);
  }

  lemma {:induction false} RunAfterRead(r: Rig, ticks: seq<real>, audioBase: real)
    requires ticks != [] && Begins(r, ticks[0])
    ensures RunTicks(r, ticks, audioBase) == RunTicks(AfterRead(r, ticks[0]), ticks, audioBase)
    decreases |ticks|
  {
    var sooner := ticks[..|ticks| - 1];
    if sooner == [] {
      assert RunTicks(r, sooner, audioBase) == r;
      TickAfterRead(r, ticks[0], AudioAt(audioBase, ticks[0]));
    } else {
      RunAfterRead(r, sooner, audioBase);
    }
  }

  /** A stretch that begins here and is not interrupted before its last tick. */
  predicate Lap(r: Rig, ticks: seq<real>) {
    ticks != [] && Begins(r, ticks[0]) && Stretch(AfterRead(r, ticks[0]).clock, ticks, r.desk.lookaheadSeconds)
  }

  /** What a stretch owes an event. */
  ghost predicate Ideally(r: Rig, ticks: seq<real>, audioBase: real, e: PlanEvent)
    requires Lap(r, ticks)
  {
    var d, c, first, last := r.desk, AfterRead(r, ticks[0]).clock, ticks[0], ticks[|ticks| - 1];
    var made := RunTicks(r, ticks, audioBase).desk.notes;
    && d.notes <= made
    && Times(made[|d.notes|..], e.eventId) == (if Reached(d, c, first, last, e) then 1 else 0)
    && (Raw(c, first) <= e.onsetSeconds <= Raw(c, last) ==> Times(made[|d.notes|..], e.eventId) == 1)
    && forall n <- made[|d.notes|..] | n.eventId == e.eventId ::
         && n == Ideal(c, audioBase, first, e, n.issuedAt)
         && n.issuedAt <= n.startAt < n.releaseAt
  }

  /** In one uninterrupted stretch, from the start or from the tick whose read wraps the loop, every event
      still sounding at the first tick and beginning before the last horizon is handed to the synth exactly
      once, before it is due, at the times the ideal schedule gives it; nothing else is. */
  lemma SchedulerRefinesIdeal(r: Rig, ticks: seq<real>, audioBase: real, e: PlanEvent)
    requires Lap(r, ticks) && e in r.desk.plan.value.events
    ensures Ideally(r, ticks, audioBase, e)
  {
    var d, c := AfterRead(r, ticks[0]).desk, AfterRead(r, ticks[0]).clock;
    ReadOpens(r, ticks[0]);
    RunAfterRead(r, ticks, audioBase);
    StretchRefinesIdeal(d, c, ticks, audioBase, e);
  }

  lemma StretchRefinesIdeal(d: Desk, c: Clock, ticks: seq<real>, audioBase: real, e: PlanEvent)
    requires Opens(d) && Stretch(c, ticks, d.lookaheadSeconds) && e in d.plan.value.events
    ensures var first, last := ticks[0], ticks[|ticks| - 1];
      var made := RunTicks(Rig(d, c), ticks, audioBase).desk.notes;
      && d.notes <= made
      && Times(made[|d.notes|..], e.eventId) == (if Reached(d, c, first, last, e) then 1 else 0)
      && (Raw(c, first) <= e.onsetSeconds <= Raw(c, last) ==> Times(made[|d.notes|..], e.eventId) == 1)
      && forall n <- made[|d.notes|..] | n.eventId == e.eventId ::
           && n == Ideal(c, audioBase, first, e, n.issuedAt)
           && n.issuedAt <= n.startAt < n.releaseAt
  {
    StretchKept(d, c, ticks, audioBase);
    var first, last := ticks[0], ticks[|ticks| - 1];
    RealDivision.MulMono(0.0, d.lookaheadSeconds, c.playbackRate);
    var made := RunTicks(Rig(d, c), ticks, audioBase).desk.notes;
    forall n <- made[|d.notes|..] | n.eventId == e.eventId
      ensures n == Ideal(c, audioBase, first, e, n.issuedAt) && n.issuedAt <= n.startAt < n.releaseAt
    {
      assert Faithful(d, c, audioBase, first, n);
    }
  }

  // ----- A looped practice, lap after lap -----

  /** Each stretch begins where the one before ended: with nothing scheduled, or with a wrap. */
  predicate Laps(r: Rig, laps: seq<seq<real>>, audioBase: real)
    decreases |laps|
  {
    laps != [] ==> Lap(r, laps[0]) && Laps(RunTicks(r, laps[0], audioBase), laps[1..], audioBase)
  }

  ghost predicate EachIdeally(r: Rig, laps: seq<seq<real>>, audioBase: real, e: PlanEvent)
    requires Laps(r, laps, audioBase)
    decreases |laps|
  {
    laps != [] ==>
      && Ideally(r, laps[0], audioBase, e)
      && EachIdeally(RunTicks(r, laps[0], audioBase), laps[1..], audioBase, e)
  }

  /** All the ticks of the laps, one after the other. */
  function Joined(laps: seq<seq<real>>): seq<real> {
    if laps == [] then [] else laps[0] + Joined(laps[1..])
  }

  function AfterLaps(r: Rig, laps: seq<seq<real>>, audioBase: real): Rig
    requires Valid(r.clock)
    decreases |laps|
  {
    if laps == [] then r else AfterLaps(RunTicks(r, laps[0], audioBase), laps[1..], audioBase)
  }

  lemma {:induction false} RunJoins(r: Rig, a: seq<real>, b: seq<real>, audioBase: real)
    requires Valid(r.clock)
    ensures RunTicks(r, a + b, audioBase) == RunTicks(RunTicks(r, a, audioBase), b, audioBase)
    decreases |b|
  {
    if b == [] {
      assert a + b == a;
    } else {
      var sooner := b[..|b| - 1];
      assert (a + b)[..|a + b| - 1] == a + sooner;
      RunJoins(r, a, sooner, audioBase);
    }
  }

  lemma RunKeepsPlan(r: Rig, ticks: seq<real>, audioBase: real)
    requires Lap(r, ticks)
    ensures RunTicks(r, ticks, audioBase).desk.plan == r.desk.plan
  {
    ReadOpens(r, ticks[0]);
    RunAfterRead(r, ticks, audioBase);
    StretchKept(AfterRead(r, ticks[0]).desk, AfterRead(r, ticks[0]).clock, ticks, audioBase);
  }

  /** However often the loop wraps between them, every stretch plays each event as the ideal schedule of that
      stretch has it, and the laps together are one run of ticks. */
  lemma {:induction false} EveryLapRefinesIdeal(r: Rig, laps: seq<seq<real>>, audioBase: real, e: PlanEvent)
    requires Valid(r.clock) && Laps(r, laps, audioBase) && r.desk.plan.Some? && e in r.desk.plan.value.events
    ensures EachIdeally(r, laps, audioBase, e)
    ensures RunTicks(r, Joined(laps), audioBase) == AfterLaps(r, laps, audioBase)
    decreases |laps|
  {
    if laps != [] {
      SchedulerRefinesIdeal(r, laps[0], audioBase, e);
      RunKeepsPlan(r, laps[0], audioBase);
      EveryLapRefinesIdeal(RunTicks(r, laps[0], audioBase), laps[1..], audioBase, e);
      RunJoins(r, laps[0], Joined(laps[1..]), audioBase);
    }
  }

  // ----- The tick that stops -----

  /** A tick whose own read stops the transport still hands over what is due where it came to rest,
      each event once, and no later tick hands over anything. */
  lemma StoppingTick(d: Desk, c: Clock, t: real, audio: real, later: real, laterAudio: real, e: PlanEvent)
    requires Valid(c) && After(c, t) && Ticks(d, c, true) && !Poll(c, t).clock.playing
    requires Equipped(d) && e in d.plan.value.events
    ensures var p, after := Poll(c, t), Ticked(d, c, t, audio, true);
      && d.notes <= after.notes
      && Times(after.notes[|d.notes|..], e.eventId)
         == (if e.releaseSeconds > p.position && e.onsetSeconds < p.position + d.lookaheadSeconds * c.playbackRate then 1 else 0)
      && Ticked(after, p.clock, later, laterAudio, true) == after
  {
    StopIsHeard(d, c, t);
    HeardKeeps(d, Poll(c, t).events);
    var p := Poll(c, t);
    var w := WindowAt(d, p.clock, p.position, audio);
    TickEach(d.plan.value.events, {}, w, e.eventId);
    var after := Ticked(d, c, t, audio, true);
    assert after.notes == d.notes + TickNotes(d.plan.value.events, {}, w);
    assert DueNow(d.plan.value.events, {}, w, e.eventId) <==> Due(e, {}, w);
  }

  lemma StopIsHeard(d: Desk, c: Clock, t: real)
    requires Valid(c) && After(c, t) && c.playing && !Poll(c, t).clock.playing
    ensures Heard(d, Poll(c, t).events).scheduled == {}
    ensures Poll(c, t).clock.playbackRate == c.playbackRate
  {
    PollSilences(c, t);
    PollKeepsRate(c, t);
    HeardSilent(d, Poll(c, t).events);
  }

  /** No read plays or stops the clock without a word. */
  lemma {:induction false} PollSilences(c: Clock, t: real)
    requires Valid(c)
    ensures var p := Poll(c, t);
      && (forall e <- p.events :: e.kind != PlayEvent)
      && (p.clock.playing || p.events != [] || !c.playing)
    decreases Rank(c, t)
  {
    if Crosses(c, t) {
      PollSilences(if ReachesTarget(c, t) then Finished(c) else Wrapped(c, t), t);
    } else if Ends(c, t) {
      PollSilences(Completed(c), t);
    }
  }

  lemma {:induction false} HeardSilent(d: Desk, events: seq<Event>)
    requires forall e <- events :: e.kind != PlayEvent
    ensures events != [] ==> Heard(d, events).scheduled == {}
    decreases |events|
  {
    if |events| > 1 {
      HeardSilent(Panicked(d), events[1..]);
    }
  }

  // ----- Silence -----

  function NotPlays(events: seq<Event>): nat {
    if events == [] then 0 else NotPlays(events[1..]) + if events[0].kind.PlayEvent? then 0 else 1
  }

  /** Each event but a start silences the synth and forgets what was scheduled. */
  lemma {:induction false} HeardExactly(d: Desk, events: seq<Event>)
    ensures Heard(d, events) == d.(
      panics := d.panics + NotPlays(events), scheduled := if NotPlays(events) > 0 then {} else d.scheduled)
    decreases |events|
  {
    if events != [] {
      HeardExactly(if events[0].kind == PlayEvent then d else Panicked(d), events[1..]);
    }
  }

  /** A tick hands nothing over and reads nothing unless sound is on, a plan is loaded, the transport plays
      and the synth is ready. */
  lemma SilentExactly(d: Desk, c: Clock, t: real, audio: real, ready: bool)
    requires Valid(c) && !(d.enabled && d.plan.Some? && c.playing && ready)
    ensures Ticked(d, c, t, audio, ready) == d && TickedClock(d, c, t, ready) == c
  {
  }
}
