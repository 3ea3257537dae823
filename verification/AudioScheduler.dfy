/** The look-ahead note scheduler (web/mvp1/audio_scheduler.js).

    `now` is the transport's wall clock in milliseconds and `audio` the Web Audio clock in
    seconds at the same instant. `TickNotes` is what one tick hands to the synth. */
module AudioScheduling {
  import opened Prelude
  import opened Ordering
  import opened Transport
  import opened TransportLaws

  datatype PlanEvent = PlanEvent(
    eventId: string, midiNote: int, velocity: int, centsOffset: Option<int>,
    onsetSeconds: real, releaseSeconds: real)

  datatype Plan = Plan(schemaVersion: string, totalSeconds: real, events: seq<PlanEvent>)

  /** One call to the synth, with the audio time it was made at (the "scheduled" diagnostic). */
  datatype Note = Note(
    eventId: string, midiNote: int, velocity: int, centsOffset: Option<int>,
    startAt: real, releaseAt: real, issuedAt: real)

  /** What a tick sees: the position, the rate, the audio clock and how far it looks ahead. */
  datatype Window = Window(position: real, rate: real, audio: real, horizon: real)

  predicate Due(e: PlanEvent, scheduled: set<string>, w: Window) {
    e.eventId !in scheduled && e.releaseSeconds > w.position && e.onsetSeconds < w.horizon
  }

  function NoteFor(e: PlanEvent, w: Window): Note
    requires w.rate > 0.0
  {
    var onset := Max(w.position, e.onsetSeconds);
    var startAt := w.audio + (onset - w.position) / w.rate;
    Note(e.eventId, e.midiNote, e.velocity, e.centsOffset, startAt,
         startAt + (e.releaseSeconds - onset) / w.rate, w.audio)
  }

  function TickNotes(events: seq<PlanEvent>, scheduled: set<string>, w: Window): seq<Note>
    requires w.rate > 0.0
  {
    if events == [] then []
    else if Due(events[0], scheduled, w) then
      [NoteFor(events[0], w)] + TickNotes(events[1..], scheduled + {events[0].eventId}, w)
    else TickNotes(events[1..], scheduled, w)
  }

  function TickScheduled(events: seq<PlanEvent>, scheduled: set<string>, w: Window): set<string> {
    if events == [] then scheduled
    else if Due(events[0], scheduled, w) then
      TickScheduled(events[1..], scheduled + {events[0].eventId}, w)
    else TickScheduled(events[1..], scheduled, w)
  }

  datatype Desk = Desk(
    enabled: bool, lookaheadSeconds: real, plan: Option<Plan>,
    scheduled: set<string>, notes: seq<Note>, panics: nat)

  function Panicked(d: Desk): Desk { d.(scheduled := {}, panics := d.panics + 1) }

  /** Every transport event but "play" silences the synth and forgets what was scheduled. */
  function Heard(d: Desk, events: seq<Event>): Desk
    decreases |events|
  {
    if events == [] then d
    else Heard(if events[0].kind == PlayEvent then d else Panicked(d), events[1..])
  }

  function WindowAt(d: Desk, c: Clock, position: real, audio: real): Window {
    Window(position, c.playbackRate, audio, position + d.lookaheadSeconds * c.playbackRate)
  }

  predicate Ticks(d: Desk, c: Clock, ready: bool) { d.enabled && d.plan.Some? && c.playing && ready }

  /** One timer tick: read the position (which may wrap or stop the transport), then schedule. */
  function Ticked(d: Desk, c: Clock, now: real, audio: real, ready: bool): Desk
    requires Valid(c)
  {
    if !Ticks(d, c, ready) then d
    else
      var p := Poll(c, now);
      var heard := Heard(d, p.events);
      HeardKeeps(d, p.events);
      var w := WindowAt(d, p.clock, p.position, audio);
      heard.(notes := heard.notes + TickNotes(d.plan.value.events, heard.scheduled, w),
             scheduled := TickScheduled(d.plan.value.events, heard.scheduled, w))
  }

  function TickedClock(d: Desk, c: Clock, now: real, ready: bool): Clock
    requires Valid(c)
  {
    if Ticks(d, c, ready) then Poll(c, now).clock else c
  }

  lemma HeardKeeps(d: Desk, events: seq<Event>)
    ensures var h := Heard(d, events);
      h.plan == d.plan && h.notes == d.notes && h.enabled == d.enabled && h.lookaheadSeconds == d.lookaheadSeconds
    decreases |events|
  {
  }

  // ----- Plan order -----

  /** The source's three-way comparison of [onset, release, id]. */
  function CompareEventOrder(a: (real, real, string), b: (real, real, string)): int {
    if a.0 < b.0 then -1 else if a.0 > b.0 then 1
    else if a.1 < b.1 then -1 else if a.1 > b.1 then 1
    else if StringLess(a.2, b.2) then -1 else if StringLess(b.2, a.2) then 1
    else 0
  }

  function OrderKey(e: PlanEvent): (real, real, string) { (e.onsetSeconds, e.releaseSeconds, e.eventId) }

  const FIRST_KEY: (real, real, string) := (-1.0, -1.0, "")

  /** The order the whole plan must have, stated between any two events. */
  predicate Ordered(events: seq<PlanEvent>) {
    && (forall i | 0 <= i < |events| :: CompareEventOrder(FIRST_KEY, OrderKey(events[i])) <= 0)
    && (forall i, j | 0 <= i < j < |events| :: CompareEventOrder(OrderKey(events[i]), OrderKey(events[j])) <= 0)
  }

  predicate Playable(plan: Plan) {
    && plan.schemaVersion == "1.0.0"
    && plan.totalSeconds > 0.0
    && (forall e <- plan.events :: e.onsetSeconds < e.releaseSeconds)
    && Ordered(plan.events)
  }

  lemma OrderTransitive(a: (real, real, string), b: (real, real, string), c: (real, real, string))
    requires CompareEventOrder(a, b) <= 0 && CompareEventOrder(b, c) <= 0
    ensures CompareEventOrder(a, c) <= 0
  {
    StringLessTotal(a.2, b.2);
    StringLessTotal(b.2, c.2);
    StringLessTotal(a.2, c.2);
    if StringLess(a.2, b.2) && StringLess(b.2, c.2) {
      StringLessTransitive(a.2, b.2, c.2);
    }
  }

  lemma OrderFlips(a: (real, real, string), b: (real, real, string))
    ensures CompareEventOrder(a, b) < 0 <==> CompareEventOrder(b, a) > 0
  {
    StringLessTotal(a.2, b.2);
  }

  /** One event may come before another: by onset, then by release, then by id, text by text. */
  predicate MayPrecede(x: PlanEvent, y: PlanEvent) {
    || x.onsetSeconds < y.onsetSeconds
    || (x.onsetSeconds == y.onsetSeconds && x.releaseSeconds < y.releaseSeconds)
    || (x.onsetSeconds == y.onsetSeconds && x.releaseSeconds == y.releaseSeconds && !StringLess(y.eventId, x.eventId))
  }

  lemma PrecedesExactly(x: PlanEvent, y: PlanEvent)
    ensures CompareEventOrder(OrderKey(x), OrderKey(y)) <= 0 <==> MayPrecede(x, y)
  {
    StringLessTotal(x.eventId, y.eventId);
  }

  /** A plan can be played if and only if it is of this version, lasts, and has events that end after they
      begin, none before the beginning of time, each of which may precede the later ones. */
  lemma PlayableExactly(plan: Plan)
    ensures Playable(plan) <==>
      && plan.schemaVersion == "1.0.0" && plan.totalSeconds > 0.0
      && (forall e <- plan.events :: e.onsetSeconds < e.releaseSeconds && NotTooEarly(e))
      && (forall i, j | 0 <= i < j < |plan.events| :: MayPrecede(plan.events[i], plan.events[j]))
  {
    forall e
      ensures CompareEventOrder(FIRST_KEY, OrderKey(e)) <= 0 <==> NotTooEarly(e)
    {
    }
    forall i, j | 0 <= i < j < |plan.events|
      ensures CompareEventOrder(OrderKey(plan.events[i]), OrderKey(plan.events[j])) <= 0
        <==> MayPrecede(plan.events[i], plan.events[j])
    {
      PrecedesExactly(plan.events[i], plan.events[j]);
    }
  }

  /** Not before one second before the start: the loop begins by comparing with that. */
  predicate NotTooEarly(e: PlanEvent) { e.onsetSeconds > -1.0 || (e.onsetSeconds == -1.0 && e.releaseSeconds >= -1.0) }

  /** What one event of a tick adds to the rest. */
  lemma TickStep(events: seq<PlanEvent>, i: nat, scheduled: set<string>, w: Window)
    requires i < |events| && w.rate > 0.0
    ensures var e, rest := events[i], events[i + 1..];
      if Due(e, scheduled, w) then
        && TickNotes(events[i..], scheduled, w) == [NoteFor(e, w)] + TickNotes(rest, scheduled + {e.eventId}, w)
        && TickScheduled(events[i..], scheduled, w) == TickScheduled(rest, scheduled + {e.eventId}, w)
      else
        && TickNotes(events[i..], scheduled, w) == TickNotes(rest, scheduled, w)
        && TickScheduled(events[i..], scheduled, w) == TickScheduled(rest, scheduled, w)
  {
    assert events[i..][1..] == events[i + 1..] && events[i..][0] == events[i];
  }

  class AudioScheduler {
    const transport: Transport
    const lookaheadSeconds: real
    var enabled: bool
    var plan: Option<Plan>
    var scheduled: set<string>
    var notes: seq<Note>
    var panics: nat

    ghost function State(): Desk
      reads this
    {
      Desk(enabled, lookaheadSeconds, plan, scheduled, notes, panics)
    }

    constructor (transport: Transport, lookaheadSeconds: real)
      ensures this.transport == transport
      ensures State() == Desk(true, lookaheadSeconds, None, {}, [], 0)
    {
      this.transport, this.lookaheadSeconds := transport, lookaheadSeconds;
      enabled, plan, scheduled, notes, panics := true, None, {}, [], 0;
    }

    method Panic()
      modifies this
      ensures State() == Panicked(old(State()))
    {
      scheduled, panics := {}, panics + 1;
    }

    method SetEnabled(on: bool)
      modifies this
      ensures State() == var d := old(State()).(enabled := on); if on then d else Panicked(d)
    {
      enabled := on;
      if !enabled {
        Panic();
      }
    }

    /** Accepts exactly the playable plans; the check walks neighbours only. */
    method LoadPlan(next: Plan) returns (ok: bool)
      modifies this
      ensures ok == Playable(next)
      ensures State() == var d := Panicked(old(State())); if ok then d.(plan := Some(next)) else d
    {
      Panic();
      if next.schemaVersion != "1.0.0" || next.totalSeconds <= 0.0 {
        return false;
      }
      var previous := FIRST_KEY;
      for i := 0 to |next.events|
        invariant previous == if i == 0 then FIRST_KEY else OrderKey(next.events[i - 1])
        invariant forall k | 0 <= k < i :: next.events[k].onsetSeconds < next.events[k].releaseSeconds
        invariant forall k | 0 <= k < i :: CompareEventOrder(FIRST_KEY, OrderKey(next.events[k])) <= 0
        invariant forall j, k | 0 <= j < k < i :: CompareEventOrder(OrderKey(next.events[j]), OrderKey(next.events[k])) <= 0
        invariant State() == Panicked(old(State()))
      {
        var e := next.events[i];
        var current := (e.onsetSeconds, e.releaseSeconds, e.eventId);
        OrderFlips(current, previous);
        if e.releaseSeconds <= e.onsetSeconds || CompareEventOrder(current, previous) < 0 {
          assert next.events[i] in next.events;
          return false;
        }
        if i > 0 {
          OrderTransitive(FIRST_KEY, previous, current);
          forall j | 0 <= j < i - 1
            ensures CompareEventOrder(OrderKey(next.events[j]), current) <= 0
          {
            OrderTransitive(OrderKey(next.events[j]), previous, current);
          }
        }
        previous := current;
      }
      plan := Some(next);
      return true;
    }

    /** The listener registered with the transport, for the events one read emitted. */
    method Hear(events: seq<Event>)
      modifies this
      ensures State() == Heard(old(State()), events)
    {
      for i := 0 to |events|
        invariant Heard(State(), events[i..]) == Heard(old(State()), events)
      {
        if events[i].kind != PlayEvent {
          Panic();
        }
      }
    }

    /** Reads the transport; the scheduler hears what the read caused before it goes on. */
    method ReadPosition(now: real) returns (position: real)
      requires Valid(transport.State())
      modifies this, transport
      ensures transport.State() == Poll(old(transport.State()), now).clock
      ensures position == Poll(old(transport.State()), now).position
      ensures State() == Heard(old(State()), Poll(old(transport.State()), now).events)
    {
      var heardBefore := |transport.log|;
      position := transport.PositionSeconds(now);
      Hear(transport.log[heardBefore..]);
    }

    /** The listener itself, for one event. */
    method OnTransport(kind: Kind, now: real, audio: real, ready: bool)
      requires Valid(transport.State())
      modifies this, transport
      ensures kind != PlayEvent ==> State() == Panicked(old(State())) && transport.State() == old(transport.State())
      ensures kind == PlayEvent ==>
        && State() == Ticked(old(State()).(scheduled := {}), old(transport.State()), now, audio, ready)
        && transport.State() == TickedClock(old(State()), old(transport.State()), now, ready)
    {
      if kind != PlayEvent {
        Panic();
      } else {
        scheduled := {};
        var _ := Tick(now, audio, ready);
      }
    }

    method Tick(now: real, audio: real, ready: bool) returns (count: nat)
      requires Valid(transport.State())
      modifies this, transport
      ensures State() == Ticked(old(State()), old(transport.State()), now, audio, ready)
      ensures transport.State() == TickedClock(old(State()), old(transport.State()), now, ready)
      ensures |notes| == old(|notes|) + count
    {
      if !enabled || plan.None? || !transport.playing || !ready {
        return 0;
      }
      var position := ReadPosition(now);
      HeardKeeps(old(State()), Poll(old(transport.State()), now).events);
      var rate := transport.playbackRate;
      ghost var before := State();
      var events, w := plan.value.events, Window(position, rate, audio, position + lookaheadSeconds * rate);
      assert before == Heard(old(State()), Poll(old(transport.State()), now).events);
      assert events == old(State()).plan.value.events && w == WindowAt(old(State()), transport.State(), position, audio);
      count := ScheduleDue(events, w);
      assert transport.State() == Poll(old(transport.State()), now).clock;
      assert State() == before.(notes := before.notes + TickNotes(events, before.scheduled, w),
                                scheduled := TickScheduled(events, before.scheduled, w));
    }

    /** The notes of the window that are not scheduled yet. */
    method ScheduleDue(events: seq<PlanEvent>, w: Window) returns (count: nat)
      requires w.rate > 0.0
      modifies this`notes, this`scheduled
      ensures notes == old(notes) + TickNotes(events, old(scheduled), w)
      ensures scheduled == TickScheduled(events, old(scheduled), w)
      ensures |notes| == old(|notes|) + count
    {
      count := 0;
      for i := 0 to |events|
        invariant notes + TickNotes(events[i..], scheduled, w) == old(notes) + TickNotes(events, old(scheduled), w)
        invariant TickScheduled(events[i..], scheduled, w) == TickScheduled(events, old(scheduled), w)
        invariant |notes| == old(|notes|) + count
      {
        var e := events[i];
        TickStep(events, i, scheduled, w);
        if e.eventId in scheduled { continue; }
        if e.releaseSeconds <= w.position || e.onsetSeconds >= w.horizon { continue; }
        notes := notes + [NoteFor(e, w)];
        scheduled := scheduled + {e.eventId};
        count := count + 1;
      }
      assert events[|events|..] == [];
    }
  }
}
