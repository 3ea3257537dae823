/** The media follower and its drift ladder (web/mvp1/media-sync.js). */
module MediaSync {
  import opened Prelude

  const SYNCED_MS: real := 40.0
  const HARD_SEEK_MS: real := 150.0
  const SETTLE_MS: real := 250.0
  const NUDGE: real := 0.05

  datatype Mode = Detached | Synchronized
  datatype Status = SyncedStatus | Drifting | Correcting | Degraded | DetachedStatus | Unavailable | OutOfRange
  datatype Correction = NoCorrection | Resample | HardSeek

  function Abs(x: real): real { if x < 0.0 then -x else x }

  function DriftMs(expected: real, actual: real): real { (actual - expected) * 1000.0 }

  function ClassifyHealth(driftMs: real): Status {
    if Abs(driftMs) <= SYNCED_MS then SyncedStatus
    else if Abs(driftMs) <= HARD_SEEK_MS then Drifting
    else Correcting
  }

  function ChooseCorrection(driftMs: real): Correction {
    if Abs(driftMs) <= SYNCED_MS then NoCorrection
    else if Abs(driftMs) <= HARD_SEEK_MS then Resample
    else HardSeek
  }

  datatype Binding = Binding(
    mode: Mode, lessonAnchor: real, mediaAnchor: real, lessonEnd: Option<real>, mediaEnd: Option<real>)

  function LessonToMedia(binding: Option<Binding>, lessonSeconds: real): Option<real> {
    if binding.None? || binding.value.mode != Synchronized then None
    else
      var b := binding.value;
      if lessonSeconds < b.lessonAnchor then None
      else if b.lessonEnd.Some? && lessonSeconds > b.lessonEnd.value then None
      else
        var media := b.mediaAnchor + (lessonSeconds - b.lessonAnchor);
        if b.mediaEnd.Some? && media > b.mediaEnd.value then None else Some(media)
  }

  datatype Command = PlayCommand | PauseCommand | SeekCommand | RateCommand

  /** The media element as the follower sees it. `ranges` is None when it reports none at all; a command
      in `refuses` throws, or is rejected, and leaves it as it was. */
  datatype Element = Element(
    paused: bool, playbackRate: real, currentTime: Option<real>, stalled: bool, ranges: Option<seq<(real, real)>>,
    refuses: set<Command>)
  {
    function Paused(): Element { if PauseCommand in refuses then this else this.(paused := true) }
    function Played(): Element { if PlayCommand in refuses then this else this.(paused := false) }
    function AtRate(rate: real): Element { if RateCommand in refuses then this else this.(playbackRate := rate) }
  }

  datatype Reason = SeekReason | WrapReason | RestartReason | OtherReason

  datatype Timeline = Timeline(playing: bool, positionSeconds: real, playbackRate: real)

  datatype Health = Health(
    sequence: nat, status: Status, expected: Option<real>, actual: Option<real>,
    driftMs: Option<real>, correction: Option<Correction>)

  datatype Follower = Follower(
    binding: Option<Binding>, mode: Mode, settleUntilMs: Option<real>, hardSeekCount: nat, sequence: nat,
    element: Option<Element>)

  datatype Step = Step(follower: Follower, health: Health)

  predicate CanSeekTo(e: Element, seconds: real) {
    e.ranges.None? || exists r <- e.ranges.value :: r.0 <= seconds <= r.1
  }

  function Report(f: Follower, status: Status, expected: Option<real>, actual: Option<real>,
                  correction: Option<Correction>): Step
  {
    var measured := status in {SyncedStatus, Drifting, Correcting} && expected.Some? && actual.Some?;
    Step(f.(sequence := f.sequence + 1),
         Health(f.sequence + 1, status, expected, actual,
                if measured then Some(DriftMs(expected.value, actual.value)) else None,
                if measured then correction else None))
  }

  function FollowPlayState(e: Element, playing: bool): Element {
    if e.paused == !playing then e else if playing then e.Played() else e.Paused()
  }

  /** A refused seek is neither counted nor waited for. */
  function HardSeekTo(f: Follower, e: Element, expected: real, rate: real, now: real): Follower {
    if SeekCommand in e.refuses then f.(element := Some(e))
    else
      f.(element := Some(e.(currentTime := Some(expected)).AtRate(rate)),
         hardSeekCount := f.hardSeekCount + 1, settleUntilMs := Some(now + SETTLE_MS))
  }

  function Restored(f: Follower): Follower {
    if f.element.Some? then f.(element := Some(f.element.value.AtRate(1.0))) else f
  }

  predicate Settling(f: Follower, now: real) { f.settleUntilMs.Some? && now < f.settleUntilMs.value }

  function NudgedRate(driftMs: real, rate: real): real {
    rate * (1.0 + (if driftMs > 0.0 then -1.0 else 1.0) * NUDGE)
  }

  /** One timeline state applied to the element. */
  function Apply(f: Follower, state: Timeline, reason: Reason, now: real): Step {
    if f.mode != Synchronized || f.binding.None? then Report(f, DetachedStatus, None, None, None)
    else if f.element.None? then Report(f, Unavailable, None, None, None)
    else
      var e := f.element.value;
      var expected := LessonToMedia(f.binding, state.positionSeconds);
      if expected.None? then
        Report(f.(element := Some(e.Paused())), OutOfRange, None, e.currentTime, None)
      else if e.stalled then Report(f, Degraded, expected, e.currentTime, None)
      else if e.currentTime.None? then Report(f, Unavailable, expected, None, None)
      else Measured(f, FollowPlayState(e, state.playing), state, reason, expected.value, now)
  }

  /** The part of `Apply` with an expected and an actual media time in hand. */
  function Measured(f: Follower, e: Element, state: Timeline, reason: Reason, expected: real, now: real): Step
    requires e.currentTime.Some?
  {
    var actual := e.currentTime.value;
    var driftMs := DriftMs(expected, actual);
    var g := f.(element := Some(e));
    if Settling(f, now) then
      var landed := ClassifyHealth(driftMs) == SyncedStatus;
      Report(if landed then g.(settleUntilMs := None) else g,
             ClassifyHealth(driftMs), Some(expected), Some(actual), Some(NoCorrection))
    else
      var h := g.(settleUntilMs := None);
      if reason != OtherReason then
        if !CanSeekTo(e, expected) then Report(h, Degraded, Some(expected), Some(actual), None)
        else Report(HardSeekTo(h, e, expected, state.playbackRate, now), Correcting, Some(expected), Some(actual), Some(HardSeek))
      else match ChooseCorrection(driftMs)
        case HardSeek =>
          if !CanSeekTo(e, expected) then Report(h, Degraded, Some(expected), Some(actual), None)
          else Report(HardSeekTo(h, e, expected, state.playbackRate, now), Correcting, Some(expected), Some(actual), Some(HardSeek))
        case Resample =>
          Report(h.(element := Some(e.AtRate(NudgedRate(driftMs, state.playbackRate)))),
                 Drifting, Some(expected), Some(actual), Some(Resample))
        case NoCorrection =>
          Report(h.(element := Some(e.AtRate(state.playbackRate))),
                 SyncedStatus, Some(expected), Some(actual), Some(NoCorrection))
  }

  /** The element object the page hands out. */
  class MediaElement {
    var paused: bool
    var playbackRate: real
    var currentTime: Option<real>
    var stalled: bool
    var ranges: Option<seq<(real, real)>>
    var refuses: set<Command>

    ghost function State(): Element
      reads this
    {
      Element(paused, playbackRate, currentTime, stalled, ranges, refuses)
    }

    constructor (paused: bool, playbackRate: real, currentTime: Option<real>, stalled: bool,
                 ranges: Option<seq<(real, real)>>, refuses: set<Command>)
      ensures State() == Element(paused, playbackRate, currentTime, stalled, ranges, refuses)
    {
      this.paused, this.playbackRate, this.currentTime := paused, playbackRate, currentTime;
      this.stalled, this.ranges, this.refuses := stalled, ranges, refuses;
    }

    method Play()
      modifies this
      ensures State() == old(State()).Played()
    {
      if PlayCommand !in refuses {
        paused := false;
      }
    }

    method Pause()
      modifies this
      ensures State() == old(State()).Paused()
    {
      if PauseCommand !in refuses {
        paused := true;
      }
    }

    /** Assigning the rate, with the exception caught. */
    method SetRate(rate: real)
      modifies this
      ensures State() == old(State()).AtRate(rate)
    {
      if playbackRate != rate && RateCommand !in refuses {
        playbackRate := rate;
      }
    }

    /** Assigning the time; `thrown` is the exception. */
    method SetTime(seconds: real) returns (thrown: bool)
      modifies this
      ensures thrown == (SeekCommand in old(refuses))
      ensures State() == if thrown then old(State()) else old(State()).(currentTime := Some(seconds))
    {
      thrown := SeekCommand in refuses;
      if !thrown {
        currentTime := Some(seconds);
      }
    }
  }

  class MediaSyncFollower {
    const element: MediaElement?
    var binding: Option<Binding>
    var mode: Mode
    var settleUntilMs: Option<real>
    var hardSeekCount: nat
    var sequence: nat

    ghost function State(): Follower
      reads this, element
    {
      Follower(binding, mode, settleUntilMs, hardSeekCount, sequence,
               if element == null then None else Some(element.State()))
    }

    constructor (element: MediaElement?)
      ensures this.element == element && binding == None && mode == Detached && settleUntilMs == None
      ensures hardSeekCount == 0 && sequence == 0
    {
      this.element := element;
      binding, mode, settleUntilMs, hardSeekCount, sequence := None, Detached, None, 0, 0;
    }

    method SetBinding(next: Option<Binding>)
      modifies this, element
      ensures var f := old(State());
        var m := if next.Some? then next.value.mode else Detached;
        var g := f.(binding := next, mode := m, settleUntilMs := None);
        State() == if m == Detached then Restored(g) else g
      ensures binding == next && settleUntilMs == None
      ensures mode == Synchronized <==> next.Some? && next.value.mode == Synchronized
      ensures mode == Detached && element != null && RateCommand !in element.refuses ==> element.playbackRate == 1.0
    {
      binding := next;
      mode := if next.Some? && next.value.mode == Synchronized then Synchronized else Detached;
      settleUntilMs := None;
      if mode == Detached {
        RestoreDetachedRate();
      }
    }

    method SetMode(next: Mode)
      modifies this, element
      ensures var f := old(State());
        State() ==
          if next == Synchronized && f.binding.None? then f.(mode := Detached)
          else
            var g := f.(mode := next, settleUntilMs := None);
            if next == Detached then Restored(g) else g
      ensures mode == Synchronized <==> next == Synchronized && binding.Some?
      ensures next == Detached && element != null && RateCommand !in element.refuses ==> element.playbackRate == 1.0
    {
      if next == Synchronized && binding.None? {
        mode := Detached;
        return;
      }
      mode, settleUntilMs := next, None;
      if mode == Detached {
        RestoreDetachedRate();
      }
    }

    method RestoreDetachedRate()
      modifies element
      ensures State() == Restored(old(State()))
    {
      if element != null {
        element.SetRate(1.0);
      }
    }

    method OnTimeline(state: Timeline, reason: Reason, now: real) returns (health: Health)
      modifies this, element
      ensures Step(State(), health) == Apply(old(State()), state, reason, now)
    {
      if mode != Synchronized || binding.None? {
        health := Record(DetachedStatus, None, None, None);
        return;
      }
      if element == null {
        health := Record(Unavailable, None, None, None);
        return;
      }
      var expected := LessonToMedia(binding, state.positionSeconds);
      if expected.None? {
        if !element.paused {
          element.Pause();
        }
        health := Record(OutOfRange, None, element.currentTime, None);
        return;
      }
      if element.stalled {
        health := Record(Degraded, expected, element.currentTime, None);
        return;
      }
      if element.currentTime.None? {
        health := Record(Unavailable, expected, None, None);
        return;
      }
      var actual := element.currentTime.value;
      FollowPlay(state.playing);
      health := Correct(state, reason, expected.value, actual, now);
    }

    /** The part with an expected and an actual media time in hand. */
    method Correct(state: Timeline, reason: Reason, expected: real, actual: real, now: real) returns (health: Health)
      requires element != null && element.currentTime == Some(actual)
      modifies this, element
      ensures Step(State(), health) == Measured(old(State()), old(element.State()), state, reason, expected, now)
    {
      if settleUntilMs.Some? && now < settleUntilMs.value {
        var settling := ClassifyHealth(DriftMs(expected, actual));
        if settling == SyncedStatus {
          settleUntilMs := None;
        }
        health := Record(settling, Some(expected), Some(actual), Some(NoCorrection));
        return;
      }
      settleUntilMs := None;
      var seekable := CanSeek(expected);
      if reason != OtherReason {
        if !seekable {
          health := Record(Degraded, Some(expected), Some(actual), None);
          return;
        }
        Seek(expected, state.playbackRate, now);
        health := Record(Correcting, Some(expected), Some(actual), Some(HardSeek));
        return;
      }
      var driftMs := DriftMs(expected, actual);
      var correction := ChooseCorrection(driftMs);
      if correction == HardSeek {
        if !seekable {
          health := Record(Degraded, Some(expected), Some(actual), None);
          return;
        }
        Seek(expected, state.playbackRate, now);
      } else if correction == Resample {
        var direction := if driftMs > 0.0 then -1.0 else 1.0;
        element.SetRate(state.playbackRate * (1.0 + direction * NUDGE));
      } else {
        element.SetRate(state.playbackRate);
      }
      health := Record(ClassifyHealth(driftMs), Some(expected), Some(actual), Some(correction));
    }

    method FollowPlay(playing: bool)
      requires element != null
      modifies element
      ensures State() == old(State()).(element := Some(FollowPlayState(old(element.State()), playing)))
    {
      if playing && element.paused {
        element.Play();
      } else if !playing && !element.paused {
        element.Pause();
      }
    }

    method Seek(expected: real, rate: real, now: real)
      requires element != null
      modifies this, element
      ensures State() == HardSeekTo(old(State()), old(element.State()), expected, rate, now)
    {
      var thrown := element.SetTime(expected);
      if thrown {
        return;
      }
      element.SetRate(rate);
      hardSeekCount, settleUntilMs := hardSeekCount + 1, Some(now + SETTLE_MS);
    }

    method CanSeek(seconds: real) returns (ok: bool)
      requires element != null
      ensures ok == CanSeekTo(element.State(), seconds)
    {
      if element.ranges.None? {
        return true;
      }
      var ranges := element.ranges.value;
      for i := 0 to |ranges|
        invariant forall k | 0 <= k < i :: !(ranges[k].0 <= seconds <= ranges[k].1)
      {
        if seconds >= ranges[i].0 && seconds <= ranges[i].1 {
          assert ranges[i] in ranges;
          return true;
        }
      }
      return false;
    }

    method Record(status: Status, expected: Option<real>, actual: Option<real>, correction: Option<Correction>)
      returns (health: Health)
      modifies this`sequence
      ensures Step(State(), health) == Report(old(State()), status, expected, actual, correction)
    {
      sequence := sequence + 1;
      var measured := status in {SyncedStatus, Drifting, Correcting} && expected.Some? && actual.Some?;
      health := Health(sequence, status, expected, actual,
        if measured then Some(DriftMs(expected.value, actual.value)) else None,
        if measured then correction else None);
    }
  }
}
