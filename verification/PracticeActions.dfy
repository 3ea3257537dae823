/** Recommended actions applied to the shared transport (web/mvp1/practice_actions.js). */
module PracticeActions {
  import opened Prelude
  import opened Transport
  import opened TeachingTimeline
  import opened TimelineLaws
  import TransportLaws
  import TransportOperations

  datatype FocusAction = FocusAction(targetRate: Option<real>, focusStart: Option<int>, focusEnd: Option<int>)

  datatype Outcome = Applied | MissingRate | NoUsableRange | NoAnchors | RangeUnresolved | TooShort | Refused

  /** The loop an isolation asks the transport for. */
  function IsolationLoop(anchors: seq<Anchor>, start: int, end: int, duration: real, target: Option<int>): Loop
    requires anchors != []
  {
    var endSeconds := SecondsAt(anchors, end as real);
    Loop(true, SecondsAt(anchors, start as real), if duration > 0.0 then Min(endSeconds, duration) else endSeconds, target)
  }

  predicate UsableRange(action: FocusAction) {
    action.focusStart.Some? && action.focusEnd.Some? && action.focusStart.value < action.focusEnd.value
  }

  /** When an isolation becomes a loop: the passage, cut at the lesson end, has positive length. */
  predicate Loopable(anchors: seq<Anchor>, action: FocusAction, duration: real) {
    && UsableRange(action) && ValidTable(anchors) && action.focusStart.value >= 0
    && var loop := IsolationLoop(anchors, action.focusStart.value, action.focusEnd.value, duration, None);
       loop.startSeconds < loop.endSeconds
  }

  lemma SecondsNonnegative(anchors: seq<Anchor>, tick: int)
    requires ValidTable(anchors) && tick >= 0
    ensures SecondsAt(anchors, tick as real) >= 0.0
  {
    SecondsAtAnchor(anchors, 0);
    SecondsMonotone(anchors, 0.0, tick as real);
  }

  /** On a strict table every non-empty range of ticks that starts before the lesson end is
      loopable, and only those: the transport then accepts the loop as it stands. */
  lemma IsolationAlwaysLegal(anchors: seq<Anchor>, start: nat, end: nat, c: Clock, target: Option<int>)
    requires ValidTable(anchors) && |anchors| >= 2 && StrictSeconds(anchors) && start < end
    ensures var loop := IsolationLoop(anchors, start, end, c.durationSeconds, target);
      var action := FocusAction(None, Some(start), Some(end));
      var startsInside := c.durationSeconds <= 0.0 || SecondsAt(anchors, start as real) < c.durationSeconds;
      && Loopable(anchors, action, c.durationSeconds) == startsInside
      && (startsInside ==> LoopAccepted(c, loop.startSeconds, loop.endSeconds) && loop.Length() > 0.0)
  {
    SecondsStrict(anchors, start, end);
  }

  /** An isolation becomes a loop if and only if the table is valid, the passage is a range of ticks, and it
      begins before it ends and before the lesson does. */
  lemma LoopableExactly(anchors: seq<Anchor>, action: FocusAction, duration: real)
    ensures Loopable(anchors, action, duration) <==>
      && ValidTable(anchors) && action.focusStart.Some? && action.focusEnd.Some?
      && 0 <= action.focusStart.value < action.focusEnd.value
      && SecondsAt(anchors, action.focusStart.value as real) < SecondsAt(anchors, action.focusEnd.value as real)
      && (duration > 0.0 ==> SecondsAt(anchors, action.focusStart.value as real) < duration)
  {
  }

  /** The loop it becomes runs from the passage's first second to its last, or to the end of the lesson, as
      often as the policy says, and nothing has been played of it. */
  lemma IsolatedLoop(anchors: seq<Anchor>, action: FocusAction, c: Clock, target: Option<int>, now: real)
    requires Valid(c) && !c.playing && Loopable(anchors, action, c.durationSeconds)
    ensures var r := SetLoopSpec(c, IsolationLoop(anchors, action.focusStart.value, action.focusEnd.value, c.durationSeconds, target), now);
      var end := SecondsAt(anchors, action.focusEnd.value as real);
      r.Success? && r.value.clock == c.(repetitionCount := 0, loop := Some(Loop(true,
        SecondsAt(anchors, action.focusStart.value as real),
        if c.durationSeconds > 0.0 && end > c.durationSeconds then c.durationSeconds else end, target)))
  {
    SecondsNonnegative(anchors, action.focusStart.value);
    TransportLaws.LoopOfStopped(c, IsolationLoop(anchors, action.focusStart.value, action.focusEnd.value, c.durationSeconds, target), now);
  }

  class PracticeActionController {
    const transport: Transport
    /** The anchor table of a ready timeline; no resolver at all is `None`. */
    const anchors: Option<seq<Anchor>>

    constructor (transport: Transport, anchors: Option<seq<Anchor>>)
      ensures this.transport == transport && this.anchors == anchors
    {
      this.transport, this.anchors := transport, anchors;
    }

    /** The requested rate is used as given, or nothing changes. */
    method ApplySlowDown(action: FocusAction, now: real) returns (outcome: Outcome)
      requires Valid(transport.State())
      modifies transport
      ensures outcome == Applied <==> action.targetRate.Some? && ValidRate(action.targetRate.value)
      ensures outcome == Applied ==>
        transport.State() == SetRateSpec(old(transport.State()), action.targetRate.value, now).value.clock
        && transport.playbackRate == action.targetRate.value
      ensures outcome != Applied ==> transport.State() == old(transport.State()) && transport.log == old(transport.log)
    {
      if action.targetRate.None? {
        return MissingRate;
      }
      RateTaken(transport.State(), action.targetRate.value, now);
      var ok := transport.SetRate(action.targetRate.value, now);
      return if ok then Applied else Refused;
    }

    /** A loopable passage becomes the loop; the transport never refuses what gets that far. */
    method ApplyIsolatePassage(action: FocusAction, target: Option<int>, now: real) returns (outcome: Outcome)
      requires Valid(transport.State())
      modifies transport
      ensures outcome != Refused
      ensures outcome == Applied <==> anchors.Some? && Loopable(anchors.value, action, old(transport.durationSeconds))
      ensures outcome == Applied ==>
        var loop := IsolationLoop(anchors.value, action.focusStart.value, action.focusEnd.value,
                                  old(transport.durationSeconds), target);
        && SetLoopSpec(old(transport.State()), loop, now).Success?
        && transport.State() == SetLoopSpec(old(transport.State()), loop, now).value.clock
      ensures outcome == Applied ==>
        && transport.loop.Some? && transport.loop.value.enabled && transport.loop.value.target == target
        && transport.loop.value.startSeconds == SecondsAt(anchors.value, action.focusStart.value as real)
        && transport.loop.value.endSeconds
           == TransportOperations.Cut(SecondsAt(anchors.value, action.focusEnd.value as real), old(transport.durationSeconds))
      ensures outcome != Applied ==> transport.State() == old(transport.State()) && transport.log == old(transport.log)
    {
      if action.focusStart.None? || action.focusEnd.None? || action.focusEnd.value <= action.focusStart.value {
        return NoUsableRange;
      }
      if anchors.None? {
        return NoAnchors;
      }
      var range := ResolveFocusRangeSeconds(anchors.value, action.focusStart.value, action.focusEnd.value);
      if range.Failure? {
        return RangeUnresolved;
      }
      SecondsNonnegative(anchors.value, action.focusStart.value);
      var duration := transport.durationSeconds;
      var startSeconds := Max(0.0, range.value.startSeconds);
      var endSeconds := if duration > 0.0 then Min(range.value.endSeconds, duration) else range.value.endSeconds;
      if !(endSeconds > startSeconds) {
        return TooShort;
      }
      TransportOperations.PollKeepsSettings(
        transport.State().(loop := Some(Loop(true, startSeconds, endSeconds, target)), repetitionCount := 0), now);
      var ok := transport.SetLoop(Loop(true, startSeconds, endSeconds, target), now);
      return if ok then Applied else Refused;
    }
  }

  lemma RateTaken(c: Clock, rate: real, now: real)
    requires Valid(c)
    ensures SetRateSpec(c, rate, now).Success? ==> SetRateSpec(c, rate, now).value.clock.playbackRate == rate
  {
    if ValidRate(rate) {
      var moved := if c.playing then
        var p := Poll(c, now);
        p.clock.(baseSeconds := p.position, anchorWallMs := Some(now), playbackRate := rate)
        else c.(playbackRate := rate);
      PollStaysNonnegative(c, now);
      TransportLaws.PollKeepsRate(moved, now);
    }
  }
}
