/** What every interleaving of page events and replies keeps true.

    `Control` ties the controller's fields to the replies it still waits for, `Story` follows one
    attempt through the history, and `LiveQueue` is about the queue of the open attempt. */
module AttemptInvariant {
  import opened Prelude
  import opened AttemptModel

  // ----- Reading the history, per attempt -----

  /** The messages sent for attempt `a`, in sending order. */
  function Appends(sent: seq<Sent>, a: nat): seq<Message> {
    if sent == [] then []
    else
      var x := sent[|sent| - 1];
      Appends(sent[..|sent| - 1], a) + if x.AppendSent? && x.item.attempt == a then [x.item] else []
  }

  function LastAppend(sent: seq<Sent>, a: nat): Option<Message> {
    if sent == [] then None
    else
      var x := sent[|sent| - 1];
      if x.AppendSent? && x.item.attempt == a then Some(x.item) else LastAppend(sent[..|sent| - 1], a)
  }

  function Finishes(sent: seq<Sent>, a: nat): nat {
    if sent == [] then 0
    else
      var x := sent[|sent| - 1];
      Finishes(sent[..|sent| - 1], a) + if x.FinishSent? && x.attempt == a then 1 else 0
  }

  function Cancels(sent: seq<Sent>, a: nat): nat {
    if sent == [] then 0
    else
      var x := sent[|sent| - 1];
      Cancels(sent[..|sent| - 1], a) + if x.CancelSent? && x.attempt == a then 1 else 0
  }

  /** A finish or cancel of an attempt that had been capturing. */
  predicate Ends(x: Sent, a: nat) {
    (x.FinishSent? && x.attempt == a) || (x.CancelSent? && x.attempt == a && x.cause != ByUnmounted)
  }

  function EarliestEnd(sent: seq<Sent>, a: nat): Option<nat> {
    if sent == [] then None
    else
      var x, earlier := sent[|sent| - 1], EarliestEnd(sent[..|sent| - 1], a);
      if Ends(x, a) && (earlier.None? || x.at < earlier.value) then Some(x.at) else earlier
  }

  /** The messages captured for attempt `a`. */
  function Captures(captured: seq<Message>, a: nat): seq<Message> {
    if captured == [] then []
    else
      var m := captured[|captured| - 1];
      Captures(captured[..|captured| - 1], a) + if m.attempt == a then [m] else []
  }

  function LatestCapture(captured: seq<Message>, a: nat): nat {
    if captured == [] then 0
    else
      var m, before := captured[|captured| - 1], LatestCapture(captured[..|captured| - 1], a);
      if m.attempt == a && m.captureNs > before then m.captureNs else before
  }

  /** Messages of attempt `a`, numbered from zero. */
  predicate Numbered(messages: seq<Message>, a: nat) {
    forall i | 0 <= i < |messages| :: messages[i].attempt == a && messages[i].sequence == i
  }

  /** What one more request does to every reading of the log. */
  ghost predicate Grown(sent: seq<Sent>, x: Sent, a: nat) {
    var all, mine := sent + [x], x.AppendSent? && x.item.attempt == a;
    var earlier := EarliestEnd(sent, a);
    && Appends(all, a) == Appends(sent, a) + (if mine then [x.item] else [])
    && LastAppend(all, a) == (if mine then Some(x.item) else LastAppend(sent, a))
    && Finishes(all, a) == Finishes(sent, a) + (if x.FinishSent? && x.attempt == a then 1 else 0)
    && Cancels(all, a) == Cancels(sent, a) + (if x.CancelSent? && x.attempt == a then 1 else 0)
    && EarliestEnd(all, a) == (if Ends(x, a) && (earlier.None? || x.at < earlier.value) then Some(x.at) else earlier)
  }

  lemma SentGrows(sent: seq<Sent>, x: Sent, a: nat)
    ensures Grown(sent, x, a)
  {
    assert (sent + [x])[..|sent|] == sent;
  }

  lemma CapturedGrows(captured: seq<Message>, m: Message, a: nat)
    ensures Captures(captured + [m], a) == Captures(captured, a) + if m.attempt == a then [m] else []
    ensures LatestCapture(captured + [m], a)
      == if m.attempt == a && m.captureNs > LatestCapture(captured, a) then m.captureNs else LatestCapture(captured, a)
  {
    assert (captured + [m])[..|captured|] == captured;
  }

  // ----- Control -----

  /** The attempt is still open: it may yet capture, send and be ended. */
  ghost predicate Live(s: State) { Streaming(s.phase) && s.attempt.Some? && s.terminal.None? }

  ghost predicate Phases(s: State) {
    && (s.hidden ==> (s.phase.Idle? || s.phase.Starting?) && s.attempt.None?)
    && (Streaming(s.phase) || s.phase.Cancelling? ==> s.attempt.Some?)
    && (s.phase.Starting? ==> s.attempt.None? && s.doubt.None?)
    && (s.phase.Starting? ==> s.queue == [] && s.nextSequence == 0 && s.acked == 0 && s.pumping != Some(s.generation))
    && (s.queue != [] ==> Live(s))
    && (s.terminal.Some? ==> s.attempt.Some?)
    && (s.attempt.Some? && s.terminal.None? ==> Streaming(s.phase))
    && (s.phase.Capturing? ==> s.terminal.None?)
    && (s.phase.Finishing? ==> s.terminal != Some(CancelTerminal))
    && (s.doubt == Some(DoubtFinish) ==> s.terminal == Some(FinishTerminal))
    && (s.doubt == Some(DoubtBegin) ==> s.attempt.None? && s.phase.Unconfirmed?)
    && (s.pumping.Some? ==> s.pumping.value <= s.generation)
    && (s.attempt.Some? ==> s.attempt.value in s.world.begun && s.world.begun[s.attempt.value].token == s.generation)
    && (s.attempt.Some? ==> OnlyBegun(s, s.attempt))
  }

  /** No other attempt was begun in this generation. */
  ghost predicate OnlyBegun(s: State, who: Option<nat>) {
    forall b <- s.world.begun.Keys :: s.world.begun[b].token == s.generation ==> who == Some(b)
  }

  ghost predicate Alone(s: State, w: Wait) {
    s.world.waits[w] == 1 && forall v <- s.world.waits :: v.token == s.generation ==> v == w
  }

  /** Where an outstanding reply may be found. */
  ghost predicate Placed(s: State, w: Wait) {
    && w.token <= s.generation
    && (w.token == s.generation ==>
          && (w.BeginWait? || w.MountWait? ==> s.phase.Starting? && Alone(s, w))
          && (w.BeginWait? ==> OnlyBegun(s, None))
          && (w.MountWait? ==> OnlyBegun(s, Some(w.attempt)))
          && (w.ResolveWait? ==> s.attempt.None?)
          && (w.FinishWait? ==> s.terminal == Some(FinishTerminal) && s.attempt == Some(w.attempt))
          && (w.CancelWait? ==> s.terminal == Some(CancelTerminal) && s.attempt == Some(w.attempt)))
    && (w.MountWait? ==> w.attempt in s.world.begun && s.world.begun[w.attempt].token == w.token)
    && (w.AppendWait? ==>
          && w.item.attempt in s.world.begun && s.world.begun[w.item.attempt].token == w.token
          && LastAppend(s.world.sent, w.item.attempt) == Some(w.item))
  }

  /** An outcome was given to the request that asked for it. */
  ghost predicate Outcomes(s: State) {
    && (s.phase.Evaluated? ==> s.terminal == Some(FinishTerminal))
    && (s.phase.Interrupted? ==> s.attempt.None? || s.terminal == Some(CancelTerminal))
    && (s.phase.Rejected? ==> s.terminal.Some?)
    && (s.doubt == Some(DoubtCancel) ==> s.terminal == Some(CancelTerminal))
  }

  ghost predicate Control(s: State) { Phases(s) && Outcomes(s) && forall w <- s.world.waits :: Placed(s, w) }

  // ----- One attempt's story -----

  function MountWaits(s: State, a: nat): nat
    requires a in s.world.begun
  {
    s.world.waits[MountWait(s.world.begun[a].token, a)]
  }

  function AppendWaits(s: State, a: nat): nat
    requires a in s.world.begun
  {
    match LastAppend(s.world.sent, a)
    case Some(m) => s.world.waits[AppendWait(s.world.begun[a].token, m)]
    case None => 0
  }

  /** An attempt the server never started has left no trace. */
  ghost predicate Untouched(s: State, a: nat) {
    && Appends(s.world.sent, a) == [] && Captures(s.world.captured, a) == [] && LastAppend(s.world.sent, a).None?
    && Finishes(s.world.sent, a) == 0 && Cancels(s.world.sent, a) == 0 && EarliestEnd(s.world.sent, a).None?
    && LatestCapture(s.world.captured, a) == 0
    && a !in s.world.abandoned && s.attempt != Some(a)
  }

  ghost predicate Story(s: State, a: nat) {
    if a !in s.world.begun then Untouched(s, a)
    else
      var (sends, captures) := (Appends(s.world.sent, a), Captures(s.world.captured, a));
      var (finishes, cancels) := (Finishes(s.world.sent, a), Cancels(s.world.sent, a));
      && s.world.begun[a].token <= s.generation
      && Numbered(captures, a) && sends <= captures
      && (finishes > 0 ==> sends == captures)
      && AppendWaits(s, a) <= 1 && MountWaits(s, a) <= 1
      && (MountWaits(s, a) == 1 ==> Untouched(s, a))
      && (a !in s.world.abandoned ==> cancels <= 1 && (cancels == 0 || finishes == 0))
      && (s.attempt == Some(a) ==> Current(s, a))
      && ((Live(s) && s.attempt == Some(a)) || MountWaits(s, a) == 1 || finishes + cancels >= 1)
      && (finishes + cancels == 0 ==> EarliestEnd(s.world.sent, a).None?)
      && (EarliestEnd(s.world.sent, a).Some? ==>
            s.world.begun[a].at <= EarliestEnd(s.world.sent, a).value && LatestCapture(s.world.captured, a) <= EarliestEnd(s.world.sent, a).value)
      && (s.world.begun[a].token == s.generation ==>
            s.world.begun[a].at <= s.lastCaptureNs && LatestCapture(s.world.captured, a) <= s.lastCaptureNs)
  }

  /** What holds of the attempt the controller is on. */
  ghost predicate Current(s: State, a: nat)
    requires a in s.world.begun
  {
    && a !in s.world.abandoned
    && MountWaits(s, a) == 0
    && (s.terminal.None? ==> Finishes(s.world.sent, a) == 0 && Cancels(s.world.sent, a) == 0)
    && (s.terminal == Some(FinishTerminal) ==>
          && Cancels(s.world.sent, a) == 0 && Finishes(s.world.sent, a) >= 1 && AppendWaits(s, a) == 0
          && s.acked == s.nextSequence == |Captures(s.world.captured, a)|)
    && (s.terminal == Some(CancelTerminal) ==> Finishes(s.world.sent, a) == 0 && Cancels(s.world.sent, a) == 1)
  }

  // ----- The queue of the open attempt -----

  /** The queue holds exactly the captured messages not yet acknowledged. */
  ghost predicate QueueHolds(s: State)
    requires s.attempt.Some?
  {
    var captures := Captures(s.world.captured, s.attempt.value);
    && |s.queue| <= QUEUE_LIMIT
    && s.acked <= s.nextSequence == |captures|
    && s.queue == captures[s.acked..]
  }

  ghost predicate Pumping(s: State) { s.pumping == Some(s.generation) }

  /** While an attempt is live its pump runs exactly when its queue is not empty, and the one
      append in flight carries the head of the queue. */
  ghost predicate LiveQueue(s: State) {
    Live(s) && s.attempt.value in s.world.begun ==>
      var a := s.attempt.value;
      && QueueHolds(s)
      && (Pumping(s) <==> s.queue != [])
      && (s.phase.Finishing? ==> Pumping(s))
      && |Appends(s.world.sent, a)| == s.acked + AppendWaits(s, a)
      && (Pumping(s) <==> AppendWaits(s, a) == 1)
      && (Pumping(s) ==> LastAppend(s.world.sent, a) == Some(s.queue[0]))
  }

  ghost predicate Stories(s: State) { forall a :: Story(s, a) }

  ghost predicate Inv(s: State) { Control(s) && Stories(s) && LiveQueue(s) }

  lemma InitialInv()
    ensures Inv(INITIAL)
  {
  }
}
