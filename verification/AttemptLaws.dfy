/** What the received-attempt protocol promises, over every interleaving. */
module AttemptLaws {
  import opened Prelude
  import opened AttemptModel
  import opened AttemptInvariant
  import opened AttemptPreservation

  /** The messages captured for an attempt are numbered 0, 1, 2, ...; those sent are the first of
      them, unaltered, in order and each once; and all of them were sent before a finish. */
  lemma AppendsInOrder(events: seq<Event>, a: nat)
    requires Possible(events)
    ensures var s := Run(events);
      var (sends, captures) := (Appends(s.world.sent, a), Captures(s.world.captured, a));
      && Numbered(captures, a) && sends <= captures
      && (Finishes(s.world.sent, a) > 0 ==> sends == captures)
  {
    RunKeeps(events);
    assert Story(Run(events), a);
  }

  /** While an attempt is open its queue holds exactly the messages acked..nextSequence-1, in
      order and at most 256 of them, and all of them but the one in flight are still unsent. */
  lemma QueueIsUnacknowledged(events: seq<Event>)
    requires Possible(events) && Live(Run(events))
    ensures var s := Run(events);
      var captures := Captures(s.world.captured, s.attempt.value);
      && Numbered(captures, s.attempt.value)
      && s.acked <= s.nextSequence == |captures|
      && s.queue == captures[s.acked..] && |s.queue| <= 256
      && Appends(s.world.sent, s.attempt.value) == captures[..s.acked + if s.queue == [] then 0 else 1]
  {
    RunKeeps(events);
    assert Story(Run(events), Run(events).attempt.value);
  }

  /** Two outstanding appends of one attempt are the same append, outstanding once. */
  lemma OneAppendInFlight(events: seq<Event>, w: Wait, v: Wait)
    requires Possible(events) && w in Run(events).world.waits && v in Run(events).world.waits
    requires w.AppendWait? && v.AppendWait? && w.item.attempt == v.item.attempt
    ensures w == v && Run(events).world.waits[w] == 1
  {
    RunKeeps(events);
    var s := Run(events);
    assert Placed(s, w) && Placed(s, v) && Story(s, w.item.attempt);
    assert AppendWaits(s, w.item.attempt) == s.world.waits[w];
  }

  /** No started attempt is forgotten: it is the open one, still being mounted, or was told to end. */
  lemma NoOrphanedAttempt(events: seq<Event>, a: nat)
    requires Possible(events) && a in Run(events).world.begun
    ensures var s := Run(events);
      || (Live(s) && s.attempt == Some(a))
      || MountWait(s.world.begun[a].token, a) in s.world.waits
      || Finishes(s.world.sent, a) + Cancels(s.world.sent, a) >= 1
  {
    RunKeeps(events);
    assert Story(Run(events), a);
  }

  /** The attempt a reply is about. */
  function About(e: Event): nat
    requires e.AppendReplyEvent? || e.FinishReplyEvent? || e.CancelReplyEvent?
  {
    if e.AppendReplyEvent? then e.item.attempt else e.attempt
  }

  /** An append, finish or cancel reply for an attempt other than the current one changes nothing but
      the mark of that attempt's own pump, whenever it comes. */
  lemma LateRepliesInert(events: seq<Event>, e: Event)
    requires Possible(events) && Enabled(Run(events), e)
    requires e.AppendReplyEvent? || e.FinishReplyEvent? || e.CancelReplyEvent?
    requires Run(events).attempt != Some(About(e))
    ensures var s := Run(events);
      && Step(s, e) == Forget(s, WaitOf(e).value).(pumping := Step(s, e).pumping)
      && Step(s, e).pumping == if e.AppendReplyEvent? && s.pumping == Some(e.token) then None else s.pumping
  {
    RunKeeps(events);
    assert Placed(Run(events), WaitOf(e).value);
  }

  /** A late begin reply is not isolated: it closes whatever start is pending now. It changes
      nothing exactly when none is. */
  lemma LateBeginInertExactly(s: State, e: Event)
    requires Enabled(s, e) && e.BeginReplyEvent? && !Alive(s, e.token)
    ensures Step(s, e) == Forget(s, BeginWait(e.token, e.key)) <==> s.pendingBegin.None?
    ensures s.pendingBegin.Some? ==>
      && Step(s, e).pendingBegin.None?
      && Step(s, e).world.sent == s.world.sent + [ResolveSent(s.pendingBegin.value, true)]
  {
    if s.pendingBegin.Some? {
      assert |Step(s, e).world.sent| == |s.world.sent| + 1;
    }
  }

  /** Start, leave, start again. */
  function StartTwice(): seq<Event> { [StartEvent(true, true, 0), AbandonEvent(0), StartEvent(true, true, 0)] }

  lemma RunExtends(events: seq<Event>, e: Event)
    ensures Run(events + [e]) == Step(Run(events), e)
    ensures Possible(events + [e]) <==> Possible(events) && Enabled(Run(events), e)
  {
    assert (events + [e])[..|events|] == events;
  }

  lemma FirstStart(s: State)
    requires s.phase.Idle? && s.doubt.None? && s.pendingBegin.None? && s.attempt.None?
    ensures var (t, token) := (Start(s, true, true, 0), s.generation + 1);
      && t.generation == token && t.pendingBegin == Some(token) && t.attempt.None?
      && t.hidden == s.hidden && t.world.begun == s.world.begun
      && t.world.waits == s.world.waits + multiset{BeginWait(token, token)}
  {
  }

  lemma LeftPending(s: State, key: nat)
    requires s.pendingBegin == Some(key) && s.attempt.None?
    ensures var t := Abandon(s, 0);
      && t.phase.Idle? && t.doubt.None? && t.pendingBegin.None? && t.attempt.None?
      && t.generation == s.generation + 1 && t.world.waits == s.world.waits
      && t.hidden == s.hidden && t.world.begun == s.world.begun
  {
  }

  lemma StartedTwice()
    ensures Possible(StartTwice())
    ensures var s := Run(StartTwice());
      && s.generation == 3 && s.pendingBegin == Some(3) && !s.hidden && s.world.begun == map[]
      && BeginWait(1, 1) in s.world.waits && BeginWait(3, 3) in s.world.waits
  {
    var e, left := StartEvent(true, true, 0), AbandonEvent(0);
    FirstStart(INITIAL);
    LeftPending(Start(INITIAL, true, true, 0), 1);
    FirstStart(Abandon(Start(INITIAL, true, true, 0), 0));
    RunExtends([], e);
    RunExtends([e], left);
    RunExtends([e, left], e);
    assert [] + [e] == [e] && [e] + [left] == [e, left] && [e, left] + [e] == StartTwice();
  }

  /** After that run the first start's late reply closes the second start. */
  lemma LateBeginTouchesNewerStart(reply: GatewayReply)
    requires reply.Wrapper? ==> !reply.status.StartedStatus?
    ensures var (s, late) := (Run(StartTwice()), BeginReplyEvent(1, 1, reply));
      && Possible(StartTwice()) && Enabled(s, late)
      && s.pendingBegin == Some(s.generation) && late.token < s.generation
      && Step(s, late).pendingBegin == None
  {
    StartedTwice();
  }

  /** Unless it was abandoned, an attempt never gets both a finish and a cancel, nor two cancels. */
  lemma TerminalExclusive(events: seq<Event>, a: nat)
    requires Possible(events) && a !in Run(events).world.abandoned
    ensures var s := Run(events); Cancels(s.world.sent, a) <= 1 && (Cancels(s.world.sent, a) == 0 || Finishes(s.world.sent, a) == 0)
  {
    RunKeeps(events);
    assert Story(Run(events), a);
  }

  /** From the first finish of an attempt on, every message captured for it has been sent and
      acknowledged: a finish is never sent sooner. */
  lemma FinishMeansDrained(events: seq<Event>, a: nat)
    requires Possible(events) && Run(events).attempt == Some(a) && Finishes(Run(events).world.sent, a) > 0
    ensures var s := Run(events);
      s.acked == s.nextSequence == |Captures(s.world.captured, a)| && Appends(s.world.sent, a) == Captures(s.world.captured, a)
  {
    RunKeeps(events);
    assert Story(Run(events), a);
    DrainedHere(Run(events), a);
  }

  /** An evaluated attempt was finished and not cancelled, and every message captured for it had
      been sent and acknowledged; an interrupted one that is still shown was cancelled, once. */
  lemma OutcomesAreEarned(events: seq<Event>, a: nat)
    requires Possible(events) && Run(events).attempt == Some(a)
    ensures var s := Run(events);
      && (s.phase.Evaluated? ==>
            && Finishes(s.world.sent, a) >= 1 && Cancels(s.world.sent, a) == 0
            && s.acked == s.nextSequence && Appends(s.world.sent, a) == Captures(s.world.captured, a))
      && (s.phase.Interrupted? ==> Finishes(s.world.sent, a) == 0 && Cancels(s.world.sent, a) == 1)
      && (s.phase.Rejected? ==> Finishes(s.world.sent, a) + Cancels(s.world.sent, a) >= 1)
  {
    RunKeeps(events);
    assert Story(Run(events), a);
  }

  lemma DrainedHere(s: State, a: nat)
    requires Control(s) && Story(s, a) && s.attempt == Some(a) && Finishes(s.world.sent, a) > 0
    ensures s.acked == s.nextSequence == |Captures(s.world.captured, a)| && Appends(s.world.sent, a) == Captures(s.world.captured, a)
  {
    match s.terminal
    case None =>
    case Some(kind) =>
      match kind
      case FinishTerminal =>
      case CancelTerminal =>
  }

  // ----- Times -----

  lemma {:induction false} EarliestIsLeast(sent: seq<Sent>, a: nat, i: nat)
    requires i < |sent| && Ends(sent[i], a)
    ensures EarliestEnd(sent, a).Some? && EarliestEnd(sent, a).value <= sent[i].at
    decreases |sent|
  {
    if i < |sent| - 1 {
      EarliestIsLeast(sent[..|sent| - 1], a, i);
    }
  }

  lemma {:induction false} LatestIsMost(captured: seq<Message>, i: nat)
    requires i < |captured|
    ensures captured[i].captureNs <= LatestCapture(captured, captured[i].attempt)
    decreases |captured|
  {
    if i < |captured| - 1 {
      LatestIsMost(captured[..|captured| - 1], i);
    }
  }

  /** Every end of an attempt that had been capturing is timed no earlier than its beginning and
      than every message captured for it. */
  lemma EndsAfterEverything(events: seq<Event>, i: nat, a: nat)
    requires Possible(events) && i < |Run(events).world.sent| && Ends(Run(events).world.sent[i], a)
    ensures var s := Run(events);
      && a in s.world.begun && s.world.begun[a].at <= s.world.sent[i].at
      && forall m <- s.world.captured | m.attempt == a :: m.captureNs <= s.world.sent[i].at
  {
    RunKeeps(events);
    var s := Run(events);
    assert Story(s, a);
    EarliestIsLeast(s.world.sent, a, i);
    forall m <- s.world.captured | m.attempt == a
      ensures m.captureNs <= s.world.sent[i].at
    {
      var j :| 0 <= j < |s.world.captured| && s.world.captured[j] == m;
      LatestIsMost(s.world.captured, j);
    }
  }
}
