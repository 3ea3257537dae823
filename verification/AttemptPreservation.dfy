/** Each step of the protocol keeps the invariant. */
module AttemptPreservation {
  import opened Prelude
  import opened AttemptModel
  import opened AttemptInvariant

  /** Logging a request that no other field depends on. */
  lemma LogGrows(s: State, x: Sent)
    ensures forall a :: Grown(s.world.sent, x, a)
  {
    forall a
      ensures Grown(s.world.sent, x, a)
    {
      SentGrows(s.world.sent, x, a);
    }
  }

  lemma StartKeeps(s: State, ready: bool, keyMinted: bool, now: nat)
    requires Inv(s)
    ensures Inv(Start(s, ready, keyMinted, now))
  {
    StartStories(s, ready, keyMinted, now);
    StartControl(s, ready, keyMinted, now);
  }

  lemma StartStories(s: State, ready: bool, keyMinted: bool, now: nat)
    requires Stories(s)
    ensures Stories(Start(s, ready, keyMinted, now))
  {
    LogGrows(s, BeginSent(s.generation + 1, now));
    forall a
      ensures Story(Start(s, ready, keyMinted, now), a)
    {
      assert Story(s, a);
    }
  }

  lemma StartControl(s: State, ready: bool, keyMinted: bool, now: nat)
    requires Control(s) && Stories(s)
    ensures Control(Start(s, ready, keyMinted, now))
  {
    var t := Start(s, ready, keyMinted, now);
    if t != s {
      LogGrows(s, BeginSent(s.generation + 1, now));
      forall b <- s.world.begun.Keys
        ensures s.world.begun[b].token != t.generation
      {
        assert Story(s, b);
      }
      forall w <- t.world.waits
        ensures Placed(t, w)
      {
        if w in s.world.waits {
          assert Placed(s, w);
        }
      }
    }
  }

  lemma ResolveSentKeeps(s: State, x: Sent)
    requires Inv(s) && x.ResolveSent?
    ensures Inv(Log(s, x))
  {
    LogGrows(s, x);
    ResolveSentStories(s, x);
    forall v <- Log(s, x).world.waits
      ensures Placed(Log(s, x), v)
    {
      assert Placed(s, v);
    }
  }

  lemma ResolveSentStories(s: State, x: Sent)
    requires Stories(s) && x.ResolveSent?
    ensures Stories(Log(s, x))
  {
    LogGrows(s, x);
    forall a
      ensures Story(Log(s, x), a)
    {
      assert Story(s, a);
    }
  }

  /** Taking a reply other than a mount or an append off the outstanding ones. */
  lemma ForgetKeeps(s: State, w: Wait)
    requires Inv(s) && w in s.world.waits && !w.AppendWait? && !w.MountWait?
    ensures Inv(Forget(s, w))
    ensures w.BeginWait? && w.token == s.generation ==>
      forall v <- Forget(s, w).world.waits :: v.token != s.generation
  {
    var t := Forget(s, w);
    assert Placed(s, w);
    forall a
      ensures Story(t, a)
    {
      assert Story(s, a);
    }
    forall v <- t.world.waits
      ensures Placed(t, v)
    {
      assert Placed(s, v);
    }
  }

  /** No start of this generation is outstanding or being mounted. */
  ghost predicate Clear(s: State) {
    forall w <- s.world.waits :: w.token == s.generation ==> !w.BeginWait? && !w.MountWait?
  }

  /** Settling where no attempt is open. */
  lemma SettleKeeps(s: State, phase: Phase, doubt: Option<Doubt>, pending: Option<nat>, resolving: bool)
    requires Inv(s) && Clear(s) && !s.hidden && !Live(s)
    requires phase.Idle? || phase.Evaluated? || phase.Interrupted? || phase.Unconfirmed? || phase.Rejected?
    requires doubt == Some(DoubtFinish) ==> s.terminal == Some(FinishTerminal)
    requires doubt == Some(DoubtBegin) ==> s.attempt.None? && phase.Unconfirmed?
    requires Outcomes(s.(phase := phase, doubt := doubt))
    ensures Inv(s.(phase := phase, doubt := doubt, pendingBegin := pending, resolving := resolving))
  {
    var t := s.(phase := phase, doubt := doubt, pendingBegin := pending, resolving := resolving);
    forall a
      ensures Story(t, a)
    {
      assert Story(s, a);
    }
    forall v <- t.world.waits
      ensures Placed(t, v)
    {
      assert Placed(s, v);
    }
  }

  /** Fields no clause reads. */
  lemma IgnoredKeep(s: State, intake: nat, pending: Option<nat>, resolving: bool)
    requires Inv(s)
    ensures Inv(s.(intakeToken := intake, pendingBegin := pending, resolving := resolving))
  {
    var t := s.(intakeToken := intake, pendingBegin := pending, resolving := resolving);
    forall a
      ensures Story(t, a)
    {
      assert Story(s, a);
    }
    forall v <- t.world.waits
      ensures Placed(t, v)
    {
      assert Placed(s, v);
    }
  }

  lemma BeginReplyKeeps(s: State, token: nat, key: nat, reply: GatewayReply)
    requires Inv(s) && BeginWait(token, key) in s.world.waits
    requires reply.Wrapper? && reply.status.StartedStatus? ==> reply.status.attempt !in s.world.begun
    ensures Inv(BeginReply(Forget(s, BeginWait(token, key)), token, reply))
  {
    var t := Forget(s, BeginWait(token, key));
    ForgetKeeps(s, BeginWait(token, key));
    if !Alive(t, token) {
      KeepaliveKeeps(t);
    } else {
      assert Placed(s, BeginWait(token, key));
      LiveBeginKeeps(t, reply);
    }
  }

  lemma LiveBeginKeeps(s: State, reply: GatewayReply)
    requires Inv(s) && s.phase.Starting? && !s.hidden && OnlyBegun(s, None)
    requires forall v <- s.world.waits :: v.token != s.generation
    requires reply.Wrapper? && reply.status.StartedStatus? ==> reply.status.attempt !in s.world.begun
    ensures Inv(BeginReply(s, s.generation, reply))
  {
    if Accepted(s, reply) && reply.status.StartedStatus? {
      StartedKeeps(s, reply.status.attempt);
    } else {
      var u := BeginReply(s, s.generation, reply);
      SettleKeeps(s, u.phase, u.doubt, u.pendingBegin, u.resolving);
      SameState(s.(phase := u.phase, doubt := u.doubt, pendingBegin := u.pendingBegin, resolving := u.resolving), u);
    }
  }

  lemma KeepaliveKeeps(s: State)
    requires Inv(s)
    ensures Inv(KeepaliveResolve(s))
  {
    if s.pendingBegin.Some? {
      var x := ResolveSent(s.pendingBegin.value, true);
      ResolveSentKeeps(s, x);
      IgnoredKeep(Log(s, x), s.intakeToken, None, s.resolving);
    }
  }

  /** An accepted start: the attempt is known and waits to be mounted. */
  lemma StartedKeeps(s: State, a: nat)
    requires Inv(s) && s.phase.Starting? && a !in s.world.begun && !s.hidden
    requires forall v <- s.world.waits :: v.token != s.generation
    requires OnlyBegun(s, None)
    ensures Inv(Await(Begin(s.(pendingBegin := None), a, Begun(s.generation, s.lastCaptureNs)), MountWait(s.generation, a)))
  {
    var mount := MountWait(s.generation, a);
    var t := Await(Begin(s.(pendingBegin := None), a, Begun(s.generation, s.lastCaptureNs)), mount);
    assert mount !in s.world.waits;
    assert Story(s, a);
    forall b
      ensures Story(t, b)
    {
      assert Story(s, b);
    }
    forall v <- t.world.waits
      ensures Placed(t, v)
    {
      if v != mount {
        assert v in s.world.waits && Placed(s, v);
      }
    }
  }

  // ----- Ending an attempt -----

  /** A live attempt, whatever its queue holds, is cancelled. */
  lemma PerformCancelKeeps(s: State, now: nat)
    requires Control(s) && Stories(s) && Live(s)
    ensures Inv(PerformCancel(s, s.generation, now))
  {
    PerformCancelStories(s, now);
    PerformCancelControl(s, now);
  }

  lemma PerformCancelStories(s: State, now: nat)
    requires Stories(s) && Phases(s) && Live(s)
    ensures Stories(PerformCancel(s, s.generation, now))
  {
    LogGrows(s, CancelSent(s.attempt.value, TerminalNs(s, now), ByAttempt));
    forall b
      ensures Story(PerformCancel(s, s.generation, now), b)
    {
      assert Story(s, b);
    }
  }

  lemma PerformCancelControl(s: State, now: nat)
    requires Control(s) && Live(s)
    ensures Control(PerformCancel(s, s.generation, now))
  {
    LogGrows(s, CancelSent(s.attempt.value, TerminalNs(s, now), ByAttempt));
    var t := PerformCancel(s, s.generation, now);
    forall v <- t.world.waits
      ensures Placed(t, v)
    {
      if v in s.world.waits {
        assert Placed(s, v);
      }
    }
  }

  /** A finish is submitted when nothing captured is left to send: first, or again by a retry. */
  lemma SubmitFinishKeeps(s: State, now: nat)
    requires s.attempt.Some? && s.phase.Finishing? && s.terminal.None?
    requires Control(s.(terminal := Some(FinishTerminal)))
    requires forall b | b != s.attempt.value :: Story(s, b)
    requires Story(s, s.attempt.value) || Story(s.(terminal := Some(FinishTerminal)), s.attempt.value)
    requires AppendWaits(s, s.attempt.value) == 0
    requires |Appends(s.world.sent, s.attempt.value)| == |Captures(s.world.captured, s.attempt.value)|
    requires s.acked == s.nextSequence == |Captures(s.world.captured, s.attempt.value)|
    ensures Inv(SubmitFinish(s, s.generation, now))
  {
    SubmitFinishStories(s, now);
    SubmitFinishControl(s, now);
  }

  lemma SubmitFinishStories(s: State, now: nat)
    requires s.attempt.Some? && s.phase.Finishing? && s.terminal.None? && s.attempt.value in s.world.begun
    requires s.world.begun[s.attempt.value].token == s.generation
    requires forall b | b != s.attempt.value :: Story(s, b)
    requires Story(s, s.attempt.value) || Story(s.(terminal := Some(FinishTerminal)), s.attempt.value)
    requires AppendWaits(s, s.attempt.value) == 0
    requires |Appends(s.world.sent, s.attempt.value)| == |Captures(s.world.captured, s.attempt.value)|
    requires s.acked == s.nextSequence == |Captures(s.world.captured, s.attempt.value)|
    ensures Stories(SubmitFinish(s, s.generation, now))
  {
    FinishedStory(s, now);
    var x := FinishSent(s.attempt.value, TerminalNs(s, now));
    forall b | b != s.attempt.value
      ensures Story(SubmitFinish(s, s.generation, now), b)
    {
      SentGrows(s.world.sent, x, b);
      assert Story(s, b);
    }
  }

  /** The finished attempt's own story. */
  lemma FinishedStory(s: State, now: nat)
    requires s.attempt.Some? && s.phase.Finishing? && s.terminal.None? && s.attempt.value in s.world.begun
    requires s.world.begun[s.attempt.value].token == s.generation
    requires Story(s, s.attempt.value) || Story(s.(terminal := Some(FinishTerminal)), s.attempt.value)
    requires AppendWaits(s, s.attempt.value) == 0
    requires |Appends(s.world.sent, s.attempt.value)| == |Captures(s.world.captured, s.attempt.value)|
    requires s.acked == s.nextSequence == |Captures(s.world.captured, s.attempt.value)|
    ensures Story(SubmitFinish(s, s.generation, now), s.attempt.value)
  {
    SentGrows(s.world.sent, FinishSent(s.attempt.value, TerminalNs(s, now)), s.attempt.value);
  }

  lemma SubmitFinishControl(s: State, now: nat)
    requires s.attempt.Some? && s.phase.Finishing? && s.terminal.None?
    requires Control(s.(terminal := Some(FinishTerminal)))
    ensures Control(SubmitFinish(s, s.generation, now))
  {
    LogGrows(s, FinishSent(s.attempt.value, TerminalNs(s, now)));
    var u, t := s.(terminal := Some(FinishTerminal)), SubmitFinish(s, s.generation, now);
    forall v <- t.world.waits
      ensures Placed(t, v)
    {
      if v in s.world.waits {
        assert Placed(u, v);
      }
    }
  }

  lemma FinishReplyKeeps(s: State, token: nat, a: nat, end: EndOutcome)
    requires Inv(s) && FinishWait(token, a) in s.world.waits
    ensures Inv(FinishReply(Forget(s, FinishWait(token, a)), token, end))
  {
    EndReplyKeeps(s, FinishWait(token, a));
    var t := Forget(s, FinishWait(token, a));
    if Alive(t, token) {
      var u := FinishReply(t, token, end);
      SettleKeeps(t, u.phase, u.doubt, u.pendingBegin, u.resolving);
    }
  }

  lemma CancelReplyKeeps(s: State, token: nat, a: nat, end: EndOutcome)
    requires Inv(s) && CancelWait(token, a) in s.world.waits
    ensures Inv(CancelReply(Forget(s, CancelWait(token, a)), token, end))
  {
    EndReplyKeeps(s, CancelWait(token, a));
    var t := Forget(s, CancelWait(token, a));
    if Alive(t, token) {
      var u := CancelReply(t, token, end);
      SettleKeeps(t, u.phase, u.doubt, u.pendingBegin, u.resolving);
    }
  }

  /** The reply to the current generation's finish or cancel finds no start outstanding. */
  lemma EndReplyKeeps(s: State, w: Wait)
    requires Inv(s) && w in s.world.waits && (w.FinishWait? || w.CancelWait?)
    ensures Inv(Forget(s, w))
    ensures w.token == s.generation ==> Clear(Forget(s, w)) && !Live(s)
    ensures w.token == s.generation ==> s.terminal == Some(if w.FinishWait? then FinishTerminal else CancelTerminal)
  {
    assert Placed(s, w);
    ForgetKeeps(s, w);
    if w.token == s.generation {
      forall v <- s.world.waits | v.token == s.generation
        ensures !v.BeginWait? && !v.MountWait?
      {
        assert Placed(s, v);
      }
    }
  }

  lemma RetryFinishKeeps(s: State, now: nat)
    requires Inv(s)
    ensures Inv(RetryFinish(s, now))
  {
    if s.phase.Unconfirmed? && s.doubt == Some(DoubtFinish) && s.attempt.Some? {
      var t := s.(terminal := None, phase := Finishing);
      var a := s.attempt.value;
      assert Story(s, a);
      forall b | b != a
        ensures Story(t, b)
      {
        assert Story(s, b);
      }
      assert Story(t.(terminal := Some(FinishTerminal)), a);
      forall v <- t.world.waits
        ensures Placed(t.(terminal := Some(FinishTerminal)), v)
      {
        assert Placed(s, v);
      }
      SubmitFinishKeeps(t, now);
    }
  }

  // ----- Capturing and pumping -----

  /** Adding to the queue and the capture history of a live attempt: all but the pump's promises. */
  lemma EnqueueKeeps(s: State, m: Message)
    requires Control(s) && Stories(s) && Live(s)
    requires m.attempt == s.attempt.value && m.sequence == |Captures(s.world.captured, m.attempt)|
    ensures var t := Enqueue(s, m);
      && Control(t) && Stories(t) && Live(t)
      && |Captures(t.world.captured, m.attempt)| == |Captures(s.world.captured, m.attempt)| + 1
      && AppendWaits(t, m.attempt) == AppendWaits(s, m.attempt)
  {
    var t := Enqueue(s, m);
    forall b
      ensures Story(t, b)
    {
      assert Story(s, b);
      CapturedGrows(s.world.captured, m, b);
    }
    CapturedGrows(s.world.captured, m, m.attempt);
    forall v <- t.world.waits
      ensures Placed(t, v)
    {
      assert Placed(s, v);
    }
  }

  /** The pump at the head of its loop, with no append of the live attempt in flight. */
  ghost predicate AtLoopHead(s: State) {
    && Control(s) && Stories(s) && Live(s) && !s.hidden && Pumping(s)
    && QueueHolds(s)
    && AppendWaits(s, s.attempt.value) == 0
    && |Appends(s.world.sent, s.attempt.value)| == s.acked
  }

  lemma DrainKeeps(s: State, now: nat)
    requires AtLoopHead(s)
    ensures Inv(Drain(s, s.generation, now))
  {
    if s.queue != [] {
      SendHeadKeeps(s);
    } else {
      var idle := Unpump(s, s.generation);
      PumpIgnored(s, None);
      if s.phase.Finishing? {
        assert Story(idle, s.attempt.value);
        NoEndOutstanding(idle);
        SubmitFinishKeeps(idle, now);
      }
    }
  }

  lemma PumpIgnored(s: State, pumping: Option<nat>)
    requires Control(s) && Stories(s) && (pumping.Some? ==> pumping.value <= s.generation)
    requires !s.phase.Starting? || pumping.None?
    ensures Control(s.(pumping := pumping)) && Stories(s.(pumping := pumping))
  {
    var t := s.(pumping := pumping);
    forall b
      ensures Story(t, b)
    {
      assert Story(s, b);
    }
    forall v <- t.world.waits
      ensures Placed(t, v)
    {
      assert Placed(s, v);
    }
  }

  /** While an attempt is live, no reply to an end of it is outstanding. */
  lemma NoEndOutstanding(s: State)
    requires Control(s) && Live(s) && s.phase.Finishing? && s.queue == []
    ensures Control(s.(terminal := Some(FinishTerminal)))
  {
    var t := s.(terminal := Some(FinishTerminal));
    forall v <- t.world.waits
      ensures Placed(t, v)
    {
      assert Placed(s, v);
    }
  }

  /** The head of the queue goes out. */
  function HeadSent(s: State): State
    requires s.queue != []
  {
    Post(s, AppendSent(s.queue[0]), AppendWait(s.generation, s.queue[0]))
  }

  lemma SendHeadKeeps(s: State)
    requires AtLoopHead(s) && s.queue != []
    ensures Inv(HeadSent(s))
  {
    SendHeadStories(s);
    SendHeadControl(s);
    SendHeadQueue(s);
  }

  lemma SendHeadStories(s: State)
    requires AtLoopHead(s) && s.queue != []
    ensures Stories(HeadSent(s))
  {
    HeadStory(s);
    forall b | b != s.attempt.value
      ensures Story(HeadSent(s), b)
    {
      assert Story(s, b);
      SentGrows(s.world.sent, AppendSent(s.queue[0]), b);
    }
  }

  /** The sending attempt's own story. */
  lemma HeadStory(s: State)
    requires AtLoopHead(s) && s.queue != []
    ensures Story(HeadSent(s), s.attempt.value)
  {
    assert Story(s, s.attempt.value);
    NoneInFlight(s, s.attempt.value);
    SentGrows(s.world.sent, AppendSent(s.queue[0]), s.attempt.value);
  }

  lemma SendHeadControl(s: State)
    requires AtLoopHead(s) && s.queue != []
    ensures Control(HeadSent(s))
  {
    LogGrows(s, AppendSent(s.queue[0]));
    assert Story(s, s.attempt.value);
    NoneInFlight(s, s.attempt.value);
    forall v <- HeadSent(s).world.waits
      ensures Placed(HeadSent(s), v)
    {
      if v in s.world.waits {
        assert Placed(s, v);
      }
    }
  }

  lemma SendHeadQueue(s: State)
    requires AtLoopHead(s) && s.queue != []
    ensures LiveQueue(HeadSent(s))
  {
    assert Story(s, s.attempt.value);
    NoneInFlight(s, s.attempt.value);
    SentGrows(s.world.sent, AppendSent(s.queue[0]), s.attempt.value);
  }

  lemma NoneInFlight(s: State, a: nat)
    requires Control(s) && a in s.world.begun && AppendWaits(s, a) == 0
    ensures forall v <- s.world.waits :: v.AppendWait? ==> v.item.attempt != a
  {
    forall v <- s.world.waits | v.AppendWait?
      ensures v.item.attempt != a
    {
      assert Placed(s, v);
    }
  }

  lemma CancelKeeps(s: State, now: nat)
    requires Inv(s)
    ensures Inv(Cancel(s, now))
  {
    if s.terminal.None? && (Streaming(s.phase) || s.phase.Starting?) {
      if s.attempt.None? {
        NextGenerationKeeps(s);
        IgnoredKeep(s.(generation := s.generation + 1, phase := Idle), s.intakeToken + 1, s.pendingBegin, s.resolving);
      } else {
        PerformCancelKeeps(s, now);
      }
    }
  }

  /** Moving on from a start that never became an attempt. */
  lemma NextGenerationKeeps(s: State)
    requires Inv(s) && s.attempt.None? && s.terminal.None? && s.doubt.None?
    ensures Inv(s.(generation := s.generation + 1, phase := Idle))
  {
    var t := s.(generation := s.generation + 1, phase := Idle);
    forall b
      ensures Story(t, b)
    {
      assert Story(s, b);
    }
    forall v <- t.world.waits
      ensures Placed(t, v)
    {
      assert Placed(s, v);
    }
  }

  /** The new message waits behind the one in flight. */
  lemma QueuedBehind(s: State, m: Message)
    requires Inv(s) && Live(s) && Pumping(s) && |s.queue| < QUEUE_LIMIT
    requires m.attempt == s.attempt.value && m.sequence == s.nextSequence
    ensures LiveQueue(Enqueue(s, m))
  {
    CapturedGrows(s.world.captured, m, m.attempt);
  }

  /** The new message is the whole queue, and the pump starts with it. */
  lemma AtHead(s: State, m: Message)
    requires Inv(s) && Live(s) && !s.hidden && !Pumping(s) && s.attempt.value in s.world.begun
    requires m.attempt == s.attempt.value && m.sequence == s.nextSequence
    ensures AtLoopHead(Enqueue(s, m).(pumping := Some(s.generation)))
  {
    assert Story(s, s.attempt.value);
    EnqueueKeeps(s, m);
    CapturedGrows(s.world.captured, m, m.attempt);
    PumpIgnored(Enqueue(s, m), Some(s.generation));
  }

  lemma MidiKeeps(s: State, mine: nat, token: nat, usable: bool, captureNs: nat, positionSeconds: real,
                  payload: seq<int>, now: nat)
    requires Inv(s)
    ensures Inv(OnMidi(s, mine, token, usable, captureNs, positionSeconds, payload, now))
  {
    if mine != s.intakeToken || !Alive(s, token) || !s.phase.Capturing? || s.attempt.None? || !usable {
    } else if |s.queue| >= QUEUE_LIMIT {
      CancelKeeps(s, now);
    } else {
      var a := s.attempt.value;
      var m := Message(a, s.nextSequence, captureNs, positionSeconds, payload);
      assert Story(s, a);
      EnqueueKeeps(s, m);
      if Pumping(s) {
        QueuedBehind(s, m);
      } else {
        AtHead(s, m);
        DrainKeeps(Enqueue(s, m).(pumping := Some(token)), now);
      }
    }
  }

  /** No more intake: the pump drains what is queued. */
  function Draining(s: State): State { s.(intakeToken := s.intakeToken + 1, phase := Finishing) }

  lemma DrainingKeeps(s: State)
    requires Inv(s) && s.phase.Capturing? && s.terminal.None?
    ensures Control(Draining(s)) && Stories(Draining(s))
  {
    forall b
      ensures Story(Draining(s), b)
    {
      assert Story(s, b);
    }
    forall v <- s.world.waits
      ensures Placed(Draining(s), v)
    {
      assert Placed(s, v);
    }
  }

  lemma FinishKeeps(s: State, now: nat)
    requires Inv(s)
    ensures Inv(Finish(s, now))
  {
    if s.phase.Capturing? && s.terminal.None? {
      DrainingKeeps(s);
      assert Story(s, s.attempt.value);
      if !Pumping(s) {
        PumpIgnored(Draining(s), Some(s.generation));
        DrainKeeps(Draining(s).(pumping := Some(s.generation)), now);
      }
    }
  }

  lemma ForgetAppendKeeps(s: State, token: nat, item: Message)
    requires Inv(s) && AppendWait(token, item) in s.world.waits
    ensures var t := Forget(s, AppendWait(token, item)); Control(t) && Stories(t)
    ensures item.attempt in s.world.begun && AppendWaits(Forget(s, AppendWait(token, item)), item.attempt) == 0
    ensures !(Live(s) && s.attempt == Some(item.attempt)) ==> LiveQueue(Forget(s, AppendWait(token, item)))
    ensures s.attempt == Some(item.attempt) ==> s.terminal != Some(FinishTerminal) && token == s.generation
    ensures Live(s) && s.attempt == Some(item.attempt) ==> Pumping(s) && s.queue[0] == item
  {
    var w := AppendWait(token, item);
    var t := Forget(s, w);
    var a := item.attempt;
    assert Placed(s, w);
    assert Story(s, a);
    assert AppendWaits(s, a) == s.world.waits[w];
    forall b
      ensures Story(t, b)
    {
      assert Story(s, b);
    }
    forall v <- t.world.waits
      ensures Placed(t, v)
    {
      assert Placed(s, v);
    }
  }

  lemma AppendReplyKeeps(s: State, token: nat, item: Message, outcome: AppendOutcome, now: nat)
    requires Inv(s) && AppendWait(token, item) in s.world.waits
    ensures Inv(AppendReply(Forget(s, AppendWait(token, item)), token, item, outcome, now))
  {
    var t := Forget(s, AppendWait(token, item));
    ForgetAppendKeeps(s, token, item);
    if !Alive(t, token) || t.attempt != Some(item.attempt) || !Streaming(t.phase) {
      PumpIgnored(t, None);
    } else {
      NoTerminal(t);
      LiveAppendKeeps(s, token, item, outcome, now);
    }
  }

  lemma LiveAppendKeeps(s: State, token: nat, item: Message, outcome: AppendOutcome, now: nat)
    requires Inv(s) && AppendWait(token, item) in s.world.waits
    requires Live(s) && Alive(s, token) && s.attempt == Some(item.attempt)
    ensures Inv(AppendReply(Forget(s, AppendWait(token, item)), token, item, outcome, now))
  {
    var t := Forget(s, AppendWait(token, item));
    LiveAppendIs(t, item, outcome, now);
    if outcome == Acknowledged(t.acked + 1) {
      AcknowledgedKeeps(s, token, item);
      DrainKeeps(Advanced(s, token, item), now);
      SameState(Drain(Advance(t), token, now), AppendReply(t, token, item, outcome, now));
    } else {
      ForgetAppendKeeps(s, token, item);
      RefusedKeeps(t, now);
      SameState(PerformCancel(Unpump(t.(queue := []), token), token, now), AppendReply(t, token, item, outcome, now));
    }
  }

  lemma LiveAppendIs(s: State, item: Message, outcome: AppendOutcome, now: nat)
    requires Live(s) && !s.hidden && s.attempt == Some(item.attempt)
    ensures AppendReply(s, s.generation, item, outcome, now)
      == if outcome == Acknowledged(s.acked + 1) then Drain(Advance(s), s.generation, now)
         else PerformCancel(Unpump(s.(queue := []), s.generation), s.generation, now)
  {
  }

  lemma RefusedKeeps(s: State, now: nat)
    requires Control(s) && Stories(s) && Live(s)
    ensures Inv(PerformCancel(Unpump(s.(queue := []), s.generation), s.generation, now))
  {
    QueueIgnored(s, [], s.acked);
    PumpIgnored(s.(queue := []), None);
    PerformCancelKeeps(Unpump(s.(queue := []), s.generation), now);
  }

  function Advanced(s: State, token: nat, item: Message): State { Advance(Forget(s, AppendWait(token, item))) }

  /** The acknowledged head leaves the queue; the pump is back at the head of its loop. */
  lemma AcknowledgedKeeps(s: State, token: nat, item: Message)
    requires Inv(s) && AppendWait(token, item) in s.world.waits && Live(s) && Alive(s, token)
    requires s.attempt == Some(item.attempt)
    ensures AtLoopHead(Advanced(s, token, item))
  {
    var t := Forget(s, AppendWait(token, item));
    ForgetAppendKeeps(s, token, item);
    assert Story(s, item.attempt);
    assert AppendWaits(s, item.attempt) == 1;
    QueueIgnored(t, t.queue[1..], t.acked + 1);
    assert QueueHolds(s);
  }

  lemma NoTerminal(s: State)
    requires Phases(s) && Streaming(s.phase) && s.terminal != Some(FinishTerminal)
    ensures s.terminal.None?
  {
    match s.terminal
    case None =>
    case Some(kind) =>
      match kind
      case FinishTerminal => 
      case CancelTerminal =>
  }

  lemma QueueIgnored(s: State, queue: seq<Message>, acked: nat)
    requires Control(s) && Stories(s) && !s.phase.Starting? && s.terminal != Some(FinishTerminal)
    requires queue == [] || Live(s)
    ensures Control(s.(queue := queue, acked := acked)) && Stories(s.(queue := queue, acked := acked))
  {
    var t := s.(queue := queue, acked := acked);
    forall b
      ensures Story(t, b)
    {
      assert Story(s, b);
    }
    forall v <- t.world.waits
      ensures Placed(t, v)
    {
      assert Placed(s, v);
    }
  }

  // ----- Mounting, recovery and leaving -----

  /** A live mount reply, by way of the attempt it makes live. */
  lemma MountReplyLive(s: State, a: nat, mounted: bool, connected: bool, now: nat)
    requires !s.hidden && s.terminal.None?
    ensures Live(NowLive(s, a))
    ensures var u := NowLive(s, a);
      MountReply(Forget(s, MountWait(s.generation, a)), s.generation, a, mounted, connected, now)
        == if !mounted then PerformCancel(u, s.generation, now)
           else if connected then u.(intakeToken := u.intakeToken + 1)
           else Cancel(u.(intakeToken := u.intakeToken + 1), now)
  {
  }

  lemma AwaitingMount(s: State, a: nat)
    requires Inv(s) && MountWait(s.generation, a) in s.world.waits
    ensures s.terminal.None?
  {
    assert Placed(s, MountWait(s.generation, a));
  }

  lemma MountReplyKeeps(s: State, token: nat, a: nat, mounted: bool, connected: bool, now: nat)
    requires Inv(s) && MountWait(token, a) in s.world.waits
    ensures Inv(MountReply(Forget(s, MountWait(token, a)), token, a, mounted, connected, now))
  {
    if !Alive(s, token) {
      UnmountedKeeps(s, token, a, now);
    } else {
      MountedReplyKeeps(s, a, mounted, connected, now);
    }
  }

  lemma MountedReplyKeeps(s: State, a: nat, mounted: bool, connected: bool, now: nat)
    requires Inv(s) && !s.hidden && MountWait(s.generation, a) in s.world.waits
    ensures Inv(MountReply(Forget(s, MountWait(s.generation, a)), s.generation, a, mounted, connected, now))
  {
    AwaitingMount(s, a);
    MountReplyLive(s, a, mounted, connected, now);
    MountedKeeps(s, a);
    var u := NowLive(s, a);
    LiveMountKeeps(u, mounted, connected, now);
    SameState(
      if !mounted then PerformCancel(u, u.generation, now)
      else if connected then u.(intakeToken := u.intakeToken + 1)
      else Cancel(u.(intakeToken := u.intakeToken + 1), now),
      MountReply(Forget(s, MountWait(s.generation, a)), s.generation, a, mounted, connected, now));
  }

  lemma SameState(s: State, t: State)
    requires Inv(s) && s == t
    ensures Inv(t)
  {
  }

  lemma LiveMountKeeps(u: State, mounted: bool, connected: bool, now: nat)
    requires Inv(u) && Live(u)
    ensures Inv(
      if !mounted then PerformCancel(u, u.generation, now)
      else if connected then u.(intakeToken := u.intakeToken + 1)
      else Cancel(u.(intakeToken := u.intakeToken + 1), now))
  {
    if mounted {
      ConnectedKeeps(u, connected, now);
    } else {
      PerformCancelKeeps(u, now);
    }
  }

  lemma ConnectedKeeps(s: State, connected: bool, now: nat)
    requires Inv(s) && Live(s)
    ensures var t := s.(intakeToken := s.intakeToken + 1); Inv(if connected then t else Cancel(t, now))
  {
    IgnoredKeep(s, s.intakeToken + 1, s.pendingBegin, s.resolving);
    if !connected {
      CancelKeeps(s.(intakeToken := s.intakeToken + 1), now);
    }
  }

  /** A late mount only tells the server to drop the attempt. */
  function Dropped(s: State, token: nat, a: nat, now: nat): State {
    Log(Forget(s, MountWait(token, a)), CancelSent(a, now, ByUnmounted))
  }

  lemma UnmountedKeeps(s: State, token: nat, a: nat, now: nat)
    requires Inv(s) && MountWait(token, a) in s.world.waits
    ensures Inv(Dropped(s, token, a, now))
  {
    UnmountedStories(s, token, a, now);
    UnmountedControl(s, token, a, now);
  }

  lemma UnmountedStories(s: State, token: nat, a: nat, now: nat)
    requires Inv(s) && MountWait(token, a) in s.world.waits
    ensures Stories(Dropped(s, token, a, now)) && LiveQueue(Dropped(s, token, a, now))
  {
    LogGrows(s, CancelSent(a, now, ByUnmounted));
    assert Placed(s, MountWait(token, a));
    forall b
      ensures Story(Dropped(s, token, a, now), b)
    {
      assert Story(s, b);
      assert Grown(s.world.sent, CancelSent(a, now, ByUnmounted), b);
    }
  }

  lemma UnmountedControl(s: State, token: nat, a: nat, now: nat)
    requires Control(s)
    ensures Control(Dropped(s, token, a, now))
  {
    LogGrows(s, CancelSent(a, now, ByUnmounted));
    var t := Dropped(s, token, a, now);
    forall v <- t.world.waits
      ensures Placed(t, v)
    {
      assert Placed(s, v);
    }
  }

  /** The mounted attempt becomes the live one, with an empty queue. */
  function NowLive(s: State, a: nat): State {
    Forget(s, MountWait(s.generation, a)).(attempt := Some(a), phase := Capturing)
  }

  lemma MountedKeeps(s: State, a: nat)
    requires Inv(s) && !s.hidden && MountWait(s.generation, a) in s.world.waits
    ensures Inv(NowLive(s, a))
  {
    MountedStories(s, a);
    MountedControl(s, a);
  }

  lemma MountedStories(s: State, a: nat)
    requires Inv(s) && !s.hidden && MountWait(s.generation, a) in s.world.waits
    ensures Stories(NowLive(s, a)) && LiveQueue(NowLive(s, a))
  {
    assert Placed(s, MountWait(s.generation, a));
    forall b
      ensures Story(NowLive(s, a), b)
    {
      assert Story(s, b);
    }
    assert Story(s, a);
  }

  lemma MountedControl(s: State, a: nat)
    requires Inv(s) && !s.hidden && MountWait(s.generation, a) in s.world.waits
    ensures Control(NowLive(s, a))
  {
    var t := NowLive(s, a);
    assert Placed(s, MountWait(s.generation, a));
    assert Story(s, a);
    assert Phases(t) && Outcomes(t);
    forall v <- t.world.waits
      ensures Placed(t, v)
    {
      assert Placed(s, v);
    }
  }

  lemma ResolveBeginKeeps(s: State)
    requires Inv(s)
    ensures Inv(ResolveBegin(s))
  {
    if s.pendingBegin.Some? && !s.resolving && s.doubt == Some(DoubtBegin) {
      var w := ResolveWait(s.generation, s.pendingBegin.value);
      var x := ResolveSent(s.pendingBegin.value, false);
      ResolveSentKeeps(s, x);
      var u := Log(s, x);
      IgnoredKeep(u, s.intakeToken, s.pendingBegin, true);
      var v := u.(resolving := true);
      var t := ResolveBegin(s);
      forall b
        ensures Story(t, b)
      {
        assert Story(v, b);
      }
      forall o <- t.world.waits
        ensures Placed(t, o)
      {
        if o != w {
          assert o in v.world.waits && Placed(v, o);
        }
      }
    }
  }

  lemma ResolveReplyKeeps(s: State, token: nat, key: nat, reply: GatewayReply)
    requires Inv(s) && ResolveWait(token, key) in s.world.waits
    ensures Inv(ResolveReply(Forget(s, ResolveWait(token, key)), token, key, reply))
  {
    var w := ResolveWait(token, key);
    ForgetKeeps(s, w);
    var t := Forget(s, w);
    if Alive(t, token) && t.pendingBegin == Some(key) {
      RecoveryClear(s, w);
      RecoveredKeeps(t, key, reply);
    } else {
      IgnoredKeep(t, t.intakeToken, t.pendingBegin, false);
    }
  }

  lemma RecoveredKeeps(s: State, key: nat, reply: GatewayReply)
    requires Inv(s) && Clear(s) && s.attempt.None? && !s.hidden && s.pendingBegin == Some(key)
    ensures Inv(ResolveReply(s, s.generation, key, reply))
  {
    var u := ResolveReply(s, s.generation, key, reply);
    SettleKeeps(s, u.phase, u.doubt, u.pendingBegin, false);
    SameState(s.(phase := u.phase, doubt := u.doubt, pendingBegin := u.pendingBegin, resolving := false), u);
  }

  lemma RecoveryClear(s: State, w: Wait)
    requires Inv(s) && w in s.world.waits && w.ResolveWait? && w.token == s.generation
    ensures Clear(Forget(s, w)) && s.attempt.None?
  {
    assert Placed(s, w);
    forall v <- s.world.waits | v.token == s.generation
      ensures !v.BeginWait? && !v.MountWait?
    {
      assert Placed(s, v);
    }
  }

  /** Leaving tells the server about what it abandons, and then forgets it. */
  lemma AbandonKeeps(s: State, now: nat)
    requires Inv(s)
    ensures Inv(Abandon(s, now))
  {
    if s.pendingBegin.Some? && s.attempt.None? {
      KeepaliveKeeps(s);
      LeaveKeeps(KeepaliveResolve(s));
    } else if s.attempt.Some? && Active(s.phase) {
      AbandonCancelKeeps(s, now);
    } else {
      LeaveKeeps(s);
    }
  }

  lemma LeaveKeeps(s: State)
    requires Inv(s) && !(s.attempt.Some? && Active(s.phase))
    ensures Inv(Left(s))
  {
    var t := Left(s);
    forall b
      ensures Story(t, b)
    {
      assert Story(s, b);
    }
    forall v <- t.world.waits
      ensures Placed(t, v)
    {
      assert Placed(s, v);
    }
  }

  lemma AbandonCancelKeeps(s: State, now: nat)
    requires Inv(s) && s.attempt.Some? && Active(s.phase)
    ensures Inv(Left(Log(s, CancelSent(s.attempt.value, TerminalNs(s, now), ByAbandon))))
  {
    var x := CancelSent(s.attempt.value, TerminalNs(s, now), ByAbandon);
    var t := Left(Log(s, x));
    LogGrows(s, x);
    forall b
      ensures Story(t, b)
    {
      assert Story(s, b);
      assert Grown(s.world.sent, x, b);
    }
    forall v <- t.world.waits
      ensures Placed(t, v)
    {
      assert Placed(s, v);
      if v.AppendWait? {
        assert Grown(s.world.sent, x, v.item.attempt);
      }
    }
  }

  lemma HideKeeps(s: State, now: nat)
    requires Inv(s)
    ensures Inv(PageHide(s, now))
  {
    AbandonKeeps(s, now);
    VisibilityKeeps(Abandon(s, now), true);
  }

  lemma VisibilityKeeps(s: State, hidden: bool)
    requires Inv(s) && (hidden ==> s.phase.Idle? && s.attempt.None?)
    ensures Inv(s.(hidden := hidden))
  {
    var t := s.(hidden := hidden);
    forall b
      ensures Story(t, b)
    {
      assert Story(s, b);
    }
    forall v <- t.world.waits
      ensures Placed(t, v)
    {
      assert Placed(s, v);
    }
  }

  lemma StepKeeps(s: State, e: Event)
    requires Inv(s) && Enabled(s, e)
    ensures Inv(Step(s, e))
  {
    if WaitOf(e).Some? {
      ReplyKeeps(s, e);
    } else {
      PageKeeps(s, e);
    }
  }

  lemma ReplyKeeps(s: State, e: Event)
    requires Inv(s) && Enabled(s, e) && WaitOf(e).Some?
    ensures Inv(Step(s, e))
  {
    match e
    case BeginReplyEvent(token, key, reply) => BeginReplyKeeps(s, token, key, reply);
    case MountReplyEvent(token, a, mounted, connected, now) => MountReplyKeeps(s, token, a, mounted, connected, now);
    case AppendReplyEvent(token, item, outcome, now) => AppendReplyKeeps(s, token, item, outcome, now);
    case FinishReplyEvent(token, a, end) => FinishReplyKeeps(s, token, a, end);
    case CancelReplyEvent(token, a, end) => CancelReplyKeeps(s, token, a, end);
    case ResolveReplyEvent(token, key, reply) => ResolveReplyKeeps(s, token, key, reply);
  }

  lemma PageKeeps(s: State, e: Event)
    requires Inv(s) && WaitOf(e).None?
    ensures Inv(Step(s, e))
  {
    match e
    case StartEvent(ready, minted, now) => StartKeeps(s, ready, minted, now);
    case ResolveBeginEvent => ResolveBeginKeeps(s);
    case AbandonEvent(now) => AbandonKeeps(s, now);
    case HideEvent(now) => HideKeeps(s, now);
    case ShowEvent => VisibilityKeeps(s, false);
    case _ => CaptureKeeps(s, e);
  }

  lemma CaptureKeeps(s: State, e: Event)
    requires Inv(s)
    requires e.MidiEvent? || e.FinishEvent? || e.RetryFinishEvent? || e.CancelEvent? || e.DisconnectEvent?
    ensures Inv(Step(s, e))
  {
    match e
    case MidiEvent(mine, token, usable, ns, position, payload, now) =>
      MidiKeeps(s, mine, token, usable, ns, position, payload, now);
    case FinishEvent(now) => FinishKeeps(s, now);
    case RetryFinishEvent(now) => RetryFinishKeeps(s, now);
    case CancelEvent(now) => CancelKeeps(s, now);
    case DisconnectEvent(mine, token, now) => CancelKeeps(s, now);
  }

  lemma {:induction false} RunKeeps(events: seq<Event>)
    requires Possible(events)
    ensures Inv(Run(events))
  {
    if events == [] {
      InitialInv();
    } else {
      RunKeeps(events[..|events| - 1]);
      StepKeeps(Run(events[..|events| - 1]), events[|events| - 1]);
    }
  }
}
