/** From which states the learner can start again without leaving the page. */
module AttemptLiveness {
  import opened Prelude
  import opened AttemptModel
  import opened AttemptInvariant
  import opened AttemptPreservation
  import opened AttemptLaws

  // ----- Whatever is waited for will be answered -----

  /** Every field that holds the page back has its reply outstanding, or a way for the learner to ask. */
  ghost predicate Awaited(s: State) {
    && (s.pendingBegin.Some? ==>
          s.attempt.None? && (s.doubt == Some(DoubtBegin) || BeginWait(s.pendingBegin.value, s.pendingBegin.value) in s.world.waits))
    && (s.resolving ==> exists w <- s.world.waits :: w.ResolveWait?)
    && (s.phase.Cancelling? ==> s.attempt.Some? && CancelWait(s.generation, s.attempt.value) in s.world.waits)
    && (s.phase.Finishing? && s.terminal.Some? ==>
          s.attempt.Some? && FinishWait(s.generation, s.attempt.value) in s.world.waits)
    && (s.doubt.Some? ==> s.phase.Unconfirmed? || (s.phase.Finishing? && s.terminal.Some?))
    && NoMountPending(s)
  }

  /** An attempt being mounted is no longer a pending start. */
  ghost predicate NoMountPending(s: State) {
    forall w <- s.world.waits | w.MountWait? && w.token == s.generation :: s.pendingBegin.None?
  }

  lemma TokensPast(s: State)
    requires Control(s)
    ensures forall w <- s.world.waits :: w.token <= s.generation
  {
    forall w <- s.world.waits
      ensures w.token <= s.generation
    {
      assert Placed(s, w);
    }
  }

  /** Replies that nothing here waits for. */
  lemma ForgetAwaited(s: State, w: Wait)
    requires Awaited(s) && (w.AppendWait? || w.MountWait?)
    ensures Awaited(Forget(s, w))
  {
    var t := Forget(s, w);
    assert forall v <- s.world.waits | v != w :: v in t.world.waits;
    assert forall v <- t.world.waits :: v in s.world.waits;
  }

  /** Fields nothing here reads. */
  lemma FrameAwaited(s: State, t: State)
    requires Awaited(s) && t.world.waits == s.world.waits && t.phase == s.phase && t.generation == s.generation
    requires t.attempt == s.attempt && t.terminal == s.terminal && t.doubt == s.doubt
    requires t.pendingBegin == s.pendingBegin && t.resolving == s.resolving
    ensures Awaited(t)
  {
  }

  lemma PerformCancelAwaited(s: State, now: nat)
    requires Awaited(s) && Live(s)
    ensures Awaited(PerformCancel(s, s.generation, now))
  {
    var t := PerformCancel(s, s.generation, now);
    assert forall w <- s.world.waits :: w in t.world.waits;
  }

  lemma SubmitFinishAwaited(s: State, now: nat)
    requires Awaited(s) && Live(s) && s.phase.Finishing?
    ensures Awaited(SubmitFinish(s, s.generation, now))
  {
    var t := SubmitFinish(s, s.generation, now);
    assert forall w <- s.world.waits :: w in t.world.waits;
  }

  lemma DrainAwaited(s: State, now: nat)
    requires Awaited(s) && (Streaming(s.phase) ==> s.attempt.Some?)
    ensures Awaited(Drain(s, s.generation, now))
  {
    if s.queue != [] && Alive(s, s.generation) && Streaming(s.phase) {
      var t := Post(s, AppendSent(s.queue[0]), AppendWait(s.generation, s.queue[0]));
      assert forall w <- s.world.waits :: w in t.world.waits;
    } else {
      var idle := Unpump(s, s.generation);
      FrameAwaited(s, idle);
      if !s.hidden && s.phase.Finishing? && s.queue == [] && s.terminal.None? {
        SubmitFinishAwaited(idle, now);
      }
    }
  }

  lemma ReplyAwaited(s: State, e: Event)
    requires Inv(s) && Awaited(s) && Enabled(s, e) && WaitOf(e).Some?
    ensures Awaited(Step(s, e))
  {
    match e
    case BeginReplyEvent(token, key, reply) => BeginReplyAwaited(s, token, key, reply);
    case MountReplyEvent(token, a, mounted, connected, now) => MountReplyAwaited(s, token, a, mounted, connected, now);
    case AppendReplyEvent(token, item, outcome, now) => AppendReplyAwaited(s, token, item, outcome, now);
    case FinishReplyEvent(token, a, end) => FinishReplyAwaited(s, token, a, end);
    case CancelReplyEvent(token, a, end) => CancelReplyAwaited(s, token, a, end);
    case ResolveReplyEvent(token, key, reply) => ResolveReplyAwaited(s, token, key, reply);
  }

  lemma BeginReplyAwaited(s: State, token: nat, key: nat, reply: GatewayReply)
    requires Control(s) && Awaited(s) && BeginWait(token, key) in s.world.waits
    ensures Awaited(BeginReply(Forget(s, BeginWait(token, key)), token, reply))
  {
    var t := Forget(s, BeginWait(token, key));
    assert forall v <- s.world.waits | !v.BeginWait? :: v in t.world.waits;
    assert forall v <- t.world.waits :: v in s.world.waits;
    if Alive(t, token) {
      assert Placed(s, BeginWait(token, key));
      LiveBeginAwaited(t, reply);
    } else {
      LateBeginAwaited(t);
    }
  }

  /** All but the pending start, which this reply decides. */
  ghost predicate AwaitedBut(s: State) {
    && (s.pendingBegin.Some? ==> s.attempt.None?)
    && Awaited(s.(pendingBegin := None))
  }

  lemma LateBeginAwaited(s: State)
    requires AwaitedBut(s)
    ensures Awaited(KeepaliveResolve(s))
  {
    FrameAwaited(s.(pendingBegin := None), KeepaliveResolve(s));
  }

  lemma LiveBeginAwaited(s: State, reply: GatewayReply)
    requires AwaitedBut(s) && s.phase.Starting? && s.attempt.None?
    requires forall w <- s.world.waits :: w.MountWait? ==> w.token != s.generation
    ensures Awaited(BeginReply(s, s.generation, reply))
  {
    var t := BeginReply(s, s.generation, reply);
    assert forall w <- s.world.waits :: w in t.world.waits;
  }

  lemma MountReplyAwaited(s: State, token: nat, a: nat, mounted: bool, connected: bool, now: nat)
    requires Inv(s) && Awaited(s) && MountWait(token, a) in s.world.waits
    ensures Awaited(MountReply(Forget(s, MountWait(token, a)), token, a, mounted, connected, now))
  {
    ForgetAwaited(s, MountWait(token, a));
    if Alive(s, token) {
      AwaitingMount(s, a);
      assert Placed(s, MountWait(token, a));
      LiveAwaited(Forget(s, MountWait(token, a)), NowLive(s, a));
      LiveMountAwaited(s, a, mounted, connected, now);
    } else {
      var t := Forget(s, MountWait(token, a));
      FrameAwaited(t, Log(t, CancelSent(a, now, ByUnmounted)));
    }
  }

  lemma LiveMountAwaited(s: State, a: nat, mounted: bool, connected: bool, now: nat)
    requires !s.hidden && s.terminal.None? && Awaited(NowLive(s, a))
    ensures Awaited(MountReply(Forget(s, MountWait(s.generation, a)), s.generation, a, mounted, connected, now))
  {
    MountReplyLive(s, a, mounted, connected, now);
    var u := NowLive(s, a);
    var v := u.(intakeToken := u.intakeToken + 1);
    FrameAwaited(u, v);
    PerformCancelAwaited(u, now);
    PerformCancelAwaited(v, now);
    FrameAwaited(
      if !mounted then PerformCancel(u, s.generation, now) else if connected then v else PerformCancel(v, s.generation, now),
      MountReply(Forget(s, MountWait(s.generation, a)), s.generation, a, mounted, connected, now));
  }

  lemma LiveAwaited(s: State, u: State)
    requires Awaited(s) && s.phase.Starting? && s.doubt.None? && s.pendingBegin.None?
    requires u == s.(attempt := u.attempt, phase := Capturing)
    ensures Awaited(u)
  {
  }

  lemma AppendReplyAwaited(s: State, token: nat, item: Message, outcome: AppendOutcome, now: nat)
    requires Inv(s) && Awaited(s) && AppendWait(token, item) in s.world.waits
    ensures Awaited(AppendReply(Forget(s, AppendWait(token, item)), token, item, outcome, now))
  {
    var t := Forget(s, AppendWait(token, item));
    ForgetAwaited(s, AppendWait(token, item));
    ForgetAppendKeeps(s, token, item);
    if !Alive(t, token) || t.attempt != Some(item.attempt) || !Streaming(t.phase) {
      FrameAwaited(t, Unpump(t, token));
    } else {
      NoTerminal(t);
      LiveAppendAwaited(t, item, outcome, now);
    }
  }

  lemma LiveAppendAwaited(s: State, item: Message, outcome: AppendOutcome, now: nat)
    requires Awaited(s) && Live(s) && !s.hidden && s.attempt == Some(item.attempt)
    ensures Awaited(AppendReply(s, s.generation, item, outcome, now))
  {
    LiveAppendIs(s, item, outcome, now);
    if outcome == Acknowledged(s.acked + 1) {
      AcknowledgedAwaited(s, now);
      FrameAwaited(Drain(Advance(s), s.generation, now), AppendReply(s, s.generation, item, outcome, now));
    } else {
      RefusedAwaited(s, now);
      FrameAwaited(PerformCancel(Unpump(s.(queue := []), s.generation), s.generation, now),
                   AppendReply(s, s.generation, item, outcome, now));
    }
  }

  lemma AcknowledgedAwaited(s: State, now: nat)
    requires Awaited(s) && Live(s)
    ensures Awaited(Drain(Advance(s), s.generation, now))
  {
    FrameAwaited(s, Advance(s));
    DrainAwaited(Advance(s), now);
  }

  lemma RefusedAwaited(s: State, now: nat)
    requires Awaited(s) && Live(s)
    ensures Awaited(PerformCancel(Unpump(s.(queue := []), s.generation), s.generation, now))
  {
    var u := Unpump(s.(queue := []), s.generation);
    FrameAwaited(s, u);
    PerformCancelAwaited(u, now);
  }

  /** An end that is not of the current generation was not waited for. */
  lemma LateEndAwaited(s: State, w: Wait)
    requires Awaited(s) && (w.FinishWait? || w.CancelWait?) && w.token != s.generation
    ensures Awaited(Forget(s, w))
  {
    var t := Forget(s, w);
    assert forall v <- s.world.waits | v != w :: v in t.world.waits;
    assert forall v <- t.world.waits :: v in s.world.waits;
  }

  lemma SettledEndAwaited(s: State, w: Wait, t: State)
    requires Awaited(s) && (w.FinishWait? || w.CancelWait?)
    requires t == Forget(s, w).(phase := t.phase, doubt := t.doubt) && !Active(t.phase) && (t.doubt.Some? ==> t.phase.Unconfirmed?)
    requires s.attempt.Some?
    ensures Awaited(t)
  {
    assert forall v <- s.world.waits | v != w :: v in t.world.waits;
    assert forall v <- t.world.waits :: v in s.world.waits;
  }

  lemma FinishReplyAwaited(s: State, token: nat, a: nat, end: EndOutcome)
    requires Control(s) && Awaited(s) && FinishWait(token, a) in s.world.waits
    ensures Awaited(FinishReply(Forget(s, FinishWait(token, a)), token, end))
  {
    assert Placed(s, FinishWait(token, a));
    if token == s.generation {
      SettledEndAwaited(s, FinishWait(token, a), FinishReply(Forget(s, FinishWait(token, a)), token, end));
    } else {
      LateEndAwaited(s, FinishWait(token, a));
    }
  }

  lemma CancelReplyAwaited(s: State, token: nat, a: nat, end: EndOutcome)
    requires Control(s) && Awaited(s) && CancelWait(token, a) in s.world.waits
    ensures Awaited(CancelReply(Forget(s, CancelWait(token, a)), token, end))
  {
    assert Placed(s, CancelWait(token, a));
    if token == s.generation {
      SettledEndAwaited(s, CancelWait(token, a), CancelReply(Forget(s, CancelWait(token, a)), token, end));
    } else {
      LateEndAwaited(s, CancelWait(token, a));
    }
  }

  lemma ResolveReplyAwaited(s: State, token: nat, key: nat, reply: GatewayReply)
    requires Control(s) && Awaited(s) && ResolveWait(token, key) in s.world.waits
    ensures Awaited(ResolveReply(Forget(s, ResolveWait(token, key)), token, key, reply))
  {
    assert Placed(s, ResolveWait(token, key));
    ForgetResolve(s, ResolveWait(token, key));
    var t := Forget(s, ResolveWait(token, key)).(resolving := false);
    if Alive(t, token) && t.pendingBegin == Some(key) {
      ResolvedAwaited(t, ResolveReply(Forget(s, ResolveWait(token, key)), token, key, reply));
    }
  }

  lemma ForgetResolve(s: State, w: Wait)
    requires Awaited(s) && w.ResolveWait?
    ensures Awaited(Forget(s, w).(resolving := false))
  {
    var t := Forget(s, w);
    assert forall v <- s.world.waits | v != w :: v in t.world.waits;
    assert forall v <- t.world.waits :: v in s.world.waits;
  }

  /** The recovery settles where no attempt is open. */
  lemma ResolvedAwaited(s: State, t: State)
    requires Awaited(s) && s.attempt.None?
    requires t == s.(phase := t.phase, doubt := t.doubt, pendingBegin := t.pendingBegin) && !Active(t.phase)
    requires t.doubt.Some? ==> t.phase.Unconfirmed?
    requires t.pendingBegin.None? || (t.pendingBegin == s.pendingBegin && t.doubt == Some(DoubtBegin))
    ensures Awaited(t)
  {
  }

  lemma PageAwaited(s: State, e: Event)
    requires Inv(s) && Awaited(s) && WaitOf(e).None?
    ensures Awaited(Step(s, e))
  {
    TokensPast(s);
    match e
    case StartEvent(ready, minted, now) => StartAwaited(s, ready, minted, now);
    case ResolveBeginEvent => ResolveBeginAwaited(s);
    case AbandonEvent(now) => AbandonAwaited(s, now);
    case HideEvent(now) => AbandonAwaited(s, now);
    case ShowEvent => FrameAwaited(s, s.(hidden := false));
    case _ => CaptureAwaited(s, e);
  }

  lemma CaptureAwaited(s: State, e: Event)
    requires Inv(s) && Awaited(s) && forall w <- s.world.waits :: w.token <= s.generation
    requires e.MidiEvent? || e.FinishEvent? || e.RetryFinishEvent? || e.CancelEvent? || e.DisconnectEvent?
    ensures Awaited(Step(s, e))
  {
    match e
    case MidiEvent(_, _, _, _, _, _, _) => MidiAwaited(s, e);
    case FinishEvent(now) => FinishAwaited(s, now);
    case RetryFinishEvent(now) => RetryAwaited(s, now);
    case CancelEvent(now) => CancelAwaited(s, now);
    case DisconnectEvent(_, _, now) => CancelAwaited(s, now);
  }

  lemma FinishAwaited(s: State, now: nat)
    requires Inv(s) && Awaited(s)
    ensures Awaited(Finish(s, now))
  {
    if s.phase.Capturing? && s.terminal.None? {
      var u := Draining(s);
      DrainingKeeps(s);
      assert Awaited(u);
      if !Pumping(s) {
        PumpIgnored(u, Some(s.generation));
        FrameAwaited(u, u.(pumping := Some(s.generation)));
        DrainAwaited(u.(pumping := Some(s.generation)), now);
      }
    }
  }

  lemma RetryAwaited(s: State, now: nat)
    requires Phases(s) && Awaited(s)
    ensures Awaited(RetryFinish(s, now))
  {
    var t := RetryFinish(s, now);
    assert forall w <- s.world.waits :: w in t.world.waits;
  }

  lemma StartAwaited(s: State, ready: bool, keyMinted: bool, now: nat)
    requires Awaited(s) && forall w <- s.world.waits :: w.token <= s.generation
    ensures Awaited(Start(s, ready, keyMinted, now))
  {
    var t := Start(s, ready, keyMinted, now);
    assert forall w <- s.world.waits :: w in t.world.waits;
  }

  lemma MidiAwaited(s: State, e: Event)
    requires Inv(s) && Awaited(s) && e.MidiEvent? && forall w <- s.world.waits :: w.token <= s.generation
    ensures Awaited(Step(s, e))
  {
    if e.mine == s.intakeToken && Alive(s, e.token) && s.phase.Capturing? && s.attempt.Some? && e.usable {
      if |s.queue| >= QUEUE_LIMIT {
        CancelAwaited(s, e.now);
      } else {
        var m := Message(s.attempt.value, s.nextSequence, e.captureNs, e.positionSeconds, e.payload);
        EnqueueAwaited(s, m, e.now);
      }
    }
  }

  lemma EnqueueAwaited(s: State, m: Message, now: nat)
    requires Inv(s) && Awaited(s) && Live(s) && m.attempt == s.attempt.value && m.sequence == s.nextSequence
    requires |s.queue| < QUEUE_LIMIT && !s.hidden
    ensures Awaited(Pump(Enqueue(s, m), s.generation, now))
  {
    var u := Enqueue(s, m);
    FrameAwaited(s, u);
    if !Pumping(s) {
      AtHead(s, m);
      FrameAwaited(u, u.(pumping := Some(s.generation)));
      DrainAwaited(u.(pumping := Some(s.generation)), now);
    }
  }

  lemma CancelAwaited(s: State, now: nat)
    requires Awaited(s) && forall w <- s.world.waits :: w.token <= s.generation
    ensures Awaited(Cancel(s, now))
  {
    var t := Cancel(s, now);
    assert forall w <- s.world.waits :: w in t.world.waits;
  }

  lemma ResolveBeginAwaited(s: State)
    requires Awaited(s)
    ensures Awaited(ResolveBegin(s))
  {
    var t := ResolveBegin(s);
    assert forall w <- s.world.waits :: w in t.world.waits;
    if t != s {
      assert ResolveWait(s.generation, s.pendingBegin.value) in t.world.waits;
    }
  }

  lemma AbandonAwaited(s: State, now: nat)
    requires Awaited(s)
    ensures Awaited(Abandon(s, now)) && Awaited(PageHide(s, now)) && Abandon(s, now).pendingBegin.None?
  {
  }

  lemma {:induction false} RunAwaited(events: seq<Event>)
    requires Possible(events)
    ensures Inv(Run(events)) && Awaited(Run(events))
  {
    RunKeeps(events);
    if events != [] {
      RunAwaited(events[..|events| - 1]);
      var s, e := Run(events[..|events| - 1]), events[|events| - 1];
      if WaitOf(e).Some? {
        ReplyAwaited(s, e);
      } else {
        PageAwaited(s, e);
      }
    }
  }

  // ----- Ways on -----

  predicate Leaves(e: Event) { e.AbandonEvent? || e.HideEvent? }

  function Follow(s: State, more: seq<Event>): State
    decreases |more|
  {
    if more == [] then s else Follow(Step(s, more[0]), more[1..])
  }

  /** Events that may come one after the other without leaving the page. */
  predicate Follows(s: State, more: seq<Event>)
    decreases |more|
  {
    more != [] ==> Enabled(s, more[0]) && !Leaves(more[0]) && Follows(Step(s, more[0]), more[1..])
  }

  /** Pressing start would do something. */
  predicate CanStart(s: State) { Start(s, true, true, 0) != s }

  ghost predicate WayOut(s: State) { exists more :: Follows(s, more) && CanStart(Follow(s, more)) }

  lemma WayNow(s: State)
    requires CanStart(s)
    ensures WayOut(s)
  {
    assert Follows(s, []) && Follow(s, []) == s;
  }

  lemma WayStep(s: State, e: Event)
    requires Enabled(s, e) && !Leaves(e) && WayOut(Step(s, e))
    ensures WayOut(s)
  {
    var more :| Follows(Step(s, e), more) && CanStart(Follow(Step(s, e), more));
    assert ([e] + more)[1..] == more;
    assert Follows(s, [e] + more) && Follow(s, [e] + more) == Follow(Step(s, e), more);
  }

  /** The start is in doubt and forgotten: there is nothing left to ask about. */
  predicate Lost(s: State) { s.phase.Unconfirmed? && s.doubt == Some(DoubtBegin) && s.pendingBegin.None? }

  lemma CanStartExactly(s: State)
    ensures CanStart(s)
      <==> !Active(s.phase) && s.doubt != Some(DoubtFinish) && s.doubt != Some(DoubtBegin) && s.pendingBegin.None?
  {
    assert Start(s, true, true, 0) != s ==> Start(s, true, true, 0).generation == s.generation + 1;
  }

  lemma SettledWay(s: State)
    requires Control(s) && Awaited(s) && !Active(s.phase) && !Lost(s)
    ensures WayOut(s)
  {
    CanStartExactly(s);
    if s.doubt == Some(DoubtFinish) {
      RetryWay(s);
    } else if s.doubt == Some(DoubtBegin) {
      RecoverWay(s);
    } else if s.pendingBegin.Some? {
      LateBeginWay(s);
    } else {
      WayNow(s);
    }
  }

  /** A doubtful finish is retried, and answered. */
  lemma RetryWay(s: State)
    requires Phases(s) && Awaited(s) && !Active(s.phase) && s.doubt == Some(DoubtFinish)
    ensures WayOut(s)
  {
    var t := Step(s, RetryFinishEvent(0));
    RetryAwaited(s, 0);
    FinishingWay(t);
    WayStep(s, RetryFinishEvent(0));
  }

  /** A doubtful start is asked about, and answered. */
  lemma RecoverWay(s: State)
    requires Phases(s) && Awaited(s) && s.phase.Unconfirmed? && s.doubt == Some(DoubtBegin) && s.pendingBegin.Some?
    ensures WayOut(s)
  {
    if s.resolving {
      var w :| w in s.world.waits && w.ResolveWait?;
      var answer := ResolveReplyEvent(w.token, w.key, Unreadable);
      var t := Step(s, answer);
      assert t == Forget(s, w).(resolving := false);
      AskWay(t);
      WayStep(s, answer);
    } else {
      AskWay(s);
    }
  }

  lemma AskWay(s: State)
    requires s.phase.Unconfirmed? && s.doubt == Some(DoubtBegin) && s.pendingBegin.Some? && !s.resolving && !s.hidden
    ensures WayOut(s)
  {
    var key := s.pendingBegin.value;
    var t := Step(s, ResolveBeginEvent);
    var answer := ResolveReplyEvent(s.generation, key, Wrapper(key, NoAttemptStatus));
    assert ResolveWait(s.generation, key) in t.world.waits;
    var u := Step(t, answer);
    CanStartExactly(u);
    WayNow(u);
    WayStep(t, answer);
    WayStep(s, ResolveBeginEvent);
  }

  /** A start that was cancelled before its reply: the reply, now late, closes it. */
  lemma LateBeginWay(s: State)
    requires Control(s) && Awaited(s) && !Active(s.phase) && s.pendingBegin.Some?
    requires s.doubt != Some(DoubtFinish) && s.doubt != Some(DoubtBegin)
    ensures WayOut(s)
  {
    var key := s.pendingBegin.value;
    var answer := BeginReplyEvent(key, key, Unreadable);
    assert Placed(s, BeginWait(key, key));
    var t := Step(s, answer);
    CanStartExactly(t);
    WayNow(t);
    WayStep(s, answer);
  }

  lemma CancellingWay(s: State)
    requires Control(s) && Awaited(s) && s.phase.Cancelling?
    ensures WayOut(s)
  {
    var answer := CancelReplyEvent(s.generation, s.attempt.value, EndAccepted);
    var t := Step(s, answer);
    CanStartExactly(t);
    WayNow(t);
    WayStep(s, answer);
  }

  lemma FinishingWay(s: State)
    requires !s.hidden && Awaited(s) && s.phase.Finishing? && s.terminal.Some?
    ensures WayOut(s)
  {
    var answer := FinishReplyEvent(s.generation, s.attempt.value, EndAccepted);
    var t := Step(s, answer);
    CanStartExactly(t);
    WayNow(t);
    WayStep(s, answer);
  }

  lemma ActiveWay(s: State)
    requires Inv(s) && Awaited(s) && Active(s.phase)
    ensures WayOut(s)
  {
    if s.phase.Cancelling? {
      CancellingWay(s);
    } else if s.phase.Finishing? && s.terminal.Some? {
      FinishingWay(s);
    } else {
      CancelKeeps(s, 0);
      TokensPast(s);
      CancelAwaited(s, 0);
      CancelledFields(s);
      CancelledWay(Cancel(s, 0));
      WayStep(s, CancelEvent(0));
    }
  }

  lemma CancelledFields(s: State)
    requires Control(s) && Active(s.phase) && !s.phase.Cancelling? && !(s.phase.Finishing? && s.terminal.Some?)
    ensures var t := Step(s, CancelEvent(0));
      && t == Cancel(s, 0) && Enabled(s, CancelEvent(0)) && (t.phase.Cancelling? || (t.phase.Idle? && !Lost(t)))
  {
  }

  lemma CancelledWay(t: State)
    requires Control(t) && Awaited(t) && (t.phase.Cancelling? || (t.phase.Idle? && !Lost(t)))
    ensures WayOut(t)
  {
    if t.phase.Cancelling? {
      CancellingWay(t);
    } else {
      SettledWay(t);
    }
  }

  // ----- The one dead end -----

  /** Nothing but leaving ends it. */
  lemma LostStays(s: State, e: Event)
    requires Control(s) && Lost(s) && Enabled(s, e) && !Leaves(e)
    ensures Lost(Step(s, e))
  {
    if WaitOf(e).Some? {
      assert Placed(s, WaitOf(e).value);
    }
  }

  lemma {:induction false} LostFollows(s: State, more: seq<Event>)
    requires Inv(s) && Lost(s) && Follows(s, more)
    ensures Lost(Follow(s, more))
    decreases |more|
  {
    if more != [] {
      LostStays(s, more[0]);
      StepKeeps(s, more[0]);
      LostFollows(Step(s, more[0]), more[1..]);
    }
  }

  lemma WayOutExactly(s: State)
    requires Inv(s) && Awaited(s)
    ensures WayOut(s) <==> !Lost(s)
  {
    if Lost(s) {
      forall more | Follows(s, more)
        ensures !CanStart(Follow(s, more))
      {
        LostFollows(s, more);
        CanStartExactly(Follow(s, more));
      }
    } else if Active(s.phase) {
      ActiveWay(s);
    } else {
      SettledWay(s);
    }
  }

  // ----- Over whole runs -----

  lemma Regroup(events: seq<Event>, e: Event, more: seq<Event>)
    ensures events + ([e] + more) == (events + [e]) + more
  {
  }

  lemma {:induction false} RunFollows(events: seq<Event>, more: seq<Event>)
    ensures Run(events + more) == Follow(Run(events), more)
    decreases |more|
  {
    if more == [] {
      assert events + more == events;
    } else {
      RunExtends(events, more[0]);
      Regroup(events, more[0], more[1..]);
      assert more == [more[0]] + more[1..];
      RunFollows(events + [more[0]], more[1..]);
    }
  }

  lemma {:induction false} PossibleFollows(events: seq<Event>, more: seq<Event>)
    ensures Possible(events + more) && (forall e <- more :: !Leaves(e)) <==> Possible(events) && Follows(Run(events), more)
    decreases |more|
  {
    if more == [] {
      assert events + more == events;
    } else {
      RunExtends(events, more[0]);
      Regroup(events, more[0], more[1..]);
      assert more == [more[0]] + more[1..];
      PossibleFollows(events + [more[0]], more[1..]);
    }
  }

  /** After any run, some further events that do not leave the page let the learner start again, if
      and only if the run did not end with a start in doubt and forgotten. */
  lemma StartableExactly(events: seq<Event>)
    requires Possible(events)
    ensures !Lost(Run(events)) <==>
      exists more :: Possible(events + more) && (forall e <- more :: !Leaves(e)) && CanStart(Run(events + more))
  {
    RunAwaited(events);
    WayOutExactly(Run(events));
    forall more
      ensures Possible(events + more) && (forall e <- more :: !Leaves(e)) && CanStart(Run(events + more))
        <==> Follows(Run(events), more) && CanStart(Follow(Run(events), more))
    {
      RunFollows(events, more);
      PossibleFollows(events, more);
    }
    if WayOut(Run(events)) {
      var more :| Follows(Run(events), more) && CanStart(Follow(Run(events), more));
      assert Possible(events + more) && CanStart(Run(events + more));
    }
  }

  /** Leaving the page always lets the learner start again. */
  lemma LeavingFrees(events: seq<Event>, now: nat)
    requires Possible(events)
    ensures CanStart(Step(Run(events), AbandonEvent(now))) && CanStart(Step(Run(events), HideEvent(now)))
  {
    EndAwaited(events);
    LeavingStep(Run(events), now);
  }

  lemma LeavingStep(s: State, now: nat)
    requires Awaited(s)
    ensures CanStart(Step(s, AbandonEvent(now))) && CanStart(Step(s, HideEvent(now)))
  {
    LeftCanStart(s, now);
  }

  lemma EndAwaited(events: seq<Event>)
    requires Possible(events)
    ensures Awaited(Run(events))
  {
    RunAwaited(events);
  }

  lemma LeftCanStart(s: State, now: nat)
    requires Awaited(s)
    ensures CanStart(Abandon(s, now)) && CanStart(PageHide(s, now))
  {
    AbandonAwaited(s, now);
    AbandonedFields(s, now);
    CanStartExactly(Abandon(s, now));
    CanStartExactly(PageHide(s, now));
  }

  lemma AbandonedFields(s: State, now: nat)
    ensures Abandon(s, now).phase.Idle? && Abandon(s, now).doubt.None?
  {
  }

  /** Start, leave, start, and then the first start's late reply and the second's own, which the
      server may well have answered with a started attempt. */
  lemma LostRun(late: GatewayReply, own: GatewayReply)
    requires late.Wrapper? ==> !late.status.StartedStatus?
    requires own.Wrapper?
    ensures var events := StartTwice() + [BeginReplyEvent(1, 1, late)] + [BeginReplyEvent(3, 3, own)];
      Possible(events) && Lost(Run(events))
  {
    LateBeginTouchesNewerStart(late);
    StartedTwice();
    RunExtends(StartTwice(), BeginReplyEvent(1, 1, late));
    RunExtends(StartTwice() + [BeginReplyEvent(1, 1, late)], BeginReplyEvent(3, 3, own));
    LateThenOwn(Run(StartTwice()), late, own);
  }

  lemma LateThenOwn(s: State, late: GatewayReply, own: GatewayReply)
    requires s.generation == 3 && !s.hidden && s.pendingBegin == Some(3) && s.world.begun == map[]
    requires BeginWait(1, 1) in s.world.waits && BeginWait(3, 3) in s.world.waits && own.Wrapper?
    ensures var t := Step(s, BeginReplyEvent(1, 1, late));
      Enabled(t, BeginReplyEvent(3, 3, own)) && Lost(Step(t, BeginReplyEvent(3, 3, own)))
  {
  }
}
