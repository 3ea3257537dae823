/** What the user is shown and what is recorded, told from the events alone: each phase is entered by
    exactly the events and replies that should lead to it. */
module AttemptOutcomes {
  import opened Prelude
  import opened AttemptModel
  import opened AttemptInvariant
  import opened AttemptPreservation
  import opened AttemptLaws

  /** A reply that finds its own generation still current and the page shown. */
  predicate Fresh(s: State, token: nat) { token == s.generation && !s.hidden }

  /** What holds of every state a run reaches, as far as the laws below need it. */
  lemma Reached(events: seq<Event>)
    requires Possible(events)
    ensures Control(Run(events))
  {
    RunKeeps(events);
  }

  // ----- Ends -----

  /** The answer to a finish or a cancel settles the attempt it is about: accepted ones as evaluated
      or interrupted, refused ones as rejected, unclear ones as unconfirmed, and nothing else. */
  lemma EndAnswered(s: State, e: Event)
    requires Control(s) && Enabled(s, e) && (e.FinishReplyEvent? || e.CancelReplyEvent?) && Fresh(s, e.token)
    ensures var t := Step(s, e);
      && s.attempt == t.attempt == Some(e.attempt)
      && (t.phase.Evaluated? <==> e.FinishReplyEvent? && e.end.EndAccepted?)
      && (t.phase.Interrupted? <==> e.CancelReplyEvent? && e.end.EndAccepted?)
      && (t.phase.Rejected? <==> e.end.EndRejected?)
      && (t.phase.Unconfirmed? <==> e.end.EndUnclear?)
      && (t.doubt == Some(DoubtFinish) <==> e.FinishReplyEvent? && e.end.EndUnclear?)
      && (t.doubt == Some(DoubtCancel) <==> e.CancelReplyEvent? && e.end.EndUnclear?)
      && (t.doubt.None? <==> !e.end.EndUnclear?)
      && t.world.sent == s.world.sent && t.world.captured == s.world.captured
  {
    assert Placed(s, WaitOf(e).value);
  }

  /** A finish left unclear is sent again, for the same attempt, whenever the user retries; nothing
      else is retried. */
  lemma RetryExactly(s: State, now: nat)
    requires Control(s)
    ensures var t := Step(s, RetryFinishEvent(now));
      if s.phase.Unconfirmed? && s.doubt == Some(DoubtFinish) then
        && s.attempt.Some? && t.phase.Finishing? && t.attempt == s.attempt
        && |t.world.sent| == |s.world.sent| + 1 && t.world.sent[..|s.world.sent|] == s.world.sent
        && t.world.sent[|s.world.sent|] == FinishSent(s.attempt.value, if now < s.lastCaptureNs then s.lastCaptureNs else now)
        && FinishWait(s.generation, s.attempt.value) in t.world.waits
      else t == s
  {
  }

  // ----- Beginnings -----

  /** A well-formed answer for the start that is pending. */
  predicate Answers(s: State, reply: GatewayReply, status: GatewayStatus) {
    reply.Wrapper? && s.pendingBegin.Some? && reply.key == s.pendingBegin.value && reply.status == status
  }

  predicate Starts(s: State, reply: GatewayReply) {
    reply.Wrapper? && s.pendingBegin.Some? && reply.key == s.pendingBegin.value && reply.status.StartedStatus?
  }

  /** The answer to a start: what it settles, what stays pending, and which attempt is to be mounted. */
  lemma BeginAnswered(s: State, e: Event)
    requires Control(s) && Enabled(s, e) && e.BeginReplyEvent? && Fresh(s, e.token)
    ensures var t := Step(s, e);
      var (none, interrupted) := (Answers(s, e.reply, NoAttemptStatus), Answers(s, e.reply, InterruptedStatus));
      var refused := e.reply.Refusal? && e.reply.definitive;
      && (t.phase.Idle? <==> refused || none)
      && (t.phase.Interrupted? <==> interrupted)
      && (t.phase.Starting? <==> Starts(s, e.reply))
      && (t.phase.Unconfirmed? <==> !refused && !none && !interrupted && !Starts(s, e.reply))
      && t.doubt == (if t.phase.Unconfirmed? then Some(DoubtBegin) else None)
      && t.pendingBegin == (if t.phase.Unconfirmed? then s.pendingBegin else None)
      && t.attempt.None? && t.world.sent == s.world.sent
      && t.world.begun == (if Starts(s, e.reply) then s.world.begun[e.reply.status.attempt := Begun(e.token, s.lastCaptureNs)]
                           else s.world.begun)
      && (Starts(s, e.reply) ==> MountWait(e.token, e.reply.status.attempt) in t.world.waits)
  {
    assert Placed(s, WaitOf(e).value);
  }

  /** The answer to a recovery settles the pending start as idle or interrupted, or leaves it in doubt;
      an answer for a start no longer pending, or that comes late, only ends the recovery. */
  lemma RecoveryAnswered(s: State, e: Event)
    requires Control(s) && Enabled(s, e) && e.ResolveReplyEvent?
    ensures var t := Step(s, e);
      var current := Fresh(s, e.token) && s.pendingBegin == Some(e.key);
      var (none, interrupted) := (Answers(s, e.reply, NoAttemptStatus), Answers(s, e.reply, InterruptedStatus));
      && !t.resolving && t.world.sent == s.world.sent && t.attempt == s.attempt
      && (!current ==> t.phase == s.phase && t.doubt == s.doubt && t.pendingBegin == s.pendingBegin)
      && (current ==>
            && t.phase == (if none then Idle else if interrupted then Interrupted else Unconfirmed)
            && t.doubt == (if none || interrupted then None else Some(DoubtBegin))
            && t.pendingBegin == (if none || interrupted then None else s.pendingBegin))
  {
  }

  /** The recovery asked for is the one in doubt, once at a time. */
  lemma RecoveryAsked(s: State)
    ensures var t := Step(s, ResolveBeginEvent);
      if s.pendingBegin.Some? && !s.resolving && s.doubt == Some(DoubtBegin) then
        && t.resolving && t.world.sent == s.world.sent + [ResolveSent(s.pendingBegin.value, false)]
        && ResolveWait(s.generation, s.pendingBegin.value) in t.world.waits
        && t.phase == s.phase && t.pendingBegin == s.pendingBegin
      else t == s
  {
  }

  /** A start opens a new generation with nothing captured and one keyed request, timed now, if the
      page is ready and nothing is running, in doubt or pending; a browser that cannot mint a key is
      back where nothing is open. */
  lemma StartExactly(s: State, ready: bool, minted: bool, now: nat)
    ensures var t := Step(s, StartEvent(ready, minted, now));
      var free := ready && !(s.phase in {Starting, Capturing, Finishing, Cancelling})
        && s.doubt != Some(DoubtFinish) && s.doubt != Some(DoubtBegin) && s.pendingBegin.None?;
      && (!free ==> t == s)
      && (free ==>
            && t.generation == s.generation + 1 && t.intakeToken > s.intakeToken
            && t.attempt.None? && t.queue == [] && t.nextSequence == 0 && t.acked == 0 && t.terminal.None? && t.doubt.None?
            && t.phase == (if minted then Starting else Idle)
            && t.lastCaptureNs == now
            && t.pendingBegin == (if minted then Some(t.generation) else None)
            && t.world.sent == s.world.sent + (if minted then [BeginSent(t.generation, now)] else [])
            && (minted ==> BeginWait(t.generation, t.generation) in t.world.waits))
  {
  }

  /** A mounted attempt captures if its input is still connected; otherwise, or if it could not be
      mounted, it is cancelled. One mounted too late is cancelled at the server. */
  lemma MountAnswered(s: State, e: Event)
    requires Control(s) && Enabled(s, e) && e.MountReplyEvent?
    ensures var t := Step(s, e);
      if !Fresh(s, e.token) then
        && t.world.sent == s.world.sent + [CancelSent(e.attempt, e.now, ByUnmounted)]
        && t.phase == s.phase && t.attempt == s.attempt && t.intakeToken == s.intakeToken
      else
        && t.attempt == Some(e.attempt) && t.intakeToken > s.intakeToken
        && (t.phase.Capturing? <==> e.mounted && e.connected)
        && (t.phase.Cancelling? <==> !(e.mounted && e.connected))
        && t.world.sent == s.world.sent + (if t.phase.Capturing? then [] else
             [CancelSent(e.attempt, if e.now < s.lastCaptureNs then s.lastCaptureNs else e.now, ByAttempt)])
  {
    assert Placed(s, WaitOf(e).value);
  }

  // ----- Capturing -----

  /** A message from the input that is connected now, of a kind that counts, while the attempt captures. */
  predicate Heard(s: State, e: Event) {
    e.MidiEvent? && e.mine == s.intakeToken && Fresh(s, e.token) && s.phase.Capturing? && e.usable
  }

  /** What every step but hearing a message does to the record of messages and to the intake: entering and
      leaving the capturing phase both raise the token an input must carry, and nothing lowers it. */
  predicate Moves(s: State, t: State) {
    && t.world.captured == s.world.captured && t.intakeToken >= s.intakeToken && t.lastCaptureNs == s.lastCaptureNs
    && (t.phase.Capturing? != s.phase.Capturing? ==> t.intakeToken > s.intakeToken)
  }

  lemma CancellingMoves(s: State, token: nat, now: nat)
    ensures Moves(s, PerformCancel(s, token, now)) && Moves(s, Cancel(s, now))
  {
  }

  lemma DrainMoves(s: State, token: nat, now: nat)
    ensures Moves(s, Drain(s, token, now)) && Drain(s, token, now).phase == s.phase
    ensures Moves(s, Pump(s, token, now)) && Pump(s, token, now).phase == s.phase
  {
  }

  lemma MovesOn(s: State, u: State, t: State)
    requires Moves(s, u) && Moves(u, t)
    ensures Moves(s, t)
  {
  }

  lemma QueueMoves(s: State, token: nat)
    ensures Moves(s, Unpump(s, token)) && Moves(s, Unpump(s.(queue := []), token)) && Moves(s, Advance(s))
  {
  }

  lemma AppendMoves(s: State, token: nat, item: Message, outcome: AppendOutcome, now: nat)
    ensures Moves(s, AppendReply(s, token, item, outcome, now))
  {
    var dropped, advanced := Unpump(s.(queue := []), token), Advance(s);
    QueueMoves(s, token);
    CancellingMoves(dropped, token, now);
    DrainMoves(advanced, token, now);
    MovesOn(s, dropped, PerformCancel(dropped, token, now));
    MovesOn(s, advanced, Drain(advanced, token, now));
    AppendIsOne(s, token, item, outcome, now);
  }

  lemma AppendIsOne(s: State, token: nat, item: Message, outcome: AppendOutcome, now: nat)
    ensures AppendReply(s, token, item, outcome, now)
      in {Unpump(s, token), PerformCancel(Unpump(s.(queue := []), token), token, now), Drain(Advance(s), token, now)}
  {
  }

  lemma FinishMoves(s: State, now: nat)
    ensures Moves(s, Finish(s, now))
  {
    DrainMoves(s.(intakeToken := s.intakeToken + 1, phase := Finishing), s.generation, now);
  }

  lemma MountMoves(s: State, token: nat, a: nat, mounted: bool, connected: bool, now: nat)
    requires !s.phase.Capturing?
    ensures Moves(s, MountReply(s, token, a, mounted, connected, now))
  {
    CancellingMoves(s.(attempt := Some(a)), token, now);
    CancellingMoves(Mounted(s, a), token, now);
  }

  lemma LeavingMoves(s: State, now: nat)
    ensures Moves(s, Abandon(s, now)) && Moves(s, PageHide(s, now))
  {
  }

  lemma RepliesMove(s: State, e: Event)
    requires Control(s) && Enabled(s, e) && WaitOf(e).Some?
    ensures Moves(s, Step(s, e))
  {
    assert Placed(s, WaitOf(e).value);
    var t := Forget(s, WaitOf(e).value);
    match e
    case AppendReplyEvent(token, item, outcome, now) => AppendMoves(t, token, item, outcome, now);
    case MountReplyEvent(token, a, mounted, connected, now) =>
      if Alive(t, token) {
        MountMoves(t, token, a, mounted, connected, now);
      }
    case _ => SettlingMoves(s, e);
  }

  lemma SettlingMoves(s: State, e: Event)
    requires Control(s) && Enabled(s, e)
    requires e.BeginReplyEvent? || e.FinishReplyEvent? || e.CancelReplyEvent? || e.ResolveReplyEvent?
    ensures Moves(s, Step(s, e))
  {
    assert Placed(s, WaitOf(e).value);
    match e
    case BeginReplyEvent(token, _, reply) => BeginMoves(Forget(s, WaitOf(e).value), token, reply);
    case ResolveReplyEvent(token, key, reply) => RecoveryMoves(Forget(s, WaitOf(e).value), token, key, reply);
    case FinishReplyEvent(token, _, end) => EndMoves(Forget(s, WaitOf(e).value), token, end);
    case CancelReplyEvent(token, _, end) => EndMoves(Forget(s, WaitOf(e).value), token, end);
  }

  lemma EndMoves(s: State, token: nat, end: EndOutcome)
    requires Alive(s, token) ==> !s.phase.Capturing?
    ensures Moves(s, FinishReply(s, token, end)) && Moves(s, CancelReply(s, token, end))
  {
  }

  lemma BeginMoves(s: State, token: nat, reply: GatewayReply)
    requires Alive(s, token) ==> !s.phase.Capturing?
    ensures Moves(s, BeginReply(s, token, reply))
  {
  }

  lemma RecoveryMoves(s: State, token: nat, key: nat, reply: GatewayReply)
    requires Alive(s, token) ==> !s.phase.Capturing?
    ensures Moves(s, ResolveReply(s, token, key, reply))
  {
  }

  lemma ControlsMove(s: State, e: Event)
    requires Control(s) && WaitOf(e).None? && !e.MidiEvent? && !e.StartEvent?
    ensures Moves(s, Step(s, e))
  {
    match e
    case FinishEvent(now) => FinishMoves(s, now);
    case CancelEvent(now) => CancellingMoves(s, s.generation, now);
    case DisconnectEvent(_, _, now) => CancellingMoves(s, s.generation, now);
    case AbandonEvent(now) => LeavingMoves(s, now);
    case HideEvent(now) => LeavingMoves(s, now);
    case RetryFinishEvent(now) =>
    case ResolveBeginEvent =>
    case ShowEvent =>
  }

  /** A message heard is captured as it was played, under the next number, unless 256 are waiting:
      then the attempt is cancelled. One not heard does nothing. */
  lemma MessageHeard(s: State, e: Event)
    requires Control(s) && e.MidiEvent?
    ensures var t := Step(s, e);
      && (Heard(s, e) && |s.queue| < 256 ==>
            && s.attempt.Some?
            && t.world.captured
               == s.world.captured + [Message(s.attempt.value, s.nextSequence, e.captureNs, e.positionSeconds, e.payload)]
            && t.queue == s.queue + [Message(s.attempt.value, s.nextSequence, e.captureNs, e.positionSeconds, e.payload)]
            && t.nextSequence == s.nextSequence + 1 && t.phase.Capturing? && t.intakeToken == s.intakeToken
            && t.lastCaptureNs == (if e.captureNs < s.lastCaptureNs then s.lastCaptureNs else e.captureNs))
      && (Heard(s, e) && |s.queue| >= 256 ==> t.phase.Cancelling? && t.queue == [] && Moves(s, t))
      && (!Heard(s, e) ==> t == s)
  {
    if Heard(s, e) && |s.queue| < 256 {
      var m := Message(s.attempt.value, s.nextSequence, e.captureNs, e.positionSeconds, e.payload);
      DrainMoves(Enqueue(s, m), e.token, e.now);
      PumpKeepsQueue(Enqueue(s, m), e.token, e.now);
    } else if Heard(s, e) {
      CancellingMoves(s, e.token, e.now);
    }
  }

  lemma PumpKeepsQueue(s: State, token: nat, now: nat)
    requires s.phase.Capturing?
    ensures var t := Pump(s, token, now);
      && t.queue == s.queue && t.nextSequence == s.nextSequence && t.lastCaptureNs == s.lastCaptureNs
      && t.intakeToken == s.intakeToken
  {
  }

  lemma StartKeepsCaptures(s: State, ready: bool, minted: bool, now: nat)
    ensures Step(s, StartEvent(ready, minted, now)).world.captured == s.world.captured
  {
  }

  /** Nothing is ever captured but what is heard, and an input is heard during one stay in the capturing
      phase. */
  lemma CapturedExactly(s: State, e: Event)
    requires Control(s) && Enabled(s, e)
    ensures Step(s, e).world.captured != s.world.captured <==> Heard(s, e) && |s.queue| < 256
    ensures var t := Step(s, e);
      && t.intakeToken >= s.intakeToken && (t.phase.Capturing? != s.phase.Capturing? ==> t.intakeToken > s.intakeToken)
      && (t.lastCaptureNs != s.lastCaptureNs ==> Heard(s, e) || (e.StartEvent? && t.generation > s.generation))
  {
    if e.StartEvent? {
      StartExactly(s, e.ready, e.keyMinted, e.now);
      StartKeepsCaptures(s, e.ready, e.keyMinted, e.now);
    } else if e.MidiEvent? {
      MessageHeard(s, e);
      assert Heard(s, e) && |s.queue| < 256 ==> |Step(s, e).world.captured| == |s.world.captured| + 1;
    } else if WaitOf(e).Some? {
      RepliesMove(s, e);
    } else {
      ControlsMove(s, e);
    }
  }

  // ----- Sending and acknowledging -----

  /** The server's answer to the message in flight: the next acknowledgement takes it off the queue, and
      the next message or, when the last one is through, the finish goes out; any other answer drops the
      queue and cancels. */
  lemma AppendAnswered(s: State, e: Event)
    requires Inv(s) && Enabled(s, e) && e.AppendReplyEvent? && Fresh(s, e.token)
    requires s.attempt == Some(e.item.attempt) && s.phase in {Capturing, Finishing} && s.terminal.None?
    ensures var t := Step(s, e);
      var end := if e.now < s.lastCaptureNs then s.lastCaptureNs else e.now;
      && s.queue != [] && s.queue[0] == e.item
      && if e.outcome == Acknowledged(s.acked + 1) then
           && t.queue == s.queue[1..] && t.acked == s.acked + 1 && t.phase == s.phase && t.attempt == s.attempt
           && t.world.sent == s.world.sent +
                (if t.queue != [] then [AppendSent(t.queue[0])]
                 else if t.phase.Finishing? then [FinishSent(e.item.attempt, end)] else [])
         else
           && t.queue == [] && t.acked == s.acked && t.phase.Cancelling?
           && t.world.sent == s.world.sent + [CancelSent(e.item.attempt, end, ByAttempt)]
  {
    HeadInFlight(s, e.item);
    AppendTaken(Forget(s, WaitOf(e).value), e);
  }

  /** The append in flight carries the head of the queue. */
  lemma HeadInFlight(s: State, item: Message)
    requires Inv(s) && AppendWait(s.generation, item) in s.world.waits
    requires s.attempt == Some(item.attempt) && Streaming(s.phase) && s.terminal.None?
    ensures s.queue != [] && s.queue[0] == item
  {
    assert Placed(s, AppendWait(s.generation, item)) && Story(s, item.attempt);
  }

  lemma AppendTaken(s: State, e: Event)
    requires e.AppendReplyEvent? && Fresh(s, e.token) && s.attempt == Some(e.item.attempt) && Streaming(s.phase)
    requires s.terminal.None? && s.queue != []
    ensures var t := AppendReply(s, e.token, e.item, e.outcome, e.now);
      var end := if e.now < s.lastCaptureNs then s.lastCaptureNs else e.now;
      if e.outcome == Acknowledged(s.acked + 1) then
        && t.queue == s.queue[1..] && t.acked == s.acked + 1 && t.phase == s.phase && t.attempt == s.attempt
        && t.world.sent == s.world.sent +
             (if t.queue != [] then [AppendSent(t.queue[0])]
              else if t.phase.Finishing? then [FinishSent(e.item.attempt, end)] else [])
      else
        && t.queue == [] && t.acked == s.acked && t.phase.Cancelling?
        && t.world.sent == s.world.sent + [CancelSent(e.item.attempt, end, ByAttempt)]
  {
  }

  // ----- Ending and leaving -----

  /** Finishing stops the intake; with nothing left to acknowledge the finish goes out at once. */
  lemma FinishAsked(s: State, now: nat)
    requires Inv(s)
    ensures var t := Step(s, FinishEvent(now));
      if s.phase.Capturing? then
        && s.attempt.Some? && t.phase.Finishing? && t.intakeToken > s.intakeToken && t.queue == s.queue
        && t.world.sent == s.world.sent +
             (if s.queue == [] then [FinishSent(s.attempt.value, if now < s.lastCaptureNs then s.lastCaptureNs else now)] else [])
      else t == s
  {
  }

  /** A cancel before an attempt is open moves to a new generation and is idle; one of an open attempt
      drops its queue and goes out once; after a finish or a cancel there is nothing to cancel. */
  lemma CancelAsked(s: State, now: nat)
    requires Control(s)
    ensures var t := Step(s, CancelEvent(now));
      if s.terminal.Some? || s.phase !in {Starting, Capturing, Finishing} then t == s
      else if s.phase.Starting? then
        t.phase.Idle? && t.generation == s.generation + 1 && t.world.sent == s.world.sent && t.pendingBegin == s.pendingBegin
      else
        && s.attempt.Some? && t.phase.Cancelling? && t.queue == [] && t.attempt == s.attempt
        && t.world.sent == s.world.sent +
             [CancelSent(s.attempt.value, if now < s.lastCaptureNs then s.lastCaptureNs else now, ByAttempt)]
        && CancelWait(s.generation, s.attempt.value) in t.world.waits
  {
  }

  /** Losing the input that is connected while starting or capturing cancels; losing another does nothing. */
  lemma DisconnectIsCancel(s: State, mine: nat, token: nat, now: nat)
    ensures Step(s, DisconnectEvent(mine, token, now))
      == if mine == s.intakeToken && Fresh(s, token) && s.phase in {Starting, Capturing} then Step(s, CancelEvent(now)) else s
  {
  }

  /** Nothing is open any more, and every earlier continuation and input is out of date. */
  predicate Gone(s: State, t: State) {
    && t.phase.Idle? && t.attempt.None? && t.queue == [] && t.terminal.None? && t.doubt.None?
    && t.generation == s.generation + 1 && t.intakeToken > s.intakeToken && t.world.waits == s.world.waits
  }

  lemma LeftIsGone(s: State)
    ensures Gone(s, Left(s)) && Left(s).pendingBegin == s.pendingBegin
  {
  }

  lemma ToldIsSame(s: State, x: Sent)
    ensures var t := Log(s, x); Gone(t, Left(t)) && Gone(s, Left(t)) && Left(t).pendingBegin == s.pendingBegin
    ensures var t := KeepaliveResolve(s); Gone(s, Left(t)) && Left(t).pendingBegin.None?
  {
    LeftIsGone(Log(s, x));
    LeftIsGone(KeepaliveResolve(s));
  }

  /** Leaving leaves nothing open; a pending start is closed unless an attempt is open. */
  lemma LeftBehind(s: State, now: nat)
    ensures var t := Step(s, AbandonEvent(now));
      Gone(s, t) && t.pendingBegin == if s.attempt.None? then None else s.pendingBegin
  {
    LeftIsGone(s);
    if s.attempt.Some? {
      ToldIsSame(s, CancelSent(s.attempt.value, TerminalNs(s, now), ByAbandon));
    } else {
      ToldIsSame(s, ResolveSent(0, true));
    }
  }

  /** And the server is told to close the pending start, or else to cancel the running attempt. */
  lemma LeavingTells(s: State, now: nat)
    ensures Step(s, AbandonEvent(now)).world.sent == s.world.sent +
           (if s.pendingBegin.Some? && s.attempt.None? then [ResolveSent(s.pendingBegin.value, true)]
            else if s.attempt.Some? && s.phase in {Starting, Capturing, Finishing, Cancelling} then
              [CancelSent(s.attempt.value, if now < s.lastCaptureNs then s.lastCaptureNs else now, ByAbandon)]
            else [])
  {
  }

  /** Hiding the page leaves as well; showing it again brings nothing back. */
  lemma HidingLeaves(s: State, now: nat)
    ensures Step(s, HideEvent(now)) == Step(s, AbandonEvent(now)).(hidden := true)
    ensures Step(s, ShowEvent) == s.(hidden := false)
  {
  }

  /** Every reply still out when the page is left comes too late. */
  lemma LeftTooLate(s: State, now: nat, w: Wait)
    requires Control(s) && w in Step(s, AbandonEvent(now)).world.waits
    ensures !Fresh(Step(s, AbandonEvent(now)), w.token)
  {
    LeftBehind(s, now);
    assert Placed(s, w);
  }

  // ----- Over whole runs -----

  /** What is shown once nothing runs: the phase, whether it is in doubt, and of which attempt. */
  datatype Shown = Shown(phase: Phase, doubt: Option<Doubt>, generation: nat, attempt: Option<nat>)

  function ShownBy(s: State): Shown { Shown(s.phase, s.doubt, s.generation, s.attempt) }

  predicate Settled(phase: Phase) { phase.Evaluated? || phase.Interrupted? || phase.Rejected? || phase.Unconfirmed? }

  /** Only the answer to a begin, a recovery, a finish or a cancel that is still current settles anything. */
  predicate Settles(s: State, e: Event) {
    (e.FinishReplyEvent? || e.CancelReplyEvent? || e.BeginReplyEvent? || e.ResolveReplyEvent?) && Fresh(s, e.token)
  }

  /** A step that settles nothing new: it shows what was shown, or something that is not settled. */
  predicate Unsettling(s: State, t: State) { Settled(t.phase) ==> ShownBy(t) == ShownBy(s) }

  lemma CancellingUnsettles(s: State, token: nat, now: nat)
    ensures Unsettling(s, PerformCancel(s, token, now)) && Unsettling(s, Cancel(s, now))
  {
  }

  lemma DrainUnsettles(s: State, token: nat, now: nat)
    ensures ShownBy(Drain(s, token, now)) == ShownBy(s) && ShownBy(Pump(s, token, now)) == ShownBy(s)
  {
  }

  lemma AppendUnsettles(s: State, token: nat, item: Message, outcome: AppendOutcome, now: nat)
    ensures Unsettling(s, AppendReply(s, token, item, outcome, now))
  {
    AppendIsOne(s, token, item, outcome, now);
    DrainUnsettles(Advance(s), token, now);
    CancellingUnsettles(Unpump(s.(queue := []), token), token, now);
  }

  lemma MountUnsettles(s: State, token: nat, a: nat, mounted: bool, connected: bool, now: nat)
    requires Alive(s, token) ==> s.phase.Starting?
    ensures Unsettling(s, MountReply(s, token, a, mounted, connected, now))
  {
    CancellingUnsettles(s.(attempt := Some(a)), token, now);
    CancellingUnsettles(Mounted(s, a), token, now);
  }

  lemma FinishUnsettles(s: State, now: nat)
    ensures Unsettling(s, Finish(s, now)) && Unsettling(s, RetryFinish(s, now))
  {
    DrainUnsettles(s.(intakeToken := s.intakeToken + 1, phase := Finishing), s.generation, now);
  }

  lemma MidiUnsettles(s: State, e: Event)
    requires Control(s) && e.MidiEvent?
    ensures Unsettling(s, Step(s, e))
  {
    MessageHeard(s, e);
  }

  lemma LateUnsettles(s: State, e: Event)
    requires WaitOf(e).Some? && !e.AppendReplyEvent? && !e.MountReplyEvent? && !Settles(s, e)
    ensures ShownBy(Step(s, e)) == ShownBy(s)
  {
  }

  lemma OnlyAnswersSettle(s: State, e: Event)
    requires Control(s) && Enabled(s, e) && !Settles(s, e)
    ensures Unsettling(s, Step(s, e))
  {
    match e
    case AppendReplyEvent(token, item, outcome, now) => AppendUnsettles(Forget(s, WaitOf(e).value), token, item, outcome, now);
    case MountReplyEvent(token, a, mounted, connected, now) =>
      assert Placed(s, WaitOf(e).value);
      MountUnsettles(Forget(s, WaitOf(e).value), token, a, mounted, connected, now);
    case MidiEvent(_, _, _, _, _, _, _) => MidiUnsettles(s, e);
    case _ =>
      if WaitOf(e).Some? {
        LateUnsettles(s, e);
      } else {
        ControlsUnsettle(s, e);
      }
  }

  lemma ControlsUnsettle(s: State, e: Event)
    requires Control(s) && WaitOf(e).None? && !e.MidiEvent?
    ensures Unsettling(s, Step(s, e))
  {
    match e
    case FinishEvent(now) => FinishUnsettles(s, now);
    case RetryFinishEvent(now) => FinishUnsettles(s, now);
    case CancelEvent(now) => CancellingUnsettles(s, s.generation, now);
    case DisconnectEvent(_, _, now) => CancellingUnsettles(s, s.generation, now);
    case AbandonEvent(now) => LeftBehind(s, now);
    case HideEvent(now) =>
      LeftBehind(s, now);
      HidingLeaves(s, now);
    case StartEvent(ready, minted, now) => StartExactly(s, ready, minted, now);
    case ResolveBeginEvent => RecoveryAsked(s);
    case ShowEvent =>
  }

  /** Of everything that happened, the answer that justifies what is shown. */
  ghost predicate Justified(events: seq<Event>, v: Shown) {
    && (v.phase.Evaluated? ==>
          v.attempt.Some? && FinishReplyEvent(v.generation, v.attempt.value, EndAccepted) in events)
    && (v.phase.Rejected? ==>
          && v.attempt.Some?
          && (FinishReplyEvent(v.generation, v.attempt.value, EndRejected) in events
              || CancelReplyEvent(v.generation, v.attempt.value, EndRejected) in events))
    && (v.phase.Interrupted? ==>
          if v.attempt.Some? then CancelReplyEvent(v.generation, v.attempt.value, EndAccepted) in events
          else exists key, pending :: Told(v.generation, key, Wrapper(pending, InterruptedStatus), events))
    && (v.phase.Unconfirmed? ==>
          match v.doubt
          case Some(DoubtFinish) => v.attempt.Some? && FinishReplyEvent(v.generation, v.attempt.value, EndUnclear) in events
          case Some(DoubtCancel) => v.attempt.Some? && CancelReplyEvent(v.generation, v.attempt.value, EndUnclear) in events
          case Some(DoubtBegin) =>
            v.attempt.None? && exists key, reply :: Doubted(v.generation, key, reply, events)
          case None => false)
  }

  /** This answer, which is no definitive refusal of a start, was delivered. */
  predicate Doubted(token: nat, key: nat, reply: GatewayReply, events: seq<Event>) {
    || (BeginReplyEvent(token, key, reply) in events && !(reply.Refusal? && reply.definitive))
    || ResolveReplyEvent(token, key, reply) in events
  }

  /** This answer to a begin or a recovery was delivered. */
  predicate Told(token: nat, key: nat, reply: GatewayReply, events: seq<Event>) {
    BeginReplyEvent(token, key, reply) in events || ResolveReplyEvent(token, key, reply) in events
  }

  lemma {:induction false} JustifiedStays(events: seq<Event>, e: Event, v: Shown)
    requires Justified(events, v)
    ensures Justified(events + [e], v)
  {
    var all := events + [e];
    assert forall x <- events :: x in all;
    if v.phase.Interrupted? && v.attempt.None? {
      var key, pending :| Told(v.generation, key, Wrapper(pending, InterruptedStatus), events);
      assert Told(v.generation, key, Wrapper(pending, InterruptedStatus), all);
    }
    if v.phase.Unconfirmed? && v.doubt == Some(DoubtBegin) {
      var key, reply :| Doubted(v.generation, key, reply, events);
      assert Doubted(v.generation, key, reply, all);
    }
  }

  lemma EndJustifies(s: State, events: seq<Event>, e: Event)
    requires Control(s) && Enabled(s, e) && (e.FinishReplyEvent? || e.CancelReplyEvent?) && Fresh(s, e.token) && e in events
    requires Step(s, e).generation == s.generation
    ensures Justified(events, ShownBy(Step(s, e)))
  {
    EndAnswered(s, e);
    assert e == if e.FinishReplyEvent? then FinishReplyEvent(e.token, e.attempt, e.end) else CancelReplyEvent(e.token, e.attempt, e.end);
  }

  lemma BeginJustifies(s: State, events: seq<Event>, e: Event)
    requires Control(s) && Enabled(s, e) && e.BeginReplyEvent? && Fresh(s, e.token) && e in events
    requires Step(s, e).generation == s.generation
    ensures Justified(events, ShownBy(Step(s, e)))
  {
    BeginAnswered(s, e);
    assert Told(e.token, e.key, e.reply, events);
    var t := Step(s, e);
    assert t.phase.Unconfirmed? ==> Doubted(e.token, e.key, e.reply, events);
    if t.phase.Interrupted? {
      assert e.reply == Wrapper(e.reply.key, InterruptedStatus);
    }
  }

  lemma RecoveryJustifies(s: State, events: seq<Event>, e: Event)
    requires Control(s) && Enabled(s, e) && e.ResolveReplyEvent? && Fresh(s, e.token) && e in events
    requires Step(s, e).generation == s.generation
    requires Justified(events, ShownBy(s))
    ensures Justified(events, ShownBy(Step(s, e)))
  {
    RecoveryAnswered(s, e);
    assert Placed(s, WaitOf(e).value);
    assert Told(e.token, e.key, e.reply, events) && Doubted(e.token, e.key, e.reply, events);
    var t := Step(s, e);
    if t.phase.Interrupted? && s.pendingBegin == Some(e.key) {
      assert e.reply == Wrapper(e.reply.key, InterruptedStatus);
    }
  }

  lemma SettlingSameGeneration(s: State, e: Event)
    requires Settles(s, e)
    ensures Step(s, e).generation == s.generation
  {
  }

  /** Whatever the interleaving, what is shown was answered: an evaluated attempt by an accepted finish of
      that attempt, a rejected one by a refused finish or cancel of it, an interrupted one by an accepted
      cancel of it or by the word of the server on a start, and a doubt by an answer that leaves it. */
  lemma {:induction false} ShownWasAnswered(events: seq<Event>)
    requires Possible(events)
    ensures Justified(events, ShownBy(Run(events)))
    decreases |events|
  {
    if events != [] {
      var earlier, e := events[..|events| - 1], events[|events| - 1];
      ShownWasAnswered(earlier);
      assert events == earlier + [e];
      ShownNext(earlier, e);
    }
  }

  lemma ShownNext(earlier: seq<Event>, e: Event)
    requires Possible(earlier) && Enabled(Run(earlier), e) && Justified(earlier, ShownBy(Run(earlier)))
    ensures Justified(earlier + [e], ShownBy(Step(Run(earlier), e)))
  {
    var s := Run(earlier);
    Reached(earlier);
    JustifiedStays(earlier, e, ShownBy(s));
    if Settles(s, e) {
      SettlingSameGeneration(s, e);
      if e.BeginReplyEvent? {
        BeginJustifies(s, earlier + [e], e);
      } else if e.ResolveReplyEvent? {
        RecoveryJustifies(s, earlier + [e], e);
      } else {
        EndJustifies(s, earlier + [e], e);
      }
    } else {
      OnlyAnswersSettle(s, e);
    }
  }

  // ----- Where captured messages come from -----

  /** A message was played as it was captured. */
  predicate Played(m: Message, e: Event) {
    e.MidiEvent? && e.usable && e.captureNs == m.captureNs && e.positionSeconds == m.positionSeconds && e.payload == m.payload
  }

  /** Every captured message was played, and the messages captured are in the order they were played: the
      last one captured by a step is the one that step heard. */
  lemma {:induction false} CapturedWasPlayed(events: seq<Event>, i: nat)
    requires Possible(events) && i < |Run(events).world.captured|
    ensures exists k | 0 <= k < |events| :: Played(Run(events).world.captured[i], events[k])
    decreases |events|
  {
    var earlier, e := events[..|events| - 1], events[|events| - 1];
    Reached(earlier);
    CapturedExactly(Run(earlier), e);
    if e.MidiEvent? {
      MessageHeard(Run(earlier), e);
    }
    if i < |Run(earlier).world.captured| {
      CapturedWasPlayed(earlier, i);
      var k :| 0 <= k < |earlier| && Played(Run(earlier).world.captured[i], earlier[k]);
      assert events[k] == earlier[k] && Run(events).world.captured[i] == Run(earlier).world.captured[i];
    } else {
      assert Played(Run(events).world.captured[i], events[|events| - 1]);
    }
  }
}
