/** The controller object, one method per synchronous run of the source's code. Each method is
    tied to the step of `AttemptModel` it implements. */
module AttemptControllers {
  import opened Prelude
  import M = AttemptModel
  import I = AttemptInvariant
  import P = AttemptPreservation

  class AttemptController {
    var phase: M.Phase
    var generation: nat
    var intakeToken: nat
    var attempt: Option<nat>
    var queue: seq<M.Message>
    var pumping: Option<nat>
    var nextSequence: nat
    var acked: nat
    var lastCaptureNs: nat
    var terminal: Option<M.Terminal>
    var doubt: Option<M.Doubt>
    var pendingBegin: Option<nat>
    var resolving: bool
    var hidden: bool
    /** Requests that left the page, the replies still awaited, and history. */
    var world: M.World

    ghost function State(): M.State
      reads this
    {
      M.State(phase, generation, intakeToken, attempt, queue, pumping, nextSequence, acked, lastCaptureNs, terminal,
              doubt, pendingBegin, resolving, hidden, world)
    }

    /** The object is in a state some interleaving of events could have left it in, as far as the
        protocol's invariant can tell. */
    ghost predicate Valid()
      reads this
    {
      I.Inv(State())
    }

    constructor ()
      ensures State() == M.INITIAL && Valid()
    {
      phase, generation, intakeToken, attempt := M.Idle, 0, 0, None;
      queue, pumping, nextSequence, acked, lastCaptureNs := [], None, 0, 0, 0;
      terminal, doubt, pendingBegin, resolving, hidden := None, None, None, false, false;
      world := M.World(multiset{}, [], [], map[], {});
    }

    /** Sends a request and suspends on its reply. */
    method Post(request: M.Sent, wait: M.Wait)
      modifies this`world
      ensures State() == M.Post(old(State()), request, wait)
    {
      Log(request);
      Await(wait);
    }

    method Log(request: M.Sent)
      modifies this`world
      ensures State() == M.Log(old(State()), request)
    {
      world := world.(sent := world.sent + [request]);
    }

    method Await(wait: M.Wait)
      modifies this`world
      ensures State() == M.Await(old(State()), wait)
    {
      world := world.(waits := world.waits + multiset{wait});
    }

    /** The reply to `wait` has come. */
    method Resume(wait: M.Wait)
      requires wait in world.waits
      modifies this`world
      ensures State() == M.Forget(old(State()), wait)
    {
      world := world.(waits := world.waits - multiset{wait});
    }

    method Settle(next: M.Phase, kind: Option<M.Doubt>)
      modifies this`phase, this`doubt
      ensures State() == M.Settle(old(State()), next, kind)
    {
      phase, doubt := next, kind;
    }

    method StopIntake()
      modifies this`intakeToken
      ensures intakeToken == old(intakeToken) + 1
    {
      intakeToken := intakeToken + 1;
    }

    predicate Alive(token: nat)
      reads this
      ensures Alive(token) == M.Alive(State(), token)
    {
      token == generation && !hidden
    }

    method TerminalNs(now: nat) returns (at: nat)
      ensures at == M.TerminalNs(State(), now)
    {
      at := if now >= lastCaptureNs then now else lastCaptureNs;
    }

    method NextGeneration()
      modifies this`generation, this`intakeToken
      ensures State() == M.NextGeneration(old(State()))
    {
      generation := generation + 1;
      StopIntake();
    }

    method Open(now: nat)
      modifies this
      ensures State() == M.Opened(old(State()), now)
    {
      NextGeneration();
      attempt, queue, nextSequence, acked, terminal, doubt := None, [], 0, 0, None, None;
      phase, lastCaptureNs := M.Starting, now;
    }

    method Start(ready: bool, keyMinted: bool, now: nat)
      modifies this
      ensures State() == M.Start(old(State()), ready, keyMinted, now)
    {
      if M.Active(phase) {
        return;
      }
      if doubt == Some(M.DoubtFinish) || doubt == Some(M.DoubtBegin) || pendingBegin.Some? {
        return;
      }
      if !ready {
        return;
      }
      Open(now);
      if !keyMinted {
        Settle(M.Idle, None);
        return;
      }
      pendingBegin := Some(generation);
      Post(M.BeginSent(generation, now), M.BeginWait(generation, generation));
    }

    method KeepaliveResolve()
      modifies this`pendingBegin, this`world
      ensures State() == M.KeepaliveResolve(old(State()))
    {
      if pendingBegin.None? {
        return;
      }
      Log(M.ResolveSent(pendingBegin.value, true));
      pendingBegin := None;
    }

    method BeginReply(token: nat, key: nat, reply: M.GatewayReply)
      requires M.BeginWait(token, key) in world.waits
      modifies this
      ensures State() == M.BeginReply(M.Forget(old(State()), M.BeginWait(token, key)), token, reply)
    {
      Resume(M.BeginWait(token, key));
      if !Alive(token) {
        KeepaliveResolve();
        return;
      }
      if reply.Refusal? {
        if reply.definitive {
          pendingBegin := None;
          Settle(M.Idle, None);
        } else {
          Settle(M.Unconfirmed, Some(M.DoubtBegin));
        }
        return;
      }
      if reply.Unreadable? || pendingBegin != Some(reply.key) || reply.status.PendingStatus? {
        Settle(M.Unconfirmed, Some(M.DoubtBegin));
        return;
      }
      pendingBegin := None;
      match reply.status
      case NoAttemptStatus => Settle(M.Idle, None);
      case InterruptedStatus => Settle(M.Interrupted, None);
      case StartedStatus(a) =>
        world := world.(begun := world.begun[a := M.Begun(token, lastCaptureNs)]);
        Await(M.MountWait(token, a));
    }

    method MountReply(token: nat, a: nat, mounted: bool, connected: bool, now: nat)
      requires M.MountWait(token, a) in world.waits
      modifies this
      ensures State() == M.MountReply(M.Forget(old(State()), M.MountWait(token, a)), token, a, mounted, connected, now)
    {
      Resume(M.MountWait(token, a));
      if !Alive(token) {
        Log(M.CancelSent(a, now, M.ByUnmounted));
        return;
      }
      if !mounted {
        attempt := Some(a);
        PerformCancel(token, now);
        return;
      }
      Mounted(a);
      if !connected {
        Cancel(now);
      }
    }

    method Mounted(a: nat)
      modifies this`attempt, this`phase, this`intakeToken
      ensures State() == M.Mounted(old(State()), a)
    {
      attempt := Some(a);
      phase := M.Capturing;
      StopIntake();
    }

    method OnMidi(mine: nat, token: nat, usable: bool, captureNs: nat, positionSeconds: real, payload: seq<int>, now: nat)
      modifies this
      ensures State() == M.OnMidi(old(State()), mine, token, usable, captureNs, positionSeconds, payload, now)
    {
      if mine != intakeToken || !Alive(token) || phase != M.Capturing || attempt.None? || !usable {
        return;
      }
      if |queue| >= M.QUEUE_LIMIT {
        Cancel(now);
        return;
      }
      Enqueue(M.Message(attempt.value, nextSequence, captureNs, positionSeconds, payload));
      Pump(token, now);
    }

    method Enqueue(message: M.Message)
      modifies this`nextSequence, this`lastCaptureNs, this`queue, this`world
      ensures State() == M.Enqueue(old(State()), message)
    {
      nextSequence := nextSequence + 1;
      if message.captureNs > lastCaptureNs {
        lastCaptureNs := message.captureNs;
      }
      queue := queue + [message];
      world := world.(captured := world.captured + [message]);
    }

    method Pump(token: nat, now: nat)
      modifies this
      ensures State() == M.Pump(old(State()), token, now)
    {
      if pumping == Some(token) {
        return;
      }
      pumping := Some(token);
      Drain(token, now);
    }

    /** From the head of the pump's loop to its next await, or to its end. */
    method Drain(token: nat, now: nat)
      modifies this
      ensures State() == M.Drain(old(State()), token, now)
    {
      if |queue| > 0 && Alive(token) && M.Streaming(phase) {
        Post(M.AppendSent(queue[0]), M.AppendWait(token, queue[0]));
        return;
      }
      Unpump(token);
      if Alive(token) && phase == M.Finishing && |queue| == 0 && terminal.None? {
        SubmitFinish(token, now);
      }
    }

    method Unpump(token: nat)
      modifies this`pumping
      ensures State() == M.Unpump(old(State()), token)
    {
      if pumping == Some(token) {
        pumping := None;
      }
    }

    method AppendReply(token: nat, item: M.Message, outcome: M.AppendOutcome, now: nat)
      requires M.AppendWait(token, item) in world.waits
      modifies this
      ensures State() == M.AppendReply(M.Forget(old(State()), M.AppendWait(token, item)), token, item, outcome, now)
    {
      Resume(M.AppendWait(token, item));
      if !Alive(token) || attempt != Some(item.attempt) || !M.Streaming(phase) {
        Unpump(token);
        return;
      }
      if outcome != M.Acknowledged(acked + 1) {
        queue := [];
        Unpump(token);
        PerformCancel(token, now);
        return;
      }
      Advance(outcome.count);
      Drain(token, now);
    }

    method Advance(count: nat)
      requires count == acked + 1
      modifies this`queue, this`acked
      ensures State() == M.Advance(old(State()))
    {
      if queue != [] {
        queue := queue[1..];
      }
      acked := count;
    }

    method Finish(now: nat)
      modifies this
      ensures State() == M.Finish(old(State()), now)
    {
      if phase != M.Capturing || terminal.Some? {
        return;
      }
      StopIntake();
      phase := M.Finishing;
      Pump(generation, now);
    }

    method SubmitFinish(token: nat, now: nat)
      modifies this
      ensures State() == M.SubmitFinish(old(State()), token, now)
    {
      if attempt.None? {
        return;
      }
      var at := TerminalNs(now);
      terminal := Some(M.FinishTerminal);
      Post(M.FinishSent(attempt.value, at), M.FinishWait(token, attempt.value));
    }

    method FinishReply(token: nat, a: nat, outcome: M.EndOutcome)
      requires M.FinishWait(token, a) in world.waits
      modifies this
      ensures State() == M.FinishReply(M.Forget(old(State()), M.FinishWait(token, a)), token, outcome)
    {
      Resume(M.FinishWait(token, a));
      if !Alive(token) {
        return;
      }
      match outcome
      case EndRejected => Settle(M.Rejected, None);
      case EndUnclear => Settle(M.Unconfirmed, Some(M.DoubtFinish));
      case EndAccepted =>
        doubt := None;
        phase := M.Evaluated;
    }

    method RetryFinish(now: nat)
      modifies this
      ensures State() == M.RetryFinish(old(State()), now)
    {
      if phase != M.Unconfirmed || doubt != Some(M.DoubtFinish) || attempt.None? {
        return;
      }
      terminal := None;
      phase := M.Finishing;
      SubmitFinish(generation, now);
    }

    method Cancel(now: nat)
      modifies this
      ensures State() == M.Cancel(old(State()), now)
    {
      if terminal.Some? {
        return;
      }
      if phase != M.Capturing && phase != M.Finishing && phase != M.Starting {
        return;
      }
      if attempt.None? {
        NextGeneration();
        phase := M.Idle;
        return;
      }
      PerformCancel(generation, now);
    }

    method PerformCancel(token: nat, now: nat)
      modifies this
      ensures State() == M.PerformCancel(old(State()), token, now)
    {
      if terminal.Some? || attempt.None? {
        return;
      }
      StopIntake();
      queue, phase := [], M.Cancelling;
      var at := TerminalNs(now);
      terminal := Some(M.CancelTerminal);
      Post(M.CancelSent(attempt.value, at, M.ByAttempt), M.CancelWait(token, attempt.value));
    }

    method CancelReply(token: nat, a: nat, outcome: M.EndOutcome)
      requires M.CancelWait(token, a) in world.waits
      modifies this
      ensures State() == M.CancelReply(M.Forget(old(State()), M.CancelWait(token, a)), token, outcome)
    {
      Resume(M.CancelWait(token, a));
      if !Alive(token) {
        return;
      }
      match outcome
      case EndRejected => Settle(M.Rejected, None);
      case EndUnclear => Settle(M.Unconfirmed, Some(M.DoubtCancel));
      case EndAccepted =>
        doubt := None;
        phase := M.Interrupted;
    }

    method Disconnect(mine: nat, token: nat, now: nat)
      modifies this
      ensures State() == M.Disconnect(old(State()), mine, token, now)
    {
      if mine != intakeToken || !Alive(token) {
        return;
      }
      if phase == M.Capturing || phase == M.Starting {
        Cancel(now);
      }
    }

    method ResolveBegin()
      modifies this
      ensures State() == M.ResolveBegin(old(State()))
    {
      if pendingBegin.None? || resolving || doubt != Some(M.DoubtBegin) {
        return;
      }
      resolving := true;
      Post(M.ResolveSent(pendingBegin.value, false), M.ResolveWait(generation, pendingBegin.value));
    }

    method ResolveReply(token: nat, key: nat, reply: M.GatewayReply)
      requires M.ResolveWait(token, key) in world.waits
      modifies this
      ensures State() == M.ResolveReply(M.Forget(old(State()), M.ResolveWait(token, key)), token, key, reply)
    {
      Resume(M.ResolveWait(token, key));
      resolving := false;
      if !Alive(token) || pendingBegin != Some(key) {
        return;
      }
      if !reply.Wrapper? || reply.key != key || reply.status.PendingStatus? || reply.status.StartedStatus? {
        Settle(M.Unconfirmed, Some(M.DoubtBegin));
        return;
      }
      pendingBegin := None;
      if reply.status.NoAttemptStatus? {
        Settle(M.Idle, None);
      } else {
        Settle(M.Interrupted, None);
      }
    }

    method Abandon(now: nat)
      modifies this
      ensures State() == M.Abandon(old(State()), now)
    {
      var open := M.Active(phase);
      NextGeneration();
      queue := [];
      if pendingBegin.Some? && attempt.None? {
        KeepaliveResolve();
      } else if attempt.Some? && open {
        var at := TerminalNs(now);
        Log(M.CancelSent(attempt.value, at, M.ByAbandon));
      }
      Close();
    }

    method Close()
      modifies this
      ensures State() == M.Closed(old(State()))
    {
      if attempt.Some? {
        world := world.(abandoned := world.abandoned + {attempt.value});
      }
      attempt, terminal, doubt, phase := None, None, None, M.Idle;
    }

    method PageHide(now: nat)
      modifies this
      ensures State() == M.PageHide(old(State()), now)
    {
      Abandon(now);
      hidden := true;
    }

    method PageShow()
      modifies this`hidden
      ensures State() == M.Step(old(State()), M.ShowEvent)
    {
      hidden := false;
    }

    /** Any enabled event leaves a valid object valid. Its queue never exceeds the limit, and while
        an attempt is open it is exactly the captured messages not yet acknowledged. */
    method Handle(e: M.Event)
      requires Valid() && M.Enabled(State(), e)
      modifies this
      ensures Valid() && State() == M.Step(old(State()), e)
      ensures |queue| <= 256
      ensures I.Live(State()) ==>
        acked <= nextSequence && queue == I.Captures(world.captured, attempt.value)[acked..]
      ensures queue != [] ==> I.Live(State())
    {
      ghost var before := State();
      Dispatch(e);
      P.StepKeeps(before, e);
      P.SameState(M.Step(before, e), State());
      OpenQueue(State());
    }

    /** The method that implements an event's step. */
    method Dispatch(e: M.Event)
      requires M.Enabled(State(), e)
      modifies this
      ensures State() == M.Step(old(State()), e)
    {
      match e
      case StartEvent(ready, minted, now) => Start(ready, minted, now);
      case BeginReplyEvent(token, key, reply) => BeginReply(token, key, reply);
      case MountReplyEvent(token, a, mounted, connected, now) => MountReply(token, a, mounted, connected, now);
      case MidiEvent(mine, token, usable, ns, position, payload, now) =>
        OnMidi(mine, token, usable, ns, position, payload, now);
      case AppendReplyEvent(token, item, outcome, now) => AppendReply(token, item, outcome, now);
      case FinishEvent(now) => Finish(now);
      case FinishReplyEvent(token, a, end) => FinishReply(token, a, end);
      case RetryFinishEvent(now) => RetryFinish(now);
      case CancelEvent(now) => Cancel(now);
      case CancelReplyEvent(token, a, end) => CancelReply(token, a, end);
      case DisconnectEvent(mine, token, now) => Disconnect(mine, token, now);
      case ResolveBeginEvent => ResolveBegin();
      case ResolveReplyEvent(token, key, reply) => ResolveReply(token, key, reply);
      case AbandonEvent(now) => Abandon(now);
      case HideEvent(now) => PageHide(now);
      case ShowEvent => PageShow();
    }
  }

  lemma OpenQueue(s: M.State)
    requires I.Inv(s)
    ensures |s.queue| <= 256 && (s.queue != [] ==> I.Live(s))
    ensures I.Live(s) ==>
      && s.acked <= |I.Captures(s.world.captured, s.attempt.value)| == s.nextSequence
      && s.queue == I.Captures(s.world.captured, s.attempt.value)[s.acked..]
  {
  }
}
