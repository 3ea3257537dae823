/** The received-attempt client protocol as a transition system
    (web/mvp1/received_attempt_controller.js).

    The controller is single-threaded, so each run of code between two awaits is one atomic step.
    Every await leaves a `Wait` behind; its reply may come at any time, in any order, with any
    outcome. */
module AttemptModel {
  import opened Prelude

  const QUEUE_LIMIT: nat := 256

  datatype Phase =
    | Idle | Starting | Capturing | Finishing | Cancelling | Evaluated | Interrupted | Unconfirmed | Rejected

  datatype Doubt = DoubtBegin | DoubtFinish | DoubtCancel

  datatype Terminal = FinishTerminal | CancelTerminal

  datatype Message = Message(
    attempt: nat, sequence: nat, captureNs: nat, positionSeconds: real, payload: seq<int>)

  /** A suspended continuation: `token` is the generation it was started in. */
  datatype Wait =
    | BeginWait(token: nat, key: nat)
    | MountWait(token: nat, attempt: nat)
    | AppendWait(token: nat, item: Message)
    | FinishWait(token: nat, attempt: nat)
    | CancelWait(token: nat, attempt: nat)
    | ResolveWait(token: nat, key: nat)

  datatype Cause = ByAttempt | ByAbandon | ByUnmounted

  datatype Sent =
    | BeginSent(key: nat, at: nat)
    | AppendSent(item: Message)
    | FinishSent(attempt: nat, at: nat)
    | CancelSent(attempt: nat, at: nat, cause: Cause)
    | ResolveSent(key: nat, keepalive: bool)

  /** When an attempt began: the generation that asked for it and its begin time. */
  datatype Begun = Begun(token: nat, at: nat)

  /** What surrounds the controller: the replies it awaits, every request that left the page, and
      history that nothing in the controller reads. */
  datatype World = World(
    waits: multiset<Wait>,
    sent: seq<Sent>,
    captured: seq<Message>,
    begun: map<nat, Begun>,
    abandoned: set<nat>)

  /** Start keys are unique: a start's key is named by the generation that minted it. */
  datatype State = State(
    phase: Phase,
    generation: nat,
    intakeToken: nat,
    attempt: Option<nat>,
    queue: seq<Message>,
    pumping: Option<nat>,
    nextSequence: nat,
    acked: nat,
    lastCaptureNs: nat,
    terminal: Option<Terminal>,
    doubt: Option<Doubt>,
    pendingBegin: Option<nat>,
    resolving: bool,
    hidden: bool,
    world: World)

  const INITIAL := State(Idle, 0, 0, None, [], None, 0, 0, 0, None, None, None, false, false,
                         World(multiset{}, [], [], map[], {}))

  predicate Active(phase: Phase) { phase.Starting? || phase.Capturing? || phase.Finishing? || phase.Cancelling? }

  predicate Streaming(phase: Phase) { phase.Capturing? || phase.Finishing? }

  predicate Alive(s: State, token: nat) { token == s.generation && !s.hidden }

  function TerminalNs(s: State, now: nat): nat { if now >= s.lastCaptureNs then now else s.lastCaptureNs }

  function Settle(s: State, phase: Phase, doubt: Option<Doubt>): State { s.(phase := phase, doubt := doubt) }

  function Log(s: State, request: Sent): State { s.(world := s.world.(sent := s.world.sent + [request])) }

  function Await(s: State, wait: Wait): State { s.(world := s.world.(waits := s.world.waits + multiset{wait})) }

  function Forget(s: State, wait: Wait): State { s.(world := s.world.(waits := s.world.waits - multiset{wait})) }

  function Post(s: State, request: Sent, wait: Wait): State { Await(Log(s, request), wait) }

  function Begin(s: State, a: nat, b: Begun): State { s.(world := s.world.(begun := s.world.begun[a := b])) }

  function Capture(s: State, m: Message): State { s.(world := s.world.(captured := s.world.captured + [m])) }

  function Forsake(s: State, a: Option<nat>): State {
    if a.None? then s else s.(world := s.world.(abandoned := s.world.abandoned + {a.value}))
  }

  function Unpump(s: State, token: nat): State {
    if s.pumping == Some(token) then s.(pumping := None) else s
  }

  // ----- Start -----

  /** Every earlier continuation and intake is out of date from here on. */
  function NextGeneration(s: State): State { s.(generation := s.generation + 1, intakeToken := s.intakeToken + 1) }

  /** A new generation with nothing captured yet. */
  function Opened(s: State, now: nat): State {
    NextGeneration(s).(attempt := None, queue := [], nextSequence := 0, acked := 0, terminal := None, doubt := None,
                       phase := Starting, lastCaptureNs := now)
  }

  function Start(s: State, ready: bool, keyMinted: bool, now: nat): State {
    if Active(s.phase) then s
    else if s.doubt == Some(DoubtFinish) || s.doubt == Some(DoubtBegin) || s.pendingBegin.Some? then s
    else if !ready then s
    else
      var next := Opened(s, now);
      var token := next.generation;
      if !keyMinted then Settle(next, Idle, None)
      else Post(next.(pendingBegin := Some(token)), BeginSent(token, now), BeginWait(token, token))
  }

  function KeepaliveResolve(s: State): State {
    if s.pendingBegin.None? then s
    else Log(s, ResolveSent(s.pendingBegin.value, true)).(pendingBegin := None)
  }

  datatype GatewayStatus = PendingStatus | NoAttemptStatus | InterruptedStatus | StartedStatus(attempt: nat)

  /** A reply to a start or a recovery: refused, unreadable, or a well-formed wrapper for some key. */
  datatype GatewayReply = Refusal(definitive: bool) | Unreadable | Wrapper(key: nat, status: GatewayStatus)

  predicate Accepted(s: State, reply: GatewayReply) { reply.Wrapper? && s.pendingBegin == Some(reply.key) }

  function BeginReply(s: State, token: nat, reply: GatewayReply): State {
    if !Alive(s, token) then KeepaliveResolve(s)
    else if reply.Refusal? then
      if reply.definitive then Settle(s.(pendingBegin := None), Idle, None)
      else Settle(s, Unconfirmed, Some(DoubtBegin))
    else if !Accepted(s, reply) then Settle(s, Unconfirmed, Some(DoubtBegin))
    else match reply.status
      case PendingStatus => Settle(s, Unconfirmed, Some(DoubtBegin))
      case NoAttemptStatus => Settle(s.(pendingBegin := None), Idle, None)
      case InterruptedStatus => Settle(s.(pendingBegin := None), Interrupted, None)
      case StartedStatus(a) =>
        Await(Begin(s.(pendingBegin := None), a, Begun(token, s.lastCaptureNs)), MountWait(token, a))
  }

  function Mounted(s: State, a: nat): State {
    s.(attempt := Some(a), phase := Capturing, intakeToken := s.intakeToken + 1)
  }

  function MountReply(s: State, token: nat, a: nat, mounted: bool, connected: bool, now: nat): State {
    if !Alive(s, token) then Log(s, CancelSent(a, now, ByUnmounted))
    else if !mounted then PerformCancel(s.(attempt := Some(a)), token, now)
    else
      if connected then Mounted(s, a) else Cancel(Mounted(s, a), now)
  }

  // ----- Capture and the pump -----

  function OnMidi(s: State, mine: nat, token: nat, usable: bool, captureNs: nat, positionSeconds: real,
                  payload: seq<int>, now: nat): State
  {
    if mine != s.intakeToken || !Alive(s, token) || !s.phase.Capturing? || s.attempt.None? || !usable then s
    else if |s.queue| >= QUEUE_LIMIT then Cancel(s, now)
    else
      var m := Message(s.attempt.value, s.nextSequence, captureNs, positionSeconds, payload);
      Pump(Enqueue(s, m), token, now)
  }

  function Enqueue(s: State, m: Message): State {
    Capture(s, m).(nextSequence := s.nextSequence + 1, queue := s.queue + [m],
                   lastCaptureNs := if m.captureNs > s.lastCaptureNs then m.captureNs else s.lastCaptureNs)
  }

  function Pump(s: State, token: nat, now: nat): State {
    if s.pumping == Some(token) then s else Drain(s.(pumping := Some(token)), token, now)
  }

  /** One turn of the pump's loop: send the head of the queue, or stop and perhaps finish. */
  function Drain(s: State, token: nat, now: nat): State {
    if s.queue != [] && Alive(s, token) && Streaming(s.phase) then
      Post(s, AppendSent(s.queue[0]), AppendWait(token, s.queue[0]))
    else
      var idle := Unpump(s, token);
      if Alive(s, token) && s.phase.Finishing? && s.queue == [] && s.terminal.None?
      then SubmitFinish(idle, token, now) else idle
  }

  datatype AppendOutcome = Acknowledged(count: nat) | NotAcknowledged

  /** The head of the queue was acknowledged. */
  function Advance(s: State): State {
    s.(queue := if s.queue == [] then [] else s.queue[1..], acked := s.acked + 1)
  }

  function AppendReply(s: State, token: nat, item: Message, outcome: AppendOutcome, now: nat): State {
    if !Alive(s, token) || s.attempt != Some(item.attempt) then Unpump(s, token)
    else if !Streaming(s.phase) then Unpump(s, token)
    else if outcome != Acknowledged(s.acked + 1) then
      PerformCancel(Unpump(s.(queue := []), token), token, now)
    else Drain(Advance(s), token, now)
  }

  // ----- Ending -----

  function SubmitFinish(s: State, token: nat, now: nat): State {
    if s.attempt.None? then s
    else
      Post(s.(terminal := Some(FinishTerminal)), FinishSent(s.attempt.value, TerminalNs(s, now)),
           FinishWait(token, s.attempt.value))
  }

  function Finish(s: State, now: nat): State {
    if !s.phase.Capturing? || s.terminal.Some? then s
    else Pump(s.(intakeToken := s.intakeToken + 1, phase := Finishing), s.generation, now)
  }

  datatype EndOutcome = EndRejected | EndUnclear | EndAccepted

  function FinishReply(s: State, token: nat, outcome: EndOutcome): State {
    if !Alive(s, token) then s
    else match outcome
      case EndRejected => Settle(s, Rejected, None)
      case EndUnclear => Settle(s, Unconfirmed, Some(DoubtFinish))
      case EndAccepted => Settle(s, Evaluated, None)
  }

  function RetryFinish(s: State, now: nat): State {
    if !s.phase.Unconfirmed? || s.doubt != Some(DoubtFinish) || s.attempt.None? then s
    else SubmitFinish(s.(terminal := None, phase := Finishing), s.generation, now)
  }

  function Cancel(s: State, now: nat): State {
    if s.terminal.Some? then s
    else if !s.phase.Capturing? && !s.phase.Finishing? && !s.phase.Starting? then s
    else if s.attempt.None? then
      NextGeneration(s).(phase := Idle)
    else PerformCancel(s, s.generation, now)
  }

  function PerformCancel(s: State, token: nat, now: nat): State {
    if s.terminal.Some? || s.attempt.None? then s
    else
      Post(s.(intakeToken := s.intakeToken + 1, queue := [], phase := Cancelling, terminal := Some(CancelTerminal)),
           CancelSent(s.attempt.value, TerminalNs(s, now), ByAttempt), CancelWait(token, s.attempt.value))
  }

  function CancelReply(s: State, token: nat, outcome: EndOutcome): State {
    if !Alive(s, token) then s
    else match outcome
      case EndRejected => Settle(s, Rejected, None)
      case EndUnclear => Settle(s, Unconfirmed, Some(DoubtCancel))
      case EndAccepted => Settle(s, Interrupted, None)
  }

  /** The MIDI port went away. */
  function Disconnect(s: State, mine: nat, token: nat, now: nat): State {
    if mine != s.intakeToken || !Alive(s, token) || !(s.phase.Capturing? || s.phase.Starting?) then s
    else Cancel(s, now)
  }

  // ----- Recovery and leaving -----

  function ResolveBegin(s: State): State {
    if s.pendingBegin.None? || s.resolving || s.doubt != Some(DoubtBegin) then s
    else Post(s.(resolving := true), ResolveSent(s.pendingBegin.value, false),
              ResolveWait(s.generation, s.pendingBegin.value))
  }

  function ResolveReply(s: State, token: nat, key: nat, reply: GatewayReply): State {
    var done := s.(resolving := false);
    if !Alive(s, token) || s.pendingBegin != Some(key) then done
    else if !Accepted(s, reply) || reply.status.PendingStatus? || reply.status.StartedStatus? then
      Settle(done, Unconfirmed, Some(DoubtBegin))
    else if reply.status.NoAttemptStatus? then Settle(done.(pendingBegin := None), Idle, None)
    else Settle(done.(pendingBegin := None), Interrupted, None)
  }

  /** Nothing is open any more. */
  function Closed(s: State): State {
    Forsake(s, s.attempt).(attempt := None, terminal := None, doubt := None, phase := Idle)
  }

  /** A new generation with nothing open. */
  function Left(s: State): State { Closed(NextGeneration(s).(queue := [])) }

  function Abandon(s: State, now: nat): State {
    if s.pendingBegin.Some? && s.attempt.None? then Left(KeepaliveResolve(s))
    else if s.attempt.Some? && Active(s.phase) then
      Left(Log(s, CancelSent(s.attempt.value, TerminalNs(s, now), ByAbandon)))
    else Left(s)
  }

  /** Leaving the page hides it and abandons in the same handler (web/mvp1/lesson_practice.js:555-562). */
  function PageHide(s: State, now: nat): State { Abandon(s, now).(hidden := true) }

  // ----- Steps and runs -----

  datatype Event =
    | StartEvent(ready: bool, keyMinted: bool, now: nat)
    | BeginReplyEvent(token: nat, key: nat, reply: GatewayReply)
    | MountReplyEvent(token: nat, attempt: nat, mounted: bool, connected: bool, now: nat)
    | MidiEvent(mine: nat, token: nat, usable: bool, captureNs: nat, positionSeconds: real, payload: seq<int>, now: nat)
    | AppendReplyEvent(token: nat, item: Message, outcome: AppendOutcome, now: nat)
    | FinishEvent(now: nat)
    | FinishReplyEvent(token: nat, attempt: nat, end: EndOutcome)
    | RetryFinishEvent(now: nat)
    | CancelEvent(now: nat)
    | CancelReplyEvent(token: nat, attempt: nat, end: EndOutcome)
    | DisconnectEvent(mine: nat, token: nat, now: nat)
    | ResolveBeginEvent
    | ResolveReplyEvent(token: nat, key: nat, reply: GatewayReply)
    | AbandonEvent(now: nat)
    | HideEvent(now: nat)
    | ShowEvent

  function WaitOf(e: Event): Option<Wait> {
    match e
    case BeginReplyEvent(t, k, _) => Some(BeginWait(t, k))
    case MountReplyEvent(t, a, _, _, _) => Some(MountWait(t, a))
    case AppendReplyEvent(t, m, _, _) => Some(AppendWait(t, m))
    case FinishReplyEvent(t, a, _) => Some(FinishWait(t, a))
    case CancelReplyEvent(t, a, _) => Some(CancelWait(t, a))
    case ResolveReplyEvent(t, k, _) => Some(ResolveWait(t, k))
    case _ => None
  }

  /** A reply needs its request outstanding; a server never starts the same attempt twice. */
  predicate Enabled(s: State, e: Event) {
    && (WaitOf(e).Some? ==> WaitOf(e).value in s.world.waits)
    && (e.BeginReplyEvent? && e.reply.Wrapper? && e.reply.status.StartedStatus? ==> e.reply.status.attempt !in s.world.begun)
  }

  function Step(s: State, e: Event): State {
    var t := if WaitOf(e).Some? then Forget(s, WaitOf(e).value) else s;
    match e
    case StartEvent(ready, minted, now) => Start(t, ready, minted, now)
    case BeginReplyEvent(token, _, reply) => BeginReply(t, token, reply)
    case MountReplyEvent(token, a, mounted, connected, now) => MountReply(t, token, a, mounted, connected, now)
    case MidiEvent(mine, token, usable, ns, position, payload, now) =>
      OnMidi(t, mine, token, usable, ns, position, payload, now)
    case AppendReplyEvent(token, item, outcome, now) => AppendReply(t, token, item, outcome, now)
    case FinishEvent(now) => Finish(t, now)
    case FinishReplyEvent(token, _, end) => FinishReply(t, token, end)
    case RetryFinishEvent(now) => RetryFinish(t, now)
    case CancelEvent(now) => Cancel(t, now)
    case CancelReplyEvent(token, _, end) => CancelReply(t, token, end)
    case DisconnectEvent(mine, token, now) => Disconnect(t, mine, token, now)
    case ResolveBeginEvent => ResolveBegin(t)
    case ResolveReplyEvent(token, key, reply) => ResolveReply(t, token, key, reply)
    case AbandonEvent(now) => Abandon(t, now)
    case HideEvent(now) => PageHide(t, now)
    case ShowEvent => t.(hidden := false)
  }

  function Run(events: seq<Event>): State {
    if events == [] then INITIAL else Step(Run(events[..|events| - 1]), events[|events| - 1])
  }

  /** Every interleaving of page events and replies. */
  predicate Possible(events: seq<Event>) {
    events != [] ==>
      && Possible(events[..|events| - 1])
      && Enabled(Run(events[..|events| - 1]), events[|events| - 1])
  }
}
