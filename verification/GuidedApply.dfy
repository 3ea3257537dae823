/** Clicking Apply against the recording service: the runtime action of an attempt succeeds at
    most once, whatever becomes of its evidence and in whatever order answers arrive. */
module GuidedApply {
  import opened Prelude
  import opened EducationContracts
  import opened GuidedSession
  import opened GuidedSessionLaws
  import opened GuidedClient

  /** The button, the sessions the service holds by id, what it answered to the recording in flight
      if that has reached it, the recordings that the page gave up before they did, and its answers to
      other requests that the page has not seen yet. */
  datatype Desk = Desk(
    button: Button, server: map<string, Session>, arrived: Option<Outcome>, late: multiset<Call>,
    replies: multiset<Session>)

  /** A recording may be lost before it reaches the service, reach it after the page gave it up, or lose its
      answer on the way back. Each other request is answered once, and its answer may be shown at any later
      time or never. */
  datatype Event =
    | ClickEvent(runtime: Runtime)
    | ReachEvent
    | AnswerEvent(answered: bool)
    | LateEvent(call: Call)
    | ServeEvent(id: string, op: Operation)
    | OpenEvent(first: Creation)
    | DeliverEvent(reply: Session)
    | ClearEvent

  /** What the service answers to a recording. */
  function Record(d: Desk, call: Call): Outcome {
    if call.session in d.server then Execute(d.server[call.session], call.status, call.executed) else Refused(NoAttempt)
  }

  /** The service moves one session on. */
  function Moved(d: Desk, id: string, t: Session): Desk { d.(server := d.server[id := t]) }

  /** An answer sets out for the page. */
  function Answering(d: Desk, t: Session): Desk { d.(replies := d.replies + multiset{t}) }

  function Delivered(d: Desk, reply: Session): Desk {
    d.(button := Showing(d.button, Some(reply)), replies := d.replies - multiset{reply})
  }

  function Arrived(d: Desk, outcome: Outcome): Desk { d.(arrived := Some(outcome)) }

  function Over(d: Desk, updated: Option<Session>): Desk {
    d.(button := Answered(d.button, updated), arrived := None,
       late := if d.button.inFlight.Some? && d.arrived.None? then d.late + multiset{d.button.inFlight.value} else d.late)
  }

  function Gone(d: Desk, call: Call): Desk { d.(late := d.late - multiset{call}) }

  function Cleared(d: Desk): Desk { d.(button := Showing(d.button, None)) }

  function Step(d: Desk, e: Event): Desk {
    match e
    case ClickEvent(runtime) => d.(button := Clicked(d.button, runtime))
    case ReachEvent =>
      if d.button.inFlight.None? || d.arrived.Some? then d
      else
        var call := d.button.inFlight.value;
        if Record(d, call).Done? then Arrived(Moved(d, call.session, Record(d, call).session), Record(d, call))
        else Arrived(d, Record(d, call))
    case AnswerEvent(answered) =>
      if d.button.inFlight.None? then d
      else Over(d, if answered && d.arrived.Some? && d.arrived.value.Done? then Some(d.arrived.value.session) else None)
    case LateEvent(call) =>
      if call !in d.late then d
      else if Record(d, call).Done? then Moved(Gone(d, call), call.session, Record(d, call).session)
      else Gone(d, call)
    case ServeEvent(id, op) =>
      if id !in d.server || !Perform(d.server[id], op).Done? then d
      else
        var t := Perform(d.server[id], op).session;
        // The page puts the answer to leaving aside; any other answer may be shown.
        if op.Leaving? then Moved(d, id, t) else Answering(Moved(d, id, t), t)
    case OpenEvent(first) =>
      var outcome := Create(first.e, first.g, first.id, first.attemptId, first.context);
      if first.id !in d.server && outcome.Done? then Answering(Moved(d, first.id, outcome.session), outcome.session) else d
    case DeliverEvent(reply) => if reply in d.replies then Delivered(d, reply) else d
    case ClearEvent => Cleared(d)
  }

  const INITIAL := Desk(Button(None, None, {}, []), map[], None, multiset{}, multiset{})

  function Run(events: seq<Event>): Desk {
    if events == [] then INITIAL else Step(Run(events[..|events| - 1]), events[|events| - 1])
  }

  ghost predicate ValidEvent(e: Event) {
    match e
    case ServeEvent(_, op) => ValidOperation(op)
    case OpenEvent(first) => EvidenceOk(first.e, first.g, first.context)
    case _ => true
  }

  // ----- One attempt in one session -----

  /** The attempt's action waits to be applied. */
  ghost predicate Applicable(s: Session, attempt: string) {
    exists a <- s.attempts :: a.id == attempt && a.action.disposition.Accepted? && a.action.execution.Requested?
  }

  ghost predicate Undecided(s: Session, attempt: string) {
    exists a <- s.attempts :: a.id == attempt && a.action.disposition.Undecided?
  }

  ghost predicate Decided(s: Session, attempt: string) {
    exists a <- s.attempts :: a.id == attempt && !a.action.disposition.Undecided?
  }

  /** The attempt is there and its action can no longer be applied. */
  ghost predicate Spent(s: Session, attempt: string) { exists a <- s.attempts :: a.id == attempt && Resolved(a.action) }

  lemma OneAttempt(s: Session, x: Attempt, y: Attempt)
    requires SessionOk(s) && x in s.attempts && y in s.attempts && x.id == y.id
    ensures x == y
  {
    var i :| 0 <= i < |s.attempts| && s.attempts[i] == x;
    var j :| 0 <= j < |s.attempts| && s.attempts[j] == y;
    assert i == j;
  }

  lemma Exclusive(s: Session, attempt: string)
    requires SessionOk(s)
    ensures !(Applicable(s, attempt) && Spent(s, attempt))
    ensures !(Undecided(s, attempt) && Decided(s, attempt))
  {
    forall x <- s.attempts, y <- s.attempts | x.id == y.id
      ensures x == y
    {
      OneAttempt(s, x, y);
    }
  }

  /** What an earlier session of the same history can say about an attempt. */
  lemma PastSays(s: Session, t: Session, attempt: string)
    requires Continues(s, t) && SessionOk(t)
    ensures Decided(s, attempt) ==> Decided(t, attempt)
    ensures Spent(s, attempt) ==> Spent(t, attempt)
    ensures Applicable(s, attempt) ==> Decided(t, attempt) && !Undecided(t, attempt)
  {
    forall a <- s.attempts | a.id == attempt
      ensures exists b <- t.attempts :: b.id == attempt && Kept(a, b)
    {
      var i :| 0 <= i < |s.attempts| && s.attempts[i] == a;
      assert Kept(s.attempts[i], t.attempts[i]);
    }
    Exclusive(t, attempt);
  }

  /** Only the last attempt of a session can be applicable. */
  lemma ApplicableIsLast(t: Session, attempt: string)
    requires Lifecycle(t) && Applicable(t, attempt)
    ensures t.attempts[|t.attempts| - 1].id == attempt && Last(t).disposition.Accepted? && Last(t).execution.Requested?
  {
    var a :| a in t.attempts && a.id == attempt && a.action.disposition.Accepted? && a.action.execution.Requested?;
    var i :| 0 <= i < |t.attempts| && t.attempts[i] == a;
  }

  lemma LastUndecided(s: Session, attempt: string)
    requires s.attempts != [] && s.attempts[|s.attempts| - 1].id == attempt && Last(s).disposition.Undecided?
    ensures Undecided(s, attempt)
  {
    assert s.attempts[|s.attempts| - 1] in s.attempts;
  }

  lemma DecidingOffers(s: Session, d: Disposition, attempt: string)
    requires Consistent(s) && Decide(s, d).Done?
    requires Lifecycle(Decide(s, d).session) && Applicable(Decide(s, d).session, attempt)
    ensures Undecided(s, attempt)
  {
    ApplicableIsLast(Decide(s, d).session, attempt);
    DecisionRecorded(s, d);
    LastKept(s, Decide(s, d).session);
    LastUndecided(s, attempt);
  }

  lemma AppendingOffersNothing(s: Session, op: Operation, attempt: string)
    requires Consistent(s) && ValidOperation(op) && op.Appending? && Perform(s, op).Done? && Lifecycle(Perform(s, op).session)
    ensures !Applicable(Perform(s, op).session, attempt)
  {
    AppendRecordsEvidence(s, op);
    LastIsUndecided(Perform(s, op).session, attempt);
  }

  lemma LastIsUndecided(t: Session, attempt: string)
    requires Lifecycle(t) && Last(t).disposition.Undecided?
    ensures !Applicable(t, attempt)
  {
    if Applicable(t, attempt) {
      ApplicableIsLast(t, attempt);
    }
  }

  /** Only accepting makes an action applicable, and it was undecided before. */
  lemma AcceptingMakesApplicable(s: Session, op: Operation, attempt: string)
    requires Consistent(s) && ValidOperation(op) && Perform(s, op).Done? && !op.Leaving?
    requires Lifecycle(Perform(s, op).session)
    ensures Applicable(Perform(s, op).session, attempt) ==> Undecided(s, attempt)
  {
    match op
    case Appending(_, _, _, _, _) => AppendingOffersNothing(s, op, attempt);
    case Deciding(d) =>
      if Applicable(Perform(s, op).session, attempt) {
        DecidingOffers(s, d, attempt);
      }
    case Executing(execution, executed) =>
      ExecutionSettles(s, execution, executed);
      SettledIsResolved(Perform(s, op).session);
  }

  lemma LastKept(s: Session, t: Session)
    requires OnlyActionMoved(s, t)
    ensures t.attempts[|t.attempts| - 1].id == s.attempts[|s.attempts| - 1].id
  {
  }

  lemma SettledIsResolved(t: Session)
    requires Lifecycle(t) && (t.status.AwaitingAttempt? || t.status.Closed?)
    ensures forall a <- t.attempts :: Resolved(a.action)
    ensures forall attempt :: !Applicable(t, attempt)
  {
    forall a <- t.attempts
      ensures Resolved(a.action)
    {
      var i :| 0 <= i < |t.attempts| && t.attempts[i] == a;
    }
  }

  lemma ExecutionSettles(s: Session, execution: Execution, executed: Option<NextAction>)
    requires Execute(s, execution, executed).Done?
    ensures var t := Execute(s, execution, executed).session; t.status.AwaitingAttempt? || t.status.Closed?
  {
  }

  /** After an execution is recorded every attempt is resolved. */
  lemma ExecutionResolves(s: Session, execution: Execution, executed: Option<NextAction>)
    requires Consistent(s) && (executed.Some? ==> ModestAction(executed.value)) && Execute(s, execution, executed).Done?
    ensures var t := Execute(s, execution, executed).session;
      Consistent(t) && Continues(s, t) && forall a <- t.attempts :: Resolved(a.action)
  {
    ExecuteKeeps(s, execution, executed);
    ExecutionSettles(s, execution, executed);
    SettledIsResolved(Execute(s, execution, executed).session);
  }

  // ----- The invariant -----

  ghost predicate Served(d: Desk) {
    forall id <- d.server :: Consistent(d.server[id]) && d.server[id].id == id
  }

  /** A session of the service, as it is or as it was. */
  ghost predicate Past(d: Desk, s: Session) {
    Consistent(s) && s.id in d.server && Continues(s, d.server[s.id])
  }

  ghost predicate Seen(d: Desk) {
    (d.button.store.Some? ==> Past(d, d.button.store.value)) && forall r <- d.replies :: Past(d, r)
  }

  ghost predicate Recordable(call: Call) { call.executed.Some? ==> ModestAction(call.executed.value) }

  ghost predicate Waiting(d: Desk) {
    && (d.button.inFlight.Some? ==>
          var call := d.button.inFlight.value;
          && call.session in d.server && Decided(d.server[call.session], call.attempt)
          && call.key == Some(call.session + ":" + call.attempt)
          && Recordable(call))
    && (forall c <- d.late :: Recordable(c))
    && (d.arrived.Some? ==> d.button.inFlight.Some?)
    && (d.arrived.Some? && d.arrived.value.Done? ==> ArrivedOk(d, d.arrived.value.session))
  }

  /** The service's answer to the recording in flight. */
  ghost predicate ArrivedOk(d: Desk, t: Session)
    requires d.button.inFlight.Some?
  {
    && t.id == d.button.inFlight.value.session && Past(d, t)
    && Spent(t, d.button.inFlight.value.attempt) && forall a <- t.attempts :: Resolved(a.action)
  }

  ghost predicate Offers(s: Session, session: string, attempt: string) { s.id == session && Applicable(s, attempt) }

  /** No answer still on its way offers the attempt. */
  ghost predicate NoReply(d: Desk, session: string, attempt: string) {
    forall r <- d.replies :: !Offers(r, session, attempt)
  }

  ghost predicate StoreOffers(d: Desk, session: string, attempt: string) {
    d.button.store.Some? && Offers(d.button.store.value, session, attempt)
  }

  /** An applicable attempt is offered by one answer at most: on its way, once, or shown. */
  ghost predicate OneOffer(d: Desk, session: string, attempt: string) {
    && (forall r <- d.replies | Offers(r, session, attempt) ::
          d.replies[r] == 1 && forall q <- d.replies | Offers(q, session, attempt) :: q == r)
    && (StoreOffers(d, session, attempt) ==> NoReply(d, session, attempt))
  }

  ghost predicate InFlight(d: Desk, session: string, attempt: string) {
    d.button.inFlight.Some? && d.button.inFlight.value.session == session && d.button.inFlight.value.attempt == attempt
  }

  /** An applied action is locked, or its recording is still out, or it is spent and offered nowhere. */
  ghost predicate Guarded(d: Desk, session: string, attempt: string) {
    || session + ":" + attempt in d.button.locked
    || (InFlight(d, session, attempt) && d.button.inFlight.value.status.Succeeded?)
    || (session in d.server && Spent(d.server[session], attempt)
        && !StoreOffers(d, session, attempt) && NoReply(d, session, attempt))
  }

  /** What holds of each attempt. */
  ghost predicate Fair(d: Desk, session: string, attempt: string) {
    && OneOffer(d, session, attempt)
    && (InFlight(d, session, attempt) ==> NoReply(d, session, attempt))
    && ((session, attempt) in d.button.applied ==> Guarded(d, session, attempt))
  }

  ghost predicate Inv(d: Desk) {
    && Served(d) && Seen(d) && Waiting(d) && Distinct(d.button.applied)
    && forall session, attempt :: Fair(d, session, attempt)
  }

  // ----- The service moves on -----

  lemma PastMoves(d: Desk, id: string, t: Session, s: Session)
    requires Past(d, s) && id in d.server && Continues(d.server[id], t) && t.id == id
    ensures Past(Moved(d, id, t), s)
  {
    if s.id == id {
      ContinuesTransitive(s, d.server[id], t);
    }
  }

  lemma MovedSeen(d: Desk, id: string, t: Session)
    requires Seen(d) && id in d.server && Continues(d.server[id], t) && t.id == id
    ensures Seen(Moved(d, id, t))
  {
    if d.button.store.Some? {
      PastMoves(d, id, t, d.button.store.value);
    }
    forall r <- d.replies
      ensures Past(Moved(d, id, t), r)
    {
      PastMoves(d, id, t, r);
    }
  }

  lemma MovedWaiting(d: Desk, id: string, t: Session)
    requires Waiting(d) && id in d.server && Continues(d.server[id], t) && Consistent(t) && t.id == id
    ensures Waiting(Moved(d, id, t))
  {
    if d.button.inFlight.Some? {
      if d.button.inFlight.value.session == id {
        PastSays(d.server[id], t, d.button.inFlight.value.attempt);
      }
      if d.arrived.Some? && d.arrived.value.Done? {
        PastMoves(d, id, t, d.arrived.value.session);
      }
    }
  }

  lemma MovedFair(d: Desk, id: string, t: Session, session: string, attempt: string)
    requires Fair(d, session, attempt) && id in d.server && Continues(d.server[id], t) && Consistent(t)
    ensures Fair(Moved(d, id, t), session, attempt)
  {
    if session == id {
      PastSays(d.server[id], t, attempt);
    }
  }

  lemma MovedKeeps(d: Desk, id: string, t: Session)
    requires Inv(d) && id in d.server && Consistent(t) && Continues(d.server[id], t)
    ensures Inv(Moved(d, id, t))
  {
    assert t.id == id;
    MovedSeen(d, id, t);
    MovedWaiting(d, id, t);
    forall session, attempt
      ensures Fair(Moved(d, id, t), session, attempt)
    {
      MovedFair(d, id, t, session, attempt);
    }
  }

  // ----- Answers on their way -----

  /** An answer that offers only attempts nothing else offers joins those on their way. */
  lemma ReplyKeeps(d: Desk, t: Session)
    requires Inv(d) && Past(d, t)
    requires forall attempt | Applicable(t, attempt) :: Unoffered(d, t.id, attempt)
    ensures Inv(Answering(d, t))
  {
    var e := Answering(d, t);
    forall session, attempt
      ensures Fair(e, session, attempt)
    {
      assert Fair(d, session, attempt);
      ReplyFair(d, t, session, attempt);
    }
  }

  /** Nobody offers, applies or has applied the attempt. */
  ghost predicate Unoffered(d: Desk, session: string, attempt: string) {
    && !StoreOffers(d, session, attempt) && NoReply(d, session, attempt) && !InFlight(d, session, attempt)
    && !(session in d.server && Spent(d.server[session], attempt))
  }

  lemma ReplyFair(d: Desk, t: Session, session: string, attempt: string)
    requires Fair(d, session, attempt) && (Offers(t, session, attempt) ==> Unoffered(d, session, attempt))
    ensures Fair(Answering(d, t), session, attempt)
  {
    var e := Answering(d, t);
    assert forall r :: r in e.replies <==> r in d.replies || r == t;
  }

  /** An undecided attempt has not been offered. */
  lemma UndecidedUnoffered(d: Desk, session: string, attempt: string)
    requires Seen(d) && Waiting(d) && Served(d) && session in d.server && Undecided(d.server[session], attempt)
    ensures Unoffered(d, session, attempt)
  {
    Exclusive(d.server[session], attempt);
    if d.button.store.Some? && d.button.store.value.id == session {
      PastSays(d.button.store.value, d.server[session], attempt);
    }
    forall r <- d.replies
      ensures !Offers(r, session, attempt)
    {
      if r.id == session {
        PastSays(r, d.server[session], attempt);
      }
    }
    SpentIsDecided(d.server[session], attempt);
  }

  lemma SpentIsDecided(s: Session, attempt: string)
    ensures Spent(s, attempt) ==> Decided(s, attempt)
  {
  }

  /** The session after an operation continues the one before, and offers only what was undecided. */
  ghost predicate Succeeds(s: Session, op: Operation, t: Session) {
    && Consistent(t) && Continues(s, t)
    && (!op.Leaving? ==> forall attempt | Applicable(t, attempt) :: Undecided(s, attempt))
  }

  lemma PerformSucceeds(s: Session, op: Operation)
    requires Consistent(s) && ValidOperation(op) && Perform(s, op).Done?
    ensures Succeeds(s, op, Perform(s, op).session)
  {
    StepKeeps(s, op);
    if !op.Leaving? {
      OffersUndecided(s, op);
    }
  }

  lemma SuccessorKeeps(d: Desk, id: string, op: Operation, t: Session)
    requires Inv(d) && id in d.server && Succeeds(d.server[id], op, t)
    ensures Inv(if op.Leaving? then Moved(d, id, t) else Answering(Moved(d, id, t), t))
  {
    if op.Leaving? {
      MovedKeeps(d, id, t);
    } else {
      AnsweringKeeps(d, id, t);
    }
  }

  lemma OffersUndecided(s: Session, op: Operation)
    requires Consistent(s) && ValidOperation(op) && Perform(s, op).Done? && !op.Leaving?
    requires Lifecycle(Perform(s, op).session)
    ensures forall attempt | Applicable(Perform(s, op).session, attempt) :: Undecided(s, attempt)
  {
    forall attempt | Applicable(Perform(s, op).session, attempt)
      ensures Undecided(s, attempt)
    {
      AcceptingMakesApplicable(s, op, attempt);
    }
  }

  /** The service moves a session on and answers with it. */
  lemma AnsweringKeeps(d: Desk, id: string, t: Session)
    requires Inv(d) && id in d.server && Consistent(t) && Continues(d.server[id], t)
    requires forall attempt | Applicable(t, attempt) :: Undecided(d.server[id], attempt)
    ensures Inv(Answering(Moved(d, id, t), t))
  {
    MovedKeeps(d, id, t);
    NewestIsPast(Moved(d, id, t), id);
    forall attempt | Applicable(t, attempt)
      ensures Unoffered(Moved(d, id, t), t.id, attempt)
    {
      UndecidedUnoffered(d, id, attempt);
      MovedUnoffered(d, id, t, attempt);
    }
    ReplyKeeps(Moved(d, id, t), t);
  }

  lemma MovedUnoffered(d: Desk, id: string, t: Session, attempt: string)
    requires Unoffered(d, id, attempt) && SessionOk(t) && t.id == id && Applicable(t, attempt)
    ensures Unoffered(Moved(d, id, t), t.id, attempt)
  {
    Exclusive(t, attempt);
  }

  lemma NewestIsPast(d: Desk, id: string)
    requires Served(d) && id in d.server
    ensures Past(d, d.server[id])
  {
    ContinuesSelf(d.server[id]);
  }

  lemma ContinuesSelf(s: Session)
    ensures Continues(s, s)
  {
  }

  lemma DeliverKeeps(d: Desk, reply: Session)
    requires Inv(d) && reply in d.replies
    ensures Inv(Delivered(d, reply))
  {
    DeliverSeen(d, reply);
    SameService(d, Delivered(d, reply));
    DeliverAllFair(d, reply);
  }

  lemma DeliverAllFair(d: Desk, reply: Session)
    requires (forall session, attempt :: Fair(d, session, attempt)) && reply in d.replies
    ensures forall session, attempt :: Fair(Delivered(d, reply), session, attempt)
  {
    forall session, attempt
      ensures Fair(Delivered(d, reply), session, attempt)
    {
      DeliverFair(d, reply, session, attempt);
    }
  }

  lemma PastSame(d: Desk, e: Desk, s: Session)
    requires d.server == e.server && Past(d, s)
    ensures Past(e, s)
  {
  }

  lemma DeliverSeen(d: Desk, reply: Session)
    requires Seen(d) && reply in d.replies
    ensures Seen(Delivered(d, reply))
  {
    PastSame(d, Delivered(d, reply), reply);
    forall r <- Delivered(d, reply).replies
      ensures Past(Delivered(d, reply), r)
    {
      assert r in d.replies;
      PastSame(d, Delivered(d, reply), r);
    }
  }

  /** The service and the recording in flight are as they were. */
  lemma SameService(d: Desk, e: Desk)
    requires Served(d) && Waiting(d)
    requires e.server == d.server && e.arrived == d.arrived && e.button.inFlight == d.button.inFlight && e.late <= d.late
    ensures Served(e) && Waiting(e)
  {
    if d.arrived.Some? && d.arrived.value.Done? {
      PastSame(d, e, d.arrived.value.session);
    }
  }

  /** What the page shows and what is on its way are as they were. */
  lemma SameSeen(d: Desk, e: Desk)
    requires Seen(d) && e.server == d.server && e.replies == d.replies
    requires e.button.store == d.button.store || e.button.store.None?
    ensures Seen(e)
  {
    if e.button.store.Some? {
      PastSame(d, e, e.button.store.value);
    }
    forall r <- e.replies
      ensures Past(e, r)
    {
      PastSame(d, e, r);
    }
  }

  lemma DeliverFair(d: Desk, reply: Session, session: string, attempt: string)
    requires Fair(d, session, attempt) && reply in d.replies
    ensures Fair(Delivered(d, reply), session, attempt)
  {
    var e := Delivered(d, reply);
    assert forall r <- e.replies :: r in d.replies && (r == reply ==> d.replies[reply] > 1);
  }

  lemma ClearKeeps(d: Desk)
    requires Inv(d)
    ensures Inv(Cleared(d))
  {
    SameSeen(d, Cleared(d));
    SameService(d, Cleared(d));
    forall session, attempt
      ensures Fair(Cleared(d), session, attempt)
    {
      ClearFair(d, session, attempt);
    }
  }

  lemma ClearFair(d: Desk, session: string, attempt: string)
    requires Fair(d, session, attempt)
    ensures Fair(Cleared(d), session, attempt)
  {
  }

  // ----- Clicks and their recordings -----

  lemma ReportedModest(session: Option<Session>, runtime: Runtime)
    requires CanApply(session) && ModestAction(Shown(session).value.action.recommended)
    ensures var action := Shown(session).value.action.recommended;
      var reported := Reported(ExecuteGuided(session, Some(action), runtime), action);
      reported.Some? ==> ModestAction(reported.value)
  {
  }

  /** The attempt shown by an open gate, as the button knows it. */
  lemma ShownIsOffered(s: Session)
    requires Consistent(s) && CanApply(Some(s))
    ensures Applicable(s, Shown(Some(s)).value.id)
    ensures LockKey(Some(s)) == Some(s.id + ":" + Shown(Some(s)).value.id)
    ensures ModestAction(Shown(Some(s)).value.action.recommended)
  {
    assert AttemptOk(s.attempts[|s.attempts| - 1]) && s.attempts[|s.attempts| - 1] in s.attempts;
  }

  /** A call for an attempt that is offered only here goes out; if its action succeeded, it is the
      first to. */
  lemma CallKeeps(d: Desk, call: Call)
    requires Inv(d) && d.button.inFlight.None? && StoreOffers(d, call.session, call.attempt)
    requires call.session + ":" + call.attempt !in d.button.locked
    requires Waiting(d.(button := d.button.(inFlight := Some(call))))
    ensures Inv(Called(d, call))
  {
    assert Fair(d, call.session, call.attempt);
    var e := Called(d, call);
    SameSeen(d, e);
    CalledWaiting(d, call);
    forall session, attempt
      ensures Fair(e, session, attempt)
    {
      assert Fair(d, session, attempt);
      CalledFair(d, call, session, attempt);
    }
  }

  lemma CalledWaiting(d: Desk, call: Call)
    requires Served(d) && Waiting(d) && d.button.inFlight.None?
    requires Waiting(d.(button := d.button.(inFlight := Some(call))))
    ensures Served(Called(d, call)) && Waiting(Called(d, call))
  {
  }

  function Called(d: Desk, call: Call): Desk {
    d.(button := d.button.(
      inFlight := Some(call),
      applied := if call.status.Succeeded? then d.button.applied + [(call.session, call.attempt)] else d.button.applied))
  }

  lemma CalledFair(d: Desk, call: Call, session: string, attempt: string)
    requires Fair(d, session, attempt) && d.button.inFlight.None? && StoreOffers(d, call.session, call.attempt)
    ensures Fair(Called(d, call), session, attempt)
  {
  }

  predicate Goes(b: Button) {
    CanApply(b.store) && b.inFlight.None? && !(LockKey(b.store).Some? && LockKey(b.store).value in b.locked)
  }

  function CallFor(b: Button, runtime: Runtime): Call
    requires Goes(b)
  {
    var action := Shown(b.store).value.action.recommended;
    var ran := ExecuteGuided(b.store, Some(action), runtime);
    Call(b.store.value.id, Shown(b.store).value.id, LockKey(b.store), ran.status, Reported(ran, action))
  }

  lemma ClickIsCall(d: Desk, runtime: Runtime)
    ensures Step(d, ClickEvent(runtime)) == if Goes(d.button) then Called(d, CallFor(d.button, runtime)) else d
  {
  }

  lemma CallForOk(d: Desk, runtime: Runtime)
    requires Served(d) && Seen(d) && Waiting(d) && Goes(d.button)
    ensures var call := CallFor(d.button, runtime);
      && StoreOffers(d, call.session, call.attempt) && call.session + ":" + call.attempt !in d.button.locked
      && Waiting(d.(button := d.button.(inFlight := Some(call))))
  {
    var s := d.button.store.value;
    ShownIsOffered(s);
    DecidedAtService(d, s, Shown(d.button.store).value.id);
    ReportedModest(d.button.store, runtime);
  }

  lemma ClickKeeps(d: Desk, runtime: Runtime)
    requires Inv(d)
    ensures Inv(Step(d, ClickEvent(runtime)))
  {
    ClickIsCall(d, runtime);
    if Goes(d.button) {
      CallForOk(d, runtime);
      CallKeeps(d, CallFor(d.button, runtime));
    }
  }

  lemma DecidedAtService(d: Desk, s: Session, attempt: string)
    requires Served(d) && Past(d, s) && Applicable(s, attempt)
    ensures Decided(d.server[s.id], attempt)
  {
    PastSays(s, d.server[s.id], attempt);
  }

  /** The recording's session after it is recorded. */
  ghost predicate Settles(s: Session, t: Session) {
    Consistent(t) && Continues(s, t) && forall a <- t.attempts :: Resolved(a.action)
  }

  lemma RecordSettles(d: Desk, call: Call)
    requires Served(d) && Recordable(call) && Record(d, call).Done?
    ensures Settles(d.server[call.session], Record(d, call).session)
  {
    ExecutionResolves(d.server[call.session], call.status, call.executed);
  }

  lemma ReachKeeps(d: Desk, call: Call)
    requires Inv(d) && d.button.inFlight == Some(call) && d.arrived.None?
    ensures Inv(Step(d, ReachEvent))
  {
    if Record(d, call).Done? {
      RecordSettles(d, call);
      ReachedKeeps(d, Record(d, call).session);
    } else {
      ArrivedKeeps(d, Record(d, call));
    }
  }

  lemma GoneKeeps(d: Desk, call: Call)
    requires Inv(d)
    ensures Inv(Gone(d, call))
  {
    var e := Gone(d, call);
    SameSeen(d, e);
    SameService(d, e);
    forall session, attempt
      ensures Fair(e, session, attempt)
    {
      assert Fair(d, session, attempt);
      GoneFair(d, call, session, attempt);
    }
  }

  lemma GoneFair(d: Desk, call: Call, session: string, attempt: string)
    requires Fair(d, session, attempt)
    ensures Fair(Gone(d, call), session, attempt)
  {
  }

  /** A recording that was given up reaches the service after all. */
  lemma LateKeeps(d: Desk, call: Call)
    requires Inv(d) && call in d.late
    ensures Inv(Step(d, LateEvent(call)))
  {
    GoneKeeps(d, call);
    if Record(d, call).Done? {
      RecordSettles(d, call);
      MovedKeeps(Gone(d, call), call.session, Record(d, call).session);
    }
  }

  lemma ReachedKeeps(d: Desk, t: Session)
    requires Inv(d) && d.button.inFlight.Some? && Settles(d.server[d.button.inFlight.value.session], t)
    ensures Inv(Arrived(Moved(d, d.button.inFlight.value.session, t), Done(t)))
  {
    var moved := Moved(d, d.button.inFlight.value.session, t);
    MovedKeeps(d, d.button.inFlight.value.session, t);
    ReachedOk(moved, t);
    ArrivedKeeps(moved, Done(t));
  }

  lemma ReachedOk(d: Desk, t: Session)
    requires Served(d) && Waiting(d) && d.button.inFlight.Some? && t == d.server[d.button.inFlight.value.session]
    requires forall a <- t.attempts :: Resolved(a.action)
    ensures ArrivedOk(d, t)
  {
    NewestIsPast(d, d.button.inFlight.value.session);
    DecidedIsSpent(t, d.button.inFlight.value.attempt);
  }

  lemma DecidedIsSpent(t: Session, attempt: string)
    requires Decided(t, attempt) && forall a <- t.attempts :: Resolved(a.action)
    ensures Spent(t, attempt)
  {
  }

  lemma ArrivedKeeps(d: Desk, outcome: Outcome)
    requires Inv(d) && d.button.inFlight.Some? && (outcome.Done? ==> ArrivedOk(d, outcome.session))
    ensures Inv(Arrived(d, outcome))
  {
    var e := Arrived(d, outcome);
    SameSeen(d, e);
    ArrivedWaiting(d, outcome);
    forall session, attempt
      ensures Fair(e, session, attempt)
    {
      ArrivedFair(d, outcome, session, attempt);
    }
  }

  lemma ArrivedFair(d: Desk, outcome: Outcome, session: string, attempt: string)
    requires Fair(d, session, attempt)
    ensures Fair(Arrived(d, outcome), session, attempt)
  {
  }

  lemma ArrivedWaiting(d: Desk, outcome: Outcome)
    requires Served(d) && Waiting(d) && d.button.inFlight.Some? && (outcome.Done? ==> ArrivedOk(d, outcome.session))
    ensures var e := Arrived(d, outcome); Served(e) && Waiting(e)
  {
    if outcome.Done? {
      PastSame(d, Arrived(d, outcome), outcome.session);
    }
  }

  /** The recording is over without an answer: a success is locked. */
  lemma LostKeeps(d: Desk)
    requires Inv(d) && d.button.inFlight.Some?
    ensures Inv(Over(d, None))
  {
    SameSeen(d, Over(d, None));
    NothingWaits(d, Over(d, None));
    forall session, attempt
      ensures Fair(Over(d, None), session, attempt)
    {
      LostFair(d, session, attempt);
    }
  }

  lemma LostFair(d: Desk, session: string, attempt: string)
    requires Waiting(d) && d.button.inFlight.Some? && Fair(d, session, attempt)
    ensures Fair(Over(d, None), session, attempt)
  {
  }

  /** The service's answer is shown: the attempt is spent, and offered nowhere. */
  lemma AnsweredKeeps(d: Desk, t: Session)
    requires Inv(d) && d.button.inFlight.Some? && ArrivedOk(d, t)
    ensures Inv(Over(d, Some(t)))
  {
    var e := Over(d, Some(t));
    AnsweredSeen(d, t);
    NothingWaits(d, e);
    forall session, attempt
      ensures Fair(e, session, attempt)
    {
      assert Fair(d, session, attempt);
      AnsweredFair(d, t, session, attempt);
    }
  }

  lemma NothingWaits(d: Desk, e: Desk)
    requires Served(d) && e.server == d.server && e.button.inFlight.None? && e.arrived.None?
    requires forall c <- e.late :: Recordable(c)
    ensures Served(e) && Waiting(e)
  {
  }

  lemma AnsweredSeen(d: Desk, t: Session)
    requires Seen(d) && Past(d, t) && d.button.inFlight.Some?
    ensures Seen(Over(d, Some(t)))
  {
    var e := Over(d, Some(t));
    PastSame(d, e, t);
    forall r <- e.replies
      ensures Past(e, r)
    {
      PastSame(d, e, r);
    }
  }

  lemma AnsweredFair(d: Desk, t: Session, session: string, attempt: string)
    requires Served(d) && Fair(d, session, attempt) && d.button.inFlight.Some? && ArrivedOk(d, t)
    ensures Fair(Over(d, Some(t)), session, attempt)
  {
    PastSays(t, d.server[t.id], d.button.inFlight.value.attempt);
  }

  lemma AnswerKeeps(d: Desk, answered: bool)
    requires Inv(d) && d.button.inFlight.Some?
    ensures Inv(Step(d, AnswerEvent(answered)))
  {
    if answered && d.arrived.Some? && d.arrived.value.Done? {
      AnsweredKeeps(d, d.arrived.value.session);
    } else {
      LostKeeps(d);
    }
  }

  lemma CreatedUnderId(first: Creation)
    ensures var outcome := Create(first.e, first.g, first.id, first.attemptId, first.context);
      outcome.Done? ==> outcome.session.id == first.id
  {
  }

  /** A session just created: it is a new one, and nothing is applicable yet. */
  ghost predicate Opens(d: Desk, t: Session) {
    Consistent(t) && t.id !in d.server && forall attempt :: !Applicable(t, attempt)
  }

  lemma CreateOpens(d: Desk, first: Creation)
    requires EvidenceOk(first.e, first.g, first.context) && first.id !in d.server
    requires Create(first.e, first.g, first.id, first.attemptId, first.context).Done?
    ensures var t := Create(first.e, first.g, first.id, first.attemptId, first.context).session; Opens(d, t) && t.id == first.id
  {
    CreateKeeps(first);
    CreatedUnderId(first);
    CreatedOffersNothing(first);
  }

  lemma OpenedAnswered(d: Desk, id: string, t: Session)
    requires Inv(d) && Opens(d, t) && t.id == id
    ensures Inv(Answering(Moved(d, id, t), t))
  {
    OpenedKeeps(d, t);
    NewestIsPast(Moved(d, t.id, t), t.id);
    ReplyKeeps(Moved(d, t.id, t), t);
  }

  lemma CreatedOffersNothing(first: Creation)
    ensures var outcome := Create(first.e, first.g, first.id, first.attemptId, first.context);
      outcome.Done? ==> forall attempt :: !Applicable(outcome.session, attempt)
  {
  }

  lemma OpenedKeeps(d: Desk, t: Session)
    requires Inv(d) && Consistent(t) && t.id !in d.server
    ensures Inv(Moved(d, t.id, t))
  {
    OpenedSeen(d, t);
    OpenedWaiting(d, t);
    forall session, attempt
      ensures Fair(Moved(d, t.id, t), session, attempt)
    {
      OpenedFair(d, t, session, attempt);
    }
  }

  lemma OpenedPast(d: Desk, t: Session, s: Session)
    requires Past(d, s) && t.id !in d.server
    ensures Past(Moved(d, t.id, t), s)
  {
  }

  lemma OpenedSeen(d: Desk, t: Session)
    requires Seen(d) && t.id !in d.server
    ensures Seen(Moved(d, t.id, t))
  {
    if d.button.store.Some? {
      OpenedPast(d, t, d.button.store.value);
    }
    forall r <- d.replies
      ensures Past(Moved(d, t.id, t), r)
    {
      OpenedPast(d, t, r);
    }
  }

  lemma OpenedWaiting(d: Desk, t: Session)
    requires Served(d) && Waiting(d) && Consistent(t) && t.id !in d.server
    ensures Served(Moved(d, t.id, t)) && Waiting(Moved(d, t.id, t))
  {
    if d.arrived.Some? && d.arrived.value.Done? {
      OpenedPast(d, t, d.arrived.value.session);
    }
  }

  lemma OpenedFair(d: Desk, t: Session, session: string, attempt: string)
    requires Fair(d, session, attempt) && t.id !in d.server
    ensures Fair(Moved(d, t.id, t), session, attempt)
  {
  }

  lemma StepKeepsInv(d: Desk, e: Event)
    requires Inv(d) && ValidEvent(e)
    ensures Inv(Step(d, e))
  {
    match e
    case ServeEvent(id, op) =>
      if id in d.server && Perform(d.server[id], op).Done? {
        PerformSucceeds(d.server[id], op);
        SuccessorKeeps(d, id, op, Perform(d.server[id], op).session);
      }
    case OpenEvent(first) =>
      if first.id !in d.server && Create(first.e, first.g, first.id, first.attemptId, first.context).Done? {
        CreateOpens(d, first);
        OpenedAnswered(d, first.id, Create(first.e, first.g, first.id, first.attemptId, first.context).session);
      }
    case ReachEvent =>
      if d.button.inFlight.Some? && d.arrived.None? {
        ReachKeeps(d, d.button.inFlight.value);
      }
    case LateEvent(call) =>
      if call in d.late {
        LateKeeps(d, call);
      }
    case _ => ButtonKeeps(d, e);
  }

  lemma ButtonKeeps(d: Desk, e: Event)
    requires Inv(d) && (e.ClickEvent? || e.AnswerEvent? || e.DeliverEvent? || e.ClearEvent?)
    ensures Inv(Step(d, e))
  {
    match e
    case ClickEvent(runtime) => ClickKeeps(d, runtime);
    case AnswerEvent(answered) => AnswerTaken(d, answered);
    case DeliverEvent(reply) => ReplyShown(d, reply);
    case ClearEvent => StoreCleared(d);
  }

  lemma AnswerTaken(d: Desk, answered: bool)
    requires Inv(d)
    ensures Inv(Step(d, AnswerEvent(answered)))
  {
    if d.button.inFlight.Some? {
      AnswerKeeps(d, answered);
    }
  }

  lemma SameDesk(d: Desk, e: Desk)
    requires Inv(d) && d == e
    ensures Inv(e)
  {
  }

  lemma ReplyShown(d: Desk, reply: Session)
    requires Inv(d)
    ensures Inv(Step(d, DeliverEvent(reply)))
  {
    DeliverIs(d, reply);
    if reply in d.replies {
      DeliverKeeps(d, reply);
      SameDesk(Delivered(d, reply), Step(d, DeliverEvent(reply)));
    } else {
      SameDesk(d, Step(d, DeliverEvent(reply)));
    }
  }

  lemma DeliverIs(d: Desk, reply: Session)
    ensures Step(d, DeliverEvent(reply)) == if reply in d.replies then Delivered(d, reply) else d
  {
  }

  lemma StoreCleared(d: Desk)
    requires Inv(d)
    ensures Inv(Step(d, ClearEvent))
  {
    ClearKeeps(d);
  }

  lemma {:induction false} RunKeepsInv(events: seq<Event>)
    requires forall e <- events :: ValidEvent(e)
    ensures Inv(Run(events))
  {
    if events != [] {
      RunKeepsInv(events[..|events| - 1]);
      StepKeepsInv(Run(events[..|events| - 1]), events[|events| - 1]);
    }
  }

  /** In any run of clicks, recordings that succeed, get lost or lose their answer, other use of the
      service, and answers shown in any order, the runtime action of an attempt succeeds at most once. */
  lemma AppliedAtMostOnce(events: seq<Event>, i: nat, j: nat)
    requires forall e <- events :: ValidEvent(e)
    requires i < |Run(events).button.applied| && j < |Run(events).button.applied|
    requires Run(events).button.applied[i] == Run(events).button.applied[j]
    ensures i == j
  {
    RunKeepsInv(events);
  }
}
