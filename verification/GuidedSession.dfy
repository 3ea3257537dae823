/** The guided practice session: its records, their checks and the operations of its service
    (src/master_all_strings/education/guided_session.py, guided_session_service.py). */
module GuidedSession {
  import opened Prelude
  import opened EducationContracts
  import G = Guidance

  // ----- Records -----

  datatype Status = Active | AwaitingAction | AwaitingAttempt | Closed | Transitioned | Aborted

  datatype Disposition = Undecided | Accepted | Declined

  datatype Execution = NotRequested | Requested | Succeeded | Failed | Unsupported

  datatype Action = Action(
    recommended: NextAction, disposition: Disposition, execution: Execution, executed: Option<NextAction>)

  datatype Context = Context(rate: Option<real>, loopStart: Option<int>, loopEnd: Option<int>)

  /** What a session is pinned to. */
  datatype Pins = Pins(assignment: string, content: string, revision: string)

  datatype Attempt = Attempt(
    id: string, index: nat, pins: Pins, performance: string, evaluationDigest: string,
    guidanceDigest: G.GuidanceDigest, action: Action, context: Context)

  /** The semantic fields of a session, all that its digest covers. */
  datatype Meaning = Meaning(
    policy: string, id: string, pins: Pins, status: Status, attempts: seq<Attempt>, current: Option<nat>)

  /** A digest is the meaning it was taken of; a draft carries the placeholder. */
  datatype Digest = Placeholder | Of(meaning: Meaning)

  datatype Session = Session(
    policy: string, id: string, pins: Pins, status: Status, attempts: seq<Attempt>, current: Option<nat>,
    digest: Digest, provenance: map<string, string>)

  const POLICY := "guided-practice-session-v1"

  // ----- Constructor checks -----

  predicate ExecutionConsistent(disposition: Disposition, execution: Execution, executed: Option<NextAction>) {
    if disposition.Undecided? || disposition.Declined? then execution.NotRequested? && executed.None?
    else
      && (execution.Succeeded? ==> executed.Some?)
      && (execution.Unsupported? || execution.Requested? || execution.NotRequested? ==> executed.None?)
  }

  predicate ActionOk(a: Action) {
    && ModestAction(a.recommended) && (a.executed.Some? ==> ModestAction(a.executed.value))
    && ExecutionConsistent(a.disposition, a.execution, a.executed)
  }

  predicate ContextOk(c: Context) {
    && (c.rate.Some? ==> c.rate.value in RATES)
    && TicksOk(c.loopStart, c.loopEnd) && (c.loopStart.Some? <==> c.loopEnd.Some?)
  }

  predicate PinsOk(p: Pins) { Identifier(p.assignment) && Identifier(p.content) && Identifier(p.revision) }

  predicate AttemptOk(a: Attempt) {
    && Identifier(a.id) && PinsOk(a.pins) && Identifier(a.performance)
    && DigestText(a.evaluationDigest) && G.GuidanceDigestOk(a.guidanceDigest)
    && ActionOk(a.action) && ContextOk(a.context)
  }

  predicate Attempts(attempts: seq<Attempt>, pins: Pins) {
    && (forall a <- attempts :: AttemptOk(a) && a.pins == pins)
    && (forall i | 0 <= i < |attempts| :: attempts[i].index == i)
    && (forall i, j | 0 <= i < j < |attempts| ::
          attempts[i].id != attempts[j].id && attempts[i].performance != attempts[j].performance)
  }

  predicate SessionOk(s: Session) {
    && Identifier(s.policy) && Identifier(s.id) && PinsOk(s.pins)
    && Attempts(s.attempts, s.pins)
    && s.current == (if s.attempts == [] then None else Some(|s.attempts| - 1))
    && (forall k <- s.provenance :: Identifier(k) && Identifier(s.provenance[k]))
  }

  // ----- Outcomes -----

  datatype Refusal =
    | EvidenceMismatch | BlankIdentifier | WrongStatus | WrongPins | WrongIndex | TakenAttempt | TakenPerformance
    | NoAttempt | AlreadyDecided | NotADecision | NotAccepted | AlreadyExecuted | NotAnExecution | WrongExecution
    | ExecutedPresent | OtherAction | NoChange

  /** An operation gives a session, refuses in its own checks, or trips a record's constructor. */
  datatype Outcome = Done(session: Session) | Refused(why: Refusal) | Malformed

  function MeaningOf(s: Session): Meaning { Meaning(s.policy, s.id, s.pins, s.status, s.attempts, s.current) }

  function Constructed(s: Session): Outcome { if SessionOk(s) then Done(s) else Malformed }

  /** Rebuilding a draft with the placeholder, then with its own digest. */
  function WithDigest(draft: Session): Outcome {
    if !SessionOk(draft.(digest := Placeholder)) then Malformed
    else Constructed(draft.(digest := Of(MeaningOf(draft))))
  }

  // ----- Creating and appending -----

  predicate Chained(e: Evaluation, g: G.Projection) {
    e.performance == g.performance && e.digest == g.evaluationDigest && e.primary == g.next
  }

  const NoContext := Context(None, None, None)

  function AttemptFrom(e: Evaluation, g: G.Projection, id: string, index: nat, context: Option<Context>): Attempt {
    Attempt(id, index, Pins(e.assignment, e.content, g.revision), e.performance, e.digest, g.digest,
            Action(g.next, Undecided, NotRequested, None), if context.Some? then context.value else NoContext)
  }

  const DefaultProvenance := map[
    "policy_version" := POLICY, "producer" := "GuidedPracticeSessionV1/v1", "schema_version" := "1.0.0",
    "source" := "education.guided_session_service"]

  function Create(e: Evaluation, g: G.Projection, id: string, attemptId: string, context: Option<Context>): Outcome {
    if !Chained(e, g) then Refused(EvidenceMismatch)
    else if !Identifier(id) || !Identifier(attemptId) then Refused(BlankIdentifier)
    else
      var attempt := AttemptFrom(e, g, attemptId, 0, context);
      WithDigest(Session(POLICY, id, attempt.pins, AwaitingAction, [attempt], Some(0), Placeholder, DefaultProvenance))
  }

  function Append(s: Session, e: Evaluation, g: G.Projection, attemptId: string, index: Option<int>,
                  context: Option<Context>): Outcome
  {
    if !Chained(e, g) then Refused(EvidenceMismatch)
    else if !Identifier(attemptId) then Refused(BlankIdentifier)
    else if !s.status.AwaitingAttempt? then Refused(WrongStatus)
    else if Pins(e.assignment, e.content, g.revision) != s.pins then Refused(WrongPins)
    else if index.Some? && index.value != |s.attempts| then Refused(WrongIndex)
    else if exists a <- s.attempts :: a.id == attemptId then Refused(TakenAttempt)
    else if exists a <- s.attempts :: a.performance == e.performance then Refused(TakenPerformance)
    else
      var attempt := AttemptFrom(e, g, attemptId, |s.attempts|, context);
      if !AttemptOk(attempt) then Malformed
      else WithDigest(s.(attempts := s.attempts + [attempt], current := Some(attempt.index), status := AwaitingAction))
  }

  // ----- Deciding, executing, leaving -----

  predicate HasCurrent(s: Session) { s.current.Some? && s.current.value < |s.attempts| }

  function CurrentAttempt(s: Session): Attempt
    requires HasCurrent(s)
  {
    s.attempts[s.current.value]
  }

  /** The last attempt is replaced by the current one with a new action. */
  function ReplaceAction(s: Session, action: Action, status: Status): Outcome
    requires HasCurrent(s)
  {
    if !ActionOk(action) then Malformed
    else WithDigest(s.(attempts := s.attempts[..|s.attempts| - 1] + [CurrentAttempt(s).(action := action)], status := status))
  }

  function Decide(s: Session, d: Disposition): Outcome {
    if !s.status.AwaitingAction? then Refused(WrongStatus)
    else if !HasCurrent(s) then Refused(NoAttempt)
    else
      var action := CurrentAttempt(s).action;
      if !action.disposition.Undecided? then Refused(AlreadyDecided)
      else match d
        case Undecided => Refused(NotADecision)
        case Declined =>
          ReplaceAction(s, action.(disposition := Declined, execution := NotRequested, executed := None), AwaitingAttempt)
        case Accepted =>
          ReplaceAction(s, action.(disposition := Accepted, execution := Requested, executed := None), AwaitingAction)
  }

  predicate Performable(kind: ActionKind) { !kind.ViewOneString? && !kind.EnableZoneView? }

  function Execute(s: Session, execution: Execution, executed: Option<NextAction>): Outcome {
    if !HasCurrent(s) then Refused(NoAttempt)
    else
      var action := CurrentAttempt(s).action;
      if !action.disposition.Accepted? then Refused(NotAccepted)
      else if !s.status.AwaitingAction? then Refused(WrongStatus)
      else if !action.execution.Requested? then Refused(AlreadyExecuted)
      else if execution.NotRequested? || execution.Requested? then Refused(NotAnExecution)
      else if execution.Succeeded? && !Performable(action.recommended.kind) then Refused(WrongExecution)
      else if execution.Unsupported? && Performable(action.recommended.kind) then Refused(WrongExecution)
      else if execution.Unsupported? && executed.Some? then Refused(ExecutedPresent)
      else if executed.Some? && executed.value.kind != action.recommended.kind then Refused(OtherAction)
      else
        var recorded :=
          if execution.Unsupported? then None
          else if executed.Some? then executed
          else Some(action.recommended);
        ReplaceAction(s, action.(execution := execution, executed := recorded),
                      if execution.Succeeded? && action.recommended.kind.Continue? then Closed else AwaitingAttempt)
  }

  function Leave(s: Session, assignment: string, content: string, reason: string): Outcome {
    if !Identifier(assignment) || !Identifier(content) || !Identifier(reason) then Refused(BlankIdentifier)
    else if s.status.Closed? || s.status.Transitioned? || s.status.Aborted? then Refused(WrongStatus)
    else if assignment == s.pins.assignment && content == s.pins.content then Refused(NoChange)
    else
      WithDigest(s.(
        status := Transitioned,
        provenance := s.provenance["transition_reason" := reason]["next_assignment_id" := assignment]
                                  ["next_content_id" := content]))
  }

  // ----- Runs -----

  datatype Creation = Creation(e: Evaluation, g: G.Projection, id: string, attemptId: string, context: Option<Context>)

  datatype Operation =
    | Appending(e: Evaluation, g: G.Projection, attemptId: string, index: Option<int>, context: Option<Context>)
    | Deciding(disposition: Disposition)
    | Executing(execution: Execution, executed: Option<NextAction>)
    | Leaving(assignment: string, content: string, reason: string)

  function Perform(s: Session, op: Operation): Outcome {
    match op
    case Appending(e, g, attemptId, index, context) => Append(s, e, g, attemptId, index, context)
    case Deciding(d) => Decide(s, d)
    case Executing(execution, executed) => Execute(s, execution, executed)
    case Leaving(assignment, content, reason) => Leave(s, assignment, content, reason)
  }

  /** Evidence objects that passed their own constructors. */
  ghost predicate EvidenceOk(e: Evaluation, g: G.Projection, context: Option<Context>) {
    EvaluationOk(e) && G.ProjectionOk(g) && (context.Some? ==> ContextOk(context.value))
  }

  /** Every valid next action is modest, so any of them may be reported as executed. */
  ghost predicate ValidOperation(op: Operation) {
    match op
    case Appending(e, g, _, _, context) => EvidenceOk(e, g, context)
    case Executing(_, executed) => executed.Some? ==> ModestAction(executed.value)
    case _ => true
  }

  /** The session after a creation and a sequence of operations, if none of them is refused. */
  function Run(first: Creation, ops: seq<Operation>): Outcome {
    if ops == [] then Create(first.e, first.g, first.id, first.attemptId, first.context)
    else
      match Run(first, ops[..|ops| - 1])
      case Done(s) => Perform(s, ops[|ops| - 1])
      case failure => failure
  }

  ghost predicate ValidRun(first: Creation, ops: seq<Operation>) {
    EvidenceOk(first.e, first.g, first.context) && forall op <- ops :: ValidOperation(op)
  }
}
