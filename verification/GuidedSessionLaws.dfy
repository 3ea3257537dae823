/** What the session service keeps, over every run of accepted operations. */
module GuidedSessionLaws {
  import opened Prelude
  import opened EducationContracts
  import G = Guidance
  import Laws = GuidanceLaws
  import opened GuidedSession

  // ----- Guards suffice -----

  lemma EvidenceGivesAttempt(e: Evaluation, g: G.Projection, id: string, index: nat, context: Option<Context>)
    requires EvidenceOk(e, g, context) && Identifier(id)
    ensures AttemptOk(AttemptFrom(e, g, id, index, context))
  {
  }

  lemma DefaultProvenanceOk()
    ensures forall k <- DefaultProvenance :: Identifier(k) && Identifier(DefaultProvenance[k])
    ensures Identifier(POLICY)
  {
  }

  /** A draft whose parts are well formed gets a true digest. */
  lemma DraftSuffices(draft: Session)
    requires SessionOk(draft)
    ensures WithDigest(draft) == Done(draft.(digest := Of(MeaningOf(draft))))
    ensures SessionOk(WithDigest(draft).session) && WithDigest(draft).session.digest == Of(MeaningOf(WithDigest(draft).session))
  {
  }

  lemma AttemptsGrow(attempts: seq<Attempt>, a: Attempt, pins: Pins)
    requires Attempts(attempts, pins) && AttemptOk(a) && a.pins == pins && a.index == |attempts|
    requires forall b <- attempts :: b.id != a.id && b.performance != a.performance
    ensures Attempts(attempts + [a], pins)
  {
    var all := attempts + [a];
    forall b <- all
      ensures AttemptOk(b) && b.pins == pins
    {
      assert b in attempts || b == a;
    }
    forall i, j | 0 <= i < j < |all|
      ensures all[i].id != all[j].id && all[i].performance != all[j].performance
    {
      assert attempts[i] in attempts;
    }
  }

  lemma AttemptsReplaced(attempts: seq<Attempt>, action: Action, pins: Pins)
    requires Attempts(attempts, pins) && attempts != [] && ActionOk(action)
    ensures var n := |attempts|; Attempts(attempts[..n - 1] + [attempts[n - 1].(action := action)], pins)
  {
    var n := |attempts|;
    var last := attempts[n - 1].(action := action);
    var all := attempts[..n - 1] + [last];
    assert AttemptOk(attempts[n - 1]) && AttemptOk(last);
    forall b <- all
      ensures AttemptOk(b) && b.pins == pins
    {
      assert b in attempts || b == last;
    }
    forall i | 0 <= i < n
      ensures all[i].id == attempts[i].id && all[i].performance == attempts[i].performance && all[i].index == i
    {
      assert attempts[i].index == i;
    }
    forall i, j | 0 <= i < j < n
      ensures all[i].id != all[j].id && all[i].performance != all[j].performance
    {
      assert attempts[i].id != attempts[j].id;
    }
  }

  lemma FirstDraftOk(id: string, attempt: Attempt)
    requires Identifier(id) && AttemptOk(attempt) && attempt.index == 0
    ensures var draft := Session(POLICY, id, attempt.pins, AwaitingAction, [attempt], Some(0), Placeholder, DefaultProvenance);
      SessionOk(draft) && SessionOk(draft.(digest := Of(MeaningOf(draft))))
  {
    DefaultProvenanceOk();
    AttemptsGrow([], attempt, attempt.pins);
    assert [] + [attempt] == [attempt];
  }

  lemma CreateSuffices(first: Creation)
    requires EvidenceOk(first.e, first.g, first.context)
    ensures var r := Create(first.e, first.g, first.id, first.attemptId, first.context);
      !r.Malformed? && (r.Done? ==> SessionOk(r.session) && r.session.digest == Of(MeaningOf(r.session)))
  {
    if Chained(first.e, first.g) && Identifier(first.id) && Identifier(first.attemptId) {
      EvidenceGivesAttempt(first.e, first.g, first.attemptId, 0, first.context);
      FirstDraftOk(first.id, AttemptFrom(first.e, first.g, first.attemptId, 0, first.context));
    }
  }

  lemma AppendSuffices(s: Session, e: Evaluation, g: G.Projection, attemptId: string, index: Option<int>,
                       context: Option<Context>)
    requires SessionOk(s) && EvidenceOk(e, g, context) && !Append(s, e, g, attemptId, index, context).Refused?
    ensures var t := Appended(s, AttemptFrom(e, g, attemptId, |s.attempts|, context));
      Append(s, e, g, attemptId, index, context) == Done(t) && SessionOk(t) && t.digest == Of(MeaningOf(t))
  {
    EvidenceGivesAttempt(e, g, attemptId, |s.attempts|, context);
    AppendedOk(s, AttemptFrom(e, g, attemptId, |s.attempts|, context));
  }

  /** The session with one more attempt, waiting for a decision. */
  function Appended(s: Session, attempt: Attempt): Session {
    var draft := s.(attempts := s.attempts + [attempt], current := Some(attempt.index), status := AwaitingAction);
    draft.(digest := Of(MeaningOf(draft)))
  }

  lemma AppendedOk(s: Session, a: Attempt)
    requires SessionOk(s) && AttemptOk(a) && a.pins == s.pins && a.index == |s.attempts|
    requires forall b <- s.attempts :: b.id != a.id && b.performance != a.performance
    ensures SessionOk(Appended(s, a)) && Appended(s, a).digest == Of(MeaningOf(Appended(s, a)))
    ensures WithDigest(s.(attempts := s.attempts + [a], current := Some(a.index), status := AwaitingAction)) == Done(Appended(s, a))
  {
    AttemptsGrow(s.attempts, a, s.pins);
    DraftSuffices(s.(attempts := s.attempts + [a], current := Some(a.index), status := AwaitingAction));
  }

  /** The session with a new action on its last attempt. */
  function Updated(s: Session, action: Action, status: Status): Session
    requires s.attempts != []
  {
    var n := |s.attempts|;
    var draft := s.(attempts := s.attempts[..n - 1] + [s.attempts[n - 1].(action := action)], status := status);
    draft.(digest := Of(MeaningOf(draft)))
  }

  lemma ReplaceSuffices(s: Session, action: Action, status: Status)
    requires SessionOk(s) && s.attempts != [] && ActionOk(action)
    ensures ReplaceAction(s, action, status) == Done(Updated(s, action, status))
    ensures var t := Updated(s, action, status); SessionOk(t) && t.digest == Of(MeaningOf(t))
  {
    var n := |s.attempts|;
    var attempts := s.attempts[..n - 1] + [s.attempts[n - 1].(action := action)];
    AttemptsReplaced(s.attempts, action, s.pins);
    DraftSuffices(s.(attempts := attempts, status := status));
  }

  /** On a valid session, an operation with valid inputs that passes its own checks builds records
      that pass every constructor check, with a digest of exactly their semantic fields. */
  lemma GuardsSuffice(s: Session, op: Operation)
    requires SessionOk(s) && ValidOperation(op)
    ensures !Perform(s, op).Malformed?
    ensures Perform(s, op).Done? ==>
      SessionOk(Perform(s, op).session) && Perform(s, op).session.digest == Of(MeaningOf(Perform(s, op).session))
  {
    match op
    case Appending(e, g, attemptId, index, context) =>
      if !Perform(s, op).Refused? {
        AppendSuffices(s, e, g, attemptId, index, context);
      }
    case Deciding(d) =>
      DecideSuffices(s, d);
    case Executing(execution, executed) =>
      ExecuteSuffices(s, execution, executed);
    case Leaving(assignment, content, reason) =>
      LeaveSuffices(s, assignment, content, reason);
  }

  lemma DecideSuffices(s: Session, d: Disposition)
    requires SessionOk(s)
    ensures var r := Decide(s, d);
      r.Refused? || (r.Done? && SessionOk(r.session) && r.session.digest == Of(MeaningOf(r.session)))
  {
    if !Decide(s, d).Refused? {
      var action := CurrentAttempt(s).action;
      assert AttemptOk(CurrentAttempt(s));
      if d.Declined? {
        ReplaceSuffices(s, action.(disposition := Declined, execution := NotRequested, executed := None), AwaitingAttempt);
      } else {
        ReplaceSuffices(s, action.(disposition := Accepted, execution := Requested, executed := None), AwaitingAction);
      }
    }
  }

  function RecordedAction(action: Action, execution: Execution, executed: Option<NextAction>): Action {
    action.(execution := execution,
            executed := if execution.Unsupported? then None else if executed.Some? then executed else Some(action.recommended))
  }

  lemma ExecuteSuffices(s: Session, execution: Execution, executed: Option<NextAction>)
    requires SessionOk(s) && (executed.Some? ==> ModestAction(executed.value))
    ensures var r := Execute(s, execution, executed);
      r.Refused? || (r.Done? && SessionOk(r.session) && r.session.digest == Of(MeaningOf(r.session)))
  {
    if !Execute(s, execution, executed).Refused? {
      var action := CurrentAttempt(s).action;
      assert AttemptOk(CurrentAttempt(s));
      ReplaceSuffices(s, RecordedAction(action, execution, executed),
                      if execution.Succeeded? && action.recommended.kind.Continue? then Closed else AwaitingAttempt);
    }
  }

  lemma LeaveSuffices(s: Session, assignment: string, content: string, reason: string)
    requires SessionOk(s)
    ensures var r := Leave(s, assignment, content, reason);
      r.Refused? || (r.Done? && SessionOk(r.session) && r.session.digest == Of(MeaningOf(r.session)))
  {
    if !Leave(s, assignment, content, reason).Refused? {
      assert Identifier("transition_reason") && Identifier("next_assignment_id") && Identifier("next_content_id");
      var provenance := s.provenance["transition_reason" := reason]["next_assignment_id" := assignment]
                                    ["next_content_id" := content];
      DraftSuffices(s.(status := Transitioned, provenance := provenance));
    }
  }

  // ----- The lifecycle -----

  predicate Resolved(a: Action) {
    a.disposition.Declined?
    || (a.disposition.Accepted? && (a.execution.Succeeded? || a.execution.Failed? || a.execution.Unsupported?))
  }

  /** A succeeded CONTINUE. */
  predicate Finished(a: Action) { a.recommended.kind.Continue? && a.disposition.Accepted? && a.execution.Succeeded? }

  /** What was executed is what was recommended, or a variant of it; an action without a runtime
      never succeeds. */
  predicate Honest(a: Action) {
    && (a.executed.Some? ==> a.executed.value.kind == a.recommended.kind)
    && (a.execution.Succeeded? ==> Performable(a.recommended.kind))
    && (a.execution.Unsupported? ==> !Performable(a.recommended.kind))
    && (a.execution.Succeeded? || a.execution.Failed? ==> a.executed.Some?)
    && (a.disposition.Accepted? ==> !a.execution.NotRequested?)
  }

  function Last(s: Session): Action
    requires s.attempts != []
  {
    s.attempts[|s.attempts| - 1].action
  }

  ghost predicate Lifecycle(s: Session) {
    && s.attempts != []
    && (forall i | 0 <= i < |s.attempts| - 1 :: Resolved(s.attempts[i].action) && !Finished(s.attempts[i].action))
    && (forall a <- s.attempts :: Honest(a.action))
    && match s.status
      case AwaitingAction => !Resolved(Last(s))
      case AwaitingAttempt => Resolved(Last(s)) && !Finished(Last(s))
      case Closed => Finished(Last(s))
      case Transitioned => !Finished(Last(s))
      case Active => false
      case Aborted => false
  }

  /** Operations recorded on an attempt: its evidence, the decision, the execution. */
  function Marks(a: Action): nat {
    1 + (if a.disposition.Undecided? then 0 else 1) + (if a.disposition.Accepted? && Resolved(a) then 1 else 0)
  }

  function AllMarks(attempts: seq<Attempt>): nat {
    if attempts == [] then 0 else AllMarks(attempts[..|attempts| - 1]) + Marks(attempts[|attempts| - 1].action)
  }

  function Recorded(s: Session): nat { AllMarks(s.attempts) + if s.status.Transitioned? then 1 else 0 }

  /** What every session of a run is: well formed, truly digested, and where its lifecycle says. */
  ghost predicate Consistent(s: Session) {
    SessionOk(s) && s.digest == Of(MeaningOf(s)) && Lifecycle(s)
  }

  lemma MarksGrow(attempts: seq<Attempt>, a: Attempt)
    ensures AllMarks(attempts + [a]) == AllMarks(attempts) + Marks(a.action)
  {
    assert (attempts + [a])[..|attempts|] == attempts;
  }

  lemma {:induction false} MarksBounded(attempts: seq<Attempt>)
    ensures |attempts| <= AllMarks(attempts) <= 3 * |attempts|
  {
    if attempts != [] {
      MarksBounded(attempts[..|attempts| - 1]);
    }
  }

  // ----- What a step keeps -----

  /** The attempt is the same but for progress on its own action, which never goes back, and a
      resolved one is the same. */
  predicate Kept(before: Attempt, after: Attempt) {
    && after == before.(action := after.action)
    && after.action.recommended == before.action.recommended
    && Marks(before.action) <= Marks(after.action)
    && (Resolved(before.action) ==> after == before)
  }

  ghost predicate Continues(s: Session, t: Session) {
    && t.id == s.id && t.pins == s.pins && t.policy == s.policy
    && |s.attempts| <= |t.attempts|
    && forall i | 0 <= i < |s.attempts| :: Kept(s.attempts[i], t.attempts[i])
  }

  lemma ContinuesTransitive(s: Session, t: Session, u: Session)
    requires Continues(s, t) && Continues(t, u)
    ensures Continues(s, u)
  {
    forall i | 0 <= i < |s.attempts|
      ensures Kept(s.attempts[i], u.attempts[i])
    {
      assert Kept(s.attempts[i], t.attempts[i]) && Kept(t.attempts[i], u.attempts[i]);
    }
  }

  /** Progress on the last attempt's action. */
  lemma UpdateKeeps(s: Session, action: Action, status: Status)
    requires Consistent(s) && s.status.AwaitingAction? && ActionOk(action) && Honest(action)
    requires action.recommended == Last(s).recommended && Marks(action) == Marks(Last(s)) + 1
    requires status == if !Resolved(action) then AwaitingAction else if Finished(action) then Closed else AwaitingAttempt
    ensures var t := Updated(s, action, status); Consistent(t) && Continues(s, t) && Recorded(t) == Recorded(s) + 1
  {
    ReplaceSuffices(s, action, status);
    UpdateRecorded(s, action, status);
    UpdateLifecycle(s, action, status);
  }

  lemma UpdateRecorded(s: Session, action: Action, status: Status)
    requires s.attempts != [] && !s.status.Transitioned? && !status.Transitioned?
    requires Marks(action) == Marks(Last(s)) + 1
    ensures Recorded(Updated(s, action, status)) == Recorded(s) + 1
  {
    var n := |s.attempts|;
    var front := s.attempts[..n - 1];
    assert s.attempts == front + [s.attempts[n - 1]];
    MarksGrow(front, s.attempts[n - 1]);
    MarksGrow(front, s.attempts[n - 1].(action := action));
  }

  lemma UpdateLifecycle(s: Session, action: Action, status: Status)
    requires Lifecycle(s) && s.status.AwaitingAction? && Honest(action) && action.recommended == Last(s).recommended
    requires Marks(Last(s)) <= Marks(action)
    requires status == if !Resolved(action) then AwaitingAction else if Finished(action) then Closed else AwaitingAttempt
    ensures var t := Updated(s, action, status); Lifecycle(t) && Continues(s, t)
  {
    var t := Updated(s, action, status);
    forall i | 0 <= i < |t.attempts|
      ensures Honest(t.attempts[i].action)
    {
      assert Honest(s.attempts[i].action);
    }
  }

  lemma AppendLifecycle(s: Session, attempt: Attempt, t: Session)
    requires Lifecycle(s) && s.status.AwaitingAttempt? && t.status.AwaitingAction?
    requires t.attempts == s.attempts + [attempt] && t.id == s.id && t.pins == s.pins && t.policy == s.policy
    requires attempt.action.disposition.Undecided? && attempt.action.execution.NotRequested? && attempt.action.executed.None?
    ensures Lifecycle(t) && Continues(s, t) && Recorded(t) == Recorded(s) + 1
  {
    MarksGrow(s.attempts, attempt);
    forall a <- t.attempts
      ensures Honest(a.action)
    {
      assert a in s.attempts || a == attempt;
    }
    forall i | 0 <= i < |s.attempts|
      ensures t.attempts[i] == s.attempts[i]
    {
    }
  }

  lemma AppendKeeps(s: Session, op: Operation)
    requires Consistent(s) && ValidOperation(op) && op.Appending? && Perform(s, op).Done?
    ensures var t := Perform(s, op).session; Consistent(t) && Continues(s, t) && Recorded(t) == Recorded(s) + 1
  {
    AppendSuffices(s, op.e, op.g, op.attemptId, op.index, op.context);
    AppendLifecycle(s, AttemptFrom(op.e, op.g, op.attemptId, |s.attempts|, op.context), Perform(s, op).session);
  }

  lemma StepKeeps(s: Session, op: Operation)
    requires Consistent(s) && ValidOperation(op) && Perform(s, op).Done?
    ensures var t := Perform(s, op).session; Consistent(t) && Continues(s, t) && Recorded(t) == Recorded(s) + 1
  {
    match op
    case Appending(_, _, _, _, _) => AppendKeeps(s, op);
    case Deciding(d) => DecideKeeps(s, d);
    case Executing(execution, executed) => ExecuteKeeps(s, execution, executed);
    case Leaving(assignment, content, reason) => LeaveKeeps(s, assignment, content, reason);
  }

  lemma LeaveKeeps(s: Session, assignment: string, content: string, reason: string)
    requires Consistent(s) && Leave(s, assignment, content, reason).Done?
    ensures var t := Leave(s, assignment, content, reason).session;
      Consistent(t) && Continues(s, t) && Recorded(t) == Recorded(s) + 1 && t.attempts == s.attempts
  {
    LeaveSuffices(s, assignment, content, reason);
  }

  lemma DecideKeeps(s: Session, d: Disposition)
    requires Consistent(s) && Decide(s, d).Done?
    ensures var t := Decide(s, d).session; Consistent(t) && Continues(s, t) && Recorded(t) == Recorded(s) + 1
  {
    var action := Last(s);
    assert AttemptOk(CurrentAttempt(s));
    var decided := if d.Declined? then action.(disposition := Declined, execution := NotRequested, executed := None)
      else action.(disposition := Accepted, execution := Requested, executed := None);
    var status := if d.Declined? then AwaitingAttempt else AwaitingAction;
    ReplaceSuffices(s, decided, status);
    UpdateKeeps(s, decided, status);
  }

  lemma ExecuteKeeps(s: Session, execution: Execution, executed: Option<NextAction>)
    requires Consistent(s) && (executed.Some? ==> ModestAction(executed.value)) && Execute(s, execution, executed).Done?
    ensures var t := Execute(s, execution, executed).session; Consistent(t) && Continues(s, t) && Recorded(t) == Recorded(s) + 1
  {
    var action := RecordedAction(Last(s), execution, executed);
    assert AttemptOk(CurrentAttempt(s));
    var status := if execution.Succeeded? && action.recommended.kind.Continue? then Closed else AwaitingAttempt;
    ReplaceSuffices(s, action, status);
    UpdateKeeps(s, action, status);
  }

  lemma CreateKeeps(first: Creation)
    requires EvidenceOk(first.e, first.g, first.context)
    requires Create(first.e, first.g, first.id, first.attemptId, first.context).Done?
    ensures var t := Create(first.e, first.g, first.id, first.attemptId, first.context).session;
      Consistent(t) && Recorded(t) == 1
  {
    CreateSuffices(first);
    CreatedIsFirst(first);
    FirstRecorded(Create(first.e, first.g, first.id, first.attemptId, first.context).session);
  }

  /** One attempt, not decided yet. */
  predicate IsFirst(t: Session) {
    && |t.attempts| == 1 && t.status.AwaitingAction?
    && Last(t).disposition.Undecided? && Last(t).execution.NotRequested? && Last(t).executed.None?
  }

  lemma CreatedIsFirst(first: Creation)
    ensures var outcome := Create(first.e, first.g, first.id, first.attemptId, first.context);
      outcome.Done? ==> IsFirst(outcome.session)
  {
  }

  lemma FirstRecorded(t: Session)
    requires IsFirst(t)
    ensures Lifecycle(t) && Recorded(t) == 1
  {
    MarksGrow([], t.attempts[0]);
    assert [] + [t.attempts[0]] == t.attempts;
  }

  /** In every session the service can reach: all attempts but the last are resolved and not a
      finished CONTINUE, the status says exactly where the last one stands, and every record is
      well formed with a true digest. The session counts its own history. */
  lemma {:induction false} RunInvariant(first: Creation, ops: seq<Operation>)
    requires ValidRun(first, ops)
    ensures !Run(first, ops).Malformed?
    ensures Run(first, ops).Done? ==>
      var s := Run(first, ops).session;
      && SessionOk(s) && s.digest == Of(MeaningOf(s)) && Lifecycle(s)
      && Recorded(s) == |ops| + 1 && |ops| + 1 <= 3 * |s.attempts| + 1
    decreases |ops|
  {
    if ops == [] {
      CreateSuffices(first);
      if Run(first, ops).Done? {
        CreateKeeps(first);
      }
    } else {
      RunInvariant(first, ops[..|ops| - 1]);
      var before, op := Run(first, ops[..|ops| - 1]), ops[|ops| - 1];
      if before.Done? {
        GuardsSuffice(before.session, op);
        if Perform(before.session, op).Done? {
          StepKeeps(before.session, op);
        }
      }
    }
    if Run(first, ops).Done? {
      MarksBounded(Run(first, ops).session.attempts);
    }
  }

  /** A run keeps the identity, the pins and the history of every session it passes through. */
  lemma {:induction false} RunContinues(first: Creation, ops: seq<Operation>, more: seq<Operation>)
    requires ValidRun(first, ops + more) && Run(first, ops + more).Done?
    ensures Run(first, ops).Done? && Continues(Run(first, ops).session, Run(first, ops + more).session)
    decreases |more|
  {
    if more == [] {
      assert ops + more == ops;
    } else {
      var most := more[..|more| - 1];
      assert (ops + more)[..|ops + more| - 1] == ops + most;
      RunContinues(first, ops, most);
      RunInvariant(first, ops + most);
      var op := (ops + more)[|ops + more| - 1];
      assert op in ops + more;
      StepKeeps(Run(first, ops + most).session, op);
      ContinuesTransitive(Run(first, ops).session, Run(first, ops + most).session, Run(first, ops + more).session);
    }
  }

  /** A session is closed exactly when it holds a succeeded CONTINUE, which is then its last attempt. */
  lemma ClosedExactly(s: Session)
    requires Consistent(s)
    ensures s.status.Closed? <==> exists a <- s.attempts :: Finished(a.action)
    ensures forall i | 0 <= i < |s.attempts| && Finished(s.attempts[i].action) :: i == |s.attempts| - 1 && s.status.Closed?
  {
    assert s.attempts[|s.attempts| - 1] in s.attempts;
  }

  /** Nothing is accepted after closing or leaving. */
  lemma TerminalIsFinal(s: Session, op: Operation)
    requires Consistent(s) && (s.status.Closed? || s.status.Transitioned?) && ValidOperation(op)
    ensures Perform(s, op).Refused?
  {
    GuardsSuffice(s, op);
  }

  // ----- What the operations record -----

  /** Everything but the last attempt's action, the status and the digest is as it was. */
  ghost predicate OnlyActionMoved(s: Session, t: Session) {
    && s.attempts != [] && |t.attempts| == |s.attempts|
    && t == s.(attempts := s.attempts[..|s.attempts| - 1] + [s.attempts[|s.attempts| - 1].(action := Last(t))],
               status := t.status, digest := t.digest)
  }

  /** An appended attempt carries the evidence it was given, at the next index, undecided. */
  lemma AppendRecordsEvidence(s: Session, op: Operation)
    requires Consistent(s) && ValidOperation(op) && op.Appending? && Perform(s, op).Done?
    ensures var t := Perform(s, op).session;
      && |t.attempts| == |s.attempts| + 1 && t.attempts[..|s.attempts|] == s.attempts
      && var a := t.attempts[|s.attempts|];
      && a.id == op.attemptId && a.index == |s.attempts| && a.pins == s.pins
      && a.performance == op.e.performance == op.g.performance
      && a.evaluationDigest == op.e.digest && a.guidanceDigest == op.g.digest
      && a.action == Action(op.e.primary, Undecided, NotRequested, None)
      && (op.context.Some? ==> a.context == op.context.value)
      && (op.index.Some? ==> op.index.value == a.index)
      && (forall b <- s.attempts :: b.id != a.id && b.performance != a.performance)
  {
    AppendSuffices(s, op.e, op.g, op.attemptId, op.index, op.context);
  }

  /** A decision is accepted exactly when one is awaited, and records just itself. */
  lemma DecisionRecorded(s: Session, d: Disposition)
    requires Consistent(s)
    ensures Decide(s, d).Done? <==> s.status.AwaitingAction? && Last(s).disposition.Undecided? && !d.Undecided?
    ensures Decide(s, d).Done? ==>
      var t := Decide(s, d).session;
      && OnlyActionMoved(s, t)
      && Last(t) == Last(s).(disposition := d, execution := if d.Accepted? then Requested else NotRequested)
      && t.status == if d.Accepted? then AwaitingAction else AwaitingAttempt
  {
    DecideSuffices(s, d);
    if Decide(s, d).Done? {
      assert AttemptOk(CurrentAttempt(s));
      var action := Last(s);
      if d.Declined? {
        ReplaceSuffices(s, action.(disposition := Declined, execution := NotRequested, executed := None), AwaitingAttempt);
      } else {
        ReplaceSuffices(s, action.(disposition := Accepted, execution := Requested, executed := None), AwaitingAction);
      }
    }
  }

  /** An execution records the reported status and what was executed: what was named, or else the
      recommendation itself, or nothing if the action is unsupported. */
  lemma ExecutionRecorded(s: Session, execution: Execution, executed: Option<NextAction>)
    requires Consistent(s) && (executed.Some? ==> ModestAction(executed.value)) && Execute(s, execution, executed).Done?
    ensures var t := Execute(s, execution, executed).session;
      && OnlyActionMoved(s, t)
      && Last(t) == Last(s).(execution := execution,
           executed := if execution.Unsupported? then None else if executed.Some? then executed else Some(Last(s).recommended))
      && (t.status.Closed? <==> execution.Succeeded? && Last(s).recommended.kind.Continue?)
  {
    assert AttemptOk(CurrentAttempt(s));
    var status := if execution.Succeeded? && Last(s).recommended.kind.Continue? then Closed else AwaitingAttempt;
    ReplaceSuffices(s, RecordedAction(Last(s), execution, executed), status);
  }

  /** A projection built from an evaluation is evidence for it: creation is refused only for a
      blank id. */
  lemma BuiltProjectionIsEvidence(e: Evaluation, revision: string, policy: string, zones: map<string, string>,
                                  given: Option<seq<(string, string)>>, id: string, attemptId: string)
    requires EvaluationOk(e) && G.Project(e, revision, policy, zones, given).Success?
    ensures Create(e, G.Project(e, revision, policy, zones, given).value, id, attemptId, None).Done?
      <==> Identifier(id) && Identifier(attemptId)
  {
    var g := G.Project(e, revision, policy, zones, given).value;
    Laws.BuiltIsValid(e, revision, policy, zones, given);
    CreateSuffices(Creation(e, g, id, attemptId, None));
  }
}
