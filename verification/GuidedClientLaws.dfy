/** The browser agrees with the service, and applies an accepted action at most once. */
module GuidedClientLaws {
  import opened Prelude
  import opened EducationContracts
  import G = Guidance
  import Laws = GuidanceLaws
  import opened GuidedSession
  import opened GuidedSessionLaws
  import opened GuidedClient

  // ----- The gates agree with the service -----

  /** A decision may be recorded exactly when the service accepts one, and then it accepts either. */
  lemma DispositionGateAgrees(s: Session)
    requires Consistent(s)
    ensures CanRecordDisposition(Some(s)) <==> exists d :: Decide(s, d).Done?
    ensures CanRecordDisposition(Some(s)) ==> Decide(s, Accepted).Done? && Decide(s, Declined).Done?
  {
    DecideSuffices(s, Accepted);
    DecideSuffices(s, Declined);
  }

  /** An execution the service can accept for an action. */
  function Acceptable(kind: ActionKind): Execution { if Performable(kind) then Failed else Unsupported }

  lemma ExecutionAccepted(s: Session)
    requires Consistent(s) && CanApply(Some(s)) && !s.status.Transitioned?
    ensures Execute(s, Acceptable(Shown(Some(s)).value.action.recommended.kind), None).Done?
  {
    ExecuteSuffices(s, Acceptable(Shown(Some(s)).value.action.recommended.kind), None);
  }

  /** Applying is offered exactly when the service accepts an execution, unless the session was
      left after its action was accepted: the gate does not look at the status. */
  lemma ExecutionGateAgreesExactly(s: Session)
    requires Consistent(s)
    ensures (CanApply(Some(s)) <==> exists execution, executed :: Execute(s, execution, executed).Done?)
      <==> !(s.status.Transitioned? && Last(s).disposition.Accepted? && Last(s).execution.Requested?)
  {
    if CanApply(Some(s)) && !s.status.Transitioned? {
      ExecutionAccepted(s);
    }
  }

  /** Leaving an accepted session makes such a session. */
  lemma LeftSessionStaysApplicable(s: Session, assignment: string, content: string, reason: string)
    requires Consistent(s) && s.status.AwaitingAction? && CanApply(Some(s)) && Leave(s, assignment, content, reason).Done?
    ensures var t := Leave(s, assignment, content, reason).session;
      && Consistent(t) && CanApply(Some(t))
      && forall execution, executed :: Execute(t, execution, executed).Refused?
  {
    LeaveKeeps(s, assignment, content, reason);
  }

  /** A valid evaluation recommending REPEAT. */
  lemma SampleEvaluation() returns (e: Evaluation)
    ensures EvaluationOk(e) && e.assignment == "a" && e.content == "c" && e.primary.kind.Repeat?
  {
    assert KindText(Repeat) == "repeat" && "action." + KindText(Repeat) == "action.repeat";
    var next := NextAction(Repeat, [], "action.repeat", None, None, None, None);
    assert NextActionOk(next);
    e := Evaluation("a", "c", "p", [], next, "sha256:0");
  }

  /** A session of the service: one evaluated attempt, not yet decided. */
  lemma SampleCreation() returns (first: Creation)
    ensures EvidenceOk(first.e, first.g, first.context)
    ensures Create(first.e, first.g, first.id, first.attemptId, first.context).Done?
    ensures first.e.assignment == "a" && first.e.content == "c" && first.e.primary.kind.Repeat?
  {
    var e := SampleEvaluation();
    var given: Option<seq<(string, string)>> := Some([]);
    assert Identifier("r") && Identifier("v") && Identifier("s") && Identifier("t");
    var projected := G.Project(e, "r", "v", map[], given);
    assert projected.Success?;
    Laws.BuiltIsValid(e, "r", "v", map[], given);
    BuiltProjectionIsEvidence(e, "r", "v", map[], given, "s", "t");
    first := Creation(e, projected.value, "s", "t", None);
  }

  /** A new session: its attempt awaits a decision. */
  lemma CreatedAwaits(first: Creation)
    requires EvidenceOk(first.e, first.g, first.context)
    requires Create(first.e, first.g, first.id, first.attemptId, first.context).Done?
    ensures var s := Create(first.e, first.g, first.id, first.attemptId, first.context).session;
      && Consistent(s) && s.status.AwaitingAction? && Last(s).disposition.Undecided?
      && s.pins.assignment == first.e.assignment && s.pins.content == first.e.content
  {
    CreateKeeps(first);
  }

  lemma ShownIsLast(s: Session)
    requires Consistent(s)
    ensures Shown(Some(s)) == Some(s.attempts[|s.attempts| - 1])
  {
  }

  /** Accepting the recommendation of a session that awaits a decision. */
  lemma AcceptedApplies(s: Session)
    requires Consistent(s) && s.status.AwaitingAction? && Last(s).disposition.Undecided?
    ensures Decide(s, Accepted).Done? && Consistent(Decide(s, Accepted).session)
    ensures var t := Decide(s, Accepted).session; t.status.AwaitingAction? && t.pins == s.pins && CanApply(Some(t))
  {
    DecisionRecorded(s, Accepted);
    DecideKeeps(s, Accepted);
    ShownIsLast(Decide(s, Accepted).session);
  }

  /** Left behind, with its gate open while the service refuses every execution. */
  ghost predicate GateOpen(t: Session) {
    && t.status.Transitioned? && CanApply(Some(t))
    && forall execution, executed :: Execute(t, execution, executed).Refused?
  }

  /** Leaving it then, for another assignment. */
  lemma AppliesAndLeaves(t: Session, assignment: string, content: string, reason: string)
    requires Consistent(t) && t.status.AwaitingAction? && CanApply(Some(t))
    requires Identifier(assignment) && Identifier(content) && Identifier(reason)
    requires assignment != t.pins.assignment || content != t.pins.content
    ensures Leave(t, assignment, content, reason).Done? && GateOpen(Leave(t, assignment, content, reason).session)
  {
    LeaveSuffices(t, assignment, content, reason);
    LeftSessionStaysApplicable(t, assignment, content, reason);
  }

  lemma AcceptLeave(s: Session, assignment: string, content: string, reason: string)
    requires Consistent(s) && s.status.AwaitingAction? && Last(s).disposition.Undecided?
    requires Identifier(assignment) && Identifier(content) && Identifier(reason)
    requires assignment != s.pins.assignment || content != s.pins.content
    ensures Decide(s, Accepted).Done? && Leave(Decide(s, Accepted).session, assignment, content, reason).Done?
    ensures GateOpen(Leave(Decide(s, Accepted).session, assignment, content, reason).session)
  {
    AcceptedApplies(s);
    AppliesAndLeaves(Decide(s, Accepted).session, assignment, content, reason);
  }

  lemma TwoOperations(first: Creation, x: Operation, y: Operation)
    requires Create(first.e, first.g, first.id, first.attemptId, first.context).Done?
    requires Perform(Create(first.e, first.g, first.id, first.attemptId, first.context).session, x).Done?
    ensures Run(first, [x, y]) == Perform(Perform(Run(first, []).session, x).session, y)
  {
    assert [x, y][..1] == [x] && [x][..0] == [];
    assert Run(first, [x]) == Perform(Run(first, []).session, x);
  }

  /** The session at the end of a run, left behind with its gate open. */
  ghost predicate LeftOpen(first: Creation, ops: seq<Operation>) {
    && ValidRun(first, ops) && Run(first, ops).Done?
    && GateOpen(Run(first, ops).session)
  }

  /** Create, accept and leave always ends so. */
  lemma CreateAcceptLeave(first: Creation, assignment: string, content: string, reason: string)
    requires EvidenceOk(first.e, first.g, first.context)
    requires Create(first.e, first.g, first.id, first.attemptId, first.context).Done?
    requires Identifier(assignment) && Identifier(content) && Identifier(reason)
    requires assignment != first.e.assignment || content != first.e.content
    ensures LeftOpen(first, [Deciding(Accepted), Leaving(assignment, content, reason)])
  {
    CreatedAwaits(first);
    var s := Run(first, []).session;
    AcceptLeave(s, assignment, content, reason);
    TwoOperations(first, Deciding(Accepted), Leaving(assignment, content, reason));
  }

  /** One such run of the service. */
  lemma LeftSessionRun() returns (first: Creation, ops: seq<Operation>)
    ensures first.e.primary.kind.Repeat? && first.e.assignment == "a" && first.e.content == "c"
    ensures ops == [Deciding(Accepted), Leaving("b", "c", "lesson_content_change")] && LeftOpen(first, ops)
  {
    first := SampleCreation();
    assert Identifier("b") && Identifier("c") && Identifier("lesson_content_change");
    CreateAcceptLeave(first, "b", "c", "lesson_content_change");
    ops := [Deciding(Accepted), Leaving("b", "c", "lesson_content_change")];
  }

  /** What the service accepts for an accepted action. */
  predicate Recordable(ran: Ran, recommended: NextAction) {
    && (ran.status.Failed? || (ran.status.Succeeded? && Performable(recommended.kind))
        || (ran.status.Unsupported? && !Performable(recommended.kind) && ran.executed.None?))
    && (ran.executed.Some? ==> ran.executed.value == recommended)
  }

  lemma OutcomesRecordable(session: Option<Session>, asked: Option<NextAction>, runtime: Runtime)
    requires CanApply(session)
    ensures var (ran, recommended) := (ExecuteGuided(session, asked, runtime), Shown(session).value.action.recommended);
      Recordable(ran, recommended) && Recordable(Ran(ran.status, Reported(ran, recommended)), recommended)
  {
  }

  lemma RecordableIsAccepted(s: Session, ran: Ran)
    requires Consistent(s) && CanApply(Some(s)) && !s.status.Transitioned? && Recordable(ran, Last(s).recommended)
    ensures Execute(s, ran.status, ran.executed).Done?
  {
    assert AttemptOk(CurrentAttempt(s));
    ExecuteSuffices(s, ran.status, ran.executed);
  }

  /** Whatever the runtime does, and whichever action the caller names, the outcome the executor
      reports is one the service accepts, as it stands and as the Apply button reports it. */
  lemma OutcomesAreAccepted(s: Session, asked: Option<NextAction>, runtime: Runtime)
    requires Consistent(s) && CanApply(Some(s)) && !s.status.Transitioned?
    ensures var ran := ExecuteGuided(Some(s), asked, runtime);
      && Execute(s, ran.status, ran.executed).Done?
      && Execute(s, ran.status, Reported(ran, Last(s).recommended)).Done?
  {
    var ran := ExecuteGuided(Some(s), asked, runtime);
    OutcomesRecordable(Some(s), asked, runtime);
    RecordableIsAccepted(s, ran);
    RecordableIsAccepted(s, Ran(ran.status, Reported(ran, Last(s).recommended)));
  }

  // ----- What running an action comes to -----

  /** The page can do what a slow-down asks: through its own function if it has one, else by the rate. */
  predicate CanSlowDown(action: NextAction, runtime: Runtime) {
    && action.targetRate.Some?
    && (runtime.applySlowDown == Truthy || (runtime.applySlowDown == Absent && runtime.setRate in {Truthy, Falsy}))
  }

  /** The action runs: a repetition and going on always do, the other two if the page can do what they ask. */
  predicate Runs(action: NextAction, runtime: Runtime) {
    || action.kind in {Repeat, Continue}
    || (action.kind == SlowDown && CanSlowDown(action, runtime))
    || (action.kind == IsolatePassage && action.focusStart.Some? && action.focusEnd.Some? && runtime.applyIsolatePassage == Truthy)
  }

  /** The last action of the session was accepted and not yet run. */
  predicate Waits(s: Session) { s.attempts != [] && Last(s).disposition == Accepted && Last(s).execution == Requested }

  /** The executor succeeds if and only if the accepted action waits, is the one asked for, and runs; it is
      unsupported if and only if it is one of the two views; and it reports the action it tried. */
  lemma ExecutedExactly(s: Session, asked: Option<NextAction>, runtime: Runtime)
    requires Consistent(s)
    ensures var r := ExecuteGuided(Some(s), asked, runtime);
      var mine := Waits(s) && (asked.Some? ==> asked.value.kind == Last(s).recommended.kind);
      var view := Last(s).recommended.kind in {ViewOneString, EnableZoneView};
      && (r.status == Succeeded <==> mine && Runs(Last(s).recommended, runtime))
      && (r.status == Unsupported <==> mine && view)
      && (r.status == Failed <==> !mine || (!view && !Runs(Last(s).recommended, runtime)))
      && r.executed == (if mine && !view then Some(Last(s).recommended) else None)
    ensures ExecuteGuided(None, asked, runtime) == Ran(Failed, None)
  {
  }

  /** A click on a waiting action that is neither out nor locked sends what running it came to, for the attempt
      shown, and notes a success; any other click does nothing. */
  lemma ClickedExactly(b: Button, s: Session, runtime: Runtime)
    requires b.store == Some(s) && Consistent(s)
    ensures var c, attempt := Clicked(b, runtime), s.attempts[|s.attempts| - 1];
      var key := s.id + ":" + attempt.id;
      if Waits(s) && b.inFlight.None? && key !in b.locked then
        var r := ExecuteGuided(Some(s), None, runtime);
        && c.inFlight == Some(Call(s.id, attempt.id, Some(key), r.status, if r.status == Unsupported then None else Some(attempt.action.recommended)))
        && c.applied == b.applied + (if r.status == Succeeded then [(s.id, attempt.id)] else [])
        && c.store == b.store && c.locked == b.locked
      else c == b
  {
    assert AttemptOk(s.attempts[|s.attempts| - 1]);
    ExecutedExactly(s, None, runtime);
    ExecutedExactly(s, Some(Last(s).recommended), runtime);
  }

  /** A recorded answer is shown; an answer that is lost locks the attempt of an action that succeeded. */
  lemma AnsweredExactly(b: Button, updated: Option<Session>)
    requires b.inFlight.Some?
    ensures var (a, call) := (Answered(b, updated), b.inFlight.value);
      && a.inFlight.None? && a.applied == b.applied
      && a.store == (if updated.Some? then updated else b.store)
      && a.locked == b.locked + (if updated.None? && call.status == Succeeded && call.key.Some? then {call.key.value} else {})
  {
  }
}
