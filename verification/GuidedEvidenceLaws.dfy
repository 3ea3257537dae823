/** Exactly what evidence and which operations the session service accepts, and what they leave behind. */
module GuidedEvidenceLaws {
  import opened Prelude
  import opened EducationContracts
  import G = Guidance
  import opened GuidedSession
  import opened GuidedSessionLaws

  /** The projection speaks of this very evaluation. */
  predicate SpeaksOf(g: G.Projection, e: Evaluation) {
    g.performance == e.performance && g.evaluationDigest == e.digest && g.next == e.primary
  }

  // ----- Acceptance -----

  /** A session is created if and only if the ids are identifiers and the projection speaks of the
      evaluation. */
  lemma CreateExactly(first: Creation)
    requires EvidenceOk(first.e, first.g, first.context)
    ensures var r := Create(first.e, first.g, first.id, first.attemptId, first.context);
      && (r.Done? <==> SpeaksOf(first.g, first.e) && Identifier(first.id) && Identifier(first.attemptId))
      && (r == Refused(EvidenceMismatch) <==> !SpeaksOf(first.g, first.e))
  {
    CreateSuffices(first);
  }

  /** It then holds that evidence as its only attempt, undecided. */
  lemma CreatedExactly(first: Creation)
    requires Create(first.e, first.g, first.id, first.attemptId, first.context).Done?
    ensures var t := Create(first.e, first.g, first.id, first.attemptId, first.context).session;
      && t.id == first.id && t.policy == "guided-practice-session-v1"
      && t.pins == Pins(first.e.assignment, first.e.content, first.g.revision)
      && t.status.AwaitingAction? && t.current == Some(0)
      && t.provenance == map[
           "producer" := "GuidedPracticeSessionV1/v1", "schema_version" := "1.0.0",
           "policy_version" := "guided-practice-session-v1", "source" := "education.guided_session_service"]
      && t.attempts == [Attempt(first.attemptId, 0, t.pins, first.e.performance, first.e.digest, first.g.digest,
           Action(first.e.primary, Undecided, NotRequested, None),
           if first.context.Some? then first.context.value else Context(None, None, None))]
  {
  }

  /** What keeps an attempt from being appended, told from the session and the evidence. */
  ghost predicate Appendable(s: Session, op: Operation)
    requires op.Appending?
  {
    && SpeaksOf(op.g, op.e) && Identifier(op.attemptId) && s.status.AwaitingAttempt?
    && op.e.assignment == s.pins.assignment && op.e.content == s.pins.content && op.g.revision == s.pins.revision
    && (op.index.Some? ==> op.index.value == |s.attempts|)
    && forall a <- s.attempts :: a.id != op.attemptId && a.performance != op.e.performance
  }

  /** An attempt is appended if and only if it is. */
  lemma AppendExactly(s: Session, op: Operation)
    requires Consistent(s) && ValidOperation(op) && op.Appending?
    ensures Perform(s, op).Done? <==> Appendable(s, op)
    ensures Perform(s, op) == Refused(EvidenceMismatch) <==> !SpeaksOf(op.g, op.e)
  {
    GuardsSuffice(s, op);
    AppendRefusesExactly(s, op);
  }

  lemma AppendRefusesExactly(s: Session, op: Operation)
    requires op.Appending?
    ensures Perform(s, op).Refused? <==> !Appendable(s, op)
    ensures Perform(s, op) == Refused(EvidenceMismatch) <==> !SpeaksOf(op.g, op.e)
  {
  }

  /** And the session then holds the evidence as one more attempt, undecided, after the earlier ones. */
  lemma AppendedExactly(s: Session, op: Operation)
    requires Consistent(s) && ValidOperation(op) && op.Appending? && Perform(s, op).Done?
    ensures var t := Perform(s, op).session;
      && t == s.(attempts := t.attempts, current := Some(|s.attempts|), status := AwaitingAction, digest := t.digest)
      && t.attempts == s.attempts + [Attempt(op.attemptId, |s.attempts|, s.pins, op.e.performance, op.e.digest, op.g.digest,
           Action(op.e.primary, Undecided, NotRequested, None),
           if op.context.Some? then op.context.value else Context(None, None, None))]
  {
    AppendSuffices(s, op.e, op.g, op.attemptId, op.index, op.context);
  }

  /** The actions the runtime can perform; the two views it cannot. */
  predicate HasRuntime(kind: ActionKind) { kind in {Continue, Repeat, SlowDown, IsolatePassage} }

  /** An outcome is recorded if and only if an accepted action waits for it and the outcome is one the
      action can have: a success or a failure if there is a runtime for it, a failure or unsupported, with
      nothing executed, if there is none. */
  lemma ExecuteExactly(s: Session, execution: Execution, executed: Option<NextAction>)
    requires Consistent(s) && (executed.Some? ==> ModestAction(executed.value))
    ensures Execute(s, execution, executed).Done? <==>
      && s.status.AwaitingAction? && Last(s).disposition.Accepted? && Last(s).execution.Requested?
      && (execution.Failed? || (execution.Succeeded? && HasRuntime(Last(s).recommended.kind))
          || (execution.Unsupported? && !HasRuntime(Last(s).recommended.kind) && executed.None?))
      && (executed.Some? ==> executed.value.kind == Last(s).recommended.kind)
  {
    ExecuteSuffices(s, execution, executed);
  }

  /** A session is left if and only if it is not over and the lesson really changes; it then keeps its
      attempts and notes where the learner went. */
  lemma LeaveExactly(s: Session, assignment: string, content: string, reason: string)
    requires Consistent(s)
    ensures var r := Leave(s, assignment, content, reason);
      && (r.Done? <==>
            && Identifier(assignment) && Identifier(content) && Identifier(reason)
            && (s.status.AwaitingAction? || s.status.AwaitingAttempt?)
            && (assignment != s.pins.assignment || content != s.pins.content))
      && (r.Done? ==>
            && r.session == s.(status := Transitioned, provenance := r.session.provenance, digest := r.session.digest)
            && r.session.provenance.Keys == s.provenance.Keys + {"transition_reason", "next_assignment_id", "next_content_id"}
            && r.session.provenance["transition_reason"] == reason
            && r.session.provenance["next_assignment_id"] == assignment
            && r.session.provenance["next_content_id"] == content
            && forall k <- s.provenance.Keys - {"transition_reason", "next_assignment_id", "next_content_id"} ::
                 r.session.provenance[k] == s.provenance[k])
  {
    LeaveSuffices(s, assignment, content, reason);
  }

  // ----- Digests -----

  /** Two sessions have the same digest if and only if they agree in every field but the provenance. */
  lemma SessionDigestExactly(s: Session, t: Session)
    requires Consistent(s) && Consistent(t)
    ensures s.digest == t.digest <==>
      && s.policy == t.policy && s.id == t.id && s.pins == t.pins && s.status == t.status
      && s.attempts == t.attempts && s.current == t.current
  {
  }

  /** The digest of guidance that was computed of its own content. */
  predicate TrulyDigested(g: G.Projection) {
    g.digest == G.DigestOf(g.revision, g.performance, g.evaluationDigest, g.policy, g.items, g.next)
  }

  /** Two projections have the same digest if and only if they agree in their revision, performance,
      evaluation, policy and action, and in their sorted items but for the zones. */
  lemma GuidanceDigestExactly(g: G.Projection, h: G.Projection)
    requires TrulyDigested(g) && TrulyDigested(h)
    ensures g.digest == h.digest <==>
      && g.revision == h.revision && g.performance == h.performance && g.evaluationDigest == h.evaluationDigest
      && g.policy == h.policy && g.next == h.next
      && SameButZones(G.Sort(g.items), G.Sort(h.items))
  {
    var xs, ys := G.Sort(g.items), G.Sort(h.items);
    if SameButZones(xs, ys) {
      assert G.Cores(xs) == G.Cores(ys);
    } else if G.Cores(xs) == G.Cores(ys) {
      assert |xs| == |G.Cores(xs)| == |G.Cores(ys)| == |ys|;
      forall i | 0 <= i < |xs|
        ensures xs[i].(zone := None) == ys[i].(zone := None)
      {
        assert G.Cores(xs)[i] == G.Cores(ys)[i];
      }
    }
  }

  predicate SameButZones(xs: seq<G.Item>, ys: seq<G.Item>) {
    |xs| == |ys| && forall i | 0 <= i < |xs| :: xs[i].(zone := None) == ys[i].(zone := None)
  }

  // ----- Over whole runs -----

  /** Every projection handed in carries its true digest. */
  ghost predicate Truthful(first: Creation, ops: seq<Operation>) {
    TrulyDigested(first.g) && forall op <- ops | op.Appending? :: TrulyDigested(op.g)
  }

  /** The attempt's guidance is guidance on its own performance, evaluation, revision and action. */
  predicate OwnGuidance(a: Attempt) {
    && a.guidanceDigest.OfGuidance?
    && var content := a.guidanceDigest.content;
    && content.performance == a.performance && content.evaluationDigest == a.evaluationDigest
    && content.revision == a.pins.revision && content.next == a.action.recommended
  }

  lemma StepKeepsGuidance(s: Session, op: Operation)
    requires Consistent(s) && ValidOperation(op) && Perform(s, op).Done? && (op.Appending? ==> TrulyDigested(op.g))
    requires forall a <- s.attempts :: OwnGuidance(a)
    ensures forall a <- Perform(s, op).session.attempts :: OwnGuidance(a)
  {
    var t := Perform(s, op).session;
    if op.Appending? {
      AppendExactly(s, op);
      AppendedExactly(s, op);
    } else {
      StepKeeps(s, op);
      SameNumber(s, op);
      forall i | 0 <= i < |t.attempts|
        ensures OwnGuidance(t.attempts[i])
      {
        assert OwnGuidance(s.attempts[i]) && Kept(s.attempts[i], t.attempts[i]);
      }
    }
  }

  lemma SameNumber(s: Session, op: Operation)
    requires Consistent(s) && ValidOperation(op) && Perform(s, op).Done? && !op.Appending?
    ensures |Perform(s, op).session.attempts| == |s.attempts|
  {
    match op
    case Deciding(d) => DecisionRecorded(s, d);
    case Executing(execution, executed) => ExecutionRecorded(s, execution, executed);
    case Leaving(assignment, content, reason) => LeaveKeeps(s, assignment, content, reason);
  }

  /** If every projection handed in carries its true digest, then in every session of a run each attempt's
      guidance digest is of guidance on that attempt's own performance and evaluation. */
  lemma {:induction false} GuidanceIsOwn(first: Creation, ops: seq<Operation>)
    requires ValidRun(first, ops) && Truthful(first, ops) && Run(first, ops).Done?
    ensures forall a <- Run(first, ops).session.attempts :: OwnGuidance(a)
    decreases |ops|
  {
    if ops == [] {
      CreatedExactly(first);
      CreateExactly(first);
    } else {
      var earlier, op := ops[..|ops| - 1], ops[|ops| - 1];
      assert op in ops;
      GuidanceIsOwn(first, earlier);
      RunInvariant(first, earlier);
      StepKeepsGuidance(Run(first, earlier).session, op);
    }
  }
}
