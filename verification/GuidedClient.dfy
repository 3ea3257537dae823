/** The browser's view of a guided session: its control gates, the dispatch of an accepted action
    onto the runtime, and the Apply button
    (web/mvp1/guided_disposition.js, web/mvp1/guided-action-executor.js). */
module GuidedClient {
  import opened Prelude
  import opened EducationContracts
  import opened GuidedSession

  // ----- Gates -----

  function Shown(session: Option<Session>): Option<Attempt> {
    if session.None? || session.value.attempts == [] then None
    else
      var s := session.value;
      match s.current
      case None => Some(s.attempts[|s.attempts| - 1])
      case Some(i) => if i < |s.attempts| then Some(s.attempts[i]) else None
  }

  predicate CanRecordDisposition(session: Option<Session>) {
    && session.Some? && session.value.status.AwaitingAction?
    && Shown(session).Some? && Shown(session).value.action.disposition.Undecided?
  }

  predicate CanApply(session: Option<Session>) {
    var shown := Shown(session);
    shown.Some? && shown.value.action.disposition.Accepted? && shown.value.action.execution.Requested?
  }

  // ----- The executor -----

  /** A function of the page the executor may call: absent, or with a truthy or falsy result, or throwing. */
  datatype Seam = Absent | Truthy | Falsy | Throwing

  datatype Runtime = Runtime(setRate: Seam, applySlowDown: Seam, applyIsolatePassage: Seam)

  datatype Ran = Ran(status: Execution, executed: Option<NextAction>)

  function RunSlowDown(action: NextAction, runtime: Runtime): Ran {
    if action.targetRate.None? then Ran(Failed, Some(action))
    else if !runtime.applySlowDown.Absent? then
      Ran(if runtime.applySlowDown.Truthy? then Succeeded else Failed, Some(action))
    else Ran(if runtime.setRate.Absent? || runtime.setRate.Throwing? then Failed else Succeeded, Some(action))
  }

  function RunIsolatePassage(action: NextAction, runtime: Runtime): Ran {
    if action.focusStart.None? || action.focusEnd.None? then Ran(Failed, Some(action))
    else Ran(if runtime.applyIsolatePassage.Truthy? then Succeeded else Failed, Some(action))
  }

  /** `asked` is the action the caller names; only its kind matters. */
  function ExecuteGuided(session: Option<Session>, asked: Option<NextAction>, runtime: Runtime): Ran {
    if !CanApply(session) then Ran(Failed, None)
    else
      var recommended := Shown(session).value.action.recommended;
      if asked.Some? && asked.value.kind != recommended.kind then Ran(Failed, None)
      else match recommended.kind
        case ViewOneString => Ran(Unsupported, None)
        case EnableZoneView => Ran(Unsupported, None)
        case SlowDown => RunSlowDown(recommended, runtime)
        case IsolatePassage => RunIsolatePassage(recommended, runtime)
        case Repeat => Ran(Succeeded, Some(recommended))
        case Continue => Ran(Succeeded, Some(recommended))
  }

  /** What the Apply button reports as executed. */
  function Reported(ran: Ran, asked: NextAction): Option<NextAction> {
    if ran.status.Unsupported? then None else if ran.executed.Some? then ran.executed else Some(asked)
  }

  // ----- The Apply button -----

  /** The key the button locks by: session and attempt joined by a colon. */
  function LockKey(session: Option<Session>): Option<string> {
    if session.None? then None
    else
      var s := session.value;
      var i := if s.current.Some? then s.current.value else 0;
      if i >= |s.attempts| || s.id == "" || s.attempts[i].id == "" then None
      else Some(s.id + ":" + s.attempts[i].id)
  }

  /** A click waiting for its evidence to be recorded. */
  datatype Call = Call(session: string, attempt: string, key: Option<string>, status: Execution, executed: Option<NextAction>)

  /** `applied` lists the attempts whose runtime action succeeded. */
  datatype Button = Button(
    store: Option<Session>, inFlight: Option<Call>, locked: set<string>, applied: seq<(string, string)>)

  function Clicked(b: Button, runtime: Runtime): Button {
    var key := LockKey(b.store);
    if !CanApply(b.store) || b.inFlight.Some? then b
    else if key.Some? && key.value in b.locked then b
    else
      var attempt := Shown(b.store).value;
      var ran := ExecuteGuided(b.store, Some(attempt.action.recommended), runtime);
      var call := Call(b.store.value.id, attempt.id, key, ran.status, Reported(ran, attempt.action.recommended));
      b.(inFlight := Some(call),
         applied := if ran.status.Succeeded? then b.applied + [(call.session, call.attempt)] else b.applied)
  }

  /** The recording came back with the updated session, or failed. */
  function Answered(b: Button, updated: Option<Session>): Button {
    if b.inFlight.None? then b
    else
      var call := b.inFlight.value;
      if updated.Some? then b.(inFlight := None, store := updated)
      else if call.status.Succeeded? && call.key.Some? then
        b.(inFlight := None, locked := b.locked + {call.key.value})
      else b.(inFlight := None)
  }

  /** The page shows another session, or none: an answer to another request, a lesson change. */
  function Showing(b: Button, session: Option<Session>): Button { b.(store := session) }

  class ApplyHandler {
    var session: Option<Session>
    var inFlight: Option<Call>
    var runtimeSucceededWithoutEvidence: set<string>
    /** The runtime actions that succeeded, in order. */
    var applied: seq<(string, string)>

    ghost function State(): Button
      reads this
    {
      Button(session, inFlight, runtimeSucceededWithoutEvidence, applied)
    }

    constructor ()
      ensures State() == Button(None, None, {}, [])
    {
      session, inFlight, runtimeSucceededWithoutEvidence, applied := None, None, {}, [];
    }

    /** One click, up to the moment its evidence is sent. */
    method Click(runtime: Runtime)
      modifies this
      ensures State() == Clicked(old(State()), runtime)
    {
      var key := LockKey(session);
      if !CanApply(session) || inFlight.Some? {
        return;
      }
      if key.Some? && key.value in runtimeSucceededWithoutEvidence {
        return;
      }
      var action := Shown(session).value.action.recommended;
      var ran := ExecuteGuided(session, Some(action), runtime);
      if ran.status.Succeeded? {
        applied := applied + [(session.value.id, Shown(session).value.id)];
      }
      inFlight := Some(Call(session.value.id, Shown(session).value.id, key, ran.status, Reported(ran, action)));
    }

    /** The evidence was recorded, or its recording failed. */
    method Recorded(updated: Option<Session>)
      requires inFlight.Some?
      modifies this
      ensures State() == Answered(old(State()), updated)
    {
      var call := inFlight.value;
      if updated.Some? {
        session := updated;
      } else if call.status.Succeeded? && call.key.Some? {
        runtimeSucceededWithoutEvidence := runtimeSucceededWithoutEvidence + {call.key.value};
      }
      inFlight := None;
    }

    /** The page's own update of the session the handler reads. */
    method SetSession(updated: Option<Session>)
      modifies this`session
      ensures State() == Showing(old(State()), updated)
    {
      session := updated;
    }
  }
}
