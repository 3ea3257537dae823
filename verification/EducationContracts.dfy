/** The records an evaluation is made of, and the checks their constructors run
    (src/master_all_strings/education/contracts.py, errors.py, messages.py). */
module EducationContracts {
  import opened Prelude
  import opened Text

  // ----- Identifiers -----

  /** Not blank, and not padded. */
  predicate Identifier(s: string) { s != "" && !Blank(s[0]) && !Blank(s[|s| - 1]) }

  predicate DigestText(s: string) { Identifier(s) && "sha256:" <= s }

  predicate Distinct<T(==)>(values: seq<T>) { forall i, j | 0 <= i < j < |values| :: values[i] != values[j] }

  // ----- Kinds -----

  datatype ActionKind = Continue | Repeat | SlowDown | IsolatePassage | ViewOneString | EnableZoneView

  function KindText(kind: ActionKind): string {
    match kind
    case Continue => "continue"
    case Repeat => "repeat"
    case SlowDown => "slow_down"
    case IsolatePassage => "isolate_passage"
    case ViewOneString => "view_one_string"
    case EnableZoneView => "enable_zone_view"
  }

  datatype FindingKind =
    | EarlyEntry | LateEntry | PitchDifference | ExpectedNoteMissing | UnexpectedNote
    | DurationShort | DurationLong | RepetitionImproved | RepetitionRegressed | FindingsConcentrated

  function FindingText(kind: FindingKind): string {
    match kind
    case EarlyEntry => "early_entry"
    case LateEntry => "late_entry"
    case PitchDifference => "pitch_difference"
    case ExpectedNoteMissing => "expected_note_missing"
    case UnexpectedNote => "unexpected_note"
    case DurationShort => "duration_short"
    case DurationLong => "duration_long"
    case RepetitionImproved => "repetition_improved"
    case RepetitionRegressed => "repetition_regressed"
    case FindingsConcentrated => "findings_concentrated"
  }

  datatype Severity = Info | Focus | Significant

  function SeverityText(severity: Severity): string {
    match severity
    case Info => "info"
    case Focus => "focus"
    case Significant => "significant"
  }

  /** The message catalog: one key for each kind of finding and of action. */
  ghost predicate Catalogued(key: string) {
    || (exists kind: FindingKind :: key == "finding." + FindingText(kind))
    || (exists kind: ActionKind :: key == "action." + KindText(kind))
  }

  // ----- Wording -----

  const MASTERY: seq<string> := ["mastered", "perfect", "complete", "passed curriculum"]

  function LowerChar(c: char): char { if 'A' <= c <= 'Z' then c - 'A' + 'a' else c }

  function Lower(s: string): (r: string)
    ensures |r| == |s|
  {
    seq(|s|, i requires 0 <= i < |s| => LowerChar(s[i]))
  }

  predicate Within(token: string, text: string) {
    exists i | 0 <= i <= |text| :: token <= text[i..]
  }

  /** The wording claims no mastery. */
  predicate Modest(text: string) { forall token | token in MASTERY :: !Within(token, Lower(text)) }

  /** Two adjacent letters of each forbidden token; no catalog key contains such a pair. */
  predicate Telltale(a: char, b: char) {
    (a == 'm' && b == 'a') || (a == 'r' && b == 'f') || (a == 'p' && b == 'l') || (a == 'd' && b == ' ')
  }

  /** Lower case without such a pair, from position `i` on. */
  predicate PlainFrom(s: string, i: nat)
    decreases |s| - i
  {
    i < |s| ==> !('A' <= s[i] <= 'Z') && (i + 1 < |s| ==> !Telltale(s[i], s[i + 1])) && PlainFrom(s, i + 1)
  }

  lemma {:induction false} PlainAt(s: string, from: nat, i: nat)
    requires PlainFrom(s, from) && from <= i < |s|
    ensures !('A' <= s[i] <= 'Z') && (i + 1 < |s| ==> !Telltale(s[i], s[i + 1]))
    decreases i - from
  {
    if from < i {
      PlainAt(s, from + 1, i);
    }
  }

  lemma LettersAt(token: string, text: string, i: nat, k: nat)
    requires i <= |text| && k + 1 < |token|
    ensures token <= text[i..] ==>
      i + k + 1 < |text| && text[i + k] == token[k] && text[i + k + 1] == token[k + 1]
  {
    if token <= text[i..] {
      assert text[i..][k] == token[k] && text[i..][k + 1] == token[k + 1];
    }
  }

  lemma PlainIsModest(prefix: string, name: string)
    requires prefix in {"", "finding.", "action."} && PlainFrom(prefix, 0) && PlainFrom(name, 0)
    ensures Modest(prefix + name)
  {
    var text := prefix + name;
    forall i | 0 <= i < |text|
      ensures !('A' <= text[i] <= 'Z') && (i + 1 < |text| ==> !Telltale(text[i], text[i + 1]))
    {
      if i < |prefix| {
        PlainAt(prefix, 0, i);
      } else {
        PlainAt(name, 0, i - |prefix|);
      }
    }
    assert Lower(text) == text;
    forall token, i | token in MASTERY && 0 <= i <= |text|
      ensures !(token <= text[i..])
    {
      var k := if token == "mastered" then 0 else if token == "perfect" then 2 else if token == "complete" then 3 else 5;
      assert Telltale(token[k], token[k + 1]);
      LettersAt(token, text, i, k);
    }
  }

  lemma LongTextsArePlain()
    ensures PlainFrom("expected_note_missing", 0)
    ensures PlainFrom("repetition_improved", 0)
    ensures PlainFrom("repetition_regressed", 0)
    ensures PlainFrom("findings_concentrated", 0)
  {
    assert PlainFrom("expected_note_missing", 15);
    assert PlainFrom("expected_note_missing", 10);
    assert PlainFrom("expected_note_missing", 5);
    assert PlainFrom("repetition_improved", 15);
    assert PlainFrom("repetition_improved", 10);
    assert PlainFrom("repetition_improved", 5);
    assert PlainFrom("repetition_regressed", 15);
    assert PlainFrom("repetition_regressed", 10);
    assert PlainFrom("repetition_regressed", 5);
    assert PlainFrom("findings_concentrated", 15);
    assert PlainFrom("findings_concentrated", 10);
    assert PlainFrom("findings_concentrated", 5);
  }

  lemma ShortTextsArePlain()
    ensures PlainFrom("early_entry", 0)
    ensures PlainFrom("late_entry", 0)
    ensures PlainFrom("pitch_difference", 0)
    ensures PlainFrom("unexpected_note", 0)
    ensures PlainFrom("duration_short", 0)
    ensures PlainFrom("duration_long", 0)
  {
    assert PlainFrom("pitch_difference", 10);
    assert PlainFrom("pitch_difference", 5);
    assert PlainFrom("unexpected_note", 8);
    assert PlainFrom("duration_short", 8);
    assert PlainFrom("duration_long", 8);
  }

  lemma FindingTextIsPlain(kind: FindingKind)
    ensures PlainFrom(FindingText(kind), 0)
  {
    LongTextsArePlain();
    ShortTextsArePlain();
  }

  lemma ActionTextIsPlain(kind: ActionKind)
    ensures PlainFrom(KindText(kind), 0)
  {
    match kind
    case Continue =>
      assert PlainFrom("continue", 5);
    case Repeat =>
      assert PlainFrom("repeat", 5);
    case SlowDown =>
      assert PlainFrom("slow_down", 5);
    case IsolatePassage =>
      assert PlainFrom("isolate_passage", 10);
      assert PlainFrom("isolate_passage", 5);
    case ViewOneString =>
      assert PlainFrom("view_one_string", 10);
      assert PlainFrom("view_one_string", 5);
    case EnableZoneView =>
      assert PlainFrom("enable_zone_view", 15);
      assert PlainFrom("enable_zone_view", 10);
      assert PlainFrom("enable_zone_view", 5);
  }

  /** Every catalog key passes the wording check. */
  lemma CatalogIsModest(key: string)
    requires Catalogued(key)
    ensures Modest(key)
  {
    if kind: FindingKind :| key == "finding." + FindingText(kind) {
      FindingTextIsPlain(kind);
      PlainIsModest("finding.", FindingText(kind));
    } else {
      var kind: ActionKind :| key == "action." + KindText(kind);
      ActionTextIsPlain(kind);
      PlainIsModest("action.", KindText(kind));
    }
  }

  // ----- Next actions -----

  datatype NextAction = NextAction(
    kind: ActionKind, reasons: seq<string>, messageKey: string, targetRate: Option<real>,
    focusStart: Option<int>, focusEnd: Option<int>, teachingAid: Option<string>)

  const RATES: set<real> := {0.5, 0.75, 1.0, 1.5}

  predicate OptionalIdentifier(s: Option<string>) { s.Some? ==> Identifier(s.value) }

  /** A range of ticks, either end of which may be absent. */
  predicate TicksOk(start: Option<int>, end: Option<int>) {
    && (start.Some? ==> start.value >= 0) && (end.Some? ==> end.value >= 0)
    && (start.Some? && end.Some? ==> start.value <= end.value)
  }

  ghost predicate NextActionOk(a: NextAction) {
    && (forall r <- a.reasons :: Identifier(r)) && Distinct(a.reasons)
    && Identifier(a.messageKey) && Catalogued(a.messageKey)
    && (a.targetRate.Some? ==> a.targetRate.value in RATES)
    && TicksOk(a.focusStart, a.focusEnd)
    && OptionalIdentifier(a.teachingAid)
    && (a.kind.SlowDown? ==> a.targetRate.Some?)
    && (a.kind.IsolatePassage? ==> a.focusStart.Some? && a.focusEnd.Some?)
  }

  predicate ModestAction(a: NextAction) { Modest(KindText(a.kind)) && Modest(a.messageKey) }

  /** A valid next action never trips the wording check of a later record. */
  lemma ActionsAreModest(a: NextAction)
    requires NextActionOk(a)
    ensures ModestAction(a)
  {
    ActionTextIsPlain(a.kind);
    PlainIsModest("", KindText(a.kind));
    assert "" + KindText(a.kind) == KindText(a.kind);
    CatalogIsModest(a.messageKey);
  }

  // ----- Findings and evaluations -----

  /** The parts of a finding its projection reads. */
  datatype Finding = Finding(
    id: string, kind: FindingKind, severity: Severity, evidence: seq<string>, messageKey: string,
    events: seq<string>, observed: Option<real>, threshold: Option<real>)

  ghost predicate FindingOk(f: Finding) {
    && Identifier(f.id)
    && f.evidence != [] && (forall r <- f.evidence :: Identifier(r)) && Distinct(f.evidence)
    && (forall r <- f.events :: Identifier(r)) && Distinct(f.events)
    && Identifier(f.messageKey) && Catalogued(f.messageKey)
  }

  datatype Evaluation = Evaluation(
    assignment: string, content: string, performance: string, findings: seq<Finding>, primary: NextAction, digest: string)

  predicate DistinctIds(findings: seq<Finding>) {
    forall i, j | 0 <= i < j < |findings| :: findings[i].id != findings[j].id
  }

  ghost predicate EvaluationOk(e: Evaluation) {
    && Identifier(e.assignment) && Identifier(e.content) && Identifier(e.performance) && DigestText(e.digest)
    && (forall f <- e.findings :: FindingOk(f)) && DistinctIds(e.findings)
    && NextActionOk(e.primary)
  }
}
