/** What the constructors of the education records accept, told another way. */
module EducationMeaning {
  import opened Prelude
  import opened Text
  import opened EducationContracts
  import G = Guidance
  import opened GuidedSession

  // ----- Texts -----

  function StripLeft(s: string): string { if s != "" && Blank(s[0]) then StripLeft(s[1..]) else s }

  function StripRight(s: string): string { if s != "" && Blank(s[|s| - 1]) then StripRight(s[..|s| - 1]) else s }

  function Strip(s: string): string { StripRight(StripLeft(s)) }

  lemma {:induction false} StripShorter(s: string)
    ensures |StripLeft(s)| <= |s| && |StripRight(s)| <= |s|
    ensures s != "" && Blank(s[0]) ==> |StripLeft(s)| < |s|
    ensures s != "" && Blank(s[|s| - 1]) ==> |StripRight(s)| < |s|
    decreases |s|
  {
    if s != "" {
      StripShorter(s[1..]);
      StripShorter(s[..|s| - 1]);
    }
  }

  /** An identifier is a text that is not empty and that stripping leaves alone. */
  lemma IdentifierExactly(s: string)
    ensures Identifier(s) <==> s != "" && Strip(s) == s
  {
    StripShorter(s);
    StripShorter(StripLeft(s));
  }

  /** A digest is an identifier that begins with the name of its hash. */
  lemma DigestTextExactly(s: string)
    ensures DigestText(s) <==> Identifier(s) && exists rest :: s == "sha256:" + rest
  {
    if "sha256:" <= s {
      assert s == "sha256:" + s[7..];
    }
  }

  lemma {:induction false} CountedTwice<T>(values: seq<T>, i: nat, j: nat)
    requires i < j < |values| && values[i] == values[j]
    ensures multiset(values)[values[i]] >= 2
  {
    assert values == values[..i] + [values[i]] + values[i + 1..j] + [values[j]] + values[j + 1..];
  }

  lemma {:induction false} CountedOnce<T>(values: seq<T>, i: nat)
    requires i < |values| && forall j | 0 <= j < |values| && j != i :: values[j] != values[i]
    ensures multiset(values)[values[i]] == 1
  {
    assert values == values[..i] + [values[i]] + values[i + 1..];
    assert values[i] !in values[..i] && values[i] !in values[i + 1..];
  }

  /** Values are distinct when each counts once. */
  lemma DistinctExactly<T>(values: seq<T>)
    ensures Distinct(values) <==> forall v <- values :: multiset(values)[v] == 1
  {
    if Distinct(values) {
      forall v <- values
        ensures multiset(values)[v] == 1
      {
        var i :| 0 <= i < |values| && values[i] == v;
        CountedOnce(values, i);
      }
    } else {
      var i, j :| 0 <= i < j < |values| && values[i] == values[j];
      CountedTwice(values, i, j);
    }
  }

  // ----- Actions and findings -----

  predicate Rate(rate: real) { rate == 0.5 || rate == 0.75 || rate == 1.0 || rate == 1.5 }

  /** No tick is negative, and a range does not end before it starts. */
  predicate Range(start: Option<int>, end: Option<int>) {
    match (start, end)
    case (None, None) => true
    case (Some(s), None) => 0 <= s
    case (None, Some(e)) => 0 <= e
    case (Some(s), Some(e)) => 0 <= s <= e
  }

  /** Each reason is given once. */
  predicate Reasons(reasons: seq<string>) { forall r <- reasons :: Identifier(r) && multiset(reasons)[r] == 1 }

  /** What an action of each kind needs. */
  lemma NextActionExactly(a: NextAction)
    ensures NextActionOk(a) <==>
      && Reasons(a.reasons) && Identifier(a.messageKey) && Catalogued(a.messageKey)
      && (a.targetRate.None? || Rate(a.targetRate.value)) && Range(a.focusStart, a.focusEnd)
      && (a.teachingAid.None? || Identifier(a.teachingAid.value))
      && match a.kind
         case SlowDown => a.targetRate.Some?
         case IsolatePassage => a.focusStart.Some? && a.focusEnd.Some?
         case _ => true
  {
    DistinctExactly(a.reasons);
  }

  /** What a finding needs: evidence, and no reference twice. */
  lemma FindingExactly(f: Finding)
    ensures FindingOk(f) <==>
      && Identifier(f.id) && |f.evidence| > 0 && Reasons(f.evidence) && Reasons(f.events)
      && Identifier(f.messageKey) && Catalogued(f.messageKey)
  {
    DistinctExactly(f.evidence);
    DistinctExactly(f.events);
  }

  /** What an evaluation needs: findings told apart by their ids. */
  lemma EvaluationExactly(e: Evaluation)
    ensures EvaluationOk(e) <==>
      && Identifier(e.assignment) && Identifier(e.content) && Identifier(e.performance) && DigestText(e.digest)
      && (forall f <- e.findings :: FindingOk(f))
      && (forall i, j | 0 <= i < |e.findings| && 0 <= j < |e.findings| && i != j :: e.findings[i].id != e.findings[j].id)
      && NextActionOk(e.primary)
  {
    if DistinctIds(e.findings) {
      forall i, j | 0 <= i < |e.findings| && 0 <= j < |e.findings| && i != j
        ensures e.findings[i].id != e.findings[j].id
      {
        if i < j {
          assert e.findings[i].id != e.findings[j].id;
        } else {
          assert e.findings[j].id != e.findings[i].id;
        }
      }
    }
  }

  const CAPITALS: string := "ABCDEFGHIJKLMNOPQRSTUVWXYZ"
  const SMALL: string := "abcdefghijklmnopqrstuvwxyz"

  /** Lower case puts the small letter for each capital and leaves all else. */
  lemma LowerExactly(s: string, i: nat)
    requires i < |s|
    ensures forall k | 0 <= k < 26 && s[i] == CAPITALS[k] :: Lower(s)[i] == SMALL[k]
    ensures s[i] !in CAPITALS ==> Lower(s)[i] == s[i]
  {
    assert forall k | 0 <= k < 26 :: CAPITALS[k] as int == 'A' as int + k && SMALL[k] as int == 'a' as int + k;
    if 'A' <= s[i] <= 'Z' {
      assert CAPITALS[s[i] as int - 'A' as int] == s[i];
    }
  }

  /** Neither the text of an action's kind nor its message claims mastery, in whatever letters. */
  lemma ModestExactly(text: string)
    ensures Modest(text) <==>
      forall before, after ::
        && Lower(text) != before + "mastered" + after && Lower(text) != before + "perfect" + after
        && Lower(text) != before + "complete" + after && Lower(text) != before + "passed curriculum" + after
  {
    var low := Lower(text);
    WithinExactly("mastered", low);
    WithinExactly("perfect", low);
    WithinExactly("complete", low);
    WithinExactly("passed curriculum", low);
    assert MASTERY[0] == "mastered" && MASTERY[1] == "perfect" && MASTERY[2] == "complete" && MASTERY[3] == "passed curriculum";
  }

  lemma WithinExactly(token: string, text: string)
    ensures Within(token, text) <==> exists before, after :: text == before + token + after
  {
    if Within(token, text) {
      var i :| 0 <= i <= |text| && token <= text[i..];
      assert text == text[..i] + token + text[i + |token|..];
    }
    if before, after :| text == before + token + after {
      assert text[|before|..] == token + after;
    }
  }

  // ----- Guidance records -----

  /** A guidance item needs evidence, and names that are identifiers. */
  lemma ItemExactly(item: G.Item)
    ensures G.ItemOk(item) <==>
      && |item.evidence| > 0 && (forall name <- item.evidence + [item.findingId, item.messageKey] :: Identifier(name))
      && (item.event.None? || Identifier(item.event.value)) && (item.zone.None? || Identifier(item.zone.value))
  {
    var names := item.evidence + [item.findingId, item.messageKey];
    assert names[|item.evidence|] == item.findingId && names[|item.evidence| + 1] == item.messageKey;
    assert forall name <- item.evidence :: name in names;
  }

  /** A projection needs a valid action, well-formed items, and names and provenance that are identifiers. */
  lemma ProjectionExactly(p: G.Projection)
    ensures G.ProjectionOk(p) <==>
      && (forall name <- [p.revision, p.performance, p.policy] :: Identifier(name)) && DigestText(p.evaluationDigest)
      && (p.digest.Given? ==> DigestText(p.digest.text))
      && (forall i | 0 <= i < |p.items| :: G.ItemOk(p.items[i]))
      && NextActionOk(p.next) && ModestAction(p.next)
      && (forall i | 0 <= i < |p.provenance| :: Identifier(p.provenance[i].0) && Identifier(p.provenance[i].1))
  {
    var names := [p.revision, p.performance, p.policy];
    assert names[0] in names && names[1] in names && names[2] in names;
  }

  // ----- Session records -----

  /** The states an action can be in. */
  lemma ActionExactly(a: Action)
    ensures ActionOk(a) <==>
      && ModestAction(a.recommended) && (a.executed.Some? ==> ModestAction(a.executed.value))
      && match (a.disposition, a.execution)
         case (Undecided, NotRequested) => a.executed.None?
         case (Declined, NotRequested) => a.executed.None?
         case (Accepted, NotRequested) => a.executed.None?
         case (Accepted, Requested) => a.executed.None?
         case (Accepted, Succeeded) => a.executed.Some?
         case (Accepted, Failed) => true
         case (Accepted, Unsupported) => a.executed.None?
         case _ => false
  {
  }

  /** A context's rate is one of the four, and its loop has both ends or none. */
  lemma ContextExactly(c: Context)
    ensures ContextOk(c) <==>
      && (c.rate.None? || Rate(c.rate.value))
      && ((c.loopStart.None? && c.loopEnd.None?)
          || (c.loopStart.Some? && c.loopEnd.Some? && 0 <= c.loopStart.value <= c.loopEnd.value))
  {
  }

  /** An attempt names itself, its pins, its performance and the digests of its evidence. */
  lemma AttemptExactly(a: Attempt)
    ensures AttemptOk(a) <==>
      && (forall name <- [a.id, a.pins.assignment, a.pins.content, a.pins.revision, a.performance] :: Identifier(name))
      && DigestText(a.evaluationDigest) && (a.guidanceDigest.Given? ==> DigestText(a.guidanceDigest.text))
      && ActionOk(a.action) && ContextOk(a.context)
  {
    var names := [a.id, a.pins.assignment, a.pins.content, a.pins.revision, a.performance];
    assert names[0] in names && names[1] in names && names[2] in names && names[3] in names && names[4] in names;
  }

  /** A session's attempts are numbered in order, told apart by id and by performance, all under the session's
      pins, and the last one is the current one. */
  lemma SessionExactly(s: Session)
    ensures SessionOk(s) <==>
      && (forall name <- [s.policy, s.id, s.pins.assignment, s.pins.content, s.pins.revision] :: Identifier(name))
      && (forall i | 0 <= i < |s.attempts| ::
            AttemptOk(s.attempts[i]) && s.attempts[i].pins == s.pins && s.attempts[i].index == i)
      && (forall i, j | 0 <= i < |s.attempts| && 0 <= j < |s.attempts| && i != j ::
            s.attempts[i].id != s.attempts[j].id && s.attempts[i].performance != s.attempts[j].performance)
      && (s.current.None? <==> s.attempts == []) && (s.current.Some? ==> s.current.value == |s.attempts| - 1)
      && (forall k <- s.provenance.Keys :: Identifier(k)) && (forall v <- s.provenance.Values :: Identifier(v))
  {
    var names := [s.policy, s.id, s.pins.assignment, s.pins.content, s.pins.revision];
    assert names[0] in names && names[1] in names && names[2] in names && names[3] in names && names[4] in names;
    assert forall k <- s.provenance :: s.provenance[k] in s.provenance.Values;
    if Attempts(s.attempts, s.pins) {
      forall i, j | 0 <= i < |s.attempts| && 0 <= j < |s.attempts| && i != j
        ensures s.attempts[i].id != s.attempts[j].id && s.attempts[i].performance != s.attempts[j].performance
      {
        if i < j {
          assert s.attempts[i].id != s.attempts[j].id;
        } else {
          assert s.attempts[j].id != s.attempts[i].id;
        }
      }
    }
  }
}
