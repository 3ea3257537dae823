/** What a projection of an evaluation holds, told from the evaluation alone. */
module GuidanceMeaning {
  import opened Prelude
  import opened Ordering
  import opened EducationContracts
  import opened Guidance
  import opened GuidanceLaws

  /** The item projects this finding onto one of the events it refers to, or onto none if it refers to none,
      and carries the zone recorded for that event. */
  predicate Projects(item: Item, f: Finding, zones: map<string, string>) {
    && item.findingId == f.id && item.kind == f.kind && item.severity == f.severity && item.evidence == f.evidence
    && item.messageKey == f.messageKey && item.observed == f.observed && item.threshold == f.threshold
    && (if item.event.Some? then item.event.value in f.events else f.events == [])
    && item.zone == (if item.event.Some? && item.event.value in zones then Some(zones[item.event.value]) else None)
  }

  lemma ProjectsExactly(item: Item, f: Finding, zones: map<string, string>)
    ensures Projects(item, f, zones) <==> item.event in Targets(f) && item == ItemFor(f, item.event, zones)
  {
    if item.event.Some? && item.event.value in f.events {
      var i :| 0 <= i < |f.events| && f.events[i] == item.event.value;
      assert Targets(f)[i] == item.event;
    }
  }

  /** The items of a projection are exactly those that project a finding. */
  lemma ItemsExactly(e: Evaluation, revision: string, policy: string, zones: map<string, string>,
                     given: Option<seq<(string, string)>>, item: Item)
    requires Project(e, revision, policy, zones, given).Success?
    ensures item in Project(e, revision, policy, zones, given).value.items <==> exists f <- e.findings :: Projects(item, f, zones)
  {
    var raw := ItemsOf(e.findings, zones);
    SortKeeps(raw);
    assert item in Sort(raw) <==> item in multiset(Sort(raw));
    assert item in raw <==> item in multiset(raw);
    ItemsComeFrom(e.findings, zones, item);
    forall f
      ensures Projects(item, f, zones) <==> ComesFrom(item, f, zones)
    {
      ProjectsExactly(item, f, zones);
    }
  }

  /** A recorded zone that is no identifier belongs to an event some finding refers to. */
  predicate SomeBadZone(e: Evaluation, zones: map<string, string>) {
    exists f <- e.findings, event <- f.events :: event in zones && !Identifier(zones[event])
  }

  /** A pair of the given provenance is not made of identifiers. */
  predicate SomeBadPair(given: Option<seq<(string, string)>>) {
    given.Some? && exists pair <- given.value :: !(Identifier(pair.0) && Identifier(pair.1))
  }

  /** A valid evaluation is projected unless the revision, the policy, a zone of one of its events or the
      given provenance is not made of identifiers; the first of these is what is reported. */
  lemma ProjectExactly(e: Evaluation, revision: string, policy: string, zones: map<string, string>,
                       given: Option<seq<(string, string)>>)
    requires EvaluationOk(e)
    ensures var r := Project(e, revision, policy, zones, given);
      && (r == Failure(BadRevision) <==> !Identifier(revision))
      && (r == Failure(BadPolicy) <==> Identifier(revision) && !Identifier(policy))
      && (r == Failure(BadZone) <==> Identifier(revision) && Identifier(policy) && SomeBadZone(e, zones))
      && (r == Failure(BadProvenance) <==>
            Identifier(revision) && Identifier(policy) && !SomeBadZone(e, zones) && SomeBadPair(given))
  {
    assert Identifier("producer") && Identifier("TeachingGuidanceProjectionV1/v1") && Identifier("evaluation_digest");
  }

  /** It speaks of the evaluation it was built from, under the revision and policy asked for, with a digest
      of itself, and names its producer unless told otherwise. */
  lemma ProjectedExactly(e: Evaluation, revision: string, policy: string, zones: map<string, string>,
                         given: Option<seq<(string, string)>>)
    requires Project(e, revision, policy, zones, given).Success?
    ensures var p := Project(e, revision, policy, zones, given).value;
      && p.revision == revision && p.policy == policy && p.performance == e.performance
      && p.evaluationDigest == e.digest && p.next == e.primary
      && p.digest == DigestOf(p.revision, p.performance, p.evaluationDigest, p.policy, p.items, p.next)
      && p.provenance == if given.Some? then given.value
           else [("producer", "TeachingGuidanceProjectionV1/v1"), ("evaluation_digest", e.digest)]
  {
  }

  // ----- Order -----

  /** One text comes before another: they differ first where it ends or has the smaller character. */
  ghost predicate Earlier(a: string, b: string) { exists k: nat :: DiffersAt(a, b, k) }

  function EventText(item: Item): string { if item.event.Some? then item.event.value else "" }

  /** One item is to come before another: by finding, then event, then kind, then severity. */
  ghost predicate ComesFirst(x: Item, y: Item) {
    || Earlier(x.findingId, y.findingId)
    || (x.findingId == y.findingId
        && (|| Earlier(EventText(x), EventText(y))
            || (EventText(x) == EventText(y)
                && (|| Earlier(FindingText(x.kind), FindingText(y.kind))
                    || (FindingText(x.kind) == FindingText(y.kind)
                        && Earlier(SeverityText(x.severity), SeverityText(y.severity)))))))
  }

  lemma BeforeFour(a: seq<string>, b: seq<string>)
    requires |a| == |b| == 4
    ensures Before(a, b) <==>
      || StringLess(a[0], b[0])
      || (a[0] == b[0] && (StringLess(a[1], b[1])
          || (a[1] == b[1] && (StringLess(a[2], b[2]) || (a[2] == b[2] && StringLess(a[3], b[3]))))))
  {
    assert a[1..][1..] == a[2..] && b[1..][1..] == b[2..] && a[2..][1..] == a[3..] && b[2..][1..] == b[3..];
    assert a[3..][1..] == [] && b[3..][1..] == [];
    assert Before(a[3..], b[3..]) <==> StringLess(a[3], b[3]);
    assert Before(a[2..], b[2..]) <==> StringLess(a[2], b[2]) || (a[2] == b[2] && Before(a[3..], b[3..]));
    assert Before(a[1..], b[1..]) <==> StringLess(a[1], b[1]) || (a[1] == b[1] && Before(a[2..], b[2..]));
  }

  lemma ComesFirstExactly(x: Item, y: Item)
    ensures ComesFirst(x, y) <==> Before(SortKey(x), SortKey(y))
  {
    BeforeFour(SortKey(x), SortKey(y));
    StringLessExactly(x.findingId, y.findingId);
    StringLessExactly(EventText(x), EventText(y));
    StringLessExactly(FindingText(x.kind), FindingText(y.kind));
    StringLessExactly(SeverityText(x.severity), SeverityText(y.severity));
  }

  /** No item of a projection comes after one that it is to come before. */
  lemma ItemsInOrder(e: Evaluation, revision: string, policy: string, zones: map<string, string>,
                     given: Option<seq<(string, string)>>, i: nat, j: nat)
    requires Project(e, revision, policy, zones, given).Success?
    requires i < j < |Project(e, revision, policy, zones, given).value.items|
    ensures var items := Project(e, revision, policy, zones, given).value.items; !ComesFirst(items[j], items[i])
  {
    var items := Project(e, revision, policy, zones, given).value.items;
    SortKeeps(ItemsOf(e.findings, zones));
    ComesFirstExactly(items[j], items[i]);
    assert OrderedBy(items, SortKey);
  }

  // ----- The events cited -----

  /** The first item that cites an event. */
  predicate FirstCites(items: seq<Item>, p: nat, event: string) {
    p < |items| && items[p].event == Some(event) && forall q | 0 <= q < p :: items[q].event != Some(event)
  }

  lemma {:induction false} CitedIsCited(items: seq<Item>, event: string)
    ensures event in Cited(items) <==> exists q | 0 <= q < |items| :: items[q].event == Some(event)
    decreases |items|
  {
    if items != [] {
      var n := |items| - 1;
      CitedIsCited(items[..n], event);
      if q :| 0 <= q < n && items[..n][q].event == Some(event) {
        assert items[q].event == Some(event);
      }
      if q :| 0 <= q < |items| && items[q].event == Some(event) {
        assert q < n ==> items[..n][q].event == Some(event);
      }
    }
  }

  /** Events cited are listed in the order in which items first cite them. */
  lemma {:induction false} CitedInOrder(items: seq<Item>, k: nat, l: nat) returns (p: nat, q: nat)
    requires k < l < |Cited(items)|
    ensures p < q && FirstCites(items, p, Cited(items)[k]) && FirstCites(items, q, Cited(items)[l])
    decreases |items|
  {
    var n := |items| - 1;
    var earlier := Cited(items[..n]);
    if l < |earlier| {
      p, q := CitedInOrder(items[..n], k, l);
      FirstStays(items, n, p, earlier[k]);
      FirstStays(items, n, q, earlier[l]);
    } else {
      p := FirstOf(items[..n], earlier[k]);
      q := n;
      FirstStays(items, n, p, earlier[k]);
      CitedIsCited(items[..n], items[n].event.value);
      assert forall i | 0 <= i < n :: items[i] == items[..n][i];
    }
  }

  lemma FirstStays(items: seq<Item>, n: nat, p: nat, event: string)
    requires n <= |items| && FirstCites(items[..n], p, event)
    ensures FirstCites(items, p, event)
  {
    assert forall i | 0 <= i < n :: items[i] == items[..n][i];
  }

  lemma {:induction false} FirstOf(items: seq<Item>, event: string) returns (p: nat)
    requires event in Cited(items)
    ensures FirstCites(items, p, event)
    decreases |items|
  {
    var n := |items| - 1;
    if event in Cited(items[..n]) {
      p := FirstOf(items[..n], event);
      FirstStays(items, n, p, event);
    } else {
      p := n;
      CitedIsCited(items[..n], event);
      assert forall i | 0 <= i < n :: items[i] == items[..n][i];
    }
  }
}
