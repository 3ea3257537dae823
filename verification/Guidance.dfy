/** Projecting an evaluation's findings onto the events they refer to
    (src/master_all_strings/education/guidance.py, guidance_builder.py). */
module Guidance {
  import opened Prelude
  import opened Ordering
  import opened EducationContracts

  // ----- Items -----

  datatype Item = Item(
    findingId: string, kind: FindingKind, severity: Severity, evidence: seq<string>, messageKey: string,
    event: Option<string>, observed: Option<real>, threshold: Option<real>, zone: Option<string>)

  predicate ItemOk(item: Item) {
    && Identifier(item.findingId)
    && item.evidence != [] && (forall r <- item.evidence :: Identifier(r))
    && Identifier(item.messageKey) && OptionalIdentifier(item.event) && OptionalIdentifier(item.zone)
  }

  /** The zone recorded for an event, if any. */
  function ZoneOf(event: Option<string>, zones: map<string, string>): Option<string> {
    if event.Some? && event.value in zones then Some(zones[event.value]) else None
  }

  function ItemFor(f: Finding, event: Option<string>, zones: map<string, string>): Item {
    Item(f.id, f.kind, f.severity, f.evidence, f.messageKey, event, f.observed, f.threshold, ZoneOf(event, zones))
  }

  /** What a finding is projected onto: its events, or no event at all. */
  function Targets(f: Finding): seq<Option<string>> {
    if f.events == [] then [None] else seq(|f.events|, i requires 0 <= i < |f.events| => Some(f.events[i]))
  }

  function ItemsFrom(f: Finding, zones: map<string, string>): seq<Item> {
    var targets := Targets(f);
    seq(|targets|, i requires 0 <= i < |targets| => ItemFor(f, targets[i], zones))
  }

  function ItemsOf(findings: seq<Finding>, zones: map<string, string>): seq<Item> {
    if findings == [] then []
    else ItemsOf(findings[..|findings| - 1], zones) + ItemsFrom(findings[|findings| - 1], zones)
  }

  // ----- Order -----

  /** Tuples of strings compare like Python's: at the first difference. */
  predicate Before(x: seq<string>, y: seq<string>) {
    if x == [] then y != []
    else y != [] && (StringLess(x[0], y[0]) || (x[0] == y[0] && Before(x[1..], y[1..])))
  }

  function SortKey(item: Item): seq<string> {
    [item.findingId, if item.event.Some? then item.event.value else "", FindingText(item.kind), SeverityText(item.severity)]
  }

  function Insert(item: Item, sorted: seq<Item>): seq<Item> {
    if sorted == [] then [item]
    else if Before(SortKey(sorted[0]), SortKey(item)) then [sorted[0]] + Insert(item, sorted[1..])
    else [item] + sorted
  }

  /** The stable sort: an item goes before the equal ones that followed it. */
  function Sort(items: seq<Item>): seq<Item> {
    if items == [] then [] else Insert(items[0], Sort(items[1..]))
  }

  // ----- The projection -----

  /** An item without its zone, which the digest leaves out. */
  datatype Core = Core(
    findingId: string, kind: FindingKind, severity: Severity, evidence: seq<string>, messageKey: string,
    event: Option<string>, observed: Option<real>, threshold: Option<real>)

  function CoreOf(item: Item): Core {
    Core(item.findingId, item.kind, item.severity, item.evidence, item.messageKey, item.event, item.observed,
         item.threshold)
  }

  function Cores(items: seq<Item>): seq<Core> { seq(|items|, i requires 0 <= i < |items| => CoreOf(items[i])) }

  datatype Content = Content(
    revision: string, performance: string, evaluationDigest: string, policy: string, cores: seq<Core>, next: NextAction)

  /** A digest is the content it was taken of, or a text that came from elsewhere. */
  datatype GuidanceDigest = Given(text: string) | OfGuidance(content: Content)

  predicate GuidanceDigestOk(d: GuidanceDigest) { d.Given? ==> DigestText(d.text) }

  datatype Projection = Projection(
    revision: string, performance: string, evaluationDigest: string, policy: string, items: seq<Item>,
    next: NextAction, digest: GuidanceDigest, provenance: seq<(string, string)>)

  function DigestOf(revision: string, performance: string, evaluationDigest: string, policy: string,
                    items: seq<Item>, next: NextAction): GuidanceDigest
  {
    OfGuidance(Content(revision, performance, evaluationDigest, policy, Cores(Sort(items)), next))
  }

  ghost predicate ProjectionOk(p: Projection) {
    && Identifier(p.revision) && Identifier(p.performance) && DigestText(p.evaluationDigest) && Identifier(p.policy)
    && GuidanceDigestOk(p.digest) && (forall item <- p.items :: ItemOk(item))
    && NextActionOk(p.next) && ModestAction(p.next)
    && ProvenanceOk(p.provenance)
  }

  predicate ProvenanceOk(pairs: seq<(string, string)>) {
    forall pair <- pairs :: Identifier(pair.0) && Identifier(pair.1)
  }

  datatype Fault = BadRevision | BadPolicy | BadZone | BadProvenance

  predicate ZonesOk(findings: seq<Finding>, zones: map<string, string>) {
    forall f <- findings, event <- f.events | event in zones :: Identifier(zones[event])
  }

  function Provenance(e: Evaluation, given: Option<seq<(string, string)>>): seq<(string, string)> {
    if given.Some? then given.value
    else [("producer", "TeachingGuidanceProjectionV1/v1"), ("evaluation_digest", e.digest)]
  }

  function Project(e: Evaluation, revision: string, policy: string, zones: map<string, string>,
                   given: Option<seq<(string, string)>>): Result<Projection, Fault>
  {
    if !Identifier(revision) then Failure(BadRevision)
    else if !Identifier(policy) then Failure(BadPolicy)
    else if !ZonesOk(e.findings, zones) then Failure(BadZone)
    else if !ProvenanceOk(Provenance(e, given)) then Failure(BadProvenance)
    else
      var items := Sort(ItemsOf(e.findings, zones));
      Success(Projection(revision, e.performance, e.digest, policy, items, e.primary,
                         DigestOf(revision, e.performance, e.digest, policy, items, e.primary), Provenance(e, given)))
  }

  // ----- The loops -----

  method ItemsFromFinding(f: Finding, zones: map<string, string>) returns (r: Result<seq<Item>, Fault>)
    ensures r == if ZonesOk([f], zones) then Success(ItemsFrom(f, zones)) else Failure(BadZone)
  {
    if f.events == [] {
      assert ItemsFrom(f, zones) == [ItemFor(f, None, zones)];
      return Success([ItemFor(f, None, zones)]);
    }
    var items := [];
    for i := 0 to |f.events|
      invariant items == ItemsFrom(f, zones)[..i]
      invariant forall event <- f.events[..i] | event in zones :: Identifier(zones[event])
    {
      if f.events[i] in zones && !Identifier(zones[f.events[i]]) {
        return Failure(BadZone);
      }
      items := items + [ItemFor(f, Some(f.events[i]), zones)];
    }
    assert f.events[..|f.events|] == f.events && ItemsFrom(f, zones)[..|f.events|] == ItemsFrom(f, zones);
    return Success(items);
  }

  method CollectItems(findings: seq<Finding>, zones: map<string, string>) returns (r: Result<seq<Item>, Fault>)
    ensures r == if ZonesOk(findings, zones) then Success(ItemsOf(findings, zones)) else Failure(BadZone)
  {
    var items := [];
    for i := 0 to |findings|
      invariant items == ItemsOf(findings[..i], zones)
      invariant ZonesOk(findings[..i], zones)
    {
      var more := ItemsFromFinding(findings[i], zones);
      if more.Failure? {
        return Failure(BadZone);
      }
      items := items + more.value;
      assert findings[..i + 1][..i] == findings[..i];
    }
    assert findings[..|findings|] == findings;
    return Success(items);
  }

  method BuildProjection(e: Evaluation, revision: string, policy: string, zones: map<string, string>,
                         given: Option<seq<(string, string)>>) returns (r: Result<Projection, Fault>)
    ensures r == Project(e, revision, policy, zones, given)
  {
    if !Identifier(revision) {
      return Failure(BadRevision);
    }
    if !Identifier(policy) {
      return Failure(BadPolicy);
    }
    var items := CollectItems(e.findings, zones);
    if items.Failure? {
      return Failure(BadZone);
    }
    var ordered, provenance := Sort(items.value), Provenance(e, given);
    var digest := DigestOf(revision, e.performance, e.digest, policy, ordered, e.primary);
    if !ProvenanceOk(provenance) {
      return Failure(BadProvenance);
    }
    return Success(Projection(revision, e.performance, e.digest, policy, ordered, e.primary, digest, provenance));
  }

  /** The events items cite, each once, in the order of first citing. */
  function Cited(items: seq<Item>): seq<string> {
    if items == [] then []
    else
      var earlier, event := Cited(items[..|items| - 1]), items[|items| - 1].event;
      if event.None? || event.value in earlier then earlier else earlier + [event.value]
  }

  method GuidedEventIds(items: seq<Item>) returns (seen: seq<string>)
    ensures seen == Cited(items)
    ensures Distinct(seen)
    ensures forall event :: event in seen <==> exists item <- items :: item.event == Some(event)
  {
    seen := [];
    var known: set<string> := {};
    for i := 0 to |items|
      invariant seen == Cited(items[..i]) && Distinct(seen)
      invariant known == set event | event in seen
      invariant forall event :: event in seen <==> exists item <- items[..i] :: item.event == Some(event)
    {
      assert items[..i + 1][..i] == items[..i];
      assert items[..i + 1] == items[..i] + [items[i]];
      var event := items[i].event;
      if event.Some? && event.value !in known {
        known := known + {event.value};
        seen := seen + [event.value];
      }
    }
    assert items[..|items|] == items;
  }
}
