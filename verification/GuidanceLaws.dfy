/** What the guidance projection promises: it does not depend on the order of the findings, and
    it says each thing once. */
module GuidanceLaws {
  import opened Prelude
  import opened Ordering
  import opened EducationContracts
  import opened Guidance

  // ----- The order is total -----

  lemma {:induction false} BeforeTotal(x: seq<string>, y: seq<string>)
    requires |x| == |y|
    ensures Before(x, y) || Before(y, x) || x == y
    ensures !(Before(x, y) && Before(y, x)) && !Before(x, x)
  {
    if x != [] {
      StringLessTotal(x[0], y[0]);
      StringLessTotal(x[0], x[0]);
      BeforeTotal(x[1..], x[1..]);
      if x[0] == y[0] {
        BeforeTotal(x[1..], y[1..]);
        assert x == [x[0]] + x[1..] && y == [y[0]] + y[1..];
      }
    }
  }

  lemma {:induction false} BeforeTransitive(x: seq<string>, y: seq<string>, z: seq<string>)
    requires Before(x, y) && Before(y, z)
    ensures Before(x, z)
  {
    if x != [] {
      StringLessTotal(x[0], y[0]);
      StringLessTotal(y[0], z[0]);
      StringLessTotal(x[0], x[0]);
      if x[0] == y[0] && y[0] == z[0] {
        BeforeTransitive(x[1..], y[1..], z[1..]);
      } else if StringLess(x[0], y[0]) && StringLess(y[0], z[0]) {
        StringLessTransitive(x[0], y[0], z[0]);
      }
    }
  }

  // ----- Sorting -----

  /** Ordered by a key. */
  ghost predicate OrderedBy<T>(items: seq<T>, key: T -> seq<string>) {
    forall i, j | 0 <= i < j < |items| :: !Before(key(items[j]), key(items[i]))
  }

  lemma {:induction false} InsertPermutes(item: Item, sorted: seq<Item>)
    ensures multiset(Insert(item, sorted)) == multiset(sorted) + multiset{item}
  {
    if sorted != [] {
      assert sorted == [sorted[0]] + sorted[1..];
      InsertPermutes(item, sorted[1..]);
    }
  }

  /** Nothing in the sequence goes before the item. */
  ghost predicate NoneBefore(items: seq<Item>, item: Item) {
    forall x <- items :: !Before(SortKey(x), SortKey(item))
  }

  lemma OrderedCons(item: Item, rest: seq<Item>)
    requires OrderedBy(rest, SortKey) && NoneBefore(rest, item)
    ensures OrderedBy([item] + rest, SortKey)
  {
  }

  lemma InsertHolds(item: Item, sorted: seq<Item>)
    ensures forall x <- Insert(item, sorted) :: x in sorted || x == item
  {
    InsertPermutes(item, sorted);
    assert forall x <- Insert(item, sorted) :: x in multiset(Insert(item, sorted));
  }

  lemma {:induction false} InsertKeeps(item: Item, sorted: seq<Item>)
    requires OrderedBy(sorted, SortKey)
    ensures OrderedBy(Insert(item, sorted), SortKey)
  {
    if sorted != [] {
      var first, rest := sorted[0], sorted[1..];
      assert sorted == [first] + rest;
      BeforeTotal(SortKey(first), SortKey(item));
      if Before(SortKey(first), SortKey(item)) {
        InsertKeeps(item, rest);
        InsertHolds(item, rest);
        OrderedCons(first, Insert(item, rest));
      } else {
        forall x <- sorted
          ensures !Before(SortKey(x), SortKey(item))
        {
          NotBefore(first, x, item);
        }
        OrderedCons(item, sorted);
      }
    }
  }

  lemma NotBefore(first: Item, x: Item, item: Item)
    requires !Before(SortKey(x), SortKey(first)) && !Before(SortKey(first), SortKey(item))
    ensures !Before(SortKey(x), SortKey(item))
  {
    BeforeTotal(SortKey(first), SortKey(x));
    if SortKey(first) != SortKey(x) && Before(SortKey(x), SortKey(item)) {
      BeforeTransitive(SortKey(first), SortKey(x), SortKey(item));
    }
  }

  lemma {:induction false} SortKeeps(items: seq<Item>)
    ensures OrderedBy(Sort(items), SortKey) && multiset(Sort(items)) == multiset(items)
  {
    if items != [] {
      SortKeeps(items[1..]);
      InsertKeeps(items[0], Sort(items[1..]));
      InsertPermutes(items[0], Sort(items[1..]));
      assert items == [items[0]] + items[1..];
    }
  }

  /** Different values have different keys, all of the same length. */
  ghost predicate KeysApart<T>(items: multiset<T>, key: T -> seq<string>) {
    forall x <- items, y <- items :: |key(x)| == |key(y)| && (key(x) == key(y) ==> x == y)
  }

  /** An ordered sequence of values told apart by their keys is the only one with those values. */
  lemma {:induction false} OrderedIsUnique<T>(a: seq<T>, b: seq<T>, key: T -> seq<string>)
    requires OrderedBy(a, key) && OrderedBy(b, key) && multiset(a) == multiset(b) && KeysApart(multiset(a), key)
    ensures a == b
  {
    if a == [] || b == [] {
      assert |multiset(a)| == |a| && |multiset(b)| == |b|;
    } else {
      SameLeast(a, b, key);
      TailOf(a);
      TailOf(b);
      OrderedIsUnique(a[1..], b[1..], key);
    }
  }

  lemma SameLeast<T>(a: seq<T>, b: seq<T>, key: T -> seq<string>)
    requires a != [] && b != [] && multiset(a) == multiset(b)
    requires OrderedBy(a, key) && OrderedBy(b, key) && KeysApart(multiset(a), key)
    ensures a[0] == b[0]
  {
    assert a[0] in multiset(b) && b[0] in multiset(a);
    BeforeTotal(key(a[0]), key(b[0]));
  }

  lemma TailOf<T>(a: seq<T>)
    requires a != []
    ensures multiset(a[1..]) == multiset(a) - multiset{a[0]}
  {
    assert a == [a[0]] + a[1..];
  }

  lemma SortIgnoresOrder(a: seq<Item>, b: seq<Item>)
    requires multiset(a) == multiset(b) && KeysApart(multiset(a), SortKey)
    ensures Sort(a) == Sort(b)
  {
    SortKeeps(a);
    SortKeeps(b);
    OrderedIsUnique(Sort(a), Sort(b), SortKey);
  }

  // ----- What the digest can see of the order of items -----

  function CoreKey(core: Core): seq<string> {
    [core.findingId, if core.event.Some? then core.event.value else "", FindingText(core.kind), SeverityText(core.severity)]
  }

  /** Items with the same sort key say the same thing, zones aside. */
  ghost predicate TiesAgree(items: seq<Item>) {
    forall x <- items, y <- items | SortKey(x) == SortKey(y) :: CoreOf(x) == CoreOf(y)
  }

  function Drop(items: seq<Item>, i: nat): seq<Item>
    requires i < |items|
  {
    items[..i] + items[i + 1..]
  }

  lemma Taken(items: seq<Item>, i: nat)
    requires i < |items|
    ensures multiset(items) == multiset(Drop(items, i)) + multiset{items[i]}
    ensures multiset(Drop(items, i)) == multiset(items) - multiset{items[i]}
  {
    assert items == items[..i] + [items[i]] + items[i + 1..];
  }

  lemma CoresTaken(items: seq<Item>, i: nat)
    requires i < |items|
    ensures multiset(Cores(items)) == multiset(Cores(Drop(items, i))) + multiset{CoreOf(items[i])}
  {
    assert Cores(items) == Cores(items[..i]) + [CoreOf(items[i])] + Cores(items[i + 1..]);
    assert Cores(Drop(items, i)) == Cores(items[..i]) + Cores(items[i + 1..]);
  }

  lemma {:induction false} CoresPermute(a: seq<Item>, b: seq<Item>)
    requires multiset(a) == multiset(b)
    ensures multiset(Cores(a)) == multiset(Cores(b))
    decreases |a|
  {
    if a == [] || b == [] {
      assert |multiset(a)| == |a| && |multiset(b)| == |b|;
    } else {
      assert a[0] in multiset(b);
      var j :| 0 <= j < |b| && b[j] == a[0];
      Taken(a, 0);
      Taken(b, j);
      CoresPermute(Drop(a, 0), Drop(b, j));
      CoresTaken(a, 0);
      CoresTaken(b, j);
    }
  }

  lemma CoresApart(items: seq<Item>)
    requires TiesAgree(items)
    ensures KeysApart(multiset(Cores(items)), CoreKey)
  {
    var cores := Cores(items);
    forall x <- multiset(cores), y <- multiset(cores)
      ensures |CoreKey(x)| == |CoreKey(y)| && (CoreKey(x) == CoreKey(y) ==> x == y)
    {
      var i :| 0 <= i < |items| && cores[i] == x;
      var j :| 0 <= j < |items| && cores[j] == y;
      assert SortKey(items[i]) == CoreKey(x) && SortKey(items[j]) == CoreKey(y);
    }
  }

  lemma SortedCores(items: seq<Item>)
    ensures OrderedBy(Cores(Sort(items)), CoreKey) && multiset(Cores(Sort(items))) == multiset(Cores(items))
  {
    SortKeeps(items);
    CoresPermute(Sort(items), items);
    var sorted := Sort(items);
    forall i, j | 0 <= i < j < |sorted|
      ensures !Before(CoreKey(Cores(sorted)[j]), CoreKey(Cores(sorted)[i]))
    {
      assert SortKey(sorted[i]) == CoreKey(Cores(sorted)[i]) && SortKey(sorted[j]) == CoreKey(Cores(sorted)[j]);
    }
  }

  lemma AgreeingTiesGiveOneOrder(items: seq<Item>, other: seq<Item>)
    requires TiesAgree(items) && multiset(other) == multiset(items)
    ensures Cores(Sort(other)) == Cores(Sort(items))
  {
    SortedCores(items);
    SortedCores(other);
    CoresPermute(other, items);
    CoresApart(items);
    OrderedIsUnique(Cores(Sort(other)), Cores(Sort(items)), CoreKey);
  }

  /** Where an item is inserted: after those strictly before it. */
  function Place(item: Item, sorted: seq<Item>): (p: nat)
    ensures p <= |sorted|
  {
    if sorted == [] || !Before(SortKey(sorted[0]), SortKey(item)) then 0 else 1 + Place(item, sorted[1..])
  }

  /** Two items with the same key keep the order they came in. */
  lemma {:induction false} TiesStay(x: Item, y: Item, sorted: seq<Item>)
    requires SortKey(x) == SortKey(y)
    ensures Place(x, sorted) == Place(y, sorted)
    ensures |Insert(x, Insert(y, sorted))| == |sorted| + 2
    ensures Insert(x, Insert(y, sorted))[Place(x, sorted)] == x
  {
    BeforeTotal(SortKey(x), SortKey(y));
    if sorted != [] && Before(SortKey(sorted[0]), SortKey(x)) {
      TiesStay(x, y, sorted[1..]);
      assert Insert(y, sorted) == [sorted[0]] + Insert(y, sorted[1..]);
      assert Insert(y, sorted)[1..] == Insert(y, sorted[1..]);
      assert Insert(x, Insert(y, sorted)) == [sorted[0]] + Insert(x, Insert(y, sorted[1..]));
    }
  }

  lemma BringForward(items: seq<Item>, x: Item, y: Item) returns (others: seq<Item>)
    requires x in items && y in items && x != y
    ensures multiset(items) == multiset(others) + multiset{x} + multiset{y}
  {
    var i :| 0 <= i < |items| && items[i] == x;
    Taken(items, i);
    var rest := Drop(items, i);
    assert y in multiset(items) && y in multiset(rest);
    var j :| 0 <= j < |rest| && rest[j] == y;
    Taken(rest, j);
    others := Drop(rest, j);
  }

  lemma SortTwo(x: Item, y: Item, others: seq<Item>)
    ensures Sort([x, y] + others) == Insert(x, Insert(y, Sort(others)))
  {
    assert ([x, y] + others)[1..] == [y] + others && ([y] + others)[1..] == others;
  }

  lemma DisagreeingTieGivesTwoOrders(items: seq<Item>, x: Item, y: Item) returns (one: seq<Item>, two: seq<Item>)
    requires x in items && y in items && SortKey(x) == SortKey(y) && CoreOf(x) != CoreOf(y)
    ensures multiset(one) == multiset(items) && multiset(two) == multiset(items)
    ensures Cores(Sort(one)) != Cores(Sort(two))
  {
    var others := BringForward(items, x, y);
    one, two := [x, y] + others, [y, x] + others;
    TieShows(x, y, others);
  }

  lemma TieShows(x: Item, y: Item, others: seq<Item>)
    requires SortKey(x) == SortKey(y) && CoreOf(x) != CoreOf(y)
    ensures Cores(Sort([x, y] + others)) != Cores(Sort([y, x] + others))
  {
    SortTwo(x, y, others);
    SortTwo(y, x, others);
    TiesStay(x, y, Sort(others));
    TiesStay(y, x, Sort(others));
    var (k, one, two) := (Place(x, Sort(others)), Sort([x, y] + others), Sort([y, x] + others));
    assert Cores(one)[k] == CoreOf(x) && Cores(two)[k] == CoreOf(y);
  }

  /** The digest sorts its items so that no caller's order can matter. That holds for exactly the
      lists whose items with the same sort key agree: the sort keeps ties in the given order. */
  lemma DigestIgnoresOrderExactly(items: seq<Item>, revision: string, performance: string, evaluationDigest: string,
                                  policy: string, next: NextAction)
    ensures TiesAgree(items) <==>
      forall other | multiset(other) == multiset(items) ::
        DigestOf(revision, performance, evaluationDigest, policy, other, next)
          == DigestOf(revision, performance, evaluationDigest, policy, items, next)
  {
    if TiesAgree(items) {
      forall other | multiset(other) == multiset(items)
        ensures Cores(Sort(other)) == Cores(Sort(items))
      {
        AgreeingTiesGiveOneOrder(items, other);
      }
    } else {
      var x, y :| x in items && y in items && SortKey(x) == SortKey(y) && CoreOf(x) != CoreOf(y);
      var one, two := DisagreeingTieGivesTwoOrders(items, x, y);
      assert DigestOf(revision, performance, evaluationDigest, policy, one, next)
        != DigestOf(revision, performance, evaluationDigest, policy, two, next);
    }
  }

  /** Two evidence references for the same finding and event: swapping them changes the digest. */
  lemma DisagreeingTieExists()
    ensures exists x, y: Item ::
      SortKey(x) == SortKey(y) && ItemOk(x) && ItemOk(y) && Cores(Sort([x, y])) != Cores(Sort([y, x]))
  {
    var x := Item("f", LateEntry, Focus, ["a"], "k", None, None, None, None);
    var y := x.(evidence := ["b"]);
    BeforeTotal(SortKey(x), SortKey(y));
    assert Identifier("f") && Identifier("a") && Identifier("b") && Identifier("k");
    assert [x, y] + [] == [x, y] && [y, x] + [] == [y, x];
    SortTwo(x, y, []);
    SortTwo(y, x, []);
    TiesStay(x, y, []);
    TiesStay(y, x, []);
    assert Cores(Sort([x, y]))[0].evidence[0] == "a" && Cores(Sort([y, x]))[0].evidence[0] == "b";
  }

  // ----- Items of findings -----

  lemma ItemsStep(findings: seq<Finding>, f: Finding, zones: map<string, string>)
    ensures ItemsOf(findings + [f], zones) == ItemsOf(findings, zones) + ItemsFrom(f, zones)
  {
    assert (findings + [f])[..|findings|] == findings;
  }

  lemma Regroup<T>(a: seq<T>, b: seq<T>, c: seq<T>)
    ensures (a + b) + c == a + (b + c)
  {
  }

  lemma {:induction false} ItemsConcat(a: seq<Finding>, b: seq<Finding>, zones: map<string, string>)
    ensures ItemsOf(a + b, zones) == ItemsOf(a, zones) + ItemsOf(b, zones)
    decreases |b|
  {
    if b == [] {
      assert a + b == a;
    } else {
      var b', last := b[..|b| - 1], b[|b| - 1];
      assert b == b' + [last];
      Regroup(a, b', [last]);
      ItemsStep(a + b', last, zones);
      ItemsStep(b', last, zones);
      ItemsConcat(a, b', zones);
      Regroup(ItemsOf(a, zones), ItemsOf(b', zones), ItemsFrom(last, zones));
    }
  }

  lemma {:induction false} ItemsPermute(a: seq<Finding>, b: seq<Finding>, zones: map<string, string>)
    requires multiset(a) == multiset(b)
    ensures multiset(ItemsOf(a, zones)) == multiset(ItemsOf(b, zones))
    decreases |a|
  {
    if a == [] || b == [] {
      assert |multiset(a)| == |a| && |multiset(b)| == |b|;
    } else {
      var a', last := a[..|a| - 1], a[|a| - 1];
      assert a == a' + [last];
      assert last in multiset(b);
      var j :| 0 <= j < |b| && b[j] == last;
      ItemsWithout(b, j, zones);
      assert multiset(a') == multiset(a) - multiset{last};
      ItemsPermute(a', Without(b, j), zones);
    }
  }

  function Without(findings: seq<Finding>, j: nat): seq<Finding>
    requires j < |findings|
  {
    findings[..j] + findings[j + 1..]
  }

  lemma ItemsWithout(findings: seq<Finding>, j: nat, zones: map<string, string>)
    requires j < |findings|
    ensures multiset(findings) == multiset(Without(findings, j)) + multiset{findings[j]}
    ensures multiset(ItemsOf(findings, zones))
         == multiset(ItemsOf(Without(findings, j), zones)) + multiset(ItemsFrom(findings[j], zones))
  {
    var front, f, back := findings[..j], findings[j], findings[j + 1..];
    assert findings == (front + [f]) + back;
    ItemsConcat(front, back, zones);
    ItemsConcat(front + [f], back, zones);
    assert (front + [f])[..j] == front;
  }

  /** The finding and event an item came from. */
  ghost predicate ComesFrom(item: Item, f: Finding, zones: map<string, string>) {
    item.event in Targets(f) && item == ItemFor(f, item.event, zones)
  }

  lemma {:induction false} ItemsComeFrom(findings: seq<Finding>, zones: map<string, string>, item: Item)
    ensures item in ItemsOf(findings, zones) <==> exists f <- findings :: ComesFrom(item, f, zones)
    decreases |findings|
  {
    if findings != [] {
      var rest, last := findings[..|findings| - 1], findings[|findings| - 1];
      assert findings == rest + [last];
      ItemsComeFrom(rest, zones, item);
      ItemComesFrom(last, zones, item);
    }
  }

  lemma ItemComesFrom(f: Finding, zones: map<string, string>, item: Item)
    ensures item in ItemsFrom(f, zones) <==> ComesFrom(item, f, zones)
  {
    if ComesFrom(item, f, zones) {
      var i :| 0 <= i < |Targets(f)| && Targets(f)[i] == item.event;
      assert ItemsFrom(f, zones)[i] == item;
    }
  }

  lemma TargetsDistinct(f: Finding)
    requires FindingOk(f)
    ensures Distinct(Targets(f)) && Targets(f) != []
    ensures Some("") !in Targets(f)
  {
    forall i, j | 0 <= i < j < |Targets(f)|
      ensures Targets(f)[i] != Targets(f)[j]
    {
      assert f.events[i] != f.events[j];
    }
    forall i | 0 <= i < |Targets(f)|
      ensures Targets(f)[i] != Some("")
    {
      assert f.events != [] ==> Identifier(f.events[i]);
    }
  }

  /** One finding gives each of its items once. */
  lemma OnceInFinding(f: Finding, zones: map<string, string>, item: Item)
    requires FindingOk(f)
    ensures multiset(ItemsFrom(f, zones))[item] <= 1
  {
    TargetsDistinct(f);
    assert Distinct(ItemsFrom(f, zones));
    DistinctOnce(ItemsFrom(f, zones), item);
  }

  lemma {:induction false} DistinctOnce(items: seq<Item>, item: Item)
    requires Distinct(items)
    ensures multiset(items)[item] <= 1
  {
    if items != [] {
      var last := items[|items| - 1];
      assert items == items[..|items| - 1] + [last];
      DistinctOnce(items[..|items| - 1], item);
      if item == last {
        assert item !in items[..|items| - 1];
      }
    }
  }

  lemma {:induction false} OnceInAll(findings: seq<Finding>, zones: map<string, string>, item: Item)
    requires (forall f <- findings :: FindingOk(f)) && DistinctIds(findings)
    ensures multiset(ItemsOf(findings, zones))[item] <= 1
    decreases |findings|
  {
    if findings != [] {
      var rest, last := findings[..|findings| - 1], findings[|findings| - 1];
      OnceInAll(rest, zones, item);
      OnceInFinding(last, zones, item);
      ItemsComeFrom(rest, zones, item);
      ItemComesFrom(last, zones, item);
      assert forall f <- rest | ComesFrom(item, f, zones) :: item.findingId == f.id && f.id != last.id;
    }
  }

  /** Two items of valid findings with the same finding id and event are the same item. */
  lemma SameSource(findings: seq<Finding>, zones: map<string, string>, x: Item, y: Item)
    requires DistinctIds(findings)
    requires x in ItemsOf(findings, zones) && y in ItemsOf(findings, zones)
    requires x.findingId == y.findingId && x.event == y.event
    ensures x == y
  {
    ItemsComeFrom(findings, zones, x);
    ItemsComeFrom(findings, zones, y);
    var f :| f in findings && ComesFrom(x, f, zones);
    var g :| g in findings && ComesFrom(y, g, zones);
    assert f.id == g.id;
  }

  lemma ItemsApart(findings: seq<Finding>, zones: map<string, string>)
    requires (forall f <- findings :: FindingOk(f)) && DistinctIds(findings)
    ensures KeysApart(multiset(ItemsOf(findings, zones)), SortKey)
  {
    var items := ItemsOf(findings, zones);
    forall x <- multiset(items), y <- multiset(items)
      ensures SortKey(x) == SortKey(y) ==> x == y
    {
      EventIsNamed(findings, zones, x);
      EventIsNamed(findings, zones, y);
      if SortKey(x) == SortKey(y) {
        assert SortKey(x)[0] == SortKey(y)[0] && SortKey(x)[1] == SortKey(y)[1];
        SameSource(findings, zones, x, y);
      }
    }
  }

  lemma EventIsNamed(findings: seq<Finding>, zones: map<string, string>, item: Item)
    requires (forall f <- findings :: FindingOk(f)) && item in ItemsOf(findings, zones)
    ensures item.event != Some("")
  {
    ItemsComeFrom(findings, zones, item);
    var f :| f in findings && ComesFrom(item, f, zones);
    TargetsDistinct(f);
  }

  // ----- The laws -----

  /** Permuting the findings changes nothing: not the items, their order or the digest, nor which
      fault is reported. */
  lemma FindingOrderIrrelevant(e: Evaluation, findings: seq<Finding>, revision: string, policy: string,
                               zones: map<string, string>, given: Option<seq<(string, string)>>)
    requires EvaluationOk(e) && multiset(findings) == multiset(e.findings)
    ensures Project(e.(findings := findings), revision, policy, zones, given) == Project(e, revision, policy, zones, given)
  {
    ItemsPermute(e.findings, findings, zones);
    ItemsApart(e.findings, zones);
    SortIgnoresOrder(ItemsOf(e.findings, zones), ItemsOf(findings, zones));
    ZonesPermute(findings, e.findings, zones);
  }

  lemma ZonesPermute(a: seq<Finding>, b: seq<Finding>, zones: map<string, string>)
    requires multiset(a) == multiset(b)
    ensures ZonesOk(a, zones) <==> ZonesOk(b, zones)
  {
    assert forall f :: f in a <==> f in multiset(a);
    assert forall f :: f in b <==> f in multiset(b);
  }

  /** Each finding appears once for each event it refers to, or once without an event. */
  lemma EveryReferenceOnce(e: Evaluation, revision: string, policy: string, zones: map<string, string>,
                           given: Option<seq<(string, string)>>, f: Finding, target: Option<string>)
    requires EvaluationOk(e) && f in e.findings && target in Targets(f)
    requires Project(e, revision, policy, zones, given).Success?
    ensures var items := Project(e, revision, policy, zones, given).value.items;
      exists i | 0 <= i < |items| ::
        && items[i] == ItemFor(f, target, zones)
        && forall j | 0 <= j < |items| && items[j].findingId == f.id && items[j].event == target :: j == i
  {
    var raw := ItemsOf(e.findings, zones);
    var items := Project(e, revision, policy, zones, given).value.items;
    SortKeeps(raw);
    var item := ItemFor(f, target, zones);
    ItemsComeFrom(e.findings, zones, item);
    assert ComesFrom(item, f, zones);
    assert item in multiset(raw) && item in multiset(items);
    var i :| 0 <= i < |items| && items[i] == item;
    forall j | 0 <= j < |items| && items[j].findingId == f.id && items[j].event == target
      ensures j == i
    {
      assert items[j] in multiset(items) && items[j] in multiset(raw);
      SameSource(e.findings, zones, items[j], item);
      OnceInAll(e.findings, zones, item);
      if i < j {
        TwoIndices(items, i, j);
      } else if j < i {
        TwoIndices(items, j, i);
      }
    }
  }

  lemma TwoIndices(items: seq<Item>, i: nat, j: nat)
    requires i < j < |items| && items[i] == items[j]
    ensures multiset(items)[items[i]] >= 2
  {
    assert items == items[..i] + [items[i]] + items[i + 1..j] + [items[j]] + items[j + 1..];
  }

  /** And nothing else appears. */
  lemma EveryItemFromAFinding(e: Evaluation, revision: string, policy: string, zones: map<string, string>,
                              given: Option<seq<(string, string)>>, item: Item)
    requires Project(e, revision, policy, zones, given).Success?
    requires item in Project(e, revision, policy, zones, given).value.items
    ensures exists f <- e.findings :: item.event in Targets(f) && item == ItemFor(f, item.event, zones)
  {
    var raw := ItemsOf(e.findings, zones);
    SortKeeps(raw);
    assert item in multiset(Sort(raw)) && item in multiset(raw);
    ItemsComeFrom(e.findings, zones, item);
    var f :| f in e.findings && ComesFrom(item, f, zones);
  }

  /** A projection that is built passes its own constructor's checks, and its items' too. */
  lemma BuiltIsValid(e: Evaluation, revision: string, policy: string, zones: map<string, string>,
                     given: Option<seq<(string, string)>>)
    requires EvaluationOk(e) && Project(e, revision, policy, zones, given).Success?
    ensures ProjectionOk(Project(e, revision, policy, zones, given).value)
  {
    ActionsAreModest(e.primary);
    forall item <- Project(e, revision, policy, zones, given).value.items
      ensures ItemOk(item)
    {
      EveryItemFromAFinding(e, revision, policy, zones, given, item);
      var f :| f in e.findings && item.event in Targets(f) && item == ItemFor(f, item.event, zones);
      FindingGivesItems(f, item.event, zones, e.findings);
    }
  }

  lemma FindingGivesItems(f: Finding, target: Option<string>, zones: map<string, string>, findings: seq<Finding>)
    requires FindingOk(f) && f in findings && target in Targets(f) && ZonesOk(findings, zones)
    ensures ItemOk(ItemFor(f, target, zones))
  {
    if target.Some? {
      assert target.value in f.events;
    }
  }

  /** Zones are enrichment: they never change the digest. */
  lemma ZonesKeepDigest(e: Evaluation, revision: string, policy: string, zones: map<string, string>,
                        others: map<string, string>, given: Option<seq<(string, string)>>)
    requires EvaluationOk(e)
    requires Project(e, revision, policy, zones, given).Success? && Project(e, revision, policy, others, given).Success?
    ensures Project(e, revision, policy, zones, given).value.digest == Project(e, revision, policy, others, given).value.digest
  {
    ItemsRezoned(e.findings, zones, others);
    SortRezoned(ItemsOf(e.findings, zones), ItemsOf(e.findings, others));
    SortRezoned(Sort(ItemsOf(e.findings, zones)), Sort(ItemsOf(e.findings, others)));
  }

  lemma {:induction false} ItemsRezoned(findings: seq<Finding>, zones: map<string, string>, others: map<string, string>)
    ensures Cores(ItemsOf(findings, zones)) == Cores(ItemsOf(findings, others))
    decreases |findings|
  {
    if findings != [] {
      var rest, last := findings[..|findings| - 1], findings[|findings| - 1];
      ItemsRezoned(rest, zones, others);
      CoresConcat(ItemsOf(rest, zones), ItemsFrom(last, zones));
      CoresConcat(ItemsOf(rest, others), ItemsFrom(last, others));
      assert Cores(ItemsFrom(last, zones)) == Cores(ItemsFrom(last, others));
    }
  }

  lemma CoresConcat(a: seq<Item>, b: seq<Item>)
    ensures Cores(a + b) == Cores(a) + Cores(b)
  {
  }

  lemma {:induction false} SortRezoned(a: seq<Item>, b: seq<Item>)
    requires Cores(a) == Cores(b)
    ensures Cores(Sort(a)) == Cores(Sort(b))
  {
    assert |a| == |Cores(a)| && |b| == |Cores(b)|;
    if a != [] {
      assert Cores(a)[0] == Cores(b)[0];
      assert Cores(a[1..]) == Cores(a)[1..] && Cores(b[1..]) == Cores(b)[1..];
      SortRezoned(a[1..], b[1..]);
      InsertRezoned(a[0], b[0], Sort(a[1..]), Sort(b[1..]));
    }
  }

  lemma {:induction false} InsertRezoned(x: Item, y: Item, a: seq<Item>, b: seq<Item>)
    requires CoreOf(x) == CoreOf(y) && Cores(a) == Cores(b)
    ensures Cores(Insert(x, a)) == Cores(Insert(y, b))
  {
    assert |a| == |Cores(a)| && |b| == |Cores(b)|;
    CoresConcat([x], a);
    CoresConcat([y], b);
    if a != [] {
      assert Cores(a)[0] == Cores(b)[0];
      assert Cores(a[1..]) == Cores(a)[1..] && Cores(b[1..]) == Cores(b)[1..];
      InsertRezoned(x, y, a[1..], b[1..]);
      CoresConcat([a[0]], Insert(x, a[1..]));
      CoresConcat([b[0]], Insert(y, b[1..]));
    }
  }
}
