/** What a packet without problems proves about the recorded run. */
module BeginEvidenceLaws {
  import opened Prelude
  import opened BeginEvidence
  import opened BeginEvidenceChecks

  // ----- Scenarios in order are blocks -----

  /** The exchanges of the first `k` scenarios, scenario by scenario. */
  function Blocks(items: seq<Item>, k: nat): seq<Item> { if k == 0 then [] else Blocks(items, k - 1) + Of(items, k - 1) }

  lemma {:induction false} OfHolds(items: seq<Item>, scenario: nat)
    ensures forall item :: item in Of(items, scenario) <==> item in items && In(item, scenario)
    decreases |items|
  {
    if items != [] {
      var earlier, last := items[..|items| - 1], items[|items| - 1];
      OfHolds(earlier, scenario);
      assert items == earlier + [last];
    }
  }

  lemma {:induction false} OfGrows(items: seq<Item>, last: Item, scenario: nat)
    ensures Of(items + [last], scenario) == Of(items, scenario) + if In(last, scenario) then [last] else []
  {
    assert (items + [last])[..|items|] == items;
  }

  lemma {:induction false} BlocksStep(items: seq<Item>, k: nat)
    requires k > 0
    ensures Blocks(items, k) == Blocks(items, k - 1) + Of(items, k - 1)
  {
  }

  lemma {:induction false} BlocksSame(items: seq<Item>, last: Item, p: nat, k: nat)
    requires In(last, p) && k <= p
    ensures Blocks(items + [last], k) == Blocks(items, k)
  {
    if k > 0 {
      BlocksSame(items, last, p, k - 1);
      OfGrows(items, last, k - 1);
      BlocksStep(items, k);
      BlocksStep(items + [last], k);
    }
  }

  lemma {:induction false} BlocksGrow(items: seq<Item>, last: Item, p: nat, k: nat)
    requires In(last, p) && p < k && forall q | p < q :: Of(items, q) == []
    ensures Blocks(items + [last], k) == Blocks(items, k) + [last]
    decreases k
  {
    BlocksStep(items, k);
    BlocksStep(items + [last], k);
    OfGrows(items, last, k - 1);
    if p == k - 1 {
      BlocksSame(items, last, p, k - 1);
      Regroup(Blocks(items, k - 1), Of(items, k - 1), [last]);
    } else {
      BlocksGrow(items, last, p, k - 1);
      AddNothing(Blocks(items, k - 1), Of(items, k - 1));
      AddNothing(Blocks(items + [last], k - 1), Of(items + [last], k - 1));
    }
  }

  lemma {:induction false} AddNothing<T>(a: seq<T>, b: seq<T>)
    requires b == []
    ensures a + b == a
  {
  }

  lemma {:induction false} Regroup<T>(a: seq<T>, b: seq<T>, c: seq<T>)
    ensures (a + b) + c == a + (b + c)
  {
  }

  lemma {:induction false} NoBlocks(k: nat)
    ensures Blocks([], k) == []
  {
    if k > 0 {
      NoBlocks(k - 1);
    }
  }

  lemma {:induction false} NoneAfter(items: seq<Item>, q: nat)
    requires forall item <- items :: !In(item, q)
    ensures Of(items, q) == []
    decreases |items|
  {
    if items != [] {
      NoneAfter(items[..|items| - 1], q);
    }
  }

  lemma {:induction false} BlocksAreAll(items: seq<Item>)
    requires KnownScenarios(items) && ScenariosInOrder(items)
    ensures items == Blocks(items, 5)
    decreases |items|
  {
    if items == [] {
      NoBlocks(5);
    } else {
      var earlier, last := items[..|items| - 1], items[|items| - 1];
      assert KnownScenarios(earlier) && ScenariosInOrder(earlier);
      BlocksAreAll(earlier);
      var p := Position(last.scenario).value;
      forall q | p < q
        ensures Of(earlier, q) == []
      {
        forall item <- earlier
          ensures !In(item, q)
        {
          var i :| 0 <= i < |earlier| && earlier[i] == item;
          assert Position(items[i].scenario).value <= p;
        }
        NoneAfter(earlier, q);
      }
      assert items == earlier + [last];
      BlocksGrow(earlier, last, p, 5);
    }
  }

  // ----- Numbers -----

  lemma {:induction false} Spread(items: seq<Item>, i: nat, j: nat)
    requires Increasing(items) && i <= j < |items|
    ensures items[j].number - items[i].number >= j - i
    decreases j - i
  {
    if i < j {
      Spread(items, i, j - 1);
    }
  }

  /** Increasing numbers that with the restart's own make up 1 to n + 1: each is its place, or one
      more after the restart. */
  lemma {:induction false} Numbering(items: seq<Item>, restart: int)
    requires Increasing(items) && Numbers(items) + {restart} == UpTo(|items| + 1)
    ensures 1 <= restart <= |items| + 1
    ensures forall i | 0 <= i < |items| :: items[i].number == if i < restart - 1 then i + 1 else i + 2
  {
    assert restart in UpTo(|items| + 1);
    forall i | 0 <= i < |items|
      ensures i + 1 <= items[i].number <= i + 2
    {
      Spread(items, 0, i);
      Spread(items, i, |items| - 1);
      assert items[0].number in Numbers(items) && items[|items| - 1].number in Numbers(items);
      assert items[0].number in UpTo(|items| + 1) && items[|items| - 1].number in UpTo(|items| + 1);
    }
    forall i | 0 <= i < |items|
      ensures items[i].number == if i < restart - 1 then i + 1 else i + 2
    {
      if i < restart - 1 {
        NumberedBelow(items, restart, i);
      } else {
        NumberedAbove(items, restart, i);
      }
    }
  }

  ghost predicate NearPlace(items: seq<Item>) { forall i | 0 <= i < |items| :: i + 1 <= items[i].number <= i + 2 }

  lemma {:induction false} Found(items: seq<Item>, restart: int, k: int)
    requires NearPlace(items) && Numbers(items) + {restart} == UpTo(|items| + 1)
    requires 1 <= k <= |items| + 1 && k != restart
    ensures (k - 1 < |items| && items[k - 1].number == k) || (k >= 2 && items[k - 2].number == k)
  {
    assert k in UpTo(|items| + 1) && k in Numbers(items);
    var i :| 0 <= i < |items| && items[i].number == k;
  }

  lemma {:induction false} NumberedBelow(items: seq<Item>, restart: int, i: nat)
    requires NearPlace(items) && Numbers(items) + {restart} == UpTo(|items| + 1)
    requires i < |items| && i < restart - 1
    ensures items[i].number == i + 1
  {
    Found(items, restart, i + 1);
    if i > 0 {
      NumberedBelow(items, restart, i - 1);
    }
  }

  lemma {:induction false} NumberedAbove(items: seq<Item>, restart: int, i: nat)
    requires NearPlace(items) && Numbers(items) + {restart} == UpTo(|items| + 1)
    requires restart - 1 <= i < |items|
    ensures items[i].number == i + 2
    decreases |items| - i
  {
    Found(items, restart, i + 2);
    if i + 1 < |items| {
      NumberedAbove(items, restart, i + 1);
    }
  }

  // ----- The thirteen exchanges -----

  /** The scenario of each of the thirteen exchanges. */
  function ScenarioAt(i: nat): nat { if i < 2 then 0 else if i < 5 then 1 else if i < 7 then 2 else if i < 10 then 3 else 4 }

  function WitnessAt(i: nat): Witness
    requires i < 13
  {
    var s := ScenarioAt(i);
    Expected(s)[i - StartOf(s)]
  }

  lemma {:induction false} BlockSizes(items: seq<Item>)
    requires SequencesOk(items)
    ensures |Of(items, 0)| == 2 && |Of(items, 1)| == 3 && |Of(items, 2)| == 2 && |Of(items, 3)| == 3 && |Of(items, 4)| == 3
  {
    assert forall s | 0 <= s < 5 :: |Witnesses(Of(items, s))| == |Of(items, s)|;
    assert Witnesses(Of(items, 0)) == Expected(0) && Witnesses(Of(items, 1)) == Expected(1)
      && Witnesses(Of(items, 2)) == Expected(2) && Witnesses(Of(items, 3)) == Expected(3)
      && Witnesses(Of(items, 4)) == Expected(4);
  }

  lemma {:induction false} Laid(items: seq<Item>)
    requires KnownScenarios(items) && ScenariosInOrder(items) && SequencesOk(items)
    ensures |items| == 13
    ensures items[..2] == Of(items, 0) && items[2..5] == Of(items, 1) && items[5..7] == Of(items, 2)
    ensures items[7..10] == Of(items, 3) && items[10..] == Of(items, 4)
  {
    BlocksAreAll(items);
    BlockSizes(items);
    FiveBlocks(items);
    Slices(items, Of(items, 0), Of(items, 1), Of(items, 2), Of(items, 3), Of(items, 4));
  }

  lemma {:induction false} FiveBlocks(items: seq<Item>)
    ensures Blocks(items, 5) == Of(items, 0) + Of(items, 1) + Of(items, 2) + Of(items, 3) + Of(items, 4)
  {
    assert Blocks(items, 1) == Of(items, 0);
    assert Blocks(items, 2) == Of(items, 0) + Of(items, 1);
    assert Blocks(items, 3) == Of(items, 0) + Of(items, 1) + Of(items, 2);
    assert Blocks(items, 4) == Of(items, 0) + Of(items, 1) + Of(items, 2) + Of(items, 3);
  }

  lemma {:induction false} Slices(items: seq<Item>, a: seq<Item>, b: seq<Item>, c: seq<Item>, d: seq<Item>, e: seq<Item>)
    requires items == a + b + c + d + e && |a| == 2 && |b| == 3 && |c| == 2 && |d| == 3 && |e| == 3
    ensures |items| == 13
    ensures items[..2] == a && items[2..5] == b && items[5..7] == c && items[7..10] == d && items[10..] == e
  {
  }

  /** Where a scenario's exchanges begin. */
  function StartOf(s: nat): nat { if s == 0 then 0 else if s == 1 then 2 else if s == 2 then 5 else if s == 3 then 7 else 10 }

  lemma {:induction false} InBlock(items: seq<Item>, s: nat, k: nat)
    requires s < 5 && SequencesOk(items) && k < |Of(items, s)|
    ensures k < |Expected(s)| && WitnessOf(Of(items, s)[k]) == Expected(s)[k] && In(Of(items, s)[k], s)
  {
    var block := Of(items, s);
    OfHolds(items, s);
    assert block[k] in block;
    assert Witnesses(block) == Expected(s) && Witnesses(block)[k] == WitnessOf(block[k]);
  }

  lemma {:induction false} BlockAt(items: seq<Item>, i: nat)
    requires KnownScenarios(items) && ScenariosInOrder(items) && SequencesOk(items) && i < 13
    ensures var s := ScenarioAt(i);
      && |items| == 13 && s < 5 && StartOf(s) <= i && i - StartOf(s) < |Of(items, s)| && items[i] == Of(items, s)[i - StartOf(s)]
  {
    Laid(items);
    BlockSizes(items);
  }

  /** Exactly the thirteen expected exchanges, in the expected order. */
  lemma {:induction false} ThirteenExchanges(items: seq<Item>)
    requires KnownScenarios(items) && ScenariosInOrder(items) && SequencesOk(items)
    ensures |items| == 13
    ensures forall i | 0 <= i < 13 :: WitnessOf(items[i]) == WitnessAt(i) && In(items[i], ScenarioAt(i))
  {
    Laid(items);
    forall i | 0 <= i < 13
      ensures WitnessOf(items[i]) == WitnessAt(i) && In(items[i], ScenarioAt(i))
    {
      BlockAt(items, i);
      InBlock(items, ScenarioAt(i), i - StartOf(ScenarioAt(i)));
    }
  }

  lemma {:induction false} EpochAt(items: seq<Item>, i: nat)
    requires |items| == 13 && i < 13 && WitnessOf(items[i]) == WitnessAt(i)
    ensures items[i].epoch == String(if i < 11 then "A" else "B")
  {
    assert WitnessOf(items[i]).epoch == items[i].epoch;
  }

  lemma {:induction false} FromThree(x: Item, y: Item, z: Item, source: string)
    ensures From([x, y, z], source)
      == (if x.source == String(source) then [x] else []) + (if y.source == String(source) then [y] else [])
         + (if z.source == String(source) then [z] else [])
  {
    assert [x, y, z][..2] == [x, y] && [x, y][..1] == [x] && [x][..0] == [];
    assert From([x], source) == if x.source == String(source) then [x] else [];
    assert From([x, y], source) == From([x], source) + if y.source == String(source) then [y] else [];
  }

  lemma {:induction false} ReplaySources(items: seq<Item>)
    requires |items| == 13 && forall i | 10 <= i < 13 :: WitnessOf(items[i]) == WitnessAt(i)
    ensures From(items[10..], "aborted_begin") == [items[10]] && From(items[10..], "replayed_begin") == [items[12]]
  {
    assert WitnessOf(items[10]).source == items[10].source && WitnessOf(items[11]).source == items[11].source
      && WitnessOf(items[12]).source == items[12].source;
    assert items[10..] == [items[10], items[11], items[12]];
    FromThree(items[10], items[11], items[12], "aborted_begin");
    FromThree(items[10], items[11], items[12], "replayed_begin");
  }

  /** Both begins are there, so the restart is checked. */
  lemma {:induction false} ReplayedBytes(items: seq<Item>, restart: Option<int>)
    requires KnownScenarios(items) && ScenariosInOrder(items) && SequencesOk(items) && RestartOk(items, restart)
    ensures |items| == 13 && items[10].raw == items[12].raw
    ensures restart.Some? ==> EpochsSplit(items, restart.value)
  {
    ThirteenExchanges(items);
    Laid(items);
    ReplaySources(items);
  }

  /** The restart is number 12: the first eleven exchanges are 1 to 11 in epoch A, the last two are
      13 and 14 in epoch B, and the replayed begin repeats the aborted bytes. */
  lemma {:induction false} RestartIsTwelve(items: seq<Item>, restart: Option<int>)
    requires OrderOk(items, restart) && SequencesOk(items) && RestartOk(items, restart)
    ensures |items| == 13 && restart == Some(12)
    ensures forall i | 0 <= i < 13 ::
      items[i].number == (if i < 11 then i + 1 else i + 2) && items[i].epoch == String(if i < 11 then "A" else "B")
    ensures items[10].raw == items[12].raw
  {
    ThirteenExchanges(items);
    ReplayedBytes(items, restart);
    Numbering(items, restart.value);
    forall i | 0 <= i < 13
      ensures items[i].epoch == String(if i < 11 then "A" else "B")
    {
      EpochAt(items, i);
    }
    SplitAtTwelve(items, restart.value);
  }

  lemma {:induction false} SplitAtTwelve(items: seq<Item>, restart: int)
    requires |items| == 13 && EpochsSplit(items, restart)
    requires forall i | 0 <= i < 13 :: items[i].number == if i < restart - 1 then i + 1 else i + 2
    requires items[10].epoch == String("A") && items[11].epoch == String("B")
    ensures restart == 12
  {
    assert items[10] in items && items[11] in items;
  }

  // ----- Keys and attempts -----

  /** One key and one payload per scenario, and no key in two scenarios. */
  lemma {:induction false} KeysPerScenario(items: seq<Item>, i: nat, j: nat)
    requires KeysOk(items) && i < |items| && j < |items|
    requires Position(items[i].scenario).Some? && Position(items[j].scenario).Some?
    ensures Key(items[i]) == Key(items[j]) <==> items[i].scenario == items[j].scenario
    ensures items[i].scenario == items[j].scenario ==> Payload(items[i]) == Payload(items[j])
  {
    var (s, t) := (Position(items[i].scenario).value, Position(items[j].scenario).value);
    assert Key(items[i]) in KeysOf(items, s) && Key(items[j]) in KeysOf(items, t);
    assert |KeySets(items)[s]| == 1 && |KeySets(items)[t]| == 1;
    Singleton(KeysOf(items, s), Key(items[i]));
    Singleton(KeysOf(items, t), Key(items[j]));
    assert s < t ==> KeySets(items)[s] != KeySets(items)[t];
    assert t < s ==> KeySets(items)[t] != KeySets(items)[s];
    if Key(items[i]) == Key(items[j]) {
      PayloadsMatch(items, i, j);
    }
  }

  lemma {:induction false} PayloadsMatch(items: seq<Item>, i: nat, j: nat)
    requires PayloadsBound(items) && i < |items| && j < |items| && Key(items[i]) == Key(items[j])
    ensures Payload(items[i]) == Payload(items[j])
  {
  }

  predicate Carries(item: Item) {
    OutcomeOf(item) == Some("STARTED") || OutcomeOf(item) == Some("INTERRUPTED")
  }

  lemma {:induction false} CarriedAttempt(item: Item)
    requires ShapeOk(item) && Carries(item) && item.response.Some? && "error" !in item.response.value
    ensures AttemptOf(item).Some?
    ensures Interrupted(item) <==> OutcomeOf(item) == Some("INTERRUPTED")
    ensures forall field <- ATTEMPT_PINS :: SpokenText(Get(AttemptOf(item).value, field))
  {
    assert WrapperOk(item.response.value, item.status, item.request);
  }

  /** The answers that name an attempt name one per scenario, and the interrupted ones agree in full. */
  lemma {:induction false} OneAttemptPerScenario(items: seq<Item>, i: nat, j: nat)
    requires KeysOk(items) && IdentitiesOk(items) && KnownScenarios(items) && i < j < |items|
    requires AttemptOf(items[i]).Some? && AttemptOf(items[j]).Some?
    ensures var (a, b) := (AttemptOf(items[i]).value, AttemptOf(items[j]).value);
      && (if items[i].scenario == items[j].scenario then SamePins(a, b) else IdOf(a) != IdOf(b))
      && (Interrupted(items[i]) && Interrupted(items[j]) && items[i].scenario == items[j].scenario ==> a == b)
  {
    assert items[i] in items && items[j] in items;
    KeysPerScenario(items, i, j);
    assert Agree(items[i], items[j]);
  }

  // ----- The main result -----

  /** Accepted exchanges are the witnessed run, whole: thirteen of them in the expected order,
      numbered 1 to 11, 13 and 14 around a restart at 12, epoch A before it and B after, and five
      keys, one per scenario, each bound to one payload. */
  ghost predicate WitnessedRun(items: seq<Item>, restart: Option<int>) {
    && |items| == 13 && restart == Some(12)
    && (forall i | 0 <= i < 13 ::
          && In(items[i], ScenarioAt(i)) && WitnessOf(items[i]) == WitnessAt(i)
          && items[i].number == (if i < 11 then i + 1 else i + 2)
          && items[i].epoch == String(if i < 11 then "A" else "B"))
    && (forall i, j | 0 <= i < 13 && 0 <= j < 13 ::
          && (Key(items[i]) == Key(items[j]) <==> ScenarioAt(i) == ScenarioAt(j))
          && (ScenarioAt(i) == ScenarioAt(j) ==> Payload(items[i]) == Payload(items[j])))
    && items[10].raw == items[12].raw
  }

  lemma {:induction false} ItemsOkIsWitnessed(items: seq<Item>, restart: Option<int>)
    requires ItemsOk(items, restart)
    ensures WitnessedRun(items, restart)
  {
    ThirteenExchanges(items);
    RestartIsTwelve(items, restart);
    forall i, j | 0 <= i < 13 && 0 <= j < 13
      ensures Key(items[i]) == Key(items[j]) <==> ScenarioAt(i) == ScenarioAt(j)
      ensures ScenarioAt(i) == ScenarioAt(j) ==> Payload(items[i]) == Payload(items[j])
    {
      assert In(items[i], ScenarioAt(i)) && In(items[j], ScenarioAt(j));
      SameScenario(items[i].scenario, items[j].scenario);
      KeysPerScenario(items, i, j);
    }
  }

  lemma {:induction false} SameScenario(a: Json, b: Json)
    requires Position(a).Some? && Position(b).Some?
    ensures Position(a) == Position(b) <==> a == b
  {
  }

  // ----- And only those are accepted -----

  function EndOf(s: nat): nat { if s < 4 then StartOf(s + 1) else 13 }

  /** Each exchange is in the scenario of its place. */
  ghost predicate InPlace(items: seq<Item>) { |items| == 13 && forall i | 0 <= i < 13 :: In(items[i], ScenarioAt(i)) }

  function Least(a: nat, b: nat): nat { if a < b then a else b }

  lemma {:induction false} OfNext(items: seq<Item>, k: nat, s: nat)
    requires 0 < k <= |items|
    ensures Of(items[..k], s) == Of(items[..k - 1], s) + if In(items[k - 1], s) then [items[k - 1]] else []
  {
    assert items[..k] == items[..k - 1] + [items[k - 1]];
    OfGrows(items[..k - 1], items[k - 1], s);
  }

  /** A scenario whose exchanges are those of a range has exactly that range. */
  lemma {:induction false} OfRange(items: seq<Item>, k: nat, s: nat, start: nat, end: nat)
    requires k <= |items| && start <= end && forall i | 0 <= i < |items| :: In(items[i], s) <==> start <= i < end
    ensures Of(items[..k], s) == items[Least(k, start)..Least(k, end)]
  {
    if k > 0 {
      OfRange(items, k - 1, s, start, end);
      OfNext(items, k, s);
      SliceGrows(items, k, start, end);
    }
  }

  lemma {:induction false} PlaceIn(i: nat, s: nat)
    requires i < 13 && s < 5
    ensures ScenarioAt(i) == s <==> StartOf(s) <= i < EndOf(s)
  {
  }

  lemma {:induction false} SliceGrows<T>(items: seq<T>, k: nat, start: nat, end: nat)
    requires 0 < k <= |items| && start <= end
    ensures items[Least(k, start)..Least(k, end)]
      == items[Least(k - 1, start)..Least(k - 1, end)] + if start <= k - 1 < end then [items[k - 1]] else []
  {
  }

  lemma {:induction false} OfPlace(items: seq<Item>, s: nat)
    requires InPlace(items) && s < 5
    ensures Of(items, s) == items[StartOf(s)..EndOf(s)]
  {
    forall i | 0 <= i < 13
      ensures In(items[i], s) <==> StartOf(s) <= i < EndOf(s)
    {
      assert In(items[i], ScenarioAt(i));
      PlaceIn(i, s);
    }
    OfRange(items, 13, s, StartOf(s), EndOf(s));
    assert items[..13] == items;
  }

  lemma {:induction false} WitnessPlace(s: nat, k: nat)
    requires s < 5 && k < EndOf(s) - StartOf(s)
    ensures |Expected(s)| == EndOf(s) - StartOf(s) && StartOf(s) + k < 13 && WitnessAt(StartOf(s) + k) == Expected(s)[k]
  {
    assert ScenarioAt(StartOf(s) + k) == s;
  }

  lemma {:induction false} SameWitnesses(items: seq<Item>, expected: seq<Witness>)
    requires |items| == |expected| && forall k | 0 <= k < |items| :: WitnessOf(items[k]) == expected[k]
    ensures Witnesses(items) == expected
  {
  }

  lemma {:induction false} PlacesInSequence(items: seq<Item>)
    requires InPlace(items) && forall i | 0 <= i < 13 :: WitnessOf(items[i]) == WitnessAt(i)
    ensures SequencesOk(items)
  {
    forall s | 0 <= s < 5
      ensures Witnesses(Of(items, s)) == Expected(s)
    {
      OfPlace(items, s);
      WitnessPlace(s, 0);
      forall k | 0 <= k < EndOf(s) - StartOf(s)
        ensures WitnessOf(items[StartOf(s)..EndOf(s)][k]) == Expected(s)[k]
      {
        WitnessPlace(s, k);
      }
      SameWitnesses(items[StartOf(s)..EndOf(s)], Expected(s));
    }
  }

  lemma {:induction false} PlacesInOrder(items: seq<Item>)
    requires InPlace(items) && forall i | 0 <= i < 13 :: items[i].number == if i < 11 then i + 1 else i + 2
    ensures OrderOk(items, Some(12))
  {
    forall k: int
      ensures k in Numbers(items) + {12} <==> 1 <= k <= 14
    {
      if 1 <= k <= 11 {
        assert items[k - 1].number == k && items[k - 1] in items;
      } else if 13 <= k <= 14 {
        assert items[k - 2].number == k && items[k - 2] in items;
      }
    }
    forall i | 0 <= i < 13
      ensures Position(items[i].scenario) == Some(ScenarioAt(i))
    {
      assert In(items[i], ScenarioAt(i));
    }
  }

  /** One key per scenario, of all its exchanges. */
  ghost predicate KeyedByScenario(items: seq<Item>) {
    |items| == 13 && forall i, j | 0 <= i < 13 && 0 <= j < 13 ::
      && (Key(items[i]) == Key(items[j]) <==> ScenarioAt(i) == ScenarioAt(j))
      && (ScenarioAt(i) == ScenarioAt(j) ==> Payload(items[i]) == Payload(items[j]))
  }

  lemma {:induction false} PlaceKeys(items: seq<Item>, s: nat)
    requires InPlace(items) && KeyedByScenario(items) && s < 5
    ensures KeysOf(items, s) == {Key(items[StartOf(s)])}
  {
    assert ScenarioAt(StartOf(s)) == s && In(items[StartOf(s)], ScenarioAt(StartOf(s)));
    forall item <- items | In(item, s)
      ensures Key(item) == Key(items[StartOf(s)])
    {
      var i :| 0 <= i < 13 && items[i] == item;
      assert In(items[i], ScenarioAt(i));
    }
  }

  lemma {:induction false} PlacesKeyed(items: seq<Item>)
    requires InPlace(items) && KeyedByScenario(items)
    ensures KeysOk(items)
  {
    forall s | 0 <= s < 5
      ensures KeySets(items)[s] == {Key(items[StartOf(s)])}
    {
      PlaceKeys(items, s);
    }
    forall s, t | 0 <= s < t < 5
      ensures KeySets(items)[s] != KeySets(items)[t]
    {
      assert ScenarioAt(StartOf(s)) != ScenarioAt(StartOf(t));
      assert Key(items[StartOf(s)]) in KeySets(items)[s];
    }
  }

  lemma {:induction false} PlacesRestart(items: seq<Item>)
    requires InPlace(items) && (forall i | 0 <= i < 13 :: WitnessOf(items[i]) == WitnessAt(i))
    requires forall i | 0 <= i < 13 ::
      items[i].number == (if i < 11 then i + 1 else i + 2) && items[i].epoch == String(if i < 11 then "A" else "B")
    requires items[10].raw == items[12].raw
    ensures RestartOk(items, Some(12))
  {
    OfPlace(items, 4);
    assert Of(items, 4) == items[10..];
    ReplaySources(items);
    PlacesSplit(items);
    SameBytes(items, items[10], items[12], 12);
  }

  lemma {:induction false} SameBytes(items: seq<Item>, aborted: Item, replayed: Item, restart: int)
    requires From(Of(items, 4), "aborted_begin") == [aborted] && From(Of(items, 4), "replayed_begin") == [replayed]
    requires aborted.raw == replayed.raw && EpochsSplit(items, restart)
    ensures RestartOk(items, Some(restart))
  {
  }

  lemma {:induction false} PlacesSplit(items: seq<Item>)
    requires |items| == 13 && forall i | 0 <= i < 13 ::
      items[i].number == (if i < 11 then i + 1 else i + 2) && items[i].epoch == String(if i < 11 then "A" else "B")
    ensures EpochsSplit(items, 12)
  {
    forall item <- items
      ensures if item.epoch == String("A") then item.number <= 12 else item.number >= 12
    {
      var i :| 0 <= i < 13 && items[i] == item;
    }
  }

  lemma {:induction false} WitnessedIsOk(items: seq<Item>)
    requires WitnessedRun(items, Some(12)) && (forall item <- items :: ShapeOk(item)) && IdentitiesOk(items)
    ensures ItemsOk(items, Some(12))
  {
    PlacesInSequence(items);
    PlacesInOrder(items);
    PlacesKeyed(items);
    PlacesRestart(items);
  }

  /** The recorded exchanges are accepted if and only if they are the witnessed run, each of the right
      shape, and their attempts agree. */
  lemma {:induction false} AcceptedExactly(items: seq<Item>, restart: Option<int>)
    ensures ItemsOk(items, restart)
      <==> WitnessedRun(items, restart) && (forall item <- items :: ShapeOk(item)) && IdentitiesOk(items)
  {
    if ItemsOk(items, restart) {
      ItemsOkIsWitnessed(items, restart);
    } else if WitnessedRun(items, restart) && (forall item <- items :: ShapeOk(item)) && IdentitiesOk(items) {
      WitnessedIsOk(items);
    }
  }

  /** A packet with no problems records exactly the witnessed run. */
  lemma {:induction false} AcceptedIsWitnessed(codec: Codec, packet: Json)
    requires PacketOk(codec, packet)
    ensures WitnessedRun(Items(codec, Get(packet.fields, "exchanges").elements), RestartSeq(Get(packet.fields, "epochs")))
  {
    ItemsOkIsWitnessed(Items(codec, Get(packet.fields, "exchanges").elements), RestartSeq(Get(packet.fields, "epochs")));
  }

  /** The exchanges whose answers carry an attempt, and those that carry an interrupted one. */
  const STARTS: set<nat> := {0, 7}
  const INTERRUPTIONS: set<nat> := {1, 6, 8, 9}

  /** Two answers carry attempts: the same one within a scenario, whole if both are interrupted,
      and different ones in different scenarios. */
  ghost predicate AttemptsMatch(items: seq<Item>, i: nat, j: nat) {
    && i < |items| && j < |items| && AttemptOf(items[i]).Some? && AttemptOf(items[j]).Some?
    && var (a, b) := (AttemptOf(items[i]).value, AttemptOf(items[j]).value);
    && (if ScenarioAt(i) == ScenarioAt(j) then SamePins(a, b) else IdOf(a) != IdOf(b))
    && (ScenarioAt(i) == ScenarioAt(j) && i in INTERRUPTIONS && j in INTERRUPTIONS ==> a == b)
  }

  /** What is known of an exchange that carries an attempt. */
  ghost predicate Carrier(items: seq<Item>, i: nat) {
    && |items| == 13 && i < 13 && AttemptOf(items[i]).Some? && (i in INTERRUPTIONS ==> Interrupted(items[i]))
    && items[i].scenario == String(SCENARIOS[ScenarioAt(i)])
  }

  lemma {:induction false} AttemptAt(items: seq<Item>, i: nat)
    requires |items| == 13 && i in STARTS + INTERRUPTIONS && ShapeOk(items[i]) && WitnessOf(items[i]) == WitnessAt(i)
    ensures AttemptOf(items[i]).Some? && (i in INTERRUPTIONS ==> Interrupted(items[i]))
  {
    assert WitnessOf(items[i]).outcome == OutcomeOf(items[i]) && WitnessOf(items[i]).status == items[i].status;
    assert items[i].status == Whole(200) || items[i].status == Whole(201);
    CarriedAttempt(items[i]);
  }

  lemma {:induction false} NamedScenario(scenario: Json, s: nat)
    requires Position(scenario) == Some(s)
    ensures s < 5 && scenario == String(SCENARIOS[s])
  {
  }

  lemma {:induction false} CarrierAt(items: seq<Item>, i: nat)
    requires KnownScenarios(items) && ScenariosInOrder(items) && SequencesOk(items) && i in STARTS + INTERRUPTIONS
    requires forall item <- items :: ShapeOk(item)
    ensures Carrier(items, i)
  {
    ThirteenExchanges(items);
    assert ShapeOk(items[i]);
    AttemptAt(items, i);
    NamedScenario(items[i].scenario, ScenarioAt(i));
  }

  /** In an accepted run a recovery interrupts the very attempt its scenario's begin started, a
      repeated recovery gives the same result, and different scenarios have different attempts. */
  lemma {:induction false} RecoveriesInterruptTheirBegins(items: seq<Item>, restart: Option<int>, i: nat, j: nat)
    requires ItemsOk(items, restart)
    requires i < j && i in STARTS + INTERRUPTIONS && j in STARTS + INTERRUPTIONS
    ensures AttemptsMatch(items, i, j)
  {
    CarrierAt(items, i);
    CarrierAt(items, j);
    CarriersMatch(items, i, j);
  }

  lemma {:induction false} CarriersMatch(items: seq<Item>, i: nat, j: nat)
    requires Carrier(items, i) && Carrier(items, j) && i < j
    requires KeysOk(items) && IdentitiesOk(items) && KnownScenarios(items)
    ensures AttemptsMatch(items, i, j)
  {
    OneAttemptPerScenario(items, i, j);
  }

  /** The text has this part in it. */
  ghost predicate Includes(text: string, part: string) { exists before, after :: text == before + part + after }

  /** The page showed the attempt this answer interrupted: its feedback was visible, named the attempt's id,
      said that no evaluation was produced and claimed no match. */
  ghost predicate Shows(scenarios: Json, items: seq<Item>, i: nat) {
    && i < |items| && items[i].response.Some? && scenarios.Object?
    && "attempt" in items[i].response.value && items[i].response.value["attempt"].Object?
    && "attempt_id" in items[i].response.value["attempt"].fields
    && items[i].response.value["attempt"].fields["attempt_id"].String?
    && var (name, id) := (SCENARIOS[ScenarioAt(i)], items[i].response.value["attempt"].fields["attempt_id"].text);
    && name in scenarios.fields && scenarios.fields[name].Object?
    && var shown := scenarios.fields[name].fields;
    && "feedback_visible" in shown && shown["feedback_visible"] == Flag(true)
    && "feedback_text" in shown && shown["feedback_text"].String?
    && Includes(shown["feedback_text"].text, id)
    && Includes(shown["feedback_text"].text, "No evaluation was produced.")
    && !Includes(shown["feedback_text"].text, "Matched:")
  }

  lemma {:induction false} IncludesExactly(text: string, part: string)
    ensures Contains(text, part) <==> Includes(text, part)
  {
    if Contains(text, part) {
      var i :| 0 <= i <= |text| && part <= text[i..];
      assert text == text[..i] + part + text[i + |part|..];
    }
    if Includes(text, part) {
      var before, after :| text == before + part + after;
      assert text[|before|..] == part + after;
      assert part <= text[|before|..];
    }
  }

  lemma {:induction false} InterruptionKept(items: seq<Item>, i: nat)
    requires IdentitiesOk(items) && i < |items| && Interrupted(items[i])
    ensures items[i].scenario in Interruptions(items)
    ensures Some(Interruptions(items)[items[i].scenario]) == AttemptOf(items[i])
  {
    FittingIsIdentity(items);
    LedgerInterruptions(items);
    assert items[i] in items;
  }

  lemma {:induction false} NamedFeedback(scenarios: Json, interrupted: map<Json, map<string, Json>>, s: nat)
    requires FeedbackOk(scenarios, interrupted) && (s == 0 || s == 2 || s == 3)
    ensures scenarios.Object? && FeedbackShows(Get(scenarios.fields, SCENARIOS[s]), Lookup(interrupted, SCENARIOS[s]))
  {
    assert SCENARIOS[s] in ["W1", "W3", "W4"];
  }

  lemma {:induction false} ShownText(scenarios: Json, items: seq<Item>, i: nat, observed: Json)
    requires i < |items| && AttemptOf(items[i]).Some? && scenarios.Object?
    requires observed == Get(scenarios.fields, SCENARIOS[ScenarioAt(i)]) && FeedbackShows(observed, AttemptOf(items[i]))
    ensures Shows(scenarios, items, i)
  {
    var text := Get(observed.fields, "feedback_text").text;
    IncludesExactly(text, Get(AttemptOf(items[i]).value, "attempt_id").text);
    IncludesExactly(text, "No evaluation was produced.");
    IncludesExactly(text, "Matched:");
  }

  lemma {:induction false} CarrierShown(items: seq<Item>, scenarios: Json, i: nat)
    requires Carrier(items, i) && i in INTERRUPTIONS && IdentitiesOk(items)
    requires FeedbackOk(scenarios, Interruptions(items))
    ensures Shows(scenarios, items, i)
  {
    InterruptionKept(items, i);
    NamedFeedback(scenarios, Interruptions(items), ScenarioAt(i));
    ShownText(scenarios, items, i, Get(scenarios.fields, SCENARIOS[ScenarioAt(i)]));
  }

  /** And the page showed the interrupted attempt each recovery recovered. */
  lemma {:induction false} FeedbackNamesTheAttempt(items: seq<Item>, restart: Option<int>, scenarios: Json, i: nat)
    requires ItemsOk(items, restart) && FeedbackOk(scenarios, Interruptions(items)) && i in INTERRUPTIONS
    ensures Shows(scenarios, items, i)
  {
    CarrierAt(items, i);
    CarrierShown(items, scenarios, i);
  }
}
