/** The checks themselves. They run one after another over the exchanges and report problems to a
    shared list, filling dictionaries as they go; each reports nothing exactly when its part of the
    packet is in order. */
module BeginEvidenceChecks {
  import opened Prelude
  import opened BeginEvidence

  datatype Place = ThePacket | TheExchange(index: nat) | Labelled(scenario: Json, number: int) | TheScenario(name: string)

  datatype Problem = Problem(place: Place, what: string)

  class EvidenceVerifier {
    const codec: Codec
    var problems: seq<Problem>

    constructor (codec: Codec)
      ensures this.codec == codec && problems == []
    {
      this.codec := codec;
      problems := [];
    }

    method Report(place: Place, what: string)
      modifies this
      ensures problems == old(problems) + [Problem(place, what)]
    {
      problems := problems + [Problem(place, what)];
    }

    /** Reports unless the condition holds. */
    method Require(holds: bool, place: Place, what: string)
      modifies this
      ensures old(problems) <= problems && (problems == old(problems) <==> holds)
    {
      if !holds {
        Report(place, what);
      }
    }

    method VerifyRun(packet: map<string, Json>)
      modifies this
      ensures old(problems) <= problems && (problems == old(problems) <==> RunOk(packet))
    {
      Require(Get(packet, "schema") == String("master_all_strings.do016_begin_recovery_evidence")
              && Get(packet, "schema_version") == String("2"),
              ThePacket, "schema or version is not the begin recovery packet");
      Require(Get(packet, "complete") == Flag(true) && Get(packet, "failures") == Whole(0),
              ThePacket, "the run is incomplete");
      VerifyRunFields(packet);
      Require(Get(packet, "transport").Object? && Get(Get(packet, "transport").fields, "server_responses") == String("live"),
              ThePacket, "server responses are not labeled live");
    }

    method VerifyRunFields(packet: map<string, Json>)
      modifies this
      ensures old(problems) <= problems
      ensures problems == old(problems) <==>
        && (forall field <- ["tested_sha", "tested_tree"] :: Get(packet, field).String? && GitSha(Get(packet, field).text))
        && Get(packet, "dirty") == String("")
        && (forall field <- ["python", "node", "chrome", "os"] :: SpokenText(Get(packet, field)))
    {
      var shas := ["tested_sha", "tested_tree"];
      for i := 0 to 2
        invariant old(problems) <= problems
        invariant problems == old(problems)
          <==> forall field <- shas[..i] :: Get(packet, field).String? && GitSha(Get(packet, field).text)
      {
        Require(Get(packet, shas[i]).String? && GitSha(Get(packet, shas[i]).text), ThePacket, "not a full git sha");
      }
      Require(Get(packet, "dirty") == String(""), ThePacket, "the tested tree was dirty");
      var versions := ["python", "node", "chrome", "os"];
      ghost var before := problems;
      for i := 0 to 4
        invariant before <= problems
        invariant problems == before <==> forall field <- versions[..i] :: SpokenText(Get(packet, field))
      {
        Require(SpokenText(Get(packet, versions[i])), ThePacket, "version was not recorded");
      }
    }

    method ReadBytes(place: Place, encoded: Json, recorded: Json) returns (raw: Option<seq<Byte>>)
      modifies this
      ensures raw == Bytes(codec, encoded, recorded)
      ensures old(problems) <= problems && (problems == old(problems) <==> raw.Some?)
    {
      if !encoded.String? || !recorded.String? {
        Report(place, "bytes are missing");
        return None;
      }
      raw := codec.base64(encoded.text);
      if raw.None? {
        Report(place, "bytes are not base64");
        return None;
      }
      if codec.sha256(raw.value) != recorded.text {
        Report(place, "sha256 does not match the recorded bytes");
        return None;
      }
    }

    method ReadObject(place: Place, encoded: Json, recorded: Json)
      returns (raw: Option<seq<Byte>>, o: Option<map<string, Json>>)
      modifies this
      ensures raw == Bytes(codec, encoded, recorded) && o == Parsed(codec, encoded, recorded)
      ensures old(problems) <= problems && (problems == old(problems) <==> o.Some?)
    {
      raw := ReadBytes(place, encoded, recorded);
      if raw.None? {
        return raw, None;
      }
      o := codec.parse(raw.value);
      if o.None? {
        Report(place, "bytes are not a JSON object");
      }
    }

    method Decode(index: nat, exchange: Json) returns (item: Option<Item>)
      modifies this
      ensures item == Decoded(codec, exchange)
      ensures old(problems) <= problems && (problems == old(problems) <==> DecodeOk(codec, exchange))
    {
      if !exchange.Object? {
        Report(TheExchange(index), "not an object");
        return None;
      }
      var o := exchange.fields;
      if !Get(o, "seq").Whole? {
        Report(TheExchange(index), "sequence number is missing");
        return None;
      }
      var place := Labelled(Get(o, "scenario"), Get(o, "seq").number);
      var raw, request := ReadObject(place, Get(o, "request_base64"), Get(o, "request_sha256"));
      if request.None? {
        return None;
      }
      Require(Get(o, "request") == Object(request.value), place, "parsed request is not its bytes");
      var response: Option<map<string, Json>> := None;
      if Get(o, "response_base64").Null? {
        Require(Get(o, "response_sha256").Null? && Get(o, "response").Null?, place, "an unsent request carries a response");
        Require(Get(o, "status").Null?, place, "an unsent request carries a status");
      } else {
        var bytes;
        bytes, response := ReadObject(place, Get(o, "response_base64"), Get(o, "response_sha256"));
        if response.None? {
          return None;
        }
        Require(Get(o, "response") == Object(response.value), place, "parsed response is not its bytes");
      }
      return Some(Item(Get(o, "seq").number, Get(o, "scenario"), Get(o, "source"), Get(o, "route"), Get(o, "sender"),
                       Get(o, "page_outcome"), Get(o, "epoch"), Get(o, "status"), raw.value, request.value, response));
    }

    method VerifyPids(first: Json, second: Json)
      modifies this
      ensures old(problems) <= problems && (problems == old(problems) <==> Pid(first) && Pid(second) && first != second)
    {
      if !Pid(first) || !Pid(second) {
        Report(ThePacket, "an epoch has no process id");
      } else if first == second {
        Report(ThePacket, "the restart did not change process id");
      }
    }

    method VerifyEpochs(epochs: Json) returns (restart: Option<int>)
      modifies this
      ensures restart == RestartSeq(epochs)
      ensures old(problems) <= problems && (problems == old(problems) <==> EpochsOk(epochs))
    {
      if !epochs.List? || |epochs.elements| != 2 {
        Report(ThePacket, "expected process epochs A and B");
        return None;
      }
      if !epochs.elements[0].Object? || !epochs.elements[1].Object? {
        Report(ThePacket, "an epoch is not an object");
        return None;
      }
      var first, second := epochs.elements[0].fields, epochs.elements[1].fields;
      Require(Get(first, "name") == String("A") && Get(second, "name") == String("B"),
              ThePacket, "expected process epochs A and B");
      VerifyPids(Get(first, "pid"), Get(second, "pid"));
      Require(Get(second, "previous_pid") == Get(first, "pid"), ThePacket, "the restart did not replace epoch A's process");
      if !Get(second, "restart_seq").Whole? {
        Report(ThePacket, "the restart has no place in the sequence");
        return None;
      }
      return Some(Get(second, "restart_seq").number);
    }

    method VerifyOrder(items: seq<Item>, restart: Option<int>)
      modifies this
      ensures old(problems) <= problems && (problems == old(problems) <==> OrderOk(items, restart))
    {
      Require(Increasing(items), ThePacket, "exchanges are not in sequence order");
      Require(restart.Some? && Numbers(items) + {restart.value} == UpTo(|items| + 1),
              ThePacket, "the sequence has a gap or a duplicate");
      VerifyScenarioOrder(items);
    }

    method VerifyScenarioOrder(items: seq<Item>)
      modifies this
      ensures old(problems) <= problems
      ensures problems == old(problems) <==> KnownScenarios(items) && ScenariosInOrder(items)
    {
      var positions: seq<nat> := [];
      for i := 0 to |items|
        invariant old(problems) <= problems
        invariant problems == old(problems) <==> KnownScenarios(items[..i])
        invariant problems == old(problems) ==>
            |positions| == i && forall k | 0 <= k < i :: Position(items[k].scenario) == Some(positions[k])
      {
        if Position(items[i].scenario).None? {
          Report(Labelled(items[i].scenario, items[i].number), "unknown scenario");
        } else {
          positions := positions + [Position(items[i].scenario).value];
        }
      }
      assert items[..|items|] == items;
      Require(forall i, j | 0 <= i < j < |positions| :: positions[i] <= positions[j], ThePacket, "scenarios interleave");
    }

    method VerifyShape(item: Item)
      modifies this
      ensures old(problems) <= problems && (problems == old(problems) <==> ShapeOk(item))
    {
      var place := Labelled(item.scenario, item.number);
      var readable := VerifyRequest(place, item.request);
      if !readable || item.response.None? {
        return;
      }
      if "error" in item.response.value {
        VerifyError(place, item.response.value, item.status);
      } else {
        VerifyWrapper(place, item.response.value, item.status, item.request);
      }
    }

    /** Whether the request can be read on, and what is wrong with it. */
    method VerifyRequest(place: Place, request: map<string, Json>) returns (readable: bool)
      modifies this
      ensures old(problems) <= problems && (problems == old(problems) <==> RequestOk(request))
      ensures readable ==> request.Keys == REQUEST_FIELDS && request["begin"].Object?
      ensures RequestOk(request) ==> readable
    {
      if request.Keys != REQUEST_FIELDS {
        Report(place, "request is not a keyed begin request");
        return false;
      }
      var key, begin := request["begin_request_id"], request["begin"];
      Require(key.String? && RequestId(key.text), place, "request key is not a lowercase uuid v4");
      if !begin.Object? || begin.fields.Keys != BEGIN_FIELDS {
        Report(place, "request payload is not a begin payload");
        return false;
      }
      var capture := begin.fields["capture_time_ns"];
      Require(capture.Whole? && capture.number >= 0, place, "request capture time is not a nonnegative integer");
      return true;
    }

    method VerifyError(place: Place, response: map<string, Json>, http: Json)
      requires "error" in response
      modifies this
      ensures old(problems) <= problems && (problems == old(problems) <==> ErrorOk(response, http))
    {
      Require(response.Keys == {"error"} && response["error"].String?, place, "error response is not a single error");
      Require(http.Whole? && http.number in {400, 404, 409, 422, 500}, place, "error response has a success status");
    }

    method VerifyWrapper(place: Place, response: map<string, Json>, http: Json, request: map<string, Json>)
      requires request.Keys == REQUEST_FIELDS && request["begin"].Object?
      modifies this
      ensures old(problems) <= problems && (problems == old(problems) <==> WrapperOk(response, http, request))
    {
      if response.Keys != WRAPPER_FIELDS {
        Report(place, "response is not a begin request wrapper");
        return;
      }
      var status, attempt := Get(response, "status"), Get(response, "attempt");
      VerifyEnvelope(place, response, request);
      if WrapperHttp(status) == {} {
        Report(place, "wrapper status is unknown");
        return;
      }
      Require(http.Whole? && http.number in WrapperHttp(status), place, "the HTTP status cannot carry the wrapper's");
      VerifyCarried(place, attempt, status, request["begin"].fields);
    }

    method VerifyEnvelope(place: Place, response: map<string, Json>, request: map<string, Json>)
      modifies this
      ensures old(problems) <= problems
      ensures problems == old(problems) <==>
        && Get(response, "schema_id") == String("master_all_strings.received_lesson_begin_request")
        && Get(response, "schema_version") == String("1.0.0")
        && Get(response, "begin_request_id") == Get(request, "begin_request_id")
    {
      Require(Get(response, "schema_id") == String("master_all_strings.received_lesson_begin_request")
              && Get(response, "schema_version") == String("1.0.0"), place, "wrapper schema is not begin request 1.0.0");
      Require(Get(response, "begin_request_id") == Get(request, "begin_request_id"), place,
              "wrapper key is not the request's key");
    }

    /** What the wrapper's status says about its attempt. */
    method VerifyCarried(place: Place, attempt: Json, status: Json, begin: map<string, Json>)
      modifies this
      ensures old(problems) <= problems
      ensures problems == old(problems) <==>
        if status == String("PENDING") || status == String("NO_ATTEMPT") then attempt.Null?
        else attempt.Object? && AttemptOk(attempt.fields, status, begin)
    {
      if status == String("PENDING") || status == String("NO_ATTEMPT") {
        Require(attempt.Null?, place, "a status without an attempt carries one");
      } else if !attempt.Object? {
        Report(place, "the status carries no attempt");
      } else {
        VerifyAttempt(place, attempt.fields, status, begin);
      }
    }

    method VerifyAttempt(place: Place, attempt: map<string, Json>, status: Json, begin: map<string, Json>)
      modifies this
      ensures old(problems) <= problems && (problems == old(problems) <==> AttemptOk(attempt, status, begin))
    {
      var phase := if status == String("STARTED") then "CAPTURING" else "INTERRUPTED";
      Require(Get(attempt, "attempt_status") == String(phase), place, "the attempt is not in its status's phase");
      if status == String("INTERRUPTED") {
        Require(Silent(attempt), place, "a recovered interruption captured notes");
      }
      VerifyRequestPins(place, attempt, begin);
      VerifyOwnPins(place, attempt);
    }

    method VerifyRequestPins(place: Place, attempt: map<string, Json>, begin: map<string, Json>)
      modifies this
      ensures old(problems) <= problems
      ensures problems == old(problems) <==> forall pin <- PINS :: Get(attempt, pin.0) == Get(begin, pin.1)
    {
      for i := 0 to |PINS|
        invariant old(problems) <= problems
        invariant problems == old(problems) <==> forall pin <- PINS[..i] :: Get(attempt, pin.0) == Get(begin, pin.1)
      {
        Require(Get(attempt, PINS[i].0) == Get(begin, PINS[i].1), place, "attempt pin is not the request's");
      }
      assert PINS[..|PINS|] == PINS;
    }

    method VerifyOwnPins(place: Place, attempt: map<string, Json>)
      modifies this
      ensures old(problems) <= problems
      ensures problems == old(problems) <==> forall field <- ATTEMPT_PINS :: SpokenText(Get(attempt, field))
    {
      for i := 0 to |ATTEMPT_PINS|
        invariant old(problems) <= problems
        invariant problems == old(problems) <==> forall field <- ATTEMPT_PINS[..i] :: SpokenText(Get(attempt, field))
      {
        Require(SpokenText(Get(attempt, ATTEMPT_PINS[i])), place, "attempt pin is missing");
      }
      assert ATTEMPT_PINS[..|ATTEMPT_PINS|] == ATTEMPT_PINS;
    }

    method VerifyShapes(items: seq<Item>)
      modifies this
      ensures old(problems) <= problems && (problems == old(problems) <==> forall item <- items :: ShapeOk(item))
    {
      for i := 0 to |items|
        invariant old(problems) <= problems
        invariant problems == old(problems) <==> forall item <- items[..i] :: ShapeOk(item)
      {
        VerifyShape(items[i]);
      }
      assert items[..|items|] == items;
    }

    /** The exchanges of a scenario that the source's comprehension selects. */
    method Select(items: seq<Item>, scenario: nat) returns (recorded: seq<Item>)
      ensures recorded == Of(items, scenario)
    {
      recorded := [];
      for i := 0 to |items|
        invariant recorded == Of(items[..i], scenario)
      {
        assert items[..i + 1][..i] == items[..i];
        if In(items[i], scenario) {
          recorded := recorded + [items[i]];
        }
      }
      assert items[..|items|] == items;
    }

    method VerifySequences(items: seq<Item>)
      modifies this
      ensures old(problems) <= problems && (problems == old(problems) <==> SequencesOk(items))
    {
      for s := 0 to 5
        invariant old(problems) <= problems
        invariant problems == old(problems) <==> forall r | 0 <= r < s :: Witnesses(Of(items, r)) == Expected(r)
      {
        var recorded := Select(items, s);
        Require(Witnesses(recorded) == Expected(s), TheScenario(SCENARIOS[s]),
                "recorded exchanges are not the witnessed sequence");
      }
    }

    /** The payload each key was first seen with, and a report for every other one. */
    method VerifyPayloads(items: seq<Item>)
      modifies this
      ensures old(problems) <= problems && (problems == old(problems) <==> PayloadsBound(items))
    {
      var payloadByKey: map<Json, Json> := map[];
      for i := 0 to |items|
        invariant old(problems) <= problems
        invariant problems == old(problems) <==> AllBound(items[..i])
        invariant payloadByKey == PayloadsOf(items[..i])
      {
        var key, payload := Key(items[i]), Payload(items[i]);
        assert items[..i + 1][..i] == items[..i];
        if key in payloadByKey && payloadByKey[key] != payload {
          Report(Labelled(items[i].scenario, items[i].number), "the key was reused with another payload");
        }
        if key !in payloadByKey {
          payloadByKey := payloadByKey[key := payload];
        }
      }
      assert items[..|items|] == items;
      FirstPayloadsBind(items);
    }

    method VerifyKeys(items: seq<Item>)
      modifies this
      ensures old(problems) <= problems && (problems == old(problems) <==> KeysOk(items))
    {
      VerifyPayloads(items);
      VerifyKeySets(KeySets(items));
    }

    /** Reports every pin of an attempt that is not its key's first attempt's. */
    method VerifySamePins(place: Place, attempt: map<string, Json>, first: map<string, Json>)
      modifies this
      ensures old(problems) <= problems && (problems == old(problems) <==> SamePins(attempt, first))
    {
      for i := 0 to |ATTEMPT_PINS|
        invariant old(problems) <= problems
        invariant problems == old(problems) <==> forall field <- ATTEMPT_PINS[..i] :: Get(attempt, field) == Get(first, field)
      {
        Require(Get(attempt, ATTEMPT_PINS[i]) == Get(first, ATTEMPT_PINS[i]), place, "the pin is not the key's attempt");
      }
      assert ATTEMPT_PINS[..|ATTEMPT_PINS|] == ATTEMPT_PINS;
    }

    method VerifyIdentity(item: Item, ledger: Ledger) returns (updated: Ledger)
      modifies this
      ensures updated == Entered(ledger, item)
      ensures old(problems) <= problems && (problems == old(problems) <==> Fits(ledger, item))
    {
      var attempt := AttemptOf(item);
      if attempt.None? {
        return ledger;
      }
      var place, key, first, owners := Labelled(item.scenario, item.number), Key(item), ledger.first, ledger.owners;
      if key in first {
        VerifySamePins(place, attempt.value, first[key]);
      } else {
        first := first[key := attempt.value];
        Require(IdOf(attempt.value) !in owners, place, "reuses another scenario's attempt");
        owners := owners + {IdOf(attempt.value)};
      }
      var interrupted := ledger.interrupted;
      if Interrupted(item) {
        if item.scenario in interrupted {
          Require(interrupted[item.scenario] == attempt.value, place, "a repeated recovery changed the stored result");
        } else {
          interrupted := interrupted[item.scenario := attempt.value];
        }
      }
      return Ledger(first, owners, interrupted);
    }

    method VerifyIdentities(items: seq<Item>) returns (interrupted: map<Json, map<string, Json>>)
      modifies this
      ensures interrupted == Interruptions(items)
      ensures old(problems) <= problems && (problems == old(problems) <==> IdentitiesOk(items))
    {
      var ledger := Ledger(map[], {}, map[]);
      for i := 0 to |items|
        invariant old(problems) <= problems
        invariant problems == old(problems) <==> AllFit(items[..i])
        invariant ledger == LedgerOf(items[..i])
      {
        assert items[..i + 1][..i] == items[..i];
        ledger := VerifyIdentity(items[i], ledger);
      }
      assert items[..|items|] == items;
      FittingIsIdentity(items);
      LedgerInterruptions(items);
      return ledger.interrupted;
    }

    method VerifyRestart(items: seq<Item>, restart: Option<int>)
      modifies this
      ensures old(problems) <= problems && (problems == old(problems) <==> RestartOk(items, restart))
    {
      var w5 := Select(items, 4);
      var aborted, replayed := From(w5, "aborted_begin"), From(w5, "replayed_begin");
      if |aborted| != 1 || |replayed| != 1 {
        return;
      }
      Require(aborted[0].raw == replayed[0].raw, TheScenario("W5"), "the replayed begin is not the page's aborted bytes");
      if restart.Some? {
        VerifyEpochSplit(items, restart.value);
      }
    }

    method VerifyEpochSplit(items: seq<Item>, restart: int)
      modifies this
      ensures old(problems) <= problems && (problems == old(problems) <==> EpochsSplit(items, restart))
    {
      for i := 0 to |items|
        invariant old(problems) <= problems
        invariant problems == old(problems) <==> EpochsSplit(items[..i], restart)
      {
        var place := Labelled(items[i].scenario, items[i].number);
        if items[i].epoch == String("A") {
          Require(items[i].number <= restart, place, "epoch A answered after the restart");
        } else {
          Require(items[i].number >= restart, place, "epoch B answered before the restart");
        }
      }
      assert items[..|items|] == items;
    }

    method VerifyShown(scenario: string, observed: Json, attempt: Option<map<string, Json>>)
      modifies this
      ensures old(problems) <= problems && (problems == old(problems) <==> FeedbackShows(observed, attempt))
    {
      var place := TheScenario(scenario);
      if !observed.Object? || Get(observed.fields, "feedback_visible") != Flag(true) {
        Report(place, "recovered interruption feedback was not visible");
        return;
      }
      var text := Get(observed.fields, "feedback_text");
      if !text.String? || !Contains(text.text, "No evaluation was produced.") {
        Report(place, "feedback does not disclaim evaluation");
        return;
      }
      Require(!Contains(text.text, "Matched:"), place, "interrupted feedback shows evaluation counts");
      Require(attempt.Some? && IdOf(attempt.value).String? && Contains(text.text, IdOf(attempt.value).text),
              place, "feedback does not show the recovered attempt");
    }

    method VerifyFeedback(scenarios: Json, interrupted: map<Json, map<string, Json>>)
      modifies this
      ensures old(problems) <= problems && (problems == old(problems) <==> FeedbackOk(scenarios, interrupted))
    {
      if !scenarios.Object? {
        Report(ThePacket, "scenarios are missing");
        return;
      }
      var shown := ["W1", "W3", "W4"];
      for i := 0 to 3
        invariant old(problems) <= problems
        invariant problems == old(problems)
          <==> forall s <- shown[..i] :: FeedbackShows(Get(scenarios.fields, s), Lookup(interrupted, s))
      {
        VerifyShown(shown[i], Get(scenarios.fields, shown[i]), Lookup(interrupted, shown[i]));
      }
    }

    method VerifyItems(items: seq<Item>, restart: Option<int>) returns (interrupted: map<Json, map<string, Json>>)
      modifies this
      ensures interrupted == Interruptions(items)
      ensures old(problems) <= problems && (problems == old(problems) <==> ItemsOk(items, restart))
    {
      VerifyOrder(items, restart);
      VerifyShapes(items);
      VerifySequences(items);
      VerifyKeys(items);
      interrupted := VerifyIdentities(items);
      VerifyRestart(items, restart);
    }

    /** The exchanges that decode, in order. */
    method DecodeAll(exchanges: seq<Json>) returns (decoded: seq<Item>)
      modifies this
      ensures old(problems) <= problems
      ensures problems == old(problems) <==> forall e <- exchanges :: DecodeOk(codec, e)
      ensures |decoded| == |exchanges| ==>
        (forall e <- exchanges :: Decoded(codec, e).Some?) && decoded == Items(codec, exchanges)
      ensures (forall e <- exchanges :: Decoded(codec, e).Some?) ==> |decoded| == |exchanges|
    {
      decoded := [];
      for i := 0 to |exchanges|
        invariant old(problems) <= problems
        invariant problems == old(problems) <==> forall e <- exchanges[..i] :: DecodeOk(codec, e)
        invariant |decoded| <= i
        invariant |decoded| == i <==> forall k | 0 <= k < i :: Decoded(codec, exchanges[k]).Some?
        invariant |decoded| == i ==> forall k | 0 <= k < i :: Decoded(codec, exchanges[k]) == Some(decoded[k])
      {
        var item := Decode(i, exchanges[i]);
        if item.Some? {
          decoded := decoded + [item.value];
        }
      }
      assert exchanges[..|exchanges|] == exchanges;
    }

    /** An empty list of problems is acceptance. */
    method VerifyEvidence(packet: Json)
      requires problems == []
      modifies this
      ensures problems == [] <==> PacketOk(codec, packet)
    {
      if !packet.Object? {
        Report(ThePacket, "packet is not an object");
        return;
      }
      VerifyRun(packet.fields);
      var exchanges, epochs := Get(packet.fields, "exchanges"), Get(packet.fields, "epochs");
      if !exchanges.List? || exchanges.elements == [] {
        Report(ThePacket, "exchanges are missing");
        return;
      }
      var decoded := DecodeAll(exchanges.elements);
      if |decoded| != |exchanges.elements| {
        return;
      }
      var restart := VerifyEpochs(epochs);
      var interrupted := VerifyItems(decoded, restart);
      VerifyFeedback(Get(packet.fields, "scenarios"), interrupted);
    }

    method VerifyKeySets(keys: seq<set<Json>>)
      requires |keys| == 5
      modifies this
      ensures old(problems) <= problems && (problems == old(problems) <==> SingleKeys(keys))
    {
      var seen: set<Json> := {};
      for s := 0 to 5
        invariant old(problems) <= problems
        invariant problems == old(problems) <==> SingleKeys(keys[..s])
        invariant forall key :: key in seen <==> {key} in keys[..s]
      {
        assert keys[..s + 1] == keys[..s] + [keys[s]];
        SingleKeysStep(keys[..s], keys[s]);
        if |keys[s]| != 1 {
          Report(TheScenario(SCENARIOS[s]), "expected one begin request key");
          assert forall key: Json :: |{key}| == 1;
        } else {
          var key :| key in keys[s];
          Singleton(keys[s], key);
          if key in seen {
            Report(TheScenario(SCENARIOS[s]), "reuses another scenario's begin request key");
          }
          seen := seen + {key};
        }
      }
      assert keys[..5] == keys;
    }
  }

  lemma {:induction false} Singleton(keys: set<Json>, key: Json)
    requires |keys| == 1 && key in keys
    ensures keys == {key}
  {
    assert |keys - {key}| == 0;
  }

  lemma {:induction false} SingleKeysStep(keys: seq<set<Json>>, next: set<Json>)
    ensures SingleKeys(keys + [next]) <==> SingleKeys(keys) && |next| == 1 && next !in keys
  {
    var all := keys + [next];
    if SingleKeys(all) {
      assert all[|keys|] == next;
      assert forall s | 0 <= s < |keys| :: all[s] == keys[s];
    }
  }

  /** The dictionary holds every key met so far, with a payload it was met with. */
  ghost predicate FirstPayloads(items: seq<Item>, payloads: map<Json, Json>) {
    && (forall item <- items :: Key(item) in payloads)
    && (forall key <- payloads :: exists item <- items :: Key(item) == key && Payload(item) == payloads[key])
  }

  function Noted(payloads: map<Json, Json>, next: Item): map<Json, Json> {
    if Key(next) in payloads then payloads else payloads[Key(next) := Payload(next)]
  }

  /** The payload each key was first met with. */
  function PayloadsOf(items: seq<Item>): map<Json, Json> {
    if items == [] then map[] else Noted(PayloadsOf(items[..|items| - 1]), items[|items| - 1])
  }

  ghost predicate AllBound(items: seq<Item>) {
    items != [] ==>
      && AllBound(items[..|items| - 1])
      && var (payloads, last) := (PayloadsOf(items[..|items| - 1]), items[|items| - 1]);
      Key(last) in payloads ==> payloads[Key(last)] == Payload(last)
  }

  lemma {:induction false} AllBoundStep(items: seq<Item>, next: Item)
    ensures PayloadsOf(items + [next]) == Noted(PayloadsOf(items), next)
    ensures AllBound(items + [next])
      <==> AllBound(items) && (Key(next) in PayloadsOf(items) ==> PayloadsOf(items)[Key(next)] == Payload(next))
  {
    assert (items + [next])[..|items|] == items;
  }

  ghost predicate BoundSoFar(items: seq<Item>) {
    (AllBound(items) <==> PayloadsBound(items)) && FirstPayloads(items, PayloadsOf(items))
  }

  lemma {:induction false} BoundSoFarStep(items: seq<Item>)
    requires items != [] && BoundSoFar(items[..|items| - 1])
    ensures BoundSoFar(items)
  {
    var earlier, next := items[..|items| - 1], items[|items| - 1];
    assert items == earlier + [next];
    AllBoundStep(earlier, next);
    PayloadStep(earlier, next, PayloadsOf(earlier));
  }

  /** Comparing each payload with its key's first binds every key. */
  lemma {:induction false} FirstPayloadsBind(items: seq<Item>)
    ensures BoundSoFar(items)
    decreases |items|
  {
    if items != [] {
      FirstPayloadsBind(items[..|items| - 1]);
      BoundSoFarStep(items);
    }
  }

  lemma {:induction false} PayloadStep(items: seq<Item>, next: Item, payloads: map<Json, Json>)
    requires FirstPayloads(items, payloads)
    ensures PayloadsBound(items + [next])
      <==> PayloadsBound(items) && (Key(next) in payloads ==> payloads[Key(next)] == Payload(next))
    ensures FirstPayloads(items + [next], Noted(payloads, next))
  {
    BoundStep(items, next);
    if Key(next) in payloads {
      var item :| item in items && Key(item) == Key(next) && Payload(item) == payloads[Key(next)];
      var i :| 0 <= i < |items| && items[i] == item;
      if PayloadsBound(items) && Payload(next) == Payload(item) {
        forall k | 0 <= k < |items| && Key(items[k]) == Key(next)
          ensures Payload(items[k]) == Payload(next)
        {
          assert k != i ==> Payload(items[k]) == Payload(items[i]);
        }
      }
    }
  }

  lemma {:induction false} BoundStep(items: seq<Item>, next: Item)
    ensures PayloadsBound(items + [next])
      <==> PayloadsBound(items) && forall item <- items | Key(item) == Key(next) :: Payload(item) == Payload(next)
  {
    var all := items + [next];
    assert forall i | 0 <= i < |items| :: all[i] == items[i];
    if PayloadsBound(all) {
      forall item <- items | Key(item) == Key(next)
        ensures Payload(item) == Payload(next)
      {
        var i :| 0 <= i < |items| && items[i] == item;
        assert all[i] == item && all[|items|] == next;
      }
    }
  }

  // ----- Identities -----

  /** The dictionaries of the identity check: each key's first attempt, the attempts' owners, and
      each scenario's first interrupted document. */
  datatype Ledger = Ledger(
    first: map<Json, map<string, Json>>, owners: set<Json>, interrupted: map<Json, map<string, Json>>)

  function IdOf(attempt: map<string, Json>): Json { Get(attempt, "attempt_id") }

  /** Every key's first attempt, which every attempt of the key agrees with. */
  ghost predicate KeepsFirst(items: seq<Item>, first: map<Json, map<string, Json>>) {
    && (forall item <- items | AttemptOf(item).Some? ::
          Key(item) in first && SamePins(AttemptOf(item).value, first[Key(item)]))
    && (forall key <- first :: exists item <- items :: Key(item) == key && AttemptOf(item) == Some(first[key]))
  }

  /** The ids of those attempts. */
  ghost predicate KeepsOwners(first: map<Json, map<string, Json>>, owners: set<Json>) {
    && (forall key <- first :: IdOf(first[key]) in owners)
    && (forall id <- owners :: exists key <- first :: IdOf(first[key]) == id)
  }

  /** Every scenario's interrupted document. */
  ghost predicate KeepsInterrupted(items: seq<Item>, interrupted: map<Json, map<string, Json>>) {
    && (forall item <- items | Interrupted(item) ::
          item.scenario in interrupted && interrupted[item.scenario] == AttemptOf(item).value)
    && (forall scenario <- interrupted :: exists item <- items ::
          item.scenario == scenario && Interrupted(item) && AttemptOf(item).value == interrupted[scenario])
  }

  /** What the dictionaries hold after some exchanges that agree. */
  ghost predicate Keeps(items: seq<Item>, l: Ledger) {
    KeepsFirst(items, l.first) && KeepsOwners(l.first, l.owners) && KeepsInterrupted(items, l.interrupted)
  }

  /** What the code compares a new exchange with. */
  ghost predicate Fits(l: Ledger, next: Item) {
    AttemptOf(next).Some? ==>
      var a := AttemptOf(next).value;
      && (if Key(next) in l.first then SamePins(a, l.first[Key(next)]) else IdOf(a) !in l.owners)
      && (Interrupted(next) && next.scenario in l.interrupted ==> l.interrupted[next.scenario] == a)
  }

  lemma {:induction false} AgreeStep(items: seq<Item>, next: Item)
    ensures IdentitiesOk(items + [next]) <==> IdentitiesOk(items) && forall item <- items :: Agree(item, next)
  {
    var all := items + [next];
    assert forall i | 0 <= i < |items| :: all[i] == items[i];
    if IdentitiesOk(all) {
      forall item <- items
        ensures Agree(item, next)
      {
        var i :| 0 <= i < |items| && items[i] == item;
        assert all[i] == item && all[|items|] == next;
      }
    }
  }

  lemma {:induction false} AgreeBoth(items: seq<Item>, x: Item, y: Item)
    requires IdentitiesOk(items) && x in items && y in items && Key(x) != Key(y)
    requires AttemptOf(x).Some? && AttemptOf(y).Some?
    ensures IdOf(AttemptOf(x).value) != IdOf(AttemptOf(y).value)
  {
    var i :| 0 <= i < |items| && items[i] == x;
    var j :| 0 <= j < |items| && items[j] == y;
    assert if i < j then Agree(x, y) else Agree(y, x);
  }

  lemma {:induction false} PinsGiveId(a: map<string, Json>, b: map<string, Json>)
    requires SamePins(a, b)
    ensures IdOf(a) == IdOf(b)
  {
    assert "attempt_id" == ATTEMPT_PINS[0];
  }

  lemma {:induction false} FittingAgrees(items: seq<Item>, l: Ledger, next: Item, item: Item)
    requires IdentitiesOk(items) && Keeps(items, l) && Fits(l, next) && item in items
    ensures Agree(item, next)
  {
    if AttemptOf(item).Some? && AttemptOf(next).Some? {
      var a, b := AttemptOf(item).value, AttemptOf(next).value;
      PinsGiveId(a, l.first[Key(item)]);
      if Key(item) != Key(next) && Key(next) in l.first {
        var other :| other in items && Key(other) == Key(next) && AttemptOf(other) == Some(l.first[Key(next)]);
        AgreeBoth(items, item, other);
        PinsGiveId(b, l.first[Key(next)]);
      }
    }
  }

  lemma {:induction false} AgreeingFits(items: seq<Item>, l: Ledger, next: Item)
    requires Keeps(items, l) && forall item <- items :: Agree(item, next)
    ensures Fits(l, next)
  {
    if AttemptOf(next).Some? {
      AgreeingFitsFirst(items, l.first, next);
      AgreeingFitsInterrupted(items, l.interrupted, next);
    }
  }

  lemma {:induction false} AgreeingFitsFirst(items: seq<Item>, first: map<Json, map<string, Json>>, next: Item)
    requires KeepsFirst(items, first) && AttemptOf(next).Some? && forall item <- items :: Agree(item, next)
    ensures Key(next) in first ==> SamePins(AttemptOf(next).value, first[Key(next)])
    ensures forall key <- first | key != Key(next) :: IdOf(first[key]) != IdOf(AttemptOf(next).value)
  {
    forall key <- first
      ensures if key == Key(next) then SamePins(AttemptOf(next).value, first[key])
        else IdOf(first[key]) != IdOf(AttemptOf(next).value)
    {
      var item :| item in items && Key(item) == key && AttemptOf(item) == Some(first[key]);
      assert Agree(item, next);
    }
  }

  lemma {:induction false} AgreeingFitsInterrupted(items: seq<Item>, interrupted: map<Json, map<string, Json>>, next: Item)
    requires KeepsInterrupted(items, interrupted) && forall item <- items :: Agree(item, next)
    ensures Interrupted(next) && next.scenario in interrupted ==> interrupted[next.scenario] == AttemptOf(next).value
  {
    if Interrupted(next) && next.scenario in interrupted {
      var item :| item in items && item.scenario == next.scenario && Interrupted(item)
        && AttemptOf(item).value == interrupted[next.scenario];
      assert Agree(item, next);
    }
  }

  /** The dictionaries after one more exchange. */
  function Entered(l: Ledger, next: Item): Ledger {
    if AttemptOf(next).None? then l
    else
      var a := AttemptOf(next).value;
      Ledger(
        if Key(next) in l.first then l.first else l.first[Key(next) := a],
        if Key(next) in l.first then l.owners else l.owners + {IdOf(a)},
        if Interrupted(next) && next.scenario !in l.interrupted then l.interrupted[next.scenario := a] else l.interrupted)
  }

  /** The dictionaries after some exchanges. */
  function LedgerOf(items: seq<Item>): Ledger {
    if items == [] then Ledger(map[], {}, map[])
    else Entered(LedgerOf(items[..|items| - 1]), items[|items| - 1])
  }

  ghost predicate AllFit(items: seq<Item>) {
    items != [] ==> AllFit(items[..|items| - 1]) && Fits(LedgerOf(items[..|items| - 1]), items[|items| - 1])
  }

  lemma {:induction false} AllFitStep(items: seq<Item>, next: Item)
    ensures AllFit(items + [next]) <==> AllFit(items) && Fits(LedgerOf(items), next)
    ensures LedgerOf(items + [next]) == Entered(LedgerOf(items), next)
  {
    assert (items + [next])[..|items|] == items;
  }

  lemma {:induction false} LedgerInterruptions(items: seq<Item>)
    ensures LedgerOf(items).interrupted == Interruptions(items)
    decreases |items|
  {
    if items != [] {
      LedgerInterruptions(items[..|items| - 1]);
    }
  }

  /** What the dictionaries are compared for, and what they then hold. */
  ghost predicate Recorded(items: seq<Item>) {
    (AllFit(items) <==> IdentitiesOk(items)) && (IdentitiesOk(items) ==> Keeps(items, LedgerOf(items)))
  }

  lemma {:induction false} RecordedStep(items: seq<Item>)
    requires items != [] && Recorded(items[..|items| - 1])
    ensures Recorded(items)
  {
    var earlier, next := items[..|items| - 1], items[|items| - 1];
    assert items == earlier + [next];
    AllFitStep(earlier, next);
    FitsExactly(earlier, LedgerOf(earlier), next);
  }

  /** Comparing each exchange with the dictionaries compares it with every earlier one. */
  lemma {:induction false} FittingIsIdentity(items: seq<Item>)
    ensures Recorded(items)
    decreases |items|
  {
    if items != [] {
      FittingIsIdentity(items[..|items| - 1]);
      RecordedStep(items);
    }
  }

  lemma {:induction false} FitsExactly(items: seq<Item>, l: Ledger, next: Item)
    requires IdentitiesOk(items) ==> Keeps(items, l)
    ensures IdentitiesOk(items + [next]) <==> IdentitiesOk(items) && Fits(l, next)
    ensures IdentitiesOk(items + [next]) ==> Keeps(items + [next], Entered(l, next))
  {
    AgreeStep(items, next);
    if IdentitiesOk(items) {
      if Fits(l, next) {
        forall item <- items
          ensures Agree(item, next)
        {
          FittingAgrees(items, l, next, item);
        }
        EnteredFirst(items, l, next);
        EnteredOwners(l, next);
        EnteredInterrupted(items, l, next);
      } else if forall item <- items :: Agree(item, next) {
        AgreeingFits(items, l, next);
      }
    }
  }

  lemma {:induction false} EnteredOwners(l: Ledger, next: Item)
    requires KeepsOwners(l.first, l.owners)
    ensures KeepsOwners(Entered(l, next).first, Entered(l, next).owners)
  {
    var m := Entered(l, next);
    if AttemptOf(next).Some? && Key(next) !in l.first {
      forall id <- m.owners
        ensures exists key <- m.first :: IdOf(m.first[key]) == id
      {
        if id in l.owners {
          var key :| key in l.first && IdOf(l.first[key]) == id;
          assert key in m.first && m.first[key] == l.first[key];
        } else {
          assert Key(next) in m.first;
        }
      }
    }
  }

  lemma {:induction false} EnteredFirst(items: seq<Item>, l: Ledger, next: Item)
    requires KeepsFirst(items, l.first) && Fits(l, next)
    ensures KeepsFirst(items + [next], Entered(l, next).first)
  {
    var all, first := items + [next], Entered(l, next).first;
    assert forall item :: item in all <==> item in items || item == next;
    forall item <- all | AttemptOf(item).Some?
      ensures Key(item) in first && SamePins(AttemptOf(item).value, first[Key(item)])
    {
      assert item in items ==> Key(item) in l.first;
    }
    forall key <- first
      ensures exists item <- all :: Key(item) == key && AttemptOf(item) == Some(first[key])
    {
      FirstFound(items, l, next, key);
    }
  }

  lemma {:induction false} FirstFound(items: seq<Item>, l: Ledger, next: Item, key: Json)
    requires KeepsFirst(items, l.first) && key in Entered(l, next).first
    ensures exists item <- items + [next] :: Key(item) == key && AttemptOf(item) == Some(Entered(l, next).first[key])
  {
    if key in l.first {
      var item :| item in items && Key(item) == key && AttemptOf(item) == Some(l.first[key]);
      assert item in items + [next];
    } else {
      assert next in items + [next];
    }
  }

  lemma {:induction false} EnteredInterrupted(items: seq<Item>, l: Ledger, next: Item)
    requires KeepsInterrupted(items, l.interrupted) && Fits(l, next)
    ensures KeepsInterrupted(items + [next], Entered(l, next).interrupted)
  {
    var all, interrupted := items + [next], Entered(l, next).interrupted;
    assert forall item :: item in all <==> item in items || item == next;
    forall scenario <- interrupted
      ensures exists item <- all ::
        item.scenario == scenario && Interrupted(item) && AttemptOf(item).value == interrupted[scenario]
    {
      if scenario in l.interrupted {
        var item :| item in items && item.scenario == scenario && Interrupted(item)
          && AttemptOf(item).value == l.interrupted[scenario];
        assert item in all;
      } else {
        assert next in all;
      }
    }
  }
}
