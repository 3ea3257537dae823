/** One packet the checks accept: what they ask for can be recorded. */
module BeginEvidenceSample {
  import opened Prelude
  import opened Text
  import opened BeginEvidence
  import opened BeginEvidenceLaws

  // ----- Thirteen exchanges -----

  function DigitChar(s: nat): char
    requires s < 5
  {
    ['1', '2', '3', '4', '5'][s]
  }

  /** A request id for each scenario, told apart by its last digit. */
  function KeyText(s: nat): string
    requires s < 5
  {
    seq(36, i requires 0 <= i < 36 =>
      if i == 8 || i == 13 || i == 18 || i == 23 then '-'
      else if i == 14 then '4' else if i == 19 then '8' else if i == 35 then DigitChar(s) else '0')
  }

  function AttemptText(s: nat): string
    requires s < 5
  {
    [DigitChar(s)]
  }

  const BEGIN: map<string, Json> := map[
    "delivery_id" := String("d"), "expected_assignment_artifact_digest" := String("x"),
    "expected_assignment_behavior_digest" := String("y"), "device_id" := String("m"), "capture_time_ns" := Whole(1)]

  function Request(s: nat): map<string, Json>
    requires s < 5
  {
    map["begin_request_id" := String(KeyText(s)), "begin" := Object(BEGIN)]
  }

  function Document(s: nat, phase: string): map<string, Json>
    requires s < 5
  {
    map["attempt_status" := String(phase), "observed_events" := List([]),
        "raw_capture" := Object(map["events" := List([])]),
        "delivery_id" := String("d"), "assignment_artifact_digest" := String("x"),
        "assignment_behavior_digest" := String("y"), "attempt_id" := String(AttemptText(s)),
        "capture_id" := String(AttemptText(s)), "performance_session_id" := String(AttemptText(s))]
  }

  /** What an answer carries as its attempt. */
  function Carried(s: nat, status: string): Json
    requires s < 5
  {
    if status == "STARTED" then Object(Document(s, "CAPTURING"))
    else if status == "INTERRUPTED" then Object(Document(s, "INTERRUPTED"))
    else Null
  }

  function Answer(s: nat, outcome: string): map<string, Json>
    requires s < 5
  {
    if outcome == "begin_request_closed" then map["error" := String(outcome)]
    else
      map["schema_id" := String("master_all_strings.received_lesson_begin_request"), "schema_version" := String("1.0.0"),
          "begin_request_id" := String(KeyText(s)), "status" := String(outcome), "attempt" := Carried(s, outcome)]
  }

  /** The exchange a witness saw. */
  function Exchange(number: int, s: nat, w: Witness): Item
    requires s < 5
  {
    Item(number, String(SCENARIOS[s]), w.source, w.route, w.sender, w.pageOutcome, w.epoch, w.status, [s],
         Request(s), if w.outcome.None? then None else Some(Answer(s, w.outcome.value)))
  }

  function NumberAt(i: nat): int { if i < 11 then i + 1 else i + 2 }

  function Sample(): (items: seq<Item>)
    ensures |items| == 13
  {
    seq(13, i requires 0 <= i < 13 => Exchange(NumberAt(i), ScenarioAt(i), WitnessAt(i)))
  }

  // ----- Its parts -----

  /** The outcomes a witness can have seen, with the HTTP statuses they came with. */
  predicate Plausible(w: Witness) {
    match w.outcome
    case None => true
    case Some(outcome) =>
      && w.status.Whole?
      && (if outcome == "begin_request_closed" then w.status.number == 409
          else
            && outcome in ["STARTED", "PENDING", "NO_ATTEMPT", "INTERRUPTED"]
            && w.status.number in WrapperHttp(String(outcome)))
  }

  lemma {:induction false} WitnessesPlausible(i: nat)
    requires i < 13
    ensures Plausible(WitnessAt(i))
  {
  }

  lemma {:induction false} RequestIsOk(s: nat)
    requires s < 5
    ensures RequestOk(Request(s))
  {
    var request := Request(s);
    assert request.Keys == REQUEST_FIELDS;
    assert request["begin"].fields.Keys == BEGIN_FIELDS;
    var key := KeyText(s);
    assert key[19] == '8' && key[19] in "89ab";
  }

  lemma {:induction false} DocumentPins(s: nat, phase: string)
    requires s < 5
    ensures forall pin <- PINS :: Get(Document(s, phase), pin.0) == Get(BEGIN, pin.1)
  {
  }

  lemma {:induction false} DocumentIds(s: nat, phase: string)
    requires s < 5
    ensures forall field <- ATTEMPT_PINS :: Get(Document(s, phase), field) == String(AttemptText(s))
    ensures Spoken(AttemptText(s))
  {
    assert AttemptText(s)[0] in AttemptText(s) && !Blank(AttemptText(s)[0]);
  }

  lemma {:induction false} DocumentPhase(s: nat, phase: string)
    requires s < 5
    ensures Get(Document(s, phase), "attempt_status") == String(phase) && Silent(Document(s, phase))
  {
  }

  function PhaseOf(status: string): string { if status == "STARTED" then "CAPTURING" else "INTERRUPTED" }

  lemma {:induction false} DocumentIsOk(s: nat, status: string)
    requires s < 5 && (status == "STARTED" || status == "INTERRUPTED")
    ensures Carried(s, status) == Object(Document(s, PhaseOf(status)))
    ensures AttemptOk(Document(s, PhaseOf(status)), String(status), BEGIN)
  {
    var document := Document(s, PhaseOf(status));
    DocumentPins(s, PhaseOf(status));
    DocumentIds(s, PhaseOf(status));
    DocumentPhase(s, PhaseOf(status));
    AttemptIsOk(document, s, status);
  }

  lemma {:induction false} AttemptIsOk(document: map<string, Json>, s: nat, status: string)
    requires s < 5 && (status == "STARTED" || status == "INTERRUPTED")
    requires Get(document, "attempt_status") == String(PhaseOf(status)) && Silent(document)
    requires forall pin <- PINS :: Get(document, pin.0) == Get(BEGIN, pin.1)
    requires (forall field <- ATTEMPT_PINS :: Get(document, field) == String(AttemptText(s))) && Spoken(AttemptText(s))
    ensures AttemptOk(document, String(status), BEGIN)
  {
  }

  lemma {:induction false} AnswerIsOk(s: nat, outcome: string, http: Json)
    requires s < 5 && http.Whole?
    requires outcome in ["STARTED", "PENDING", "NO_ATTEMPT", "INTERRUPTED"] && http.number in WrapperHttp(String(outcome))
    ensures WrapperOk(Answer(s, outcome), http, Request(s))
  {
    assert Answer(s, outcome).Keys == WRAPPER_FIELDS;
    if outcome == "STARTED" || outcome == "INTERRUPTED" {
      DocumentIsOk(s, outcome);
    }
  }

  /** What the shape check asks of an answer. */
  predicate AnswerOk(response: map<string, Json>, http: Json, request: map<string, Json>) {
    if "error" in response then ErrorOk(response, http) else WrapperOk(response, http, request)
  }

  lemma {:induction false} ClosedIsOk(s: nat, http: Json)
    requires s < 5 && http == Whole(409)
    ensures AnswerOk(Answer(s, "begin_request_closed"), http, Request(s))
  {
    assert Answer(s, "begin_request_closed").Keys == {"error"};
  }

  lemma {:induction false} OpenIsOk(s: nat, outcome: string, http: Json)
    requires s < 5 && http.Whole?
    requires outcome in ["STARTED", "PENDING", "NO_ATTEMPT", "INTERRUPTED"] && http.number in WrapperHttp(String(outcome))
    ensures AnswerOk(Answer(s, outcome), http, Request(s))
  {
    AnswerIsOk(s, outcome, http);
    AnswerIsNoError(s, outcome);
  }

  lemma {:induction false} AnswerIsNoError(s: nat, outcome: string)
    requires s < 5 && outcome != "begin_request_closed"
    ensures "error" !in Answer(s, outcome)
  {
    assert "error" !in Answer(s, outcome).Keys;
  }

  lemma {:induction false} AnswersAreOk(s: nat, w: Witness)
    requires s < 5 && Plausible(w) && w.outcome.Some?
    ensures AnswerOk(Answer(s, w.outcome.value), w.status, Request(s))
  {
    if w.outcome.value == "begin_request_closed" {
      ClosedIsOk(s, w.status);
    } else {
      OpenIsOk(s, w.outcome.value, w.status);
    }
  }

  lemma {:induction false} ExchangeIsOk(number: int, s: nat, w: Witness)
    requires s < 5 && Plausible(w)
    ensures ShapeOk(Exchange(number, s, w))
  {
    RequestIsOk(s);
    if w.outcome.Some? {
      AnswersAreOk(s, w);
    }
  }

  lemma {:induction false} ExchangeSays(number: int, s: nat, w: Witness)
    requires s < 5
    ensures WitnessOf(Exchange(number, s, w)) == w && In(Exchange(number, s, w), s)
  {
    if w.outcome.Some? {
      AnswerSays(s, w.outcome.value);
    }
    PlaceOf(s);
  }

  lemma {:induction false} AnswerSays(s: nat, outcome: string)
    requires s < 5
    ensures var response := Answer(s, outcome);
      if "error" in response then response["error"] == String(outcome) else Get(response, "status") == String(outcome)
  {
  }

  lemma {:induction false} PlaceOf(s: nat)
    requires s < 5
    ensures Position(String(SCENARIOS[s])) == Some(s)
  {
  }

  lemma {:induction false} ExchangeAsks(number: int, s: nat, w: Witness)
    requires s < 5
    ensures Key(Exchange(number, s, w)) == String(KeyText(s)) && Payload(Exchange(number, s, w)) == Object(BEGIN)
  {
  }

  /** What is known of each exchange. */
  ghost predicate Told(item: Item, i: nat) {
    && i < 13 && item == Exchange(NumberAt(i), ScenarioAt(i), WitnessAt(i))
    && ShapeOk(item) && WitnessOf(item) == WitnessAt(i) && In(item, ScenarioAt(i))
    && Key(item) == String(KeyText(ScenarioAt(i))) && Payload(item) == Object(BEGIN)
  }

  lemma {:induction false} SampleTold(i: nat)
    requires i < 13
    ensures Told(Sample()[i], i)
  {
    WitnessesPlausible(i);
    ExchangeIsOk(NumberAt(i), ScenarioAt(i), WitnessAt(i));
    ExchangeAsks(NumberAt(i), ScenarioAt(i), WitnessAt(i));
    ExchangeSays(NumberAt(i), ScenarioAt(i), WitnessAt(i));
  }

  // ----- Keys and attempts -----

  lemma {:induction false} KeysDiffer(s: nat, t: nat)
    requires s < 5 && t < 5
    ensures KeyText(s) == KeyText(t) <==> s == t
    ensures AttemptText(s) == AttemptText(t) <==> s == t
  {
    assert KeyText(s)[35] == DigitChar(s) && KeyText(t)[35] == DigitChar(t);
    assert AttemptText(s)[0] == DigitChar(s) && AttemptText(t)[0] == DigitChar(t);
  }

  lemma {:induction false} ExchangeAttempt(number: int, s: nat, w: Witness)
    requires s < 5
    ensures var item := Exchange(number, s, w);
      && (AttemptOf(item).Some? ==>
            && (w.outcome == Some("STARTED") || w.outcome == Some("INTERRUPTED"))
            && AttemptOf(item).value == Document(s, if w.outcome == Some("STARTED") then "CAPTURING" else "INTERRUPTED"))
      && (Interrupted(item) ==> AttemptOf(item) == Some(Document(s, "INTERRUPTED")))
  {
  }

  lemma {:induction false} ExchangesAgree(m: int, s: nat, v: Witness, n: int, t: nat, w: Witness)
    requires s < 5 && t < 5
    ensures Agree(Exchange(m, s, v), Exchange(n, t, w))
  {
    var x, y := Exchange(m, s, v), Exchange(n, t, w);
    ExchangeAttempt(m, s, v);
    ExchangeAttempt(n, t, w);
    ExchangeAsks(m, s, v);
    ExchangeAsks(n, t, w);
    KeysDiffer(s, t);
    if AttemptOf(x).Some? && AttemptOf(y).Some? {
      DocumentIds(s, if v.outcome == Some("STARTED") then "CAPTURING" else "INTERRUPTED");
      DocumentIds(t, if w.outcome == Some("STARTED") then "CAPTURING" else "INTERRUPTED");
      assert "attempt_id" == ATTEMPT_PINS[0];
    }
    PlaceOf(s);
    PlaceOf(t);
  }

  lemma {:induction false} SampleIdentities()
    ensures IdentitiesOk(Sample())
  {
    forall i, j | 0 <= i < j < 13
      ensures Agree(Sample()[i], Sample()[j])
    {
      ExchangesAgree(NumberAt(i), ScenarioAt(i), WitnessAt(i), NumberAt(j), ScenarioAt(j), WitnessAt(j));
    }
  }

  lemma {:induction false} SampleShapes()
    ensures forall item <- Sample() :: ShapeOk(item)
  {
    forall item <- Sample()
      ensures ShapeOk(item)
    {
      var i :| 0 <= i < 13 && Sample()[i] == item;
      SampleTold(i);
    }
  }

  lemma {:induction false} SampleWitnessed()
    ensures WitnessedRun(Sample(), Some(12))
  {
    forall i | 0 <= i < 13
      ensures Told(Sample()[i], i) && Sample()[i].number == NumberAt(i)
      ensures Sample()[i].epoch == String(if i < 11 then "A" else "B") && Sample()[i].raw == [ScenarioAt(i)]
    {
      SampleTold(i);
      EpochAt(Sample(), i);
    }
    forall s, t | 0 <= s < 5 && 0 <= t < 5
      ensures KeyText(s) == KeyText(t) <==> s == t
    {
      KeysDiffer(s, t);
    }
  }

  /** The thirteen exchanges are accepted, with the restart at 12. */
  lemma {:induction false} SampleAccepted()
    ensures ItemsOk(Sample(), Some(12))
  {
    SampleWitnessed();
    SampleShapes();
    SampleIdentities();
    AcceptedExactly(Sample(), Some(12));
  }

  // ----- A packet around them -----

  /** One character for one byte, a constant hash, and the two kinds of object the bytes stand for. */
  function SampleBase64(text: string): Option<seq<Byte>> {
    if |text| == 1 && text[0] as int < 256 then Some([text[0] as int]) else None
  }

  function SampleParse(raw: seq<Byte>): Option<map<string, Json>> {
    if |raw| != 1 then None
    else if raw[0] < 5 then Some(Request(raw[0]))
    else if 100 <= raw[0] < 113 && WitnessAt(raw[0] - 100).outcome.Some? then
      Some(Answer(ScenarioAt(raw[0] - 100), WitnessAt(raw[0] - 100).outcome.value))
    else None
  }

  function SampleHash(raw: seq<Byte>): string { "h" }

  function SampleCodec(): Codec { Codec(SampleBase64, SampleHash, SampleParse) }

  function Encoded(b: nat): Json
    requires b < 256
  {
    String([b as char])
  }

  /** How an exchange is recorded; its answer's bytes are the byte `b`. */
  function RecordedAs(number: int, s: nat, w: Witness, b: nat): map<string, Json>
    requires s < 5 && b < 256
  {
    map["seq" := Whole(number), "scenario" := String(SCENARIOS[s]), "source" := w.source, "route" := w.route,
        "sender" := w.sender, "page_outcome" := w.pageOutcome, "epoch" := w.epoch, "status" := w.status,
        "request" := Object(Request(s)), "request_base64" := Encoded(s), "request_sha256" := String("h"),
        "response" := if w.outcome.Some? then Object(Answer(s, w.outcome.value)) else Null,
        "response_base64" := if w.outcome.Some? then Encoded(b) else Null,
        "response_sha256" := if w.outcome.Some? then String("h") else Null]
  }

  function Recorded(i: nat): map<string, Json>
    requires i < 13
  {
    RecordedAs(NumberAt(i), ScenarioAt(i), WitnessAt(i), 100 + i)
  }

  lemma {:induction false} EncodedReads(b: nat)
    requires b < 256
    ensures Bytes(SampleCodec(), Encoded(b), String("h")) == Some([b])
    ensures Parsed(SampleCodec(), Encoded(b), String("h")) == SampleParse([b])
  {
    assert SampleCodec().base64([b as char]) == SampleBase64([b as char]);
    assert SampleCodec().sha256([b]) == "h";
    assert SampleCodec().parse([b]) == SampleParse([b]);
  }

  /** What an exchange records around its bytes. */
  ghost predicate Surrounds(o: map<string, Json>, number: int, s: nat, w: Witness)
    requires s < 5
  {
    && Get(o, "seq") == Whole(number) && Get(o, "scenario") == String(SCENARIOS[s])
    && Get(o, "source") == w.source && Get(o, "route") == w.route && Get(o, "sender") == w.sender
    && Get(o, "page_outcome") == w.pageOutcome && Get(o, "epoch") == w.epoch && Get(o, "status") == w.status
  }

  /** Its bytes, and the copies beside them. */
  ghost predicate Stores(o: map<string, Json>, s: nat, w: Witness, b: nat)
    requires s < 5 && b < 256
  {
    && Get(o, "request") == Object(Request(s))
    && Get(o, "request_base64") == Encoded(s) && Get(o, "request_sha256") == String("h")
    && (if w.outcome.Some? then
          && Get(o, "response") == Object(Answer(s, w.outcome.value))
          && Get(o, "response_base64") == Encoded(b) && Get(o, "response_sha256") == String("h")
        else Get(o, "response").Null? && Get(o, "response_base64").Null? && Get(o, "response_sha256").Null?)
  }

  lemma {:induction false} RecordedSurrounds(number: int, s: nat, w: Witness, b: nat)
    requires s < 5 && b < 256
    ensures Surrounds(RecordedAs(number, s, w, b), number, s, w)
  {
  }

  lemma {:induction false} RecordedStores(number: int, s: nat, w: Witness, b: nat)
    requires s < 5 && b < 256
    ensures Stores(RecordedAs(number, s, w, b), s, w, b)
  {
  }

  /** What the bytes give. */
  ghost predicate Reads(o: map<string, Json>, s: nat, w: Witness)
    requires s < 5
  {
    && Sent(SampleCodec(), o) == Some(Request(s))
    && Bytes(SampleCodec(), Get(o, "request_base64"), Get(o, "request_sha256")) == Some([s])
    && if w.outcome.None? then Unanswered(o)
       else !Unanswered(o) && Answered(SampleCodec(), o) == Some(Answer(s, w.outcome.value))
  }

  lemma {:induction false} StoredReads(o: map<string, Json>, s: nat, w: Witness, b: nat)
    requires s < 5 && b < 256 && Stores(o, s, w, b)
    requires w.outcome.Some? ==> SampleParse([b]) == Some(Answer(s, w.outcome.value))
    ensures Reads(o, s, w)
  {
    EncodedReads(s);
    EncodedReads(b);
  }

  lemma {:induction false} ReadDecodes(o: map<string, Json>, number: int, s: nat, w: Witness)
    requires s < 5 && Reads(o, s, w) && Surrounds(o, number, s, w)
    ensures Decoded(SampleCodec(), Object(o)) == Some(Exchange(number, s, w))
  {
  }

  lemma {:induction false} ReadCopies(o: map<string, Json>, number: int, s: nat, w: Witness, b: nat)
    requires s < 5 && b < 256 && Reads(o, s, w) && Surrounds(o, number, s, w) && Stores(o, s, w, b)
    requires w.outcome.None? ==> w.status.Null?
    ensures CopiesOk(SampleCodec(), o)
  {
  }

  lemma {:induction false} RecordedReads(number: int, s: nat, w: Witness, b: nat)
    requires s < 5 && b < 256 && (w.outcome.None? ==> w.status.Null?)
    requires w.outcome.Some? ==> SampleParse([b]) == Some(Answer(s, w.outcome.value))
    ensures DecodeOk(SampleCodec(), Object(RecordedAs(number, s, w, b)))
    ensures Decoded(SampleCodec(), Object(RecordedAs(number, s, w, b))) == Some(Exchange(number, s, w))
  {
    var o := RecordedAs(number, s, w, b);
    RecordedSurrounds(number, s, w, b);
    RecordedStores(number, s, w, b);
    StoredReads(o, s, w, b);
    ReadDecodes(o, number, s, w);
    ReadCopies(o, number, s, w, b);
  }

  lemma {:induction false} RecordedDecodes(i: nat)
    requires i < 13
    ensures DecodeOk(SampleCodec(), Object(Recorded(i))) && Decoded(SampleCodec(), Object(Recorded(i))) == Some(Sample()[i])
  {
    NoOutcomeNoStatus(i);
    RecordedReads(NumberAt(i), ScenarioAt(i), WitnessAt(i), 100 + i);
  }

  lemma {:induction false} NoOutcomeNoStatus(i: nat)
    requires i < 13
    ensures WitnessAt(i).outcome.None? ==> WitnessAt(i).status.Null?
  {
  }

  function Exchanges(): (r: seq<Json>)
    ensures |r| == 13
  {
    seq(13, i requires 0 <= i < 13 => Object(Recorded(i)))
  }

  const EPOCHS: Json := List([
    Object(map["name" := String("A"), "pid" := Whole(1)]),
    Object(map["name" := String("B"), "pid" := Whole(2), "previous_pid" := Whole(1), "restart_seq" := Whole(12)])])

  function Sha(): string { seq(40, i => 'a') }

  /** What the page showed for a scenario. */
  function Feedback(s: nat): Json
    requires s < 5
  {
    Object(map["feedback_visible" := Flag(true),
               "feedback_text" := String("No evaluation was produced." + AttemptText(s))])
  }

  /** The header of a clean run, around some exchanges, epochs and scenarios. */
  function PacketOf(exchanges: Json, epochs: Json, scenarios: Json): map<string, Json> {
    map["schema" := String("master_all_strings.do016_begin_recovery_evidence"), "schema_version" := String("2"),
        "complete" := Flag(true), "failures" := Whole(0), "tested_sha" := String(Sha()), "tested_tree" := String(Sha()),
        "dirty" := String(""), "python" := String("p"), "node" := String("p"), "chrome" := String("p"), "os" := String("p"),
        "transport" := Object(map["server_responses" := String("live")]),
        "exchanges" := exchanges, "epochs" := epochs, "scenarios" := scenarios]
  }

  lemma {:induction false} ShaIsOk()
    ensures GitSha(Sha()) && Spoken("p")
  {
    assert forall c <- Sha() :: HexDigit(c);
    assert "p"[0] in "p" && !Blank("p"[0]);
  }

  lemma {:induction false} PacketRun(exchanges: Json, epochs: Json, scenarios: Json)
    ensures RunOk(PacketOf(exchanges, epochs, scenarios))
  {
    ShaIsOk();
    PacketSchema(exchanges, epochs, scenarios);
    PacketHost(exchanges, epochs, scenarios);
    HeaderRun(PacketOf(exchanges, epochs, scenarios));
  }

  lemma {:induction false} PacketSchema(exchanges: Json, epochs: Json, scenarios: Json)
    ensures var packet := PacketOf(exchanges, epochs, scenarios);
      && Get(packet, "schema") == String("master_all_strings.do016_begin_recovery_evidence")
      && Get(packet, "schema_version") == String("2") && Get(packet, "dirty") == String("")
      && Get(packet, "complete") == Flag(true) && Get(packet, "failures") == Whole(0)
  {
  }

  lemma {:induction false} PacketHost(exchanges: Json, epochs: Json, scenarios: Json)
    ensures var packet := PacketOf(exchanges, epochs, scenarios);
      && Get(packet, "tested_sha") == String(Sha()) && Get(packet, "tested_tree") == String(Sha())
      && Get(packet, "python") == String("p") && Get(packet, "node") == String("p")
      && Get(packet, "chrome") == String("p") && Get(packet, "os") == String("p")
      && Get(packet, "transport") == Object(map["server_responses" := String("live")])
  {
  }

  lemma {:induction false} PacketParts(exchanges: Json, epochs: Json, scenarios: Json)
    ensures var packet := PacketOf(exchanges, epochs, scenarios);
      Get(packet, "exchanges") == exchanges && Get(packet, "epochs") == epochs && Get(packet, "scenarios") == scenarios
  {
  }

  lemma {:induction false} HeaderRun(packet: map<string, Json>)
    requires Get(packet, "schema") == String("master_all_strings.do016_begin_recovery_evidence")
    requires Get(packet, "schema_version") == String("2") && Get(packet, "dirty") == String("")
    requires Get(packet, "complete") == Flag(true) && Get(packet, "failures") == Whole(0)
    requires Get(packet, "tested_sha") == String(Sha()) && Get(packet, "tested_tree") == String(Sha()) && GitSha(Sha())
    requires Get(packet, "python") == String("p") && Get(packet, "node") == String("p")
    requires Get(packet, "chrome") == String("p") && Get(packet, "os") == String("p") && Spoken("p")
    requires Get(packet, "transport") == Object(map["server_responses" := String("live")])
    ensures RunOk(packet)
  {
  }

  lemma {:induction false} PacketEpochs()
    ensures EpochsOk(EPOCHS) && RestartSeq(EPOCHS) == Some(12)
  {
  }

  /** Exchange by exchange: what decoding gives is the list of items. */
  lemma {:induction false} DecodedItems(c: Codec, exchanges: seq<Json>, items: seq<Item>)
    requires |exchanges| == |items|
    requires forall i | 0 <= i < |items| :: DecodeOk(c, exchanges[i]) && Decoded(c, exchanges[i]) == Some(items[i])
    ensures (forall e <- exchanges :: DecodeOk(c, e)) && Items(c, exchanges) == items
  {
  }

  lemma {:induction false} PacketItems()
    ensures forall i | 0 <= i < 13 ::
      DecodeOk(SampleCodec(), Exchanges()[i]) && Decoded(SampleCodec(), Exchanges()[i]) == Some(Sample()[i])
  {
    forall i | 0 <= i < 13
      ensures DecodeOk(SampleCodec(), Exchanges()[i]) && Decoded(SampleCodec(), Exchanges()[i]) == Some(Sample()[i])
    {
      RecordedDecodes(i);
    }
  }

  lemma {:induction false} FeedbackText(s: nat)
    requires s < 5
    ensures var text := "No evaluation was produced." + AttemptText(s);
      && Contains(text, "No evaluation was produced.") && Contains(text, AttemptText(s)) && !Contains(text, "Matched:")
  {
    var head := "No evaluation was produced.";
    var text := head + AttemptText(s);
    assert head <= text[0..];
    assert text[|head|..] == AttemptText(s);
    assert forall c <- head :: c != 'M';
    forall i | 0 <= i <= |text|
      ensures !("Matched:" <= text[i..])
    {
      if i < |text| {
        assert text[i..][0] == text[i] != 'M';
      }
    }
  }

  const SHOWN: map<string, Json> := map["W1" := Feedback(0), "W3" := Feedback(2), "W4" := Feedback(3)]

  lemma {:induction false} FeedbackIsOk(s: nat, attempt: map<string, Json>)
    requires s < 5 && Get(attempt, "attempt_id") == String(AttemptText(s))
    ensures FeedbackShows(Feedback(s), Some(attempt))
  {
    FeedbackText(s);
  }

  /** A scenario's interrupted attempt, as the identity check returns it. */
  lemma {:induction false} SampleInterruption(i: nat)
    requires i in INTERRUPTIONS
    ensures var s := ScenarioAt(i);
      && String(SCENARIOS[s]) in Interruptions(Sample())
      && Get(Interruptions(Sample())[String(SCENARIOS[s])], "attempt_id") == String(AttemptText(s))
  {
    var s := ScenarioAt(i);
    InterruptedAt(i);
    CarriedHere(NumberAt(i), s, WitnessAt(i));
    SampleIdentities();
    InterruptionKept(Sample(), i);
    InterruptedId(s);
  }

  lemma {:induction false} InterruptedAt(i: nat)
    requires i in INTERRUPTIONS
    ensures i < 13 && WitnessAt(i).outcome == Some("INTERRUPTED")
  {
  }

  lemma {:induction false} InterruptedId(s: nat)
    requires s < 5
    ensures Get(Document(s, "INTERRUPTED"), "attempt_id") == String(AttemptText(s))
  {
    DocumentIds(s, "INTERRUPTED");
    assert "attempt_id" == ATTEMPT_PINS[0];
  }

  lemma {:induction false} CarriedHere(number: int, s: nat, w: Witness)
    requires s < 5 && w.outcome == Some("INTERRUPTED")
    ensures Interrupted(Exchange(number, s, w)) && AttemptOf(Exchange(number, s, w)) == Some(Document(s, "INTERRUPTED"))
  {
  }

  lemma {:induction false} SampleFeedback()
    ensures FeedbackOk(Object(SHOWN), Interruptions(Sample()))
  {
    SampleInterruption(1);
    SampleInterruption(6);
    SampleInterruption(8);
    var m := Interruptions(Sample());
    FeedbackIsOk(0, m[String("W1")]);
    FeedbackIsOk(2, m[String("W3")]);
    FeedbackIsOk(3, m[String("W4")]);
  }

  /** The packet. */
  function Packet(): Json { Object(PacketOf(List(Exchanges()), EPOCHS, Object(SHOWN))) }

  /** It has no problems. */
  lemma {:induction false} PacketAccepted()
    ensures PacketOk(SampleCodec(), Packet())
  {
    PacketRun(List(Exchanges()), EPOCHS, Object(SHOWN));
    PacketParts(List(Exchanges()), EPOCHS, Object(SHOWN));
    PacketEpochs();
    PacketItems();
    DecodedItems(SampleCodec(), Exchanges(), Sample());
    SampleAccepted();
    SampleFeedback();
  }
}
