/** What the checks of the begin-recovery evidence accept, told field by field. */
module BeginEvidenceMeaning {
  import opened Prelude
  import opened Text
  import opened BeginEvidence
  import opened BeginEvidenceLaws

  /** The field is there and holds this value. */
  predicate Holds(o: map<string, Json>, field: string, value: Json) { field in o && o[field] == value }

  predicate HoldsText(o: map<string, Json>, field: string, text: string) { Holds(o, field, String(text)) }

  /** The field is there and holds text that is not blank. */
  predicate HoldsWords(o: map<string, Json>, field: string) {
    field in o && o[field].String? && exists i | 0 <= i < |o[field].text| :: !Blank(o[field].text[i])
  }

  // ----- Requests -----

  /** Letter by letter: `x` stands for a lowercase hexadecimal digit, `y` for one of 8, 9, a and b. */
  predicate Fits(text: string, pattern: string) {
    |text| == |pattern| && forall i | 0 <= i < |text| ::
      if pattern[i] == 'x' then text[i] in "0123456789abcdef"
      else if pattern[i] == 'y' then text[i] in "89ab"
      else text[i] == pattern[i]
  }

  lemma {:induction false} HexIs(c: char)
    ensures HexDigit(c) <==> c in "0123456789abcdef"
  {
    var hex := "0123456789abcdef";
    if '0' <= c <= '9' {
      assert hex[c as int - '0' as int] == c;
    } else if 'a' <= c <= 'f' {
      assert hex[10 + (c as int - 'a' as int)] == c;
    }
  }

  lemma {:induction false} RequestIdExactly(text: string)
    ensures RequestId(text) <==> Fits(text, "xxxxxxxx-xxxx-4xxx-yxxx-xxxxxxxxxxxx")
  {
    var pattern := "xxxxxxxx-xxxx-4xxx-yxxx-xxxxxxxxxxxx";
    forall i | 0 <= i < |text|
      ensures HexDigit(text[i]) <==> text[i] in "0123456789abcdef"
    {
      HexIs(text[i]);
    }
    assert pattern[8] == '-' && pattern[13] == '-' && pattern[14] == '4' && pattern[18] == '-' && pattern[19] == 'y' && pattern[23] == '-';
    assert forall i | 0 <= i < 36 && i !in {8, 13, 14, 18, 19, 23} :: pattern[i] == 'x';
    if |text| == 36 && RequestId(text) {
      YIsHex(text[19]);
    }
  }

  lemma {:induction false} YIsHex(c: char)
    requires c in "89ab"
    ensures HexDigit(c)
  {
  }

  /** A keyed begin: a request id, and a begin payload with its five fields and a capture time. */
  predicate AsksToBegin(request: map<string, Json>) {
    && request.Keys == {"begin_request_id", "begin"}
    && request["begin_request_id"].String? && Fits(request["begin_request_id"].text, "xxxxxxxx-xxxx-4xxx-yxxx-xxxxxxxxxxxx")
    && request["begin"].Object?
    && var begin := request["begin"].fields;
    && begin.Keys == {"delivery_id", "expected_assignment_artifact_digest", "expected_assignment_behavior_digest",
                      "device_id", "capture_time_ns"}
    && begin["capture_time_ns"].Whole? && begin["capture_time_ns"].number >= 0
  }

  lemma {:induction false} RequestExactly(request: map<string, Json>)
    ensures RequestOk(request) <==> AsksToBegin(request)
  {
    if "begin_request_id" in request && request["begin_request_id"].String? {
      RequestIdExactly(request["begin_request_id"].text);
    }
  }

  // ----- Answers -----

  /** An attempt of the request: it names the delivery and the digests the request asked for, and itself. */
  predicate AttemptOfRequest(attempt: map<string, Json>, begin: map<string, Json>) {
    && Get(attempt, "delivery_id") == Get(begin, "delivery_id")
    && Get(attempt, "assignment_artifact_digest") == Get(begin, "expected_assignment_artifact_digest")
    && Get(attempt, "assignment_behavior_digest") == Get(begin, "expected_assignment_behavior_digest")
    && HoldsWords(attempt, "attempt_id") && HoldsWords(attempt, "capture_id") && HoldsWords(attempt, "performance_session_id")
  }

  /** An attempt in which no note was captured. */
  predicate NoNotes(attempt: map<string, Json>) {
    && Holds(attempt, "observed_events", List([]))
    && "raw_capture" in attempt && attempt["raw_capture"].Object? && Holds(attempt["raw_capture"].fields, "events", List([]))
  }

  /** What comes with a status: no attempt, the started attempt, or the interrupted one with nothing captured. */
  predicate Accompanies(status: Json, attempt: Json, begin: Json) {
    || (status in [String("PENDING"), String("NO_ATTEMPT")] && attempt.Null?)
    || (&& status == String("STARTED") && attempt.Object? && HoldsText(attempt.fields, "attempt_status", "CAPTURING")
        && begin.Object? && AttemptOfRequest(attempt.fields, begin.fields))
    || (&& status == String("INTERRUPTED") && attempt.Object? && HoldsText(attempt.fields, "attempt_status", "INTERRUPTED")
        && NoNotes(attempt.fields) && begin.Object? && AttemptOfRequest(attempt.fields, begin.fields))
  }

  /** An answer echoes the key of its request, and says what became of it with an HTTP status that fits. */
  predicate AnswersRequest(response: map<string, Json>, http: Json, request: map<string, Json>) {
    && response.Keys == {"schema_id", "schema_version", "begin_request_id", "status", "attempt"}
    && HoldsText(response, "schema_id", "master_all_strings.received_lesson_begin_request")
    && HoldsText(response, "schema_version", "1.0.0")
    && response["begin_request_id"] == Get(request, "begin_request_id")
    && Accompanies(response["status"], response["attempt"], Get(request, "begin"))
    && (if response["status"] == String("PENDING") then http == Whole(202)
        else http == Whole(200) || (http == Whole(201) && response["status"] == String("STARTED")))
  }

  lemma {:induction false} WordsExactly(o: map<string, Json>, field: string)
    ensures HoldsWords(o, field) <==> SpokenText(Get(o, field))
  {
  }

  lemma {:induction false} AttemptExactly(attempt: map<string, Json>, status: string, begin: map<string, Json>)
    requires status == "STARTED" || status == "INTERRUPTED"
    ensures AttemptOk(attempt, String(status), begin) <==>
      && HoldsText(attempt, "attempt_status", if status == "STARTED" then "CAPTURING" else "INTERRUPTED")
      && (status == "INTERRUPTED" ==> NoNotes(attempt)) && AttemptOfRequest(attempt, begin)
  {
    WordsExactly(attempt, "attempt_id");
    WordsExactly(attempt, "capture_id");
    WordsExactly(attempt, "performance_session_id");
    PinsExactly(attempt, begin);
    IdsExactly(attempt);
    SilentExactly(attempt);
  }

  lemma {:induction false} PinsExactly(attempt: map<string, Json>, begin: map<string, Json>)
    ensures (forall pin <- PINS :: Get(attempt, pin.0) == Get(begin, pin.1)) <==>
      && Get(attempt, "delivery_id") == Get(begin, "delivery_id")
      && Get(attempt, "assignment_artifact_digest") == Get(begin, "expected_assignment_artifact_digest")
      && Get(attempt, "assignment_behavior_digest") == Get(begin, "expected_assignment_behavior_digest")
  {
    assert PINS[0] in PINS && PINS[1] in PINS && PINS[2] in PINS;
  }

  lemma {:induction false} IdsExactly(attempt: map<string, Json>)
    ensures (forall field <- ATTEMPT_PINS :: SpokenText(Get(attempt, field))) <==>
      SpokenText(Get(attempt, "attempt_id")) && SpokenText(Get(attempt, "capture_id"))
      && SpokenText(Get(attempt, "performance_session_id"))
  {
    assert ATTEMPT_PINS[0] in ATTEMPT_PINS && ATTEMPT_PINS[1] in ATTEMPT_PINS && ATTEMPT_PINS[2] in ATTEMPT_PINS;
  }

  lemma {:induction false} SilentExactly(attempt: map<string, Json>)
    ensures Silent(attempt) <==> NoNotes(attempt)
  {
  }

  lemma {:induction false} WrapperExactly(response: map<string, Json>, http: Json, request: map<string, Json>)
    ensures WrapperOk(response, http, request) <==> AnswersRequest(response, http, request)
  {
    if response.Keys == WRAPPER_FIELDS {
      StatusExactly(response["status"], response["attempt"], http, Get(request, "begin"));
      HttpExactly(response["status"], http);
    }
  }

  /** The part of the wrapper check about the status and the attempt. */
  lemma {:induction false} StatusExactly(status: Json, attempt: Json, http: Json, begin: Json)
    ensures (if status == String("PENDING") || status == String("NO_ATTEMPT") then attempt.Null?
             else attempt.Object? && begin.Object? && AttemptOk(attempt.fields, status, begin.fields))
            && status in [String("STARTED"), String("PENDING"), String("NO_ATTEMPT"), String("INTERRUPTED")]
      <==> Accompanies(status, attempt, begin)
  {
    if attempt.Object? && begin.Object? {
      AttemptExactly(attempt.fields, "STARTED", begin.fields);
      AttemptExactly(attempt.fields, "INTERRUPTED", begin.fields);
    }
  }

  lemma {:induction false} HttpExactly(status: Json, http: Json)
    ensures http.Whole? && http.number in WrapperHttp(status) <==>
      || (status == String("PENDING") && http == Whole(202)) || (status == String("NO_ATTEMPT") && http == Whole(200))
      || (status == String("STARTED") && (http == Whole(200) || http == Whole(201)))
      || (status == String("INTERRUPTED") && http == Whole(200))
  {
  }

  /** An exchange asks to begin, and its answer, if there is one, is an error or answers it. */
  predicate AsksAndAnswers(item: Item) {
    && AsksToBegin(item.request)
    && (item.response.Some? ==>
          var response := item.response.value;
          if "error" in response then
            && response.Keys == {"error"} && response["error"].String?
            && (item.status == Whole(400) || item.status == Whole(404) || item.status == Whole(409)
                || item.status == Whole(422) || item.status == Whole(500))
          else AnswersRequest(response, item.status, item.request))
  }

  lemma {:induction false} ShapeExactly(item: Item)
    ensures ShapeOk(item) <==> AsksAndAnswers(item)
  {
    RequestExactly(item.request);
    if item.response.Some? {
      WrapperExactly(item.response.value, item.status, item.request);
    }
  }

  // ----- Attempts -----

  /** The attempt an answer carries, if it carries one. */
  predicate CarriesAttempt(item: Item, attempt: map<string, Json>) {
    item.response.Some? && Holds(item.response.value, "attempt", Object(attempt))
  }

  /** Both answers report the interruption of one scenario. */
  predicate SameInterruption(x: Item, y: Item) {
    && x.scenario == y.scenario && x.response.Some? && HoldsText(x.response.value, "status", "INTERRUPTED")
    && y.response.Some? && HoldsText(y.response.value, "status", "INTERRUPTED")
  }

  /** Between two exchanges: one attempt for one key, different attempts for different keys, and one
      document for the interruptions of a scenario. */
  ghost predicate AttemptsAgree(x: Item, y: Item) {
    forall a, b | CarriesAttempt(x, a) && CarriesAttempt(y, b) ::
      && (if Get(x.request, "begin_request_id") == Get(y.request, "begin_request_id") then
            && Get(a, "attempt_id") == Get(b, "attempt_id") && Get(a, "capture_id") == Get(b, "capture_id")
            && Get(a, "performance_session_id") == Get(b, "performance_session_id")
          else Get(a, "attempt_id") != Get(b, "attempt_id"))
      && (SameInterruption(x, y) ==> a == b)
  }

  lemma {:induction false} CarriedIs(item: Item, attempt: map<string, Json>)
    ensures CarriesAttempt(item, attempt) <==> AttemptOf(item) == Some(attempt)
  {
  }

  lemma {:induction false} SamePinsExactly(a: map<string, Json>, b: map<string, Json>)
    ensures SamePins(a, b) <==>
      && Get(a, "attempt_id") == Get(b, "attempt_id") && Get(a, "capture_id") == Get(b, "capture_id")
      && Get(a, "performance_session_id") == Get(b, "performance_session_id")
  {
    assert ATTEMPT_PINS[0] in ATTEMPT_PINS && ATTEMPT_PINS[1] in ATTEMPT_PINS && ATTEMPT_PINS[2] in ATTEMPT_PINS;
  }

  lemma {:induction false} AgreeExactly(x: Item, y: Item)
    ensures Agree(x, y) <==> AttemptsAgree(x, y)
  {
    forall a, b
      ensures CarriesAttempt(x, a) && CarriesAttempt(y, b) <==> AttemptOf(x) == Some(a) && AttemptOf(y) == Some(b)
      ensures SamePins(a, b) <==>
        && Get(a, "attempt_id") == Get(b, "attempt_id") && Get(a, "capture_id") == Get(b, "capture_id")
        && Get(a, "performance_session_id") == Get(b, "performance_session_id")
    {
      CarriedIs(x, a);
      CarriedIs(y, b);
      SamePinsExactly(a, b);
    }
    if AttemptOf(x).Some? && AttemptOf(y).Some? {
      var (a, b) := (AttemptOf(x).value, AttemptOf(y).value);
      assert CarriesAttempt(x, a) && CarriesAttempt(y, b);
    }
  }

  // ----- The transcript -----

  /** The thirteen exchanges as they were seen: where they come from, over which route and sender, what
      the page made of them, the process that answered, and the HTTP status and outcome. */
  const TRANSCRIPT: seq<Witness> := [
    Seen("forwarded_server", "begin", "harness", "network_failure", "A", 201, "STARTED"),
    Seen("browser", "recovery", "browser", "response", "A", 200, "INTERRUPTED"),
    Seen("recovery_before_begin", "recovery", "harness", "not_sent_by_page", "A", 200, "NO_ATTEMPT"),
    Seen("browser", "begin", "browser", "response", "A", 409, "begin_request_closed"),
    Seen("browser", "recovery", "browser", "response", "A", 200, "NO_ATTEMPT"),
    Seen("recovery_during_prepare", "recovery", "harness", "not_sent_by_page", "A", 202, "PENDING"),
    Seen("browser", "begin", "browser", "response", "A", 200, "INTERRUPTED"),
    Seen("forwarded_begin", "begin", "harness", "network_failure", "A", 201, "STARTED"),
    Seen("forwarded_recovery", "recovery", "harness", "network_failure", "A", 200, "INTERRUPTED"),
    Seen("browser", "recovery", "browser", "response", "A", 200, "INTERRUPTED"),
    Witness(String("aborted_begin"), String("begin"), String("none"), String("network_failure"), String("A"), Null, None),
    Seen("browser", "recovery", "browser", "response", "B", 200, "NO_ATTEMPT"),
    Seen("replayed_begin", "begin", "harness", "not_sent_by_page", "B", 409, "begin_request_closed")]

  function Seen(source: string, route: string, sender: string, page: string, epoch: string, http: int, outcome: string): Witness {
    Witness(String(source), String(route), String(sender), String(page), String(epoch), Whole(http), Some(outcome))
  }

  /** The item is this line of the transcript. */
  predicate IsLine(item: Item, line: Witness) {
    && item.source == line.source && item.route == line.route && item.sender == line.sender
    && item.pageOutcome == line.pageOutcome && item.epoch == line.epoch && item.status == line.status
    && match line.outcome
       case None => item.response.None? || ("error" !in item.response.value && !Get(item.response.value, "status").String?)
       case Some(outcome) =>
         item.response.Some? && HoldsText(item.response.value, if "error" in item.response.value then "error" else "status", outcome)
  }

  lemma {:induction false} TranscriptIs(i: nat)
    requires i < 13
    ensures WitnessAt(i) == TRANSCRIPT[i]
  {
  }

  lemma {:induction false} LineExactly(item: Item, line: Witness)
    requires line.outcome != Some("")
    ensures WitnessOf(item) == line <==> IsLine(item, line)
  {
  }

  lemma {:induction false} LinesNamed(i: nat)
    requires i < 13
    ensures TRANSCRIPT[i].outcome != Some("")
  {
  }

  // ----- The run and its epochs -----

  predicate Hex40(j: Json) { j.String? && |j.text| == 40 && forall i | 0 <= i < 40 :: j.text[i] in "0123456789abcdef" }

  /** A complete, clean, live run of this schema on a named commit, tree, and set of tools. */
  predicate LiveRun(packet: map<string, Json>) {
    && HoldsText(packet, "schema", "master_all_strings.do016_begin_recovery_evidence") && HoldsText(packet, "schema_version", "2")
    && Holds(packet, "complete", Flag(true)) && Holds(packet, "failures", Whole(0)) && HoldsText(packet, "dirty", "")
    && Hex40(Get(packet, "tested_sha")) && Hex40(Get(packet, "tested_tree"))
    && HoldsWords(packet, "python") && HoldsWords(packet, "node") && HoldsWords(packet, "chrome") && HoldsWords(packet, "os")
    && "transport" in packet && packet["transport"].Object? && HoldsText(packet["transport"].fields, "server_responses", "live")
  }

  lemma {:induction false} ShaExactly(j: Json)
    ensures Hex40(j) <==> j.String? && GitSha(j.text)
  {
    if j.String? {
      forall i | 0 <= i < |j.text|
        ensures HexDigit(j.text[i]) <==> j.text[i] in "0123456789abcdef"
      {
        HexIs(j.text[i]);
      }
      assert (forall c <- j.text :: HexDigit(c)) <==> forall i | 0 <= i < |j.text| :: HexDigit(j.text[i]);
    }
  }

  lemma {:induction false} RunExactly(packet: map<string, Json>)
    ensures RunOk(packet) <==> LiveRun(packet)
  {
    ShaExactly(Get(packet, "tested_sha"));
    ShaExactly(Get(packet, "tested_tree"));
    WordsExactly(packet, "python");
    WordsExactly(packet, "node");
    WordsExactly(packet, "chrome");
    WordsExactly(packet, "os");
    ListedFields(packet);
  }

  lemma {:induction false} ListedFields(packet: map<string, Json>)
    ensures (forall field <- ["tested_sha", "tested_tree"] :: Get(packet, field).String? && GitSha(Get(packet, field).text)) <==>
      && Get(packet, "tested_sha").String? && GitSha(Get(packet, "tested_sha").text)
      && Get(packet, "tested_tree").String? && GitSha(Get(packet, "tested_tree").text)
    ensures (forall field <- ["python", "node", "chrome", "os"] :: SpokenText(Get(packet, field))) <==>
      SpokenText(Get(packet, "python")) && SpokenText(Get(packet, "node")) && SpokenText(Get(packet, "chrome"))
      && SpokenText(Get(packet, "os"))
  {
    assert "tested_sha" in ["tested_sha", "tested_tree"] && "tested_tree" in ["tested_sha", "tested_tree"];
    var tools := ["python", "node", "chrome", "os"];
    assert tools[0] in tools && tools[1] in tools && tools[2] in tools && tools[3] in tools;
  }

  /** Two processes, A and then B, of different ids, B naming the one before and the restart's number. */
  predicate Restarted(epochs: Json, restart: int) {
    && epochs.List? && |epochs.elements| == 2 && epochs.elements[0].Object? && epochs.elements[1].Object?
    && var (a, b) := (epochs.elements[0].fields, epochs.elements[1].fields);
    && HoldsText(a, "name", "A") && HoldsText(b, "name", "B") && Holds(b, "restart_seq", Whole(restart))
    && "pid" in a && a["pid"].Whole? && a["pid"].number > 0 && "pid" in b && b["pid"].Whole? && b["pid"].number > 0
    && a["pid"] != b["pid"] && Holds(b, "previous_pid", a["pid"])
  }

  lemma {:induction false} EpochsExactly(epochs: Json, restart: int)
    ensures EpochsOk(epochs) && RestartSeq(epochs) == Some(restart) <==> Restarted(epochs, restart)
  {
  }

  // ----- What is recorded -----

  /** The bytes recorded under a field are base64, with the recorded hash, and hold this object, which is
      also recorded beside them. */
  predicate Recorded(codec: Codec, o: map<string, Json>, copy: string, encoded: string, hash: string,
                     raw: seq<Byte>, value: map<string, Json>)
  {
    && encoded in o && o[encoded].String? && codec.base64(o[encoded].text) == Some(raw)
    && HoldsText(o, hash, codec.sha256(raw)) && codec.parse(raw) == Some(value) && Holds(o, copy, Object(value))
  }

  /** Nothing is recorded under the field. */
  predicate Missing(o: map<string, Json>, field: string) { field in o ==> o[field].Null? }

  /** The exchange records this item: its request with its bytes, and its answer with its own or none at all. */
  ghost predicate Records(codec: Codec, exchange: Json, item: Item) {
    && exchange.Object?
    && var o := exchange.fields;
    && Holds(o, "seq", Whole(item.number))
    && Get(o, "scenario") == item.scenario && Get(o, "source") == item.source && Get(o, "route") == item.route
    && Get(o, "sender") == item.sender && Get(o, "page_outcome") == item.pageOutcome && Get(o, "epoch") == item.epoch
    && Get(o, "status") == item.status
    && Recorded(codec, o, "request", "request_base64", "request_sha256", item.raw, item.request)
    && if item.response.None? then
         && Missing(o, "response_base64") && Missing(o, "response_sha256") && Missing(o, "response") && item.status.Null?
       else exists raw :: Recorded(codec, o, "response", "response_base64", "response_sha256", raw, item.response.value)
  }

  lemma {:induction false} RecordedExactly(codec: Codec, o: map<string, Json>, copy: string, encoded: string, hash: string,
                                           raw: seq<Byte>, value: map<string, Json>)
    ensures Recorded(codec, o, copy, encoded, hash, raw, value) <==>
      && Bytes(codec, Get(o, encoded), Get(o, hash)) == Some(raw)
      && Parsed(codec, Get(o, encoded), Get(o, hash)) == Some(value) && Get(o, copy) == Object(value)
  {
  }

  lemma {:induction false} RecordsExactly(codec: Codec, exchange: Json, item: Item)
    ensures DecodeOk(codec, exchange) && Decoded(codec, exchange) == Some(item) <==> Records(codec, exchange, item)
  {
    if exchange.Object? {
      var o := exchange.fields;
      RecordedExactly(codec, o, "request", "request_base64", "request_sha256", item.raw, item.request);
      if item.response.Some? {
        AnswerRecorded(codec, o, item.response.value);
      }
    }
  }

  lemma {:induction false} AnswerRecorded(codec: Codec, o: map<string, Json>, value: map<string, Json>)
    ensures (exists raw :: Recorded(codec, o, "response", "response_base64", "response_sha256", raw, value)) <==>
      !Unanswered(o) && Answered(codec, o) == Some(value) && Get(o, "response") == Object(value)
  {
    forall raw
      ensures Recorded(codec, o, "response", "response_base64", "response_sha256", raw, value) <==>
        && Bytes(codec, Get(o, "response_base64"), Get(o, "response_sha256")) == Some(raw)
        && Parsed(codec, Get(o, "response_base64"), Get(o, "response_sha256")) == Some(value) && Get(o, "response") == Object(value)
    {
      RecordedExactly(codec, o, "response", "response_base64", "response_sha256", raw, value);
    }
    if Answered(codec, o) == Some(value) && Get(o, "response") == Object(value) {
      var raw := Bytes(codec, Get(o, "response_base64"), Get(o, "response_sha256")).value;
      assert Recorded(codec, o, "response", "response_base64", "response_sha256", raw, value);
    }
  }

  // ----- All of it -----

  const NAMES: seq<string> := ["W1", "W1", "W2", "W2", "W2", "W3", "W3", "W4", "W4", "W4", "W5", "W5", "W5"]

  /** This exchange at its place: the line of the transcript, numbered around the restart. */
  predicate AtPlace(item: Item, i: nat)
    requires i < 13
  {
    item.scenario == String(NAMES[i]) && IsLine(item, TRANSCRIPT[i]) && item.number == if i < 11 then i + 1 else i + 2
  }

  predicate AllAtPlace(items: seq<Item>) { |items| == 13 && forall i | 0 <= i < 13 :: AtPlace(items[i], i) }

  predicate AllAskAndAnswer(items: seq<Item>) { forall i | 0 <= i < |items| :: AsksAndAnswers(items[i]) }

  /** One key and one payload to a scenario. */
  predicate AllKeyed(items: seq<Item>) {
    forall i, j | 0 <= i < |items| && 0 <= j < |items| :: SameAsked(items[i], items[j]) && SameKeyed(items[i], items[j])
  }

  ghost predicate AllAgree(items: seq<Item>) { forall i, j | 0 <= i < j < |items| :: AttemptsAgree(items[i], items[j]) }

  /** The thirteen exchanges of the transcript, each asking and answering, with one key and one payload to a
      scenario, the replayed bytes, and attempts that agree. */
  ghost predicate WholeRun(items: seq<Item>) {
    && AllAtPlace(items) && AllAskAndAnswer(items) && AllKeyed(items) && AllAgree(items)
    && items[10].raw == items[12].raw
  }

  predicate SameKeyed(x: Item, y: Item) {
    Get(x.request, "begin_request_id") == Get(y.request, "begin_request_id") <==> x.scenario == y.scenario
  }

  predicate SameAsked(x: Item, y: Item) { x.scenario == y.scenario ==> Get(x.request, "begin") == Get(y.request, "begin") }

  lemma {:induction false} NameExactly(scenario: Json, i: nat)
    requires i < 13
    ensures Position(scenario) == Some(ScenarioAt(i)) <==> scenario == String(NAMES[i])
  {
  }

  lemma {:induction false} NamesApart(i: nat, j: nat)
    requires i < 13 && j < 13
    ensures NAMES[i] == NAMES[j] <==> ScenarioAt(i) == ScenarioAt(j)
  {
  }

  /** What the witnessed run and the transcript say of one exchange. */
  lemma {:induction false} PlaceExactly(item: Item, i: nat)
    requires i < 13
    ensures In(item, ScenarioAt(i)) && WitnessOf(item) == WitnessAt(i)
      <==> item.scenario == String(NAMES[i]) && IsLine(item, TRANSCRIPT[i])
    ensures IsLine(item, TRANSCRIPT[i]) ==> item.epoch == String(if i < 11 then "A" else "B")
  {
    TranscriptIs(i);
    LinesNamed(i);
    LineExactly(item, TRANSCRIPT[i]);
    NameExactly(item.scenario, i);
  }

  ghost predicate AllWitnessed(items: seq<Item>) {
    |items| == 13 && forall i | 0 <= i < 13 ::
      && In(items[i], ScenarioAt(i)) && WitnessOf(items[i]) == WitnessAt(i)
      && items[i].number == (if i < 11 then i + 1 else i + 2)
  }

  lemma {:induction false} PlacesExactly(items: seq<Item>)
    ensures AllWitnessed(items) <==> AllAtPlace(items)
    ensures AllAtPlace(items) ==> forall i | 0 <= i < 13 :: items[i].epoch == String(if i < 11 then "A" else "B")
  {
    if |items| == 13 {
      forall i | 0 <= i < 13
        ensures In(items[i], ScenarioAt(i)) && WitnessOf(items[i]) == WitnessAt(i)
            && items[i].number == (if i < 11 then i + 1 else i + 2)
          <==> AtPlace(items[i], i)
        ensures AtPlace(items[i], i) ==> items[i].epoch == String(if i < 11 then "A" else "B")
      {
        PlaceExactly(items[i], i);
      }
    }
  }

  lemma {:induction false} WitnessedParts(items: seq<Item>)
    requires |items| == 13
    requires AllWitnessed(items) ==> forall i | 0 <= i < 13 :: items[i].epoch == String(if i < 11 then "A" else "B")
    ensures WitnessedRun(items, Some(12)) <==> AllWitnessed(items) && KeyedByScenario(items) && items[10].raw == items[12].raw
  {
  }

  lemma {:induction false} ShapesExactly(items: seq<Item>)
    ensures (forall item <- items :: ShapeOk(item)) <==> AllAskAndAnswer(items)
  {
    forall i | 0 <= i < |items|
      ensures ShapeOk(items[i]) <==> AsksAndAnswers(items[i])
    {
      ShapeExactly(items[i]);
    }
  }

  lemma {:induction false} AgreementsExactly(items: seq<Item>)
    ensures IdentitiesOk(items) <==> AllAgree(items)
  {
    forall i, j | 0 <= i < j < |items|
      ensures Agree(items[i], items[j]) <==> AttemptsAgree(items[i], items[j])
    {
      AgreeExactly(items[i], items[j]);
    }
  }

  /** Two exchanges share a scenario exactly when their places do. */
  predicate Apart(items: seq<Item>) {
    |items| == 13 && forall i, j | 0 <= i < 13 && 0 <= j < 13 ::
      items[i].scenario == items[j].scenario <==> ScenarioAt(i) == ScenarioAt(j)
  }

  lemma {:induction false} NamedApart(items: seq<Item>)
    requires |items| == 13 && forall i | 0 <= i < 13 :: items[i].scenario == String(NAMES[i])
    ensures Apart(items)
  {
    forall i, j | 0 <= i < 13 && 0 <= j < 13
      ensures items[i].scenario == items[j].scenario <==> ScenarioAt(i) == ScenarioAt(j)
    {
      NamesApart(i, j);
    }
  }

  lemma {:induction false} KeysExactly(items: seq<Item>)
    requires Apart(items)
    ensures KeyedByScenario(items) <==> AllKeyed(items)
  {
    if AllKeyed(items) {
      forall i, j | 0 <= i < 13 && 0 <= j < 13
        ensures Key(items[i]) == Key(items[j]) <==> ScenarioAt(i) == ScenarioAt(j)
        ensures ScenarioAt(i) == ScenarioAt(j) ==> Payload(items[i]) == Payload(items[j])
      {
        assert SameAsked(items[i], items[j]) && SameKeyed(items[i], items[j]);
      }
    }
    if KeyedByScenario(items) {
      forall i, j | 0 <= i < 13 && 0 <= j < 13
        ensures SameAsked(items[i], items[j]) && SameKeyed(items[i], items[j])
      {
        assert Key(items[i]) == Key(items[j]) <==> ScenarioAt(i) == ScenarioAt(j);
      }
    }
  }

  lemma {:induction false} NamedAtPlace(items: seq<Item>)
    requires AllAtPlace(items)
    ensures forall i | 0 <= i < 13 :: items[i].scenario == String(NAMES[i])
  {
  }

  /** Accepted exchanges are the whole run, and nothing else is. */
  lemma {:induction false} WholeRunExactly(items: seq<Item>)
    ensures ItemsOk(items, Some(12)) <==> WholeRun(items)
  {
    AcceptedExactly(items, Some(12));
    PlacesExactly(items);
    ShapesExactly(items);
    AgreementsExactly(items);
    if |items| == 13 {
      WitnessedParts(items);
    }
    if AllAtPlace(items) {
      NamedAtPlace(items);
      NamedApart(items);
      KeysExactly(items);
    }
  }

  /** The page showed every interrupted attempt, in the three scenarios that recover one. */
  lemma {:induction false} FeedbackExactly(items: seq<Item>, scenarios: Json)
    requires ItemsOk(items, Some(12))
    ensures FeedbackOk(scenarios, Interruptions(items)) <==> AllShown(scenarios, items)
  {
    if FeedbackOk(scenarios, Interruptions(items)) {
      FeedbackNamesTheAttempt(items, Some(12), scenarios, 1);
      FeedbackNamesTheAttempt(items, Some(12), scenarios, 6);
      FeedbackNamesTheAttempt(items, Some(12), scenarios, 8);
    }
    if AllShown(scenarios, items) {
      ShownIsOk(items, scenarios, 1);
      ShownIsOk(items, scenarios, 6);
      ShownIsOk(items, scenarios, 8);
      ThreeShown(scenarios, Interruptions(items));
    }
  }

  ghost predicate AllShown(scenarios: Json, items: seq<Item>) {
    Shows(scenarios, items, 1) && Shows(scenarios, items, 6) && Shows(scenarios, items, 8)
  }

  lemma {:induction false} ThreeShown(scenarios: Json, interrupted: map<Json, map<string, Json>>)
    requires scenarios.Object?
    requires FeedbackShows(Get(scenarios.fields, SCENARIOS[0]), Lookup(interrupted, SCENARIOS[0]))
    requires FeedbackShows(Get(scenarios.fields, SCENARIOS[2]), Lookup(interrupted, SCENARIOS[2]))
    requires FeedbackShows(Get(scenarios.fields, SCENARIOS[3]), Lookup(interrupted, SCENARIOS[3]))
    ensures FeedbackOk(scenarios, interrupted)
  {
    assert SCENARIOS[0] == "W1" && SCENARIOS[2] == "W3" && SCENARIOS[3] == "W4";
  }

  lemma {:induction false} ShownIsOk(items: seq<Item>, scenarios: Json, i: nat)
    requires ItemsOk(items, Some(12)) && i in INTERRUPTIONS && Shows(scenarios, items, i)
    ensures var name := SCENARIOS[ScenarioAt(i)];
      FeedbackShows(Get(scenarios.fields, name), Lookup(Interruptions(items), name))
  {
    CarrierAt(items, i);
    InterruptionKept(items, i);
    var text := Get(scenarios.fields[SCENARIOS[ScenarioAt(i)]].fields, "feedback_text").text;
    IncludesExactly(text, Get(AttemptOf(items[i]).value, "attempt_id").text);
    IncludesExactly(text, "No evaluation was produced.");
    IncludesExactly(text, "Matched:");
  }

  /** The exchanges record these items, one by one. */
  ghost predicate AllRecorded(codec: Codec, exchanges: seq<Json>, items: seq<Item>) {
    |exchanges| == |items| && forall i | 0 <= i < |items| :: Records(codec, exchanges[i], items[i])
  }

  ghost predicate Decode(codec: Codec, exchanges: seq<Json>, items: seq<Item>) {
    (forall e <- exchanges :: DecodeOk(codec, e)) && Items(codec, exchanges) == items
  }

  lemma {:induction false} AllRecordedExactly(codec: Codec, exchanges: seq<Json>, items: seq<Item>)
    ensures Decode(codec, exchanges, items) <==> AllRecorded(codec, exchanges, items)
  {
    if |exchanges| == |items| {
      forall i | 0 <= i < |items|
        ensures DecodeOk(codec, exchanges[i]) && Decoded(codec, exchanges[i]) == Some(items[i]) <==> Records(codec, exchanges[i], items[i])
      {
        RecordsExactly(codec, exchanges[i], items[i]);
      }
    }
  }

  /** A packet of a live run with a restart at 12 that records these items, the whole run, and whose page
      showed every interrupted attempt. */
  ghost predicate Evidence(codec: Codec, packet: Json, items: seq<Item>) {
    && packet.Object? && LiveRun(packet.fields)
    && Restarted(Get(packet.fields, "epochs"), 12)
    && Get(packet.fields, "exchanges").List? && AllRecorded(codec, Get(packet.fields, "exchanges").elements, items)
    && WholeRun(items) && AllShown(Get(packet.fields, "scenarios"), items)
  }

  /** The checks, part by part. */
  ghost predicate Passes(codec: Codec, packet: Json, items: seq<Item>, restart: Option<int>) {
    && packet.Object? && RunOk(packet.fields)
    && EpochsOk(Get(packet.fields, "epochs")) && RestartSeq(Get(packet.fields, "epochs")) == restart
    && Get(packet.fields, "exchanges").List? && Decode(codec, Get(packet.fields, "exchanges").elements, items)
    && ItemsOk(items, restart) && FeedbackOk(Get(packet.fields, "scenarios"), Interruptions(items))
  }

  lemma {:induction false} OkIsPasses(codec: Codec, packet: Json)
    requires PacketOk(codec, packet)
    ensures exists items, restart :: Passes(codec, packet, items, restart)
  {
    assert Passes(codec, packet, Items(codec, Get(packet.fields, "exchanges").elements), RestartSeq(Get(packet.fields, "epochs")));
  }

  lemma {:induction false} PassesIsOk(codec: Codec, packet: Json, items: seq<Item>, restart: Option<int>)
    requires Passes(codec, packet, items, restart) && items != []
    ensures PacketOk(codec, packet)
  {
  }

  lemma {:induction false} PassesExactly(codec: Codec, packet: Json, items: seq<Item>)
    ensures Passes(codec, packet, items, Some(12)) <==> Evidence(codec, packet, items)
  {
    if packet.Object? {
      var fields := packet.fields;
      RunExactly(fields);
      EpochsExactly(Get(fields, "epochs"), 12);
      if Get(fields, "exchanges").List? {
        AllRecordedExactly(codec, Get(fields, "exchanges").elements, items);
      }
      WholeRunExactly(items);
      if WholeRun(items) {
        FeedbackExactly(items, Get(fields, "scenarios"));
      }
    }
  }

  lemma {:induction false} AcceptedIsEvidence(codec: Codec, packet: Json)
    requires PacketOk(codec, packet)
    ensures exists items :: Evidence(codec, packet, items)
  {
    OkIsPasses(codec, packet);
    var items, restart :| Passes(codec, packet, items, restart);
    RestartIsTwelve(items, restart);
    PassesExactly(codec, packet, items);
  }

  /** A packet is accepted if and only if it is evidence of the whole run. */
  lemma {:induction false} PacketExactly(codec: Codec, packet: Json)
    ensures PacketOk(codec, packet) <==> exists items :: Evidence(codec, packet, items)
  {
    if PacketOk(codec, packet) {
      AcceptedIsEvidence(codec, packet);
    }
    if items :| Evidence(codec, packet, items) {
      PassesExactly(codec, packet, items);
      PassesIsOk(codec, packet, items, Some(12));
    }
  }
}
