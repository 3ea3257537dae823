/** A recorded witness of keyed begin recovery, and what makes one acceptable
    (scripts/verify_do016_begin_recovery_evidence.py). */
module BeginEvidence {
  import opened Prelude
  import opened Text

  // ----- JSON -----

  datatype Json =
    | Null | Flag(flag: bool) | Whole(number: int) | Decimal(value: real) | String(text: string)
    | List(elements: seq<Json>) | Object(fields: map<string, Json>)

  /** A missing field reads as null. */
  function Get(o: map<string, Json>, field: string): Json { if field in o then o[field] else Null }

  type Byte = b: nat | b < 256 witness 0

  /** What the checks take from outside: base64, SHA-256 in hexadecimal, and the JSON object in some bytes. */
  datatype Codec = Codec(
    base64: string -> Option<seq<Byte>>, sha256: seq<Byte> -> string, parse: seq<Byte> -> Option<map<string, Json>>)

  predicate HexDigit(c: char) { '0' <= c <= '9' || 'a' <= c <= 'f' }

  predicate GitSha(s: string) { |s| == 40 && forall c <- s :: HexDigit(c) }

  /** A lowercase version 4 UUID. */
  predicate RequestId(s: string) {
    && |s| == 36
    && s[8] == '-' && s[13] == '-' && s[18] == '-' && s[23] == '-' && s[14] == '4' && s[19] in "89ab"
    && forall i | 0 <= i < 36 && i != 8 && i != 13 && i != 18 && i != 23 :: HexDigit(s[i])
  }

  /** More than white space. */
  predicate Spoken(s: string) { exists c <- s :: !Blank(c) }

  predicate SpokenText(j: Json) { j.String? && Spoken(j.text) }

  predicate Contains(text: string, part: string) { exists i | 0 <= i <= |text| :: part <= text[i..] }

  // ----- The run -----

  predicate RunOk(packet: map<string, Json>) {
    && Get(packet, "schema") == String("master_all_strings.do016_begin_recovery_evidence")
    && Get(packet, "schema_version") == String("2")
    && Get(packet, "complete") == Flag(true) && Get(packet, "failures") == Whole(0)
    && (forall field <- ["tested_sha", "tested_tree"] :: Get(packet, field).String? && GitSha(Get(packet, field).text))
    && Get(packet, "dirty") == String("")
    && (forall field <- ["python", "node", "chrome", "os"] :: SpokenText(Get(packet, field)))
    && Get(packet, "transport").Object? && Get(Get(packet, "transport").fields, "server_responses") == String("live")
  }

  // ----- Exchanges -----

  datatype Item = Item(
    number: int, scenario: Json, source: Json, route: Json, sender: Json, pageOutcome: Json, epoch: Json, status: Json,
    raw: seq<Byte>, request: map<string, Json>, response: Option<map<string, Json>>)

  /** The recorded bytes, if they are there, are base64 and have the recorded hash. */
  function Bytes(codec: Codec, encoded: Json, recorded: Json): Option<seq<Byte>> {
    if !encoded.String? || !recorded.String? then None
    else
      match codec.base64(encoded.text)
      case None => None
      case Some(raw) => if codec.sha256(raw) == recorded.text then Some(raw) else None
  }

  /** The JSON object the recorded bytes hold, if any. */
  function Parsed(codec: Codec, encoded: Json, recorded: Json): Option<map<string, Json>> {
    match Bytes(codec, encoded, recorded)
    case None => None
    case Some(raw) => codec.parse(raw)
  }

  function Sent(codec: Codec, o: map<string, Json>): Option<map<string, Json>> {
    Parsed(codec, Get(o, "request_base64"), Get(o, "request_sha256"))
  }

  function Answered(codec: Codec, o: map<string, Json>): Option<map<string, Json>> {
    Parsed(codec, Get(o, "response_base64"), Get(o, "response_sha256"))
  }

  predicate Unanswered(o: map<string, Json>) { Get(o, "response_base64").Null? }

  /** What an exchange says, read from its bytes alone. */
  function Decoded(codec: Codec, exchange: Json): Option<Item> {
    if !exchange.Object? || !Get(exchange.fields, "seq").Whole? then None
    else
      var o := exchange.fields;
      if Sent(codec, o).None? || (!Unanswered(o) && Answered(codec, o).None?) then None
      else
        Some(Item(Get(o, "seq").number, Get(o, "scenario"), Get(o, "source"), Get(o, "route"), Get(o, "sender"),
                  Get(o, "page_outcome"), Get(o, "epoch"), Get(o, "status"),
                  Bytes(codec, Get(o, "request_base64"), Get(o, "request_sha256")).value,
                  Sent(codec, o).value, if Unanswered(o) then None else Answered(codec, o)))
  }

  /** The parsed copies beside the bytes are what the bytes say. */
  predicate CopiesOk(codec: Codec, o: map<string, Json>)
    requires Sent(codec, o).Some? && (Unanswered(o) || Answered(codec, o).Some?)
  {
    && Get(o, "request") == Object(Sent(codec, o).value)
    && if Unanswered(o) then Get(o, "response_sha256").Null? && Get(o, "response").Null? && Get(o, "status").Null?
       else Get(o, "response") == Object(Answered(codec, o).value)
  }

  predicate DecodeOk(codec: Codec, exchange: Json) { Decoded(codec, exchange).Some? && CopiesOk(codec, exchange.fields) }

  // ----- Epochs and order -----

  const SCENARIOS := ["W1", "W2", "W3", "W4", "W5"]

  function Position(scenario: Json): Option<nat> {
    if scenario == String("W1") then Some(0) else if scenario == String("W2") then Some(1)
    else if scenario == String("W3") then Some(2) else if scenario == String("W4") then Some(3)
    else if scenario == String("W5") then Some(4) else None
  }

  /** The place of the restart in the sequence, if the packet gives one. */
  function RestartSeq(epochs: Json): Option<int> {
    if !epochs.List? || |epochs.elements| != 2 || !epochs.elements[0].Object? || !epochs.elements[1].Object? then None
    else
      match Get(epochs.elements[1].fields, "restart_seq")
      case Whole(n) => Some(n)
      case _ => None
  }

  predicate Pid(j: Json) { j.Whole? && j.number > 0 }

  predicate EpochsOk(epochs: Json) {
    && RestartSeq(epochs).Some?
    && var (first, second) := (epochs.elements[0].fields, epochs.elements[1].fields);
    && Get(first, "name") == String("A") && Get(second, "name") == String("B")
    && Pid(Get(first, "pid")) && Pid(Get(second, "pid")) && Get(first, "pid") != Get(second, "pid")
    && Get(second, "previous_pid") == Get(first, "pid")
  }

  function Numbers(items: seq<Item>): set<int> { set item <- items :: item.number }

  /** The numbers from 1 to `n`. */
  function UpTo(n: nat): (r: set<int>)
    ensures forall k :: k in r <==> 1 <= k <= n
  {
    if n == 0 then {} else UpTo(n - 1) + {n}
  }

  predicate Increasing(items: seq<Item>) { forall i, j | 0 <= i < j < |items| :: items[i].number < items[j].number }

  predicate KnownScenarios(items: seq<Item>) { forall item <- items :: Position(item.scenario).Some? }

  predicate ScenariosInOrder(items: seq<Item>)
    requires KnownScenarios(items)
  {
    forall i, j | 0 <= i < j < |items| :: Position(items[i].scenario).value <= Position(items[j].scenario).value
  }

  predicate OrderOk(items: seq<Item>, restart: Option<int>) {
    && Increasing(items)
    && restart.Some? && Numbers(items) + {restart.value} == UpTo(|items| + 1)
    && KnownScenarios(items) && ScenariosInOrder(items)
  }

  // ----- Shape -----

  const REQUEST_FIELDS: set<string> := {"begin_request_id", "begin"}
  const BEGIN_FIELDS: set<string> := {
    "delivery_id", "expected_assignment_artifact_digest", "expected_assignment_behavior_digest", "device_id",
    "capture_time_ns"}
  const WRAPPER_FIELDS: set<string> := {"schema_id", "schema_version", "begin_request_id", "status", "attempt"}

  /** The HTTP statuses a wrapper status may arrive with. */
  function WrapperHttp(status: Json): set<int> {
    if status == String("STARTED") then {200, 201}
    else if status == String("PENDING") then {202}
    else if status == String("NO_ATTEMPT") || status == String("INTERRUPTED") then {200}
    else {}
  }

  predicate RequestOk(request: map<string, Json>) {
    && request.Keys == REQUEST_FIELDS
    && request["begin_request_id"].String? && RequestId(request["begin_request_id"].text)
    && request["begin"].Object? && request["begin"].fields.Keys == BEGIN_FIELDS
    && request["begin"].fields["capture_time_ns"].Whole? && request["begin"].fields["capture_time_ns"].number >= 0
  }

  predicate ErrorOk(response: map<string, Json>, http: Json) {
    && response.Keys == {"error"} && Get(response, "error").String?
    && http.Whole? && http.number in {400, 404, 409, 422, 500}
  }

  /** The pins of an attempt that a request fixes, with the request's names for them. */
  const PINS: seq<(string, string)> := [
    ("delivery_id", "delivery_id"),
    ("assignment_artifact_digest", "expected_assignment_artifact_digest"),
    ("assignment_behavior_digest", "expected_assignment_behavior_digest")]

  const ATTEMPT_PINS: seq<string> := ["attempt_id", "capture_id", "performance_session_id"]

  /** Nothing was captured. */
  predicate Silent(attempt: map<string, Json>) {
    && Get(attempt, "observed_events") == List([])
    && Get(attempt, "raw_capture").Object? && Get(Get(attempt, "raw_capture").fields, "events") == List([])
  }

  predicate AttemptOk(attempt: map<string, Json>, status: Json, begin: map<string, Json>) {
    && Get(attempt, "attempt_status") == String(if status == String("STARTED") then "CAPTURING" else "INTERRUPTED")
    && (status == String("INTERRUPTED") ==> Silent(attempt))
    && (forall pin <- PINS :: Get(attempt, pin.0) == Get(begin, pin.1))
    && (forall field <- ATTEMPT_PINS :: SpokenText(Get(attempt, field)))
  }

  predicate WrapperOk(response: map<string, Json>, http: Json, request: map<string, Json>) {
    && response.Keys == WRAPPER_FIELDS
    && Get(response, "schema_id") == String("master_all_strings.received_lesson_begin_request")
    && Get(response, "schema_version") == String("1.0.0")
    && Get(response, "begin_request_id") == Get(request, "begin_request_id")
    && var status, attempt := Get(response, "status"), Get(response, "attempt");
    && http.Whole? && http.number in WrapperHttp(status)
    && if status == String("PENDING") || status == String("NO_ATTEMPT") then attempt.Null?
       else attempt.Object? && Get(request, "begin").Object? && AttemptOk(attempt.fields, status, Get(request, "begin").fields)
  }

  predicate ShapeOk(item: Item) {
    && RequestOk(item.request)
    && match item.response
       case None => true
       case Some(response) =>
         if "error" in response then ErrorOk(response, item.status) else WrapperOk(response, item.status, item.request)
  }

  // ----- The witnessed sequences -----

  datatype Witness = Witness(
    source: Json, route: Json, sender: Json, pageOutcome: Json, epoch: Json, status: Json, outcome: Option<string>)

  function Saw(source: string, route: string, sender: string, pageOutcome: string, epoch: string, status: int,
               outcome: string): Witness
  {
    Witness(String(source), String(route), String(sender), String(pageOutcome), String(epoch), Whole(status), Some(outcome))
  }

  function Expected(scenario: nat): seq<Witness> {
    match scenario
    case 0 => [
      Saw("forwarded_server", "begin", "harness", "network_failure", "A", 201, "STARTED"),
      Saw("browser", "recovery", "browser", "response", "A", 200, "INTERRUPTED")]
    case 1 => [
      Saw("recovery_before_begin", "recovery", "harness", "not_sent_by_page", "A", 200, "NO_ATTEMPT"),
      Saw("browser", "begin", "browser", "response", "A", 409, "begin_request_closed"),
      Saw("browser", "recovery", "browser", "response", "A", 200, "NO_ATTEMPT")]
    case 2 => [
      Saw("recovery_during_prepare", "recovery", "harness", "not_sent_by_page", "A", 202, "PENDING"),
      Saw("browser", "begin", "browser", "response", "A", 200, "INTERRUPTED")]
    case 3 => [
      Saw("forwarded_begin", "begin", "harness", "network_failure", "A", 201, "STARTED"),
      Saw("forwarded_recovery", "recovery", "harness", "network_failure", "A", 200, "INTERRUPTED"),
      Saw("browser", "recovery", "browser", "response", "A", 200, "INTERRUPTED")]
    case 4 => [
      Witness(String("aborted_begin"), String("begin"), String("none"), String("network_failure"), String("A"), Null, None),
      Saw("browser", "recovery", "browser", "response", "B", 200, "NO_ATTEMPT"),
      Saw("replayed_begin", "begin", "harness", "not_sent_by_page", "B", 409, "begin_request_closed")]
    case _ => []
  }

  /** The error of an error response, else the status. An error that is not a string is no
      outcome any witness names. */
  function OutcomeOf(item: Item): Option<string> {
    match item.response
    case None => None
    case Some(response) =>
      if "error" in response then (if response["error"].String? then Some(response["error"].text) else Some(""))
      else if Get(response, "status").String? then Some(Get(response, "status").text)
      else None
  }

  function WitnessOf(item: Item): Witness {
    Witness(item.source, item.route, item.sender, item.pageOutcome, item.epoch, item.status, OutcomeOf(item))
  }

  predicate In(item: Item, scenario: nat) { Position(item.scenario) == Some(scenario) }

  /** The exchanges of one scenario, in the order given. */
  function Of(items: seq<Item>, scenario: nat): seq<Item> {
    if items == [] then []
    else
      var last := items[|items| - 1];
      Of(items[..|items| - 1], scenario) + if In(last, scenario) then [last] else []
  }

  function Witnesses(items: seq<Item>): seq<Witness> { seq(|items|, i requires 0 <= i < |items| => WitnessOf(items[i])) }

  predicate SequencesOk(items: seq<Item>) { forall s | 0 <= s < 5 :: Witnesses(Of(items, s)) == Expected(s) }

  // ----- Keys, attempts, restart, feedback -----

  function Key(item: Item): Json { Get(item.request, "begin_request_id") }

  function Payload(item: Item): Json { Get(item.request, "begin") }

  function KeysOf(items: seq<Item>, scenario: nat): set<Json> { set item <- items | In(item, scenario) :: Key(item) }

  /** A key is bound to one payload. */
  predicate PayloadsBound(items: seq<Item>) {
    forall i, j | 0 <= i < j < |items| && Key(items[i]) == Key(items[j]) :: Payload(items[i]) == Payload(items[j])
  }

  function KeySets(items: seq<Item>): seq<set<Json>> { seq(5, s requires 0 <= s < 5 => KeysOf(items, s)) }

  /** One key each, all different. */
  predicate SingleKeys(keys: seq<set<Json>>) {
    && (forall s | 0 <= s < |keys| :: |keys[s]| == 1)
    && (forall s, t | 0 <= s < t < |keys| :: keys[s] != keys[t])
  }

  predicate KeysOk(items: seq<Item>) { PayloadsBound(items) && SingleKeys(KeySets(items)) }

  /** The attempt document an answer carries. */
  function AttemptOf(item: Item): Option<map<string, Json>> {
    match item.response
    case None => None
    case Some(response) => if Get(response, "attempt").Object? then Some(Get(response, "attempt").fields) else None
  }

  predicate SamePins(a: map<string, Json>, b: map<string, Json>) {
    forall field <- ATTEMPT_PINS :: Get(a, field) == Get(b, field)
  }

  predicate Interrupted(item: Item) {
    AttemptOf(item).Some? && Get(item.response.value, "status") == String("INTERRUPTED")
  }

  /** Two answers with attempts agree: one attempt per key, one key per attempt, and one interrupted
      document per scenario. */
  predicate Agree(x: Item, y: Item) {
    AttemptOf(x).Some? && AttemptOf(y).Some? ==>
      var (a, b) := (AttemptOf(x).value, AttemptOf(y).value);
      && (if Key(x) == Key(y) then SamePins(a, b) else Get(a, "attempt_id") != Get(b, "attempt_id"))
      && (Interrupted(x) && Interrupted(y) && x.scenario == y.scenario ==> a == b)
  }

  predicate IdentitiesOk(items: seq<Item>) { forall i, j | 0 <= i < j < |items| :: Agree(items[i], items[j]) }

  /** The first interrupted document of each scenario. */
  function Interruptions(items: seq<Item>): map<Json, map<string, Json>> {
    if items == [] then map[]
    else
      var earlier, last := Interruptions(items[..|items| - 1]), items[|items| - 1];
      if Interrupted(last) && last.scenario !in earlier then earlier[last.scenario := AttemptOf(last).value] else earlier
  }

  function From(items: seq<Item>, source: string): seq<Item> {
    if items == [] then []
    else
      var last := items[|items| - 1];
      From(items[..|items| - 1], source) + if last.source == String(source) then [last] else []
  }

  predicate EpochsSplit(items: seq<Item>, restart: int) {
    forall item <- items ::
      if item.epoch == String("A") then item.number <= restart else item.number >= restart
  }

  /** Checked only once the aborted and the replayed begin are there, once each. */
  predicate RestartOk(items: seq<Item>, restart: Option<int>) {
    var (aborted, replayed) := (From(Of(items, 4), "aborted_begin"), From(Of(items, 4), "replayed_begin"));
    |aborted| == 1 && |replayed| == 1 ==>
      aborted[0].raw == replayed[0].raw && (restart.Some? ==> EpochsSplit(items, restart.value))
  }

  predicate FeedbackShows(observed: Json, attempt: Option<map<string, Json>>) {
    && observed.Object? && Get(observed.fields, "feedback_visible") == Flag(true)
    && var text := Get(observed.fields, "feedback_text");
    && text.String? && Contains(text.text, "No evaluation was produced.") && !Contains(text.text, "Matched:")
    && attempt.Some? && Get(attempt.value, "attempt_id").String? && Contains(text.text, Get(attempt.value, "attempt_id").text)
  }

  function Lookup(m: map<Json, map<string, Json>>, scenario: string): Option<map<string, Json>> {
    if String(scenario) in m then Some(m[String(scenario)]) else None
  }

  predicate FeedbackOk(scenarios: Json, interrupted: map<Json, map<string, Json>>) {
    && scenarios.Object?
    && forall s <- ["W1", "W3", "W4"] :: FeedbackShows(Get(scenarios.fields, s), Lookup(interrupted, s))
  }

  // ----- Acceptance -----

  function Items(codec: Codec, exchanges: seq<Json>): seq<Item>
    requires forall e <- exchanges :: Decoded(codec, e).Some?
  {
    seq(|exchanges|, i requires 0 <= i < |exchanges| => Decoded(codec, exchanges[i]).value)
  }

  predicate ItemsOk(items: seq<Item>, restart: Option<int>) {
    && OrderOk(items, restart) && (forall item <- items :: ShapeOk(item)) && SequencesOk(items) && KeysOk(items)
    && IdentitiesOk(items) && RestartOk(items, restart)
  }

  predicate PacketOk(codec: Codec, packet: Json) {
    && packet.Object?
    && RunOk(packet.fields)
    && Get(packet.fields, "exchanges").List? && Get(packet.fields, "exchanges").elements != []
    && (forall e <- Get(packet.fields, "exchanges").elements :: DecodeOk(codec, e))
    && EpochsOk(Get(packet.fields, "epochs"))
    && var items := Items(codec, Get(packet.fields, "exchanges").elements);
    && ItemsOk(items, RestartSeq(Get(packet.fields, "epochs")))
    && FeedbackOk(Get(packet.fields, "scenarios"), Interruptions(items))
  }
}
