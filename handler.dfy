/** The HTTP event-ingestion handler (`lambda_handler`): reject base64 bodies,
    decode the JSON body, require a truthy `type`, build an item, put it into the
    table, log, and answer.

    The decision chain (which branch an invocation takes) is pure and is given by
    `Decide`; `Run` adds the effects and gives the whole observable behaviour of
    one invocation: its outcome, the log lines it prints and the items it stores.
    `LambdaHandler` is the imperative handler over a `Table` and a `Stdout`, and
    is proved to behave as `Run` says. */
module Handler {
  import opened Json

  /** The invocation event as the runtime passes it: a dict decoded from the trigger. */
  type Event = seq<(string, Json)>

  /** The runtime context; only `aws_request_id` is read. */
  datatype Context = Context(awsRequestId: string)

  /** What the handler takes from its surroundings: the JSON parser (`json.loads`
      on a string; None when it raises JSONDecodeError), the id the generator
      yields next (`str(uuid.uuid4())`) and the clock's reading in whole seconds
      (`int(time.time())`). */
  datatype Env = Env(parse: string -> Option<Json>, nextId: string, clock: int)

  /** The item written to the table. */
  datatype Item = Item(eventId: string, eventType: Json, receivedAt: int,
                       payload: seq<(string, Json)>, requestId: string)

  datatype Level = WARN | INFO

  /** The context fields a log line carries after `level`, `message` and `request_id`. */
  datatype LogDetail =
    | NoDetail
    | BodyPreview(preview: string)
    | PayloadKeys(keys: seq<string>)
    | Ingested(eventId: string, eventType: Json)

  /** One structured line printed to stdout. */
  datatype LogLine = LogLine(level: Level, message: string, requestId: string, detail: LogDetail)

  /** The JSON object in the response body. */
  datatype ResponseBody =
    | Message(message: string)
    | Acknowledgement(message: string, eventId: string, requestId: string)

  datatype Response = Response(statusCode: int, body: ResponseBody)

  /** Exceptions the handler does not catch; the runtime reports them. */
  datatype Fault =
    | BodyNotText       // json.loads on a truthy body that is not a string: TypeError
    | PayloadNotObject  // `.get` on a decoded body that is not a dict: AttributeError
    | StoreUnavailable  // table.put_item raised

  /** How an invocation ends: it returns a response or raises. */
  datatype Outcome = Returned(response: Response) | Raised(fault: Fault)

  const BASE64_MESSAGE := "base64 encoded payloads are not supported"
  const INVALID_JSON_MESSAGE := "invalid JSON payload"
  const MISSING_TYPE_MESSAGE := "missing required field: type"
  const ACCEPTED_MESSAGE := "event accepted"

  const BASE64_LOG := "Rejected base64 encoded payload"
  const INVALID_JSON_LOG := "Invalid JSON payload"
  const MISSING_TYPE_LOG := "Missing required field: type"
  const INGESTED_LOG := "Event ingested"

  /** At most this many characters of a malformed body are logged. */
  const PREVIEW_LENGTH := 100

  /** `event.get("isBase64Encoded")` */
  function Base64Flag(event: Event): (flag: Json)
    ensures "isBase64Encoded" !in Keys(event) ==> flag == JNull
    ensures "isBase64Encoded" in Keys(event) ==> ("isBase64Encoded", flag) in event
  {
    GetDefault(event, "isBase64Encoded", JNull)
  }

  /** `event.get("body", "")` */
  function RawBody(event: Event): (raw: Json)
    ensures "body" !in Keys(event) ==> raw == JString("")
    ensures "body" in Keys(event) ==> ("body", raw) in event
  {
    GetDefault(event, "body", JString(""))
  }

  /** `body_raw[:100]` */
  function Preview(s: string): (p: string)
    ensures |p| == if |s| < PREVIEW_LENGTH then |s| else PREVIEW_LENGTH
    ensures p <= s
  {
    if |s| <= PREVIEW_LENGTH then s else s[..PREVIEW_LENGTH]
  }

  /** `body.get("type")`: None when the key is absent */
  function EventType(payload: seq<(string, Json)>): (t: Json)
    ensures "type" !in Keys(payload) ==> t == JNull
    ensures "type" in Keys(payload) ==> Get(payload, "type") == Some(t)
  {
    GetDefault(payload, "type", JNull)
  }

  /** The branch an invocation takes, checked in the source's order: encoding,
      then decoding, then validation. */
  datatype Decision =
    | RejectEncoding
    | RejectMalformed(preview: string)
    | RejectMissingType(payload: seq<(string, Json)>)
    | Accept(payload: seq<(string, Json)>, eventType: Json)
    | Abort(fault: Fault)

  /** The decision chain before the item is built. */
  function Decide(event: Event, parse: string -> Option<Json>): (d: Decision)
    // the encoding guard comes first and alone decides the base64 case
    ensures d.RejectEncoding? <==> Truthy(Base64Flag(event))
    // a body is parsed only when it is a non-empty string; only the parser's refusal is "invalid JSON"
    ensures d.RejectMalformed? <==>
      !Truthy(Base64Flag(event)) && RawBody(event).JString? && RawBody(event).s != "" &&
      parse(RawBody(event).s).None?
    ensures d.RejectMalformed? ==> d.preview == Preview(RawBody(event).s)
    // the payload that reaches validation: {} for a falsy body, otherwise what the parser returned
    ensures d.RejectMissingType? || d.Accept? ==>
      !Truthy(Base64Flag(event)) &&
      if Truthy(RawBody(event)) then
        RawBody(event).JString? && parse(RawBody(event).s) == Some(JObject(d.payload))
      else d.payload == []
    // validation: the payload's own `type` decides, by truthiness alone
    ensures d.RejectMissingType? ==> !Truthy(EventType(d.payload))
    ensures d.Accept? ==> Truthy(d.eventType) && Get(d.payload, "type") == Some(d.eventType)
    // when each of the remaining branches is taken
    ensures d == Abort(BodyNotText) <==>
      !Truthy(Base64Flag(event)) && Truthy(RawBody(event)) && !RawBody(event).JString?
    ensures d == Abort(PayloadNotObject) <==>
      var raw := RawBody(event);
      !Truthy(Base64Flag(event)) && raw.JString? && raw.s != "" &&
      parse(raw.s).Some? && !parse(raw.s).value.JObject?
    ensures d.RejectMissingType? <==>
      var raw := RawBody(event);
      !Truthy(Base64Flag(event)) &&
      (!Truthy(raw) ||
       (raw.JString? && raw.s != "" && parse(raw.s).Some? && parse(raw.s).value.JObject? &&
        !Truthy(EventType(parse(raw.s).value.fields))))
    ensures d.Accept? <==>
      var raw := RawBody(event);
      !Truthy(Base64Flag(event)) && raw.JString? && raw.s != "" &&
      parse(raw.s).Some? && parse(raw.s).value.JObject? &&
      Truthy(EventType(parse(raw.s).value.fields))
    ensures d.Abort? ==> d.fault != StoreUnavailable
  {
    if Truthy(Base64Flag(event)) then RejectEncoding
    else
      var raw := RawBody(event);
      if Truthy(raw) && !raw.JString? then Abort(BodyNotText)
      else
        var parsed := if Truthy(raw) then parse(raw.s) else Some(JObject([]));
        match parsed
        case None => RejectMalformed(Preview(raw.s))
        case Some(body) =>
          if !body.JObject? then Abort(PayloadNotObject)
          else if !Truthy(EventType(body.fields)) then RejectMissingType(body.fields)
          else Accept(body.fields, EventType(body.fields))
  }

  function BadRequest(message: string): Response {
    Response(400, Message(message))
  }

  /** What one invocation does, seen from outside. */
  datatype Trace = Trace(outcome: Outcome, logs: seq<LogLine>, writes: seq<Item>)

  /** The whole behaviour of one invocation, given whether the table acknowledges
      the put (`storeAccepts`). */
  function Run(event: Event, context: Context, env: Env, storeAccepts: bool): (t: Trace)
    // every response is a 200 or a 400, and a 200 exactly when an item was stored
    ensures t.outcome.Returned? ==> t.outcome.response.statusCode in {200, 400}
    ensures (t.outcome.Returned? && t.outcome.response.statusCode == 200) <==> t.writes != []
    // at most one item is written, and only after every check passed and the table took it
    ensures |t.writes| <= 1
    ensures t.writes != [] <==> Decide(event, env.parse).Accept? && storeAccepts
    // every returned response is preceded by exactly one log line; a raise prints nothing
    ensures t.outcome.Returned? <==> |t.logs| == 1
    ensures t.outcome.Raised? ==> t.logs == [] && t.writes == []
    // a 400 is logged at WARN, a 200 at INFO
    ensures t.outcome.Returned? ==>
      (t.logs[0].level == INFO <==> t.outcome.response.statusCode == 200)
    // the request id is in every log line
    ensures forall line :: line in t.logs ==> line.requestId == context.awsRequestId
    // the response, the stored item and the INFO line agree on the identifiers
    ensures t.writes != [] ==>
      t.outcome.response.body == Acknowledgement(ACCEPTED_MESSAGE, t.writes[0].eventId, t.writes[0].requestId) &&
      t.logs[0].detail == Ingested(t.writes[0].eventId, t.writes[0].eventType) &&
      t.writes[0].eventId == env.nextId && t.writes[0].requestId == context.awsRequestId
  {
    var rid := context.awsRequestId;
    match Decide(event, env.parse)
    case RejectEncoding =>
      Trace(Returned(BadRequest(BASE64_MESSAGE)), [LogLine(WARN, BASE64_LOG, rid, NoDetail)], [])
    case RejectMalformed(preview) =>
      Trace(Returned(BadRequest(INVALID_JSON_MESSAGE)),
            [LogLine(WARN, INVALID_JSON_LOG, rid, BodyPreview(preview))], [])
    case RejectMissingType(payload) =>
      Trace(Returned(BadRequest(MISSING_TYPE_MESSAGE)),
            [LogLine(WARN, MISSING_TYPE_LOG, rid, PayloadKeys(Keys(payload)))], [])
    case Abort(fault) =>
      Trace(Raised(fault), [], [])
    case Accept(payload, eventType) =>
      var item := Item(env.nextId, eventType, env.clock, payload, rid);
      if storeAccepts then
        Trace(Returned(Response(200, Acknowledgement(ACCEPTED_MESSAGE, item.eventId, item.requestId))),
              [LogLine(INFO, INGESTED_LOG, rid, Ingested(item.eventId, eventType))], [item])
      else
        Trace(Raised(StoreUnavailable), [], [])
  }

  /** The table the handler writes to: the items it holds, and whether the
      service currently acknowledges writes. */
  class Table {
    var items: seq<Item>
    var accepting: bool

    constructor (accepting: bool)
      ensures items == [] && this.accepting == accepting
    {
      items := [];
      this.accepting := accepting;
    }

    /** `table.put_item(Item=item)`: stores the item, or fails (the caller raises)
        and stores nothing. */
    method PutItem(item: Item) returns (ok: bool)
      modifies this
      ensures ok == old(accepting) && accepting == old(accepting)
      ensures items == if ok then old(items) + [item] else old(items)
    {
      ok := accepting;
      if ok {
        items := items + [item];
      }
    }
  }

  /** Standard output, as the sequence of structured lines printed to it. */
  class Stdout {
    var lines: seq<LogLine>

    constructor ()
      ensures lines == []
    {
      lines := [];
    }

    /** `print(json.dumps(line))` */
    method Print(line: LogLine)
      modifies this
      ensures lines == old(lines) + [line]
    {
      lines := lines + [line];
    }
  }

  /** `lambda_handler(event, context)` */
  method LambdaHandler(event: Event, context: Context, env: Env, table: Table, stdout: Stdout)
    returns (outcome: Outcome)
    modifies table, stdout
    ensures outcome == Run(event, context, env, old(table.accepting)).outcome
    ensures stdout.lines == old(stdout.lines) + Run(event, context, env, old(table.accepting)).logs
    ensures table.items == old(table.items) + Run(event, context, env, old(table.accepting)).writes
    ensures table.accepting == old(table.accepting)
  {
    var rid := context.awsRequestId;
    if Truthy(GetDefault(event, "isBase64Encoded", JNull)) {
      stdout.Print(LogLine(WARN, BASE64_LOG, rid, NoDetail));
      return Returned(BadRequest(BASE64_MESSAGE));
    }

    var bodyRaw := GetDefault(event, "body", JString(""));

    var body: Json;
    if !Truthy(bodyRaw) {
      body := JObject([]);
    } else if !bodyRaw.JString? {
      return Raised(BodyNotText);
    } else {
      match env.parse(bodyRaw.s)
      case None =>
        stdout.Print(LogLine(WARN, INVALID_JSON_LOG, rid, BodyPreview(Preview(bodyRaw.s))));
        return Returned(BadRequest(INVALID_JSON_MESSAGE));
      case Some(parsed) =>
        body := parsed;
    }

    if !body.JObject? {
      return Raised(PayloadNotObject);
    }
    var eventType := GetDefault(body.fields, "type", JNull);
    if !Truthy(eventType) {
      stdout.Print(LogLine(WARN, MISSING_TYPE_LOG, rid, PayloadKeys(Keys(body.fields))));
      return Returned(BadRequest(MISSING_TYPE_MESSAGE));
    }

    var item := Item(env.nextId, eventType, env.clock, body.fields, rid);

    var ok := table.PutItem(item);
    if !ok {
      return Raised(StoreUnavailable);
    }

    stdout.Print(LogLine(INFO, INGESTED_LOG, rid, Ingested(item.eventId, eventType)));

    return Returned(Response(200, Acknowledgement(ACCEPTED_MESSAGE, item.eventId, item.requestId)));
  }
}
