/** What the handler promises, one branch of `lambda_handler` at a time, stated
    about `Handler.Run` (and so, through `Handler.LambdaHandler`'s contract, about
    the imperative handler). */
module HandlerProperties {
  import opened Json
  import opened Handler

  /** A truthy `isBase64Encoded` gets the base64 400 and one WARN line carrying
      the request id, and nothing is written; the result depends on nothing else
      (not on the body, the parser, the generator, the clock or the table). */
  lemma Base64Rejected(event: Event, context: Context, env: Env, storeAccepts: bool)
    requires Truthy(Base64Flag(event))
    ensures Run(event, context, env, storeAccepts) ==
      Trace(Returned(Response(400, Message(BASE64_MESSAGE))),
            [LogLine(WARN, BASE64_LOG, context.awsRequestId, NoDetail)], [])
  {
  }

  /** A missing, null or empty body (any falsy body) stands for `{}`: it never
      reaches the parser and always ends in the missing-type 400 with no keys. */
  lemma EmptyBodyIsEmptyObject(event: Event, context: Context, env: Env, storeAccepts: bool)
    requires !Truthy(Base64Flag(event))
    requires Get(event, "body") in {None, Some(JNull), Some(JString(""))}
    ensures Run(event, context, env, storeAccepts) ==
      Trace(Returned(Response(400, Message(MISSING_TYPE_MESSAGE))),
            [LogLine(WARN, MISSING_TYPE_LOG, context.awsRequestId, PayloadKeys([]))], [])
  {
    FalsyBodyIsEmptyObject(event, context, env, storeAccepts);
  }

  /** The same for every falsy body (also `false`, `0`, `[]` and `{}`). */
  lemma FalsyBodyIsEmptyObject(event: Event, context: Context, env: Env, storeAccepts: bool)
    requires !Truthy(Base64Flag(event)) && !Truthy(RawBody(event))
    ensures Run(event, context, env, storeAccepts) ==
      Trace(Returned(Response(400, Message(MISSING_TYPE_MESSAGE))),
            [LogLine(WARN, MISSING_TYPE_LOG, context.awsRequestId, PayloadKeys([]))], [])
  {
  }

  /** A non-empty body the parser refuses gets the invalid-JSON 400, no write, and
      a WARN line whose preview is the body's first min(100, |body|) characters. */
  lemma MalformedBodyRejected(event: Event, context: Context, env: Env, storeAccepts: bool, body: string)
    requires !Truthy(Base64Flag(event))
    requires RawBody(event) == JString(body) && body != "" && env.parse(body) == None
    ensures Run(event, context, env, storeAccepts) ==
      Trace(Returned(Response(400, Message(INVALID_JSON_MESSAGE))),
            [LogLine(WARN, INVALID_JSON_LOG, context.awsRequestId, BodyPreview(Preview(body)))], [])
  {
  }

  /** A decoded dict whose `type` is absent or falsy gets the missing-type 400, no
      write, and a WARN line listing the dict's keys in order. */
  lemma MissingTypeRejected(event: Event, context: Context, env: Env, storeAccepts: bool,
                            body: string, fields: seq<(string, Json)>)
    requires !Truthy(Base64Flag(event))
    requires RawBody(event) == JString(body) && body != "" && env.parse(body) == Some(JObject(fields))
    requires Get(fields, "type") == None || !Truthy(Get(fields, "type").value)
    ensures Run(event, context, env, storeAccepts) ==
      Trace(Returned(Response(400, Message(MISSING_TYPE_MESSAGE))),
            [LogLine(WARN, MISSING_TYPE_LOG, context.awsRequestId, PayloadKeys(Keys(fields)))], [])
  {
  }

  /** A body that decodes to something other than a dict gets no 400 and no
      write: `body.get` raises and the invocation fails. */
  lemma NonObjectPayloadRaises(event: Event, context: Context, env: Env, storeAccepts: bool,
                               body: string, decoded: Json)
    requires !Truthy(Base64Flag(event))
    requires RawBody(event) == JString(body) && body != "" && env.parse(body) == Some(decoded)
    requires !decoded.JObject?
    ensures Run(event, context, env, storeAccepts) == Trace(Raised(PayloadNotObject), [], [])
  {
  }

  /** A truthy body that is not a string makes `json.loads` raise: no response,
      no log line and no write. */
  lemma NonTextBodyRaises(event: Event, context: Context, env: Env, storeAccepts: bool)
    requires !Truthy(Base64Flag(event))
    requires Truthy(RawBody(event)) && !RawBody(event).JString?
    ensures Run(event, context, env, storeAccepts) == Trace(Raised(BodyNotText), [], [])
  {
  }

  /** Any truthy `type` is accepted, whatever its JSON kind: exactly one item is
      put, carrying the generated id, `type` unchanged, the clock reading, the
      payload verbatim and the request id; the 200 response and the INFO line
      carry the same ids. If the put raises, nothing is logged or returned. */
  lemma AcceptedEventStored(event: Event, context: Context, env: Env, storeAccepts: bool,
                            body: string, fields: seq<(string, Json)>, eventType: Json)
    requires !Truthy(Base64Flag(event))
    requires RawBody(event) == JString(body) && body != "" && env.parse(body) == Some(JObject(fields))
    requires Get(fields, "type") == Some(eventType) && Truthy(eventType)
    ensures var item := Item(env.nextId, eventType, env.clock, fields, context.awsRequestId);
      Run(event, context, env, storeAccepts) ==
        if storeAccepts then
          Trace(Returned(Response(200, Acknowledgement(ACCEPTED_MESSAGE, env.nextId, context.awsRequestId))),
                [LogLine(INFO, INGESTED_LOG, context.awsRequestId, Ingested(env.nextId, eventType))],
                [item])
        else
          Trace(Raised(StoreUnavailable), [], [])
  {
  }

  /** Only a non-empty string body, behind a falsy base64 flag, is ever handed to
      the parser: in every other case the parser cannot change the outcome. */
  lemma ParserOnlyForTextBody(event: Event, context: Context, env: Env, storeAccepts: bool,
                              otherParse: string -> Option<Json>)
    requires Truthy(Base64Flag(event)) || !Truthy(RawBody(event)) || !RawBody(event).JString?
    ensures Run(event, context, env, storeAccepts) ==
            Run(event, context, Env(otherParse, env.nextId, env.clock), storeAccepts)
  {
  }

  /** The same accepted payload, submitted twice, gives two items (no
      deduplication) that differ only in the generated id and the clock reading. */
  method SubmitTwice(event: Event, context: Context, parse: string -> Option<Json>,
                     firstId: string, secondId: string, firstClock: int, secondClock: int)
    returns (stored: seq<Item>)
    requires Decide(event, parse).Accept?
    ensures |stored| == 2
    ensures stored[0].eventId == firstId && stored[1].eventId == secondId
    ensures stored[0].receivedAt == firstClock && stored[1].receivedAt == secondClock
    ensures stored[0].eventType == stored[1].eventType
    ensures stored[0].payload == stored[1].payload && stored[0].requestId == stored[1].requestId
  {
    var table := new Table(true);
    var stdout := new Stdout();
    var first := LambdaHandler(event, context, Env(parse, firstId, firstClock), table, stdout);
    var second := LambdaHandler(event, context, Env(parse, secondId, secondClock), table, stdout);
    stored := table.items;
  }
}
