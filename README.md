# Serverless HTTP event ingestion, in Dafny

This project models `lambda_handler`, the one function of an AWS Lambda service that ingests
events arriving over HTTP. For each invocation, the handler:

1. rejects base64-encoded bodies;
2. decodes the body as JSON, reading a missing or falsy body as `{}`;
3. requires a truthy `type` field;
4. builds an item from the generated event id, the `type`, the receive time, the payload verbatim
   and the request id;
5. puts the item into a DynamoDB table;
6. prints a structured log line and returns a 200 or 400 response.

Files:

- `json.dfy` (module `Json`): JSON values as Python's `json` module produces them. Objects are
  ordered lists of fields, because a Python dict keeps insertion order. The module also defines the
  Python operations the handler uses on these values: truthiness, `dict.get` (with and without a
  default) and `dict.keys()`.
- `handler.dfy` (module `Handler`):
  - `Decide`: the pure decision chain (encoding guard, body decoding, validation), taken in the
    source's order.
  - `Run`: the full observable behaviour of one invocation. That is its outcome (a response or an
    uncaught exception), the log lines it prints, and the items it stores.
  - The classes `Table` (the DynamoDB table, as the sequence of stored items) and `Stdout` (the
    printed lines).
  - `LambdaHandler`: the handler, written imperatively with the source's early returns and proved
    to behave exactly as `Run` says.
- `properties.dfy` (module `HandlerProperties`): one lemma for each branch of the handler, plus a
  two-submission client that shows events are not deduplicated.

External inputs are parameters, bundled in `Handler.Env`:

- the JSON parser (`json.loads`) is an oracle `string -> Option<Json>`; `None` means it raised
  `JSONDecodeError`;
- the next id of the UUID generator is a string;
- the clock reading is a whole number of seconds.

Whether the table accepts a write is the field `Table.accepting`. The context contributes only
`aws_request_id`.

The handler is more permissive than its field names and messages suggest:

- Any truthy `type` is accepted, not only a non-empty string. That includes a number, a list and
  an object.
- Every falsy body becomes `{}`. That means a missing body, `None`, `""`, and also `false`, `0`,
  `[]` and `{}`.
- The missing-type log lists the payload's keys as an ordered list, not as a set.
- Two inputs end in an uncaught exception, not in a 400:
  - a body that decodes to something other than a dict (`body.get` raises `AttributeError`);
  - a truthy body that is not a string (`json.loads` raises `TypeError`).

## Model

| member | source | states |
|---|---|---|
| `Json.Truthy` | app/lambda_handler.py:48 | Python truthiness, as `if x` / `not x` test it: exactly null, false, 0, "", [] and {} are falsy, and every other value is truthy |
| `Json.Keys` | app/lambda_handler.py:53 | `list(body.keys())` has one entry per field, the i-th being the i-th field's key (insertion order) |
| `Json.Get` | app/lambda_handler.py:47 | `dict.get(key)` is None exactly when the key is absent; otherwise it is a value stored under that key |
| `Json.GetDefault` | app/lambda_handler.py:29 | `dict.get(key, default)` gives the default when the key is absent, and otherwise a value stored under the key |
| `Json.GetStoredKey` | app/lambda_handler.py:47 | in a dict (distinct keys), looking up a stored key returns the value stored with it |
| `Handler.Base64Flag` | app/lambda_handler.py:18 | `event.get("isBase64Encoded")` is null (Python None) when the event has no such key, and otherwise the value stored under it |
| `Handler.RawBody` | app/lambda_handler.py:29 | `event.get("body", "")` is the empty string when the event has no body key, and otherwise the value stored under it (which may be null or a non-string) |
| `Handler.EventType` | app/lambda_handler.py:47 | `body.get("type")` is null when the payload has no `type` key, and otherwise the payload's own `type` value |
| `Handler.Preview` | app/lambda_handler.py:39 | the logged preview is the prefix of the raw body of length min(100, length of the body) |
| `Handler.Decide` | app/lambda_handler.py:18-58 | the base64 rejection happens exactly when the flag is truthy. "Invalid JSON" happens exactly when the flag is falsy, the body is a non-empty string and the parser refuses it. Validation sees `{}` for a falsy body and the parser's dict otherwise. Rejection for a missing type means `type` is absent or falsy. Acceptance means `type` is truthy, and the accepted type is the payload's own `type`. Each remaining branch also comes with its exact condition. A truthy body that is not a string raises `TypeError`. A non-empty string body that parses to something other than a dict raises `AttributeError`. A missing-type rejection happens exactly when the body is falsy, or when it parses to a dict whose `type` is falsy. Acceptance happens exactly when the body parses to a dict whose `type` is truthy |
| `Handler.Run` | app/lambda_handler.py:12-88 | every response has status 200 or 400, and 200 comes back exactly when one item was stored. An item is stored only after all checks pass and the table accepts it. Each response comes with exactly one log line: WARN for a 400, INFO for a 200. An exception prints and stores nothing. Every log line carries the request id. The response, the stored item and the INFO line agree on the event id and the request id |
| `Handler.Table.PutItem` | app/lambda_handler.py:70 | a put either appends the item to the table and succeeds, or fails and leaves the table unchanged |
| `Handler.Stdout.Print` | app/lambda_handler.py:73-79 | printing appends exactly one line to the output |
| `Handler.LambdaHandler` | app/lambda_handler.py:12-88 | the imperative handler returns `Run`'s outcome, appends `Run`'s log lines to stdout and `Run`'s writes to the table, and changes nothing else |
| `HandlerProperties.Base64Rejected` | app/lambda_handler.py:18-27 | a truthy `isBase64Encoded` gives the base64 400 and one WARN line with the request id, with no write. The result is fixed by the request id alone: the body, the parser, the generator, the clock and the table do not change it |
| `HandlerProperties.EmptyBodyIsEmptyObject` | app/lambda_handler.py:29-58 | a missing, null or empty body never gives "invalid JSON payload": it gives the missing-type 400 with empty `payload_keys` and no write |
| `HandlerProperties.FalsyBodyIsEmptyObject` | app/lambda_handler.py:29-33 | every falsy body is read as `{}` and ends in the missing-type 400 with empty `payload_keys` |
| `HandlerProperties.MalformedBodyRejected` | app/lambda_handler.py:32-44 | a non-empty body that the parser refuses gives the invalid-JSON 400 with no write. Its WARN line previews the first min(100, length) characters of the body |
| `HandlerProperties.MissingTypeRejected` | app/lambda_handler.py:47-58 | a decoded dict whose `type` is absent or falsy gives the missing-type 400 with no write. Its WARN line's `payload_keys` are the dict's keys, in order |
| `HandlerProperties.NonObjectPayloadRaises` | app/lambda_handler.py:33-47 | a body that decodes to something other than a dict raises at `body.get`: no response, no log line and no write |
| `HandlerProperties.NonTextBodyRaises` | app/lambda_handler.py:29-33 | a truthy body that is not a string makes `json.loads` raise: no response, no log line and no write |
| `HandlerProperties.AcceptedEventStored` | app/lambda_handler.py:47-88 | any truthy `type` is accepted. Exactly one item is stored, holding the generated id, `type` unchanged, the clock reading, the payload verbatim and the request id. The 200 response and the INFO line carry the same ids. If the put fails, the handler raises with no log line and no response |
| `HandlerProperties.ParserOnlyForTextBody` | app/lambda_handler.py:18-33 | the parser is consulted only for a non-empty string body that passed the base64 guard. In every other case, changing the parser changes nothing |
| `HandlerProperties.SubmitTwice` | app/lambda_handler.py:61-70 | the same accepted event submitted twice stores two items. They differ only in the generated id and the clock reading; type, payload and request id are the same |

## Left out

- The boto3 resource, the table lookup and the `DYNAMODB_TABLE` environment variable
  (app/lambda_handler.py:7-9) are AWS client setup. The table is an object passed in.
- DynamoDB semantics (atomicity, retries, throttling, item-size or type limits): a put either
  stores the item or raises. Whether it raises is the table's `accepting` flag, whatever the item
  is.
- Concurrency across invocations is the runtime's concern. Each call of `LambdaHandler` is one
  sequential invocation.
- The internals of `json.loads` are library code; the parser is an oracle. Exceptions from
  `json.loads` other than `JSONDecodeError` on a string, such as `RecursionError` on very deep
  nesting, are not modelled.
- `json.dumps`: responses and log lines are structured records, not serialized strings. The key
  order inside a serialized log line is not modelled.
- `print` on stdout is I/O; log lines are values appended to `Stdout.lines`.
- `uuid.uuid4()` randomness: the next id is a parameter. Uniqueness of ids is not modelled.
- `time.time()` returns a float that `int` truncates: the clock is already a whole number of
  seconds.
- JSON numbers with a fraction or an exponent (Python floats) are left out. `Json` numbers are
  integers only.
- `Json.Get`: a `Json` object may hold the same key twice, which no Python dict can. Neither the
  parser oracle nor `Handler.Event` is constrained to distinct keys. For such an object `Get`
  returns the first value, whereas `json.loads` keeps the last value for a key repeated in the
  text. Where the keys are distinct (`Json.DistinctKeys`), `Get` and `dict.get` agree
  (`Json.GetStoredKey`).
- `Handler.Event`: the event is the runtime's dict of JSON values. An event that is not a dict,
  where `event.get` itself would raise, is not modelled.
