# eigenlake client core, modelled in Dafny

This project models the parts of the eigenlake Python client that have
real control flow or data-shaping rules, and proves what they promise.

- **Transport** (`transport.py`, with the error classes of `errors.py` as the
  datatype `ErrorKind`):
  - the constructor's URL trimming, retry coercion and `X-API-Key` header;
  - the status-to-error table of `_raise_for_status`;
  - the three-step fallback of `_detail`;
  - the bounded retry loop of `request`, and the five verb wrappers.

  The `httpx` client is an oracle, the sequence of outcomes that successive
  attempts meet. Each `time.sleep` becomes an integer delay in milliseconds
  that the request reports. `Transport.Request` is a `for` loop proved equal
  to the reference behaviour `Expected`. The retry properties are lemmas
  about `Expected`.
- **Batched ingestion** (`client.py`):
  - `_SizedBatchWriter` is the class `SizedBatchWriter`, with fields for the
    buffer, the failure list and the error count;
  - `IndexBatch` is the class of the same name;
  - the pieces of `add_many` the writer relies on are pure functions:
    record normalisation, the "objects" payload, and the mapping of
    "failed_objects" to `FailedRecord`s.

  The bulk-insert call is an oracle outcome, either the parsed reply or the
  message of the exception it raised. `uuid4()` is a fresh id that the
  caller passes in. The writer also logs the calls it makes in a field
  `insertCalls`, so that contracts can say what each flush submitted.
- **Schema declaration** (`schema.py`):
  - `Field` and its JSON-Schema form;
  - the seven field factories;
  - `SchemaBuilder`, whose insertion-ordered name→field dictionary is a
    sequence of pairs with distinct names.

  A JSON object is an ordered sequence of entries. `ToJsonSchema` is the
  method that inserts keys one by one, as `to_json_schema` does. It is
  proved equal to the specification `JsonSchema`, whose lookups are proved
  key by key.
- **API-key credentials** (`classes/init.py`): `Auth.api_key` as the
  function `ApiKey`, which returns the credential or the `ValueError`
  message.

Python's `str.strip()`, `upper()` and `str(n)` are modelled in the module
`Text`. `Strip` removes exactly the characters for which `str.isspace()`
holds. `rstrip("/")` is `Transport.TrimTrailingSlashes`, built on the
backward scan `Text.ScanBackward`.

When the flush that `add` triggers fails under the `raise` policy, the
exception escapes from `add` (`client.py` lines 366-368) and no id is
returned; `SizedBatchWriter.Add` then returns `Err(message)`.

## Model

| member | source | states |
|---|---|---|
| Auth.ApiKey | src/eigenlake/classes/init.py:11-17 | rejected with "API key cannot be empty" iff the value is missing or all whitespace; otherwise the key is the stripped value, non-empty, with no whitespace at either end |
| Auth.ApiKeyIdempotent | src/eigenlake/classes/init.py:14-17 | validating an accepted key again yields the same credential |
| Text.OrEmpty | src/eigenlake/classes/init.py:14 | `value or ""`: a present string is kept as is, and the result is empty iff the value is missing or empty |
| Text.Strip | src/eigenlake/classes/init.py:14 | the result is a contiguous slice of the input; everything cut off is whitespace; no whitespace remains at either end |
| Text.StripEmptyIff | src/eigenlake/transport.py:30-31 | stripping leaves nothing iff the string is all whitespace |
| Text.StripIdempotent | src/eigenlake/classes/init.py:14 | stripping twice is stripping once |
| Text.Upper | src/eigenlake/transport.py:69 | same length; each lower-case ASCII letter becomes the upper-case letter at the same alphabet position; no lower-case ASCII letter remains; every other character is kept |
| Text.Decimal | src/eigenlake/transport.py:44 | `str(n)` is a non-empty string of digits with no leading zero |
| Text.DecimalRoundTrip | src/eigenlake/transport.py:44 | the digits of `str(n)` read back as `n` |
| Transport.TrimTrailingSlashes | src/eigenlake/transport.py:20 | the result is a prefix of the URL; only slashes were removed; it does not end in a slash |
| Transport.EffectiveRetries | src/eigenlake/transport.py:21 | the retry budget is `max(0, retries)` |
| Transport.AuthHeaders | src/eigenlake/transport.py:29-33 | no header iff the key is missing or blank; otherwise exactly `{"X-API-Key": stripped key}`, non-empty and trimmed |
| Transport.AuthHeadersAgreeWithApiKey | src/eigenlake/transport.py:29-33 | the transport sends a key exactly when `Auth.api_key` accepts it, and sends the key it would keep |
| Transport.NormalizePath | src/eigenlake/transport.py:64 | the path starts with `/`; it is the input with at most one `/` prepended; a path already starting with `/` is unchanged |
| Transport.Detail | src/eigenlake/transport.py:36-44 | the JSON "detail" if present and non-null, else the stripped text if non-empty, else "HTTP " + status; empty only when "detail" itself is empty |
| Transport.DetailNamesStatus | src/eigenlake/transport.py:44 | the fallback detail is "HTTP " followed by digits that read back as the status code |
| Transport.KindOf | src/eigenlake/transport.py:53-61 | 401/403 → AuthenticationError, 404 → NotFoundError, 409 → ConflictError, 400/422 → ValidationError, each as an iff; every other code → APIError; never NetworkError |
| Transport.RaiseForStatus | src/eigenlake/transport.py:46-61 | passes the response through iff its status is 2xx; otherwise an error of the status's kind carrying `Detail` |
| Transport.Transient | src/eigenlake/transport.py:70-79 | an outcome that is not retried is a response with status below 500 |
| Transport.TransientResponseIsApiError | src/eigenlake/transport.py:53-61 | a retried (5xx) response is not a success, and `_raise_for_status` reports it as a plain `APIError` carrying its detail |
| Transport.Conclude | src/eigenlake/transport.py:70-82 | an attempt that is not retried ends in success iff it is a 2xx response; a network failure becomes NetworkError with its message |
| Transport.Delays | src/eigenlake/transport.py:74-78 | the k-th pause is 200·(k+1) ms, and the pauses strictly increase |
| Transport.LastAttempt | src/eigenlake/transport.py:67-82 | the attempt that ends a request is within the budget; every earlier one was transient; it is non-transient unless it is the last allowed |
| Transport.LastAttemptIs | src/eigenlake/transport.py:67-82 | the ending attempt is unique: any attempt preceded only by transient outcomes that is last or non-transient is it |
| Transport.Expected | src/eigenlake/transport.py:63-86 | between 1 and retries+1 attempts, all sending the same call; pauses 200·(k+1) after each retried attempt; every retried attempt was transient; the result is how the final attempt concludes |
| Transport.ExpectedStopsOnlyWhenFinal | src/eigenlake/transport.py:70-82 | a request that ends before its last allowed attempt ends on an attempt that is not transient |
| Transport.NonTransientIsFinal | src/eigenlake/transport.py:77-82 | a response below 500 ends the request on the attempt where it arrives, classified by `_raise_for_status` |
| Transport.ExhaustedRetries | src/eigenlake/transport.py:70-81 | when every attempt is transient, all retries+1 are made with retries pauses; the last network failure surfaces as NetworkError, the last 5xx as APIError |
| Transport.NetworkErrorOnlyWhenExhausted | src/eigenlake/transport.py:70-75 | a NetworkError means the budget was used up and the last attempt failed at the network level, whose message it carries |
| Transport.Transport.constructor | src/eigenlake/transport.py:12-26 | the stored URL, retry budget and headers are the trimmed URL, `max(0, retries)` and `AuthHeaders`; `retries` defaults to 2 |
| Transport.Transport.Request | src/eigenlake/transport.py:63-86 | the loop's result, requests sent and pauses are those of `Expected` for the upper-cased verb and the normalised path, so the fallback after the loop is unreachable |
| Transport.Transport.Get | src/eigenlake/transport.py:88-89 | a request with verb "GET" |
| Transport.Transport.Post | src/eigenlake/transport.py:91-92 | a request with verb "POST" |
| Transport.Transport.Delete | src/eigenlake/transport.py:94-95 | a request with verb "DELETE" |
| Transport.Transport.Patch | src/eigenlake/transport.py:97-98 | a request with verb "PATCH" |
| Transport.Transport.Put | src/eigenlake/transport.py:100-101 | a request with verb "PUT" |
| Batch.AddManyResult.NumberErrors | src/eigenlake/client.py:30-32 | `number_errors` is the number of failed records, and zero iff there are none |
| Batch.RecordDict | src/eigenlake/client.py:359-365 | the buffered dictionary has exactly the keys "properties", "vector" and "id", holding the record's properties, vector and id |
| Batch.ToFailedRecords | src/eigenlake/client.py:91-94 | one failure per "failed_objects" entry, in order, with a missing uuid or error read as "" |
| Batch.AddManyResultOf | src/eigenlake/client.py:91-95 | the ids are "uuids" (none if absent); the failures are the mapped "failed_objects"; `number_errors` is their count |
| Batch.NormalizeRecord | src/eigenlake/client.py:61-65 | "id" is renamed "uuid" with its value; other keys are untouched; a record without "id" is returned unchanged |
| Batch.Objects | src/eigenlake/client.py:84 | each buffered record is sent as exactly "properties", "vector" and "uuid" = its id, in payload order |
| Batch.AtLeastOne | src/eigenlake/client.py:335-336 | the coerced size is at least 1, and equals the given size when that is at least 1 |
| Batch.AssignedId | src/eigenlake/client.py:358 | the caller's id when given, else the fresh id |
| Batch.FailuresFor | src/eigenlake/client.py:388-391 | one failure per payload record, in order, with the record's id and the exception's message |
| Batch.FlushFailures | src/eigenlake/client.py:377-391 | a reply contributes its mapped failures; a raised call contributes one failure per record with the message |
| Batch.FlushRaise | src/eigenlake/client.py:387-393 | a flush lets an exception escape iff the call raised and the policy is `raise`, and then it is the call's exception |
| Batch.IndexBatch.constructor | src/eigenlake/client.py:306-308 | a new manager has no failures |
| Batch.IndexBatch.WithSize | src/eigenlake/client.py:310-322 | a fresh, empty, valid writer reporting to this manager, with sizes coerced to at least 1; the defaults are batch size 200, one worker and `continue` |
| Batch.SizedBatchWriter.CallFor | src/eigenlake/client.py:378-384 | a flush sends the payload's objects with `on_duplicate="error"`, `on_error="continue"` and the writer's sizes |
| Batch.SizedBatchWriter.constructor | src/eigenlake/client.py:326-341 | sizes coerced to at least 1; buffer, failures and error count start empty; the invariant holds |
| Batch.SizedBatchWriter.Enter | src/eigenlake/client.py:343-344 | entering the scope yields the writer itself |
| Batch.SizedBatchWriter.Flush | src/eigenlake/client.py:370-393 | an empty buffer changes nothing and makes no call; otherwise exactly the prior buffer is submitted in one call, the buffer is empty even if the call fails, the failures grow by exactly what the flush yields, the error count tracks the failure list, and the exception escapes iff the policy is `raise` |
| Batch.SizedBatchWriter.Add | src/eigenlake/client.py:351-368 | the record carries the caller's or the fresh id; below a full batch it is only buffered; at a full batch the buffer including it is flushed and emptied; the id is returned unless the flush's exception escapes; the buffer stays below the batch size |
| Batch.SizedBatchWriter.Exit | src/eigenlake/client.py:346-349 | the final flush runs; if it raises, the manager is not updated and that exception escapes; otherwise the manager receives the writer's failure list and the body's own exception, if any, is not suppressed |
| Batch.TwoBatches | src/eigenlake/client.py:325-393 | batch size 2 with three records: exactly two calls, carrying [A, B] and then [C], and the manager ends with both replies' failures in order |
| Schema.JsonSchema | src/eigenlake/schema.py:25-51 | under each key the schema holds the field's value exactly when its attribute is set; every key is one of the thirteen schema keys and none appears twice; "required" and "filterable" never appear |
| Schema.FillKeys | src/eigenlake/schema.py:25-51 | inserting keys one by one emits only the keys considered so far, and none twice when they are distinct |
| Schema.ToJsonSchema | src/eigenlake/schema.py:25-51 | the object built by conditional inserts equals `JsonSchema` |
| Schema.JsonSchemaKeys | src/eigenlake/schema.py:25-51 | key by key: "type" is always the field type; format, description, enum, minimum, maximum, minLength, maxLength, pattern, items, minItems and maxItems appear iff set; "uniqueItems" appears only as `true` and only when set |
| Schema.StringField | src/eigenlake/schema.py:54-75 | field type "string"; format, description, enum, lengths and pattern as given; no numeric or array attributes; by default not required, filterable, every optional attribute unset |
| Schema.IntegerField | src/eigenlake/schema.py:78-93 | field type "integer" with the integer bounds given; nothing else set |
| Schema.NumberField | src/eigenlake/schema.py:96-111 | field type "number" with the bounds given; nothing else set |
| Schema.BooleanField | src/eigenlake/schema.py:114-125 | field type "boolean"; nothing but the flags and the description |
| Schema.ArrayField | src/eigenlake/schema.py:128-151 | field type "array"; items is the item field's schema, or the given schema; item counts and uniqueness as given (uniqueness off by default) |
| Schema.DateTimeField | src/eigenlake/schema.py:154-165 | a "string" field with format "date-time" |
| Schema.DateField | src/eigenlake/schema.py:168-179 | a "string" field with format "date" |
| Schema.DateSchemas | src/eigenlake/schema.py:154-179 | the date and date-time schemas have type "string" and their fixed format, and no enum or pattern |
| Schema.ArrayOfFieldSchema | src/eigenlake/schema.py:138-147 | an array of fields nests the element field's own schema under "items" |
| Schema.Upsert | src/eigenlake/schema.py:188 | a new name is appended last; an existing name keeps its position with the new field, and every other entry stays as it was; names stay distinct |
| Schema.NamesWhere | src/eigenlake/schema.py:193-194 | the list is no longer than the fields, and each listed name is a field name |
| Schema.NamesWhereAppend | src/eigenlake/schema.py:193-194 | the names of two field lists laid end to end are the first list's names followed by the second's, so the filter keeps insertion order |
| Schema.NamesWhereOne | src/eigenlake/schema.py:193-194 | a single field's name is listed iff the field passes the test |
| Schema.NamesWhereDistinct | src/eigenlake/schema.py:193-194 | with distinct field names, no name is listed twice |
| Schema.NamesWhereMembers | src/eigenlake/schema.py:193-194 | a name is listed iff some field under it passes the test; the list is empty iff no field passes |
| Schema.PropertyEntries | src/eigenlake/schema.py:192 | "properties" has the field names as keys, in insertion order, each with its field's schema |
| Schema.SchemaBuilder.constructor | src/eigenlake/schema.py:183-185 | an empty builder with the given `additionalProperties` flag, false by default |
| Schema.SchemaBuilder.Add | src/eigenlake/schema.py:187-189 | returns the same builder; its fields become `Upsert` of the old fields, so names stay unique |
| Schema.SchemaBuilder.Build | src/eigenlake/schema.py:191-209 | the schema's keys are exactly "type", "additionalProperties", "properties" and then "required" iff some field is required; it has type "object", the flag and the properties; "required" is present iff some field is required and then lists the required names in order; the index options list the non-filterable names in order |

## Left out

- The `httpx` client, the float timeout, `close()` and `time.sleep`: network I/O and wall-clock behaviour. They are replaced by the outcome oracle and the list of delays.
- Transport.Transport.Request: the oracle must supply at least `retries + 1` outcomes; the loop never consults more.
- Transport.Transport.Request: the request's keyword arguments (`json=`, `params=`) and the joining of the base URL with the path are done by `httpx`, so `Call` holds only the verb and the normalised path.
- Text.Upper: only ASCII letters are upper-cased, which covers the HTTP verbs the wrappers pass. It does not model the full Unicode mapping of `str.upper()`.
- Text.OrEmpty: `value or ""` also maps non-string falsy values to "". Only `None` and strings are modelled.
- Batch.NormalizeRecord: a map has no key order, so the dictionary's insertion order is not modelled.
- Transport.Transport.Request: `request` catches only `httpx.RequestError`, which is what `NetErr` stands for. Any other exception from the client call (a body that cannot be serialised, `httpx.InvalidURL`) leaves `request` at once, with no retry and no wrapping as `NetworkError`. Such exceptions are not modelled.
- Batch.SizedBatchWriter.Add: `add` buffers the caller's own `properties` and `vector` objects, and `_normalize_record` copies the dictionary only shallowly, so changes the caller makes to them before the flush are what gets sent. `Record` holds values, so this aliasing is not modelled.
- `max_workers` is passed through to the server only as a hint. Nothing in the client runs concurrently.
- `uuid4()` randomness is a fresh id supplied by the caller; its uniqueness is not modelled.
- Schema numeric bounds (`int | float`) are opaque values. No floating-point arithmetic is involved.
- The one-to-one request wrappers of `client.py` (`IndexRecords`, `IndexSearch`, `IndexSettings`, `IndexManage`, `IndexesNamespace`, `EigenLakeClient`) build one payload and make one transport call.
- `IndexSearch.iterate`: network-driven pagination.
- `_q` and `_index_path`: they wrap `urllib.parse.quote`. `urllib` is not part of this model.
- The `connect_*` helpers of `__init__.py` are trivial wrappers. They refer to a `Client` class that `client.py` does not define.
