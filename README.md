# A verified model of opik's message sender

The Python SDK of opik sends what its instrumentation records (spans,
traces, their updates, feedback scores and guardrail results) to the
backend through `MessageSender` in
`sdks/python/src/opik/message_processing/message_processors.py`.
`process(message)` looks up a handler by the message's exact runtime type
in a table of nine kinds. An unknown type is logged at debug level and
dropped. The create and update handlers send the payload with its `None`
fields removed, then encoded, in one REST call. The span and trace batch
handlers clean and encode every item the same way, build one request model
per item, hand the models to `split_into_batches` with a 50 MB limit and
make one REST call per chunk it returns. Score and guardrail batches are
built into request models as they are and go out in one call. Everything a handler
raises is caught: an `ApiError` with status 409 (a duplicate) is swallowed
silently. Any other error is logged once, with a fingerprint
`[message type, exception type, (status code)]`.

The model is in Dafny:

- `messages.dfy`: payload values and dictionaries, the ten message variants (nine classes, plus `OtherMessage` for every other runtime type), their kind and type name.
- `rest_api.dfy`: the client operations, calls, request model schemas, failures and outcomes. `RestClient` is a class with a `calls` trace that every call is appended to. The backend's answer is an injected function of the call's position in the trace and of the call.
- `dict_utils.dfy`: `remove_none_from_dict`.
- `decimal.dfy`: Python's `str` of an `int`, with its inverse, so that status codes in fingerprints can be compared.
- `sequence_splitter.dfy`: only the contract the sender relies on from `split_into_batches`. It is an explicit hypothesis (`SplitterContract`): the chunks concatenate back to the items, and no items give no chunks. The splitting algorithm itself is not modelled.
- `message_processors.dfy`: the `MessageSender` class, with its handler table, the diagnostics `log` and one method per handler. Each method is proved to follow a function that describes its effect: `Handle` for a handler, `ProcessEffect` for `process`.
- `message_processors_properties.dfy`: the properties of those functions.

The JSON encoder `encode`, `split_into_batches` and pydantic's model
construction are parameters of the model. They are gathered in
`Collaborators`, which the constructor takes beside the REST client.
Construction returns `None` where pydantic raises a `ValidationError`.
Where a property depends on `encode`, it assumes `EncoderKeepsFields`:
encoding keeps the field names and introduces no `None`.

Dispatch is by exact type (`type(message)` as the table key), so an
instance of a subclass of one of the nine classes is an unknown message
(`OtherMessage`). A handler's failures are contained only when they are
`Exception`s; see "Left out".

## Model

| member | source | states |
|---|---|---|
| `DictUtils.RemoveNone` | sdks/python/src/opik/message_processing/message_processors.py:92-94 | the cleaned dict has exactly the keys whose value is not `None`, with their values unchanged, and holds no `None` |
| `Messages.Message.Kind` | sdks/python/src/opik/message_processing/message_processors.py:50 | the kind of a message is the lookup key `type(message)`: one of the nine classes, or, for any other runtime type, that type |
| `Messages.Message.TypeName` | sdks/python/src/opik/message_processing/message_processors.py:53 | `type(message).__name__`: for any other runtime type its own name; for the nine classes a non-empty class name |
| `Messages.TypeNameIdentifiesKnownClass` | sdks/python/src/opik/message_processing/message_processors.py:224 | two messages of the nine classes have the same type name in the fingerprint exactly when they are of the same class |
| `Decimal.DecimalString` | sdks/python/src/opik/message_processing/message_processors.py:227 | `str(status_code)`: non-empty, a leading `-` exactly for a negative code, every other character a decimal digit |
| `Decimal.NatString` | sdks/python/src/opik/message_processing/message_processors.py:227 | the decimal rendering of a natural number is a non-empty string of digits, a single digit exactly for numbers below ten |
| `Decimal.ParseNatString` | sdks/python/src/opik/message_processing/message_processors.py:227 | parsing the digits of a natural number gives the number back |
| `Decimal.ParseDecimalString` | sdks/python/src/opik/message_processing/message_processors.py:227 | `str(status_code)` can be parsed back to the status code, negative codes included |
| `Decimal.DecimalStringInjective` | sdks/python/src/opik/message_processing/message_processors.py:227 | different status codes render as different strings |
| `MessageProcessors.NormalizeAll` | sdks/python/src/opik/message_processing/message_processors.py:168-173 | one normalised dict per batch item, in order: `encode(remove_none_from_dict(item.as_payload_dict()))` |
| `MessageProcessors.BuildModels` | sdks/python/src/opik/message_processing/message_processors.py:136-139 | building the request models succeeds exactly when every item validates; the result then has one model per item, in order. Also the lists at lines 151-154, 168-174, 191-197 and 214-216 |
| `MessageProcessors.ListCalls` | sdks/python/src/opik/message_processing/message_processors.py:181-183 | one list call per chunk to the same operation, in chunk order |
| `MessageProcessors.SendAllAfterSuccesses` | sdks/python/src/opik/message_processing/message_processors.py:181-184 | after `i` successful calls, the run continues with the remaining calls from position `i` |
| `MessageProcessors.ErrorFingerprint` | sdks/python/src/opik/message_processing/message_processors.py:221-231 | the fingerprint starts with the message type name and the exception type name; it has a third element, `str(status_code)`, exactly when the exception is an `ApiError`, and otherwise has length 2 |
| `MessageProcessors.Report` | sdks/python/src/opik/message_processing/message_processors.py:56-88 | the outcome of a handler logs nothing exactly when it succeeded or raised an `ApiError` with status 409; otherwise exactly one error entry with the message's type name and the error fingerprint |
| `MessageProcessors.ProcessEffect` | sdks/python/src/opik/message_processing/message_processors.py:49-88 | an unknown type makes no call and logs one debug entry with its name; a known type makes exactly the calls of its handler; at most one entry is logged, at debug level exactly for an unknown type |
| `MessageProcessors.MessageSender.constructor` | sdks/python/src/opik/message_processing/message_processors.py:34-47 | keeps the REST client; the handler table is the nine-entry `HANDLERS`; the log starts empty |
| `MessageProcessors.MessageSender.Process` | sdks/python/src/opik/message_processing/message_processors.py:49-88 | the calls made and the entries logged are exactly `ProcessEffect`. An unknown type gets a debug entry. A handler's calls always stay in the trace. A 409 is not logged; any other failure is logged once with its fingerprint. Nothing escapes |
| `MessageProcessors.MessageSender.SendKeywords` | sdks/python/src/opik/message_processing/message_processors.py:97 | one keyword call; the call is recorded and its outcome returned |
| `MessageProcessors.MessageSender.ProcessCreateSpanMessage` | sdks/python/src/opik/message_processing/message_processors.py:90-97 | one `spans.create_span` call with the cleaned, encoded payload, as `Handle` says |
| `MessageProcessors.MessageSender.ProcessCreateTraceMessage` | sdks/python/src/opik/message_processing/message_processors.py:99-108 | one `traces.create_trace` call with the cleaned, encoded payload |
| `MessageProcessors.MessageSender.ProcessUpdateSpanMessage` | sdks/python/src/opik/message_processing/message_processors.py:110-118 | one `spans.update_span` call with the cleaned, encoded payload |
| `MessageProcessors.MessageSender.ProcessUpdateTraceMessage` | sdks/python/src/opik/message_processing/message_processors.py:120-131 | one `traces.update_trace` call with the cleaned, encoded payload |
| `MessageProcessors.MessageSender.SendModels` | sdks/python/src/opik/message_processing/message_processors.py:143-145 | a failed build calls nothing and fails with `ValidationError`; otherwise one list call with all the models |
| `MessageProcessors.MessageSender.ProcessAddSpanFeedbackScoresBatchMessage` | sdks/python/src/opik/message_processing/message_processors.py:133-146 | builds every score model, then one `spans.score_batch_of_spans` call |
| `MessageProcessors.MessageSender.ProcessAddTraceFeedbackScoresBatchMessage` | sdks/python/src/opik/message_processing/message_processors.py:148-161 | builds every score model, then one `traces.score_batch_of_traces` call |
| `MessageProcessors.MessageSender.BuildList` | sdks/python/src/opik/message_processing/message_processors.py:166-174 | the loop that builds the models appends one model per item, in order, and stops at the first item that fails validation: its result is `BuildModels`. Also the loops at lines 189-197 and 212-216 |
| `MessageProcessors.MessageSender.SendChunks` | sdks/python/src/opik/message_processing/message_processors.py:181-184 | one call per chunk, in order, ending at the first call that raises; the trace grows by exactly the calls `SendAll` issues |
| `MessageProcessors.MessageSender.ProcessCreateSpanBatchMessage` | sdks/python/src/opik/message_processing/message_processors.py:163-184 | builds all span models first, then splits them at 50 MB and sends the chunks |
| `MessageProcessors.MessageSender.ProcessCreateTraceBatchMessage` | sdks/python/src/opik/message_processing/message_processors.py:186-207 | builds all trace models first, then splits them at 50 MB and sends the chunks |
| `MessageProcessors.MessageSender.ProcessGuardrailBatchMessage` | sdks/python/src/opik/message_processing/message_processors.py:209-218 | builds every guardrail model in a loop, then one `guardrails.create_guardrails` call |
| `RestApi.RestClient.Send` | sdks/python/src/opik/message_processing/message_processors.py:183 | a REST call is appended to the trace whether it succeeds or raises; its outcome is the backend's answer at that position |
| `MessageProcessorsProperties.SendAllIssuesPrefix` | sdks/python/src/opik/message_processing/message_processors.py:181-184 | the calls issued are a prefix of the chunk calls. The run stops short only at a call that raised, whose error becomes the handler's. Every earlier call succeeded. This is `SendAll`, the `for` loop over chunks; also lines 204-207 |
| `MessageProcessorsProperties.SendAllStopsAtFirstFailure` | sdks/python/src/opik/message_processing/message_processors.py:181-184 | if call `k` is the first to raise, exactly calls `0..k` are issued and its error is the outcome. This is `SendAll`, the `for` loop over chunks; also lines 204-207 |
| `MessageProcessorsProperties.SendAllDeliversEverything` | sdks/python/src/opik/message_processing/message_processors.py:181-184 | if no call raises, every call is issued, in order, and the handler succeeds. This is `SendAll`, the `for` loop over chunks; also lines 204-207 |
| `MessageProcessorsProperties.SentItemsOfListCalls` | sdks/python/src/opik/message_processing/message_processors.py:181-183 | the models carried by the per-chunk calls, in order, are the chunks concatenated |
| `MessageProcessorsProperties.HandlerTableCoversTheNineKinds` | sdks/python/src/opik/message_processing/message_processors.py:37-47 | the table `HANDLERS` has an entry exactly for the nine message classes, and each class maps to its own handler |
| `MessageProcessorsProperties.HandlerCallsItsOwnEndpoint` | sdks/python/src/opik/message_processing/message_processors.py:90-218 | every call a handler makes goes to its own client operation (`EndpointOf`: lines 97, 108, 118, 130, 143, 158, 183, 206, 218); the create and update handlers make keyword calls, the batches list calls; only span and trace batches make more than one call; a handler that makes no call either rejected an item (`ValidationError`) or, under the splitter's contract, had an empty span or trace batch and succeeded |
| `MessageProcessorsProperties.UnknownMessageIsDropped` | sdks/python/src/opik/message_processing/message_processors.py:50-54 | a message of an unknown type makes no call and leaves one debug entry and no error entry |
| `MessageProcessorsProperties.SuccessIsNotLogged` | sdks/python/src/opik/message_processing/message_processors.py:56-57 | a handler that succeeds leaves its calls and no log entry |
| `MessageProcessorsProperties.ConflictIsSwallowed` | sdks/python/src/opik/message_processing/message_processors.py:58-62 | an `ApiError` with status 409 leaves the calls made and no log entry (so no fingerprint) |
| `MessageProcessorsProperties.OtherFailuresAreLoggedOnce` | sdks/python/src/opik/message_processing/message_processors.py:58-88 | any other `ApiError`, a `ValidationError` or any other exception is caught: the calls made stay and exactly one error entry with the message's type name and the fingerprint is logged |
| `MessageProcessorsProperties.FingerprintIdentifiesItsTriple` | sdks/python/src/opik/message_processing/message_processors.py:221-231 | two fingerprints are equal if and only if the message type names, the exception type names and, for `ApiError`, the status codes agree |
| `MessageProcessorsProperties.StatusCodesSeparateFingerprints` | sdks/python/src/opik/message_processing/message_processors.py:226-227 | the same error class with different status codes gives different fingerprints |
| `MessageProcessorsProperties.SingleEntityMakesOneCall` | sdks/python/src/opik/message_processing/message_processors.py:90-130 | a create or update message makes exactly one call, to its own operation, with `encode(remove_none_from_dict(payload))`; its outcome is the handler's |
| `MessageProcessorsProperties.SingleEntityOmitsNoneFields` | sdks/python/src/opik/message_processing/message_processors.py:90-130 | if the encoder keeps field names, the keyword arguments are exactly the payload's fields that are not `None`, and none is `None` |
| `MessageProcessorsProperties.TraceWithOneNoneFieldSendsFourFields` | sdks/python/src/opik/message_processing/message_processors.py:99-108 | a trace with five fields, one of them `None`, is created with four fields, none `None` |
| `MessageProcessorsProperties.InvalidBatchItemSendsNothing` | sdks/python/src/opik/message_processing/message_processors.py:166-179 | building fails exactly when some item fails validation; then no call at all is made and the handler raises `ValidationError` (all batch kinds) |
| `MessageProcessorsProperties.SplitBatchDeliversItemsInOrder` | sdks/python/src/opik/message_processing/message_processors.py:163-207 | assuming the splitter's contract: one model per normalised item, in order. The calls issued are a prefix of one call per chunk. When none raises, every chunk is sent and the models sent, concatenated, are exactly the normalised items |
| `MessageProcessorsProperties.SplitBatchStopsAtFailedChunk` | sdks/python/src/opik/message_processing/message_processors.py:181-184 | if the call for chunk `k` raises, no later chunk is sent and the calls for chunks `0..k` stay in the trace |
| `MessageProcessorsProperties.EmptySplitBatchSendsNothing` | sdks/python/src/opik/message_processing/message_processors.py:176-184 | assuming the splitter's contract, an empty span or trace batch makes no call and succeeds |
| `MessageProcessorsProperties.UnsplitBatchMakesOneCall` | sdks/python/src/opik/message_processing/message_processors.py:133-161 | a score or guardrail batch makes exactly one call, unsplit, whose list has one model per item of the batch, in the batch's order. Also lines 209-218 |

## Left out

- `encode`: the JSON encoder is not part of this model. It is a parameter. Where a property needs it, it assumes `EncoderKeepsFields` (names kept, no `None` introduced).
- `split_into_batches`: the splitting algorithm and its size estimate are not part of this model. The splitter is a parameter, and `SplitterContract` is an assumption, not a proved fact. So the size bounds of chunks, and the 120-items-of-1-MB example, are not stated.
- Pydantic validation rules: model construction is a parameter. A `ValidationError` raised while building a model is its `None`.
- `as_payload_dict()` and `__dict__`: a message carries the dictionaries they return, so the batch items are dictionaries, not message objects. `encode`, `as_payload_dict`, `remove_none_from_dict` and `split_into_batches` are taken never to raise. In Python an exception from any of them would be caught by the last `except Exception` clause (line 80) and logged once like any other failure.
- REST transport: the generated client and the network are reduced to the injected `respond` function. `ValidationError`, `ApiError` and other exceptions raised inside a client call are its outcomes.
- Logging: only (severity, message type name, fingerprint) entries are modelled. Left out are the log text, `str(exception)`, the validation detail, `exc_info`, and the handlers' own debug lines (request echoes and batch sizes, lines 96, 107, 117, 129, 131, 141, 146, 156, 161, 182, 184, 205, 207).
- `MessageSender.Process`: it contains `Exception` and its subclasses. A `BaseException` that is not an `Exception` (such as `KeyboardInterrupt`) propagates in Python. Dafny has no exceptions, so that case is not modelled.
- Ordering between the two effects: the call trace and the log are separate sequences, so their interleaving is not recorded.
- `BaseMessageProcessor` (lines 27-30) is an abstract interface with no behaviour.
- `AutomationRuleEvaluatorLlmAsJudge.java` and `rest_api/types/function.py` are data classes with no behaviour of their own.
- Upstream queueing, retries and concurrency happen outside `MessageSender`.
