/**
 `MessageSender`: looks up the handler for a message's runtime type,
 runs it inside a failure boundary that classifies what it raises, and
 leaves two observable effects: the calls made on the REST client and
 the diagnostics logged. The functions before the class say, as values,
 what a handler does and what `process` logs; the class's methods are
 proved to do exactly that.
 */
module MessageProcessors {

  import opened Wrappers
  import opened Messages
  import opened RestApi
  import opened DictUtils
  import opened Decimal
  import opened SequenceSplitter

  /** Size limit, in MB, handed to the splitter for span and trace batches. */
  const BATCH_MEMORY_LIMIT_MB: nat := 50

  /** The status code of a duplicate that the backend rejects. */
  const CONFLICT_STATUS: int := 409

  /**
   Code the sender calls but that is not part of this model: the JSON
   encoder `encode`, `split_into_batches`, and the construction of a
   request model with `Schema(**kwargs)` (`None` when pydantic raises a
   `ValidationError`).
   */
  datatype Collaborators = Collaborators(
    encode: Dict -> Dict,
    split: (seq<Dict>, nat) -> seq<seq<Dict>>,
    construct: (Schema, Dict) -> Option<Dict>)

  /** The assumed contract of `encode`: it keeps the field names and introduces no `None`. */
  ghost predicate EncoderKeepsFields(encode: Dict -> Dict) {
    forall d :: encode(d).Keys == d.Keys && (NoNulls(d) ==> NoNulls(encode(d)))
  }

  /** The nine `_process_*` handlers. */
  datatype Handler =
    | CreateSpanHandler
    | CreateTraceHandler
    | UpdateSpanHandler
    | UpdateTraceHandler
    | AddTraceFeedbackScoresBatchHandler
    | AddSpanFeedbackScoresBatchHandler
    | CreateSpanBatchHandler
    | CreateTraceBatchHandler
    | GuardrailBatchHandler

  /** The handler table built by `__init__`. */
  const HANDLERS: map<MessageKind, Handler> := map[
    CreateSpanKind := CreateSpanHandler,
    CreateTraceKind := CreateTraceHandler,
    UpdateSpanKind := UpdateSpanHandler,
    UpdateTraceKind := UpdateTraceHandler,
    AddTraceFeedbackScoresBatchKind := AddTraceFeedbackScoresBatchHandler,
    AddSpanFeedbackScoresBatchKind := AddSpanFeedbackScoresBatchHandler,
    CreateSpansBatchKind := CreateSpanBatchHandler,
    CreateTraceBatchKind := CreateTraceBatchHandler,
    GuardrailBatchKind := GuardrailBatchHandler]

  datatype Severity = Debug | Error

  /** A diagnostic: its severity, the message's type name and the error fingerprint. */
  datatype LogEntry = LogEntry(severity: Severity, messageType: string, fingerprint: seq<string>)

  /** The calls a handler makes, in order, and how it ends. */
  datatype Run = Run(calls: seq<Call>, outcome: Outcome)

  /** Everything one `process` call does: the calls made and the entries logged. */
  datatype Effect = Effect(calls: seq<Call>, log: seq<LogEntry>)

  /** `encode(remove_none_from_dict(payload))` */
  function Normalize(encode: Dict -> Dict, payload: Dict): Dict {
    encode(RemoveNone(payload))
  }

  function NormalizeAll(encode: Dict -> Dict, items: seq<Dict>): (r: seq<Dict>)
    ensures |r| == |items|
    ensures forall i :: 0 <= i < |items| ==> r[i] == Normalize(encode, items[i])
  {
    seq(|items|, i requires 0 <= i < |items| => Normalize(encode, items[i]))
  }

  /**
   Builds one request model per dictionary, in order, stopping at the
   first that fails validation; `None` stands for the `ValidationError`.
   */
  function BuildModels(construct: (Schema, Dict) -> Option<Dict>, schema: Schema, dicts: seq<Dict>): (r: Option<seq<Dict>>)
    ensures r.Some? <==> forall i :: 0 <= i < |dicts| ==> construct(schema, dicts[i]).Some?
    ensures r.Some? ==> |r.value| == |dicts|
    ensures r.Some? ==> forall i :: 0 <= i < |dicts| ==> construct(schema, dicts[i]) == Some(r.value[i])
  {
    if dicts == [] then Some([])
    else match construct(schema, dicts[0])
      case None => None
      case Some(model) =>
        match BuildModels(construct, schema, dicts[1..])
        case None => None
        case Some(models) => Some([model] + models)
  }

  /** One list call per chunk, in chunk order. */
  function ListCalls(endpoint: Endpoint, chunks: seq<seq<Dict>>): (r: seq<Call>)
    ensures |r| == |chunks|
    ensures forall i :: 0 <= i < |chunks| ==> r[i] == ListCall(endpoint, chunks[i])
  {
    seq(|chunks|, i requires 0 <= i < |chunks| => ListCall(endpoint, chunks[i]))
  }

  /** The models carried by the list calls among `calls`, in order. */
  function SentItems(calls: seq<Call>): seq<Dict> {
    if calls == [] then []
    else (if calls[0].ListCall? then calls[0].items else []) + SentItems(calls[1..])
  }

  /** `prefix` issued successfully, followed by the run `r`. */
  function AfterPrefix(prefix: seq<Call>, r: Run): Run {
    Run(prefix + r.calls, r.outcome)
  }

  /**
   Issues `calls` in order, the first at position `start` of the client's
   trace, until one raises; the raising call is issued too and ends the run.
   */
  function SendAll(respond: (nat, Call) -> Outcome, start: nat, calls: seq<Call>): (r: Run)
    decreases |calls|
  {
    if calls == [] then Run([], Ok)
    else match respond(start, calls[0])
      case Ok => AfterPrefix([calls[0]], SendAll(respond, start + 1, calls[1..]))
      case Failed(f) => Run([calls[0]], Failed(f))
  }

  /** Unfolds `SendAll` by one call. */
  lemma SendAllStep(respond: (nat, Call) -> Outcome, start: nat, calls: seq<Call>)
    requires calls != []
    ensures SendAll(respond, start, calls) ==
      if respond(start, calls[0]).Ok? then AfterPrefix([calls[0]], SendAll(respond, start + 1, calls[1..]))
      else Run([calls[0]], respond(start, calls[0]))
  {
  }

  /** Once the first `i` calls have succeeded, the rest of the run is the run of the remaining calls. */
  lemma {:induction false} SendAllAfterSuccesses(respond: (nat, Call) -> Outcome, start: nat, calls: seq<Call>, i: nat)
    requires i <= |calls|
    requires forall j :: 0 <= j < i ==> respond(start + j, calls[j]) == Ok
    ensures SendAll(respond, start, calls) == AfterPrefix(calls[..i], SendAll(respond, start + i, calls[i..]))
    decreases i
  {
    if i == 0 {
      assert calls[..0] == [] && calls[0..] == calls;
    } else {
      SendAllStep(respond, start, calls);
      SendAllAfterSuccesses(respond, start + 1, calls[1..], i - 1);
      assert calls[1..][..i - 1] == calls[1..i] && calls[1..][i - 1..] == calls[i..];
      assert calls[..i] == [calls[0]] + calls[1..i];
    }
  }

  /** A single call is issued and its outcome is the run's. */
  lemma SendAllOne(respond: (nat, Call) -> Outcome, start: nat, call: Call)
    ensures SendAll(respond, start, [call]) == Run([call], respond(start, call))
  {
    assert [call][1..] == [];
  }

  /** Builds the models; on success sends them in one list call, without splitting. */
  function SendUnsplit(respond: (nat, Call) -> Outcome, start: nat, endpoint: Endpoint, models: Option<seq<Dict>>): Run {
    match models
    case None => Run([], Failed(ValidationError))
    case Some(ms) => SendAll(respond, start, [ListCall(endpoint, ms)])
  }

  /** Builds the models; on success splits them and sends one list call per chunk. */
  function SendSplit(env: Collaborators, respond: (nat, Call) -> Outcome, start: nat, endpoint: Endpoint, models: Option<seq<Dict>>): Run {
    match models
    case None => Run([], Failed(ValidationError))
    case Some(ms) => SendAll(respond, start, ListCalls(endpoint, env.split(ms, BATCH_MEMORY_LIMIT_MB)))
  }

  /** Create and update messages: one call with the message's own fields. */
  predicate IsSingleEntity(m: Message) {
    m.CreateSpanMessage? || m.CreateTraceMessage? || m.UpdateSpanMessage? || m.UpdateTraceMessage?
  }

  /** Span and trace batches: every item normalised, then split by size. */
  predicate IsSplitBatch(m: Message) {
    m.CreateSpansBatchMessage? || m.CreateTraceBatchMessage?
  }

  /** Score and guardrail batches: the items sent as they are, in one call. */
  predicate IsUnsplitBatch(m: Message) {
    m.AddTraceFeedbackScoresBatchMessage? || m.AddSpanFeedbackScoresBatchMessage? || m.GuardrailBatchMessage?
  }

  /** The client operation each handler calls. */
  function EndpointOf(m: Message): Endpoint
    requires !m.OtherMessage?
  {
    match m
    case CreateSpanMessage(_) => SpansCreateSpan
    case CreateTraceMessage(_) => TracesCreateTrace
    case UpdateSpanMessage(_) => SpansUpdateSpan
    case UpdateTraceMessage(_) => TracesUpdateTrace
    case AddTraceFeedbackScoresBatchMessage(_) => TracesScoreBatchOfTraces
    case AddSpanFeedbackScoresBatchMessage(_) => SpansScoreBatchOfSpans
    case CreateSpansBatchMessage(_) => SpansCreateSpans
    case CreateTraceBatchMessage(_) => TracesCreateTraces
    case GuardrailBatchMessage(_) => GuardrailsCreateGuardrails
  }

  /** The request model each batch handler builds per item. */
  function SchemaOf(m: Message): Schema
    requires IsSplitBatch(m) || IsUnsplitBatch(m)
  {
    match m
    case CreateSpansBatchMessage(_) => SpanWrite
    case CreateTraceBatchMessage(_) => TraceWrite
    case GuardrailBatchMessage(_) => Guardrail
    case AddTraceFeedbackScoresBatchMessage(_) => FeedbackScoreBatchItem
    case AddSpanFeedbackScoresBatchMessage(_) => FeedbackScoreBatchItem
  }

  /** The models a batch handler builds before it calls anything. */
  function Models(env: Collaborators, m: Message): Option<seq<Dict>>
    requires IsSplitBatch(m) || IsUnsplitBatch(m)
  {
    BuildModels(env.construct, SchemaOf(m), if IsSplitBatch(m) then NormalizeAll(env.encode, m.batch) else m.batch)
  }

  /** What the handler for a message of a known type does. */
  function Handle(env: Collaborators, respond: (nat, Call) -> Outcome, start: nat, m: Message): Run
    requires !m.OtherMessage?
  {
    if IsSingleEntity(m) then SendAll(respond, start, [KeywordCall(EndpointOf(m), Normalize(env.encode, m.payload))])
    else if IsSplitBatch(m) then SendSplit(env, respond, start, EndpointOf(m), Models(env, m))
    else SendUnsplit(respond, start, EndpointOf(m), Models(env, m))
  }

  /** `_generate_error_fingerprint(exception, message)` */
  function ErrorFingerprint(f: Failure, m: Message): (fp: seq<string>)
    ensures |fp| == if f.ApiError? then 3 else 2
    ensures fp[0] == m.TypeName() && fp[1] == f.TypeName()
    ensures f.ApiError? ==> fp[2] == DecimalString(f.statusCode)
  {
    var fingerprint := [m.TypeName(), f.TypeName()];
    if f.ApiError? then fingerprint + [DecimalString(f.statusCode)] else fingerprint
  }

  /** What the failure boundary of `process` logs for a handler's outcome. */
  function Report(m: Message, o: Outcome): (entries: seq<LogEntry>)
    ensures entries == [] <==> o.Ok? || (o.failure.ApiError? && o.failure.statusCode == CONFLICT_STATUS)
    ensures |entries| <= 1
    ensures forall i :: 0 <= i < |entries| ==>
      entries[i] == LogEntry(Error, m.TypeName(), ErrorFingerprint(o.failure, m))
  {
    match o
    case Ok => []
    case Failed(f) =>
      if f.ApiError? && f.statusCode == CONFLICT_STATUS then []
      else [LogEntry(Error, m.TypeName(), ErrorFingerprint(f, m))]
  }

  /** What `process(m)` does when the client's trace holds `start` calls. */
  function ProcessEffect(env: Collaborators, respond: (nat, Call) -> Outcome, start: nat, m: Message): (e: Effect)
    ensures m.OtherMessage? ==> e == Effect([], [LogEntry(Debug, m.TypeName(), [])])
    ensures !m.OtherMessage? ==> e.calls == Handle(env, respond, start, m).calls
    ensures |e.log| <= 1
    ensures forall i :: 0 <= i < |e.log| ==> (e.log[i].severity == Debug <==> m.OtherMessage?)
  {
    if m.Kind() !in HANDLERS then Effect([], [LogEntry(Debug, m.TypeName(), [])])
    else
      var run := Handle(env, respond, start, m);
      Effect(run.calls, Report(m, run.outcome))
  }

  class MessageSender {
    const rest: RestClient
    const env: Collaborators
    const handlers: map<MessageKind, Handler> := HANDLERS
    /** The diagnostics written to the module's logger. */
    var log: seq<LogEntry>

    constructor (restClient: RestClient, env: Collaborators)
      ensures rest == restClient && this.env == env && handlers == HANDLERS && log == []
    {
      rest := restClient;
      this.env := env;
      log := [];
    }

    /** Dispatches `m` and contains every failure its handler raises. */
    method Process(m: Message)
      modifies this, rest
      ensures rest.calls == old(rest.calls) + ProcessEffect(env, rest.respond, old(|rest.calls|), m).calls
      ensures log == old(log) + ProcessEffect(env, rest.respond, old(|rest.calls|), m).log
    {
      var kind := m.Kind();
      if kind !in handlers {
        log := log + [LogEntry(Debug, m.TypeName(), [])];
        return;
      }
      var o: Outcome;
      match handlers[kind] {
        case CreateSpanHandler => o := ProcessCreateSpanMessage(m);
        case CreateTraceHandler => o := ProcessCreateTraceMessage(m);
        case UpdateSpanHandler => o := ProcessUpdateSpanMessage(m);
        case UpdateTraceHandler => o := ProcessUpdateTraceMessage(m);
        case AddTraceFeedbackScoresBatchHandler => o := ProcessAddTraceFeedbackScoresBatchMessage(m);
        case AddSpanFeedbackScoresBatchHandler => o := ProcessAddSpanFeedbackScoresBatchMessage(m);
        case CreateSpanBatchHandler => o := ProcessCreateSpanBatchMessage(m);
        case CreateTraceBatchHandler => o := ProcessCreateTraceBatchMessage(m);
        case GuardrailBatchHandler => o := ProcessGuardrailBatchMessage(m);
      }
      if o.Failed? {
        var exception := o.failure;
        match exception {
          case ApiError(_, status) =>
            if status == CONFLICT_STATUS {
              // the same request delivered twice: the backend rejects the second
              return;
            }
            log := log + [LogEntry(Error, m.TypeName(), ErrorFingerprint(exception, m))];
          case ValidationError =>
            log := log + [LogEntry(Error, m.TypeName(), ErrorFingerprint(exception, m))];
          case OtherError(_) =>
            log := log + [LogEntry(Error, m.TypeName(), ErrorFingerprint(exception, m))];
        }
      }
    }

    /** One keyword call, whose outcome is the handler's. */
    method SendKeywords(endpoint: Endpoint, kwargs: Dict) returns (o: Outcome)
      modifies rest
      ensures rest.calls == old(rest.calls) + SendAll(rest.respond, old(|rest.calls|), [KeywordCall(endpoint, kwargs)]).calls
      ensures o == SendAll(rest.respond, old(|rest.calls|), [KeywordCall(endpoint, kwargs)]).outcome
    {
      SendAllOne(rest.respond, |rest.calls|, KeywordCall(endpoint, kwargs));
      o := rest.Send(KeywordCall(endpoint, kwargs));
    }

    method ProcessCreateSpanMessage(message: Message) returns (o: Outcome)
      requires message.CreateSpanMessage?
      modifies rest
      ensures rest.calls == old(rest.calls) + Handle(env, rest.respond, old(|rest.calls|), message).calls
      ensures o == Handle(env, rest.respond, old(|rest.calls|), message).outcome
    {
      var kwargs := RemoveNone(message.payload);
      kwargs := env.encode(kwargs);
      o := SendKeywords(SpansCreateSpan, kwargs);
    }

    method ProcessCreateTraceMessage(message: Message) returns (o: Outcome)
      requires message.CreateTraceMessage?
      modifies rest
      ensures rest.calls == old(rest.calls) + Handle(env, rest.respond, old(|rest.calls|), message).calls
      ensures o == Handle(env, rest.respond, old(|rest.calls|), message).outcome
    {
      var kwargs := RemoveNone(message.payload);
      kwargs := env.encode(kwargs);
      o := SendKeywords(TracesCreateTrace, kwargs);
    }

    method ProcessUpdateSpanMessage(message: Message) returns (o: Outcome)
      requires message.UpdateSpanMessage?
      modifies rest
      ensures rest.calls == old(rest.calls) + Handle(env, rest.respond, old(|rest.calls|), message).calls
      ensures o == Handle(env, rest.respond, old(|rest.calls|), message).outcome
    {
      var kwargs := RemoveNone(message.payload);
      kwargs := env.encode(kwargs);
      o := SendKeywords(SpansUpdateSpan, kwargs);
    }

    method ProcessUpdateTraceMessage(message: Message) returns (o: Outcome)
      requires message.UpdateTraceMessage?
      modifies rest
      ensures rest.calls == old(rest.calls) + Handle(env, rest.respond, old(|rest.calls|), message).calls
      ensures o == Handle(env, rest.respond, old(|rest.calls|), message).outcome
    {
      var kwargs := RemoveNone(message.payload);
      kwargs := env.encode(kwargs);
      o := SendKeywords(TracesUpdateTrace, kwargs);
    }

    /** Sends the whole list in one call, or fails with the validation error. */
    method SendModels(endpoint: Endpoint, models: Option<seq<Dict>>) returns (o: Outcome)
      modifies rest
      ensures rest.calls == old(rest.calls) + SendUnsplit(rest.respond, old(|rest.calls|), endpoint, models).calls
      ensures o == SendUnsplit(rest.respond, old(|rest.calls|), endpoint, models).outcome
    {
      if models.None? {
        return Failed(ValidationError);
      }
      SendAllOne(rest.respond, |rest.calls|, ListCall(endpoint, models.value));
      o := rest.Send(ListCall(endpoint, models.value));
    }

    method ProcessAddSpanFeedbackScoresBatchMessage(message: Message) returns (o: Outcome)
      requires message.AddSpanFeedbackScoresBatchMessage?
      modifies rest
      ensures rest.calls == old(rest.calls) + Handle(env, rest.respond, old(|rest.calls|), message).calls
      ensures o == Handle(env, rest.respond, old(|rest.calls|), message).outcome
    {
      var scores := BuildModels(env.construct, FeedbackScoreBatchItem, message.batch);
      o := SendModels(SpansScoreBatchOfSpans, scores);
    }

    method ProcessAddTraceFeedbackScoresBatchMessage(message: Message) returns (o: Outcome)
      requires message.AddTraceFeedbackScoresBatchMessage?
      modifies rest
      ensures rest.calls == old(rest.calls) + Handle(env, rest.respond, old(|rest.calls|), message).calls
      ensures o == Handle(env, rest.respond, old(|rest.calls|), message).outcome
    {
      var scores := BuildModels(env.construct, FeedbackScoreBatchItem, message.batch);
      o := SendModels(TracesScoreBatchOfTraces, scores);
    }

    /**
     Builds the request models one item at a time, normalising each first
     when `normalize` holds; stops at the first item that fails validation.
     */
    method BuildList(schema: Schema, items: seq<Dict>, normalize: bool) returns (models: Option<seq<Dict>>)
      ensures models == BuildModels(env.construct, schema, if normalize then NormalizeAll(env.encode, items) else items)
    {
      ghost var dicts := if normalize then NormalizeAll(env.encode, items) else items;
      var built: seq<Dict> := [];
      var i := 0;
      while i < |items|
        invariant 0 <= i <= |items|
        invariant |built| == i
        invariant forall j :: 0 <= j < i ==> env.construct(schema, dicts[j]) == Some(built[j])
      {
        var kwargs := items[i];
        if normalize {
          kwargs := RemoveNone(kwargs);
          kwargs := env.encode(kwargs);
        }
        var model := env.construct(schema, kwargs);
        if model.None? {
          return None;
        }
        built := built + [model.value];
        i := i + 1;
      }
      models := Some(built);
      assert BuildModels(env.construct, schema, dicts).value == built;
    }

    /** One list call per chunk, in order, stopping at the first that raises. */
    method SendChunks(endpoint: Endpoint, chunks: seq<seq<Dict>>) returns (o: Outcome)
      modifies rest
      ensures rest.calls == old(rest.calls) + SendAll(rest.respond, old(|rest.calls|), ListCalls(endpoint, chunks)).calls
      ensures o == SendAll(rest.respond, old(|rest.calls|), ListCalls(endpoint, chunks)).outcome
    {
      ghost var start := |rest.calls|;
      ghost var all := ListCalls(endpoint, chunks);
      o := Ok;
      var i := 0;
      while i < |chunks|
        invariant 0 <= i <= |chunks|
        invariant rest.calls == old(rest.calls) + all[..i]
        invariant forall j :: 0 <= j < i ==> rest.respond(start + j, all[j]) == Ok
        invariant o == Ok
      {
        assert |rest.calls| == start + i;
        o := rest.Send(ListCall(endpoint, chunks[i]));
        assert all[..i + 1] == all[..i] + [all[i]];
        if o.Failed? {
          SendAllAfterSuccesses(rest.respond, start, all, i);
          SendAllStep(rest.respond, start + i, all[i..]);
          return;
        }
        i := i + 1;
      }
      SendAllAfterSuccesses(rest.respond, start, all, i);
      assert all[..i] == all;
    }

    method ProcessCreateSpanBatchMessage(message: Message) returns (o: Outcome)
      requires message.CreateSpansBatchMessage?
      modifies rest
      ensures rest.calls == old(rest.calls) + Handle(env, rest.respond, old(|rest.calls|), message).calls
      ensures o == Handle(env, rest.respond, old(|rest.calls|), message).outcome
    {
      var restSpans := BuildList(SpanWrite, message.batch, true);
      if restSpans.None? {
        return Failed(ValidationError);
      }
      var memoryLimitedBatches := env.split(restSpans.value, BATCH_MEMORY_LIMIT_MB);
      o := SendChunks(SpansCreateSpans, memoryLimitedBatches);
    }

    method ProcessCreateTraceBatchMessage(message: Message) returns (o: Outcome)
      requires message.CreateTraceBatchMessage?
      modifies rest
      ensures rest.calls == old(rest.calls) + Handle(env, rest.respond, old(|rest.calls|), message).calls
      ensures o == Handle(env, rest.respond, old(|rest.calls|), message).outcome
    {
      var restTraces := BuildList(TraceWrite, message.batch, true);
      if restTraces.None? {
        return Failed(ValidationError);
      }
      var memoryLimitedBatches := env.split(restTraces.value, BATCH_MEMORY_LIMIT_MB);
      o := SendChunks(TracesCreateTraces, memoryLimitedBatches);
    }

    method ProcessGuardrailBatchMessage(message: Message) returns (o: Outcome)
      requires message.GuardrailBatchMessage?
      modifies rest
      ensures rest.calls == old(rest.calls) + Handle(env, rest.respond, old(|rest.calls|), message).calls
      ensures o == Handle(env, rest.respond, old(|rest.calls|), message).outcome
    {
      var batch := BuildList(Guardrail, message.batch, false);
      o := SendModels(GuardrailsCreateGuardrails, batch);
    }
  }
}
