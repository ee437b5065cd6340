/**
 What `MessageSender.process` promises, stated about the functions that
 its methods are proved to follow: dispatch, the failure boundary, the
 single-entity and batch handlers, and the error fingerprint.
 */
module MessageProcessorsProperties {

  import opened Wrappers
  import opened Messages
  import opened RestApi
  import opened DictUtils
  import opened Decimal
  import opened SequenceSplitter
  import opened MessageProcessors

  // ---------------------------------------------------------------------
  // Issuing calls in order

  /**
   A run issues a prefix of its calls; it stops short only at a call that
   raised, whose error is the run's outcome, and every call before it succeeded.
   */
  lemma {:induction false} SendAllIssuesPrefix(respond: (nat, Call) -> Outcome, start: nat, calls: seq<Call>)
    ensures var r := SendAll(respond, start, calls);
      && r.calls <= calls
      && (r.outcome.Ok? ==> r.calls == calls)
      && (r.outcome.Failed? ==> |r.calls| > 0 && respond(start + |r.calls| - 1, calls[|r.calls| - 1]) == r.outcome)
      && (forall j :: 0 <= j < |r.calls| - 1 ==> respond(start + j, calls[j]) == Ok)
      && (r.outcome.Ok? ==> forall j :: 0 <= j < |calls| ==> respond(start + j, calls[j]) == Ok)
    decreases |calls|
  {
    if calls != [] {
      SendAllStep(respond, start, calls);
      if respond(start, calls[0]).Ok? {
        var tail := calls[1..];
        var rest := SendAll(respond, start + 1, tail);
        SendAllIssuesPrefix(respond, start + 1, tail);
        var r := SendAll(respond, start, calls);
        assert r.calls == [calls[0]] + rest.calls && r.outcome == rest.outcome;
        assert calls == [calls[0]] + tail;
        forall j | 1 <= j < |calls| && (j < |r.calls| - 1 || r.outcome.Ok?)
          ensures respond(start + j, calls[j]) == Ok
        {
          assert calls[j] == tail[j - 1] && start + j == (start + 1) + (j - 1);
        }
        if r.outcome.Failed? {
          assert calls[|r.calls| - 1] == tail[|rest.calls| - 1];
        }
      }
    }
  }

  /** If call `k` is the first to raise, exactly calls `0..k` are issued and its error ends the run. */
  lemma SendAllStopsAtFirstFailure(respond: (nat, Call) -> Outcome, start: nat, calls: seq<Call>, k: nat)
    requires k < |calls|
    requires forall j :: 0 <= j < k ==> respond(start + j, calls[j]) == Ok
    requires respond(start + k, calls[k]).Failed?
    ensures SendAll(respond, start, calls) == Run(calls[..k + 1], respond(start + k, calls[k]))
  {
    SendAllAfterSuccesses(respond, start, calls, k);
    SendAllStep(respond, start + k, calls[k..]);
    assert calls[..k + 1] == calls[..k] + [calls[k]];
  }

  /** If no call raises, every call is issued, in order. */
  lemma SendAllDeliversEverything(respond: (nat, Call) -> Outcome, start: nat, calls: seq<Call>)
    requires forall j :: 0 <= j < |calls| ==> respond(start + j, calls[j]) == Ok
    ensures SendAll(respond, start, calls) == Run(calls, Ok)
  {
    SendAllAfterSuccesses(respond, start, calls, |calls|);
    assert calls[..|calls|] == calls;
  }

  /** The models carried by one list call per chunk are the chunks concatenated. */
  lemma {:induction false} SentItemsOfListCalls(endpoint: Endpoint, chunks: seq<seq<Dict>>)
    ensures SentItems(ListCalls(endpoint, chunks)) == Flatten(chunks)
    decreases |chunks|
  {
    var calls := ListCalls(endpoint, chunks);
    if chunks != [] {
      assert calls[1..] == ListCalls(endpoint, chunks[1..]);
      SentItemsOfListCalls(endpoint, chunks[1..]);
    }
  }

  // ---------------------------------------------------------------------
  // Dispatch and the failure boundary

  /** The table has a handler for exactly the nine message classes, each its own. */
  lemma HandlerTableCoversTheNineKinds(m: Message)
    ensures m.Kind() in HANDLERS <==> !m.OtherMessage?
    ensures m.CreateSpanMessage? ==> HANDLERS[m.Kind()] == CreateSpanHandler
    ensures m.CreateTraceMessage? ==> HANDLERS[m.Kind()] == CreateTraceHandler
    ensures m.UpdateSpanMessage? ==> HANDLERS[m.Kind()] == UpdateSpanHandler
    ensures m.UpdateTraceMessage? ==> HANDLERS[m.Kind()] == UpdateTraceHandler
    ensures m.AddTraceFeedbackScoresBatchMessage? ==> HANDLERS[m.Kind()] == AddTraceFeedbackScoresBatchHandler
    ensures m.AddSpanFeedbackScoresBatchMessage? ==> HANDLERS[m.Kind()] == AddSpanFeedbackScoresBatchHandler
    ensures m.CreateSpansBatchMessage? ==> HANDLERS[m.Kind()] == CreateSpanBatchHandler
    ensures m.CreateTraceBatchMessage? ==> HANDLERS[m.Kind()] == CreateTraceBatchHandler
    ensures m.GuardrailBatchMessage? ==> HANDLERS[m.Kind()] == GuardrailBatchHandler
  {
  }

  /** A message of an unknown type makes no call and logs one debug entry, and no error. */
  lemma UnknownMessageIsDropped(env: Collaborators, respond: (nat, Call) -> Outcome, start: nat, typeName: string)
    ensures ProcessEffect(env, respond, start, OtherMessage(typeName)) == Effect([], [LogEntry(Debug, typeName, [])])
  {
    assert OtherKind(typeName) !in HANDLERS;
  }

  /** A handler that succeeds leaves its calls in the trace and nothing in the log. */
  lemma SuccessIsNotLogged(env: Collaborators, respond: (nat, Call) -> Outcome, start: nat, m: Message)
    requires !m.OtherMessage?
    requires Handle(env, respond, start, m).outcome == Ok
    ensures ProcessEffect(env, respond, start, m) == Effect(Handle(env, respond, start, m).calls, [])
  {
    HandlerTableCoversTheNineKinds(m);
  }

  /** A duplicate rejected with status 409 is swallowed: no log entry at all. */
  lemma ConflictIsSwallowed(env: Collaborators, respond: (nat, Call) -> Outcome, start: nat, m: Message)
    requires !m.OtherMessage?
    requires Handle(env, respond, start, m).outcome.Failed?
    requires Handle(env, respond, start, m).outcome.failure.ApiError?
    requires Handle(env, respond, start, m).outcome.failure.statusCode == 409
    ensures ProcessEffect(env, respond, start, m) == Effect(Handle(env, respond, start, m).calls, [])
  {
    HandlerTableCoversTheNineKinds(m);
  }

  /**
   Any other error a handler raises (an `ApiError` with another status, a
   validation error, any other exception) is contained: the calls already
   made stay, and exactly one error entry carrying the fingerprint is logged.
   */
  lemma OtherFailuresAreLoggedOnce(env: Collaborators, respond: (nat, Call) -> Outcome, start: nat, m: Message)
    requires !m.OtherMessage?
    requires Handle(env, respond, start, m).outcome.Failed?
    requires var f := Handle(env, respond, start, m).outcome.failure; !(f.ApiError? && f.statusCode == 409)
    ensures var run := Handle(env, respond, start, m);
      ProcessEffect(env, respond, start, m) ==
        Effect(run.calls, [LogEntry(Error, m.TypeName(), ErrorFingerprint(run.outcome.failure, m))])
  {
    HandlerTableCoversTheNineKinds(m);
  }

  // ---------------------------------------------------------------------
  // The error fingerprint

  /**
   Two fingerprints are equal exactly when the message type names, the
   exception type names and, for an `ApiError`, the status codes agree.
   */
  lemma FingerprintIdentifiesItsTriple(f1: Failure, m1: Message, f2: Failure, m2: Message)
    ensures ErrorFingerprint(f1, m1) == ErrorFingerprint(f2, m2) <==>
      && m1.TypeName() == m2.TypeName()
      && f1.TypeName() == f2.TypeName()
      && f1.ApiError? == f2.ApiError?
      && (f1.ApiError? ==> f1.statusCode == f2.statusCode)
  {
    var fp1, fp2 := ErrorFingerprint(f1, m1), ErrorFingerprint(f2, m2);
    if fp1 == fp2 && f1.ApiError? && f2.ApiError? {
      assert fp1[2] == fp2[2];
      DecimalStringInjective(f1.statusCode, f2.statusCode);
    }
  }

  /** Errors of the same class with different status codes get different fingerprints. */
  lemma StatusCodesSeparateFingerprints(m: Message, typeName: string, s1: int, s2: int)
    requires s1 != s2
    ensures ErrorFingerprint(ApiError(typeName, s1), m) != ErrorFingerprint(ApiError(typeName, s2), m)
  {
    FingerprintIdentifiesItsTriple(ApiError(typeName, s1), m, ApiError(typeName, s2), m);
  }

  // ---------------------------------------------------------------------
  // Single-entity create and update

  /** A create or update message makes exactly one call, with its normalised payload. */
  lemma SingleEntityMakesOneCall(env: Collaborators, respond: (nat, Call) -> Outcome, start: nat, m: Message)
    requires IsSingleEntity(m)
    ensures var run := Handle(env, respond, start, m);
      && |run.calls| == 1
      && run.calls[0] == KeywordCall(EndpointOf(m), env.encode(RemoveNone(m.payload)))
      && run.outcome == respond(start, run.calls[0])
  {
    SendAllOne(respond, start, KeywordCall(EndpointOf(m), Normalize(env.encode, m.payload)));
  }

  /** The keyword arguments sent are exactly the payload's fields that are not `None`, and none is `None`. */
  lemma SingleEntityOmitsNoneFields(env: Collaborators, respond: (nat, Call) -> Outcome, start: nat, m: Message)
    requires IsSingleEntity(m)
    requires EncoderKeepsFields(env.encode)
    ensures var kwargs := Handle(env, respond, start, m).calls[0].kwargs;
      && (forall k :: k in kwargs <==> k in m.payload && m.payload[k] != Null)
      && NoNulls(kwargs)
  {
    SingleEntityMakesOneCall(env, respond, start, m);
    var cleaned := RemoveNone(m.payload);
    assert env.encode(cleaned).Keys == cleaned.Keys;
  }

  /** A trace with one `None` field among five is created with the other four fields. */
  lemma TraceWithOneNoneFieldSendsFourFields(env: Collaborators, respond: (nat, Call) -> Outcome, start: nat)
    requires EncoderKeepsFields(env.encode)
    ensures var payload := map["id" := Text("t-1"), "name" := Text("root"), "project_name" := Text("demo"),
                               "start_time" := Rich("datetime", "2024-01-01T00:00:00"), "end_time" := Null];
      var kwargs := Handle(env, respond, start, CreateTraceMessage(payload)).calls[0].kwargs;
      |kwargs| == 4 && "end_time" !in kwargs && NoNulls(kwargs)
  {
    var payload := map["id" := Text("t-1"), "name" := Text("root"), "project_name" := Text("demo"),
                       "start_time" := Rich("datetime", "2024-01-01T00:00:00"), "end_time" := Null];
    var m := CreateTraceMessage(payload);
    SingleEntityOmitsNoneFields(env, respond, start, m);
    var kwargs := Handle(env, respond, start, m).calls[0].kwargs;
    assert kwargs.Keys == {"id", "name", "project_name", "start_time"};
  }

  // ---------------------------------------------------------------------
  // Batches

  /**
   A batch calls nothing unless every item was built first: if any item
   fails validation, no call is made and the handler raises the validation error.
   */
  lemma InvalidBatchItemSendsNothing(env: Collaborators, respond: (nat, Call) -> Outcome, start: nat, m: Message)
    requires IsSplitBatch(m) || IsUnsplitBatch(m)
    ensures Models(env, m).None? <==>
      exists i :: 0 <= i < |m.batch| &&
        env.construct(SchemaOf(m), if IsSplitBatch(m) then Normalize(env.encode, m.batch[i]) else m.batch[i]).None?
    ensures Models(env, m).None? ==> Handle(env, respond, start, m) == Run([], Failed(ValidationError))
  {
  }

  /**
   Span and trace batches: one call per chunk, in chunk order, never past
   the first call that raises; when none raises, the models sent, in order,
   are exactly the normalised items.
   */
  lemma SplitBatchDeliversItemsInOrder(env: Collaborators, respond: (nat, Call) -> Outcome, start: nat, m: Message)
    requires IsSplitBatch(m)
    requires SplitterContract(env.split)
    requires Models(env, m).Some?
    ensures var models := Models(env, m).value;
      var calls := ListCalls(EndpointOf(m), env.split(models, BATCH_MEMORY_LIMIT_MB));
      var run := Handle(env, respond, start, m);
      && |models| == |m.batch|
      && (forall i :: 0 <= i < |models| ==> env.construct(SchemaOf(m), Normalize(env.encode, m.batch[i])) == Some(models[i]))
      && run.calls <= calls
      && (run.outcome.Ok? ==> run.calls == calls && SentItems(run.calls) == models)
  {
    var models := Models(env, m).value;
    var chunks := env.split(models, BATCH_MEMORY_LIMIT_MB);
    SendAllIssuesPrefix(respond, start, ListCalls(EndpointOf(m), chunks));
    SentItemsOfListCalls(EndpointOf(m), chunks);
  }

  /** If the call for chunk `k` raises, chunks after `k` are not sent and the earlier calls stay. */
  lemma SplitBatchStopsAtFailedChunk(env: Collaborators, respond: (nat, Call) -> Outcome, start: nat, m: Message, k: nat)
    requires IsSplitBatch(m)
    requires Models(env, m).Some?
    requires var calls := ListCalls(EndpointOf(m), env.split(Models(env, m).value, BATCH_MEMORY_LIMIT_MB));
      && k < |calls|
      && (forall j :: 0 <= j < k ==> respond(start + j, calls[j]) == Ok)
      && respond(start + k, calls[k]).Failed?
    ensures var calls := ListCalls(EndpointOf(m), env.split(Models(env, m).value, BATCH_MEMORY_LIMIT_MB));
      Handle(env, respond, start, m) == Run(calls[..k + 1], respond(start + k, calls[k]))
  {
    var calls := ListCalls(EndpointOf(m), env.split(Models(env, m).value, BATCH_MEMORY_LIMIT_MB));
    SendAllStopsAtFirstFailure(respond, start, calls, k);
  }

  /**
   Every handler calls only its own client operation: keyword calls for the
   create and update messages, list calls for the batches; only the span and
   trace batches can make more than one call, and a handler that calls
   nothing has either succeeded on an empty split or rejected an item.
   */
  lemma HandlerCallsItsOwnEndpoint(env: Collaborators, respond: (nat, Call) -> Outcome, start: nat, m: Message)
    requires !m.OtherMessage?
    requires SplitterContract(env.split)
    ensures var r := Handle(env, respond, start, m);
      && (forall i :: 0 <= i < |r.calls| ==> r.calls[i].endpoint == EndpointOf(m))
      && (forall i :: 0 <= i < |r.calls| ==> (r.calls[i].KeywordCall? <==> IsSingleEntity(m)))
      && (!IsSplitBatch(m) ==> |r.calls| <= 1)
      && (r.calls == [] ==>
            && (IsSplitBatch(m) || IsUnsplitBatch(m))
            && (Models(env, m).Some? ==> IsSplitBatch(m) && m.batch == [] && r.outcome == Ok)
            && (Models(env, m).None? ==> r.outcome == Failed(ValidationError)))
  {
    if IsSingleEntity(m) {
      SingleEntityMakesOneCall(env, respond, start, m);
    } else if IsUnsplitBatch(m) {
      if Models(env, m).Some? {
        UnsplitBatchMakesOneCall(env, respond, start, m);
      }
    } else if Models(env, m).Some? {
      var models := Models(env, m).value;
      var chunks := env.split(models, BATCH_MEMORY_LIMIT_MB);
      var calls := ListCalls(EndpointOf(m), chunks);
      SendAllIssuesPrefix(respond, start, calls);
      var r := Handle(env, respond, start, m);
      forall i | 0 <= i < |r.calls|
        ensures r.calls[i].endpoint == EndpointOf(m) && r.calls[i].ListCall?
      {
        assert r.calls[i] == calls[i];
      }
      if r.calls == [] {
        assert r.outcome == Ok && calls == [];
        assert Flatten(chunks) == models;
        assert chunks == [];
        assert |m.batch| == |models| == 0;
      }
    }
  }

  /** An empty span or trace batch makes no call. */
  lemma EmptySplitBatchSendsNothing(env: Collaborators, respond: (nat, Call) -> Outcome, start: nat, m: Message)
    requires IsSplitBatch(m) && m.batch == []
    requires SplitterContract(env.split)
    ensures Handle(env, respond, start, m) == Run([], Ok)
  {
    assert env.split([], BATCH_MEMORY_LIMIT_MB) == [];
  }

  /**
   Score and guardrail batches: one call, never split, whose list has one
   model per item of the batch, in the batch's order.
   */
  lemma UnsplitBatchMakesOneCall(env: Collaborators, respond: (nat, Call) -> Outcome, start: nat, m: Message)
    requires IsUnsplitBatch(m)
    requires Models(env, m).Some?
    ensures var models := Models(env, m).value;
      var run := Handle(env, respond, start, m);
      && run.calls == [ListCall(EndpointOf(m), models)]
      && run.outcome == respond(start, run.calls[0])
      && |models| == |m.batch|
      && (forall i :: 0 <= i < |models| ==> env.construct(SchemaOf(m), m.batch[i]) == Some(models[i]))
  {
    SendAllOne(respond, start, ListCall(EndpointOf(m), Models(env, m).value));
  }
}
