/**
 The boundary to the generated REST client: the write operations the
 sender calls, the errors they raise, and a client object that records
 every call made on it. What the backend answers is injected as a
 function of the call's position in the trace and of the call itself.
 */
module RestApi {

  import opened Messages

  /** The client operations the sender uses, `resource.operation`. */
  datatype Endpoint =
    | SpansCreateSpan
    | SpansUpdateSpan
    | TracesCreateTrace
    | TracesUpdateTrace
    | SpansScoreBatchOfSpans
    | TracesScoreBatchOfTraces
    | SpansCreateSpans
    | TracesCreateTraces
    | GuardrailsCreateGuardrails

  /** One outbound call: keyword arguments, or one list argument of models. */
  datatype Call =
    | KeywordCall(endpoint: Endpoint, kwargs: Dict)
    | ListCall(endpoint: Endpoint, items: seq<Dict>)

  /** The request models the sender builds with `Model(**kwargs)`. */
  datatype Schema = SpanWrite | TraceWrite | FeedbackScoreBatchItem | Guardrail

  /**
   What a handler can raise. `ApiError` carries the runtime class name
   (the generated client raises subclasses of `ApiError`) and the status
   code; `OtherError` is any other `Exception`, by class name.
   */
  datatype Failure =
    | ApiError(typeName: string, statusCode: int)
    | ValidationError
    | OtherError(typeName: string)
  {
    /** `type(exception).__name__` */
    function TypeName(): string {
      match this
      case ApiError(name, _) => name
      case ValidationError => "ValidationError"
      case OtherError(name) => name
    }
  }

  /** How a handler or one outbound call ends. */
  datatype Outcome = Ok | Failed(failure: Failure)

  /** The REST client: every call made through it, in order. */
  class RestClient {
    var calls: seq<Call>
    /** The backend's answer to the call made at a given position of `calls`. */
    const respond: (nat, Call) -> Outcome

    constructor (respond: (nat, Call) -> Outcome)
      ensures calls == [] && this.respond == respond
    {
      calls := [];
      this.respond := respond;
    }

    /** Issues one call; the call is recorded whether it succeeds or raises. */
    method Send(call: Call) returns (o: Outcome)
      modifies this
      ensures calls == old(calls) + [call]
      ensures o == respond(|old(calls)|, call)
    {
      o := respond(|calls|, call);
      calls := calls + [call];
    }
  }
}
