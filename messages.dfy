/**
 The event records that the instrumentation layer hands to the sender
 (`opik.message_processing.messages`), reduced to what the sender reads:
 the payload dictionary of a single-entity message and the item
 dictionaries of a batch message.
 */
module Messages {

  /** A field value of a payload dictionary; `Null` is Python's `None`. */
  datatype Value =
    | Null
    | Text(text: string)
    | Number(number: int)
    | Flag(flag: bool)
    | Rich(typeName: string, repr: string)  // datetimes, models and other values the encoder converts

  /** A keyword-argument dictionary: field name to value. */
  type Dict = map<string, Value>

  /** The runtime type of a message, the key of the sender's handler table. */
  datatype MessageKind =
    | CreateSpanKind
    | CreateTraceKind
    | UpdateSpanKind
    | UpdateTraceKind
    | AddTraceFeedbackScoresBatchKind
    | AddSpanFeedbackScoresBatchKind
    | CreateSpansBatchKind
    | CreateTraceBatchKind
    | GuardrailBatchKind
    | OtherKind(name: string)

  /**
   The message variants. `payload` is what `as_payload_dict()` returns;
   `batch` holds, per item, `as_payload_dict()` of a span or trace write
   message and `__dict__` of a score or guardrail item. `OtherMessage`
   stands for an object of any other runtime type, including a subclass
   of one of the nine classes, since dispatch is by exact type.
   */
  datatype Message =
    | CreateSpanMessage(payload: Dict)
    | CreateTraceMessage(payload: Dict)
    | UpdateSpanMessage(payload: Dict)
    | UpdateTraceMessage(payload: Dict)
    | AddTraceFeedbackScoresBatchMessage(batch: seq<Dict>)
    | AddSpanFeedbackScoresBatchMessage(batch: seq<Dict>)
    | CreateSpansBatchMessage(batch: seq<Dict>)
    | CreateTraceBatchMessage(batch: seq<Dict>)
    | GuardrailBatchMessage(batch: seq<Dict>)
    | OtherMessage(typeName: string)
  {
    /** `type(message)` */
    function Kind(): (k: MessageKind)
      ensures k.OtherKind? <==> this.OtherMessage?
      ensures this.OtherMessage? ==> k.name == typeName
    {
      match this
      case CreateSpanMessage(_) => CreateSpanKind
      case CreateTraceMessage(_) => CreateTraceKind
      case UpdateSpanMessage(_) => UpdateSpanKind
      case UpdateTraceMessage(_) => UpdateTraceKind
      case AddTraceFeedbackScoresBatchMessage(_) => AddTraceFeedbackScoresBatchKind
      case AddSpanFeedbackScoresBatchMessage(_) => AddSpanFeedbackScoresBatchKind
      case CreateSpansBatchMessage(_) => CreateSpansBatchKind
      case CreateTraceBatchMessage(_) => CreateTraceBatchKind
      case GuardrailBatchMessage(_) => GuardrailBatchKind
      case OtherMessage(name) => OtherKind(name)
    }

    /** `type(message).__name__` */
    function TypeName(): (n: string)
      ensures this.OtherMessage? ==> n == typeName
      ensures !this.OtherMessage? ==> |n| > 0
    {
      match this
      case CreateSpanMessage(_) => "CreateSpanMessage"
      case CreateTraceMessage(_) => "CreateTraceMessage"
      case UpdateSpanMessage(_) => "UpdateSpanMessage"
      case UpdateTraceMessage(_) => "UpdateTraceMessage"
      case AddTraceFeedbackScoresBatchMessage(_) => "AddTraceFeedbackScoresBatchMessage"
      case AddSpanFeedbackScoresBatchMessage(_) => "AddSpanFeedbackScoresBatchMessage"
      case CreateSpansBatchMessage(_) => "CreateSpansBatchMessage"
      case CreateTraceBatchMessage(_) => "CreateTraceBatchMessage"
      case GuardrailBatchMessage(_) => "GuardrailBatchMessage"
      case OtherMessage(name) => name
    }
  }

  /** The nine class names are distinct: a type name tells the known classes apart. */
  lemma TypeNameIdentifiesKnownClass(m1: Message, m2: Message)
    requires !m1.OtherMessage? && !m2.OtherMessage?
    ensures m1.TypeName() == m2.TypeName() <==> m1.Kind() == m2.Kind()
  {
  }
}
