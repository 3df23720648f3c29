/** The request-scoped records that flow through the pipeline: the caller's request, the
    configured defaults, the three stages' inputs and outputs, and the final payload.
    Chunks, citations, traces, parameters and metrics are carried as opaque values. */
module Schema {
  import opened Outcomes
  import opened PyValues

  /** The arguments of one `run` call. */
  datatype Request = Request(
    query: string,
    userId: string,
    sessionId: string,
    preferences: map<string, Value>,
    history: seq<Value>,
    allowAgentic: bool,
    modelName: string)

  /** The process-wide defaults the controller is constructed with. */
  datatype Config = Config(
    defaultRetrievers: seq<string>,
    defaultModel: string,
    defaultMaxTokens: int)

  /** A wall-clock date-time as the query understander receives it; never inspected. */
  datatype Instant = Instant(isoformat: string)

  /** The clock readings one `run` takes: `time.time()` at the start, when a retrieval
      fallback id is stamped, and at the end (seconds), and `datetime.now()` for stage 1. */
  datatype Clock = Clock(
    startSeconds: real,
    now: Instant,
    fallbackSeconds: real,
    endSeconds: real)

  datatype UnderstandingInput = UnderstandingInput(
    query: string,
    userId: string,
    sessionId: string,
    preferences: map<string, Value>,
    history: seq<Value>,
    timestamp: Instant)

  datatype UnderstandingOutput = UnderstandingOutput(
    intent: string,
    rewrittenQuery: string,
    retrieversToUse: seq<string>,
    retrievalParams: map<string, Value>,
    stylePreferences: map<string, Value>)

  datatype RetrievalInput = RetrievalInput(
    userId: string,
    sessionId: string,
    rewrittenQuery: string,
    retrieversToUse: seq<string>,
    retrievalParams: map<string, Value>,
    history: seq<Value>,
    preferences: map<string, Value>)

  datatype RetrievalOutput = RetrievalOutput(
    chunks: seq<Value>,
    retrievalTrace: map<string, Value>,
    traceId: string)

  datatype SynthesisInput = SynthesisInput(
    traceId: string,
    userId: string,
    sessionId: string,
    query: string,
    history: seq<Value>,
    preferences: map<string, Value>,
    modelName: Value,
    maxOutputTokens: Value,
    retrievedChunks: seq<Value>)

  datatype SynthesisOutput = SynthesisOutput(
    answer: string,
    citations: seq<Value>,
    warnings: seq<string>,
    confidence: real,
    rawModelOutput: Value,
    usedChunkIds: seq<Value>,
    reasoning: Value,
    metrics: map<string, Value>)

  /** The `query_understanding` trace entry. */
  datatype QueryTrace = QueryTrace(
    rewrittenQuery: string,
    intent: string,
    retrieversToUse: seq<string>)

  /** The flat mapping `run` returns. `queryUnderstanding` is `None` when the entry is the
      empty mapping `{}`. */
  datatype Payload = Payload(
    answer: string,
    confidence: real,
    warnings: seq<string>,
    citations: seq<Value>,
    usedChunkIds: seq<Value>,
    retrievalTrace: map<string, Value>,
    queryUnderstanding: Option<QueryTrace>,
    traceId: string,
    latencyMs: int,
    rawModelOutput: Value,
    metrics: map<string, Value>)

  /** A collaborator's `run`: it either returns its output or raises with some error text. */
  type Understander = UnderstandingInput -> Result<UnderstandingOutput, string>
  type Retriever = RetrievalInput -> Result<RetrievalOutput, string>
  type Synthesizer = SynthesisInput -> Result<SynthesisOutput, string>
}
