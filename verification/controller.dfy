/** The pipeline controller's `run`: query understanding, then retrieval, then synthesis,
    each stage's failure replaced by a fixed fallback value plus a warning, then the
    INSUFFICIENT_CONTEXT sentinel check and the assembly of one flat payload.

    This module models the data flow the controller is evidently meant to have: the value
    a stage ends up with, whether its collaborator's output or the fallback, is the value
    the next stage's input and the payload are built from. The literal text of the source
    departs from that in four places, each marked below as a deviation and modelled as
    written in module AsWritten. */
module Controller {
  import opened Outcomes
  import opened PyValues
  import opened Decimal
  import opened Schema

  /** The default of `run`'s `model_name` parameter. */
  const DefaultModelArgument := "llama-3.1-8b-instant"

  const UnknownIntent := "unknown"
  const FallbackPrefix := "fallback-"
  const ApologyAnswer := "Sorry, I couldn't generate a response right now."
  const Sentinel := "INSUFFICIENT_CONTEXT"
  const InsufficientContextAnswer :=
    "I don't have enough information to answer that question right now. "
    + "Try giving more context or allow retrieval of external sources."
  // One literal in the source; split here only so the verifier can see its first
  // characters (it does not index into long string literals).
  const InsufficientContextWarning :=
    "Synthesizer reported " + "INSUFFICIENT_CONTEXT. Returning fallback answer."

  // ---------------------------------------------------------------------------------
  // Warnings
  // ---------------------------------------------------------------------------------

  datatype Stage = QueryUnderstanding | Retrieval | Synthesis

  /** Why the controller appended a warning: a stage raised, or the sentinel was seen. */
  datatype Diagnostic = StageFailed(stage: Stage, error: string) | InsufficientContext

  /** Position in the pipeline; the sentinel check runs after the last stage. */
  function Rank(d: Diagnostic): nat {
    match d
    case StageFailed(QueryUnderstanding, _) => 0
    case StageFailed(Retrieval, _) => 1
    case StageFailed(Synthesis, _) => 2
    case InsufficientContext => 3
  }

  function FailurePrefix(s: Stage): string {
    match s
    case QueryUnderstanding => "QueryUnderstanding failed: "
    case Retrieval => "Retrieval failed: "
    case Synthesis => "Synthesizer failed: "
  }

  /** The warning text the controller appends for a diagnostic. */
  function Render(d: Diagnostic): string {
    match d
    case StageFailed(s, e) => FailurePrefix(s) + e
    case InsufficientContext => InsufficientContextWarning
  }

  function RenderAll(ds: seq<Diagnostic>): (ws: seq<string>)
    ensures |ws| == |ds|
    ensures forall i :: 0 <= i < |ds| ==> ws[i] == Render(ds[i])
  {
    if ds == [] then [] else [Render(ds[0])] + RenderAll(ds[1..])
  }

  /** The error text a stage failed with, if `ds` records a failure of that stage. */
  function FailureOf(ds: seq<Diagnostic>, s: Stage): (e: Option<string>)
    ensures e.Some? ==> StageFailed(s, e.value) in ds
    ensures e.None? ==> forall d <- ds :: !(d.StageFailed? && d.stage == s)
  {
    if ds == [] then None
    else if ds[0].StageFailed? && ds[0].stage == s then Some(ds[0].error)
    else FailureOf(ds[1..], s)
  }

  lemma {:induction false} FailureOfAppend(a: seq<Diagnostic>, b: seq<Diagnostic>, s: Stage)
    ensures FailureOf(a + b, s) == if FailureOf(a, s).Some? then FailureOf(a, s) else FailureOf(b, s)
  {
    if a != [] {
      assert (a + b)[1..] == a[1..] + b;
      FailureOfAppend(a[1..], b, s);
    } else {
      assert a + b == b;
    }
  }

  function ErrorOf<T>(outcome: Result<T, string>): Option<string> {
    match outcome
    case Ok(_) => None
    case Err(e) => Some(e)
  }

  /** The first 13 characters of a warning tell which kind of diagnostic it reports.
      `Head` and `RenderHead` exist only to guide the proof of `RenderInjective`. */
  function Head(d: Diagnostic): string {
    match d
    case StageFailed(QueryUnderstanding, _) => "QueryUndersta"
    case StageFailed(Retrieval, _) => "Retrieval fai"
    case StageFailed(Synthesis, _) => "Synthesizer f"
    case InsufficientContext => "Synthesizer r"
  }

  lemma RenderHead(d: Diagnostic)
    ensures |Render(d)| >= 13 && Render(d)[..13] == Head(d)
  {
  }

  /** Distinct diagnostics are reported with distinct warning texts. */
  lemma RenderInjective(a: Diagnostic, b: Diagnostic)
    ensures Render(a) == Render(b) ==> a == b
  {
    if Render(a) == Render(b) {
      RenderHead(a);
      RenderHead(b);
      assert Head(a) == Head(b);
      assert Head(a)[0] == Head(b)[0] && Head(a)[12] == Head(b)[12];
      if a.StageFailed? {
        assert b.StageFailed? && a.stage == b.stage;
        var n := |FailurePrefix(a.stage)|;
        assert a.error == Render(a)[n..] == Render(b)[n..] == b.error;
      }
    }
  }

  /** The controller's warnings determine exactly which diagnostics were raised, in order. */
  lemma {:induction false} RenderAllInjective(ds1: seq<Diagnostic>, ds2: seq<Diagnostic>)
    ensures RenderAll(ds1) == RenderAll(ds2) ==> ds1 == ds2
  {
    if RenderAll(ds1) == RenderAll(ds2) && ds1 != [] {
      RenderInjective(ds1[0], ds2[0]);
      RenderAllInjective(ds1[1..], ds2[1..]);
      assert ds1 == [ds1[0]] + ds1[1..];
      assert ds2 == [ds2[0]] + ds2[1..];
    }
  }

  /** The diagnostic a stage raised, if it failed. */
  function Failed(stage: Stage, error: Option<string>): seq<Diagnostic> {
    match error
    case None => []
    case Some(e) => [StageFailed(stage, e)]
  }

  /** A recorded stage failure shows up among the rendered warnings. */
  lemma FailureRendered(ds: seq<Diagnostic>, s: Stage, e: string)
    requires FailureOf(ds, s) == Some(e)
    ensures FailurePrefix(s) + e in RenderAll(ds)
  {
  }

  /** The diagnostic for the sentinel, if the answer is the sentinel. */
  function Flagged(answer: string): seq<Diagnostic> {
    if answer == Sentinel then [InsufficientContext] else []
  }

  /** The controller's diagnostics for one request, in the order `run` raises them. */
  function Diagnose(e1: Option<string>, e2: Option<string>, e3: Option<string>, answer: string): seq<Diagnostic> {
    Failed(QueryUnderstanding, e1) + (Failed(Retrieval, e2) + (Failed(Synthesis, e3) + Flagged(answer)))
  }

  lemma FailureOfFailed(stage: Stage, e: Option<string>, rest: seq<Diagnostic>, s: Stage)
    ensures FailureOf(Failed(stage, e) + rest, s) == if stage == s && e.Some? then e else FailureOf(rest, s)
  {
    FailureOfAppend(Failed(stage, e), rest, s);
  }

  /** Each stage's failure, and only a failure, is reported, with the stage's error text. */
  lemma DiagnoseReportsFailures(e1: Option<string>, e2: Option<string>, e3: Option<string>, answer: string)
    ensures FailureOf(Diagnose(e1, e2, e3, answer), QueryUnderstanding) == e1
    ensures FailureOf(Diagnose(e1, e2, e3, answer), Retrieval) == e2
    ensures FailureOf(Diagnose(e1, e2, e3, answer), Synthesis) == e3
  {
    var tail := Flagged(answer);
    assert FailureOf(tail, QueryUnderstanding) == None;
    assert FailureOf(tail, Retrieval) == None;
    assert FailureOf(tail, Synthesis) == None;
    var c := Failed(Synthesis, e3) + tail;
    var b := Failed(Retrieval, e2) + c;
    FailureOfFailed(Synthesis, e3, tail, QueryUnderstanding);
    FailureOfFailed(Synthesis, e3, tail, Retrieval);
    FailureOfFailed(Synthesis, e3, tail, Synthesis);
    FailureOfFailed(Retrieval, e2, c, QueryUnderstanding);
    FailureOfFailed(Retrieval, e2, c, Retrieval);
    FailureOfFailed(Retrieval, e2, c, Synthesis);
    FailureOfFailed(QueryUnderstanding, e1, b, QueryUnderstanding);
    FailureOfFailed(QueryUnderstanding, e1, b, Retrieval);
    FailureOfFailed(QueryUnderstanding, e1, b, Synthesis);
  }

  /** The sentinel is reported exactly when the answer is the sentinel, after every stage
      failure, and no kind of diagnostic appears twice. */
  lemma DiagnoseInStageOrder(e1: Option<string>, e2: Option<string>, e3: Option<string>, answer: string)
    ensures InsufficientContext in Diagnose(e1, e2, e3, answer) <==> answer == Sentinel
    ensures var ds := Diagnose(e1, e2, e3, answer);
      forall i, j :: 0 <= i < j < |ds| ==> Rank(ds[i]) < Rank(ds[j])
  {
  }

  // ---------------------------------------------------------------------------------
  // Clock arithmetic
  // ---------------------------------------------------------------------------------

  /** Python's `int(x)` on a float: truncation toward zero. */
  function Truncate(x: real): (i: int)
    ensures x >= 0.0 ==> i as real <= x < i as real + 1.0
    ensures x < 0.0 ==> i as real - 1.0 < x <= i as real
  {
    if x >= 0.0 then x.Floor else -((-x).Floor)
  }

  /** `int((end - start) * 1000)`: whole milliseconds between two `time.time()` readings. */
  function LatencyMs(clock: Clock): (ms: int)
    ensures clock.endSeconds >= clock.startSeconds ==> ms >= 0
    ensures clock.endSeconds >= clock.startSeconds ==>
      ms as real <= (clock.endSeconds - clock.startSeconds) * 1000.0 < ms as real + 1.0
  {
    Truncate((clock.endSeconds - clock.startSeconds) * 1000.0)
  }

  /** The synthetic trace id of a retrieval fallback, stamped with the time in milliseconds. */
  function FallbackTraceId(seconds: real): (id: string)
    ensures ParseFallbackTraceId(id) == Some(Truncate(seconds * 1000.0))
  {
    IntToDecimalRoundTrip(Truncate(seconds * 1000.0));
    var id := FallbackPrefix + IntToDecimal(Truncate(seconds * 1000.0));
    assert id[|FallbackPrefix|..] == IntToDecimal(Truncate(seconds * 1000.0));
    id
  }

  /** Recognises a fallback trace id and recovers its millisecond stamp. */
  function ParseFallbackTraceId(id: string): Option<int> {
    if |id| >= |FallbackPrefix| && id[..|FallbackPrefix|] == FallbackPrefix
    then ParseInt(id[|FallbackPrefix|..])
    else None
  }

  /** Fallback ids stamped in different milliseconds differ. */
  lemma FallbackTraceIdsDistinct(a: real, b: real)
    requires Truncate(a * 1000.0) != Truncate(b * 1000.0)
    ensures FallbackTraceId(a) != FallbackTraceId(b)
  {
  }

  // ---------------------------------------------------------------------------------
  // The stages
  // ---------------------------------------------------------------------------------

  /** `model_name or preferences.get("model_name") or default_model`. */
  function EffectiveModelName(explicit: string, preferences: map<string, Value>, default: string): (m: Value)
    ensures explicit != "" ==> m == VStr(explicit)
    ensures explicit == "" && Truthy(Get(preferences, "model_name")) ==>
      "model_name" in preferences && m == preferences["model_name"]
    ensures explicit == "" && !Truthy(Get(preferences, "model_name")) ==> m == VStr(default)
  {
    var operands := [VStr(explicit), Get(preferences, "model_name"), VStr(default)];
    var k := FirstTruthy(operands);
    assert Truthy(operands[1]) ==> k <= 1;
    operands[k]
  }

  /** `preferences.get("max_tokens", default_max_tokens)`. */
  function MaxOutputTokens(preferences: map<string, Value>, cfg: Config): Value {
    GetOr(preferences, "max_tokens", VInt(cfg.defaultMaxTokens))
  }

  function UnderstandingRequest(req: Request, now: Instant): UnderstandingInput {
    UnderstandingInput(req.query, req.userId, req.sessionId, req.preferences, req.history, now)
  }

  function UnderstandingFallback(req: Request, cfg: Config): UnderstandingOutput {
    UnderstandingOutput(UnknownIntent, req.query, cfg.defaultRetrievers, map[], map[])
  }

  function RetrievalRequest(req: Request, understood: UnderstandingOutput): RetrievalInput {
    RetrievalInput(req.userId, req.sessionId, understood.rewrittenQuery,
                   understood.retrieversToUse, understood.retrievalParams,
                   req.history, req.preferences)
  }

  function RetrievalFallback(seconds: real): RetrievalOutput {
    RetrievalOutput([], map[], FallbackTraceId(seconds))
  }

  // Deviation (source line 114): the source reads `retrieved_chunks` from the
  // synthesizer's own earlier output; here they are the chunks of the retrieval value in
  // use. Deviation (source lines 92 and 96): the source stores a successful retrieval
  // output in a field and only the fallback in the local the rest of `run` reads; here
  // `retrieved` is whichever of the two this request produced.
  function SynthesisRequest(req: Request, cfg: Config, model: Value,
                            understood: UnderstandingOutput, retrieved: RetrievalOutput): SynthesisInput {
    SynthesisInput(retrieved.traceId, req.userId, req.sessionId, understood.rewrittenQuery,
                   req.history, req.preferences, model,
                   MaxOutputTokens(req.preferences, cfg), retrieved.chunks)
  }

  function SynthesisFallback(e: string): SynthesisOutput {
    SynthesisOutput(ApologyAnswer, [], [e], 0.0, VNone, [], VNone, map[])
  }

  // The value each stage ends up with: its collaborator's output, or the fallback.

  function UnderstandingValue(outcome: Result<UnderstandingOutput, string>, req: Request, cfg: Config): UnderstandingOutput {
    if outcome.Ok? then outcome.value else UnderstandingFallback(req, cfg)
  }

  function RetrievalValue(outcome: Result<RetrievalOutput, string>, clock: Clock): RetrievalOutput {
    if outcome.Ok? then outcome.value else RetrievalFallback(clock.fallbackSeconds)
  }

  function SynthesisValue(outcome: Result<SynthesisOutput, string>): SynthesisOutput {
    if outcome.Ok? then outcome.value else SynthesisFallback(outcome.error)
  }

  /** The sentinel rewrite: the answer handed on is never the sentinel itself. */
  function CheckSentinel(so: SynthesisOutput): (r: SynthesisOutput)
    ensures r.answer != Sentinel
    ensures r.citations == so.citations && r.warnings == so.warnings
    ensures r.usedChunkIds == so.usedChunkIds && r.rawModelOutput == so.rawModelOutput
    ensures r.metrics == so.metrics && r.reasoning == so.reasoning
    ensures so.answer == Sentinel ==> r.answer == InsufficientContextAnswer && r.confidence == 0.0
    ensures so.answer != Sentinel ==> r == so
  {
    if so.answer == Sentinel
    then so.(answer := InsufficientContextAnswer, confidence := 0.0)
    else so
  }

  /** One request: the input each collaborator was given, the value each stage ended up
      with (`synthesized` before the sentinel rewrite), the controller's diagnostics in
      the order they were raised, and the payload returned. */
  datatype Execution = Execution(
    understandingCall: UnderstandingInput,
    retrievalCall: RetrievalInput,
    synthesisCall: SynthesisInput,
    understood: UnderstandingOutput,
    retrieved: RetrievalOutput,
    synthesized: SynthesisOutput,
    diagnostics: seq<Diagnostic>,
    payload: Payload)

  /** `PipelineControllerAgent.run`. */
  function Run(req: Request, cfg: Config, clock: Clock,
               understand: Understander, retrieve: Retriever, synthesize: Synthesizer): (x: Execution)
    // Stage 1: the request is passed on as is; a failure yields the safe defaults.
    ensures x.understandingCall ==
      UnderstandingInput(req.query, req.userId, req.sessionId, req.preferences, req.history, clock.now)
    ensures understand(x.understandingCall).Ok? ==> x.understood == understand(x.understandingCall).value
    ensures understand(x.understandingCall).Err? ==>
      && x.understood.intent == UnknownIntent
      && x.understood.rewrittenQuery == req.query
      && x.understood.retrieversToUse == cfg.defaultRetrievers
      && x.understood.retrievalParams == map[]
      && x.understood.stylePreferences == map[]
    // Stage 2: asked about the stage-1 value in use; a failure yields an empty result.
    ensures x.retrievalCall.rewrittenQuery == x.understood.rewrittenQuery
    ensures x.retrievalCall.retrieversToUse == x.understood.retrieversToUse
    ensures x.retrievalCall.retrievalParams == x.understood.retrievalParams
    ensures x.retrievalCall.userId == req.userId && x.retrievalCall.sessionId == req.sessionId
    ensures x.retrievalCall.history == req.history && x.retrievalCall.preferences == req.preferences
    ensures understand(x.understandingCall).Err? ==> x.retrievalCall.rewrittenQuery == req.query
    ensures retrieve(x.retrievalCall).Ok? ==> x.retrieved == retrieve(x.retrievalCall).value
    ensures retrieve(x.retrievalCall).Err? ==>
      && x.retrieved.chunks == []
      && x.retrieved.retrievalTrace == map[]
      && ParseFallbackTraceId(x.retrieved.traceId) == Some(Truncate(clock.fallbackSeconds * 1000.0))
    // Stage 3: built from the stage-1 query and the stage-2 value in use.
    ensures x.synthesisCall.query == x.understood.rewrittenQuery
    ensures x.synthesisCall.retrievedChunks == x.retrieved.chunks
    ensures x.synthesisCall.traceId == x.retrieved.traceId
    ensures x.synthesisCall.modelName == EffectiveModelName(req.modelName, req.preferences, cfg.defaultModel)
    ensures "max_tokens" in req.preferences ==> x.synthesisCall.maxOutputTokens == req.preferences["max_tokens"]
    ensures "max_tokens" !in req.preferences ==> x.synthesisCall.maxOutputTokens == VInt(cfg.defaultMaxTokens)
    ensures x.synthesisCall.userId == req.userId && x.synthesisCall.sessionId == req.sessionId
    ensures x.synthesisCall.history == req.history && x.synthesisCall.preferences == req.preferences
    ensures synthesize(x.synthesisCall).Ok? ==> x.synthesized == synthesize(x.synthesisCall).value
    ensures synthesize(x.synthesisCall).Err? ==>
      x.synthesized == SynthesisOutput(ApologyAnswer, [], [synthesize(x.synthesisCall).error],
                                       0.0, VNone, [], VNone, map[])
    // Payload.
    // Diagnostics and warnings: the controller's warnings, then the synthesis value's own.
    ensures x.diagnostics == Diagnose(ErrorOf(understand(x.understandingCall)), ErrorOf(retrieve(x.retrievalCall)),
                                      ErrorOf(synthesize(x.synthesisCall)), x.synthesized.answer)
    ensures x.payload.warnings == RenderAll(x.diagnostics) + x.synthesized.warnings
    ensures x.synthesized.answer == Sentinel ==>
      x.payload.answer == InsufficientContextAnswer && x.payload.confidence == 0.0
    ensures x.synthesized.answer != Sentinel ==>
      x.payload.answer == x.synthesized.answer && x.payload.confidence == x.synthesized.confidence
    ensures x.payload.citations == x.synthesized.citations
    ensures x.payload.usedChunkIds == x.synthesized.usedChunkIds
    ensures x.payload.rawModelOutput == x.synthesized.rawModelOutput
    ensures x.payload.metrics == x.synthesized.metrics
    ensures x.payload.retrievalTrace == x.retrieved.retrievalTrace
    ensures x.payload.traceId == x.retrieved.traceId
    ensures x.payload.queryUnderstanding ==
      Some(QueryTrace(x.understood.rewrittenQuery, x.understood.intent, x.understood.retrieversToUse))
    ensures clock.endSeconds >= clock.startSeconds ==> x.payload.latencyMs >= 0
  {
    var model := EffectiveModelName(req.modelName, req.preferences, cfg.defaultModel);

    var call1 := UnderstandingRequest(req, clock.now);
    var understood := UnderstandingValue(understand(call1), req, cfg);
    // Deviation (source lines 73-77): the source records this entry only inside the
    // `except` branch; here it is recorded on both paths.
    var queryTrace := QueryTrace(understood.rewrittenQuery, understood.intent, understood.retrieversToUse);

    var call2 := RetrievalRequest(req, understood);
    var retrieved := RetrievalValue(retrieve(call2), clock);

    var call3 := SynthesisRequest(req, cfg, model, understood, retrieved);
    var synthesized := SynthesisValue(synthesize(call3));

    // Deviation (source lines 117, 120, 132, 143): the source binds `synthesis_output`
    // only on failure; here the sentinel check and the payload read the value in use.
    var checked := CheckSentinel(synthesized);
    var diagnostics := Diagnose(ErrorOf(understand(call1)), ErrorOf(retrieve(call2)),
                                ErrorOf(synthesize(call3)), synthesized.answer);

    var payload := Payload(
      checked.answer,
      checked.confidence,
      RenderAll(diagnostics) + checked.warnings,
      checked.citations,
      checked.usedChunkIds,
      retrieved.retrievalTrace,
      Some(queryTrace),
      retrieved.traceId,
      LatencyMs(clock),
      checked.rawModelOutput,
      checked.metrics);
    Execution(call1, call2, call3, understood, retrieved, synthesized, diagnostics, payload)
  }
}
