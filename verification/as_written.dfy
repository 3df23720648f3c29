/** The controller's `run` exactly as its text reads, including the four places where it
    departs from its evidently intended data flow, and lemmas exhibiting each departure.
    Module Controller models the intended flow; the lemmas here contrast the two. */
module AsWritten {
  import opened Outcomes
  import opened PyValues
  import opened Schema
  import opened Controller

  /** The exceptions the literal text raises by itself. */
  datatype PyError = UnboundLocal(name: string) | MissingAttribute(name: string)

  /** `str(e)` for those exceptions, in CPython 3.11 wording. */
  function Describe(err: PyError): string {
    match err
    case UnboundLocal(n) => "cannot access local variable '" + n + "' where it is not associated with a value"
    case MissingAttribute(n) => "'PipelineControllerAgent' object has no attribute '" + n + "'"
  }

  /** One call of the literal `run`: it raises out of `run` at a source line, or returns. */
  datatype LiteralRun = Raised(line: nat, error: PyError) | Returned(payload: Payload)

  /** The controller instance's scratch state left by earlier requests that the literal
      `run` reads: whether `self.retrieval_agent_output` has ever been assigned (line 92).
      `self.response_synthesizer_agent_output` is only assigned at line 117, after line
      114 has already read it, so no request ever finds it set. */
  datatype Instance = Instance(hasRetrievalOutput: bool)

  /** The attribute whose absence makes the stage-3 input construction raise: line 106
      reads `self.retrieval_agent_output`, then line 114 reads
      `self.response_synthesizer_agent_output`. */
  function MissingScratchField(inst: Instance): string {
    if inst.hasRetrievalOutput then "response_synthesizer_agent_output" else "retrieval_agent_output"
  }

  /** `PipelineControllerAgent.run` as written. */
  function RunAsWritten(inst: Instance, req: Request, cfg: Config, clock: Clock,
                        understand: Understander, retrieve: Retriever, synthesize: Synthesizer): LiteralRun
  {
    var call1 := UnderstandingRequest(req, clock.now);
    var understood := UnderstandingValue(understand(call1), req, cfg);
    // Lines 73-77 sit inside the `except`: the entry exists only after a failure.
    var queryTrace :=
      if understand(call1).Err?
      then Some(QueryTrace(understood.rewrittenQuery, understood.intent, understood.retrieversToUse))
      else None;
    var call2 := RetrievalRequest(req, understood);
    match retrieve(call2)
    case Ok(_) =>
      // Line 92 stores the output in a field; line 101 reads the unbound local.
      Raised(101, UnboundLocal("retrieval_output"))
    case Err(e2) =>
      var retrieved := RetrievalFallback(clock.fallbackSeconds);
      // Building the synthesis input raises inside the stage-3 `try` (line 106 or 114),
      // before the synthesizer is called; the `except` binds the fallback.
      var e3 := Describe(MissingAttribute(MissingScratchField(inst)));
      var synthesized := SynthesisFallback(e3);
      var checked := CheckSentinel(synthesized);
      var diagnostics := Diagnose(ErrorOf(understand(call1)), Some(e2), Some(e3), synthesized.answer);
      Returned(Payload(
        checked.answer,
        checked.confidence,
        RenderAll(diagnostics) + checked.warnings,
        checked.citations,
        checked.usedChunkIds,
        retrieved.retrievalTrace,
        queryTrace,
        retrieved.traceId,
        LatencyMs(clock),
        checked.rawModelOutput,
        checked.metrics))
  }

  /** Lines 104-154 as written, run after lines 45-99 as written, except that lines 101,
      106, 114 and 150 read the retrieval value in use. With that repaired, the next defect is
      reached: a successful synthesis output is stored in a field (line 117) while
      `synthesis_output`, read at line 132, is bound only in the `except` (line 120). */
  function RunWithRetrievalRepaired(req: Request, cfg: Config, clock: Clock,
                                    understand: Understander, retrieve: Retriever, synthesize: Synthesizer): LiteralRun
  {
    var model := EffectiveModelName(req.modelName, req.preferences, cfg.defaultModel);
    var call1 := UnderstandingRequest(req, clock.now);
    var understood := UnderstandingValue(understand(call1), req, cfg);
    var queryTrace :=
      if understand(call1).Err?
      then Some(QueryTrace(understood.rewrittenQuery, understood.intent, understood.retrieversToUse))
      else None;
    var call2 := RetrievalRequest(req, understood);
    var retrieved := RetrievalValue(retrieve(call2), clock);
    var call3 := SynthesisRequest(req, cfg, model, understood, retrieved);
    match synthesize(call3)
    case Ok(_) =>
      Raised(132, UnboundLocal("synthesis_output"))
    case Err(e3) =>
      var synthesized := SynthesisFallback(e3);
      var checked := CheckSentinel(synthesized);
      var diagnostics := Diagnose(ErrorOf(understand(call1)), ErrorOf(retrieve(call2)), Some(e3), synthesized.answer);
      Returned(Payload(
        checked.answer,
        checked.confidence,
        RenderAll(diagnostics) + checked.warnings,
        checked.citations,
        checked.usedChunkIds,
        retrieved.retrievalTrace,
        queryTrace,
        retrieved.traceId,
        LatencyMs(clock),
        checked.rawModelOutput,
        checked.metrics))
  }

  /** Once the retrieval defects are repaired, every successful synthesis raises at line
      132, where the intended flow returns the synthesizer's answer (unless it is the
      sentinel); only a failed synthesis returns, with the apology. */
  lemma SynthesisSuccessRaises(req: Request, cfg: Config, clock: Clock,
                               understand: Understander, retrieve: Retriever, synthesize: Synthesizer)
    ensures var x := Run(req, cfg, clock, understand, retrieve, synthesize);
      var o := synthesize(x.synthesisCall);
      var r := RunWithRetrievalRepaired(req, cfg, clock, understand, retrieve, synthesize);
      && (o.Ok? ==> r == Raised(132, UnboundLocal("synthesis_output")))
      && (o.Ok? && o.value.answer != Sentinel ==> x.payload.answer == o.value.answer)
      && (o.Err? ==> r.Returned? && r.payload.answer == ApologyAnswer == x.payload.answer)
  {
  }

  /** Whenever retrieval succeeds the literal `run` raises at line 101, where the intended
      flow hands the retrieval output on to synthesis. */
  lemma RetrievalSuccessRaises(inst: Instance, req: Request, cfg: Config, clock: Clock,
                               understand: Understander, retrieve: Retriever, synthesize: Synthesizer)
    ensures var x := Run(req, cfg, clock, understand, retrieve, synthesize);
      retrieve(x.retrievalCall).Ok? ==>
        && RunAsWritten(inst, req, cfg, clock, understand, retrieve, synthesize)
             == Raised(101, UnboundLocal("retrieval_output"))
        && x.synthesisCall.traceId == retrieve(x.retrievalCall).value.traceId
        && x.synthesisCall.retrievedChunks == retrieve(x.retrievalCall).value.chunks
  {
  }

  /** The literal `run` never consults the synthesizer: its result does not depend on it,
      and every payload it returns carries the apology with confidence 0.0 and the
      attribute error as a synthesis failure. */
  lemma SynthesizerNeverCalled(inst: Instance, req: Request, cfg: Config, clock: Clock,
                               understand: Understander, retrieve: Retriever,
                               synthesize: Synthesizer, other: Synthesizer)
    ensures RunAsWritten(inst, req, cfg, clock, understand, retrieve, synthesize)
         == RunAsWritten(inst, req, cfg, clock, understand, retrieve, other)
    ensures var r := RunAsWritten(inst, req, cfg, clock, understand, retrieve, synthesize);
      r.Returned? ==>
        && r.payload.answer == ApologyAnswer
        && r.payload.confidence == 0.0
        && "Synthesizer failed: " + Describe(MissingAttribute(MissingScratchField(inst))) in r.payload.warnings
  {
    var r := RunAsWritten(inst, req, cfg, clock, understand, retrieve, synthesize);
    var call1 := UnderstandingRequest(req, clock.now);
    var call2 := RetrievalRequest(req, UnderstandingValue(understand(call1), req, cfg));
    if retrieve(call2).Err? {
      var e3 := Describe(MissingAttribute(MissingScratchField(inst)));
      var ds := Diagnose(ErrorOf(understand(call1)), Some(retrieve(call2).error), Some(e3), ApologyAnswer);
      DiagnoseReportsFailures(ErrorOf(understand(call1)), Some(retrieve(call2).error), Some(e3), ApologyAnswer);
      FailureRendered(ds, Synthesis, e3);
    }
  }

  /** The literal `run` returns a `query_understanding` entry only when query
      understanding failed; after a success the entry is the empty mapping. The intended
      flow records it on both paths. */
  lemma UnderstandingTraceOnlyOnFailure(inst: Instance, req: Request, cfg: Config, clock: Clock,
                                        understand: Understander, retrieve: Retriever, synthesize: Synthesizer)
    ensures var r := RunAsWritten(inst, req, cfg, clock, understand, retrieve, synthesize);
      r.Returned? ==>
        (r.payload.queryUnderstanding.Some? <==> understand(UnderstandingRequest(req, clock.now)).Err?)
    ensures Run(req, cfg, clock, understand, retrieve, synthesize).payload.queryUnderstanding.Some?
  {
  }

  // A request on which every collaborator succeeds.

  function ExampleRequest(): Request {
    Request("what is dafny?", "u1", "s1", map[], [], false, DefaultModelArgument)
  }

  function ExampleConfig(): Config {
    Config(["vector"], "llama-3.1-8b-instant", 512)
  }

  function ExampleClock(): Clock {
    Clock(100.0, Instant("2024-01-01T00:00:00"), 100.5, 101.0)
  }

  function UnderstandsAnything(i: UnderstandingInput): Result<UnderstandingOutput, string> {
    Ok(UnderstandingOutput("definition", i.query, ["vector"], map[], map[]))
  }

  function RetrievesOneChunk(i: RetrievalInput): Result<RetrievalOutput, string> {
    Ok(RetrievalOutput([VStr("Dafny is a verifier.")], map[], "trace-1"))
  }

  function AnswersFromChunks(i: SynthesisInput): Result<SynthesisOutput, string> {
    Ok(SynthesisOutput("A verification-aware language.", [], [], 0.9, VNone, [VStr("c1")], VNone, map[]))
  }

  /** On a request where every collaborator succeeds, a fresh controller raises at line
      101, while the intended flow returns the synthesizer's answer with no warnings. */
  lemma EverythingSucceedsExample()
    ensures RunAsWritten(Instance(false), ExampleRequest(), ExampleConfig(), ExampleClock(),
                         UnderstandsAnything, RetrievesOneChunk, AnswersFromChunks).Raised?
    ensures var p := Run(ExampleRequest(), ExampleConfig(), ExampleClock(),
                         UnderstandsAnything, RetrievesOneChunk, AnswersFromChunks).payload;
      p.answer == "A verification-aware language." && p.warnings == [] && p.traceId == "trace-1"
  {
  }
}
