/** Request-level consequences of the controller's contract: the all-succeed and
    all-fail cases, the degraded-stage cases, and what the warnings reveal. */
module PipelineProperties {
  import opened Outcomes
  import opened PyValues
  import opened Schema
  import opened Controller

  /** When every stage succeeds and no sentinel comes back, the payload is the
      synthesizer's output verbatim and carries only the synthesizer's own warnings. */
  lemma AllStagesSucceed(req: Request, cfg: Config, clock: Clock,
                         understand: Understander, retrieve: Retriever, synthesize: Synthesizer)
    ensures var x := Run(req, cfg, clock, understand, retrieve, synthesize);
      var o := synthesize(x.synthesisCall);
      understand(x.understandingCall).Ok? && retrieve(x.retrievalCall).Ok? && o.Ok?
      && o.value.answer != Sentinel ==>
        && x.payload.answer == o.value.answer
        && x.payload.confidence == o.value.confidence
        && x.payload.citations == o.value.citations
        && x.payload.usedChunkIds == o.value.usedChunkIds
        && x.payload.warnings == o.value.warnings
        && x.payload.traceId == retrieve(x.retrievalCall).value.traceId
  {
  }

  /** When every stage fails the caller still gets a complete payload: the apology with
      confidence 0.0, no citations or chunk ids, a fallback trace id, and the three
      failure warnings in stage order followed by the synthesis fallback's own warning. */
  lemma AllStagesFail(req: Request, cfg: Config, clock: Clock,
                      understand: Understander, retrieve: Retriever, synthesize: Synthesizer)
    ensures var x := Run(req, cfg, clock, understand, retrieve, synthesize);
      var o1 := understand(x.understandingCall);
      var o2 := retrieve(x.retrievalCall);
      var o3 := synthesize(x.synthesisCall);
      o1.Err? && o2.Err? && o3.Err? ==>
        && x.payload.answer == ApologyAnswer
        && x.payload.confidence == 0.0
        && x.payload.citations == []
        && x.payload.usedChunkIds == []
        && x.payload.retrievalTrace == map[]
        && ParseFallbackTraceId(x.payload.traceId).Some?
        && x.payload.queryUnderstanding == Some(QueryTrace(req.query, UnknownIntent, cfg.defaultRetrievers))
        && x.payload.warnings == [
             "QueryUnderstanding failed: " + o1.error,
             "Retrieval failed: " + o2.error,
             "Synthesizer failed: " + o3.error,
             o3.error]
  {
    var x := Run(req, cfg, clock, understand, retrieve, synthesize);
    var o1, o2, o3 := understand(x.understandingCall), retrieve(x.retrievalCall), synthesize(x.synthesisCall);
    if o1.Err? && o2.Err? && o3.Err? {
      assert x.synthesized == SynthesisFallback(o3.error);
      ThreeFailureWarnings(o1.error, o2.error, o3.error);
    }
  }

  /** The controller's warnings when all three stages fail. */
  lemma ThreeFailureWarnings(e1: string, e2: string, e3: string)
    ensures RenderAll(Diagnose(Some(e1), Some(e2), Some(e3), ApologyAnswer)) ==
      ["QueryUnderstanding failed: " + e1, "Retrieval failed: " + e2, "Synthesizer failed: " + e3]
  {
    var ds := Diagnose(Some(e1), Some(e2), Some(e3), ApologyAnswer);
    assert ApologyAnswer != Sentinel;
    assert ds == [StageFailed(QueryUnderstanding, e1), StageFailed(Retrieval, e2), StageFailed(Synthesis, e3)];
  }

  /** A failed query understanding is reported first, and retrieval is then asked about
      the caller's original query with the default retrievers. */
  lemma UnderstandingFailureScenario(req: Request, cfg: Config, clock: Clock,
                                     understand: Understander, retrieve: Retriever, synthesize: Synthesizer)
    ensures var x := Run(req, cfg, clock, understand, retrieve, synthesize);
      var o1 := understand(x.understandingCall);
      o1.Err? ==>
        && x.payload.warnings[0] == "QueryUnderstanding failed: " + o1.error
        && x.retrievalCall.rewrittenQuery == req.query
        && x.retrievalCall.retrieversToUse == cfg.defaultRetrievers
        && x.synthesisCall.query == req.query
  {
  }

  /** A failed retrieval leaves synthesis with no chunks and a recognisable fallback id. */
  lemma RetrievalFailureScenario(req: Request, cfg: Config, clock: Clock,
                                 understand: Understander, retrieve: Retriever, synthesize: Synthesizer)
    ensures var x := Run(req, cfg, clock, understand, retrieve, synthesize);
      var o2 := retrieve(x.retrievalCall);
      o2.Err? ==>
        && x.synthesisCall.retrievedChunks == []
        && x.synthesisCall.traceId == x.payload.traceId
        && x.payload.retrievalTrace == map[]
        && ParseFallbackTraceId(x.payload.traceId) == Some(Truncate(clock.fallbackSeconds * 1000.0))
        && "Retrieval failed: " + o2.error in x.payload.warnings
  {
    var x := Run(req, cfg, clock, understand, retrieve, synthesize);
    if retrieve(x.retrievalCall).Err? {
      var e2 := retrieve(x.retrievalCall).error;
      DiagnoseReportsFailures(ErrorOf(understand(x.understandingCall)), Some(e2),
                              ErrorOf(synthesize(x.synthesisCall)), x.synthesized.answer);
      FailureRendered(x.diagnostics, Retrieval, e2);
    }
  }

  /** A sentinel answer, whichever path produced it, never reaches the caller: the fixed
      message is returned with confidence 0.0 and one explanatory warning. */
  lemma SentinelScenario(req: Request, cfg: Config, clock: Clock,
                         understand: Understander, retrieve: Retriever, synthesize: Synthesizer)
    ensures var x := Run(req, cfg, clock, understand, retrieve, synthesize);
      x.payload.answer != Sentinel
      && (x.synthesized.answer == Sentinel ==>
            && x.payload.answer == InsufficientContextAnswer
            && x.payload.confidence == 0.0
            && InsufficientContextWarning in x.payload.warnings)
  {
    var x := Run(req, cfg, clock, understand, retrieve, synthesize);
    if x.synthesized.answer == Sentinel {
      var e1, e2, e3 := ErrorOf(understand(x.understandingCall)), ErrorOf(retrieve(x.retrievalCall)),
                        ErrorOf(synthesize(x.synthesisCall));
      DiagnoseInStageOrder(e1, e2, e3, x.synthesized.answer);
      var i :| 0 <= i < |x.diagnostics| && x.diagnostics[i] == InsufficientContext;
      assert x.payload.warnings[i] == Render(x.diagnostics[i]);
    }
  }

  /** The controller's warnings identify exactly which stages failed and with what error:
      two requests whose controller warnings agree had the same stage failures and agree
      on whether the sentinel came back. */
  lemma WarningsIdentifyFailures(e1: Option<string>, e2: Option<string>, e3: Option<string>, a: string,
                                 f1: Option<string>, f2: Option<string>, f3: Option<string>, b: string)
    requires RenderAll(Diagnose(e1, e2, e3, a)) == RenderAll(Diagnose(f1, f2, f3, b))
    ensures e1 == f1 && e2 == f2 && e3 == f3
    ensures a == Sentinel <==> b == Sentinel
  {
    RenderAllInjective(Diagnose(e1, e2, e3, a), Diagnose(f1, f2, f3, b));
    DiagnoseReportsFailures(e1, e2, e3, a);
    DiagnoseReportsFailures(f1, f2, f3, b);
    DiagnoseInStageOrder(e1, e2, e3, a);
    DiagnoseInStageOrder(f1, f2, f3, b);
  }

  /** Unless the caller passes an empty model name, the signature's default argument is
      truthy, so neither `preferences["model_name"]` nor the configured default is used. */
  lemma DefaultArgumentWins(preferences: map<string, Value>, default: string)
    ensures EffectiveModelName(DefaultModelArgument, preferences, default) == VStr(DefaultModelArgument)
    ensures EffectiveModelName("", preferences, default) ==
      (if Truthy(Get(preferences, "model_name")) then preferences["model_name"] else VStr(default))
  {
  }
}
