# Pipeline controller: a Dafny model

This project models `PipelineControllerAgent.run` from
`app/agents/pipeline_controller_agent/controller.py`. It is the coordination layer of a
retrieval-augmented question-answering service. It runs three collaborators in order:
a query understander, a retrieval orchestrator and a response synthesizer. When a stage
raises, it substitutes a fixed fallback value and appends a warning. It rewrites the
`INSUFFICIENT_CONTEXT` sentinel answer. Then it assembles one flat payload.

Each collaborator is a total function parameter, `Input -> Result<Output, string>`.
`Err(text)` means the call raised an exception whose `str()` is `text`. `Controller.Run`
is then a pure function of the request, the configured defaults, the clock readings and
the three collaborators. It returns an `Execution` record with these parts:
- the input each collaborator was given;
- the value each stage ended up with (its output or its fallback);
- the controller's diagnostics, in order;
- the payload.

Modules:
- `Outcomes` (outcomes.dfy): `Option` and `Result`.
- `PyValues` (values.dfy): the opaque dynamic values in preferences, chunks, traces and
  metrics, with Python's truthiness rules, `dict.get`, and the `a or b or c` chain.
- `Decimal` (decimal.dfy): Python's `str(int)`, with its inverse, for the fallback trace id.
- `Schema` (schema.dfy): the request, the configuration, the stage records and the payload.
- `Controller` (controller.dfy): the intended flow of `run`.
- `PipelineProperties` (properties.dfy): request-level consequences of `Run`'s contract.
- `AsWritten` (as_written.dfy): `run` exactly as its text reads, with lemmas that exhibit
  each place where it departs from the intended flow (see Findings).

The literal text of `run` cannot return normally when retrieval succeeds, and it never
calls the synthesizer. `Controller.Run` therefore models the evidently intended flow. In
that flow, the value a stage ends up with is the value the next stage's input and the
payload are built from. Each deviation is marked with a comment in controller.dfy and
modelled as written in `AsWritten.RunAsWritten`.

Facts about the code that bound what the model can promise:
- `latency_ms` subtracts two `time.time()` wall-clock readings. It is non-negative
  whenever the clock did not step back; a step back of a millisecond or more can make it
  negative (`Controller.LatencyMs`).
- A fallback trace id is stamped with the time in whole milliseconds, so two fallbacks in
  the same millisecond share an id. Fallback ids are distinct only across milliseconds
  (`Controller.FallbackTraceIdsDistinct`).
- The `query_understanding` trace entry is recorded only when query understanding fails
  (finding 1 below); `Controller.Run` records it on both paths.
- `run`'s `model_name` parameter defaults to `"llama-3.1-8b-instant"`, which is truthy.
  So `preferences["model_name"]` and the configured default are consulted only when a
  caller passes an empty string (`PipelineProperties.DefaultArgumentWins`).

## Model

| member | source | states |
|---|---|---|
| PyValues.FirstTruthy | app/agents/pipeline_controller_agent/controller.py:49 | A chain `a or b or ...` evaluates to the first truthy operand. If no operand is truthy, it evaluates to the last one. |
| Controller.EffectiveModelName | app/agents/pipeline_controller_agent/controller.py:49 | The model name is the explicit argument if non-empty. Otherwise it is `preferences["model_name"]` if that is truthy. Otherwise it is the configured default. |
| PipelineProperties.DefaultArgumentWins | app/agents/pipeline_controller_agent/controller.py:43-49 | With the signature's default argument, the model name is always that default. With an empty argument, the preference or the configured default decides. |
| Decimal.NatToDecimal | app/agents/pipeline_controller_agent/controller.py:99 | `str(n)` of a natural number is a non-empty string of digits with no leading zero. |
| Decimal.IntToDecimalRoundTrip | app/agents/pipeline_controller_agent/controller.py:99 | Reading back `str(i)` yields `i` for every integer, negative ones included. |
| Decimal.IntToDecimalInjective | app/agents/pipeline_controller_agent/controller.py:99 | Distinct integers are written as distinct strings. |
| Controller.Truncate | app/agents/pipeline_controller_agent/controller.py:99 | `int(x)` truncates toward zero. The result lies within 1 of `x`, on the side of zero. |
| Controller.FallbackTraceId | app/agents/pipeline_controller_agent/controller.py:99 | A fallback trace id is recognisable as one, and its millisecond stamp can be read back from it. |
| Controller.FallbackTraceIdsDistinct | app/agents/pipeline_controller_agent/controller.py:99 | Fallback ids stamped in different milliseconds differ. |
| Controller.LatencyMs | app/agents/pipeline_controller_agent/controller.py:140 | If the clock did not step back, latency is at least 0 and equals the elapsed time truncated to whole milliseconds. |
| Controller.RenderAll | app/agents/pipeline_controller_agent/controller.py:145 | The controller's warnings are its diagnostics rendered one for one, in order. |
| Controller.RenderInjective | app/agents/pipeline_controller_agent/controller.py:64-133 | The four warning texts (stage 1, 2 or 3 failed, sentinel seen) never coincide. Equal warnings mean equal stage and equal error text. |
| Controller.RenderAllInjective | app/agents/pipeline_controller_agent/controller.py:145 | A list of controller warnings determines the list of diagnostics it was rendered from. |
| Controller.DiagnoseReportsFailures | app/agents/pipeline_controller_agent/controller.py:62-129 | A failure is recorded for a stage exactly when that stage raised, and it carries that stage's error text. |
| Controller.DiagnoseInStageOrder | app/agents/pipeline_controller_agent/controller.py:131-133 | The sentinel diagnostic is present exactly when the answer is the sentinel. Diagnostics appear in pipeline order, each kind at most once. |
| Controller.CheckSentinel | app/agents/pipeline_controller_agent/controller.py:131-137 | The answer handed on is never the sentinel. A sentinel answer becomes the fixed message with confidence 0.0, and any other answer passes through unchanged. |
| Controller.Run | app/agents/pipeline_controller_agent/controller.py:36-156 | If stage 1 fails, its substitute has intent "unknown", the original query and the default retrievers. Retrieval is asked about the stage-1 value in use. If retrieval fails, the result has no chunks, an empty trace and a readable fallback id. Synthesis gets the stage-1 query, the chunks and trace id of the retrieval value in use, the effective model name, and `max_tokens` or the default. If synthesis fails, the fixed apology is used. The payload's warnings are the rendered diagnostics followed by the synthesis value's own warnings. Its trace entries come from the values in use. |
| PipelineProperties.AllStagesSucceed | app/agents/pipeline_controller_agent/controller.py:142-154 | If all stages succeed and there is no sentinel, the payload carries the synthesizer's answer, confidence, citations and chunk ids verbatim. Its warnings are exactly the synthesizer's own. |
| PipelineProperties.AllStagesFail | app/agents/pipeline_controller_agent/controller.py:62-129 | If all three stages fail, the payload has the apology with confidence 0.0, no citations and a fallback trace id. Its warnings are the three failure messages in stage order, then the synthesis error. |
| PipelineProperties.UnderstandingFailureScenario | app/agents/pipeline_controller_agent/controller.py:62-90 | If stage 1 fails, its warning comes first. Retrieval and synthesis are then asked about the caller's original query, with the default retrievers. |
| PipelineProperties.RetrievalFailureScenario | app/agents/pipeline_controller_agent/controller.py:93-114 | If retrieval fails, synthesis receives no chunks and the fallback trace id, which the payload reports. The payload's retrieval trace is empty, and the retrieval warning is present. |
| PipelineProperties.SentinelScenario | app/agents/pipeline_controller_agent/controller.py:131-137 | The payload answer is never the sentinel. A sentinel answer yields the fixed message, confidence 0.0 and the explanatory warning. |
| PipelineProperties.WarningsIdentifyFailures | app/agents/pipeline_controller_agent/controller.py:145 | Two requests with equal controller warnings had the same stage failures, with the same error texts, and agree on the sentinel. |
| AsWritten.RetrievalSuccessRaises | app/agents/pipeline_controller_agent/controller.py:92-101 | As written, `run` raises at line 101 whenever retrieval succeeds. In the intended flow, that output feeds synthesis instead. |
| AsWritten.SynthesizerNeverCalled | app/agents/pipeline_controller_agent/controller.py:104-129 | As written, the result does not depend on the synthesizer. Every returned payload has the apology, confidence 0.0 and an attribute-error synthesis warning. |
| AsWritten.UnderstandingTraceOnlyOnFailure | app/agents/pipeline_controller_agent/controller.py:62-77 | As written, the `query_understanding` entry is present exactly when stage 1 failed. The intended flow always records it. |
| AsWritten.SynthesisSuccessRaises | app/agents/pipeline_controller_agent/controller.py:117-143 | With lines 101, 106, 114 and 150 reading the retrieval value in use, every successful synthesis raises `UnboundLocalError` at line 132, where the intended flow returns the synthesizer's answer. A failed synthesis returns the apology in both. |
| AsWritten.EverythingSucceedsExample | app/agents/pipeline_controller_agent/controller.py:92-101 | On a concrete request where every collaborator succeeds, a fresh controller raises. The intended flow returns the synthesizer's answer with no warnings. |

## Findings

| source | as written | input that shows it | evidently intended | confidence | as-written member | corrected member |
|---|---|---|---|---|---|---|
| app/agents/pipeline_controller_agent/controller.py:73-77 | The `query_understanding` trace entry is indented inside the `except`, so it is recorded only when stage 1 fails. | Stage 1 succeeds and retrieval fails: the payload's `query_understanding` is `{}`. | The entry is recorded on both paths. | not executed | AsWritten.UnderstandingTraceOnlyOnFailure | Controller.Run |
| app/agents/pipeline_controller_agent/controller.py:92-101 | A successful retrieval output is stored in `self.retrieval_agent_output`. The local `retrieval_output` read at line 101 is bound only in the `except`. | Any request where retrieval succeeds, such as `AsWritten.EverythingSucceedsExample`: `UnboundLocalError` at line 101. | The retrieval value in use, output or fallback, feeds the trace, synthesis and the payload. | not executed | AsWritten.RetrievalSuccessRaises | Controller.Run |
| app/agents/pipeline_controller_agent/controller.py:106-114 | The synthesis input reads the trace id from `self.retrieval_agent_output` and the chunks from `self.response_synthesizer_agent_output.chunks`. On the only path that reaches this code, one of them is missing. | Any request where retrieval fails: an `AttributeError` inside the stage-3 `try`, so the synthesizer is never called and the answer is the apology. | The chunks and trace id come from the retrieval value in use. | not executed | AsWritten.SynthesizerNeverCalled | Controller.Run |
| app/agents/pipeline_controller_agent/controller.py:117-143 | A successful synthesis output is stored in `self.response_synthesizer_agent_output`. The local `synthesis_output` read at lines 132 and 143 is bound only in the `except`. | A synthesizer call that returns normally, which becomes reachable once lines 101, 106, 114 and 150 read the retrieval value in use (`AsWritten.RunWithRetrievalRepaired`): `UnboundLocalError` at line 132. | The synthesis value in use feeds the sentinel check and the payload. | not executed | AsWritten.SynthesisSuccessRaises | Controller.Run |

## Left out

- Clock readings: `time.time()` (lines 45, 99, 140) and `datetime.now()` (line 59) are inputs (`Schema.Clock`). Float rounding of `time.time() * 1000` is not modelled: readings are exact reals.
- Float semantics of `confidence`: modelled as `real`. Only the literal 0.0 assignments are stated.
- Async/await and cancellation. `except Exception` does not catch a cancellation, which propagates out of `run`. The model has no cancellation. It also treats each request on one controller instance as running alone: with concurrent `run`s, lines 85-87 and 109 read `self.query_understanding_output` after an `await`, when another request may have overwritten it.
- The collaborators' internals (`QueryUnderstandingAgent`, `RetrievalOrchestratorAgent`, `ResponseSynthesizer`) are function parameters. An exception raised while building a stage's input record falls in the same `try`. It is folded into that collaborator's `Err` outcome.
- `load_dotenv()` and the `controller_config` import (lines 10-14, 27) are environment I/O. The three defaults are the `Schema.Config` parameter.
- The mutable `self.*` scratch fields (lines 53, 61, 82, 92, 105, 117) are locals in `Controller.Run`. `AsWritten` keeps only the one bit of cross-request state the literal text reads when requests on an instance do not interleave (`AsWritten.Instance`).
- The contents of chunks, citations, metrics, traces and `raw_model_output` are opaque `PyValues.Value`s passed through unchanged. Dictionary keys are strings only.
- `allow_agentic` is accepted by `run` and never read, so it has no effect in the model.
- The `getattr` defaults at lines 144-153 are never taken. Every synthesis value has all its fields, so the model reads the fields directly.
- `AsWritten.Describe`: exception messages use CPython 3.11 wording. Other Python versions word `UnboundLocalError` differently.
- `AsWritten.RunAsWritten` assumes that no code outside `run` assigns the controller's scratch fields.
