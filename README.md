# X-Ray decision-transparency telemetry, modelled in Dafny

This project models the telemetry core of the X-Ray SDK and its collector.

On the producer side, a pipeline creates a run (`create_xray`). It opens steps on that run. Each step records input and output candidate counts, the filters it applied and an optional reasoning text. Finishing a step appends exactly one record to its run, and a `with` block finishes its step on every exit path. Finishing the run builds the payload that is posted to the collector in the background.

On the collector side, a run payload is ingested into a store of run rows and step rows. The store can be read back by run id, queried by step type and minimum elimination percentage, and debugged run by run. A step whose elimination rate exceeds 0.9 gets the `HIGH_ELIMINATION` flag.

Files and modules:

- `records.dfy` (`Records`): the step record, the run payload, filter entries and the context map.
- `seqs.dfy` (`Seqs`): order-preserving selection. It gives the meaning of the store's `filter_by(...).all()` and of the filtering loops.
- `enums.dfy` (`Enums`): the four step types and their string values.
- `analysis.dfy` (`Analysis`): the elimination rate.
- `sdk.dfy` (`Sdk`): the classes `PipelineRun` and `StepContext`, plus the meaning of one `with` block and of a series of them.
- `client.dfy` (`Client`): the `create_xray` factory.
- `api.dfy` (`Api`): the store as a class, the four handlers, and the lemmas about their answers.
- `scenario.dfy` (`Scenario`): the competitor-selection demo end to end, and the round trip from a run to the collector and back.

The elimination rate is not clamped (api/analysis.py:28). The model proves the [0, 1] bound only when `0 <= out <= in` and `in > 0`, and proves that the rate is negative when `out > in > 0`. With `in == 0` the rate is 0 whatever `out` is.

## Model

| member | source | states |
|---|---|---|
| Enums.Parse | sdk/xray_sdk/enums.py:15-19 | A string that parses to a member is that member's value; unknown strings have no member |
| Enums.Value | sdk/xray_sdk/enums.py:16-19 | Each member's wire string ("filtering", "ranking", "generation", "selection") is non-empty and all lower-case; `Enums.ValueInjective` and `Enums.ParseValue` prove it distinct per member and inverted by parsing |
| Enums.Members | sdk/xray_sdk/enums.py:15-19 | There are exactly four members, and their string values are pairwise distinct |
| Enums.MembersComplete | sdk/xray_sdk/enums.py:15-19 | Every step type is among the four listed members |
| Enums.ParseValue | sdk/xray_sdk/enums.py:16-19 | Parsing inverts taking the value ("filtering", "ranking", "generation", "selection"), and a string parses iff it is one of the four values |
| Enums.ValueInjective | sdk/xray_sdk/enums.py:16-19 | Distinct members have distinct string values |
| Analysis.EliminationRate | api/analysis.py:24-28 | The rate is exactly 0 when the input count is 0, whatever the output count; otherwise rate × in = in − out |
| Analysis.RateInUnitInterval | api/analysis.py:28 | With 0 <= out <= in and in > 0, the rate lies in [0, 1] |
| Analysis.RateExtremes | api/analysis.py:28 | out = in > 0 gives rate 0, and out = 0 < in gives rate 1 |
| Analysis.RateNegativeWhenOutputExceedsInput | api/analysis.py:24-28 | There is no clamping: out > in > 0 gives a negative rate |
| Analysis.RateStrictlyDecreasing | api/analysis.py:28 | For a fixed positive input, a larger output gives a strictly smaller rate |
| Sdk.PipelineRun.constructor | sdk/xray_sdk/run.py:18-23 | A new run has the fresh id, keeps the given name and context unchanged, starts at `now` and has no steps |
| Sdk.PipelineRun.Step | sdk/xray_sdk/run.py:40-42 | Returns a new blank step bound to this run with the given name and type; the run's steps are not in its frame, so they do not change |
| Sdk.PipelineRun.Finish | sdk/xray_sdk/run.py:54-91 | The payload carries the run id, name, context, the given success flag (default true), total duration (now − start) × 1000 and all recorded steps in order. The call returns normally for every send outcome and changes nothing. If every step names this run, so does every payload step |
| Sdk.StepContext.constructor | sdk/xray_sdk/step.py:15-24 | A fresh step is bound to its run and has 0 inputs, 0 outputs, no filters and no reasoning |
| Sdk.StepContext.SetInputs | sdk/xray_sdk/step.py:26-27 | Sets the input count and may change no other field |
| Sdk.StepContext.SetOutputs | sdk/xray_sdk/step.py:29-30 | Sets the output count and may change no other field |
| Sdk.StepContext.AddFilter | sdk/xray_sdk/step.py:32-42 | Appends exactly one {name, eliminated} entry at the end; earlier entries are unchanged |
| Sdk.StepContext.SetReasoning | sdk/xray_sdk/step.py:44-45 | Stores the given reasoning, or makes it absent again when given none, and may change no other field |
| Sdk.StepContext.Finish | sdk/xray_sdk/step.py:47-65 | Appends exactly one record and leaves earlier records unchanged. The record carries this step's id, name, type, counts, filters and reasoning, the run's id, and duration (now − start) × 1000, which is non-negative when now >= start. There is no guard, so every call appends |
| Sdk.StepContext.Enter | sdk/xray_sdk/step.py:67-68 | Entering the block yields the step itself |
| Sdk.StepContext.Exit | sdk/xray_sdk/step.py:70-77 | Leaving the block, with or without an exception, finishes the step (one record appended) and returns false, so the exception is not suppressed |
| Sdk.WithStep | sdk/xray_sdk/step.py:67-77 | A `with` block whose body raises partway still appends exactly one record. The record holds what the body set before raising, and the block ends with that exception |
| Sdk.WithSteps | sdk/xray_sdk/step.py:55-77 | After consecutive `with` blocks, each finishing its step on exit (the append at step.py:55 into the run's list created at run.py:22), the run has one new record per block that ran, in finish order; a raise stops the blocks after it |
| Client.CreateXray | sdk/xray_sdk/client.py:5-6 | The new run has the given pipeline name and no steps. A missing context becomes the empty map, and a given context is kept unchanged |
| Api.FirstRun | api/main.py:83 | Absent iff no run row has the id; otherwise the first row with that id |
| Api.RowOf | api/main.py:49-55 | The run row copies the payload's run id, pipeline name, context, success flag and total duration |
| Api.FilterOfRunMembers | api/main.py:84 | The steps fetched for a run are exactly the stored steps with that run id |
| Api.Store.IngestRun | api/main.py:49-70 | The store gains one run row copying the payload's run fields, and one step row per payload step in payload order, all at the commit. The call returns status "success" with the payload's run id |
| Api.Store.GetRun | api/main.py:83-89 | The run part is absent iff no stored run has the id, and is otherwise a stored row with that id. The steps are exactly the stored steps with that run id |
| Api.QueryAnswer | api/main.py:101-116 | The query answer has at most one result per stored step, and every result's rate is at least pct / 100; `Api.QueryAnswerMembers` states exactly which results appear |
| Api.Flags | api/main.py:133-139 | The flags are either empty or exactly ["HIGH_ELIMINATION"], and they hold the flag iff the rate is strictly above 0.9 |
| Api.Analyze | api/main.py:141-145 | One analysis entry keeps the step name. Its reduction rate is 0 with no flags when the input is 0, and otherwise satisfies rate × in = 100 × (in − out). It is flagged iff the reduction rate is above 90 |
| Api.DebugAnswer | api/main.py:127-150 | The debug report echoes the run id, has at most one entry per stored step, and every entry's flags are empty or exactly ["HIGH_ELIMINATION"] |
| Api.Store.QueryRuns | api/main.py:101-116 | The results equal the query answer: the stored steps of the requested type whose rate is at least pct / 100, in fetch order, each given as {run_id, step_name, rate} |
| Api.Store.DebugRun | api/main.py:127-150 | The report echoes the run id and has one entry per stored step of the run, in fetch order: the step name, rate × 100, and the flag iff the rate is above 0.9 |
| Api.QueryAnswerMembers | api/main.py:101-114 | A result is returned iff some stored step has the requested type and a rate at least pct / 100, and the result copies that step's run id, name and rate |
| Api.QueryAnswerConcat | api/main.py:105-114 | Results keep store order: results for steps stored earlier come first |
| Api.MatchesInCounts | api/main.py:109 | For a step with input, the query test is the same as 100 × (in − out) >= pct × in |
| Api.QueryThresholdIsInclusive | api/main.py:109 | A filtering step with in = 100 and out = 10 (rate 0.9) is returned at pct = 90 and not at pct = 91 |
| Api.QueryByTypeScenario | api/main.py:101-114 | At pct = 50, a filtering step at rate 0.6 is returned and a ranking step at rate 0.9 is not |
| Api.FlaggedInCounts | api/main.py:133-139 | Flags are either empty or exactly ["HIGH_ELIMINATION"]; for a non-negative input, a step is flagged iff in > 0 and 10 × out < in |
| Api.ReductionRateInRange | api/main.py:143 | For 0 <= out <= in with in > 0, the reduction rate lies in [0, 100] |
| Api.ZeroInputIsNotFlagged | api/main.py:132-143 | A step with no input is reported at 0 percent with no flags, whatever its output count |
| Api.HighEliminationIsStrict | api/main.py:138-143 | Rate 0.9 gives 90 and no flag; rate 0.91 gives 91 with the flag; 150 in and 3 out gives 98 with the flag |
| Api.DebugAnswerConcat | api/main.py:127-145 | Debug entries keep store order |
| Api.DebugTwoStepScenario | api/main.py:127-150 | For a run with steps of 150→3 and 3→3, stored after other runs' steps, the report lists exactly those two steps in order, at 98 (flagged) and 0 (not flagged) |
| Api.StepsOfRunAfterOthers | api/main.py:84 | Steps of one run stored after other runs' steps are fetched alone and in their order |
| Api.IngestThenGetRun | api/main.py:49-89 | Ingest a run whose id the store has not seen, and whose steps all carry that id. Fetching it back gives a run row equal to the payload's run fields and exactly the payload's steps, in order |
| Scenario.CompetitorSelection | demo/competitor_selection.py:10-46 | The demo's single FILTERING step (150 in, filter eliminated 147, 3 out) is recorded with the "filtering" value. Ingest acknowledges the run with ("success", run id). The collector reports it at 98 with the flag, and a "filtering" query at 50 percent returns it at rate 0.98 |
| Scenario.SingleStepAnswers | api/main.py:101-150 | The debug report and the query answer for a store that holds only the demo's step |
| Scenario.ReportAndFetch | sdk/xray_sdk/run.py:54-62 | A caller runs its blocks, catches a raise if one occurs, and then finishes the run, passing success = "no block raised" (the source takes success from its caller and never derives it). The payload has one step per block that ran, in order. The run then holds exactly the payload's steps. Ingest returns ("success", run id) and gives the store one run row and the payload's steps. Fetching the run back returns the payload's run fields and exactly its steps |

## Left out

- The background HTTP POST, the thread, the 1-second bounded join, the 5-second request timeout and the failure `print` (sdk/xray_sdk/run.py:71-91) are network I/O and concurrency. `PipelineRun.Finish` takes the send outcome as a parameter, ignores it and returns the payload that would be posted.
- `time.time()` and `uuid.uuid4()` are not modelled: clock readings (`now`) and identifiers (`freshId`) are parameters. The model does not capture that identifiers are unique; the round-trip lemmas take "the store has not seen this id" as a hypothesis instead.
- Python lists and dicts are shared by reference. The step record's `filters_applied` is the step's own list, and the payload's `steps` is the run's own list. A non-empty context dict passes through `create_xray` as the caller's own object (sdk/xray_sdk/client.py:6). The run stores that object (sdk/xray_sdk/run.py:21), and the payload holds it (sdk/xray_sdk/run.py:58) until the send thread serialises it. Here all of these are values. The record is a snapshot of the filters at finish time. The payload is a snapshot of the steps. `Client.CreateXray` and `Sdk.PipelineRun` keep the context map as it was at creation. The model therefore does not capture three later in-place changes showing up: a later `add_filter` in an already-recorded step; a step finished after `PipelineRun.finish` in a payload not yet serialised; and a change to the caller's context dict in the run's context and in its payload.
- Sdk.StepContext.Finish: a non-negative duration is promised only when `now >= start`, because nothing in the source orders clock readings.
- Sdk.StepContext.Exit: the exception triple `(exc_type, exc, tb)` is reduced to an optional description, which the method does not inspect.
- Run id, pipeline name, context and start time are constant fields. The source never reassigns these attributes, but Python would let a caller do so. The context is constant only as a binding: the source does not copy the dict, whose contents can still change in place (see the line above).
- Counts, elimination rates and percentages use unbounded integers and exact reals instead of Python floats. IEEE rounding, including at the 0.9 boundary, is not modelled.
- Context values are limited to null, booleans, integers and strings; nested and floating-point JSON values are left out.
- The FastAPI application, `Depends`, the session lifecycle and `create_all` (api/main.py:17-34), the engine setup in api/db.py, and the Pydantic validation in api/schemas.py are framework plumbing. The schemas only shape the datatypes. A payload the validation would reject is not modelled.
- The ORM `models` module is not part of this model. The store is two append-only sequences, and `filter_by(...).all()` returns rows in insertion order. Primary-key or other constraint failures at commit are not modelled, so a duplicate run id is simply stored twice. `get_run` returns the first matching row.
- The demo's `random.sample` and its prints are left out. The demo's fixed counts appear in `Scenario.CompetitorSelection`.
