/** Whole pipelines put together from the SDK and the collector: the
    competitor-selection demo, and a run reported and fetched back. */
module Scenario {
  import opened Records
  import Enums
  import Sdk
  import Client
  import Api
  import Seqs
  import Analysis

  /** The demo: one filtering step keeps 3 of 150 candidates through one
      filter, and the run is finished and ingested, which the collector
      acknowledges with "success". The collector then reports the step at 98
      percent with the high-elimination flag and returns it for a filtering
      query at 50 percent. Identifiers and clock readings are given. */
  method CompetitorSelection(runId: string, stepId: string, t0: real, t1: real, t2: real, t3: real,
                             outcome: Sdk.SendOutcome)
    returns (payload: RunPayload, ack: Api.Ack, report: Api.DebugReport, found: seq<Api.QueryResult>)
    ensures payload.runId == runId && payload.pipelineName == "competitor_selection"
    ensures payload.context == map["product_id" := JStr("PHONE_CASE_123")] && payload.success
    ensures ack == Api.Ack("success", runId)
    ensures payload.steps == [StepRecord(stepId, runId, "apply_filters", "filtering", 150, 3,
                                         Some([FilterEntry("category_match", 147)]),
                                         Some("Exact category match applied"), (t2 - t1) * 1000.0)]
    ensures report == Api.DebugReport(runId, [Api.StepAnalysis("apply_filters", 98.0, [Api.HighElimination])])
    ensures found == [Api.QueryResult(runId, "apply_filters", 0.98)]
  {
    var run := Client.CreateXray("competitor_selection", runId, t0, Some(map["product_id" := JStr("PHONE_CASE_123")]));
    var ctx := run.Step("apply_filters", Enums.Value(Enums.Filtering), stepId, t1);
    var step := ctx.Enter();
    step.SetInputs(150);
    step.AddFilter("category_match", 147);
    assert step.filters == [] + [FilterEntry("category_match", 147)] == [FilterEntry("category_match", 147)];
    step.SetOutputs(3);
    step.SetReasoning(Some("Exact category match applied"));
    assert Enums.Value(Enums.Filtering) == "filtering";
    var suppressed := step.Exit(None, t2);
    var rec := run.steps[0];
    assert rec == StepRecord(stepId, runId, "apply_filters", "filtering", 150, 3,
                             Some([FilterEntry("category_match", 147)]),
                             Some("Exact category match applied"), (t2 - t1) * 1000.0);
    assert run.steps == [rec];
    payload := run.Finish(t3, outcome, success := true);

    var store := new Api.Store();
    ack := store.IngestRun(payload);
    report := store.DebugRun(runId);
    found := store.QueryRuns(Api.QueryRequest("filtering", 50.0));

    SingleStepAnswers(payload.steps[0], runId);
  }

  /** A caller runs its `with` blocks, catches a raise if one occurs, and
      finishes its run, passing as success whether no block raised (the run
      itself never derives success). The collector ingests the payload. Fetching
      the run back gives its run fields and every recorded step, in the order
      the steps finished: as many as blocks ran. The run keeps exactly the
      reported steps, and the store gains the run row and those steps. */
  method ReportAndFetch(run: Sdk.PipelineRun, blocks: seq<Sdk.Block>, store: Api.Store,
                        now: real, outcome: Sdk.SendOutcome)
    returns (payload: RunPayload, ack: Api.Ack, view: Api.RunView)
    requires run.StepsOwned()
    requires forall i :: 0 <= i < |store.runs| ==> store.runs[i].runId != run.runId
    requires forall i :: 0 <= i < |store.steps| ==> store.steps[i].runId != run.runId
    modifies run`steps, store
    ensures |payload.steps| == |old(run.steps)| + Sdk.Executed(blocks)
    ensures payload.steps[..|old(run.steps)|] == old(run.steps)
    ensures forall j :: 0 <= j < Sdk.Executed(blocks) ==>
      Sdk.RecordOf(payload.steps[|old(run.steps)| + j], blocks[j], run.runId)
    ensures payload.success <==> Sdk.FirstFailing(blocks) == |blocks|
    ensures run.steps == payload.steps
    ensures store.runs == old(store.runs) + [Api.RowOf(payload)]
    ensures store.steps == old(store.steps) + payload.steps
    ensures ack == Api.Ack("success", run.runId)
    ensures view == Api.RunView(Some(Api.RowOf(payload)), payload.steps)
  {
    var result := Sdk.WithSteps(run, blocks);
    payload := run.Finish(now, outcome, result == Sdk.Completed);
    Api.IngestThenGetRun(store.runs, store.steps, payload);
    ack := store.IngestRun(payload);
    view := store.GetRun(payload.runId);
  }

  /** What the collector answers about a store holding the demo's one step. */
  lemma SingleStepAnswers(rec: StepRecord, runId: string)
    requires rec.runId == runId && rec.stepName == "apply_filters" && rec.stepType == "filtering"
    requires rec.candidatesIn == 150 && rec.candidatesOut == 3
    ensures Api.DebugAnswer([rec], runId)
         == Api.DebugReport(runId, [Api.StepAnalysis("apply_filters", 98.0, [Api.HighElimination])])
    ensures Api.QueryAnswer([rec], Api.QueryRequest("filtering", 50.0))
         == [Api.QueryResult(runId, "apply_filters", 0.98)]
  {
    assert Analysis.EliminationRate(rec) == 0.98;
    Seqs.FilterSnoc([], rec, Api.OfRun(runId));
    Seqs.FilterSnoc([], rec, Api.Matches(Api.QueryRequest("filtering", 50.0)));
  }
}
