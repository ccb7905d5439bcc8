/** The public entry point of the SDK. */
module Client {
  import opened Records
  import Sdk

  /** `create_xray(pipeline_name, context=None)`: a new run whose context is
      the given one, or the empty map when none is given (an empty context is
      the empty map either way). The context is kept as a value, a snapshot
      of the caller's map at creation. */
  method CreateXray(pipelineName: string, freshId: string, now: real, context: Option<Context> := None)
    returns (run: Sdk.PipelineRun)
    ensures fresh(run)
    ensures run.runId == freshId && run.pipelineName == pipelineName && run.start == now
    ensures context.None? ==> run.context == map[]
    ensures context.Some? ==> run.context == context.value
    ensures run.steps == [] && run.StepsOwned()
  {
    run := new Sdk.PipelineRun(pipelineName, if context.Some? then context.value else map[], freshId, now);
  }
}
