/** The shapes exchanged between the SDK and the collector: the step record
    that a finished step appends to its run, and the run payload that a
    finished run hands to the transport. The collector stores the same
    shapes as rows (a step row is built from the step's fields one to one). */
module Records {

  datatype Option<+T> = None | Some(value: T)

  /** A JSON-like value of the free-form run context (`Dict[str, Any]`). */
  datatype Json = JNull | JBool(b: bool) | JInt(i: int) | JStr(s: string)

  type Context = map<string, Json>

  /** One entry of a step's `filters_applied` list: `{name, eliminated}`. */
  datatype FilterEntry = FilterEntry(name: string, eliminated: int)

  /** The step dictionary built by `StepContext.finish`, which is also the
      shape of a stored step row. Counts are Python ints and are not checked,
      so they may be negative. */
  datatype StepRecord = StepRecord(
    stepId: string,
    runId: string,
    stepName: string,
    stepType: string,
    candidatesIn: int,
    candidatesOut: int,
    filtersApplied: Option<seq<FilterEntry>>,
    reasoning: Option<string>,
    durationMs: real)

  /** The payload posted to the collector by `PipelineRun.finish`. */
  datatype RunPayload = RunPayload(
    runId: string,
    pipelineName: string,
    context: Context,
    success: bool,
    totalDurationMs: real,
    steps: seq<StepRecord>)
}
