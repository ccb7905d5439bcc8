/** The producer side: a run that collects step records, and the builder for
    one step that appends its record to the run when it finishes. Both live in
    one module because each refers to the other.

    Clock readings and fresh identifiers are parameters (`now`, `freshId`),
    and the outcome of the background send is a parameter that `finish`
    ignores. Lists are values here: the record a step appends is a snapshot
    of its filters, and the payload a run builds is a snapshot of its steps. */
module Sdk {
  import opened Records

  /** What the background send to the collector ended with. */
  datatype SendOutcome = Delivered | HttpError(status: int) | ConnectionFailed | TimedOut

  class PipelineRun {
    const runId: string
    const pipelineName: string
    const context: Context
    const start: real
    var steps: seq<StepRecord>

    /** Every recorded step names this run. */
    ghost predicate StepsOwned()
      reads this
    {
      forall i :: 0 <= i < |steps| ==> steps[i].runId == runId
    }

    constructor (pipelineName: string, context: Context, freshId: string, now: real)
      ensures runId == freshId && this.pipelineName == pipelineName && this.context == context
      ensures start == now && steps == []
      ensures StepsOwned()
    {
      runId := freshId;
      this.pipelineName := pipelineName;
      this.context := context;
      steps := [];
      start := now;
    }

    /** Opens a step bound to this run. It records nothing yet: the method
        has no frame on `steps`. */
    method Step(name: string, stepType: string, freshId: string, now: real) returns (s: StepContext)
      ensures fresh(s) && s.run == this
      ensures s.stepId == freshId && s.name == name && s.stepType == stepType && s.start == now
      ensures s.Blank()
    {
      s := new StepContext(this, name, stepType, freshId, now);
    }

    /** Builds the payload handed to the transport. Whatever the send reports,
        control comes back normally and the run is left as it was (the method
        may change nothing). `success` defaults to true. */
    method Finish(now: real, outcome: SendOutcome, success: bool := true) returns (payload: RunPayload)
      ensures payload.runId == runId && payload.pipelineName == pipelineName
      ensures payload.context == context && payload.success == success
      ensures payload.totalDurationMs == (now - start) * 1000.0
      ensures now >= start ==> payload.totalDurationMs >= 0.0
      ensures payload.steps == steps
      ensures StepsOwned() ==> forall i :: 0 <= i < |payload.steps| ==> payload.steps[i].runId == payload.runId
    {
      payload := RunPayload(runId, pipelineName, context, success, (now - start) * 1000.0, steps);
    }
  }

  class StepContext {
    const run: PipelineRun
    const stepId: string
    const name: string
    const stepType: string
    const start: real
    var candidatesIn: int
    var candidatesOut: int
    var filters: seq<FilterEntry>
    var reasoning: Option<string>

    /** The state of a step nobody has written to yet. */
    ghost predicate Blank()
      reads this
    {
      candidatesIn == 0 && candidatesOut == 0 && filters == [] && reasoning == None
    }

    /** `r` is the record of this step finished at time `now`. */
    ghost predicate Describes(r: StepRecord, now: real)
      reads this
    {
      && r.stepId == stepId && r.runId == run.runId
      && r.stepName == name && r.stepType == stepType
      && r.candidatesIn == candidatesIn && r.candidatesOut == candidatesOut
      && r.filtersApplied == Some(filters) && r.reasoning == reasoning
      && r.durationMs == (now - start) * 1000.0
    }

    constructor (run: PipelineRun, name: string, stepType: string, freshId: string, now: real)
      ensures this.run == run && stepId == freshId && this.name == name
      ensures this.stepType == stepType && start == now
      ensures Blank()
    {
      this.run := run;
      stepId := freshId;
      this.name := name;
      this.stepType := stepType;
      start := now;
      candidatesIn, candidatesOut := 0, 0;
      filters := [];
      reasoning := None;
    }

    method SetInputs(count: int)
      modifies this`candidatesIn
      ensures candidatesIn == count
    {
      candidatesIn := count;
    }

    method SetOutputs(count: int)
      modifies this`candidatesOut
      ensures candidatesOut == count
    {
      candidatesOut := count;
    }

    method AddFilter(filterName: string, eliminated: int)
      modifies this`filters
      ensures filters == old(filters) + [FilterEntry(filterName, eliminated)]
    {
      filters := filters + [FilterEntry(filterName, eliminated)];
    }

    /** Stores the given text; passing none makes the reasoning absent again. */
    method SetReasoning(text: Option<string>)
      modifies this`reasoning
      ensures reasoning == text
    {
      reasoning := text;
    }

    /** Appends exactly one record of this step to the run and leaves the
        earlier records alone. Nothing guards against a second call, which
        appends a second record. */
    method Finish(now: real)
      modifies run`steps
      ensures |run.steps| == |old(run.steps)| + 1
      ensures run.steps[..|old(run.steps)|] == old(run.steps)
      ensures Describes(run.steps[|old(run.steps)|], now)
      ensures now >= start ==> run.steps[|old(run.steps)|].durationMs >= 0.0
      ensures old(run.StepsOwned()) ==> run.StepsOwned()
    {
      var duration := (now - start) * 1000.0;
      run.steps := run.steps + [StepRecord(stepId, run.runId, name, stepType, candidatesIn,
                                           candidatesOut, Some(filters), reasoning, duration)];
    }

    /** Entering the `with` block yields the step itself. */
    method Enter() returns (s: StepContext)
      ensures s == this
    {
      s := this;
    }

    /** Leaving the `with` block, normally or by an exception: the step is
        finished, and the false result lets any exception go on. */
    method Exit(exception: Option<string>, now: real) returns (suppress: bool)
      modifies run`steps
      ensures !suppress
      ensures |run.steps| == |old(run.steps)| + 1
      ensures run.steps[..|old(run.steps)|] == old(run.steps)
      ensures Describes(run.steps[|old(run.steps)|], now)
      ensures old(run.StepsOwned()) ==> run.StepsOwned()
    {
      Finish(now);
      suppress := false;
    }

    /** The builder's fields equal the draft `d`. */
    ghost predicate Holds(d: Draft)
      reads this
    {
      candidatesIn == d.candidatesIn && candidatesOut == d.candidatesOut
      && filters == d.filters && reasoning == d.reasoning
    }
  }

  /** One statement of a `with` block body: a call on the step, or a raise. */
  datatype StepOp =
    | SetInputs(count: int)
    | SetOutputs(count: int)
    | AddFilter(filterName: string, eliminated: int)
    | SetReasoning(text: Option<string>)
    | Raise(error: string)

  datatype BlockOutcome = Completed | Raised(error: string)

  /** The fields a step builder accumulates, as a value. */
  datatype Draft = Draft(candidatesIn: int, candidatesOut: int, filters: seq<FilterEntry>, reasoning: Option<string>)

  function Apply(d: Draft, op: StepOp): Draft
  {
    match op
    case SetInputs(n) => d.(candidatesIn := n)
    case SetOutputs(n) => d.(candidatesOut := n)
    case AddFilter(f, e) => d.(filters := d.filters + [FilterEntry(f, e)])
    case SetReasoning(t) => d.(reasoning := t)
    case Raise(_) => d
  }

  /** The draft after running `ops` on a fresh step. */
  function Replay(ops: seq<StepOp>): Draft
    decreases |ops|
  {
    if ops == [] then Draft(0, 0, [], None)
    else Apply(Replay(ops[..|ops| - 1]), ops[|ops| - 1])
  }

  /** The position of the first raise in a body, or its length if none. */
  function FirstRaise(body: seq<StepOp>): (k: nat)
    ensures k <= |body|
    ensures forall j :: 0 <= j < k ==> !body[j].Raise?
    ensures k < |body| ==> body[k].Raise?
  {
    if body == [] then 0
    else if body[0].Raise? then 0
    else 1 + FirstRaise(body[1..])
  }

  /** How a block with this body ends. */
  function OutcomeOf(body: seq<StepOp>): BlockOutcome
  {
    var k := FirstRaise(body);
    if k < |body| then Raised(body[k].error) else Completed
  }

  /** `with run.step(name, stepType) as s: body`. The body runs up to its
      first raise; whichever way it ends, exactly one record is appended, it
      reflects what the body did before raising, and the exception is not
      suppressed. */
  method WithStep(run: PipelineRun, name: string, stepType: string, freshId: string,
                  start: real, body: seq<StepOp>, end: real)
    returns (outcome: BlockOutcome, step: StepContext)
    modifies run`steps
    ensures fresh(step) && step.run == run && step.stepId == freshId
    ensures step.name == name && step.stepType == stepType && step.start == start
    ensures outcome == OutcomeOf(body)
    ensures step.Holds(Replay(body[..FirstRaise(body)]))
    ensures |run.steps| == |old(run.steps)| + 1
    ensures run.steps[..|old(run.steps)|] == old(run.steps)
    ensures step.Describes(run.steps[|old(run.steps)|], end)
    ensures RecordOf(run.steps[|old(run.steps)|], Block(name, stepType, freshId, start, body, end), run.runId)
    ensures old(run.StepsOwned()) ==> run.StepsOwned()
  {
    var ctx := run.Step(name, stepType, freshId, start);
    step := ctx.Enter();
    var i := 0;
    while i < |body| && !body[i].Raise?
      invariant 0 <= i <= |body|
      invariant forall j :: 0 <= j < i ==> !body[j].Raise?
      invariant step.Holds(Replay(body[..i]))
      invariant run.steps == old(run.steps)
      decreases |body| - i
    {
      assert body[..i + 1][..i] == body[..i];
      match body[i] {
        case SetInputs(n) => step.SetInputs(n);
        case SetOutputs(n) => step.SetOutputs(n);
        case AddFilter(f, e) => step.AddFilter(f, e);
        case SetReasoning(t) => step.SetReasoning(t);
      }
      i := i + 1;
    }
    assert i == FirstRaise(body);
    outcome := if i < |body| then Raised(body[i].error) else Completed;
    var suppressed := step.Exit(if outcome.Raised? then Some(outcome.error) else None, end);
  }

  /** One `with run.step(...)` statement of a pipeline, with the identifier
      and the clock readings it will get. */
  datatype Block = Block(name: string, stepType: string, stepId: string,
                         start: real, body: seq<StepOp>, end: real)

  /** `r` is what the block `b` records in the run `runId`. */
  ghost predicate RecordOf(r: StepRecord, b: Block, runId: string)
  {
    var d := Replay(b.body[..FirstRaise(b.body)]);
    && r.stepId == b.stepId && r.runId == runId
    && r.stepName == b.name && r.stepType == b.stepType
    && r.candidatesIn == d.candidatesIn && r.candidatesOut == d.candidatesOut
    && r.filtersApplied == Some(d.filters) && r.reasoning == d.reasoning
    && r.durationMs == (b.end - b.start) * 1000.0
  }

  /** The position of the first block whose body raises, or the number of blocks. */
  function FirstFailing(blocks: seq<Block>): (k: nat)
    ensures k <= |blocks|
    ensures forall j :: 0 <= j < k ==> OutcomeOf(blocks[j].body) == Completed
    ensures k < |blocks| ==> OutcomeOf(blocks[k].body).Raised?
  {
    if blocks == [] then 0
    else if OutcomeOf(blocks[0].body).Raised? then 0
    else 1 + FirstFailing(blocks[1..])
  }

  /** How many blocks run: all up to and including the first that raises. */
  function Executed(blocks: seq<Block>): nat
  {
    var k := FirstFailing(blocks);
    if k < |blocks| then k + 1 else k
  }

  /** Consecutive `with` blocks. Each block that runs records exactly one
      step, in the order the blocks finish; an exception leaves its block
      (after its step is recorded) and skips the blocks after it. */
  method WithSteps(run: PipelineRun, blocks: seq<Block>) returns (outcome: BlockOutcome)
    modifies run`steps
    ensures |run.steps| == |old(run.steps)| + Executed(blocks)
    ensures run.steps[..|old(run.steps)|] == old(run.steps)
    ensures forall j :: 0 <= j < Executed(blocks) ==>
      RecordOf(run.steps[|old(run.steps)| + j], blocks[j], run.runId)
    ensures old(run.StepsOwned()) ==> run.StepsOwned()
    ensures outcome == if FirstFailing(blocks) < |blocks|
                       then OutcomeOf(blocks[FirstFailing(blocks)].body) else Completed
  {
    var n0 := |run.steps|;
    outcome := Completed;
    var i := 0;
    while i < |blocks| && outcome == Completed
      invariant 0 <= i <= |blocks|
      invariant outcome == Completed ==> forall j :: 0 <= j < i ==> OutcomeOf(blocks[j].body) == Completed
      invariant outcome != Completed ==> 0 < i && i - 1 == FirstFailing(blocks) && outcome == OutcomeOf(blocks[i - 1].body)
      invariant |run.steps| == n0 + i
      invariant run.steps[..n0] == old(run.steps)
      invariant forall j :: 0 <= j < i ==> RecordOf(run.steps[n0 + j], blocks[j], run.runId)
      invariant old(run.StepsOwned()) ==> run.StepsOwned()
      decreases |blocks| - i
    {
      var b := blocks[i];
      ghost var before := run.steps;
      var o, step := WithStep(run, b.name, b.stepType, b.stepId, b.start, b.body, b.end);
      assert forall j :: 0 <= j < |before| ==> run.steps[j] == before[j];
      outcome := o;
      i := i + 1;
    }
  }
}
