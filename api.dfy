/** The collector: an append-only store of run rows and step rows, and the
    four request handlers over it (ingest, fetch by run, query by step type
    and elimination, debug one run). The store's `filter_by(...).all()` is
    `Seqs.Filter`, which keeps store order. */
module Api {
  import opened Records
  import opened Seqs
  import opened Analysis

  /** A stored run: the payload's run fields without its steps. */
  datatype RunRow = RunRow(runId: string, pipelineName: string, context: Context,
                           success: bool, totalDurationMs: real)

  datatype Ack = Ack(status: string, runId: string)

  datatype RunView = RunView(run: Option<RunRow>, steps: seq<StepRecord>)

  /** An analytical query: a step type and a minimum elimination percentage. */
  datatype QueryRequest = QueryRequest(stepType: string, minCandidatesEliminatedPct: real)

  datatype QueryResult = QueryResult(runId: string, stepName: string, eliminationRate: real)

  datatype StepAnalysis = StepAnalysis(stepName: string, reductionRate: real, flags: seq<string>)

  datatype DebugReport = DebugReport(runId: string, stepAnalysis: seq<StepAnalysis>)

  const HighElimination := "HIGH_ELIMINATION"

  function RowOf(p: RunPayload): (r: RunRow)
    ensures r.runId == p.runId && r.pipelineName == p.pipelineName && r.context == p.context
    ensures r.success == p.success && r.totalDurationMs == p.totalDurationMs
  {
    RunRow(p.runId, p.pipelineName, p.context, p.success, p.totalDurationMs)
  }

  /** `filter_by(run_id=...)` */
  function OfRun(runId: string): StepRecord -> bool
  {
    (s: StepRecord) => s.runId == runId
  }

  /** `filter_by(step_type=...)` */
  function OfType(stepType: string): StepRecord -> bool
  {
    (s: StepRecord) => s.stepType == stepType
  }

  /** The threshold test of the query loop. */
  function RateAtLeast(threshold: real): StepRecord -> bool
  {
    (s: StepRecord) => EliminationRate(s) >= threshold
  }

  /** Both tests of a query. */
  function Matches(query: QueryRequest): StepRecord -> bool
  {
    (s: StepRecord) => s.stepType == query.stepType && EliminationRate(s) >= query.minCandidatesEliminatedPct / 100.0
  }

  /** `filter_by(run_id=...).first()` on the run table. */
  function FirstRun(runs: seq<RunRow>, runId: string): (r: Option<RunRow>)
    ensures r.None? <==> forall i :: 0 <= i < |runs| ==> runs[i].runId != runId
    ensures r.Some? ==> exists i :: 0 <= i < |runs| && runs[i] == r.value && r.value.runId == runId
                                   && forall j :: 0 <= j < i ==> runs[j].runId != runId
  {
    if runs == [] then None
    else if runs[0].runId == runId then Some(runs[0])
    else
      var r := FirstRun(runs[1..], runId);
      assert forall i :: 1 <= i < |runs| ==> runs[i] == runs[1..][i - 1];
      r
  }

  /** The steps fetched for a run are exactly the stored steps naming it. */
  lemma FilterOfRunMembers(steps: seq<StepRecord>, runId: string)
    ensures forall s :: s in Filter(steps, OfRun(runId)) <==> s in steps && s.runId == runId
  {
    forall s {
      FilterMembers(steps, OfRun(runId), s);
    }
  }

  function ResultOf(s: StepRecord): QueryResult
  {
    QueryResult(s.runId, s.stepName, EliminationRate(s))
  }

  function Results(ss: seq<StepRecord>): seq<QueryResult>
  {
    seq(|ss|, i requires 0 <= i < |ss| => ResultOf(ss[i]))
  }

  /** The answer to a query against the stored steps `steps`. */
  function QueryAnswer(steps: seq<StepRecord>, query: QueryRequest): (r: seq<QueryResult>)
    ensures |r| <= |steps|
    ensures forall i :: 0 <= i < |r| ==> r[i].eliminationRate >= query.minCandidatesEliminatedPct / 100.0
  {
    Results(Filter(steps, Matches(query)))
  }

  function Flags(rate: real): (r: seq<string>)
    ensures r == [] || r == [HighElimination]
    ensures HighElimination in r <==> rate > 0.9
  {
    if rate > 0.9 then [HighElimination] else []
  }

  function Analyze(s: StepRecord): (r: StepAnalysis)
    ensures r.stepName == s.stepName
    ensures s.candidatesIn == 0 ==> r.reductionRate == 0.0 && r.flags == []
    ensures s.candidatesIn != 0 ==>
      r.reductionRate * s.candidatesIn as real == 100.0 * (s.candidatesIn - s.candidatesOut) as real
    ensures HighElimination in r.flags <==> r.reductionRate > 90.0
  {
    StepAnalysis(s.stepName, EliminationRate(s) * 100.0, Flags(EliminationRate(s)))
  }

  function Analyses(ss: seq<StepRecord>): seq<StepAnalysis>
  {
    seq(|ss|, i requires 0 <= i < |ss| => Analyze(ss[i]))
  }

  /** The debug report on run `runId` against the stored steps `steps`. */
  function DebugAnswer(steps: seq<StepRecord>, runId: string): (r: DebugReport)
    ensures r.runId == runId
    ensures |r.stepAnalysis| <= |steps|
    ensures forall i :: 0 <= i < |r.stepAnalysis| ==>
      r.stepAnalysis[i].flags == [] || r.stepAnalysis[i].flags == [HighElimination]
  {
    DebugReport(runId, Analyses(Filter(steps, OfRun(runId))))
  }

  class Store {
    var runs: seq<RunRow>
    var steps: seq<StepRecord>

    constructor ()
      ensures runs == [] && steps == []
    {
      runs, steps := [], [];
    }

    /** Adds the run row and one row per step to the session, then commits
        them together: the tables change only at the commit. */
    method IngestRun(run: RunPayload) returns (ack: Ack)
      modifies this
      ensures runs == old(runs) + [RowOf(run)]
      ensures steps == old(steps) + run.steps
      ensures ack == Ack("success", run.runId)
    {
      var pendingRun := RowOf(run);
      var pendingSteps := [];
      for i := 0 to |run.steps|
        invariant pendingSteps == run.steps[..i]
      {
        pendingSteps := pendingSteps + [run.steps[i]];
      }
      assert run.steps[..|run.steps|] == run.steps;
      runs := runs + [pendingRun];
      steps := steps + pendingSteps;
      ack := Ack("success", run.runId);
    }

    /** The run row (the first with this id, if any) and the steps stored for it. */
    function GetRun(runId: string): (v: RunView)
      reads this
      ensures v.run.None? <==> forall i :: 0 <= i < |runs| ==> runs[i].runId != runId
      ensures v.run.Some? ==> v.run.value in runs && v.run.value.runId == runId
      ensures forall s :: s in v.steps <==> s in steps && s.runId == runId
    {
      FilterOfRunMembers(steps, runId);
      RunView(FirstRun(runs, runId), Filter(steps, OfRun(runId)))
    }

    /** Fetches the steps of the requested type, then keeps, in fetch order,
        those whose elimination rate reaches `pct / 100`. */
    method QueryRuns(query: QueryRequest) returns (results: seq<QueryResult>)
      ensures results == QueryAnswer(steps, query)
    {
      var fetched := Filter(steps, OfType(query.stepType));
      var threshold := query.minCandidatesEliminatedPct / 100.0;
      results := [];
      for i := 0 to |fetched|
        invariant results == Results(Filter(fetched[..i], RateAtLeast(threshold)))
      {
        var step := fetched[i];
        var rate := EliminationRate(step);
        assert fetched[..i + 1] == fetched[..i] + [step];
        FilterSnoc(fetched[..i], step, RateAtLeast(threshold));
        if rate >= threshold {
          results := results + [QueryResult(step.runId, step.stepName, rate)];
        }
      }
      assert fetched[..|fetched|] == fetched;
      FilterTwice(steps, OfType(query.stepType), RateAtLeast(threshold), Matches(query));
    }

    /** One analysis entry per stored step of the run, in fetch order. */
    method DebugRun(runId: string) returns (report: DebugReport)
      ensures report == DebugAnswer(steps, runId)
    {
      var fetched := Filter(steps, OfRun(runId));
      var analysis := [];
      for i := 0 to |fetched|
        invariant analysis == Analyses(fetched[..i])
      {
        var step := fetched[i];
        var rate := EliminationRate(step);
        var flags := [];
        if rate > 0.9 {
          flags := flags + [HighElimination];
        }
        assert StepAnalysis(step.stepName, rate * 100.0, flags) == Analyze(step);
        analysis := analysis + [StepAnalysis(step.stepName, rate * 100.0, flags)];
        assert fetched[..i + 1] == fetched[..i] + [step];
        assert Analyses(fetched[..i + 1]) == Analyses(fetched[..i]) + [Analyze(step)];
      }
      assert fetched[..|fetched|] == fetched;
      report := DebugReport(runId, analysis);
    }
  }

  // ---- properties of the handlers' answers ----

  /** A result is in the answer iff some stored step of the requested type
      reaches the threshold (inclusive) and the result copies its run id,
      its name and its rate. */
  lemma QueryAnswerMembers(steps: seq<StepRecord>, query: QueryRequest, r: QueryResult)
    ensures r in QueryAnswer(steps, query) <==>
      exists s :: s in steps && s.stepType == query.stepType
               && EliminationRate(s) >= query.minCandidatesEliminatedPct / 100.0
               && r == QueryResult(s.runId, s.stepName, EliminationRate(s))
  {
    var kept := Filter(steps, Matches(query));
    var answer := QueryAnswer(steps, query);
    if r in answer {
      var i :| 0 <= i < |answer| && answer[i] == r;
      FilterMembers(steps, Matches(query), kept[i]);
    }
    if exists s :: s in steps && s.stepType == query.stepType
               && EliminationRate(s) >= query.minCandidatesEliminatedPct / 100.0
               && r == QueryResult(s.runId, s.stepName, EliminationRate(s)) {
      var s :| s in steps && s.stepType == query.stepType
               && EliminationRate(s) >= query.minCandidatesEliminatedPct / 100.0
               && r == QueryResult(s.runId, s.stepName, EliminationRate(s));
      assert Matches(query)(s);
      FilterMembers(steps, Matches(query), s);
      var i :| 0 <= i < |kept| && kept[i] == s;
      assert answer[i] == r;
    }
  }

  /** Answers follow store order: steps stored later answer later. */
  lemma QueryAnswerConcat(a: seq<StepRecord>, b: seq<StepRecord>, query: QueryRequest)
    ensures QueryAnswer(a + b, query) == QueryAnswer(a, query) + QueryAnswer(b, query)
  {
    FilterConcat(a, b, Matches(query));
  }

  /** For a step with input, the threshold test in whole numbers:
      `100 * (in - out) >= pct * in`. */
  lemma MatchesInCounts(s: StepRecord, query: QueryRequest)
    requires 0 < s.candidatesIn
    ensures Matches(query)(s) <==>
      s.stepType == query.stepType
      && 100.0 * (s.candidatesIn - s.candidatesOut) as real >= query.minCandidatesEliminatedPct * s.candidatesIn as real
  {
    var n, rate, t := s.candidatesIn as real, EliminationRate(s), query.minCandidatesEliminatedPct / 100.0;
    var d := (s.candidatesIn - s.candidatesOut) as real;
    ScaledComparison(rate, t, n, d);
    assert t * n * 100.0 == query.minCandidatesEliminatedPct * n;
  }

  /** Comparing `x` with `y` is comparing `x * n` with `y * n`, for positive `n`. */
  lemma ScaledComparison(x: real, y: real, n: real, xn: real)
    requires 0.0 < n && x * n == xn
    ensures x >= y <==> xn >= y * n
    ensures x > y <==> xn > y * n
  {
    assert (x - y) * n == xn - y * n;
    SignOfProduct(x - y, n);
    SignOfProduct(y - x, n);
  }

  /** The threshold is inclusive: in=100, out=10 (rate 0.9) is returned at
      90 percent and not at 91. */
  lemma QueryThresholdIsInclusive(s: StepRecord)
    requires s.stepType == "filtering" && s.candidatesIn == 100 && s.candidatesOut == 10
    ensures QueryAnswer([s], QueryRequest("filtering", 90.0)) == [QueryResult(s.runId, s.stepName, 0.9)]
    ensures QueryAnswer([s], QueryRequest("filtering", 91.0)) == []
  {
    assert EliminationRate(s) == 0.9;
    FilterSnoc([], s, Matches(QueryRequest("filtering", 90.0)));
    FilterSnoc([], s, Matches(QueryRequest("filtering", 91.0)));
  }

  /** A filtering step at rate 0.6 is found at 50 percent; a ranking step at
      rate 0.9 is not, whatever its rate, because its type differs. */
  lemma QueryByTypeScenario(f: StepRecord, r: StepRecord)
    requires f.stepType == "filtering" && f.candidatesIn == 10 && f.candidatesOut == 4
    requires r.stepType == "ranking" && r.candidatesIn == 10 && r.candidatesOut == 1
    ensures QueryAnswer([f, r], QueryRequest("filtering", 50.0)) == [QueryResult(f.runId, f.stepName, 0.6)]
  {
    var q := QueryRequest("filtering", 50.0);
    assert EliminationRate(f) == 0.6;
    FilterSnoc([], f, Matches(q));
    FilterSnoc([f], r, Matches(q));
    assert [f] + [r] == [f, r];
  }

  /** A step is flagged exactly when it kept fewer than a tenth of a positive
      input; the flag list is either empty or the single high-elimination flag. */
  lemma FlaggedInCounts(s: StepRecord)
    requires 0 <= s.candidatesIn
    ensures Analyze(s).flags == [HighElimination] || Analyze(s).flags == []
    ensures Analyze(s).flags == [HighElimination] <==>
      0 < s.candidatesIn && 10 * s.candidatesOut < s.candidatesIn
  {
    if 0 < s.candidatesIn {
      var n, rate := s.candidatesIn as real, EliminationRate(s);
      var d := (s.candidatesIn - s.candidatesOut) as real;
      ScaledComparison(rate, 0.9, n, d);
      var k := s.candidatesIn - 10 * s.candidatesOut;
      assert 10.0 * d - 9.0 * n == k as real;
      assert d > 0.9 * n <==> k as real > 0.0;
    }
  }

  /** A step that kept between none and all of a positive input has a
      reduction rate between 0 and 100. */
  lemma ReductionRateInRange(s: StepRecord)
    requires 0 <= s.candidatesOut <= s.candidatesIn && 0 < s.candidatesIn
    ensures 0.0 <= Analyze(s).reductionRate <= 100.0
  {
    RateInUnitInterval(s);
  }

  /** A step without input is reported at 0 percent and unflagged, whatever its output. */
  lemma ZeroInputIsNotFlagged(s: StepRecord)
    requires s.candidatesIn == 0
    ensures Analyze(s) == StepAnalysis(s.stepName, 0.0, [])
  {
  }

  /** The flag is strict: rate 0.9 is not flagged, 0.91 and 0.98 are. */
  lemma HighEliminationIsStrict(a: StepRecord, b: StepRecord, c: StepRecord)
    requires a.candidatesIn == 100 && a.candidatesOut == 10
    requires b.candidatesIn == 100 && b.candidatesOut == 9
    requires c.candidatesIn == 150 && c.candidatesOut == 3
    ensures Analyze(a) == StepAnalysis(a.stepName, 90.0, [])
    ensures Analyze(b) == StepAnalysis(b.stepName, 91.0, [HighElimination])
    ensures Analyze(c) == StepAnalysis(c.stepName, 98.0, [HighElimination])
  {
    assert EliminationRate(a) == 0.9;
    assert EliminationRate(b) == 0.91;
    assert EliminationRate(c) == 0.98;
  }

  /** Debug entries follow store order. */
  lemma DebugAnswerConcat(a: seq<StepRecord>, b: seq<StepRecord>, runId: string)
    ensures DebugAnswer(a + b, runId).stepAnalysis
         == DebugAnswer(a, runId).stepAnalysis + DebugAnswer(b, runId).stepAnalysis
  {
    FilterConcat(a, b, OfRun(runId));
  }

  /** A run with an aggressive step (150 in, 3 out) and a pass-through step
      (3 in, 3 out), stored among other runs' steps: the report lists both,
      in order, at 98 and 0 percent, and flags only the first. */
  lemma DebugTwoStepScenario(other: seq<StepRecord>, x: StepRecord, y: StepRecord)
    requires forall i :: 0 <= i < |other| ==> other[i].runId != x.runId
    requires y.runId == x.runId
    requires x.candidatesIn == 150 && x.candidatesOut == 3
    requires y.candidatesIn == 3 && y.candidatesOut == 3
    ensures DebugAnswer(other + [x, y], x.runId)
         == DebugReport(x.runId, [StepAnalysis(x.stepName, 98.0, [HighElimination]),
                                  StepAnalysis(y.stepName, 0.0, [])])
  {
    StepsOfRunAfterOthers(other, [x, y], x.runId);
    assert Analyses([x, y]) == [Analyze(x), Analyze(y)];
    FixedRate(x, 0.98);
    FixedRate(y, 0.0);
  }

  /** Steps of one run stored after steps of other runs are fetched alone and in order. */
  lemma StepsOfRunAfterOthers(other: seq<StepRecord>, mine: seq<StepRecord>, runId: string)
    requires forall i :: 0 <= i < |other| ==> other[i].runId != runId
    requires forall i :: 0 <= i < |mine| ==> mine[i].runId == runId
    ensures Filter(other + mine, OfRun(runId)) == mine
  {
    FilterKeepsNone(other, OfRun(runId));
    FilterKeepsAll(mine, OfRun(runId));
    FilterConcat(other, mine, OfRun(runId));
  }

  /** The rate of a step with a positive input is the `rate` that solves `rate * in == in - out`. */
  lemma FixedRate(s: StepRecord, rate: real)
    requires 0 < s.candidatesIn
    requires rate * s.candidatesIn as real == (s.candidatesIn - s.candidatesOut) as real
    ensures EliminationRate(s) == rate
  {
    var n := s.candidatesIn as real;
    assert (EliminationRate(s) - rate) * n == 0.0;
  }

  /** Ingesting a run under an id the store has not seen, whose steps all
      name that run, then fetching it gives back its run fields and exactly
      its steps in order. */
  lemma IngestThenGetRun(runs: seq<RunRow>, steps: seq<StepRecord>, p: RunPayload)
    requires forall i :: 0 <= i < |runs| ==> runs[i].runId != p.runId
    requires forall i :: 0 <= i < |steps| ==> steps[i].runId != p.runId
    requires forall i :: 0 <= i < |p.steps| ==> p.steps[i].runId == p.runId
    ensures FirstRun(runs + [RowOf(p)], p.runId) == Some(RowOf(p))
    ensures Filter(steps + p.steps, OfRun(p.runId)) == p.steps
  {
    var rs := runs + [RowOf(p)];
    var r := FirstRun(rs, p.runId);
    var i :| 0 <= i < |rs| && rs[i] == r.value && r.value.runId == p.runId
             && forall j :: 0 <= j < i ==> rs[j].runId != p.runId;
    assert forall j :: 0 <= j < |runs| ==> rs[j] == runs[j];
    StepsOfRunAfterOthers(steps, p.steps, p.runId);
  }
}
