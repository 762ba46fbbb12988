/** The batched generation run: analysis, one batch of cases per criterion, extras, coverage, score. */
module Orchestrator {
  import opened Wrappers
  import opened Contract
  import opened Text
  import opened Coverage
  import opened ProgressReport
  import TraceabilityLaws

  const MAX_AC_BATCHES: nat := 15

  datatype Stage = Analysis | TestCases | Aux

  datatype StageRequest = StageRequest(
    stage: Stage, requirement: string, ac: Option<AcceptanceCriterion>, startIndex: nat)

  /** What the model may answer: each stage call succeeds or fails, a timeout being a failure. */
  datatype Answers = Answers(
    analysis: Outcome<Result>,
    batches: nat -> Outcome<seq<TestCase>>,
    aux: Outcome<(seq<EdgeCase>, TestData)>)

  // ----- the pieces of the run, as functions of the answers -----

  /** The requirement every stage sees: the clarifications are folded in when there are any. */
  function Folded(req: Request): string {
    if Trim(req.clarifications) != "" then
      Trim(req.requirement) + "\n\nADDITIONAL CLARIFICATIONS (from QA review):\n" + Trim(req.clarifications)
    else req.requirement
  }

  function Criteria(req: Request, analysis: Result): seq<AcceptanceCriterion> {
    if |req.acceptanceCriteria| > 0 then req.acceptanceCriteria else analysis.acceptanceCriteria
  }

  function Batched(acs: seq<AcceptanceCriterion>): (b: seq<AcceptanceCriterion>)
    ensures |b| == if |acs| > MAX_AC_BATCHES then MAX_AC_BATCHES else |acs|
    ensures b <= acs
  {
    if |acs| > MAX_AC_BATCHES then acs[..MAX_AC_BATCHES] else acs
  }

  /** A case that names no criterion is pinned to the one its batch was for. */
  function Pin(tc: TestCase, acId: string): TestCase {
    if |tc.covers| == 0 then tc.(covers := [acId]) else tc
  }

  function PinAll(cases: seq<TestCase>, acId: string): (r: seq<TestCase>)
    ensures |r| == |cases|
  {
    seq(|cases|, i requires 0 <= i < |cases| => Pin(cases[i], acId))
  }

  function CaseId(i: nat): string {
    "TC-" + Decimal(i + 1)
  }

  function Renumbered(cases: seq<TestCase>): (r: seq<TestCase>)
    ensures |r| == |cases|
  {
    seq(|cases|, i requires 0 <= i < |cases| => cases[i].(id := CaseId(i)))
  }

  function BatchCases(acs: seq<AcceptanceCriterion>, batches: nat -> Outcome<seq<TestCase>>, k: nat): seq<TestCase>
    requires k < |acs|
  {
    match batches(k)
    case Ok(cs) => PinAll(cs, acs[k].id)
    case Err(_) => []
  }

  /** The cases collected by the first k batches. */
  function Gathered(acs: seq<AcceptanceCriterion>, batches: nat -> Outcome<seq<TestCase>>, k: nat): seq<TestCase>
    requires k <= |acs|
  {
    if k == 0 then [] else Gathered(acs, batches, k - 1) + BatchCases(acs, batches, k - 1)
  }

  /** The result before any batch. */
  function BaseResult(acs: seq<AcceptanceCriterion>, analysis: Result): Result {
    EMPTY_RESULT.(
    features := analysis.features,
    acceptanceCriteria := acs,
    ambiguities := analysis.ambiguities,
    requirementHealth := analysis.requirementHealth,
    missingAreas := analysis.missingAreas +
      (if |acs| > MAX_AC_BATCHES then
         ["Test cases not generated for " + Decimal(|acs| - MAX_AC_BATCHES) +
          " additional acceptance criteria (batch cap)"]
       else []))
  }

  /** The work in progress published by the first k batches: one snapshot per successful batch. */
  function Published(acs: seq<AcceptanceCriterion>, batches: nat -> Outcome<seq<TestCase>>,
                     base: Result, k: nat): seq<Result>
    requires k <= |acs|
  {
    if k == 0 then []
    else
      Published(acs, batches, base, k - 1) +
      (if batches(k - 1).Ok? then [base.(testCases := Renumbered(Gathered(acs, batches, k)))] else [])
  }

  /** The stage requests of the first k batches. */
  function BatchRequests(acs: seq<AcceptanceCriterion>, batches: nat -> Outcome<seq<TestCase>>,
                         requirement: string, k: nat): seq<StageRequest>
    requires k <= |acs|
  {
    if k == 0 then []
    else
      BatchRequests(acs, batches, requirement, k - 1) +
      [StageRequest(TestCases, requirement, Some(acs[k - 1]), |Gathered(acs, batches, k - 1)| + 1)]
  }

  function WithAux(r: Result, aux: Outcome<(seq<EdgeCase>, TestData)>): Result {
    match aux
    case Ok(x) => r.(edgeCases := x.0, testData := x.1)
    case Err(_) => r
  }

  /** Stage 4: the coverage fields, from the criteria, the suite and the ambiguities. */
  function WithCoverage(r: Result): Result {
    r.(coverageMatrix := Matrix(r.acceptanceCriteria, r.testCases),
       coverageSummary := Tally(r.testCases),
       traceabilityScore := TraceabilityLaws.SuiteScore(r.acceptanceCriteria, r.testCases, r.ambiguities))
  }

  /** What Run returns. */
  function Produced(req: Request, answers: Answers): Outcome<Result> {
    match answers.analysis
    case Err(message) => Err("analysis stage: " + message)
    case Ok(analysis) =>
      var acs := Criteria(req, analysis);
      var cases := Gathered(Batched(acs), answers.batches, |Batched(acs)|);
      if cases == [] then Err("no test cases were generated")
      else Ok(WithCoverage(WithAux(BaseResult(acs, analysis).(testCases := Renumbered(cases)), answers.aux)))
  }

  /** Every snapshot Run publishes, in order; the last one is the final result. */
  function Snapshots(req: Request, answers: Answers): seq<Result> {
    match answers.analysis
    case Err(_) => []
    case Ok(analysis) =>
      var acs := Criteria(req, analysis);
      var batched := Batched(acs);
      Published(batched, answers.batches, BaseResult(acs, analysis), |batched|) +
      (match Produced(req, answers) case Ok(r) => [r] case Err(_) => [])
  }

  /** Every stage request Run sends, in order. */
  function Requests(req: Request, answers: Answers): seq<StageRequest> {
    [StageRequest(Analysis, Folded(req), None, 0)] +
    (match answers.analysis
     case Err(_) => []
     case Ok(analysis) =>
       var batched := Batched(Criteria(req, analysis));
       BatchRequests(batched, answers.batches, Folded(req), |batched|) +
       (if Produced(req, answers).Ok? then [StageRequest(Aux, Folded(req), None, 0)] else []))
  }

  // ----- the plan a run ends with -----

  const ANALYSIS_TITLE := "Analyzing requirement & " + "deriving acceptance criteria"
  const AUX_TITLE := "Edge cases & test data"
  const COVERAGE_TITLE := "Coverage & traceability"

  function AnalysisStep(req: Request, analysis: Outcome<Result>): Step {
    match analysis
    case Err(message) => Step(ANALYSIS_TITLE, StepState.Failed, message)
    case Ok(a) =>
      Step(ANALYSIS_TITLE, StepState.Done,
           Decimal(|Criteria(req, a)|) + " acceptance criteria"
           + (if |req.acceptanceCriteria| > 0 then " (QA-curated)" else ""))
  }

  function BatchLabel(i: nat, n: nat, ac: AcceptanceCriterion): string {
    "Test cases · AC " + Decimal(i + 1) + " of " + Decimal(n) + (if ac.module_ != "" then " — " + ac.module_ else "")
  }

  function BatchStep(i: nat, n: nat, ac: AcceptanceCriterion, batch: Outcome<seq<TestCase>>): Step {
    match batch
    case Err(message) => Step(BatchLabel(i, n, ac), StepState.Failed, message)
    case Ok(cases) => Step(BatchLabel(i, n, ac), StepState.Done, Decimal(|cases|) + " cases")
  }

  /** The steps of the first k batches. */
  function BatchSteps(acs: seq<AcceptanceCriterion>, batches: nat -> Outcome<seq<TestCase>>, k: nat): (s: seq<Step>)
    requires k <= |acs|
    ensures |s| == k
  {
    seq(k, i requires 0 <= i < k => BatchStep(i, |acs|, acs[i], batches(i)))
  }

  function AuxStep(aux: Outcome<(seq<EdgeCase>, TestData)>): Step {
    match aux
    case Err(message) => Step(AUX_TITLE, StepState.Failed, message)
    case Ok(x) => Step(AUX_TITLE, StepState.Done, Decimal(|x.0|) + " edge cases")
  }

  function FinalSteps(aux: Outcome<(seq<EdgeCase>, TestData)>, rating: string): (s: seq<Step>)
    ensures |s| == 2
  {
    [AuxStep(aux), Step(COVERAGE_TITLE, StepState.Done, rating)]
  }

  /** The plan when Run returns: a step fails exactly when its stage call does, and the last one never. */
  function FinalPlan(req: Request, answers: Answers): seq<Step> {
    [AnalysisStep(req, answers.analysis)] +
    (match answers.analysis
     case Err(_) => []
     case Ok(analysis) =>
       var batched := Batched(Criteria(req, analysis));
       BatchSteps(batched, answers.batches, |batched|) +
       (match Produced(req, answers)
        case Ok(r) => FinalSteps(answers.aux, r.traceabilityScore.rating)
        case Err(_) => []))
  }

  // ----- the run itself -----

  /** renumber. */
  method Renumber(cases: seq<TestCase>) returns (r: seq<TestCase>)
    ensures r == Renumbered(cases)
  {
    if |cases| == 0 {
      return [];
    }
    var out := new TestCase[|cases|](i => cases[0]);
    for i := 0 to |cases|
      invariant forall k :: 0 <= k < i ==> out[k] == cases[k].(id := CaseId(k))
    {
      out[i] := cases[i].(id := "TC-" + Decimal(i + 1));
    }
    r := out[..];
  }

  /** The inner loop of a batch: pin and collect. */
  method Collect(cases: seq<TestCase>, batch: seq<TestCase>, acId: string) returns (r: seq<TestCase>)
    ensures r == cases + PinAll(batch, acId)
  {
    r := cases;
    for i := 0 to |batch|
      invariant r == cases + PinAll(batch, acId)[..i]
    {
      var tc := batch[i];
      if |tc.covers| == 0 {
        tc := tc.(covers := [acId]);
      }
      r := r + [tc];
    }
  }

  /** Stage 2: one batch of cases per criterion; a failed batch is noted and skipped. */
  method RunBatches(p: Progress, acs: seq<AcceptanceCriterion>, batches: nat -> Outcome<seq<TestCase>>,
                    requirement: string, base: Result, snap: bool, ghost from: Origin)
      returns (cases: seq<TestCase>, result: Result, sent: seq<StageRequest>, saved: seq<Result>)
    requires AllSettled(p.job.plan) && OnTrack(p, from) && base.testCases == []
    modifies p, p.job`plan, p.job`partial, p.m`notified
    ensures cases == Gathered(acs, batches, |acs|) && result == base.(testCases := Renumbered(cases))
    ensures sent == BatchRequests(acs, batches, requirement, |acs|)
    ensures p.partials == old(p.partials) + Published(acs, batches, base, |acs|)
    ensures saved == if snap then Published(acs, batches, base, |acs|) else []
    ensures p.job.plan == old(p.job.plan) + BatchSteps(acs, batches, |acs|)
    ensures AllSettled(p.job.plan) && OnTrack(p, from)
  {
    hide Renumbered, PinAll, BatchLabel, BatchStep, BatchSteps, ClosedStep,
         AllSettled, OnTrack, Gathered, Published, BatchRequests, Decimal;
    NoBatchesYet(acs, batches, base, requirement);
    cases, sent, saved := [], [], [];
    result := base;
    assert Renumbered([]) == [] by { NothingRenumbered(); }
    for i := 0 to |acs|
      invariant cases == Gathered(acs, batches, i) && result == base.(testCases := Renumbered(cases))
      invariant sent == BatchRequests(acs, batches, requirement, i)
      invariant p.partials == old(p.partials) + Published(acs, batches, base, i)
      invariant saved == if snap then Published(acs, batches, base, i) else []
      invariant p.job.plan == old(p.job.plan) + BatchSteps(acs, batches, i)
      invariant AllSettled(p.job.plan) && OnTrack(p, from)
    {
      OneMoreBatch(acs, batches, base, requirement, i);
      BatchStepIs(i, |acs|, acs[i], batches(i));
      OneMoreStep(old(p.job.plan), acs, batches, i);
      var step := OpenStep(p, BatchLabel(i, |acs|, acs[i]), from);
      sent := sent + [StageRequest(TestCases, requirement, Some(acs[i]), |cases| + 1)];
      match batches(i) {
        case Err(message) =>
          CloseStep(p, step, StepState.Failed, message, from);
        case Ok(batch) =>
          cases := Collect(cases, batch, acs[i].id);
          CloseStep(p, step, StepState.Done, Decimal(|batch|) + " cases", from);
          var renumbered := Renumber(cases);
          result := result.(testCases := renumbered);
          Share(p, result, from);
          if snap {
            saved := saved + [result];
          }
      }
    }
  }

  lemma OneMoreStep(before: seq<Step>, acs: seq<AcceptanceCriterion>, batches: nat -> Outcome<seq<TestCase>>, i: nat)
    requires i < |acs|
    ensures before + BatchSteps(acs, batches, i + 1)
            == before + BatchSteps(acs, batches, i) + [BatchStep(i, |acs|, acs[i], batches(i))]
  {
    hide BatchStep;
  }

  /** A batch's step, closed in either way. */
  lemma BatchStepIs(i: nat, n: nat, ac: AcceptanceCriterion, batch: Outcome<seq<TestCase>>)
    ensures var begun := Step(BatchLabel(i, n, ac), StepState.Running, "");
            BatchStep(i, n, ac, batch) ==
            match batch
            case Err(message) => ClosedStep(begun, StepState.Failed, message)
            case Ok(cases) => ClosedStep(begun, StepState.Done, Decimal(|cases|) + " cases")
  {
    hide BatchLabel, Decimal;
  }

  lemma NoBatchesYet(acs: seq<AcceptanceCriterion>, batches: nat -> Outcome<seq<TestCase>>,
                     base: Result, requirement: string)
    ensures Gathered(acs, batches, 0) == [] && Published(acs, batches, base, 0) == []
    ensures BatchRequests(acs, batches, requirement, 0) == []
  {
  }

  lemma OneMoreBatch(acs: seq<AcceptanceCriterion>, batches: nat -> Outcome<seq<TestCase>>, base: Result,
                     requirement: string, i: nat)
    requires i < |acs|
    ensures Gathered(acs, batches, i + 1) ==
            (match batches(i) case Ok(b) => Gathered(acs, batches, i) + PinAll(b, acs[i].id)
             case Err(_) => Gathered(acs, batches, i))
    ensures Published(acs, batches, base, i + 1) ==
            Published(acs, batches, base, i) +
            (if batches(i).Ok? then [base.(testCases := Renumbered(Gathered(acs, batches, i + 1)))] else [])
    ensures BatchRequests(acs, batches, requirement, i + 1) ==
            BatchRequests(acs, batches, requirement, i) +
            [StageRequest(TestCases, requirement, Some(acs[i]), |Gathered(acs, batches, i)| + 1)]
  {
    hide PinAll, Renumbered;
    assert Gathered(acs, batches, i) + [] == Gathered(acs, batches, i);
  }

  lemma NothingRenumbered()
    ensures Renumbered([]) == []
  {
  }

  /** Stage 1: the analysis, as step 0 of a new plan. */
  method Analyze(p: Progress, req: Request, analysis: Outcome<Result>, ghost from: Origin)
    requires OnTrack(p, from)
    modifies p, p.job`plan, p.job`partial, p.m`notified
    ensures p.job.plan == [AnalysisStep(req, analysis)]
    ensures AllSettled(p.job.plan) && OnTrack(p, from) && p.partials == old(p.partials)
  {
    hide OnTrack, Criteria, Decimal;
    OpenPlan(p, ANALYSIS_TITLE, from);
    match analysis {
      case Err(message) =>
        CloseStep(p, 0, StepState.Failed, message, from);
      case Ok(a) =>
        CloseStep(p, 0, StepState.Done, Decimal(|Criteria(req, a)|) + " acceptance criteria"
                  + (if |req.acceptanceCriteria| > 0 then " (QA-curated)" else ""), from);
    }
  }

  /** Stages 3 and 4 and the final snapshot. */
  method Complete(p: Progress, gathered: Result, aux: Outcome<(seq<EdgeCase>, TestData)>, ghost from: Origin)
      returns (result: Result)
    requires AllSettled(p.job.plan) && OnTrack(p, from)
    modifies p, p.job`plan, p.job`partial, p.m`notified
    ensures result == WithCoverage(WithAux(gathered, aux))
    ensures p.partials == old(p.partials) + [result]
    ensures p.job.plan == old(p.job.plan) + FinalSteps(aux, result.traceabilityScore.rating)
    ensures AllSettled(p.job.plan) && OnTrack(p, from)
  {
    hide AllSettled, OnTrack, Matrix, Tally, Traceability, Decimal;
    result := gathered;
    var auxStep := OpenStep(p, AUX_TITLE, from);
    match aux {
      case Err(message) =>
        CloseStep(p, auxStep, StepState.Failed, message, from);
      case Ok(x) =>
        result := result.(edgeCases := x.0, testData := x.1);
        CloseStep(p, auxStep, StepState.Done, Decimal(|x.0|) + " edge cases", from);
    }
    var covStep := OpenStep(p, COVERAGE_TITLE, from);
    var rows, summary := ComputeCoverage(result.acceptanceCriteria, result.testCases);
    var score := ComputeTraceability(result.acceptanceCriteria, result.testCases, summary, result.ambiguities);
    result := result.(coverageMatrix := rows, coverageSummary := summary, traceabilityScore := score);
    CloseStep(p, covStep, StepState.Done, score.rating, from);
    Share(p, result, from);
  }

  /**
   * Run. It returns and publishes what the specification functions say, hands the same snapshots to the
   * snapshotter when there is one, sends their requests, and at every point shows a plan whose steps are
   * settled but for the last, ending with FinalPlan; a successful run ends with the analysis, one step per
   * batched criterion and two more. Of the manager it changes this job's report only.
   */
  method Run(p: Progress, req: Request, answers: Answers, snap: bool)
      returns (r: Outcome<Result>, sent: seq<StageRequest>, saved: seq<Result>)
    modifies p, p.job`plan, p.job`partial, p.m`notified
    ensures r == Produced(req, answers) && sent == Requests(req, answers)
    ensures p.partials == old(p.partials) + Snapshots(req, answers)
    ensures saved == if snap then Snapshots(req, answers) else []
    ensures PlansShaped(p.plans, |old(p.plans)|) && AllSettled(p.job.plan) && p.job.plan == FinalPlan(req, answers)
    ensures r.Ok? ==> |p.job.plan| == |Batched(Criteria(req, answers.analysis.value))| + 3
    ensures p.OnlyReported(old(p.Filed()), old(p.m.View()))
  {
    ghost var from := Here(p);
    StartsOnTrack(p);
    hide AllSettled, PlansShaped, Folded, Criteria, Batched, Gathered, Published, BatchRequests, Renumbered,
         BaseResult, WithAux, WithCoverage, AnalysisStep, BatchSteps, FinalSteps, FinalPlan,
         Produced, Snapshots, Requests;
    var requirement := Folded(req);
    sent, saved := [StageRequest(Analysis, requirement, None, 0)], [];
    Analyze(p, req, answers.analysis, from);
    if answers.analysis.Err? {
      FailedRun(req, answers);
      return Err("analysis stage: " + answers.analysis.message), sent, saved;
    }
    var analysis := answers.analysis.value;
    var acs := Criteria(req, analysis);
    var batched := Batched(acs);
    var base := BaseResult(acs, analysis);
    BaseIsEmpty(acs, analysis);
    var cases, result, asked, kept := RunBatches(p, batched, answers.batches, requirement, base, snap, from);
    sent, saved := sent + asked, kept;
    RenumberedSize(cases);
    AnalyzedRun(req, answers, cases, result);
    if |result.testCases| == 0 {
      return Err("no test cases were generated"), sent, saved;
    }
    sent := sent + [StageRequest(Aux, requirement, None, 0)];
    result := Complete(p, result, answers.aux, from);
    if snap {
      saved := saved + [result];
    }
    r := Ok(result);
  }

  /** What the specification says of a run whose analysis fails. */
  lemma FailedRun(req: Request, answers: Answers)
    requires answers.analysis.Err?
    ensures Produced(req, answers) == Err("analysis stage: " + answers.analysis.message)
    ensures Snapshots(req, answers) == [] && Requests(req, answers) == [StageRequest(Analysis, Folded(req), None, 0)]
    ensures FinalPlan(req, answers) == [AnalysisStep(req, answers.analysis)]
  {
    hide AnalysisStep, Folded;
  }

  /** And of one whose batches, asked and published as given, yield `cases`. */
  lemma AnalyzedRun(req: Request, answers: Answers, cases: seq<TestCase>, result: Result)
    requires answers.analysis.Ok?
    requires var acs := Criteria(req, answers.analysis.value);
             var base := BaseResult(acs, answers.analysis.value);
             && cases == Gathered(Batched(acs), answers.batches, |Batched(acs)|)
             && result == base.(testCases := Renumbered(cases))
    ensures var acs := Criteria(req, answers.analysis.value);
            var batched := Batched(acs);
            var base := BaseResult(acs, answers.analysis.value);
            var asked := [StageRequest(Analysis, Folded(req), None, 0)] +
                         BatchRequests(batched, answers.batches, Folded(req), |batched|);
            var shown := Published(batched, answers.batches, base, |batched|);
            var steps := [AnalysisStep(req, answers.analysis)] + BatchSteps(batched, answers.batches, |batched|);
            var complete := WithCoverage(WithAux(result, answers.aux));
            if cases == [] then
              && Produced(req, answers) == Err("no test cases were generated") && Snapshots(req, answers) == shown
              && Requests(req, answers) == asked && FinalPlan(req, answers) == steps
            else
              && Produced(req, answers) == Ok(complete) && Snapshots(req, answers) == shown + [complete]
              && Requests(req, answers) == asked + [StageRequest(Aux, Folded(req), None, 0)]
              && FinalPlan(req, answers) == steps + FinalSteps(answers.aux, complete.traceabilityScore.rating)
  {
    hide AnalysisStep, BatchSteps, FinalSteps, Criteria, Batched, Gathered, Published, BatchRequests, BaseResult,
         WithAux, WithCoverage, Renumbered, Folded;
  }

  lemma BaseIsEmpty(acs: seq<AcceptanceCriterion>, analysis: Result)
    ensures BaseResult(acs, analysis).testCases == [] && BaseResult(acs, analysis).acceptanceCriteria == acs
  {
  }

  lemma RenumberedSize(cases: seq<TestCase>)
    ensures |Renumbered(cases)| == |cases| && (|cases| == 0 <==> cases == [])
  {
  }
}
