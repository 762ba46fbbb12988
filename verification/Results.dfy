/** What a generation run returns and publishes, field by field, in terms of what the stages answered. */
module Results {
  import opened Wrappers
  import opened Seqs
  import opened Contract
  import opened Text
  import opened Coverage
  import opened CaseClasses
  import opened Orchestrator
  import opened Assembly
  import TraceabilityLaws

  // ----- what is carried over -----

  /** The fields no later stage touches are the analysis's; past 15 criteria a note says how many were left out. */
  ghost predicate CarriedOver(req: Request, a: Result, r: Result) {
    var acs := if req.acceptanceCriteria == [] then a.acceptanceCriteria else req.acceptanceCriteria;
    && r.features == a.features && r.ambiguities == a.ambiguities && r.requirementHealth == a.requirementHealth
    && r.acceptanceCriteria == acs && r.mom == None
    && (|acs| <= 15 ==> r.missingAreas == a.missingAreas)
    && (|acs| > 15 ==>
          r.missingAreas == a.missingAreas + ["Test cases not generated for " + Decimal(|acs| - 15) +
                                              " additional acceptance criteria (batch cap)"])
  }

  /** Neither the extras nor the coverage fields are there yet. */
  ghost predicate OnlyCases(r: Result) {
    && r.edgeCases == [] && r.testData == TestData([], [], []) && r.coverageMatrix == []
    && r.coverageSummary == CoverageSummary(0, 0, 0) && r.traceabilityScore == Score(0, "", [])
  }

  lemma BaseCarries(req: Request, a: Result)
    ensures var base := BaseResult(Criteria(req, a), a); CarriedOver(req, a, base) && OnlyCases(base)
  {
    hide Decimal;
  }

  /**
   * The result of a successful run: the analysis's fields, the cases, the extras if their stage succeeded,
   * and the coverage of exactly these cases, the score being charged for the analysis's ambiguities.
   */
  lemma ResultFields(req: Request, answers: Answers, r: Result)
    requires Produced(req, answers) == Ok(r)
    ensures answers.analysis.Ok? && CarriedOver(req, answers.analysis.value, r)
    ensures match answers.aux
            case Ok(extras) => r.edgeCases == extras.0 && r.testData == extras.1
            case Err(_) => r.edgeCases == [] && r.testData == TestData([], [], [])
    ensures r.testCases != []
    ensures r.coverageMatrix == Matrix(r.acceptanceCriteria, r.testCases) && r.coverageSummary == Tally(r.testCases)
    ensures r.traceabilityScore ==
            TraceabilityLaws.SuiteScore(r.acceptanceCriteria, r.testCases, answers.analysis.value.ambiguities)
  {
    FinalSuite(req, answers);
    BaseCarries(req, answers.analysis.value);
    hide Criteria, BaseResult, Gathered, Batched, Matrix, Tally, Renumbered, TraceabilityLaws.SuiteScore, Decimal;
  }

  /** The counts and the score of a successful run, from the suite, the criteria and the analysis's ambiguities. */
  lemma ResultScore(req: Request, answers: Answers, r: Result)
    requires Produced(req, answers) == Ok(r)
    ensures answers.analysis.Ok?
    ensures r.coverageSummary == CoverageSummary(Count(r.testCases, IsPositive), Count(r.testCases, IsNegative),
                                                 Count(r.testCases, IsEdge))
    ensures r.traceabilityScore.score == Earned(r.acceptanceCriteria, r.testCases, answers.analysis.value.ambiguities)
  {
    hide *;
    ResultFields(req, answers, r);
    CountsExactly(r.testCases);
    ScoreExactly(r.acceptanceCriteria, r.testCases, answers.analysis.value.ambiguities);
  }

  // ----- the snapshots -----

  /** How many of the first n batches succeeded. */
  ghost function Successes(batches: Batches, n: nat): nat {
    |set b: nat | b < n && batches(b).Ok?|
  }

  lemma OneMoreSuccess(batches: Batches, n: nat)
    ensures Successes(batches, n + 1) == Successes(batches, n) + (if batches(n).Ok? then 1 else 0)
    ensures Successes(batches, 0) == 0
  {
    var now := set b: nat | b < n && batches(b).Ok?;
    assert (set b: nat | b < n + 1 && batches(b).Ok?) == now + (if batches(n).Ok? then {n} else {});
    assert (set b: nat | b < 0 && batches(b).Ok?) == {};
  }

  /** The snapshots of the first n batches: one for each success, in order, with the cases gathered up to it. */
  lemma {:induction false} PublishedAt(acs: seq<AcceptanceCriterion>, batches: Batches, base: Result, n: nat)
    requires n <= |acs|
    ensures var ps := Published(acs, batches, base, n);
            && |ps| == Successes(batches, n)
            && forall b :: 0 <= b < n && batches(b).Ok? ==>
                 && Successes(batches, b) < |ps|
                 && ps[Successes(batches, b)] == base.(testCases := Renumbered(Gathered(acs, batches, b + 1)))
  {
    hide Successes, Gathered, Renumbered;
    if n == 0 {
      OneMoreSuccess(batches, 0);
    } else {
      PublishedAt(acs, batches, base, n - 1);
      OneMoreSuccess(batches, n - 1);
    }
  }

  /**
   * A run publishes one snapshot for each batched criterion whose call succeeds: the analysis's fields and
   * the cases gathered so far, nothing else; and then, exactly if it succeeds, its result.
   */
  lemma SnapshotFields(req: Request, answers: Answers)
    requires answers.analysis.Ok?
    ensures var acs := Batched(Criteria(req, answers.analysis.value));
            var n := Successes(answers.batches, |acs|);
            var shown := Snapshots(req, answers);
            && (Produced(req, answers).Ok? ==> |shown| == n + 1 && shown[n] == Produced(req, answers).value)
            && (Produced(req, answers).Err? ==> |shown| == n)
            && forall b :: 0 <= b < |acs| && answers.batches(b).Ok? ==>
                 && Successes(answers.batches, b) < n
                 && InProgress(req, answers, acs, b, shown[Successes(answers.batches, b)])
  {
    var a := answers.analysis.value;
    var acs := Criteria(req, a);
    PublishedAt(Batched(acs), answers.batches, BaseResult(acs, a), |Batched(acs)|);
    BaseCarries(req, a);
    hide Criteria, BaseResult, Batched, Successes, Gathered, Renumbered, Published, Produced, CarriedOver, OnlyCases;
  }

  ghost predicate InProgress(req: Request, answers: Answers, acs: seq<AcceptanceCriterion>, b: nat, r: Result)
    requires b < |acs| && answers.analysis.Ok?
  {
    && CarriedOver(req, answers.analysis.value, r) && OnlyCases(r)
    && r.testCases == Renumbered(Gathered(acs, answers.batches, b + 1))
  }

  // ----- when a run fails -----

  /** A run fails exactly when its analysis does, or when no batched criterion got a case, and says which. */
  lemma FailsExactly(req: Request, answers: Answers, message: string)
    ensures Produced(req, answers) == Err(message) <==>
            match answers.analysis
            case Err(reason) => message == "analysis stage: " + reason
            case Ok(a) =>
              && (forall b: nat :: b < 15 && b < |Criteria(req, a)| && answers.batches(b).Ok? ==>
                                   answers.batches(b).value == [])
              && message == "no test cases were generated"
  {
    if answers.analysis.Ok? {
      var acs := Batched(Criteria(req, answers.analysis.value));
      NothingGathered(acs, answers.batches, |acs|);
      hide Criteria, Gathered, WithAux, WithCoverage, BaseResult;
    }
  }

  lemma {:induction false} NothingGathered(acs: seq<AcceptanceCriterion>, batches: Batches, n: nat)
    requires n <= |acs|
    ensures Gathered(acs, batches, n) == [] <==>
            forall b: nat :: b < n && batches(b).Ok? ==> batches(b).value == []
  {
    if n > 0 {
      NothingGathered(acs, batches, n - 1);
      hide Pin;
    }
  }

  // ----- what is asked -----

  /** Clarifications of white space only leave the requirement as it is; others are added to it, both trimmed. */
  lemma FoldedExactly(req: Request)
    ensures (forall k :: 0 <= k < |req.clarifications| ==> IsSpace(req.clarifications[k]))
            ==> Folded(req) == req.requirement
    ensures (exists k :: 0 <= k < |req.clarifications| && !IsSpace(req.clarifications[k]))
            ==> Folded(req) == Trim(req.requirement) + "\n\nADDITIONAL CLARIFICATIONS (from QA review):\n" +
                               Trim(req.clarifications)
  {
    var i, j := TrimExactly(req.clarifications);
  }

  /** The test case requests: one per batched criterion, numbering from one past the cases gathered before. */
  ghost predicate AsksBatches(sent: seq<StageRequest>, text: string, acs: seq<AcceptanceCriterion>, batches: Batches) {
    && |sent| == |acs|
    && forall b: nat :: b < |acs| ==>
         sent[b] == StageRequest(TestCases, text, Some(acs[b]), |Gathered(acs, batches, b)| + 1)
  }

  lemma {:induction false} BatchesAsked(text: string, acs: seq<AcceptanceCriterion>, batches: Batches)
    ensures AsksBatches(BatchRequests(acs, batches, text, |acs|), text, acs, batches)
  {
    RequestCount(acs, batches, text, |acs|);
    hide BatchRequests;
    forall b: nat | b < |acs|
      ensures BatchRequests(acs, batches, text, |acs|)[b] ==
              StageRequest(TestCases, text, Some(acs[b]), |Gathered(acs, batches, b)| + 1) {
      RequestOfBatch(acs, batches, text, b, |acs|);
    }
  }

  /** The stages are asked in order, each about the folded requirement; the extras only once there are cases. */
  lemma {:induction false} RequestsSent(req: Request, answers: Answers)
    ensures var first := [StageRequest(Analysis, Folded(req), None, 0)];
            var last := [StageRequest(Aux, Folded(req), None, 0)];
            match answers.analysis
            case Err(_) => Requests(req, answers) == first
            case Ok(a) =>
              exists middle :: AsksBatches(middle, Folded(req), Batched(Criteria(req, a)), answers.batches)
                               && Requests(req, answers) ==
                                  first + middle + (if Produced(req, answers).Ok? then last else [])
  {
    hide Folded, Criteria, Batched, BatchRequests, Produced, AsksBatches;
    if answers.analysis.Ok? {
      var acs := Batched(Criteria(req, answers.analysis.value));
      BatchesAsked(Folded(req), acs, answers.batches);
      var middle := BatchRequests(acs, answers.batches, Folded(req), |acs|);
      assert AsksBatches(middle, Folded(req), acs, answers.batches);
    }
  }

  // ----- what the plan says at the end -----

  /** The step of a stage call: done with this detail, or failed with the call's message. */
  ghost predicate StepTells<T>(step: Step, title: string, outcome: Outcome<T>, detail: string) {
    && step.title == title
    && (outcome.Ok? ==> step.state == StepState.Done && step.detail == detail)
    && (outcome.Err? ==> step.state == StepState.Failed && step.detail == outcome.message)
  }

  /** Of a run whose analysis fails the plan shows that alone; otherwise it has one step per stage call. */
  lemma PlanTells(req: Request, answers: Answers)
    ensures var plan := FinalPlan(req, answers);
            match answers.analysis
            case Err(message) => plan == [Step(ANALYSIS_TITLE, StepState.Failed, message)]
            case Ok(a) =>
              var acs := Criteria(req, a);
              var n := |Batched(acs)|;
              && |plan| == 1 + n + (if Produced(req, answers).Ok? then 2 else 0)
              && plan[0] == Step(ANALYSIS_TITLE, StepState.Done,
                                 Decimal(|acs|) + " acceptance criteria"
                                 + (if req.acceptanceCriteria == [] then "" else " (QA-curated)"))
              && BatchStepsTell(plan[1..n + 1], acs, answers.batches)
              && (Produced(req, answers).Ok? ==>
                    LastStepsTell(plan[n + 1..], answers.aux, Produced(req, answers).value))
  {
    hide Criteria, Batched, Decimal, Produced, BatchSteps, FinalSteps, BatchStepsTell, LastStepsTell;
    if answers.analysis.Ok? {
      var acs := Criteria(req, answers.analysis.value);
      var n := |Batched(acs)|;
      var middle := BatchSteps(Batched(acs), answers.batches, n);
      BatchStepsAre(Batched(acs), acs, answers.batches);
      var plan := FinalPlan(req, answers);
      if Produced(req, answers).Ok? {
        var last := FinalSteps(answers.aux, Produced(req, answers).value.traceabilityScore.rating);
        LastStepsAre(answers.aux, Produced(req, answers).value);
        assert plan[n + 1..] == last;
      }
      assert plan[1..n + 1] == middle;
    }
  }

  ghost predicate BatchStepsTell(steps: seq<Step>, acs: seq<AcceptanceCriterion>, batches: Batches) {
    && |steps| <= |acs|
    && forall b: nat :: b < |steps| ==> BatchStepTells(steps[b], b, |steps|, acs[b], batches(b))
  }

  lemma BatchStepsAre(acs: seq<AcceptanceCriterion>, all: seq<AcceptanceCriterion>, batches: Batches)
    requires acs <= all
    ensures BatchStepsTell(BatchSteps(acs, batches, |acs|), all, batches)
  {
    hide Decimal;
  }

  lemma LastStepsAre(aux: Outcome<(seq<EdgeCase>, TestData)>, r: Result)
    ensures LastStepsTell(FinalSteps(aux, r.traceabilityScore.rating), aux, r)
  {
    hide Decimal;
  }

  ghost predicate BatchStepTells(step: Step, b: nat, n: nat, ac: AcceptanceCriterion, batch: Outcome<seq<TestCase>>) {
    StepTells(step,
              "Test cases · AC " + Decimal(b + 1) + " of " + Decimal(n)
              + (if ac.module_ == "" then "" else " — " + ac.module_),
              batch, if batch.Ok? then Decimal(|batch.value|) + " cases" else "")
  }

  ghost predicate LastStepsTell(steps: seq<Step>, aux: Outcome<(seq<EdgeCase>, TestData)>, r: Result) {
    && |steps| == 2
    && StepTells(steps[0], "Edge cases & test data", aux,
                 if aux.Ok? then Decimal(|aux.value.0|) + " edge cases" else "")
    && steps[1] == Step("Coverage & traceability", StepState.Done, r.traceabilityScore.rating)
  }
}
