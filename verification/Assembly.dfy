/** What the assembled suite, its snapshots and its matrix guarantee in every run. */
module Assembly {
  import opened Wrappers
  import opened Contract
  import opened Text
  import opened Coverage
  import opened Export
  import opened Orchestrator
  import Scoring
  import TraceabilityLaws

  type Batches = nat -> Outcome<seq<TestCase>>

  // ----- identifiers -----

  lemma CaseIdInjective(i: nat, j: nat)
    ensures CaseId(i) == CaseId(j) <==> i == j
  {
    DecimalInjective(i + 1, j + 1);
    assert CaseId(i)[3..] == Decimal(i + 1) && CaseId(j)[3..] == Decimal(j + 1);
  }

  /** However the model numbered them, the published cases have distinct IDs. */
  lemma RenumberedUnique(cases: seq<TestCase>)
    ensures UniqueIds(Renumbered(cases))
  {
    var r := Renumbered(cases);
    forall i, j | 0 <= i < j < |r| ensures r[i].id != r[j].id {
      CaseIdInjective(i, j);
    }
  }

  lemma RenumberedPrefix(a: seq<TestCase>, b: seq<TestCase>)
    requires a <= b
    ensures Renumbered(a) <= Renumbered(b)
  {
    hide CaseId;
  }

  // ----- assembly -----

  lemma {:induction false} GatheredPrefix(acs: seq<AcceptanceCriterion>, batches: Batches, i: nat, j: nat)
    requires i <= j <= |acs|
    ensures Gathered(acs, batches, i) <= Gathered(acs, batches, j)
  {
    hide BatchCases;
    if i < j {
      GatheredPrefix(acs, batches, i, j - 1);
    }
  }

  /** The request of batch b asks the model to number from one past the cases gathered so far. */
  lemma {:induction false} RequestOfBatch(acs: seq<AcceptanceCriterion>, batches: Batches,
                                         requirement: string, b: nat, n: nat)
    requires b < n <= |acs|
    ensures |BatchRequests(acs, batches, requirement, n)| == n
    ensures BatchRequests(acs, batches, requirement, n)[b]
            == StageRequest(Stage.TestCases, requirement, Some(acs[b]), |Gathered(acs, batches, b)| + 1)
  {
    hide Gathered;
    RequestCount(acs, batches, requirement, n - 1);
    if b < n - 1 {
      RequestOfBatch(acs, batches, requirement, b, n - 1);
    }
  }

  lemma {:induction false} RequestCount(acs: seq<AcceptanceCriterion>, batches: Batches, requirement: string, n: nat)
    requires n <= |acs|
    ensures |BatchRequests(acs, batches, requirement, n)| == n
  {
    if n > 0 {
      RequestCount(acs, batches, requirement, n - 1);
    }
  }

  /**
   * Case c of a successful batch b ends up at place StartIndex + c of the suite, under that very number,
   * unchanged but for the ID and, when it named no criterion, for the pin.
   */
  lemma BatchPlace(acs: seq<AcceptanceCriterion>, batches: Batches, b: nat, c: nat)
    requires b < |acs| && batches(b).Ok? && c < |batches(b).value|
    ensures var start := |Gathered(acs, batches, b)| + 1;
            var suite := Renumbered(Gathered(acs, batches, |acs|));
            var tc := batches(b).value[c];
            && start - 1 + c < |suite|
            && suite[start - 1 + c] == tc.(id := "TC-" + Decimal(start + c),
                                           covers := if tc.covers == [] then [acs[b].id] else tc.covers)
  {
    hide *;
    var before := Gathered(acs, batches, b);
    var upTo := Gathered(acs, batches, b + 1);
    var all := Gathered(acs, batches, |acs|);
    GatheredPrefix(acs, batches, b + 1, |acs|);
    BatchPart(acs, batches, b);
    assert upTo[|before| + c] == all[|before| + c];
    RenumberedAt(all, |before| + c);
    PinFields(batches(b).value[c], acs[b].id);
  }

  lemma PinFields(tc: TestCase, acId: string)
    ensures Pin(tc, acId) == tc.(covers := if tc.covers == [] then [acId] else tc.covers)
  {
  }

  lemma BatchPart(acs: seq<AcceptanceCriterion>, batches: Batches, b: nat)
    requires b < |acs| && batches(b).Ok?
    ensures var before := Gathered(acs, batches, b);
            var upTo := Gathered(acs, batches, b + 1);
            && |upTo| == |before| + |batches(b).value|
            && forall c :: 0 <= c < |batches(b).value| ==> upTo[|before| + c] == Pin(batches(b).value[c], acs[b].id)
  {
    hide Pin;
  }

  lemma RenumberedAt(cases: seq<TestCase>, i: nat)
    requires i < |cases|
    ensures Renumbered(cases)[i] == cases[i].(id := CaseId(i)) && CaseId(i) == "TC-" + Decimal(i + 1)
  {
    hide Decimal;
  }

  /** Nothing else is in the suite: each of its cases comes from one case of one successful batch. */
  lemma {:induction false} SuiteOrigin(acs: seq<AcceptanceCriterion>, batches: Batches, n: nat, j: nat)
    requires n <= |acs| && j < |Gathered(acs, batches, n)|
    ensures exists b :: 0 <= b < n && batches(b).Ok? &&
              |Gathered(acs, batches, b)| <= j < |Gathered(acs, batches, b)| + |batches(b).value|
  {
    if j < |Gathered(acs, batches, n - 1)| {
      SuiteOrigin(acs, batches, n - 1, j);
    } else {
      assert batches(n - 1).Ok?;
    }
  }

  // ----- snapshots -----

  lemma {:induction false} PublishedGrow(acs: seq<AcceptanceCriterion>, batches: Batches,
                                        base: Result, k: nat, i: nat, j: nat)
    requires k <= |acs| && i <= j < |Published(acs, batches, base, k)|
    ensures var ps := Published(acs, batches, base, k);
            ps[i].testCases <= ps[j].testCases <= Renumbered(Gathered(acs, batches, k))
  {
    hide Gathered, Renumbered;
    if k > 0 {
      var before := Published(acs, batches, base, k - 1);
      GatheredPrefix(acs, batches, k - 1, k);
      RenumberedPrefix(Gathered(acs, batches, k - 1), Gathered(acs, batches, k));
      if j < |before| {
        PublishedGrow(acs, batches, base, k - 1, i, j);
      } else if i < |before| {
        PublishedGrow(acs, batches, base, k - 1, i, i);
      }
    }
  }

  /** A row once shown is never taken back or renumbered: each snapshot's suite extends the one before. */
  lemma {:induction false} SnapshotsGrow(req: Request, answers: Answers, i: nat, j: nat)
    requires i <= j < |Snapshots(req, answers)|
    ensures Snapshots(req, answers)[i].testCases <= Snapshots(req, answers)[j].testCases
  {
    var analysis := answers.analysis.value;
    var acs := Criteria(req, analysis);
    var batched := Batched(acs);
    var base := BaseResult(acs, analysis);
    hide Published, Gathered, Batched, Criteria, BaseResult, WithCoverage, WithAux;
    var ps := Published(batched, answers.batches, base, |batched|);
    if j < |ps| {
      PublishedGrow(batched, answers.batches, base, |batched|, i, j);
    } else {
      FinalSuite(req, answers);
      if i < |ps| {
        PublishedGrow(batched, answers.batches, base, |batched|, i, i);
      }
    }
  }

  /** The suite of a successful run: everything the batches gave, in criterion order, renumbered. */
  lemma FinalSuite(req: Request, answers: Answers)
    requires Produced(req, answers).Ok?
    ensures var r := Produced(req, answers).value;
            var acs := Criteria(req, answers.analysis.value);
            && answers.analysis.Ok?
            && r.acceptanceCriteria == acs
            && r.testCases == Renumbered(Gathered(Batched(acs), answers.batches, |Batched(acs)|))
            && r.testCases != []
            && r.coverageMatrix == Matrix(acs, r.testCases)
            && r.coverageSummary == Tally(r.testCases)
            && r.traceabilityScore == TraceabilityLaws.SuiteScore(acs, r.testCases, r.ambiguities)
  {
    hide Gathered, Batched, Criteria, Renumbered, Matrix, Tally, TraceabilityLaws.SuiteScore;
    var acs := Criteria(req, answers.analysis.value);
    BaseIsEmpty(acs, answers.analysis.value);
    RenumberedSize(Gathered(Batched(acs), answers.batches, |Batched(acs)|));
  }

  // ----- the finished result is consistent with itself -----

  /**
   * In the result of every successful run the matrix inverts, the counts add up to the suite, and every
   * account of the gaps agrees: empty matrix rows, RTM gaps, the gap count and the first deduction.
   */
  lemma ResultConsistent(req: Request, answers: Answers, r: Result)
    requires Produced(req, answers) == Ok(r)
    ensures var gaps := CountUncovered(r.acceptanceCriteria, r.testCases);
            && UniqueIds(r.testCases)
            && (forall j :: 0 <= j < |r.testCases| ==>
                  Inverts(r.acceptanceCriteria, r.testCases[j], Gather(r.coverageMatrix, r.testCases[j].id, PointOf)))
            && r.coverageSummary.positive + r.coverageSummary.negative + r.coverageSummary.edgeCase == |r.testCases|
            && EmptyRows(r.coverageMatrix) == gaps && GapRows(Rtm(r.acceptanceCriteria, r.testCases)) == gaps
            && (gaps > 0 ==>
                  r.traceabilityScore.deductions != [] && r.traceabilityScore.deductions[0].points == -15 * gaps)
            && Scoring.Normalized(r.traceabilityScore, Scoring.TraceRating) == r.traceabilityScore
  {
    var acs := r.acceptanceCriteria;
    FinalSuite(req, answers);
    hide Gathered, Batched, Criteria, Renumbered, Matrix, Tally, Produced, Inverts, UniqueIds, Traceability, Gather,
         CountUncovered, Scoring.Normalized, Rtm, GapRows, EmptyRows;
    SuiteIsRenumbered(req, answers);
    forall j | 0 <= j < |r.testCases|
      ensures Inverts(acs, r.testCases[j], Gather(r.coverageMatrix, r.testCases[j].id, PointOf)) {
      DeriveInverts(acs, r.testCases, j);
    }
    TallyTotal(r.testCases);
    GapAccountsAgree(acs, r.testCases);
    GapsAreCharged(acs, r.testCases, Tally(r.testCases), r.ambiguities);
    Scoring.TraceabilityIsNormal(acs, r.testCases, Tally(r.testCases), r.ambiguities);
  }

  lemma SuiteIsRenumbered(req: Request, answers: Answers)
    requires Produced(req, answers).Ok?
    ensures UniqueIds(Produced(req, answers).value.testCases)
  {
    FinalSuite(req, answers);
    var acs := Criteria(req, answers.analysis.value);
    RenumberedUnique(Gathered(Batched(acs), answers.batches, |Batched(acs)|));
  }

  // ----- pinning -----

  /** A pinned case counts for its criterion exactly when the criterion's ID has no white space at its ends. */
  lemma PinExactly(tc: TestCase, acId: string)
    requires tc.covers == []
    ensures Covers(Pin(tc, acId), acId) <==> Trimmed(acId)
  {
    TrimmedMatch(acId);
    hide Trim, EqualFold, Trimmed;
    var p := Pin(tc, acId);
    assert p.covers == [acId];
    assert Covers(p, acId) <==> EqualFold(Trim(p.covers[0]), acId);
  }

  lemma CoversIgnoresId(tc: TestCase, id: string, acId: string)
    ensures Covers(tc.(id := id), acId) <==> Covers(tc, acId)
  {
    hide Trim, EqualFold;
  }

  /**
   * A batched criterion whose ID is trimmed, and whose batch gave a case that named no criterion, has that
   * case, under its new ID, in its matrix row of the final result.
   */
  lemma PinnedRowCovered(req: Request, answers: Answers, b: nat, c: nat)
    requires Produced(req, answers).Ok?
    requires var batched := Batched(Criteria(req, answers.analysis.value));
             && b < |batched| && Trimmed(batched[b].id)
             && answers.batches(b).Ok? && c < |answers.batches(b).value| && answers.batches(b).value[c].covers == []
    ensures b < |Produced(req, answers).value.coverageMatrix|
    ensures var batched := Batched(Criteria(req, answers.analysis.value));
            CaseId(|Gathered(batched, answers.batches, b)| + c)
            in Produced(req, answers).value.coverageMatrix[b].coveredBy
  {
    hide *;
    FinalSuite(req, answers);
    var r := Produced(req, answers).value;
    var acs := Criteria(req, answers.analysis.value);
    var batched := Batched(acs);
    assert batched[b] == acs[b];
    BatchPlace(batched, answers.batches, b, c);
    var at := |Gathered(batched, answers.batches, b)| + c;
    var tc := answers.batches(b).value[c];
    PinFields(tc, acs[b].id);
    RenumberedAt(r.testCases, at);
    PinExactly(tc, acs[b].id);
    CoversIgnoresId(Pin(tc, acs[b].id), CaseId(at), acs[b].id);
    ListedAt(acs, r.testCases, b, at);
  }

  lemma ListedAt(acs: seq<AcceptanceCriterion>, cases: seq<TestCase>, b: nat, at: nat)
    requires b < |acs| && at < |cases| && Covers(cases[at], acs[b].id)
    ensures cases[at].id in Matrix(acs, cases)[b].coveredBy
  {
    hide Covers, CoveringIds;
    assert cases[at] in cases;
    RowMembers(cases, acs[b].id, cases[at].id);
    RowAt(acs, cases, b);
  }

  /**
   * The condition cannot be dropped: with one criterion, curated or out of the analysis, and one case that
   * names none, the run reports a gap exactly when the criterion's ID carries white space at an end.
   */
  lemma UntrimmedIdIsAGap(req: Request, answers: Answers, ac: AcceptanceCriterion, tc: TestCase)
    requires answers.analysis.Ok? && Criteria(req, answers.analysis.value) == [ac]
    requires tc.covers == [] && answers.batches(0) == Ok([tc])
    ensures Produced(req, answers).Ok?
    ensures EmptyRows(Produced(req, answers).value.coverageMatrix) == if Trimmed(ac.id) then 0 else 1
  {
    OneCase(req, answers, ac, tc);
    FinalSuite(req, answers);
    PinExactly(tc, ac.id);
    CoversIgnoresId(Pin(tc, ac.id), CaseId(0), ac.id);
    hide Trimmed, Covers, Produced, Gathered, Renumbered, Pin, Batched;
    var suite := Produced(req, answers).value.testCases;
    RowEmpty(suite, ac.id);
    RowAt([ac], suite, 0);
    assert suite[0] in suite && forall x :: x in suite ==> x == suite[0];
    var rows := Matrix([ac], suite);
    assert rows[..0] == [];
  }

  lemma OneCase(req: Request, answers: Answers, ac: AcceptanceCriterion, tc: TestCase)
    requires answers.analysis.Ok? && Criteria(req, answers.analysis.value) == [ac] && answers.batches(0) == Ok([tc])
    ensures Produced(req, answers).Ok?
    ensures Criteria(req, answers.analysis.value) == [ac]
    ensures Produced(req, answers).value.testCases == [Pin(tc, ac.id).(id := CaseId(0))]
  {
    assert Gathered([ac], answers.batches, 0) == [];
    assert Gathered([ac], answers.batches, 1) == [Pin(tc, ac.id)];
    assert Renumbered([Pin(tc, ac.id)]) == [Pin(tc, ac.id).(id := CaseId(0))];
    hide Gathered, Renumbered, Pin;
    assert Batched([ac]) == [ac];
    FinalSuite(req, answers);
  }

  /** An analysis is free to answer with such an ID: then the only case of the run leaves the only criterion a gap. */
  lemma AnalysisCanLeaveAGap(req: Request, answers: Answers, tc: TestCase)
    requires req.acceptanceCriteria == [] && tc.covers == [] && answers.batches(0) == Ok([tc])
    requires answers.analysis.Ok?
    requires answers.analysis.value.acceptanceCriteria == [AcceptanceCriterion("AC-1 ", "Log in", "", "", "")]
    ensures Produced(req, answers).Ok?
    ensures EmptyRows(Produced(req, answers).value.coverageMatrix) == 1
  {
    var ac := AcceptanceCriterion("AC-1 ", "Log in", "", "", "");
    assert Criteria(req, answers.analysis.value) == [ac];
    assert !Trimmed(ac.id) by {
      assert ac.id[4] == ' ';
    }
    hide *;
    UntrimmedIdIsAGap(req, answers, ac, tc);
  }
}
