/** How the traceability score moves with the suite and the ambiguities. */
module TraceabilityLaws {
  import opened Contract
  import opened Coverage

  /** The score Run reports for a suite. */
  function SuiteScore(acs: seq<AcceptanceCriterion>, cases: seq<TestCase>, ambs: seq<Ambiguity>): Score {
    Traceability(acs, cases, Tally(cases), ambs)
  }

  /** Every case of a is also in b. */
  ghost predicate Within(a: seq<TestCase>, b: seq<TestCase>) {
    forall tc :: tc in a ==> tc in b
  }

  lemma {:induction false} MoreCasesFewerGaps(acs: seq<AcceptanceCriterion>, a: seq<TestCase>, b: seq<TestCase>)
    requires Within(a, b)
    ensures CountUncovered(acs, b) <= CountUncovered(acs, a)
  {
    hide Covers;
    if acs != [] {
      MoreCasesFewerGaps(acs[..|acs| - 1], a, b);
    }
  }

  lemma MoreCasesMoreTypes(a: seq<TestCase>, b: seq<TestCase>)
    requires Within(a, b)
    ensures Tally(b).negative == 0 ==> Tally(a).negative == 0
    ensures Tally(b).edgeCase == 0 ==> Tally(a).edgeCase == 0
  {
    TallyZero(a);
    TallyZero(b);
    hide Tally, NormType;
  }

  /** The sum of the itemised points, part by part. */
  lemma PointsParts(acs: seq<AcceptanceCriterion>, cases: seq<TestCase>, sum: CoverageSummary, ambs: seq<Ambiguity>)
    ensures Points(Deductions(acs, cases, sum, ambs)) ==
            -15 * CountUncovered(acs, cases)
            + (if sum.negative == 0 then -15 else 0) + (if sum.edgeCase == 0 then -10 else 0)
            + (if sum.negative == 0 && sum.edgeCase == 0 then -10 else 0)
            + Points(AmbiguityDeductions(ambs))
  {
    var n := CountUncovered(acs, cases);
    FixedPoints(n, sum);
    PointsConcat(GapDeductions(n) + TypeDeductions(sum), AmbiguityDeductions(ambs));
    hide GapDeductions, TypeDeductions, AmbiguityDeductions, Points;
  }

  /** A suite that holds at least the same cases, in any order, never scores lower. */
  lemma MoreCasesNeverLower(acs: seq<AcceptanceCriterion>, a: seq<TestCase>, b: seq<TestCase>, ambs: seq<Ambiguity>)
    requires Within(a, b)
    ensures SuiteScore(acs, a, ambs).score <= SuiteScore(acs, b, ambs).score
  {
    MoreCasesFewerGaps(acs, a, b);
    MoreCasesMoreTypes(a, b);
    PointsParts(acs, a, Tally(a), ambs);
    PointsParts(acs, b, Tally(b), ambs);
    hide Deductions, Tally, CountUncovered, Within, TraceRating;
  }

  lemma {:induction false} AmbiguityPoints(a: seq<Ambiguity>, b: seq<Ambiguity>)
    ensures Points(AmbiguityDeductions(a + b)) == Points(AmbiguityDeductions(a)) + Points(AmbiguityDeductions(b))
  {
    hide AmbiguityDeduction;
    if b == [] {
      assert a + b == a;
      assert Points([]) == 0;
    } else {
      var n := |b| - 1;
      assert (a + b)[..|a| + n] == a + b[..n];
      AmbiguityPoints(a, b[..n]);
      PointsConcat(AmbiguityDeductions(a + b[..n]), AmbiguityDeduction(b[n]));
      PointsConcat(AmbiguityDeductions(b[..n]), AmbiguityDeduction(b[n]));
    }
  }

  /** Wherever it is inserted, another ambiguity never raises the score, and costs at most 15 points. */
  lemma MoreAmbiguitiesNeverRaise(
    acs: seq<AcceptanceCriterion>, cases: seq<TestCase>, before: seq<Ambiguity>, x: Ambiguity, after: seq<Ambiguity>)
    ensures var less := SuiteScore(acs, cases, before + after).score;
            var more := SuiteScore(acs, cases, before + [x] + after).score;
            more <= less <= more + 15
  {
    hide *;
    Inserted(before, x, after);
    PointsParts(acs, cases, Tally(cases), before + after);
    PointsParts(acs, cases, Tally(cases), before + [x] + after);
    ScoreOf(acs, cases, Tally(cases), before + after);
    ScoreOf(acs, cases, Tally(cases), before + [x] + after);
    SuiteScoreIs(acs, cases, before + after);
    SuiteScoreIs(acs, cases, before + [x] + after);
  }

  lemma SuiteScoreIs(acs: seq<AcceptanceCriterion>, cases: seq<TestCase>, ambs: seq<Ambiguity>)
    ensures SuiteScore(acs, cases, ambs) == Traceability(acs, cases, Tally(cases), ambs)
  {
  }

  lemma ScoreOf(acs: seq<AcceptanceCriterion>, cases: seq<TestCase>, sum: CoverageSummary, ambs: seq<Ambiguity>)
    ensures var n := 100 + Points(Deductions(acs, cases, sum, ambs));
            Traceability(acs, cases, sum, ambs).score == if n < 0 then 0 else if n > 100 then 100 else n
  {
    hide Deductions, TraceRating, Points;
  }

  lemma Inserted(before: seq<Ambiguity>, x: Ambiguity, after: seq<Ambiguity>)
    ensures var less := Points(AmbiguityDeductions(before + after));
            var more := Points(AmbiguityDeductions(before + [x] + after));
            less - 15 <= more <= less
  {
    OneAmbiguity(x);
    ChargeShape(x);
    hide *;
    AmbiguityPoints(before, after);
    AmbiguityPoints(before + [x], after);
    AmbiguityPoints(before, [x]);
  }

  lemma OneAmbiguity(x: Ambiguity)
    ensures AmbiguityDeductions([x]) == AmbiguityDeduction(x)
  {
    hide AmbiguityDeduction;
    assert [x][..0] == [];
    assert AmbiguityDeductions([]) + AmbiguityDeduction(x) == AmbiguityDeduction(x);
  }

  lemma {:induction false} AmbiguityItems(ambs: seq<Ambiguity>)
    ensures forall i :: 0 <= i < |AmbiguityDeductions(ambs)| ==> AmbiguityDeductions(ambs)[i].points < 0
    ensures Points(AmbiguityDeductions(ambs)) <= 0
  {
    hide AmbiguityDeduction, Points;
    NoPoints();
    if ambs != [] {
      var n := |ambs| - 1;
      AmbiguityItems(ambs[..n]);
      ChargeShape(ambs[n]);
      PointsConcat(AmbiguityDeductions(ambs[..n]), AmbiguityDeduction(ambs[n]));
    }
  }

  /** The number is always explained: 100 plus the listed items, all negative, floored at zero. */
  lemma ScoreIsItemised(acs: seq<AcceptanceCriterion>, cases: seq<TestCase>, sum: CoverageSummary, ambs: seq<Ambiguity>)
    ensures var s := Traceability(acs, cases, sum, ambs);
            && s.score == (if Points(s.deductions) < -100 then 0 else 100 + Points(s.deductions))
            && 0 <= s.score <= 100 && s.rating == TraceRating(s.score)
            && (forall i :: 0 <= i < |s.deductions| ==> s.deductions[i].points < 0)
            && (s.score == 100 <==> s.deductions == [])
  {
    AmbiguityItems(ambs);
    PointsParts(acs, cases, sum, ambs);
    ItemsNegative(acs, cases, sum, ambs);
    NegativeSum(Deductions(acs, cases, sum, ambs));
    hide Deductions, AmbiguityDeductions, CountUncovered, TraceRating, Points;
    assert Points([]) == 0 by { NoPoints(); }
  }

  lemma NoPoints()
    ensures Points([]) == 0
  {
  }

  lemma {:induction false} NegativeSum(ds: seq<Deduction>)
    requires forall i :: 0 <= i < |ds| ==> ds[i].points < 0
    ensures Points(ds) <= -|ds|
  {
    if ds != [] {
      NegativeSum(ds[..|ds| - 1]);
    }
  }

  lemma ItemsNegative(acs: seq<AcceptanceCriterion>, cases: seq<TestCase>, sum: CoverageSummary, ambs: seq<Ambiguity>)
    ensures var ds := Deductions(acs, cases, sum, ambs); forall i :: 0 <= i < |ds| ==> ds[i].points < 0
  {
    AmbiguityItems(ambs);
    hide AmbiguityDeductions, CountUncovered, Plural, Points;
  }
}
