/** What counts as what: the classes of cases, the severities of ambiguities, and the score they lead to. */
module CaseClasses {
  import opened Seqs
  import opened Contract
  import opened Text
  import opened Coverage
  import TraceabilityLaws

  const NEGATIVE: set<string> := {"negative"}
  const EDGE: set<string> := {"edge case", "edge", "edgecase", "edge-case"}

  ghost predicate IsNegative(tc: TestCase) {
    Spells(tc.type_, NEGATIVE)
  }

  ghost predicate IsEdge(tc: TestCase) {
    Spells(tc.type_, EDGE)
  }

  /** Anything else, a blank type included, is positive. */
  ghost predicate IsPositive(tc: TestCase) {
    !IsNegative(tc) && !IsEdge(tc)
  }

  lemma ClassExactly(tc: TestCase)
    ensures NormType(tc.type_) == "Negative" <==> IsNegative(tc)
    ensures NormType(tc.type_) == "Edge case" <==> IsEdge(tc)
    ensures NormType(tc.type_) == "Positive" <==> IsPositive(tc)
  {
    forall w | w in NEGATIVE + EDGE ensures Lower(w) == w {
      Lowercase(w);
    }
    hide Trim, Lower;
  }

  /** In capitals, or between other white space, the word is the same. */
  lemma SpellingExamples(tc: TestCase)
    ensures tc.type_ == "NEGATIVE" ==> IsNegative(tc)
    ensures tc.type_ == "\tEdge \n" ==> IsEdge(tc)
  {
    assert "" + "NEGATIVE" + "" == "NEGATIVE" && "\t" + "Edge" + " \n" == "\tEdge \n";
    hide Spells;
    Spelled("", "NEGATIVE", "", "negative", NEGATIVE);
    Spelled("\t", "Edge", " \n", "edge", EDGE);
  }

  // ----- the counts and the rows -----

  /** Each count of the summary is the number of cases of its class. */
  lemma {:induction false} CountsExactly(cases: seq<TestCase>)
    ensures Tally(cases) == CoverageSummary(Count(cases, IsPositive), Count(cases, IsNegative), Count(cases, IsEdge))
  {
    hide Count, NormType, IsNegative, IsEdge;
    if cases == [] {
      var any: TestCase := TestCase("", "", [], "", "");
      CountStep([], any, IsPositive);
      CountStep([], any, IsNegative);
      CountStep([], any, IsEdge);
    } else {
      var n := |cases| - 1;
      assert cases == cases[..n] + [cases[n]];
      CountsExactly(cases[..n]);
      ClassExactly(cases[n]);
      CountStep(cases[..n], cases[n], IsPositive);
      CountStep(cases[..n], cases[n], IsNegative);
      CountStep(cases[..n], cases[n], IsEdge);
    }
  }

  /** Some case of the class covers the criterion. */
  ghost predicate Present(cases: seq<TestCase>, acId: string, p: TestCase -> bool) {
    exists i :: 0 <= i < |cases| && Covers(cases[i], acId) && p(cases[i])
  }

  /** A row lists the covering cases and names exactly the classes among them, in alphabetical order. */
  lemma RowExactly(acs: seq<AcceptanceCriterion>, cases: seq<TestCase>, k: nat)
    requires k < |acs|
    ensures var row := Matrix(acs, cases)[k];
            && row.requirementPoint == acs[k].description
            && row.coveredBy == CoveringIds(cases, acs[k].id)
            && row.coverageType ==
               Join((if Present(cases, acs[k].id, IsEdge) then ["Edge case"] else []) +
                    (if Present(cases, acs[k].id, IsNegative) then ["Negative"] else []) +
                    (if Present(cases, acs[k].id, IsPositive) then ["Positive"] else []), ", ")
  {
    forall tc: TestCase
      ensures NormType(tc.type_) == "Negative" <==> IsNegative(tc)
      ensures NormType(tc.type_) == "Edge case" <==> IsEdge(tc)
      ensures NormType(tc.type_) == "Positive" <==> IsPositive(tc) {
      ClassExactly(tc);
    }
    hide NormType, IsNegative, IsEdge, IsPositive, CoveringIds, Covers, Join;
  }

  /** The IDs of a row are in suite order: of a suite made of two parts, first those of the one, then of the other. */
  lemma {:induction false} RowConcat(a: seq<TestCase>, b: seq<TestCase>, acId: string)
    ensures CoveringIds(a + b, acId) == CoveringIds(a, acId) + CoveringIds(b, acId)
  {
    hide Covers;
    if b == [] {
      assert a + b == a;
    } else {
      var n := |b| - 1;
      assert (a + b)[..|a| + n] == a + b[..n];
      RowConcat(a, b[..n], acId);
    }
  }

  lemma RowOne(tc: TestCase, acId: string)
    ensures CoveringIds([tc], acId) == if Covers(tc, acId) then [tc.id] else []
  {
    hide Covers;
    assert [tc][..0] == [];
  }

  /** Which cases cover a criterion: those that name its ID, up to case and outer white space of the name. */
  lemma CoversExactly(tc: TestCase, acId: string)
    ensures Covers(tc, acId) <==> exists k :: 0 <= k < |tc.covers| && SameLetters(Trim(tc.covers[k]), acId)
  {
    hide SameLetters, EqualFold, Trim;
    forall k | 0 <= k < |tc.covers|
      ensures EqualFold(Trim(tc.covers[k]), acId) <==> SameLetters(Trim(tc.covers[k]), acId) {
      FoldExactly(Trim(tc.covers[k]), acId);
    }
  }

  // ----- the score -----

  ghost predicate Uncovered(cases: seq<TestCase>, ac: AcceptanceCriterion) {
    forall tc :: tc in cases ==> !Covers(tc, ac.id)
  }

  lemma {:induction false} GapsExactly(acs: seq<AcceptanceCriterion>, cases: seq<TestCase>)
    ensures CountUncovered(acs, cases) == Count(acs, ac => Uncovered(cases, ac))
  {
    hide Count, Covers;
    var p := ac => Uncovered(cases, ac);
    if acs == [] {
      CountStep([], AcceptanceCriterion("", "", "", "", ""), p);
    } else {
      var n := |acs| - 1;
      assert acs == acs[..n] + [acs[n]];
      GapsExactly(acs[..n], cases);
      CountStep(acs[..n], acs[n], p);
    }
  }

  // The severities of an ambiguity, each with its spellings.
  ghost predicate IsCritical(a: Ambiguity) {
    Spells(a.severity, {"critical"})
  }

  ghost predicate IsHigh(a: Ambiguity) {
    Spells(a.severity, {"high"})
  }

  ghost predicate IsMedium(a: Ambiguity) {
    Spells(a.severity, {"medium", "med"})
  }

  ghost predicate IsLow(a: Ambiguity) {
    Spells(a.severity, {"low"})
  }

  /** What each ambiguity is charged: its severity decides, and one of no known severity is not charged. */
  lemma ChargeExactly(a: Ambiguity)
    ensures AmbiguityDeduction(a) ==
            if IsCritical(a) then [Deduction("Critical ambiguity unresolved", -15)]
            else if IsHigh(a) then [Deduction("High ambiguity unresolved", -8)]
            else if IsMedium(a) then [Deduction("Medium ambiguity unresolved", -4)]
            else if IsLow(a) then [Deduction("Low ambiguity unresolved", -1)]
            else []
  {
    SeverityExactly(a);
    hide NormSeverity, IsCritical, IsHigh, IsMedium, IsLow;
  }

  lemma SeverityExactly(a: Ambiguity)
    ensures NormSeverity(a.severity) == "Critical" <==> IsCritical(a)
    ensures NormSeverity(a.severity) == "High" <==> IsHigh(a)
    ensures NormSeverity(a.severity) == "Medium" <==> IsMedium(a)
    ensures NormSeverity(a.severity) == "Low" <==> IsLow(a)
  {
    forall w | w in {"critical", "high", "medium", "med", "low"} ensures Lower(w) == w {
      Lowercase(w);
    }
    hide Trim, Lower;
  }

  /** No ambiguity has two severities. */
  lemma OneSeverity(a: Ambiguity)
    ensures IsCritical(a) ==> !IsHigh(a) && !IsMedium(a) && !IsLow(a)
    ensures IsHigh(a) ==> !IsMedium(a) && !IsLow(a)
    ensures IsMedium(a) ==> !IsLow(a)
  {
    SeverityExactly(a);
    hide NormSeverity, IsCritical, IsHigh, IsMedium, IsLow;
  }

  /** What a list of ambiguities costs. */
  ghost function Cost(ambs: seq<Ambiguity>): nat {
    15 * Count(ambs, IsCritical) + 8 * Count(ambs, IsHigh) + 4 * Count(ambs, IsMedium) + Count(ambs, IsLow)
  }

  lemma CostStep(ambs: seq<Ambiguity>, a: Ambiguity)
    ensures Cost([]) == 0
    ensures Cost(ambs + [a]) == Cost(ambs) +
            if IsCritical(a) then 15 else if IsHigh(a) then 8 else if IsMedium(a) then 4 else if IsLow(a) then 1 else 0
  {
    hide Count, IsCritical, IsHigh, IsMedium, IsLow;
    OneSeverity(a);
    CountStep(ambs, a, IsCritical);
    CountStep(ambs, a, IsHigh);
    CountStep(ambs, a, IsMedium);
    CountStep(ambs, a, IsLow);
  }

  lemma {:induction false} AmbiguitiesCost(ambs: seq<Ambiguity>)
    ensures Points(AmbiguityDeductions(ambs)) + Cost(ambs) == 0
  {
    hide AmbiguityDeduction, Cost, IsCritical, IsHigh, IsMedium, IsLow, Points;
    if ambs == [] {
      CostStep([], Ambiguity("", "", "", ""));
      PointsOne(Deduction("", 0));
    } else {
      var n := |ambs| - 1;
      assert ambs == ambs[..n] + [ambs[n]];
      AmbiguitiesCost(ambs[..n]);
      CostStep(ambs[..n], ambs[n]);
      ChargeExactly(ambs[n]);
      PointsConcat(AmbiguityDeductions(ambs[..n]), AmbiguityDeduction(ambs[n]));
      PointsOfCharge(ambs[n]);
    }
  }

  lemma PointsOfCharge(a: Ambiguity)
    ensures Points(AmbiguityDeduction(a)) ==
            if IsCritical(a) then -15 else if IsHigh(a) then -8
            else if IsMedium(a) then -4 else if IsLow(a) then -1 else 0
  {
    ChargeExactly(a);
    hide AmbiguityDeduction, IsCritical, IsHigh, IsMedium, IsLow, Points;
    PointsOne(Deduction("Critical ambiguity unresolved", -15));
    PointsOne(Deduction("High ambiguity unresolved", -8));
    PointsOne(Deduction("Medium ambiguity unresolved", -4));
    PointsOne(Deduction("Low ambiguity unresolved", -1));
  }

  lemma PointsOne(d: Deduction)
    ensures Points([]) == 0 && Points([d]) == d.points
  {
    assert [d][..0] == [];
  }

  /**
   * What a suite earns: 15 points off for each criterion without a case, 15 for no negative case, 10 for no
   * edge case, 10 more for neither, and the cost of the ambiguities; never below zero.
   */
  ghost function Earned(acs: seq<AcceptanceCriterion>, cases: seq<TestCase>, ambs: seq<Ambiguity>): int {
    var gaps := Count(acs, ac => Uncovered(cases, ac));
    var noNegative := forall tc :: tc in cases ==> !IsNegative(tc);
    var noEdge := forall tc :: tc in cases ==> !IsEdge(tc);
    var total := 100 - 15 * gaps - (if noNegative then 15 else 0) - (if noEdge then 10 else 0)
                 - (if noNegative && noEdge then 10 else 0) - Cost(ambs);
    if total < 0 then 0 else total
  }

  /** The score of a suite is decided by what its cases, criteria and ambiguities are. */
  lemma ScoreExactly(acs: seq<AcceptanceCriterion>, cases: seq<TestCase>, ambs: seq<Ambiguity>)
    ensures TraceabilityLaws.SuiteScore(acs, cases, ambs).score == Earned(acs, cases, ambs)
  {
    hide Covers, Count, Tally, CountUncovered, Cost, Points, Deductions, AmbiguityDeductions, Traceability,
         IsNegative, IsEdge, Uncovered, TraceabilityLaws.SuiteScore;
    GapsExactly(acs, cases);
    NoneCounted(cases);
    AmbiguitiesCost(ambs);
    TraceabilityLaws.PointsParts(acs, cases, Tally(cases), ambs);
    TraceabilityLaws.ScoreOf(acs, cases, Tally(cases), ambs);
    TraceabilityLaws.SuiteScoreIs(acs, cases, ambs);
  }

  lemma NoneCounted(cases: seq<TestCase>)
    ensures Tally(cases).negative == 0 <==> forall tc :: tc in cases ==> !IsNegative(tc)
    ensures Tally(cases).edgeCase == 0 <==> forall tc :: tc in cases ==> !IsEdge(tc)
  {
    hide Tally, NormType, IsNegative, IsEdge;
    TallyZero(cases);
    forall tc: TestCase
      ensures NormType(tc.type_) == "Negative" <==> IsNegative(tc)
      ensures NormType(tc.type_) == "Edge case" <==> IsEdge(tc) {
      ClassExactly(tc);
    }
  }

  /** The items of the score, in order: the gaps, the missing classes of cases, and one for each charged ambiguity. */
  lemma ItemsExactly(acs: seq<AcceptanceCriterion>, cases: seq<TestCase>, sum: CoverageSummary, ambs: seq<Ambiguity>)
    ensures var gaps := CountUncovered(acs, cases);
            var reason := (if gaps == 1 then "1 acceptance criterion" else Decimal(gaps) + " acceptance criteria")
                          + " with no test coverage";
            Traceability(acs, cases, sum, ambs).deductions ==
            (if gaps == 0 then [] else [Deduction(reason, -15 * gaps)])
            + (if sum.negative == 0 then [Deduction("No negative testing", -15)] else [])
            + (if sum.edgeCase == 0 then [Deduction("No edge-case testing", -10)] else [])
            + (if sum.negative == 0 && sum.edgeCase == 0 then [Deduction("Only-positive suite", -10)] else [])
            + AmbiguityDeductions(ambs)
  {
    hide CountUncovered, AmbiguityDeductions, Decimal, Points, TraceRating, Plural;
    GapReason(CountUncovered(acs, cases));
  }

  lemma GapReason(gaps: nat)
    ensures Plural(gaps, "acceptance criterion", "acceptance criteria")
            == if gaps == 1 then "1 acceptance criterion" else Decimal(gaps) + " acceptance criteria"
  {
    hide Decimal;
    if gaps == 1 {
      assert "1 " + "acceptance criterion" == "1 acceptance criterion";
    } else {
      assert " " + "acceptance criteria" == " acceptance criteria";
    }
  }

  /** The items of a longer list of ambiguities are those of its parts. */
  lemma {:induction false} ChargesConcat(a: seq<Ambiguity>, b: seq<Ambiguity>)
    ensures AmbiguityDeductions(a + b) == AmbiguityDeductions(a) + AmbiguityDeductions(b)
  {
    hide AmbiguityDeduction;
    if b == [] {
      assert a + b == a;
    } else {
      var n := |b| - 1;
      assert (a + b)[..|a| + n] == a + b[..n];
      ChargesConcat(a, b[..n]);
    }
  }

  /** The bands of the rating. */
  lemma RatingExactly(score: int)
    ensures TraceRating(score) == "Fully Covered" <==> score >= 95
    ensures TraceRating(score) == "Minor Gaps" <==> 85 <= score < 95
    ensures TraceRating(score) == "Coverage Risk" <==> 70 <= score < 85
    ensures TraceRating(score) == "Significant Gaps" <==> 50 <= score < 70
    ensures TraceRating(score) == "Unsafe To Release" <==> score < 50
  {
  }
}
