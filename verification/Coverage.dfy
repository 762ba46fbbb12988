/** Coverage matrix and traceability score, computed from the generated suite. */
module Coverage {
  import opened Contract
  import opened Text

  // ----- which case covers which criterion -----

  predicate Covers(tc: TestCase, acId: string) {
    exists i :: 0 <= i < |tc.covers| && EqualFold(Trim(tc.covers[i]), acId)
  }

  method CheckCovers(tc: TestCase, acId: string) returns (hit: bool)
    ensures hit == Covers(tc, acId)
  {
    for i := 0 to |tc.covers|
      invariant forall k :: 0 <= k < i ==> !EqualFold(Trim(tc.covers[k]), acId)
    {
      if EqualFold(Trim(tc.covers[i]), acId) {
        return true;
      }
    }
    return false;
  }

  function NormType(t: string): string {
    match Lower(Trim(t))
    case "negative" => "Negative"
    case "edge case" => "Edge case"
    case "edge" => "Edge case"
    case "edgecase" => "Edge case"
    case "edge-case" => "Edge case"
    case _ => "Positive"
  }

  function NormSeverity(s: string): string {
    match Lower(Trim(s))
    case "critical" => "Critical"
    case "high" => "High"
    case "medium" => "Medium"
    case "med" => "Medium"
    case "low" => "Low"
    case _ => ""
  }

  // ----- the matrix -----

  function Bump(s: CoverageSummary, t: string): CoverageSummary {
    if t == "Negative" then s.(negative := s.negative + 1)
    else if t == "Edge case" then s.(edgeCase := s.edgeCase + 1)
    else s.(positive := s.positive + 1)
  }

  function Tally(cases: seq<TestCase>): CoverageSummary {
    if cases == [] then CoverageSummary(0, 0, 0)
    else Bump(Tally(cases[..|cases| - 1]), NormType(cases[|cases| - 1].type_))
  }

  /** The IDs of the cases that cover a criterion, in suite order. */
  function CoveringIds(cases: seq<TestCase>, acId: string): seq<string> {
    if cases == [] then []
    else
      var last := cases[|cases| - 1];
      CoveringIds(cases[..|cases| - 1], acId) + (if Covers(last, acId) then [last.id] else [])
  }

  function CoveringTypes(cases: seq<TestCase>, acId: string): set<string> {
    set i | 0 <= i < |cases| && Covers(cases[i], acId) :: NormType(cases[i].type_)
  }

  /** joinTypes: the normalised types present, in alphabetical order. */
  function JoinTypes(types: set<string>): string {
    Join((if "Edge case" in types then ["Edge case"] else []) +
         (if "Negative" in types then ["Negative"] else []) +
         (if "Positive" in types then ["Positive"] else []), ", ")
  }

  function Row(ac: AcceptanceCriterion, cases: seq<TestCase>): CoverageRow {
    CoverageRow(ac.description, CoveringIds(cases, ac.id), JoinTypes(CoveringTypes(cases, ac.id)))
  }

  function Matrix(acs: seq<AcceptanceCriterion>, cases: seq<TestCase>): (rows: seq<CoverageRow>)
    ensures |rows| == |acs|
  {
    seq(|acs|, i requires 0 <= i < |acs| => Row(acs[i], cases))
  }

  method ComputeCoverage(acs: seq<AcceptanceCriterion>, cases: seq<TestCase>)
      returns (rows: seq<CoverageRow>, summary: CoverageSummary)
    ensures rows == Matrix(acs, cases) && summary == Tally(cases)
  {
    hide NormType, Row;
    summary := CoverageSummary(0, 0, 0);
    for i := 0 to |cases|
      invariant summary == Tally(cases[..i])
    {
      assert cases[..i + 1][..i] == cases[..i];
      summary := Bump(summary, NormType(cases[i].type_));
    }
    assert cases[..|cases|] == cases;
    rows := [];
    for k := 0 to |acs|
      invariant |rows| == k && forall j :: 0 <= j < k ==> rows[j] == Row(acs[j], cases)
    {
      var row := ComputeRow(acs[k], cases);
      rows := rows + [row];
    }
  }

  method ComputeRow(ac: AcceptanceCriterion, cases: seq<TestCase>) returns (row: CoverageRow)
    ensures row == Row(ac, cases)
  {
    hide NormType, Covers, CoveringTypes, JoinTypes;
    assert cases[..0] == [] && CoveringTypes([], ac.id) == {} by {
      NoTypes(ac.id);
    }
    var covered := [];
    var types := {};
    for i := 0 to |cases|
      invariant covered == CoveringIds(cases[..i], ac.id)
      invariant types == CoveringTypes(cases[..i], ac.id)
    {
      assert cases[..i + 1][..i] == cases[..i];
      TypesStep(cases[..i + 1], ac.id);
      var hit := CheckCovers(cases[i], ac.id);
      if hit {
        covered := covered + [cases[i].id];
        types := types + {NormType(cases[i].type_)};
      }
    }
    assert cases[..|cases|] == cases;
    row := CoverageRow(ac.description, covered, JoinTypes(types));
  }

  lemma NoTypes(acId: string)
    ensures CoveringTypes([], acId) == {}
  {
  }

  lemma TypesStep(cases: seq<TestCase>, acId: string)
    requires cases != []
    ensures var last := cases[|cases| - 1];
            CoveringTypes(cases, acId) ==
            CoveringTypes(cases[..|cases| - 1], acId) + (if Covers(last, acId) then {NormType(last.type_)} else {})
  {
    var n := |cases| - 1;
    var prev := cases[..n];
    forall t ensures t in CoveringTypes(cases, acId) <==>
        t in CoveringTypes(prev, acId) || (Covers(cases[n], acId) && t == NormType(cases[n].type_)) {
      if t in CoveringTypes(cases, acId) {
        var i :| 0 <= i < |cases| && Covers(cases[i], acId) && NormType(cases[i].type_) == t;
        assert i < n ==> prev[i] == cases[i];
      }
      if t in CoveringTypes(prev, acId) {
        var i :| 0 <= i < n && Covers(prev[i], acId) && NormType(prev[i].type_) == t;
        assert cases[i] == prev[i];
      }
    }
  }

  // ----- what the matrix says -----

  /** Every case is counted once. */
  lemma {:induction false} TallyTotal(cases: seq<TestCase>)
    ensures var t := Tally(cases);
            && t.positive + t.negative + t.edgeCase == |cases|
            && t.positive >= 0 && t.negative >= 0 && t.edgeCase >= 0
  {
    if cases != [] {
      TallyTotal(cases[..|cases| - 1]);
    }
  }

  /** A count is zero exactly when no case has the type. */
  lemma {:induction false} TallyZero(cases: seq<TestCase>)
    ensures Tally(cases).negative == 0 <==> forall tc :: tc in cases ==> NormType(tc.type_) != "Negative"
    ensures Tally(cases).edgeCase == 0 <==> forall tc :: tc in cases ==> NormType(tc.type_) != "Edge case"
  {
    hide NormType;
    if cases != [] {
      var n := |cases| - 1;
      TallyZero(cases[..n]);
      TallyTotal(cases[..n]);
      assert cases == cases[..n] + [cases[n]];
    }
  }

  /** A criterion's row is empty exactly when no case covers it. */
  lemma {:induction false} RowEmpty(cases: seq<TestCase>, acId: string)
    ensures CoveringIds(cases, acId) == [] <==> forall tc :: tc in cases ==> !Covers(tc, acId)
  {
    if cases != [] {
      var n := |cases| - 1;
      RowEmpty(cases[..n], acId);
      assert cases == cases[..n] + [cases[n]];
    }
  }

  /** The listed IDs are exactly those of the covering cases. */
  lemma {:induction false} RowMembers(cases: seq<TestCase>, acId: string, id: string)
    ensures id in CoveringIds(cases, acId) <==> exists tc :: tc in cases && tc.id == id && Covers(tc, acId)
  {
    if cases != [] {
      var n := |cases| - 1;
      RowMembers(cases[..n], acId, id);
      assert cases == cases[..n] + [cases[n]];
    }
  }

  // ----- the score -----

  function CountUncovered(acs: seq<AcceptanceCriterion>, cases: seq<TestCase>): (n: nat)
    ensures n <= |acs|
  {
    if acs == [] then 0
    else
      CountUncovered(acs[..|acs| - 1], cases) +
      (if exists tc :: tc in cases && Covers(tc, acs[|acs| - 1].id) then 0 else 1)
  }

  function Plural(n: nat, one: string, many: string): string {
    if n == 1 then "1 " + one else Decimal(n) + " " + many
  }

  function GapDeductions(uncovered: nat): seq<Deduction> {
    if uncovered == 0 then []
    else [Deduction(Plural(uncovered, "acceptance criterion", "acceptance criteria") + " with no test coverage",
                    -15 * uncovered)]
  }

  function TypeDeductions(sum: CoverageSummary): seq<Deduction> {
    (if sum.negative == 0 then [Deduction("No negative testing", -15)] else []) +
    (if sum.edgeCase == 0 then [Deduction("No edge-case testing", -10)] else []) +
    (if sum.negative == 0 && sum.edgeCase == 0 then [Deduction("Only-positive suite", -10)] else [])
  }

  function AmbiguityDeduction(a: Ambiguity): seq<Deduction> {
    match NormSeverity(a.severity)
    case "Critical" => [Deduction("Critical ambiguity unresolved", -15)]
    case "High" => [Deduction("High ambiguity unresolved", -8)]
    case "Medium" => [Deduction("Medium ambiguity unresolved", -4)]
    case "Low" => [Deduction("Low ambiguity unresolved", -1)]
    case _ => []
  }

  function AmbiguityDeductions(ambs: seq<Ambiguity>): seq<Deduction> {
    if ambs == [] then []
    else AmbiguityDeductions(ambs[..|ambs| - 1]) + AmbiguityDeduction(ambs[|ambs| - 1])
  }

  function Deductions(acs: seq<AcceptanceCriterion>, cases: seq<TestCase>,
                      sum: CoverageSummary, ambs: seq<Ambiguity>): seq<Deduction> {
    GapDeductions(CountUncovered(acs, cases)) + TypeDeductions(sum) + AmbiguityDeductions(ambs)
  }

  function Points(ds: seq<Deduction>): int {
    if ds == [] then 0 else Points(ds[..|ds| - 1]) + ds[|ds| - 1].points
  }

  function TraceRating(score: int): string {
    if score >= 95 then "Fully Covered"
    else if score >= 85 then "Minor Gaps"
    else if score >= 70 then "Coverage Risk"
    else if score >= 50 then "Significant Gaps"
    else "Unsafe To Release"
  }

  function ClampScore(n: int): int {
    if n < 0 then 0 else if n > 100 then 100 else n
  }

  function Traceability(acs: seq<AcceptanceCriterion>, cases: seq<TestCase>,
                        sum: CoverageSummary, ambs: seq<Ambiguity>): Score {
    var ds := Deductions(acs, cases, sum, ambs);
    var n := ClampScore(100 + Points(ds));
    Score(n, TraceRating(n), ds)
  }

  lemma {:induction false} PointsConcat(a: seq<Deduction>, b: seq<Deduction>)
    ensures Points(a + b) == Points(a) + Points(b)
  {
    if b == [] {
      assert a + b == a;
    } else {
      var n := |b| - 1;
      assert (a + b)[..|a| + n] == a + b[..n];
      PointsConcat(a, b[..n]);
    }
  }

  method CountGaps(acs: seq<AcceptanceCriterion>, cases: seq<TestCase>) returns (n: nat)
    ensures n == CountUncovered(acs, cases)
  {
    n := 0;
    for i := 0 to |acs|
      invariant n == CountUncovered(acs[..i], cases)
    {
      assert acs[..i + 1][..i] == acs[..i];
      var hit := false;
      for j := 0 to |cases|
        invariant !hit && forall k :: 0 <= k < j ==> !Covers(cases[k], acs[i].id)
      {
        hit := CheckCovers(cases[j], acs[i].id);
        if hit {
          assert cases[j] in cases;
          break;
        }
      }
      if !hit {
        n := n + 1;
      }
    }
    assert acs[..|acs|] == acs;
  }

  method ComputeTraceability(acs: seq<AcceptanceCriterion>, cases: seq<TestCase>,
                             sum: CoverageSummary, ambs: seq<Ambiguity>)
      returns (r: Score)
    ensures r == Traceability(acs, cases, sum, ambs)
  {
    hide GapDeductions, TypeDeductions, AmbiguityDeduction, TraceRating, CountUncovered;
    var uncovered := CountGaps(acs, cases);
    FixedPoints(uncovered, sum);
    var ded := GapDeductions(uncovered) + TypeDeductions(sum);
    var score := 100;
    if uncovered > 0 {
      score := score - 15 * uncovered;
    }
    if sum.negative == 0 {
      score := score - 15;
    }
    if sum.edgeCase == 0 {
      score := score - 10;
    }
    if sum.negative == 0 && sum.edgeCase == 0 {
      score := score - 10;
    }
    score, ded := ChargeAmbiguities(ambs, score, ded);
    if score < 0 {
      score := 0;
    }
    if score > 100 {
      score := 100;
    }
    r := Score(score, TraceRating(score), ded);
  }

  /** The loop over the ambiguities: each one that has a known severity is charged. */
  method ChargeAmbiguities(ambs: seq<Ambiguity>, score: int, ded: seq<Deduction>) returns (s: int, d: seq<Deduction>)
    requires score == 100 + Points(ded)
    ensures d == ded + AmbiguityDeductions(ambs) && s == 100 + Points(d)
  {
    hide AmbiguityDeduction, Points;
    s, d := score, ded;
    for i := 0 to |ambs|
      invariant d == ded + AmbiguityDeductions(ambs[..i]) && s == 100 + Points(d)
    {
      assert ambs[..i + 1][..i] == ambs[..i];
      var x := AmbiguityDeduction(ambs[i]);
      PointsConcat(d, x);
      ChargeShape(ambs[i]);
      if x != [] {
        s := s + x[0].points;
      }
      d := d + x;
    }
    assert ambs[..|ambs|] == ambs;
  }

  lemma ChargeShape(a: Ambiguity)
    ensures var x := AmbiguityDeduction(a);
            |x| <= 1 && Points(x) == (if x == [] then 0 else x[0].points) && -15 <= Points(x) <= 0
            && (x != [] ==> x[0].points < 0)
  {
    var x := AmbiguityDeduction(a);
    if x != [] {
      assert x[..0] == [];
    }
  }

  lemma FixedPoints(uncovered: nat, sum: CoverageSummary)
    ensures Points(GapDeductions(uncovered)) == -15 * uncovered
    ensures Points(TypeDeductions(sum)) ==
            (if sum.negative == 0 then -15 else 0) + (if sum.edgeCase == 0 then -10 else 0)
            + (if sum.negative == 0 && sum.edgeCase == 0 then -10 else 0)
    ensures Points(GapDeductions(uncovered) + TypeDeductions(sum))
            == Points(GapDeductions(uncovered)) + Points(TypeDeductions(sum))
  {
    PointsConcat(GapDeductions(uncovered), TypeDeductions(sum));
    hide Plural;
    var a := if sum.negative == 0 then [Deduction("No negative testing", -15)] else [];
    var b := if sum.edgeCase == 0 then [Deduction("No edge-case testing", -10)] else [];
    var c := if sum.negative == 0 && sum.edgeCase == 0 then [Deduction("Only-positive suite", -10)] else [];
    PointsConcat(a + b, c);
    PointsConcat(a, b);
    assert forall d: Deduction :: Points([d]) == d.points by {
      assert forall d: Deduction :: [d][..0] == [];
    }
  }
}
