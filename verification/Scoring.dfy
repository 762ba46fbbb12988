/** The scorer of qa-ai: every score is recomputed from its own deductions and clamped. */
module Scoring {
  import opened Contract
  import Coverage

  /** Deductions are penalties; a positive number is read as a slip of the sign. */
  function Penalty(points: int): int {
    if points > 0 then -points else points
  }

  function Penalties(ds: seq<Deduction>): int {
    if ds == [] then 0 else Penalties(ds[..|ds| - 1]) + Penalty(ds[|ds| - 1].points)
  }

  function Normalized(s: Score, rate: int -> string): Score {
    var total := 100 + Penalties(s.deductions);
    var n := if total < 0 then 0 else if total > 100 then 100 else total;
    s.(score := n, rating := rate(n))
  }

  function HealthRating(score: int): string {
    if score >= 90 then "Excellent"
    else if score >= 75 then "Good"
    else if score >= 60 then "Needs Clarification"
    else if score >= 40 then "High Risk"
    else "Not Test Ready"
  }

  function TraceRating(score: int): string {
    if score >= 95 then "Fully Covered"
    else if score >= 85 then "Minor Gaps"
    else if score >= 70 then "Coverage Risk"
    else if score >= 50 then "Significant Gaps"
    else "Unsafe To Release"
  }

  method Normalize(s: Score, rate: int -> string) returns (r: Score)
    ensures r == Normalized(s, rate)
  {
    var total := 100;
    for i := 0 to |s.deductions|
      invariant total == 100 + Penalties(s.deductions[..i])
    {
      assert s.deductions[..i + 1][..i] == s.deductions[..i];
      var p := s.deductions[i].points;
      if p > 0 {
        p := -p;
      }
      total := total + p;
    }
    assert s.deductions[..|s.deductions|] == s.deductions;
    if total < 0 {
      total := 0;
    }
    if total > 100 {
      total := 100;
    }
    r := s.(score := total, rating := rate(total));
  }

  /** A result held by reference, as the handlers of qa-ai hold it. */
  class ResultRef {
    var value: Result

    constructor (value: Result)
      ensures this.value == value
    {
      this.value := value;
    }

    method Clamp()
      modifies this
      ensures value == old(value).(requirementHealth := Normalized(old(value).requirementHealth, HealthRating),
                                   traceabilityScore := Normalized(old(value).traceabilityScore, TraceRating))
    {
      var health := Normalize(value.requirementHealth, HealthRating);
      var trace := Normalize(value.traceabilityScore, TraceRating);
      value := value.(requirementHealth := health, traceabilityScore := trace);
    }

    method ClampHealth()
      modifies this
      ensures value == old(value).(requirementHealth := Normalized(old(value).requirementHealth, HealthRating))
    {
      var health := Normalize(value.requirementHealth, HealthRating);
      value := value.(requirementHealth := health);
    }
  }

  lemma {:induction false} PenaltiesNeverAdd(ds: seq<Deduction>)
    ensures Penalties(ds) <= 0
  {
    if ds != [] {
      PenaltiesNeverAdd(ds[..|ds| - 1]);
    }
  }

  /** Every item counts against the score by its size, whatever its sign. */
  lemma PenaltiesOne(d: Deduction)
    ensures Penalties([]) == 0
    ensures Penalties([d]) <= 0 && (Penalties([d]) == d.points || Penalties([d]) == -d.points)
  {
    assert [d][..0] == [];
  }

  lemma {:induction false} PenaltiesConcat(a: seq<Deduction>, b: seq<Deduction>)
    ensures Penalties(a + b) == Penalties(a) + Penalties(b)
  {
    if b == [] {
      assert a + b == a;
    } else {
      var n := |b| - 1;
      assert (a + b)[..|a| + n] == a + b[..n];
      PenaltiesConcat(a, b[..n]);
    }
  }

  /** The bands of the health rating. */
  lemma HealthExactly(score: int)
    ensures HealthRating(score) == "Excellent" <==> score >= 90
    ensures HealthRating(score) == "Good" <==> 75 <= score < 90
    ensures HealthRating(score) == "Needs Clarification" <==> 60 <= score < 75
    ensures HealthRating(score) == "High Risk" <==> 40 <= score < 60
    ensures HealthRating(score) == "Not Test Ready" <==> score < 40
  {
  }

  /** The upper clamp is never needed, and the lower one decides the rest. */
  lemma NormalizedRange(s: Score, rate: int -> string)
    ensures var r := Normalized(s, rate);
            && 0 <= r.score <= 100 && r.rating == rate(r.score) && r.deductions == s.deductions
            && r.score == if Penalties(s.deductions) < -100 then 0 else 100 + Penalties(s.deductions)
  {
    PenaltiesNeverAdd(s.deductions);
  }

  ghost predicate AllPenalties(ds: seq<Deduction>) {
    forall i :: 0 <= i < |ds| ==> ds[i].points <= 0
  }

  lemma {:induction false} PenaltiesArePoints(ds: seq<Deduction>)
    requires AllPenalties(ds)
    ensures Penalties(ds) == Coverage.Points(ds)
  {
    if ds != [] {
      PenaltiesArePoints(ds[..|ds| - 1]);
    }
  }

  lemma {:induction false} AmbiguityPenalties(ambs: seq<Ambiguity>)
    ensures AllPenalties(Coverage.AmbiguityDeductions(ambs))
  {
    if ambs != [] {
      AmbiguityPenalties(ambs[..|ambs| - 1]);
      hide Coverage.NormSeverity;
    }
  }

  lemma TracePenalties(acs: seq<AcceptanceCriterion>, cases: seq<TestCase>, sum: CoverageSummary, ambs: seq<Ambiguity>)
    ensures AllPenalties(Coverage.Deductions(acs, cases, sum, ambs))
  {
    AmbiguityPenalties(ambs);
    hide Coverage.AmbiguityDeductions, Coverage.Plural, Coverage.CountUncovered;
  }

  lemma RatingsAgree(score: int)
    ensures TraceRating(score) == Coverage.TraceRating(score)
  {
  }

  /**
   * The two services agree: normalising a score that qa-core computed changes nothing, whatever the
   * criteria, the cases, the counts and the ambiguities.
   */
  lemma TraceabilityIsNormal(acs: seq<AcceptanceCriterion>, cases: seq<TestCase>,
                             sum: CoverageSummary, ambs: seq<Ambiguity>)
    ensures var s := Coverage.Traceability(acs, cases, sum, ambs); Normalized(s, TraceRating) == s
  {
    var ds := Coverage.Deductions(acs, cases, sum, ambs);
    TracePenalties(acs, cases, sum, ambs);
    hide Coverage.Deductions, Coverage.TraceRating, TraceRating;
    PenaltiesArePoints(ds);
    RatingsAgree(Coverage.ClampScore(100 + Coverage.Points(ds)));
  }

  /** Normalising twice is normalising once, with any rating scale; so is Clamp after Clamp. */
  lemma NormalizedTwice(s: Score, rate: int -> string)
    ensures Normalized(Normalized(s, rate), rate) == Normalized(s, rate)
  {
  }
}
