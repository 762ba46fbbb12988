/** Reading the curated acceptance criteria back from the review form. */
module Forms {
  import opened Wrappers
  import opened Contract
  import opened Text
  import opened Orchestrator
  import opened Assembly
  import Coverage
  import TraceabilityLaws

  /** The parallel form arrays of the review page. */
  datatype Form = Form(descs: seq<string>, modules: seq<string>, severities: seq<string>, risks: seq<string>)

  function At(s: seq<string>, i: nat): string {
    if i < |s| then s[i] else ""
  }

  /** The rows that are kept: those whose description is not blank. */
  function Kept(descs: seq<string>): seq<nat> {
    if descs == [] then []
    else
      var n := |descs| - 1;
      Kept(descs[..n]) + (if Trim(descs[n]) != "" then [n] else [])
  }

  function AcId(n: nat): string {
    "AC-" + Decimal(n)
  }

  /** The n-th criterion, read from row i. */
  function CuratedRow(f: Form, n: nat, i: nat): AcceptanceCriterion {
    AcceptanceCriterion(AcId(n), Trim(At(f.descs, i)), At(f.modules, i), At(f.severities, i), At(f.risks, i))
  }

  function Curated(f: Form): (acs: seq<AcceptanceCriterion>)
    ensures |acs| == |Kept(f.descs)|
  {
    seq(|Kept(f.descs)|, k requires 0 <= k < |Kept(f.descs)| => CuratedRow(f, k + 1, Kept(f.descs)[k]))
  }

  /** The kept rows are exactly those with a description, each once, in form order. */
  lemma {:induction false} KeptExactly(descs: seq<string>)
    ensures forall i: nat :: i in Kept(descs) <==> i < |descs| && Trim(descs[i]) != ""
    ensures forall a, b :: 0 <= a < b < |Kept(descs)| ==> Kept(descs)[a] < Kept(descs)[b]
  {
    hide Trim;
    if descs != [] {
      var n := |descs| - 1;
      var before := Kept(descs[..n]);
      KeptExactly(descs[..n]);
      assert forall i: nat :: i < n ==> descs[..n][i] == descs[i];
      forall a | 0 <= a < |before| ensures before[a] < n {
        assert before[a] in before;
      }
    }
  }

  /** parseCuratedACs: the counter n numbers the kept rows, the index i still aligns the other fields. */
  method ParseCuratedACs(f: Form) returns (out: seq<AcceptanceCriterion>)
    ensures out == Curated(f)
  {
    hide Trim, Decimal;
    if |f.descs| == 0 {
      return [];
    }
    out := [];
    var n := 0;
    for i := 0 to |f.descs|
      invariant n == |out| == |Kept(f.descs[..i])|
      invariant forall k :: 0 <= k < n ==> out[k] == CuratedRow(f, k + 1, Kept(f.descs[..i])[k])
    {
      assert f.descs[..i + 1][..i] == f.descs[..i];
      var d := Trim(f.descs[i]);
      if d == "" {
        continue;
      }
      n := n + 1;
      out := out + [AcceptanceCriterion("AC-" + Decimal(n), d, At(f.modules, i), At(f.severities, i), At(f.risks, i))];
    }
    assert f.descs[..|f.descs|] == f.descs;
  }

  lemma AcIdFacts(m: nat, n: nat)
    ensures AcId(m) == AcId(n) <==> m == n
    ensures Trimmed(AcId(m))
  {
    DecimalInjective(m, n);
    DecimalIsWord(m);
    assert AcId(m)[3..] == Decimal(m) && AcId(n)[3..] == Decimal(n);
    hide Decimal;
  }

  /** Whatever rows were dropped, the IDs are AC-1 to AC-N: distinct, and nothing to trim. */
  lemma CuratedIds(f: Form)
    ensures forall k :: 0 <= k < |Curated(f)| ==>
              Curated(f)[k].id == "AC-" + Decimal(k + 1) && Trimmed(Curated(f)[k].id)
    ensures forall i, j :: 0 <= i < j < |Curated(f)| ==> Curated(f)[i].id != Curated(f)[j].id
  {
    hide Decimal, Trimmed, Kept;
    var acs := Curated(f);
    forall k | 0 <= k < |acs| ensures acs[k].id == "AC-" + Decimal(k + 1) && Trimmed(acs[k].id) {
      AcIdFacts(k + 1, k + 1);
    }
    forall i, j | 0 <= i < j < |acs| ensures acs[i].id != acs[j].id {
      AcIdFacts(i + 1, j + 1);
    }
  }

  /** The k-th criterion says what the k-th kept row says; a field whose form array is shorter is blank. */
  ghost predicate FromRow(f: Form, i: nat, k: nat, ac: AcceptanceCriterion)
    requires i < |f.descs|
  {
    && ac.id == "AC-" + Decimal(k + 1) && ac.description == Trim(f.descs[i])
    && ac.module_ == (if i < |f.modules| then f.modules[i] else "")
    && ac.severity == (if i < |f.severities| then f.severities[i] else "")
    && ac.riskLevel == (if i < |f.risks| then f.risks[i] else "")
  }

  lemma CuratedFields(f: Form, k: nat)
    requires k < |Curated(f)|
    ensures Kept(f.descs)[k] < |f.descs| && FromRow(f, Kept(f.descs)[k], k, Curated(f)[k])
  {
    KeptExactly(f.descs);
    hide Kept, Trim, Decimal;
    assert Kept(f.descs)[k] in Kept(f.descs);
  }

  /**
   * Curated criteria stay traceable: in a run from the form, row b of the matrix is about the b-th kept
   * row, and it is not empty whenever that criterion's batch gave a case that named no criterion.
   */
  lemma CuratedTraceable(f: Form, req: Request, answers: Answers, r: Result, b: nat, c: nat)
    requires req.acceptanceCriteria == Curated(f) && Produced(req, answers) == Ok(r)
    requires b < |Curated(f)| && b < MAX_AC_BATCHES
    requires answers.batches(b).Ok? && c < |answers.batches(b).value| && answers.batches(b).value[c].covers == []
    ensures |r.coverageMatrix| == |Curated(f)|
    ensures r.acceptanceCriteria == Curated(f)
    ensures var i := Kept(f.descs)[b];
            && i < |f.descs| && r.coverageMatrix[b].requirementPoint == Trim(f.descs[i])
            && FromRow(f, i, b, r.acceptanceCriteria[b])
    ensures r.coverageMatrix[b].coveredBy != []
  {
    var acs := Curated(f);
    CuratedFields(f, b);
    hide Produced, Gathered, Trim, Trimmed, Kept, Decimal, Coverage.Matrix, Coverage.Row, Renumbered, Coverage.Tally,
         TraceabilityLaws.SuiteScore;
    FinalSuite(req, answers);
    CuratedIds(f);
    assert Criteria(req, answers.analysis.value) == acs;
    assert Batched(acs)[b] == acs[b];
    PinnedRowCovered(req, answers, b, c);
    RowIsAbout(acs, r.testCases, b);
  }

  lemma RowIsAbout(acs: seq<AcceptanceCriterion>, cases: seq<TestCase>, b: nat)
    requires b < |acs|
    ensures Coverage.Matrix(acs, cases)[b].requirementPoint == acs[b].description
  {
  }
}
