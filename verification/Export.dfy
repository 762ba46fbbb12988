/** The export-side views of a result: the inverted coverage index and the traceability matrix (RTM). */
module Export {
  import opened Seqs
  import opened Contract
  import opened Text
  import opened Coverage
  import opened Sorting

  // ----- derive -----

  function AppendUnique(s: seq<string>, v: string): seq<string> {
    if v in s then s else s + [v]
  }

  /** What the rows that list tcId say, field by field, first mentions only. */
  function Gather(rows: seq<CoverageRow>, tcId: string, field: CoverageRow -> string): seq<string> {
    if rows == [] then []
    else
      var row := rows[|rows| - 1];
      var before := Gather(rows[..|rows| - 1], tcId, field);
      if tcId in row.coveredBy && field(row) != "" then AppendUnique(before, field(row)) else before
  }

  /** Reading a Go map of slices: a missing key reads as the empty slice. */
  function Lookup(m: map<string, seq<string>>, key: string): seq<string> {
    if key in m then m[key] else []
  }

  /** One row of the matrix, entered under each test case it lists. */
  method IndexRow(m: map<string, seq<string>>, row: CoverageRow, value: string) returns (r: map<string, seq<string>>)
    ensures forall id :: Lookup(r, id) ==
              if id in row.coveredBy && value != "" then AppendUnique(Lookup(m, id), value) else Lookup(m, id)
  {
    r := m;
    for i := 0 to |row.coveredBy|
      invariant forall id :: Lookup(r, id) ==
                  if id in row.coveredBy[..i] && value != "" then AppendUnique(Lookup(m, id), value) else Lookup(m, id)
    {
      var tcId := row.coveredBy[i];
      assert row.coveredBy[..i + 1] == row.coveredBy[..i] + [tcId];
      if value != "" {
        r := r[tcId := AppendUnique(Lookup(r, tcId), value)];
      }
    }
    assert row.coveredBy[..|row.coveredBy|] == row.coveredBy;
  }

  function PointOf(row: CoverageRow): string {
    row.requirementPoint
  }

  function TypeOf(row: CoverageRow): string {
    row.coverageType
  }

  method Derive(matrix: seq<CoverageRow>)
      returns (reqPoints: map<string, seq<string>>, coverageTypes: map<string, seq<string>>)
    ensures forall id :: Lookup(reqPoints, id) == Gather(matrix, id, PointOf)
    ensures forall id :: Lookup(coverageTypes, id) == Gather(matrix, id, TypeOf)
  {
    reqPoints, coverageTypes := map[], map[];
    for k := 0 to |matrix|
      invariant forall id :: Lookup(reqPoints, id) == Gather(matrix[..k], id, PointOf)
      invariant forall id :: Lookup(coverageTypes, id) == Gather(matrix[..k], id, TypeOf)
    {
      assert matrix[..k + 1][..k] == matrix[..k];
      hide Lookup, AppendUnique;
      reqPoints := IndexRow(reqPoints, matrix[k], matrix[k].requirementPoint);
      coverageTypes := IndexRow(coverageTypes, matrix[k], matrix[k].coverageType);
    }
    assert matrix[..|matrix|] == matrix;
  }

  // ----- the inversion -----

  ghost predicate UniqueIds(cases: seq<TestCase>) {
    forall i, j :: 0 <= i < j < |cases| ==> cases[i].id != cases[j].id
  }

  /** The first criterion with description d that tc covers, or |acs|. */
  ghost function FirstWith(acs: seq<AcceptanceCriterion>, tc: TestCase, d: string): (n: nat)
    ensures n <= |acs|
  {
    if acs == [] then 0
    else
      var n := |acs| - 1;
      var k := FirstWith(acs[..n], tc, d);
      if k < n then k
      else if Covers(tc, acs[n].id) && acs[n].description == d then n
      else n + 1
  }

  lemma {:induction false} FirstWithIsFirst(acs: seq<AcceptanceCriterion>, tc: TestCase, d: string)
    ensures var k := FirstWith(acs, tc, d);
            && (k < |acs| ==> Covers(tc, acs[k].id) && acs[k].description == d)
            && (forall i :: 0 <= i < k ==> !(Covers(tc, acs[i].id) && acs[i].description == d))
  {
    hide Covers;
    if acs != [] {
      var n := |acs| - 1;
      FirstWithIsFirst(acs[..n], tc, d);
      assert forall i :: 0 <= i < n ==> acs[..n][i] == acs[i];
    }
  }

  /** With unique IDs, a row lists a case exactly when the case covers the row's criterion. */
  lemma ListedExactly(cases: seq<TestCase>, acId: string, j: nat)
    requires UniqueIds(cases) && j < |cases|
    ensures cases[j].id in CoveringIds(cases, acId) <==> Covers(cases[j], acId)
  {
    hide Covers;
    RowMembers(cases, acId, cases[j].id);
    if cases[j].id in CoveringIds(cases, acId) {
      var tc :| tc in cases && tc.id == cases[j].id && Covers(tc, acId);
      var i :| 0 <= i < |cases| && cases[i] == tc;
      assert i == j;
    } else {
      assert cases[j] in cases;
    }
  }

  /** Some criterion that tc covers has description d. */
  ghost predicate Describes(acs: seq<AcceptanceCriterion>, tc: TestCase, d: string) {
    exists k :: 0 <= k < |acs| && Covers(tc, acs[k].id) && acs[k].description == d
  }

  /** The list holds the non-empty descriptions of the covered criteria and no others, once each, in their order. */
  ghost predicate Inverts(acs: seq<AcceptanceCriterion>, tc: TestCase, points: seq<string>) {
    && NoDup(points)
    && (forall d :: d in points <==> d != "" && Describes(acs, tc, d))
    && (forall a, b :: 0 <= a < b < |points| ==> FirstWith(acs, tc, points[a]) < FirstWith(acs, tc, points[b]))
  }

  lemma DescribesFirst(acs: seq<AcceptanceCriterion>, tc: TestCase, d: string)
    ensures Describes(acs, tc, d) <==> FirstWith(acs, tc, d) < |acs|
  {
    FirstWithIsFirst(acs, tc, d);
    hide Covers, FirstWith;
  }

  lemma FirstWithStep(acs: seq<AcceptanceCriterion>, tc: TestCase, d: string)
    requires acs != []
    ensures var n := |acs| - 1;
            var k := FirstWith(acs[..n], tc, d);
            FirstWith(acs, tc, d) ==
              if k < n then k else if Covers(tc, acs[n].id) && acs[n].description == d then n else n + 1
  {
  }

  lemma InvertsStep(acs: seq<AcceptanceCriterion>, tc: TestCase, before: seq<string>, after: seq<string>)
    requires acs != [] && Inverts(acs[..|acs| - 1], tc, before)
    requires var ac := acs[|acs| - 1];
             after == if Covers(tc, ac.id) && ac.description != "" then AppendUnique(before, ac.description) else before
    ensures Inverts(acs, tc, after)
  {
    hide Covers, FirstWith, NoDup, Describes;
    var n := |acs| - 1;
    var d := acs[n].description;
    forall x: string ensures FirstWith(acs, tc, x) ==
        (var k := FirstWith(acs[..n], tc, x);
         if k < n then k else if Covers(tc, acs[n].id) && x == d then n else n + 1)
      ensures Describes(acs, tc, x) <==> FirstWith(acs, tc, x) < |acs|
      ensures Describes(acs[..n], tc, x) <==> FirstWith(acs[..n], tc, x) < n {
      FirstWithStep(acs, tc, x);
      DescribesFirst(acs, tc, x);
      DescribesFirst(acs[..n], tc, x);
    }
    if after != before {
      assert d !in before && after == before + [d];
      NoDupConcat(before, [d]);
      OneIsNoDup(d);
    }
  }

  lemma OneIsNoDup(d: string)
    ensures NoDup([d])
  {
  }

  /**
   * Coverage inversion: reading the matrix back through derive gives each test case exactly the
   * non-empty descriptions of the criteria it covers, once each, in the order of the criteria.
   */
  lemma {:induction false} DeriveInverts(acs: seq<AcceptanceCriterion>, cases: seq<TestCase>, j: nat)
    requires UniqueIds(cases) && j < |cases|
    ensures Inverts(acs, cases[j], Gather(Matrix(acs, cases), cases[j].id, PointOf))
  {
    hide Covers, CoveringIds, JoinTypes, CoveringTypes, UniqueIds;
    var rows := Matrix(acs, cases);
    if acs != [] {
      var n := |acs| - 1;
      assert rows[..n] == Matrix(acs[..n], cases);
      DeriveInverts(acs[..n], cases, j);
      ListedExactly(cases, acs[n].id, j);
      hide Inverts, AppendUnique, Matrix;
      assert rows[n] == Row(acs[n], cases) by { RowAt(acs, cases, n); }
      InvertsStep(acs, cases[j], Gather(rows[..n], cases[j].id, PointOf), Gather(rows, cases[j].id, PointOf));
    } else {
      assert Inverts([], cases[j], []);
    }
  }

  /** The row lists the case and has v in the field. */
  predicate Mentions(row: CoverageRow, tcId: string, field: CoverageRow -> string, v: string) {
    tcId in row.coveredBy && field(row) == v
  }

  /** The entry of a case holds the non-empty values of the rows that list it, once each, by first mention. */
  ghost predicate ByFirstMention(rows: seq<CoverageRow>, tcId: string, field: CoverageRow -> string, vs: seq<string>) {
    && NoDup(vs)
    && (forall v :: v in vs <==> v != "" && exists row :: row in rows && Mentions(row, tcId, field, v))
    && (forall a, b :: 0 <= a < b < |vs| ==> MentionedFirst(rows, tcId, field, vs[a], vs[b]))
  }

  ghost predicate MentionedFirst(rows: seq<CoverageRow>, tcId: string, field: CoverageRow -> string,
                                 v: string, w: string) {
    exists i :: 0 <= i < |rows| && Mentions(rows[i], tcId, field, v) &&
                forall j :: 0 <= j <= i ==> !Mentions(rows[j], tcId, field, w)
  }

  lemma MentionedKept(rows: seq<CoverageRow>, row: CoverageRow, tcId: string, field: CoverageRow -> string,
                      v: string, w: string)
    requires MentionedFirst(rows, tcId, field, v, w)
    ensures MentionedFirst(rows + [row], tcId, field, v, w)
  {
    var more := rows + [row];
    var i :| 0 <= i < |rows| && Mentions(rows[i], tcId, field, v) &&
             forall j :: 0 <= j <= i ==> !Mentions(rows[j], tcId, field, w);
    assert Mentions(more[i], tcId, field, v) && forall j :: 0 <= j <= i ==> !Mentions(more[j], tcId, field, w);
  }

  lemma NewMention(rows: seq<CoverageRow>, row: CoverageRow, tcId: string, field: CoverageRow -> string,
                   v: string, w: string)
    requires exists r :: r in rows && Mentions(r, tcId, field, v)
    requires forall r :: r in rows ==> !Mentions(r, tcId, field, w)
    ensures MentionedFirst(rows + [row], tcId, field, v, w)
  {
    var r :| r in rows && Mentions(r, tcId, field, v);
    var i :| 0 <= i < |rows| && rows[i] == r;
    var more := rows + [row];
    assert Mentions(more[i], tcId, field, v) && forall j :: 0 <= j <= i ==> more[j] == rows[j] && rows[j] in rows;
  }

  lemma {:induction false} GatherExactly(rows: seq<CoverageRow>, tcId: string, field: CoverageRow -> string)
    ensures ByFirstMention(rows, tcId, field, Gather(rows, tcId, field))
  {
    hide Mentions, MentionedFirst;
    if rows != [] {
      var n := |rows| - 1;
      var before, after := Gather(rows[..n], tcId, field), Gather(rows, tcId, field);
      assert rows == rows[..n] + [rows[n]];
      GatherExactly(rows[..n], tcId, field);
      GatherStep(rows[..n], rows[n], tcId, field, before, after);
    }
  }

  lemma GatherStep(rows: seq<CoverageRow>, row: CoverageRow, tcId: string, field: CoverageRow -> string,
                   before: seq<string>, after: seq<string>)
    requires ByFirstMention(rows, tcId, field, before)
    requires after == if tcId in row.coveredBy && field(row) != "" then AppendUnique(before, field(row)) else before
    ensures ByFirstMention(rows + [row], tcId, field, after)
  {
    hide MentionedFirst, NoDup;
    assert forall r :: r in rows + [row] <==> r in rows || r == row;
    forall v ensures v in after <==> v != "" && exists r :: r in rows + [row] && Mentions(r, tcId, field, v) {
      assert (exists r :: r in rows + [row] && Mentions(r, tcId, field, v)) <==>
        Mentions(row, tcId, field, v) || exists r :: r in rows && Mentions(r, tcId, field, v);
    }
    if after != before {
      NoDupConcat(before, [field(row)]);
      OneIsNoDup(field(row));
    }
    forall a, b | 0 <= a < b < |after| ensures MentionedFirst(rows + [row], tcId, field, after[a], after[b]) {
      assert after[a] in before;
      if b < |before| {
        MentionedKept(rows, row, tcId, field, before[a], before[b]);
      } else {
        NewMention(rows, row, tcId, field, after[a], after[b]);
      }
    }
  }

  /** The other map of derive: each case gets the types named by the rows that list it, once each and in order. */
  lemma DeriveTypes(rows: seq<CoverageRow>, tcId: string)
    ensures var types := Gather(rows, tcId, TypeOf);
            && NoDup(types)
            && (forall t :: t in types <==>
                            t != "" && exists row :: row in rows && tcId in row.coveredBy && row.coverageType == t)
            && (forall a, b :: 0 <= a < b < |types| ==> MentionedFirst(rows, tcId, TypeOf, types[a], types[b]))
  {
    GatherExactly(rows, tcId, TypeOf);
    hide MentionedFirst, NoDup, Gather;
    forall t, row ensures Mentions(row, tcId, TypeOf, t) <==> tcId in row.coveredBy && row.coverageType == t {
    }
  }

  lemma RowAt(acs: seq<AcceptanceCriterion>, cases: seq<TestCase>, n: nat)
    requires n < |acs|
    ensures Matrix(acs, cases)[n] == Row(acs[n], cases)
  {
  }

  // ----- the RTM -----

  const COVERED := "Covered"
  const GAP := "GAP — no test"

  /** An RTM row. */
  datatype RtmRow = RtmRow(
    id: string, requirement: string, module_: string, severity: string,
    coveredBy: string, types: string, tests: string, status: string)

  /** The trimmed types, not normalised, of the cases that cover a criterion, in order and without repeats. */
  function RawTypes(cases: seq<TestCase>, acId: string): seq<string> {
    if cases == [] then []
    else
      var last := cases[|cases| - 1];
      var before := RawTypes(cases[..|cases| - 1], acId);
      if Covers(last, acId) && Trim(last.type_) != "" then Insert(before, Trim(last.type_)) else before
  }

  lemma {:induction false} RawTypesAscend(cases: seq<TestCase>, acId: string)
    ensures Ascends(RawTypes(cases, acId))
  {
    hide Covers, Trim, Insert;
    if cases != [] {
      var n := |cases| - 1;
      RawTypesAscend(cases[..n], acId);
      InsertAscends(RawTypes(cases[..n], acId), Trim(cases[n].type_));
    }
  }

  /** The types are those of the covering cases, the blank ones left out. */
  lemma {:induction false} RawTypesExactly(cases: seq<TestCase>, acId: string, t: string)
    ensures t in RawTypes(cases, acId) <==>
            t != "" && exists tc :: tc in cases && Covers(tc, acId) && Trim(tc.type_) == t
  {
    hide Covers, Trim;
    if cases != [] {
      var n := |cases| - 1;
      assert cases == cases[..n] + [cases[n]];
      RawTypesExactly(cases[..n], acId, t);
    }
  }

  function RtmRowOf(ac: AcceptanceCriterion, cases: seq<TestCase>): RtmRow {
    var ids := CoveringIds(cases, ac.id);
    RtmRow(ac.id, ac.description, ac.module_, ac.severity, Join(ids, "; "),
           Join(RawTypes(cases, ac.id), ", "), Decimal(|ids|),
           if |ids| == 0 then GAP else COVERED)
  }

  function Rtm(acs: seq<AcceptanceCriterion>, cases: seq<TestCase>): (rows: seq<RtmRow>)
    ensures |rows| == |acs|
  {
    seq(|acs|, k requires 0 <= k < |acs| => RtmRowOf(acs[k], cases))
  }

  method RtmRows(acs: seq<AcceptanceCriterion>, cases: seq<TestCase>) returns (rows: seq<RtmRow>)
    ensures rows == Rtm(acs, cases)
  {
    hide Covers, Trim, Join, Decimal, Insert, Ascends;
    rows := [];
    for k := 0 to |acs|
      invariant |rows| == k && forall j :: 0 <= j < k ==> rows[j] == RtmRowOf(acs[j], cases)
    {
      var ac := acs[k];
      var covering, types := [], {};
      for i := 0 to |cases|
        invariant covering == CoveringIds(cases[..i], ac.id)
        invariant forall t :: t in types <==> t in RawTypes(cases[..i], ac.id)
      {
        assert cases[..i + 1][..i] == cases[..i];
        var hit := CheckCovers(cases[i], ac.id);
        if hit {
          covering := covering + [cases[i].id];
          if Trim(cases[i].type_) != "" {
            types := types + {Trim(cases[i].type_)};
          }
        }
      }
      assert cases[..|cases|] == cases;
      RawTypesAscend(cases, ac.id);
      var joined := JoinSet(types);
      var status := COVERED;
      if |covering| == 0 {
        status := GAP;
      }
      rows := rows + [RtmRow(ac.id, ac.description, ac.module_, ac.severity,
                             Join(covering, "; "), joined, Decimal(|covering|), status)];
    }
  }

  /** The sorted, distinct, trimmed types of the cases that cover a criterion, the blank ones left out. */
  ghost predicate TypesListed(types: seq<string>, cases: seq<TestCase>, acId: string) {
    && Ascends(types)
    && forall t :: t in types <==> t != "" && exists tc :: tc in cases && Covers(tc, acId) && Trim(tc.type_) == t
  }

  /** What an RTM row says of its criterion. */
  lemma RtmRowExactly(acs: seq<AcceptanceCriterion>, cases: seq<TestCase>, k: nat)
    requires k < |acs|
    ensures var row, ac := Rtm(acs, cases)[k], acs[k];
            && row.id == ac.id && row.requirement == ac.description
            && row.module_ == ac.module_ && row.severity == ac.severity
            && row.coveredBy == Join(CoveringIds(cases, ac.id), "; ")
            && row.tests == Decimal(|CoveringIds(cases, ac.id)|)
            && (exists types :: TypesListed(types, cases, ac.id) && row.types == Join(types, ", "))
            && row.status == (if exists tc :: tc in cases && Covers(tc, ac.id) then "Covered" else "GAP — no test")
  {
    var ac := acs[k];
    RowEmpty(cases, ac.id);
    RawTypesAscend(cases, ac.id);
    forall t ensures t in RawTypes(cases, ac.id) <==>
        t != "" && exists tc :: tc in cases && Covers(tc, ac.id) && Trim(tc.type_) == t {
      RawTypesExactly(cases, ac.id, t);
    }
    hide Covers, Trim, Join, Decimal, Ascends, RawTypes, CoveringIds;
    assert TypesListed(RawTypes(cases, ac.id), cases, ac.id);
  }

  method GapCount(r: Result) returns (n: nat)
    ensures n == CountUncovered(r.acceptanceCriteria, r.testCases)
  {
    hide Covers;
    var acs := r.acceptanceCriteria;
    n := 0;
    for i := 0 to |acs|
      invariant n == CountUncovered(acs[..i], r.testCases)
    {
      assert acs[..i + 1][..i] == acs[..i];
      var covered := false;
      for j := 0 to |r.testCases|
        invariant !covered && forall k :: 0 <= k < j ==> !Covers(r.testCases[k], acs[i].id)
      {
        covered := CheckCovers(r.testCases[j], acs[i].id);
        if covered {
          assert r.testCases[j] in r.testCases;
          break;
        }
      }
      if !covered {
        n := n + 1;
      }
    }
    assert acs[..|acs|] == acs;
  }

  // ----- all the gap accounts agree -----

  function EmptyRows(rows: seq<CoverageRow>): nat {
    if rows == [] then 0
    else EmptyRows(rows[..|rows| - 1]) + (if rows[|rows| - 1].coveredBy == [] then 1 else 0)
  }

  function GapRows(rows: seq<RtmRow>): nat {
    if rows == [] then 0
    else GapRows(rows[..|rows| - 1]) + (if rows[|rows| - 1].status == GAP then 1 else 0)
  }

  lemma {:induction false} EmptyRowsAgree(acs: seq<AcceptanceCriterion>, cases: seq<TestCase>)
    ensures EmptyRows(Matrix(acs, cases)) == CountUncovered(acs, cases)
  {
    hide Covers, CoveringIds, JoinTypes, CoveringTypes;
    if acs != [] {
      var n := |acs| - 1;
      assert Matrix(acs, cases)[..n] == Matrix(acs[..n], cases);
      EmptyRowsAgree(acs[..n], cases);
      RowEmpty(cases, acs[n].id);
    }
  }

  lemma {:induction false} GapRowsAgree(acs: seq<AcceptanceCriterion>, cases: seq<TestCase>)
    ensures GapRows(Rtm(acs, cases)) == CountUncovered(acs, cases)
  {
    hide Covers, CoveringIds, Join, RawTypes, Decimal;
    if acs != [] {
      var n := |acs| - 1;
      assert Rtm(acs, cases)[..n] == Rtm(acs[..n], cases);
      GapRowsAgree(acs[..n], cases);
      RowEmpty(cases, acs[n].id);
      assert GAP != COVERED;
    }
  }

  /** The matrix, the RTM and the gap count tell the same number of gaps, and list the same cases. */
  lemma GapAccountsAgree(acs: seq<AcceptanceCriterion>, cases: seq<TestCase>)
    ensures EmptyRows(Matrix(acs, cases)) == CountUncovered(acs, cases)
    ensures GapRows(Rtm(acs, cases)) == CountUncovered(acs, cases)
    ensures forall k :: 0 <= k < |acs| ==> Rtm(acs, cases)[k].coveredBy == Join(Matrix(acs, cases)[k].coveredBy, "; ")
  {
    EmptyRowsAgree(acs, cases);
    GapRowsAgree(acs, cases);
    hide EmptyRows, GapRows, CountUncovered, CoveringIds, JoinTypes, CoveringTypes, Join, RawTypes, Decimal;
  }

  /** The score charges 15 points for each of those gaps, as its first item, and nothing when there is none. */
  lemma GapsAreCharged(acs: seq<AcceptanceCriterion>, cases: seq<TestCase>, sum: CoverageSummary, ambs: seq<Ambiguity>)
    ensures var ds := Traceability(acs, cases, sum, ambs).deductions;
            var gaps := EmptyRows(Matrix(acs, cases));
            if gaps > 0 then ds != [] && ds[0].points == -15 * gaps
            else ds == Traceability([], cases, sum, ambs).deductions
  {
    GapAccountsAgree(acs, cases);
    hide Rtm, TypeDeductions, AmbiguityDeductions, Matrix, Plural;
  }
}
