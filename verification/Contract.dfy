/** The request and the canonical result that travel between the services. */
module Contract {
  import opened Wrappers

  datatype AcceptanceCriterion = AcceptanceCriterion(
    id: string, description: string, module_: string, severity: string, riskLevel: string)

  /** Of a test case, the fields the pipeline reads or sets; body stands for the remaining text. */
  datatype TestCase = TestCase(id: string, type_: string, covers: seq<string>, risk: string, body: string)

  datatype CoverageRow = CoverageRow(requirementPoint: string, coveredBy: seq<string>, coverageType: string)

  datatype CoverageSummary = CoverageSummary(positive: int, negative: int, edgeCase: int)

  datatype Ambiguity = Ambiguity(location: string, issue: string, suggestion: string, severity: string)

  datatype Deduction = Deduction(reason: string, points: int)

  datatype Score = Score(score: int, rating: string, deductions: seq<Deduction>)

  datatype EdgeCase = EdgeCase(id: string, scenario: string, expectedResult: string)

  datatype TestData = TestData(validEmails: seq<string>, invalidEmails: seq<string>, boundaryValues: seq<string>)

  datatype Item = Item(title: string, description: string)

  /** The minutes of a meeting (or the notes extracted from one chunk of it). */
  datatype Minutes = Minutes(discussions: seq<Item>, followUps: seq<Item>)

  datatype MomResult = MomResult(minutes: Minutes, transcript: string)

  datatype Result = Result(
    features: seq<string>,
    acceptanceCriteria: seq<AcceptanceCriterion>,
    testCases: seq<TestCase>,
    edgeCases: seq<EdgeCase>,
    testData: TestData,
    coverageMatrix: seq<CoverageRow>,
    coverageSummary: CoverageSummary,
    ambiguities: seq<Ambiguity>,
    requirementHealth: Score,
    traceabilityScore: Score,
    missingAreas: seq<string>,
    mom: Option<MomResult>)

  const NO_SCORE := Score(0, "", [])

  /** Go's zero Result. */
  const EMPTY_RESULT := Result([], [], [], [], TestData([], [], []), [], CoverageSummary(0, 0, 0),
                               [], NO_SCORE, NO_SCORE, [], None)

  datatype Request = Request(
    requirement: string,
    clarifications: string,
    acceptanceCriteria: seq<AcceptanceCriterion>,
    audioPath: string)

  // ----- the step plan of a job -----

  datatype StepState = Pending | Running | Done | Failed

  datatype Step = Step(title: string, state: StepState, detail: string)
}
