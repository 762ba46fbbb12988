/** What the browser is told: the busy banner and a submitter's own progress. */
module View {
  import opened Wrappers
  import opened Contract
  import opened Text
  import opened QueueCore
  import opened QueueProtocol
  import Eta
  import opened Orchestrator
  import QueuePositions
  import opened Seqs

  const SECOND := 1_000_000_000

  // ----- the banner -----

  datatype StatusView = StatusView(busy: bool, queueLen: int, etaSeconds: int, etaKnown: bool, label_: string)

  /** What a 64-bit int keeps of x. */
  function Wrap64(x: int): (w: int)
    ensures MIN_INT64 <= w <= MAX_INT64
    ensures MIN_INT64 <= x <= MAX_INT64 ==> w == x
    ensures (w - x) % (MAX_INT64 - MIN_INT64 + 1) == 0
  {
    (x - MIN_INT64) % (MAX_INT64 - MIN_INT64 + 1) + MIN_INT64
  }

  /** Integer division as in Go, towards zero. */
  function Truncated(x: int, y: int): int
    requires y > 0
  {
    if x >= 0 then x / y else -((-x) / y)
  }

  /** The quotient that is nearest on the side of zero. */
  lemma TruncatedExactly(x: int, y: int)
    requires y > 0
    ensures var q := Truncated(x, y);
            if x >= 0 then q * y <= x < q * y + y && q >= 0 else q * y - y < x <= q * y && q <= 0
  {
    var m := if x >= 0 then x else -x;
    assert m == m / y * y + m % y;
  }

  /** Seconds, rounded by adding a half and cutting towards zero. */
  function RoundSeconds(d: int): int {
    Truncated(d + SECOND / 2, SECOND)
  }

  function HumanText(d: int): string {
    var sec := RoundSeconds(d);
    if sec < 60 then "~" + Numeral(sec) + "s" else "~" + Numeral((sec + 30) / 60) + "m"
  }

  /** The wait the banner announces: the average times the running job and everyone queued. */
  function BannerWait(s: Snapshot): int {
    if s.etaKnown && s.etaPerJob > 0 then (1 + s.queueLen) * s.etaPerJob else 0
  }

  function EtaText(s: Snapshot): string {
    if s.etaKnown && s.etaPerJob > 0 then " · " + HumanText(Wrap64(BannerWait(s))) else ""
  }

  function BannerText(s: Snapshot): string {
    if !s.busy && s.queueLen == 0 then "Available — submit now."
    else if s.queueLen == 0 then "Someone's generating now" + EtaText(s) + " — submit to take the next slot."
    else
      "Someone's generating · " + Numeral(s.queueLen) + " waiting" + EtaText(s) +
      " — you'd be #" + Numeral(s.queueLen + 1) + "."
  }

  method HumanDur(d: int) returns (r: string)
    requires MIN_INT64 <= d <= MAX_INT64
    ensures r == HumanText(d)
  {
    hide Numeral;
    var sec := Truncated(d + SECOND / 2, SECOND);
    if sec < 60 {
      var n := Itoa(sec);
      return "~" + n + "s";
    }
    var n := Itoa((sec + 30) / 60);
    r := "~" + n + "m";
  }

  /** statusView; the product of the average and the jobs ahead wraps as a 64-bit duration does. */
  method MakeStatusView(s: Snapshot) returns (v: StatusView)
    requires 0 <= s.queueLen < MAX_INT64
    ensures v == StatusView(s.busy, s.queueLen, Truncated(s.etaPerJob, SECOND), s.etaKnown, BannerText(s))
  {
    hide HumanText, Numeral, Wrap64, Truncated;
    v := StatusView(s.busy, s.queueLen, Truncated(s.etaPerJob, SECOND), s.etaKnown, "");
    if !s.busy && s.queueLen == 0 {
      return v.(label_ := "Available — submit now.");
    }
    var eta := "";
    if s.etaKnown && s.etaPerJob > 0 {
      var h := HumanDur(Wrap64((1 + s.queueLen) * s.etaPerJob));
      eta := " · " + h;
    }
    if s.queueLen == 0 {
      v := v.(label_ := "Someone's generating now" + eta + " — submit to take the next slot.");
    } else {
      var waiting := Itoa(s.queueLen);
      var place := Itoa(s.queueLen + 1);
      v := v.(label_ := "Someone's generating · " + waiting + " waiting" + eta + " — you'd be #" + place + ".");
    }
  }

  /** A wait that fits a duration is shown to the nearest second below a minute and to the nearest minute from there. */
  lemma WaitShown(s: Snapshot)
    requires s.queueLen >= 0 && s.etaKnown && s.etaPerJob > 0 && BannerWait(s) <= MAX_INT64
    ensures var w := BannerWait(s);
            var sec := (w + SECOND / 2) / SECOND;
            && w == (1 + s.queueLen) * s.etaPerJob >= s.etaPerJob
            && EtaText(s) == (if sec < 60 then " · ~" + Decimal(sec) + "s" else " · ~" + Decimal((sec + 30) / 60) + "m")
            && -SECOND / 2 <= sec * SECOND - w <= SECOND / 2
  {
    Eta.MulMonotone(1, 1 + s.queueLen, s.etaPerJob);
    var w := BannerWait(s);
    assert Wrap64(w) == w;
    hide Wrap64, Decimal, BannerWait;
    var sec := (w + SECOND / 2) / SECOND;
    assert EtaText(s) == " · " + HumanText(w);
    if sec < 60 {
      assert HumanText(w) == "~" + Decimal(sec) + "s";
      assert " · " + ("~" + Decimal(sec) + "s") == " · ~" + Decimal(sec) + "s";
    } else {
      var min := (sec + 30) / 60;
      assert HumanText(w) == "~" + Decimal(min) + "m";
      assert " · " + ("~" + Decimal(min) + "m") == " · ~" + Decimal(min) + "m";
    }
  }

  /** The banner names the jobs waiting and, exactly when there is a positive average, the wait. */
  lemma BannerExactly(s: Snapshot)
    requires s.queueLen >= 0
    ensures EtaText(s) == "" <==> !s.etaKnown || s.etaPerJob <= 0
    ensures s.queueLen == 0 && s.busy ==>
              BannerText(s) == "Someone's generating now" + EtaText(s) + " — submit to take the next slot."
    ensures s.queueLen > 0 ==>
              BannerText(s) == "Someone's generating · " + Decimal(s.queueLen) + " waiting" + EtaText(s) +
                               " — you'd be #" + Decimal(s.queueLen + 1) + "."
    ensures s.queueLen == 0 && !s.busy ==> BannerText(s) == "Available — submit now."
  {
    hide HumanText, Wrap64, Decimal;
  }

  ghost predicate EndsWith(s: string, tail: string) {
    |tail| <= |s| && s[|s| - |tail|..] == tail
  }

  lemma EndsWithTail(head: string, tail: string)
    ensures EndsWith(head + tail, tail)
  {
  }

  lemma AppendIsEnqueue(cfg: Config, s: Sys, id: Id, kind: Kind, req: Request)
    requires Enabled(cfg, s, Append(id, kind, req))
    ensures Apply(cfg, s, Append(id, kind, req)).core == Enqueue(s.core, id, kind, req)
  {
  }

  lemma ViewAfterEnqueue(c: Core, id: Id, kind: Kind, req: Request)
    ensures var d := Enqueue(c, id, kind, req);
            var snap := TakeSnapshot(c);
            && ViewJob(d, id).Some?
            && var mine := ViewJob(d, id).value;
            && mine.position == Position(d, id)
            && mine.etaKnown == snap.etaKnown
            && (snap.etaPerJob > 0 ==> mine.eta == snap.etaPerJob * (Position(d, id) + (if snap.busy then 1 else 0)))
  {
    hide Position;
  }

  lemma BannerTail(snap: Snapshot)
    requires snap.queueLen >= 0
    ensures snap.queueLen > 0 ==> EndsWith(BannerText(snap), "you'd be #" + Numeral(snap.queueLen + 1) + ".")
    ensures snap.queueLen == 0 && !snap.busy ==> BannerText(snap) == "Available — submit now."
  {
    hide Numeral, EtaText;
    if snap.queueLen > 0 {
      var tail := "you'd be #" + Numeral(snap.queueLen + 1) + ".";
      var head := "Someone's generating · " + Numeral(snap.queueLen) + " waiting" + EtaText(snap) + " — ";
      assert BannerText(snap) == head + tail;
      EndsWithTail(head, tail);
    }
  }

  lemma Waits(q: int, avg: int)
    ensures avg * (q + 1) == (1 + q) * avg && avg * (q + 2) == (1 + q) * avg + avg
  {
  }

  /**
   * The banner keeps its word in every reachable state: the place it names, and the wait it announces,
   * are those the next submission is shown, but for one more average while a job is running.
   */
  lemma BannerKept(cfg: Config, s: Sys, id: Id, kind: Kind, req: Request)
    requires Inv(cfg, s) && Enabled(cfg, s, Append(id, kind, req))
    ensures var snap := TakeSnapshot(s.core);
            var t := Apply(cfg, s, Append(id, kind, req));
            && ViewJob(t.core, id).Some?
            && var mine := ViewJob(t.core, id).value;
            && mine.position == snap.queueLen + 1
            && (snap.queueLen > 0 ==> EndsWith(BannerText(snap), "you'd be #" + Numeral(mine.position) + "."))
            && (snap.queueLen == 0 && !snap.busy ==>
                  BannerText(snap) == "Available — submit now." && mine.position == 1)
            && mine.etaKnown == snap.etaKnown
            && (snap.etaPerJob > 0 ==>
                  mine.eta == BannerWait(snap) + (if snap.busy then snap.etaPerJob else 0))
  {
    QueuePositions.BannerPosition(cfg, s, id, kind, req);
    var snap := TakeSnapshot(s.core);
    ViewAfterEnqueue(s.core, id, kind, req);
    BannerTail(snap);
    Waits(snap.queueLen, snap.etaPerJob);
    hide Inv, Apply, Enabled, ViewJob, BannerText, Position, EndsWith, Enqueue, Numeral;
    AppendIsEnqueue(cfg, s, id, kind, req);
  }

  // ----- a submitter's own plan -----

  datatype PlanView = PlanView(steps: seq<Step>, percent: int, stepLabel: string)

  function DoneCount(plan: seq<Step>): (n: nat)
    ensures n <= |plan|
  {
    if plan == [] then 0
    else DoneCount(plan[..|plan| - 1]) + (if plan[|plan| - 1].state == StepState.Done then 1 else 0)
  }

  lemma {:induction false} DoneCounted(plan: seq<Step>)
    ensures DoneCount(plan) == Count(plan, (s: Step) => s.state == StepState.Done)
  {
    hide Count;
    var p := (s: Step) => s.state == StepState.Done;
    CountStep([], Step("", Pending, ""), p);
    if plan != [] {
      var n := |plan| - 1;
      assert plan == plan[..n] + [plan[n]];
      DoneCounted(plan[..n]);
      CountStep(plan[..n], plan[n], p);
    }
  }

  /** The title of the last running step, or "". */
  function RunningTitle(plan: seq<Step>): string {
    if plan == [] then ""
    else if plan[|plan| - 1].state == StepState.Running then plan[|plan| - 1].title
    else RunningTitle(plan[..|plan| - 1])
  }

  function PlanShown(plan: seq<Step>): PlanView {
    var done := DoneCount(plan);
    PlanView(plan,
             if plan == [] then 0 else done * 100 / |plan|,
             if RunningTitle(plan) == "" && done > 0 then plan[done - 1].title else RunningTitle(plan))
  }

  ghost predicate LastRunning(plan: seq<Step>, i: int) {
    && 0 <= i < |plan| && plan[i].state == StepState.Running
    && forall j :: i < j < |plan| ==> plan[j].state != StepState.Running
  }

  lemma {:induction false} RunningTitleExactly(plan: seq<Step>)
    ensures (forall i :: 0 <= i < |plan| ==> plan[i].state != StepState.Running) ==> RunningTitle(plan) == ""
    ensures forall i :: LastRunning(plan, i) ==> RunningTitle(plan) == plan[i].title
  {
    if plan != [] && plan[|plan| - 1].state != StepState.Running {
      var n := |plan| - 1;
      RunningTitleExactly(plan[..n]);
      assert forall i :: 0 <= i < n ==> plan[..n][i] == plan[i];
      assert forall i :: LastRunning(plan, i) ==> LastRunning(plan[..n], i);
    }
  }

  /** The view shows every step, the share of finished ones in whole percent, and the running step's title. */
  lemma PlanShownExactly(plan: seq<Step>)
    ensures var v := PlanShown(plan);
            var done := Count(plan, (s: Step) => s.state == StepState.Done);
            && v.steps == plan && (plan == [] ==> v.percent == 0 && v.stepLabel == "")
            && v.percent * |plan| <= 100 * done && (plan != [] ==> 100 * done < (v.percent + 1) * |plan|)
            && forall i :: LastRunning(plan, i) && plan[i].title != "" ==> v.stepLabel == plan[i].title
  {
    DoneCounted(plan);
    RunningTitleExactly(plan);
    var done := DoneCount(plan);
    hide DoneCount, RunningTitle, Count;
    if plan != [] {
      assert done * 100 == done * 100 / |plan| * |plan| + done * 100 % |plan|;
    }
  }

  /** The plan part of jobView. */
  method ShowPlan(plan: seq<Step>) returns (v: PlanView)
    ensures v == PlanShown(plan)
  {
    v := PlanView([], 0, "");
    if |plan| > 0 {
      var done := 0;
      for i := 0 to |plan|
        invariant v.steps == plan[..i] && v.percent == 0
        invariant done == DoneCount(plan[..i]) && v.stepLabel == RunningTitle(plan[..i])
      {
        assert plan[..i + 1][..i] == plan[..i];
        var s := plan[i];
        v := v.(steps := v.steps + [s]);
        match s.state {
          case Done => done := done + 1;
          case Running => v := v.(stepLabel := s.title);
          case _ =>
        }
      }
      assert plan[..|plan|] == plan;
      v := v.(percent := done * 100 / |plan|);
      if v.stepLabel == "" && done > 0 {
        v := v.(stepLabel := v.steps[done - 1].title);
      }
    }
  }

  datatype JobStatusView = JobStatusView(
    id: Id, state: JobState, position: int, etaSeconds: int, etaKnown: bool, error: string, plan: PlanView)

  /** jobView. */
  method MakeJobView(v: JobView) returns (jv: JobStatusView)
    ensures jv ==
              JobStatusView(v.id, v.state, v.position, Truncated(v.eta, SECOND), v.etaKnown, v.err, PlanShown(v.plan))
  {
    hide Truncated, PlanShown;
    var plan := ShowPlan(v.plan);
    jv := JobStatusView(v.id, v.state, v.position, Truncated(v.eta, SECOND), v.etaKnown, v.err, plan);
  }

  /** The index of the last step that is done, or -1. */
  function LastDone(plan: seq<Step>): (i: int)
    ensures -1 <= i < |plan|
    ensures i >= 0 ==> plan[i].state == StepState.Done
    ensures forall j :: i < j < |plan| ==> plan[j].state != StepState.Done
  {
    if plan == [] then -1
    else if plan[|plan| - 1].state == StepState.Done then |plan| - 1
    else LastDone(plan[..|plan| - 1])
  }

  ghost predicate AllDoneUpTo(plan: seq<Step>, n: int) {
    forall i :: 0 <= i < n && i < |plan| ==> plan[i].state == StepState.Done
  }

  lemma {:induction false} DoneCountFull(plan: seq<Step>)
    ensures DoneCount(plan) == |plan| <==> AllDoneUpTo(plan, |plan|)
  {
    if plan != [] {
      var n := |plan| - 1;
      DoneCountFull(plan[..n]);
      assert forall i :: 0 <= i < n ==> plan[..n][i] == plan[i];
    }
  }

  lemma {:induction false} DoneCountAt(plan: seq<Step>)
    ensures DoneCount(plan) == DoneCount(plan[..LastDone(plan) + 1])
  {
    if plan == [] || plan[|plan| - 1].state == StepState.Done {
      assert plan[..LastDone(plan) + 1] == plan;
    } else {
      var n := |plan| - 1;
      DoneCountAt(plan[..n]);
      assert plan[..n][..LastDone(plan) + 1] == plan[..LastDone(plan) + 1];
    }
  }

  ghost predicate DistinctTitles(plan: seq<Step>) {
    forall i, j :: 0 <= i < j < |plan| ==> plan[i].title != plan[j].title
  }

  /**
   * Between steps, when none is running, the label shown is the title at index done - 1. That is the last
   * finished step exactly when no step before it failed; with distinct titles, the label names the last
   * finished step in no other case, so after a failed batch it names the wrong one.
   */
  lemma {:induction false} LabelExactly(plan: seq<Step>)
    requires RunningTitle(plan) == "" && DoneCount(plan) > 0
    ensures 0 <= DoneCount(plan) - 1 <= LastDone(plan) && PlanShown(plan).stepLabel == plan[DoneCount(plan) - 1].title
    ensures DoneCount(plan) - 1 == LastDone(plan) <==> AllDoneUpTo(plan, LastDone(plan) + 1)
    ensures DistinctTitles(plan) ==>
              (PlanShown(plan).stepLabel == plan[LastDone(plan)].title <==> AllDoneUpTo(plan, LastDone(plan) + 1))
  {
    var k := LastDone(plan) + 1;
    DoneCountAt(plan);
    DoneCountFull(plan[..k]);
    assert forall i :: 0 <= i < k ==> plan[..k][i] == plan[i];
    hide DoneCount, LastDone, RunningTitle;
  }

  /** The analysis succeeds, the first batch fails and the second succeeds: the label names the failed one. */
  lemma LabelMisleads()
    ensures var plan := [Step("a", StepState.Done, ""), Step("b", StepState.Failed, ""), Step("c", StepState.Done, "")];
            PlanShown(plan).stepLabel == "b" && LastDone(plan) == 2
  {
    var plan := [Step("a", StepState.Done, ""), Step("b", StepState.Failed, ""), Step("c", StepState.Done, "")];
    var one, two := plan[..1], plan[..2];
    assert two[..1] == one && one[..0] == [];
    assert one[0] == plan[0] && two[1] == plan[1];
    assert DoneCount(one) == 1 && RunningTitle(one) == "";
    assert DoneCount(two) == 1 && RunningTitle(two) == "";
  }

  /** The bar is full exactly when every step is done. */
  lemma {:induction false} PercentFull(plan: seq<Step>)
    requires plan != []
    ensures 0 <= PlanShown(plan).percent <= 100
    ensures PlanShown(plan).percent == 100 <==> AllDoneUpTo(plan, |plan|)
  {
    DoneCountFull(plan);
    Share(DoneCount(plan), |plan|);
    hide DoneCount, RunningTitle, AllDoneUpTo;
  }

  lemma Share(d: nat, n: nat)
    requires d <= n && n > 0
    ensures 0 <= d * 100 / n <= 100 && (d * 100 / n == 100 <==> d == n)
  {
    var x := d * 100;
    var q := x / n;
    assert x == q * n + x % n;
    Eta.MulMonotone(101, q, n);
    Eta.MulMonotone(100, q, n);
    Eta.MulMonotone(q, 99, n);
  }

  // ----- what a finished run shows -----

  /** Every stage call after the analysis succeeded. */
  ghost predicate AllStagesOk(req: Request, answers: Answers)
    requires answers.analysis.Ok?
  {
    answers.aux.Ok? &&
    forall b :: 0 <= b < |Batched(Criteria(req, answers.analysis.value))| ==> answers.batches(b).Ok?
  }

  lemma {:induction false} NoneRunning(plan: seq<Step>)
    requires forall i :: 0 <= i < |plan| ==> plan[i].state != StepState.Running
    ensures RunningTitle(plan) == ""
  {
    if plan != [] {
      NoneRunning(plan[..|plan| - 1]);
    }
  }

  lemma BatchStepFacts(i: nat, n: nat, ac: AcceptanceCriterion, batch: Outcome<seq<TestCase>>)
    ensures var s := BatchStep(i, n, ac, batch);
            && (s.state == StepState.Done <==> batch.Ok?) && s.state != StepState.Running && s.title != COVERAGE_TITLE
  {
    hide Decimal;
    assert BatchLabel(i, n, ac)[0] == 'T' && COVERAGE_TITLE[0] == 'C';
  }

  lemma OuterStepFacts(req: Request, analysis: Outcome<Result>, aux: Outcome<(seq<EdgeCase>, TestData)>, rating: string)
    requires analysis.Ok?
    ensures AnalysisStep(req, analysis).state == StepState.Done && AnalysisStep(req, analysis).title != COVERAGE_TITLE
    ensures var two := FinalSteps(aux, rating);
            && (two[0].state == StepState.Done <==> aux.Ok?) && two[0].state != StepState.Running
            && two[0].title != COVERAGE_TITLE
            && two[1].state == StepState.Done && two[1].title == COVERAGE_TITLE
  {
    hide Decimal, Criteria;
    TitlesDiffer();
  }

  lemma TitlesDiffer()
    ensures ANALYSIS_TITLE != COVERAGE_TITLE && AUX_TITLE != COVERAGE_TITLE
  {
    assert COVERAGE_TITLE[0] == 'C';
    assert ANALYSIS_TITLE[0] == 'A';
    assert AUX_TITLE[0] == 'E';
  }

  /** A plan made of a first step, the batches' steps and two more. */
  lemma {:induction false} ByParts(plan: seq<Step>, first: Step, steps: seq<Step>, two: seq<Step>)
    requires plan == [first] + steps + two && |two| == 2
    ensures |plan| == |steps| + 3 && plan[0] == first && plan[|plan| - 2..] == two
    ensures forall i :: 0 < i <= |steps| ==> plan[i] == steps[i - 1]
    ensures AllDoneUpTo(plan, |plan|)
            <==> first.state == StepState.Done && AllDoneUpTo(steps, |steps|)
                 && two[0].state == StepState.Done && two[1].state == StepState.Done
  {
    assert forall b :: 0 <= b < |steps| ==> steps[b] == plan[b + 1];
    assert plan[|plan| - 2] == two[0] && plan[|plan| - 1] == two[1];
  }

  /** The step is over, and it is not the coverage step. */
  ghost predicate EarlierStep(s: Step) {
    s.state != StepState.Running && s.title != COVERAGE_TITLE
  }

  /** A plan whose last step is the coverage step, done, and whose others are over and are not it. */
  ghost predicate EndsWithCoverage(plan: seq<Step>) {
    var last := |plan| - 1;
    && last >= 0 && plan[last].title == COVERAGE_TITLE && plan[last].state == StepState.Done
    && forall i :: 0 <= i < last ==> EarlierStep(plan[i])
  }

  lemma {:induction false} PartsEnd(plan: seq<Step>, first: Step, steps: seq<Step>, two: seq<Step>)
    requires plan == [first] + steps + two && |two| == 2
    requires EarlierStep(first) && EarlierStep(two[0]) && forall b :: 0 <= b < |steps| ==> EarlierStep(steps[b])
    requires two[1].state == StepState.Done && two[1].title == COVERAGE_TITLE
    ensures EndsWithCoverage(plan)
  {
    hide EarlierStep;
    ByParts(plan, first, steps, two);
    assert plan[|plan| - 2] == two[0] && plan[|plan| - 1] == two[1];
  }

  lemma {:induction false} BatchesFacts(acs: seq<AcceptanceCriterion>, batches: nat -> Outcome<seq<TestCase>>)
    ensures var steps := BatchSteps(acs, batches, |acs|);
            && (AllDoneUpTo(steps, |steps|) <==> forall b :: 0 <= b < |acs| ==> batches(b).Ok?)
            && (forall b :: 0 <= b < |acs| ==> EarlierStep(steps[b]))
  {
    hide BatchStep;
    var steps := BatchSteps(acs, batches, |acs|);
    forall b | 0 <= b < |acs|
      ensures steps[b].state == StepState.Done <==> batches(b).Ok?
      ensures EarlierStep(steps[b]) {
      BatchStepFacts(b, |acs|, acs[b], batches(b));
    }
  }

  lemma FinalPlanFacts(req: Request, answers: Answers, r: Result)
    requires answers.analysis.Ok? && Orchestrator.Produced(req, answers) == Ok(r)
    ensures EndsWithCoverage(FinalPlan(req, answers))
    ensures AllDoneUpTo(FinalPlan(req, answers), |FinalPlan(req, answers)|) <==> AllStagesOk(req, answers)
  {
    var batched := Batched(Criteria(req, answers.analysis.value));
    hide Orchestrator.Produced, Criteria, Batched, AnalysisStep, BatchSteps, FinalSteps, AllDoneUpTo, EndsWithCoverage;
    var first := AnalysisStep(req, answers.analysis);
    var steps := BatchSteps(batched, answers.batches, |batched|);
    var two := FinalSteps(answers.aux, r.traceabilityScore.rating);
    var plan := FinalPlan(req, answers);
    assert plan == [first] + steps + two;
    hide FinalPlan;
    OuterStepFacts(req, answers.analysis, answers.aux, r.traceabilityScore.rating);
    BatchesFacts(batched, answers.batches);
    ByParts(plan, first, steps, two);
    PartsEnd(plan, first, steps, two);
  }

  /**
   * After a successful run the bar is full, and the label names the last finished step, exactly when every
   * batch and the extras succeeded: one failed stage call that did not sink the run is enough to have the
   * label name an earlier step than the one that finished last.
   */
  lemma RunShown(req: Request, answers: Answers)
    requires Orchestrator.Produced(req, answers).Ok?
    ensures answers.analysis.Ok?
    ensures var plan := FinalPlan(req, answers);
            && LastDone(plan) == |plan| - 1 >= 0 && plan[LastDone(plan)].title == COVERAGE_TITLE
            && (PlanShown(plan).percent == 100 <==> AllStagesOk(req, answers))
            && (PlanShown(plan).stepLabel == COVERAGE_TITLE <==> AllStagesOk(req, answers))
  {
    AnalysisWasOk(req, answers);
    FinalPlanFacts(req, answers, Orchestrator.Produced(req, answers).value);
    hide *;
    CoverageShown(FinalPlan(req, answers));
  }

  lemma {:induction false} CoverageShown(plan: seq<Step>)
    requires EndsWithCoverage(plan)
    ensures LastDone(plan) == |plan| - 1 >= 0 && plan[LastDone(plan)].title == COVERAGE_TITLE
    ensures PlanShown(plan).percent == 100 <==> AllDoneUpTo(plan, |plan|)
    ensures PlanShown(plan).stepLabel == COVERAGE_TITLE <==> AllDoneUpTo(plan, |plan|)
  {
    NoneRunning(plan);
    DoneAtEnd(plan);
    LabelExactly(plan);
    PercentFull(plan);
    hide DoneCount, LastDone, RunningTitle, PlanShown, AllDoneUpTo;
  }

  lemma AnalysisWasOk(req: Request, answers: Answers)
    requires Orchestrator.Produced(req, answers).Ok?
    ensures answers.analysis.Ok?
  {
  }

  lemma {:induction false} DoneAtEnd(plan: seq<Step>)
    requires plan != [] && plan[|plan| - 1].state == StepState.Done
    ensures DoneCount(plan) > 0 && LastDone(plan) == |plan| - 1
  {
  }
}
