/** One job from start to finish: the runner its kind calls for, inside the worker's critical sections. */
module Worker {
  import opened Wrappers
  import opened Contract
  import opened QueueCore
  import opened QueueManager
  import opened ProgressReport
  import Orchestrator
  import MomRun

  /** The configured runners, by what they meet: no validator or minutes runner means the generating one. */
  datatype Runners = Runners(
    generate: Orchestrator.Answers, snap: bool,
    validate: Option<Outcome<Result>>,
    mom: Option<MomRun.Answers>, momLanguage: string)

  /** The verdict of the runner chosen for a job. */
  function Verdict(rs: Runners, kind: Kind, req: Request): Outcome<Result> {
    if kind == Validate && rs.validate.Some? then rs.validate.value
    else if kind == Mom && rs.mom.Some? then
      match MomRun.Produced(rs.mom.value)
      case Ok(minutes) => Ok(EMPTY_RESULT.(mom := Some(minutes)))
      case Err(message) => Err(message)
    else Orchestrator.Produced(req, rs.generate)
  }

  /**
   * A validation is what the validator returns, a minutes job the minutes and nothing else or the run's error,
   * and every other job, or one whose runner is not configured, what the generating run returns.
   */
  lemma VerdictExactly(rs: Runners, kind: Kind, req: Request)
    ensures kind == Validate && rs.validate.Some? ==> Verdict(rs, kind, req) == rs.validate.value
    ensures kind == Kind.Mom && rs.mom.Some? ==>
              match MomRun.Produced(rs.mom.value)
              case Err(message) => Verdict(rs, kind, req) == Err(message)
              case Ok(minutes) => Verdict(rs, kind, req) == Ok(OnlyMinutes(minutes))
    ensures kind == Generate || (kind == Validate && rs.validate == None) || (kind == Kind.Mom && rs.mom == None) ==>
              Verdict(rs, kind, req) == Orchestrator.Produced(req, rs.generate)
  {
    hide MomRun.Produced, Orchestrator.Produced;
  }

  /** A result whose only content is the minutes. */
  function OnlyMinutes(minutes: MomResult): Result {
    Result([], [], [], [], TestData([], [], []), [], CoverageSummary(0, 0, 0), [], Score(0, "", []), Score(0, "", []),
           [], Some(minutes))
  }

  /** Whether the runner chosen for a job is the minutes runner, which owns the job's upload. */
  predicate OwnsUpload(rs: Runners, kind: Kind) {
    kind == Mom && rs.mom.Some?
  }

  /** The plan a job is left with: each runner has its own, and one that never reports leaves it as it was. */
  function PlanLeft(rs: Runners, kind: Kind, req: Request, before: seq<Step>): seq<Step> {
    if kind == Validate && rs.validate.Some? then before
    else if OwnsUpload(rs, kind) then
      if rs.mom.value.mkdir.Ok? then MomRun.FinalPlan(rs.mom.value, rs.momLanguage) else before
    else Orchestrator.FinalPlan(req, rs.generate)
  }

  /** The runner at work: of the manager it changes the job's report only, and every plan it shows is well shaped. */
  method RunRunner(p: Progress, disk: MomRun.Disk, rs: Runners) returns (outcome: Outcome<Result>)
    modifies p, p.job`plan, p.job`partial, p.m`notified, disk
    ensures outcome == Verdict(rs, p.job.kind, p.job.req)
    ensures p.OnlyReported(old(p.Filed()), old(p.m.View())) && PlansShaped(p.plans, |old(p.plans)|)
    ensures p.job.plan == PlanLeft(rs, p.job.kind, p.job.req, old(p.job.plan))
    ensures disk.files == old(disk.files) - (if OwnsUpload(rs, p.job.kind) then {p.job.req.audioPath} else {})
  {
    hide PlansShaped, AllSettled, Orchestrator.Produced, Orchestrator.FinalPlan,
         MomRun.Produced, MomRun.LeavesRunning, MomRun.AllDone, MomRun.FinalPlan;
    if p.job.kind == Validate && rs.validate.Some? {
      StartsOnTrack(p);
      return rs.validate.value;
    }
    if p.job.kind == Mom && rs.mom.Some? {
      var r, sent := MomRun.Run(p, disk, p.job.req, rs.momLanguage, rs.mom.value);
      if r.Err? {
        return Err(r.message);
      }
      return Ok(EMPTY_RESULT.(mom := Some(r.value)));
    }
    var r, sent, saved := Orchestrator.Run(p, p.job.req, rs.generate, rs.snap);
    outcome := r;
  }

  /** runOne up to the runner's return. */
  method Serve(m: Manager, job: Job, disk: MomRun.Disk, rs: Runners) returns (outcome: Outcome<Result>)
    requires m.Valid() && m.ChannelValid() && m.running == null
    requires job.id in m.queued && job.id in m.jobs && m.jobs[job.id] == job && job !in m.ch
    modifies m`queued, m`running, m`notified, job`state, job`plan, job`partial, disk
    ensures m.Valid() && m.ChannelValid() && m.running == job
    ensures outcome == Verdict(rs, job.kind, job.req)
    ensures job.id in old(m.View()).jobs && job.id in Begin(old(m.View()), job.id).jobs
    ensures m.View() == Report(Begin(old(m.View()), job.id), job.id, job.plan, job.partial)
    ensures job.plan == PlanLeft(rs, job.kind, job.req, old(job.plan))
    ensures disk.files == old(disk.files) - (if OwnsUpload(rs, job.kind) then {job.req.audioPath} else {})
  {
    hide *;
    Tabled(m, job);
    m.StartJob(job);
    var p := new Progress(m, job);
    RunningFiled(p);
    ghost var c := m.View();
    outcome := RunRunner(p, disk, rs);
    StillFiled(p, c);
  }

  /**
   * runOne with its runner: the guarded state becomes what starting the job, some report of the runner's and
   * ending it with the runner's verdict make of it. The job's entry holds that verdict and the last report,
   * the other entries that are kept are as they were, and the invariants hold.
   */
  method RunJob(m: Manager, job: Job, disk: MomRun.Disk, rs: Runners, dur: int) returns (outcome: Outcome<Result>)
    requires m.Valid() && m.ChannelValid() && m.running == null
    requires job.id in m.queued && job.id in m.jobs && m.jobs[job.id] == job && job !in m.ch
    modifies m`jobs, m`queued, m`finished, m`running, m`notified, m.eta, disk
    modifies job`state, job`plan, job`partial, job`result, job`err
    ensures m.Valid() && m.ChannelValid() && m.running == null && m.ch == old(m.ch)
    ensures outcome == Verdict(rs, job.kind, job.req) && job.Holds(outcome)
    ensures job.id in m.View().jobs && m.View().jobs[job.id] == job.Info()
    ensures OthersKept(old(m.View()), m.View(), job.id)
    ensures job.id in Begin(old(m.View()), job.id).jobs
    ensures m.View() == End(Report(Begin(old(m.View()), job.id), job.id, job.plan, job.partial),
                            job.id, outcome, dur, m.Window(), m.retain)
    ensures job.plan == PlanLeft(rs, job.kind, job.req, old(job.plan))
    ensures disk.files == old(disk.files) - (if OwnsUpload(rs, job.kind) then {job.req.audioPath} else {})
  {
    hide *;
    ghost var c := m.View();
    outcome := Serve(m, job, disk, rs);
    ghost var d := m.View();
    m.EndJob(job, outcome, dur);
    ServedOthers(c, d, m.View(), job.id, job.plan, job.partial);
  }

  lemma Tabled(m: Manager, job: Job)
    requires job.id in m.jobs
    ensures job.id in m.View().jobs
  {
  }

  lemma StillFiled(p: Progress, c: Core)
    requires p.OnlyReported(true, c)
    ensures p.m.Valid() && p.job.id in c.jobs && p.m.View() == Report(c, p.job.id, p.job.plan, p.job.partial)
  {
  }

  lemma RunningFiled(p: Progress)
    requires p.m.Valid() && p.m.running == p.job
    ensures p.Filed()
  {
  }
}
