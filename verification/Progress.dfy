/** The handle through which a runner publishes its step plan and its work in progress. */
module ProgressReport {
  import opened Wrappers
  import opened Contract
  import opened QueueCore
  import opened QueueManager
  import QueueProtocol

  function NewPlan(labels: seq<string>): (plan: seq<Step>)
    ensures |plan| == |labels|
  {
    seq(|labels|, i requires 0 <= i < |labels| => Step(labels[i], StepState.Pending, ""))
  }

  /** set: an index outside the plan is ignored, and an empty detail keeps the old one. */
  function SetStep(plan: seq<Step>, i: int, st: StepState, detail: string): (r: seq<Step>)
    ensures |r| == |plan|
  {
    if 0 <= i < |plan| then
      plan[i := plan[i].(state := st, detail := if detail != "" then detail else plan[i].detail)]
    else plan
  }

  /** A new plan has one step per label, none of them begun. */
  lemma NewPlanExactly(labels: seq<string>, i: nat)
    requires i < |labels|
    ensures var s := NewPlan(labels)[i]; s.title == labels[i] && s.state == Pending && s.detail == ""
  {
  }

  /** Setting a step changes the state of that one, and its detail unless the new one is empty, and nothing else. */
  lemma SetStepExactly(plan: seq<Step>, i: int, st: StepState, detail: string, k: nat)
    requires k < |plan|
    ensures var s := SetStep(plan, i, st, detail)[k];
            && (k != i ==> s == plan[k])
            && (k == i ==> s.title == plan[k].title && s.state == st)
            && (k == i && detail != "" ==> s.detail == detail)
            && (k == i && detail == "" ==> s.detail == plan[k].detail)
  {
  }

  predicate Settled(s: Step) {
    s.state == StepState.Done || s.state == StepState.Failed
  }

  /** Every step but the last is done or failed, so at most one is running. */
  ghost predicate WellShaped(plan: seq<Step>) {
    forall i :: 0 <= i < |plan| - 1 ==> Settled(plan[i])
  }

  ghost predicate AllSettled(plan: seq<Step>) {
    forall i :: 0 <= i < |plan| ==> Settled(plan[i])
  }

  class Progress {
    const m: Manager
    const job: Job
    ghost var plans: seq<seq<Step>>   // every plan published through this handle
    ghost var partials: seq<Result>   // every work-in-progress result published

    constructor (m: Manager, job: Job)
      ensures this.m == m && this.job == job && plans == [] && partials == []
    {
      this.m, this.job, plans, partials := m, job, [], [];
    }

    /** The job is in the manager's table. */
    ghost predicate Filed()
      reads m`jobs, m`queued, m`running, m`finished, m.eta, m.jobs.Values, m.running
    {
      m.Valid() && job.id in m.jobs && m.jobs[job.id] == job
    }

    /** Since the manager stood at c, if the job was filed, nothing of it changed but the job's plan and partial. */
    ghost predicate OnlyReported(filed: bool, c: Core)
      reads m`jobs, m`queued, m`running, m`finished, m.eta, m.jobs.Values, m.running, job
    {
      filed ==> Filed() && job.id in c.jobs && m.View() == Report(c, job.id, job.plan, job.partial)
    }

    /** The critical section every call shares, followed by the onChange. */
    method Publish(plan: seq<Step>, partial: Option<Result>)
      modifies job`plan, job`partial, m`notified
      ensures job.plan == plan && job.partial == partial && m.notified == old(m.notified) + 1
      ensures OnlyReported(old(Filed()), old(m.View()))
    {
      ghost var c := m.View();
      ghost var filed := Filed();
      job.plan := plan;
      job.partial := partial;
      m.notified := m.notified + 1;
      if filed {
        ReportKeeps(c, m.View(), job.id, plan, partial);
      }
    }

    static lemma ReportKeeps(c: Core, d: Core, id: Id, plan: seq<Step>, partial: Option<Result>)
      requires QueueProtocol.Table(c) && QueueProtocol.Apart(c) && id in c.jobs
      requires d.queued == c.queued && d.running == c.running && d.finished == c.finished && d.samples == c.samples
      requires d.jobs.Keys == c.jobs.Keys
      requires forall x :: x in c.jobs ==>
                 d.jobs[x] == if x == id then c.jobs[x].(plan := plan, partial := partial) else c.jobs[x]
      ensures d == Report(c, id, plan, partial) && QueueProtocol.Table(d) && QueueProtocol.Apart(d)
    {
      assert d.jobs == Report(c, id, plan, partial).jobs;
      QueueProtocol.ReportTable(c, id, plan, partial);
    }

    method Plan(labels: seq<string>)
      modifies this, job`plan, job`partial, m`notified
      ensures job.plan == NewPlan(labels) && job.partial == old(job.partial) && m.notified == old(m.notified) + 1
      ensures plans == old(plans) + [job.plan] && partials == old(partials)
      ensures OnlyReported(old(Filed()), old(m.View()))
    {
      hide *;
      Publish(NewPlan(labels), job.partial);
      plans := plans + [job.plan];
    }

    method Append(label_: string) returns (i: nat)
      modifies this, job`plan, job`partial, m`notified
      ensures job.plan == old(job.plan) + [Step(label_, StepState.Pending, "")] && i == |old(job.plan)|
      ensures job.partial == old(job.partial) && m.notified == old(m.notified) + 1
      ensures plans == old(plans) + [job.plan] && partials == old(partials)
      ensures OnlyReported(old(Filed()), old(m.View()))
    {
      hide *;
      i := |job.plan|;
      Publish(job.plan + [Step(label_, StepState.Pending, "")], job.partial);
      plans := plans + [job.plan];
    }

    method Set(i: int, st: StepState, detail: string)
      modifies this, job`plan, job`partial, m`notified
      ensures job.plan == SetStep(old(job.plan), i, st, detail)
      ensures job.partial == old(job.partial) && m.notified == old(m.notified) + 1
      ensures plans == old(plans) + [job.plan] && partials == old(partials)
      ensures OnlyReported(old(Filed()), old(m.View()))
    {
      hide *;
      Publish(SetStep(job.plan, i, st, detail), job.partial);
      plans := plans + [job.plan];
    }

    method Partial(res: Result)
      modifies this, job`plan, job`partial, m`notified
      ensures job.partial == Some(res) && job.plan == old(job.plan) && m.notified == old(m.notified) + 1
      ensures plans == old(plans) && partials == old(partials) + [res]
      ensures OnlyReported(old(Filed()), old(m.View()))
    {
      hide *;
      Publish(job.plan, Some(res));
      partials := partials + [res];
    }
  }

  // ----- how the runners use it -----

  /** Where a stretch of reporting began: the plans published by then, and the manager's state. */
  datatype Origin = Origin(plans: nat, filed: bool, core: Core)

  ghost function Here(p: Progress): Origin
    reads p, p.m`jobs, p.m`queued, p.m`running, p.m`finished, p.m.eta, p.m.jobs.Values, p.m.running, p.job
  {
    Origin(|p.plans|, p.Filed(), p.m.View())
  }

  /** Everything this handle has published since `from` is a well-shaped plan. */
  ghost predicate PlansShaped(plans: seq<seq<Step>>, from: nat) {
    from <= |plans| && forall i :: from <= i < |plans| ==> WellShaped(plans[i])
  }

  /** Since then only well-shaped plans were published, and of the manager's state only this job's report changed. */
  ghost predicate OnTrack(p: Progress, from: Origin)
    reads p, p.m`jobs, p.m`queued, p.m`running, p.m`finished, p.m.eta, p.m.jobs.Values, p.m.running, p.job
  {
    PlansShaped(p.plans, from.plans) && p.OnlyReported(from.filed, from.core)
  }

  lemma StartsOnTrack(p: Progress)
    ensures OnTrack(p, Here(p))
  {
    if p.Filed() {
      var c := p.m.View();
      assert c.jobs[p.job.id] == p.job.Info();
      assert Report(c, p.job.id, p.job.plan, p.job.partial).jobs == c.jobs;
    }
  }

  /** Two reports of one job in a row leave what the second says. */
  lemma ReportTwice(c: Core, id: Id, plan: seq<Step>, partial: Option<Result>,
                    plan2: seq<Step>, partial2: Option<Result>)
    requires id in c.jobs
    ensures Report(Report(c, id, plan, partial), id, plan2, partial2) == Report(c, id, plan2, partial2)
  {
    assert Report(Report(c, id, plan, partial), id, plan2, partial2).jobs == Report(c, id, plan2, partial2).jobs;
  }

  /** Start, Done and Fail. */
  method Mark(p: Progress, i: int, st: StepState, detail: string, ghost from: Origin)
    requires p.OnlyReported(from.filed, from.core)
    modifies p, p.job`plan, p.job`partial, p.m`notified
    ensures p.job.plan == SetStep(old(p.job.plan), i, st, detail)
    ensures p.plans == old(p.plans) + [p.job.plan] && p.partials == old(p.partials)
    ensures p.OnlyReported(from.filed, from.core)
  {
    hide SetStep, Report;
    ghost var plan, partial := p.job.plan, p.job.partial;
    p.Set(i, st, detail);
    if from.filed {
      ReportTwice(from.core, p.job.id, plan, partial, p.job.plan, p.job.partial);
    }
  }

  /** Begin a plan of one step and start it. */
  method OpenPlan(p: Progress, label_: string, ghost from: Origin)
    requires OnTrack(p, from)
    modifies p, p.job`plan, p.job`partial, p.m`notified
    ensures p.job.plan == [Step(label_, StepState.Running, "")]
    ensures OnTrack(p, from) && p.partials == old(p.partials)
  {
    hide WellShaped, PlansShaped, Report;
    ghost var before, plan, partial := p.plans, p.job.plan, p.job.partial;
    p.Plan([label_]);
    if from.filed {
      ReportTwice(from.core, p.job.id, plan, partial, p.job.plan, p.job.partial);
    }
    OneStepShaped(before, p.job.plan, from.plans);
    ghost var middle := p.plans;
    Mark(p, 0, StepState.Running, "", from);
    OneStepShaped(middle, p.job.plan, from.plans);
  }

  lemma OneStepShaped(plans: seq<seq<Step>>, plan: seq<Step>, from: nat)
    requires PlansShaped(plans, from) && |plan| <= 1
    ensures PlansShaped(plans + [plan], from)
  {
  }

  lemma LastStepShaped(plans: seq<seq<Step>>, settled: seq<Step>, plan: seq<Step>, from: nat)
    requires PlansShaped(plans, from) && AllSettled(settled) && |plan| == |settled| + 1 && plan[..|settled|] == settled
    ensures PlansShaped(plans + [plan], from)
    ensures Settled(plan[|settled|]) ==> AllSettled(plan)
  {
    assert forall i :: 0 <= i < |settled| ==> plan[i] == settled[i];
  }

  /** Append a step and start it. */
  method OpenStep(p: Progress, label_: string, ghost from: Origin) returns (step: nat)
    requires AllSettled(p.job.plan) && OnTrack(p, from)
    modifies p, p.job`plan, p.job`partial, p.m`notified
    ensures step == |old(p.job.plan)| && |p.job.plan| == step + 1
    ensures p.job.plan == old(p.job.plan) + [Step(label_, StepState.Running, "")]
    ensures p.job.plan[..step] == old(p.job.plan) && p.job.plan[step].state == StepState.Running
    ensures OnTrack(p, from) && p.partials == old(p.partials)
  {
    hide WellShaped, PlansShaped, AllSettled, Report;
    ghost var before, plan, partial := p.plans, p.job.plan, p.job.partial;
    step := p.Append(label_);
    if from.filed {
      ReportTwice(from.core, p.job.id, plan, partial, p.job.plan, p.job.partial);
    }
    LastStepShaped(before, plan, p.job.plan, from.plans);
    ghost var middle := p.plans;
    Mark(p, step, StepState.Running, "", from);
    LastStepShaped(middle, plan, p.job.plan, from.plans);
  }

  /** A finished step: an empty detail keeps the old one. */
  function ClosedStep(s: Step, st: StepState, detail: string): Step {
    s.(state := st, detail := if detail != "" then detail else s.detail)
  }

  /** Finish the last step, well or badly. */
  method CloseStep(p: Progress, step: nat, st: StepState, detail: string, ghost from: Origin)
    requires |p.job.plan| == step + 1 && AllSettled(p.job.plan[..step]) && OnTrack(p, from)
    requires st == StepState.Done || st == StepState.Failed
    modifies p, p.job`plan, p.job`partial, p.m`notified
    ensures |p.job.plan| == step + 1 && AllSettled(p.job.plan)
    ensures p.job.plan == old(p.job.plan[..step]) + [ClosedStep(old(p.job.plan[step]), st, detail)]
    ensures p.job.plan[..step] == old(p.job.plan[..step]) && p.job.plan[step].state == st
    ensures OnTrack(p, from) && p.partials == old(p.partials)
  {
    hide WellShaped, PlansShaped, AllSettled, Report;
    ghost var before, plan := p.plans, p.job.plan;
    Mark(p, step, st, detail, from);
    LastStepShaped(before, plan[..step], p.job.plan, from.plans);
  }

  /** Publish the work in progress. */
  method Share(p: Progress, res: Result, ghost from: Origin)
    requires OnTrack(p, from)
    modifies p, p.job`plan, p.job`partial, p.m`notified
    ensures p.job.plan == old(p.job.plan) && p.partials == old(p.partials) + [res]
    ensures OnTrack(p, from)
  {
    hide PlansShaped, Report;
    ghost var plan, partial := p.job.plan, p.job.partial;
    p.Partial(res);
    if from.filed {
      ReportTwice(from.core, p.job.id, plan, partial, p.job.plan, p.job.partial);
    }
  }
}
