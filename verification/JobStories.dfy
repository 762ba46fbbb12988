/** What a job's entry says, in every state of every run: who submitted it, what it last reported, how it ended. */
module JobStories {
  import opened Wrappers
  import opened Contract
  import opened QueueCore
  import opened QueueProtocol
  import opened QueueTheorems
  import Eta

  /** What happened to the jobs so far: their submissions, their last reports, and how the runner left them. */
  datatype Story = Story(
    filed: map<Id, (Kind, Request)>,
    reports: map<Id, (seq<Step>, Option<Result>)>,
    outcomes: map<Id, Outcome<Result>>)

  const NOTHING := Story(map[], map[], map[])

  /** One more step; a report or an end is about the job the worker has in hand. */
  ghost function Tell(story: Story, s: Sys, a: Act): Story {
    match a
    case Append(id, kind, req) => story.(filed := story.filed[id := (kind, req)])
    case Progress(plan, partial) =>
      if s.worker.Busy? then story.(reports := story.reports[s.worker.id := (plan, partial)]) else story
    case Finish(outcome, _) =>
      if s.worker.Busy? then story.(outcomes := story.outcomes[s.worker.id := outcome]) else story
    case _ => story
  }

  ghost function StoryOf(cfg: Config, s: Sys, acts: seq<Act>, story: Story): Story
    requires Legal(cfg, s, acts)
    decreases |acts|
  {
    if acts == [] then story else StoryOf(cfg, Apply(cfg, s, acts[0]), acts[1..], Tell(story, s, acts[0]))
  }

  /** The entry of a job is what its story says, to the letter. */
  ghost predicate Tells(story: Story, id: Id, job: JobInfo) {
    && id in story.filed && job.kind == story.filed[id].0 && job.req == story.filed[id].1
    && (if id in story.reports then job.plan == story.reports[id].0 && job.partial == story.reports[id].1
        else job.plan == [] && job.partial == None)
    && (if id !in story.outcomes then
          (job.state == Queued || job.state == JobState.Running) && job.result == None && job.err == ""
        else
          match story.outcomes[id]
          case Ok(res) => job.state == JobState.Done && job.result == Some(res) && job.err == ""
          case Err(message) => job.state == JobState.Failed && job.result == None && job.err == message)
  }

  ghost predicate AllTold(c: Core, story: Story) {
    forall id :: id in c.jobs ==> Tells(story, id, c.jobs[id])
  }

  lemma AppendTold(cfg: Config, s: Sys, story: Story, id: Id, kind: Kind, req: Request)
    requires Enabled(cfg, s, Append(id, kind, req)) && AllTold(s.core, story)
    requires id !in story.reports && id !in story.outcomes
    ensures AllTold(Apply(cfg, s, Append(id, kind, req)).core, Tell(story, s, Append(id, kind, req)))
  {
  }

  lemma BeginTold(c: Core, story: Story, x: Id)
    requires x in c.jobs && c.jobs[x].state == Queued && AllTold(c, story)
    ensures AllTold(Begin(c, x), story)
  {
    assert Tells(story, x, c.jobs[x]);
  }

  lemma ReportTold(c: Core, story: Story, x: Id, plan: seq<Step>, partial: Option<Result>)
    requires x in c.jobs && AllTold(c, story)
    ensures AllTold(Report(c, x, plan, partial), story.(reports := story.reports[x := (plan, partial)]))
  {
    assert Tells(story, x, c.jobs[x]);
  }

  lemma EndTold(c: Core, story: Story, x: Id, outcome: Outcome<Result>, d: Core)
    requires x in c.jobs && c.jobs[x].state == JobState.Running && AllTold(c, story)
    requires forall id :: id in d.jobs ==>
               id in c.jobs && d.jobs[id] == if id == x then Closed(c.jobs[x], outcome) else c.jobs[id]
    ensures AllTold(d, story.(outcomes := story.outcomes[x := outcome]))
  {
    assert Tells(story, x, c.jobs[x]);
  }

  lemma StartTold(cfg: Config, s: Sys, story: Story)
    requires Inv(cfg, s) && Enabled(cfg, s, Start) && AllTold(s.core, story)
    ensures AllTold(Apply(cfg, s, Start).core, story)
  {
    HeldIsWaiting(s);
    assert MatchesPlace(s.core, s.worker.id);
    hide Inv, Begin, AllTold, MatchesPlace;
    BeginTold(s.core, story, s.worker.id);
  }

  lemma ProgressTold(cfg: Config, s: Sys, story: Story, plan: seq<Step>, partial: Option<Result>)
    requires Inv(cfg, s) && Enabled(cfg, s, Act.Progress(plan, partial)) && AllTold(s.core, story)
    ensures AllTold(Apply(cfg, s, Act.Progress(plan, partial)).core, Tell(story, s, Act.Progress(plan, partial)))
  {
    hide Inv, Report, AllTold;
    ReportTold(s.core, story, s.worker.id, plan, partial);
  }

  lemma FinishTold(cfg: Config, s: Sys, story: Story, outcome: Outcome<Result>, dur: int)
    requires Inv(cfg, s) && Enabled(cfg, s, Finish(outcome, dur)) && AllTold(s.core, story)
    ensures AllTold(Apply(cfg, s, Finish(outcome, dur)).core, Tell(story, s, Finish(outcome, dur)))
  {
    assert s.core.running == Some(s.worker.id) && MatchesPlace(s.core, s.worker.id);
    hide Inv, End, AllTold, Tells, MatchesPlace;
    EndFields(s.core, s.worker.id, outcome, dur, cfg.window, cfg.retain);
    EndTold(s.core, story, s.worker.id, outcome, End(s.core, s.worker.id, outcome, dur, cfg.window, cfg.retain));
  }

  /** Reports and ends are of submitted jobs only, so that an appended job starts with a blank page. */
  ghost predicate Bounded(s: Sys, story: Story) {
    story.reports.Keys <= s.pcs.Keys && story.outcomes.Keys <= s.pcs.Keys
  }

  lemma BoundedKept(cfg: Config, s: Sys, story: Story, a: Act)
    requires Inv(cfg, s) && Enabled(cfg, s, a) && Bounded(s, story)
    ensures Bounded(Apply(cfg, s, a), Tell(story, s, a))
  {
    if a.Progress? || a.Finish? {
      WorkerKnown(cfg, s);
    }
    hide Inv, Enqueue, Withdraw, Begin, Report, End;
  }

  lemma WorkerKnown(cfg: Config, s: Sys)
    requires Inv(cfg, s) && s.worker.Busy? && s.worker.id in s.core.jobs
    ensures s.worker.id in s.pcs
  {
    hide Flow, Service, Tickets, Waiting, Table;
    PlacesKnown(cfg, s, s.worker.id);
  }

  lemma StepTold(cfg: Config, s: Sys, story: Story, a: Act)
    requires Inv(cfg, s) && Enabled(cfg, s, a) && AllTold(s.core, story) && Bounded(s, story)
    ensures AllTold(Apply(cfg, s, a).core, Tell(story, s, a))
  {
    match a
    case Append(id, kind, req) => AppendTold(cfg, s, story, id, kind, req);
    case Start => StartTold(cfg, s, story);
    case Progress(plan, partial) => ProgressTold(cfg, s, story, plan, partial);
    case Finish(outcome, dur) => FinishTold(cfg, s, story, outcome, dur);
    case _ => hide Inv;
  }

  lemma {:induction false} RunTold(cfg: Config, s: Sys, acts: seq<Act>, story: Story)
    requires Inv(cfg, s) && Legal(cfg, s, acts) && AllTold(s.core, story) && Bounded(s, story)
    ensures AllTold(After(cfg, s, acts).core, StoryOf(cfg, s, acts, story))
    decreases |acts|
  {
    hide Inv, Apply, Enabled, AllTold, Bounded, Tell;
    if acts != [] {
      StepKeeps(cfg, s, acts[0]);
      StepTold(cfg, s, story, acts[0]);
      BoundedKept(cfg, s, story, acts[0]);
      RunTold(cfg, Apply(cfg, s, acts[0]), acts[1..], Tell(story, s, acts[0]));
    }
  }

  /**
   * In every state of every run each entry of the job table holds the kind and the request the job was
   * submitted with and what it last reported; a job the runner has left holds exactly what the runner
   * returned, as a result or as an error, and any other job neither.
   */
  lemma {:induction false} EntriesTold(cfg: Config, acts: seq<Act>)
    requires Possible(cfg, acts)
    ensures AllTold(After(cfg, INIT, acts).core, StoryOf(cfg, INIT, acts, NOTHING))
  {
    InitHolds(cfg);
    RunTold(cfg, INIT, acts, NOTHING);
  }

  // ----- what is shown of it -----

  /** The snapshot of every reachable state: the job that started last while it runs, who waits, and the mean. */
  lemma {:induction false} SnapshotTold(cfg: Config, acts: seq<Act>)
    requires Possible(cfg, acts)
    ensures var s := After(cfg, INIT, acts);
            var snap := TakeSnapshot(s.core);
            && (snap.busy <==> |s.started| == |s.completed| + 1)
            && snap.runningId == (if snap.busy then Some(s.started[|s.completed|]) else None)
            && snap.queueLen == |s.core.queued|
            && (snap.etaKnown <==> s.core.samples != [])
            && (if snap.etaKnown then Eta.IsMean(Eta.Sum(s.core.samples), |s.core.samples|, snap.etaPerJob)
                else snap.etaPerJob == 0)
  {
    StrictFifo(cfg, acts);
    var s := After(cfg, INIT, acts);
    hide Possible, Legal, After, Eta.Sum, Eta.IsMean;
    if s.core.samples != [] {
      Eta.MeanExactly(s.core.samples, Eta.Mean(s.core.samples).value);
    }
  }

  /** A job's view shows the plan and the error its entry holds; only a waiting job has a place and an estimate. */
  lemma {:induction false} ViewTold(cfg: Config, acts: seq<Act>, id: Id)
    requires Possible(cfg, acts)
    ensures var c := After(cfg, INIT, acts).core;
            && (ViewJob(c, id) == None <==> id !in c.jobs)
            && (id in c.jobs ==>
                  var v := ViewJob(c, id).value;
                  && v.id == id && v.state == c.jobs[id].state && v.plan == c.jobs[id].plan && v.err == c.jobs[id].err
                  && (v.position >= 1 <==> id in c.queued) && (id !in c.queued ==> v.eta == 0 && !v.etaKnown)
                  && (id in c.queued ==> v.position <= |c.queued| && c.queued[v.position - 1] == id))
  {
    PossibleInv(cfg, acts);
    var s := After(cfg, INIT, acts);
    assert id in s.core.jobs ==> MatchesPlace(s.core, id);
    hide Inv, Possible, Legal, After, Eta.Mean;
  }
}
