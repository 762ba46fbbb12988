/**
 * The data the queue manager guards with its mutex, and each critical section as a function on it.
 * Manager (QueueManager.dfy) implements these functions; the protocol (QueueProtocol.dfy) interleaves them.
 */
module QueueCore {
  import opened Wrappers
  import opened Seqs
  import opened Contract
  import Eta

  /** newID draws 72 random bits; the model keeps the number rather than its hexadecimal spelling. */
  type Id = nat

  datatype Kind = Generate | Validate | Mom

  datatype JobState = Queued | Running | Done | Failed

  datatype JobInfo = JobInfo(
    kind: Kind, req: Request, state: JobState, plan: seq<Step>,
    partial: Option<Result>, result: Option<Result>, err: string)

  datatype Core = Core(
    jobs: map<Id, JobInfo>,
    queued: seq<Id>,
    running: Option<Id>,
    finished: seq<Id>,
    samples: seq<int>)

  const EMPTY_CORE := Core(map[], [], None, [], [])

  // ----- critical sections -----

  function NewJob(kind: Kind, req: Request): JobInfo {
    JobInfo(kind, req, Queued, [], None, None, "")
  }

  function Enqueue(c: Core, id: Id, kind: Kind, req: Request): Core {
    c.(jobs := c.jobs[id := NewJob(kind, req)], queued := c.queued + [id])
  }

  function Withdraw(c: Core, id: Id): Core {
    c.(jobs := c.jobs - {id}, queued := RemoveFirst(c.queued, id))
  }

  function Begin(c: Core, id: Id): Core
    requires id in c.jobs
  {
    c.(jobs := c.jobs[id := c.jobs[id].(state := JobState.Running)],
       queued := RemoveFirst(c.queued, id),
       running := Some(id))
  }

  /** What a Progress call may change: the plan and the work-in-progress result of one job. */
  function Report(c: Core, id: Id, plan: seq<Step>, partial: Option<Result>): Core
    requires id in c.jobs
  {
    c.(jobs := c.jobs[id := c.jobs[id].(plan := plan, partial := partial)])
  }

  function Closed(job: JobInfo, outcome: Outcome<Result>): JobInfo {
    match outcome
    case Ok(res) => job.(state := JobState.Done, result := Some(res))
    case Err(message) => job.(state := JobState.Failed, err := message)
  }

  function DropOldest(c: Core): Core
    requires c.finished != []
  {
    c.(finished := c.finished[1..], jobs := c.jobs - {c.finished[0]})
  }

  function Evict(c: Core, retain: nat): Core
    decreases |c.finished|
  {
    if |c.finished| <= retain then c else Evict(DropOldest(c), retain)
  }

  function End(c: Core, id: Id, outcome: Outcome<Result>, dur: int, window: nat, retain: nat): Core
    requires id in c.jobs
  {
    Evict(c.(jobs := c.jobs[id := Closed(c.jobs[id], outcome)],
             samples := if outcome.Ok? then Eta.Recorded(c.samples, window, dur) else c.samples,
             running := None,
             finished := c.finished + [id]),
          retain)
  }

  /** Submit's roll-back restores exactly the state its first critical section found. */
  lemma WithdrawUndoesEnqueue(c: Core, id: Id, kind: Kind, req: Request)
    requires id !in c.jobs && id !in c.queued
    ensures Withdraw(Enqueue(c, id, kind, req), id) == c
  {
    RemoveFirstAppend(c.queued, [id], id);
    assert RemoveFirst([id], id) == [];
    assert c.queued + [] == c.queued;
    assert (c.jobs[id := NewJob(kind, req)]) - {id} == c.jobs;
  }

  /** Eviction keeps the newest `retain` finished jobs and forgets exactly the others. */
  lemma {:induction false} EvictKeepsNewest(c: Core, retain: nat)
    ensures var e := Evict(c, retain);
            && e.finished == Last(c.finished, retain)
            && e == c.(finished := e.finished, jobs := e.jobs)
            && (forall id :: id in e.jobs <==>
                  id in c.jobs && id !in c.finished[..|c.finished| - |e.finished|])
            && (forall id :: id in e.jobs ==> e.jobs[id] == c.jobs[id])
    decreases |c.finished|
  {
    if |c.finished| > retain {
      var d := DropOldest(c);
      EvictKeepsNewest(d, retain);
      var k := |c.finished| - retain;
      assert c.finished[..k] == [c.finished[0]] + d.finished[..k - 1];
    } else {
      assert c.finished[..0] == [];
    }
  }

  // ----- what the browser is shown -----

  datatype Snapshot = Snapshot(busy: bool, runningId: Option<Id>, queueLen: nat, etaPerJob: int, etaKnown: bool)

  function TakeSnapshot(c: Core): Snapshot {
    var avg := Eta.Mean(c.samples);
    Snapshot(c.running.Some?, c.running, |c.queued|,
             if avg.Some? then avg.value else 0, avg.Some?)
  }

  datatype JobView = JobView(
    id: Id, state: JobState, position: int, eta: int, etaKnown: bool, err: string, plan: seq<Step>)

  /** The 1-based place of id in the queue, 0 when it is not waiting. */
  function Position(c: Core, id: Id): nat {
    IndexOf(c.queued, id) + 1
  }

  function ViewJob(c: Core, id: Id): Option<JobView> {
    if id !in c.jobs then None
    else
      var job := c.jobs[id];
      var avg := Eta.Mean(c.samples);
      if job.state == Queued then
        var ahead := Position(c, id) + (if c.running.Some? then 1 else 0);
        Some(JobView(id, job.state, Position(c, id),
                     if avg.Some? then avg.value * ahead else 0, avg.Some?, job.err, job.plan))
      else
        Some(JobView(id, job.state, 0, 0, false, job.err, job.plan))
  }
}
