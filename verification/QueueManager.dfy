/** The queue manager itself: jobs, queue and channel updated in place, one critical section at a time. */
module QueueManager {
  import opened Wrappers
  import opened Seqs
  import opened Contract
  import opened QueueCore
  import opened QueueProtocol
  import Eta

  /** removeID. */
  method RemoveId(s: seq<Id>, id: Id) returns (r: seq<Id>)
    ensures r == RemoveFirst(s, id)
  {
    for i := 0 to |s|
      invariant id !in s[..i]
    {
      if s[i] == id {
        FirstAt(s, i);
        RemoveFirstAt(s, id);
        return s[..i] + s[i + 1..];
      }
    }
    assert s[..|s|] == s;
    RemoveFirstAbsent(s, id);
    return s;
  }

  lemma FirstAt(s: seq<Id>, i: nat)
    requires i < |s| && s[i] !in s[..i]
    ensures IndexOf(s, s[i]) == i
  {
    assert forall j :: 0 <= j < i ==> s[j] in s[..i];
  }

  /** indexOf. */
  method FindId(s: seq<Id>, id: Id) returns (r: int)
    ensures r == IndexOf(s, id)
  {
    for i := 0 to |s|
      invariant id !in s[..i]
    {
      if s[i] == id {
        FirstAt(s, i);
        return i;
      }
    }
    assert s[..|s|] == s;
    return -1;
  }

  // ----- the places stay apart -----

  /** A core that differs from c by one new job at the end of the queue. */
  lemma EnqueueFiled(c: Core, d: Core, id: Id, kind: Kind, req: Request)
    requires Table(c) && Apart(c) && id !in c.jobs
    requires d.queued == c.queued + [id] && d.running == c.running && d.finished == c.finished && d.samples == c.samples
    requires d.jobs.Keys == c.jobs.Keys + {id} && d.jobs[id] == NewJob(kind, req)
    requires forall x :: x in c.jobs ==> d.jobs[x] == c.jobs[x]
    ensures d == Enqueue(c, id, kind, req) && Table(d) && Apart(d) && id !in c.queued
  {
    EnqueueTable(c, id, kind, req);
    assert id !in c.queued && id !in c.finished && c.running != Some(id);
    NoDupConcat(c.queued, [id]);
    hide NoDup, Table;
    assert d.jobs == Enqueue(c, id, kind, req).jobs;
  }

  lemma RemoveApart(c: Core, d: Core, id: Id)
    requires Apart(c) && d.queued == RemoveFirst(c.queued, id) && d.finished == c.finished
    requires d.running == c.running || (c.running == None && d.running == Some(id) && id in c.queued)
    ensures Apart(d)
  {
    RemoveFirstMembers(c.queued, id);
    if id in c.queued {
      RemoveFirstAt(c.queued, id);
    } else {
      RemoveFirstAbsent(c.queued, id);
    }
  }

  /** A core that differs from c by the withdrawal of one waiting job. */
  lemma WithdrawFiled(c: Core, d: Core, id: Id)
    requires Table(c) && Apart(c) && id in c.queued
    requires d.queued == RemoveFirst(c.queued, id) &&
             d.running == c.running && d.finished == c.finished && d.samples == c.samples
    requires d.jobs.Keys == c.jobs.Keys - {id} && forall x :: x in d.jobs ==> d.jobs[x] == c.jobs[x]
    ensures d == Withdraw(c, id) && Table(d) && Apart(d)
    ensures forall x :: x in d.queued <==> x in c.queued && x != id
  {
    WithdrawTable(c, id);
    RemoveApart(c, d, id);
    RemoveFirstMembers(c.queued, id);
    hide NoDup, Table, Apart;
    assert d.jobs == Withdraw(c, id).jobs;
  }

  /** A core that differs from c by the start of one waiting job. */
  lemma BeginFiled(c: Core, d: Core, id: Id)
    requires Table(c) && Apart(c) && id in c.queued && c.running == None && id in c.jobs
    requires d.queued == RemoveFirst(c.queued, id) &&
             d.running == Some(id) && d.finished == c.finished && d.samples == c.samples
    requires d.jobs.Keys == c.jobs.Keys && d.jobs[id] == c.jobs[id].(state := JobState.Running)
    requires forall x :: x in c.jobs && x != id ==> d.jobs[x] == c.jobs[x]
    ensures d == Begin(c, id) && Table(d) && Apart(d)
    ensures forall x :: x in d.queued <==> x in c.queued && x != id
  {
    BeginTable(c, id);
    RemoveApart(c, d, id);
    RemoveFirstMembers(c.queued, id);
    hide NoDup, Table, Apart;
    assert d.jobs == Begin(c, id).jobs;
  }

  /** A core that differs from c by the end of the running job, before any eviction. */
  lemma SettleFiled(c: Core, d: Core, x: Id, outcome: Outcome<Result>, samples: seq<int>)
    requires Table(c) && Apart(c) && c.running == Some(x) && x in c.jobs
    requires d.queued == c.queued && d.running == None && d.finished == c.finished + [x] && d.samples == samples
    requires d.jobs.Keys == c.jobs.Keys && d.jobs[x] == Closed(c.jobs[x], outcome)
    requires forall y :: y in c.jobs && y != x ==> d.jobs[y] == c.jobs[y]
    ensures d == Settle(c, x, outcome, samples) && Table(d) && Apart(d)
  {
    SettleValid(c, x, outcome, samples);
    hide NoDup, Table, Apart, Closed;
    assert d.jobs == Settle(c, x, outcome, samples).jobs;
  }

  /** Closing the running job, before any eviction. */
  function Settle(c: Core, x: Id, outcome: Outcome<Result>, samples: seq<int>): Core
    requires x in c.jobs
  {
    c.(jobs := c.jobs[x := Closed(c.jobs[x], outcome)], samples := samples,
       running := None, finished := c.finished + [x])
  }

  lemma SettleValid(c: Core, x: Id, outcome: Outcome<Result>, samples: seq<int>)
    requires Table(c) && Apart(c) && c.running == Some(x) && x in c.jobs
    ensures Table(Settle(c, x, outcome, samples)) && Apart(Settle(c, x, outcome, samples))
  {
    var d := Settle(c, x, outcome, samples);
    NoDupConcat(c.finished, [x]);
    hide NoDup;
    CloseTable(c, d, x, outcome, {}, set y | y in d.finished);
  }

  lemma DropApart(c: Core)
    requires Apart(c) && c.finished != []
    ensures Apart(DropOldest(c)) && forall x :: x in c.finished <==> x == c.finished[0] || x in DropOldest(c).finished
    ensures c.finished[0] !in DropOldest(c).finished
  {
    var rest := c.finished[1..];
    assert c.finished == [c.finished[0]] + rest;
    NoDupConcat([c.finished[0]], rest);
    assert c.finished[0] in [c.finished[0]];
  }

  lemma DropTable(c: Core)
    requires Table(c) && Apart(c) && c.finished != []
    ensures Table(DropOldest(c))
  {
    DropApart(c);
    hide NoDup;
    var d := DropOldest(c);
    forall x | x in d.jobs ensures MatchesPlace(d, x) {
      assert MatchesPlace(c, x);
    }
  }

  /** A core that differs from c by the eviction of the oldest completion. */
  lemma DropFiled(c: Core, d: Core)
    requires Table(c) && Apart(c) && c.finished != []
    requires d.queued == c.queued && d.running == c.running && d.finished == c.finished[1..] && d.samples == c.samples
    requires d.jobs.Keys == c.jobs.Keys - {c.finished[0]} && forall x :: x in d.jobs ==> d.jobs[x] == c.jobs[x]
    ensures d == DropOldest(c) && Table(d) && Apart(d)
    ensures c.running != Some(c.finished[0])
  {
    DropTable(c);
    DropApart(c);
    assert c.finished[0] in c.finished;
    hide NoDup, Table;
    assert d.jobs == DropOldest(c).jobs;
  }

  /** The entries of d other than x's are entries of c, as they were. */
  ghost predicate OthersKept(c: Core, d: Core, x: Id) {
    forall id :: id in d.jobs && id != x ==> id in c.jobs && d.jobs[id] == c.jobs[id]
  }

  lemma BeginOthers(c: Core, x: Id)
    requires x in c.jobs
    ensures OthersKept(c, Begin(c, x), x)
  {
  }

  /** Whatever it reports, a started job leaves the other entries alone. */
  lemma ServedOthers(c: Core, d: Core, e: Core, x: Id, plan: seq<Step>, partial: Option<Result>)
    requires x in c.jobs && d == Report(Begin(c, x), x, plan, partial) && OthersKept(d, e, x)
    ensures OthersKept(c, e, x)
  {
  }

  lemma OthersKeptTwice(c: Core, d: Core, e: Core, x: Id)
    requires OthersKept(c, d, x) && OthersKept(d, e, x)
    ensures OthersKept(c, e, x)
  {
  }

  class Job {
    const id: Id
    const kind: Kind
    const req: Request
    var state: JobState
    var plan: seq<Step>
    var partial: Option<Result>
    var result: Option<Result>
    var err: string

    ghost function Info(): JobInfo
      reads this
    {
      JobInfo(kind, req, state, plan, partial, result, err)
    }

    /** The job holds what the runner returned: its value and no error, or its message and no result. */
    ghost predicate Holds(outcome: Outcome<Result>)
      reads this
    {
      match outcome
      case Ok(res) => state == JobState.Done && result == Some(res) && err == ""
      case Err(message) => state == JobState.Failed && result == None && err == message
    }

    constructor (id: Id, kind: Kind, req: Request)
      ensures this.id == id && this.kind == kind && this.req == req && Info() == NewJob(kind, req)
    {
      this.id, this.kind, this.req := id, kind, req;
      state, plan, partial, result, err := Queued, [], None, None, "";
    }
  }

  class Manager {
    const buffer: nat
    const retain: nat
    const eta: Eta.Tracker?
    var jobs: map<Id, Job>
    var queued: seq<Id>
    var running: Job?
    var finished: seq<Id>
    var ch: seq<Job>
    var notified: nat // onChange calls so far

    /** The guarded state as a value. */
    ghost function View(): Core
      reads `jobs, `queued, `running, `finished, eta, jobs.Values, running
    {
      Core(map id | id in jobs :: jobs[id].Info(), queued,
           if running == null then None else Some(running.id), finished, Samples())
    }

    ghost function Samples(): seq<int>
      reads eta
    {
      if eta == null then [] else eta.samples
    }

    /** Without a tracker nothing is sampled, as with a window of no samples. */
    ghost function Window(): nat {
      if eta == null then 0 else eta.window
    }

    /** Each job is filed under its own id, and the places agree with the states. */
    ghost predicate Valid()
      reads `jobs, `queued, `running, `finished, eta, jobs.Values, running
    {
      && buffer >= 1 && retain >= 1 && (eta != null ==> eta.Valid())
      && (forall id :: id in jobs ==> jobs[id].id == id)
      && (running != null ==> running.id in jobs && jobs[running.id] == running)
      && Table(View()) && Apart(View())
    }

    /** The channel's jobs are table entries that wait. */
    ghost predicate ChannelValid()
      reads `jobs, `queued, `ch
    {
      && |ch| <= buffer && NoDup(ch)
      && forall j :: j in ch ==> j.id in jobs && jobs[j.id] == j && j.id in queued
    }

    constructor (buffer: int, retain: int, eta: Eta.Tracker?)
      requires eta != null ==> eta.Valid() && eta.samples == []
      ensures Valid() && ChannelValid() && View() == EMPTY_CORE && ch == [] && notified == 0
      ensures this.buffer == (if buffer < 1 then 256 else buffer)
      ensures this.retain == (if retain < 1 then 200 else retain)
      ensures this.eta == eta
    {
      this.buffer := if buffer < 1 then 256 else buffer;
      this.retain := if retain < 1 then 200 else retain;
      this.eta := eta;
      jobs, queued, running, finished, ch, notified := map[], [], null, [], [], 0;
    }

    /** The channel stays valid when the only job that moves is not in it. */
    twostate lemma ChannelKept(x: Id)
      requires old(ChannelValid()) && ch == old(ch) && forall j :: j in ch ==> j.id != x
      requires forall id :: id in old(jobs) && id != x ==> id in jobs && jobs[id] == old(jobs[id])
      requires forall id :: id in old(queued) && id != x ==> id in queued
      ensures ChannelValid()
    {
    }

    /** What the callers of the critical sections need to know of a waiting job that is not in the channel. */
    lemma WaitingFiled(job: Job)
      requires Valid() && ChannelValid() && job.id in queued && job.id in jobs && jobs[job.id] == job && job !in ch
      ensures View().running != Some(job.id) && job.id in View().queued && job.id in View().jobs
      ensures forall j :: j in ch ==> j.id != job.id
    {
    }

    lemma ChannelFiled(id: Id)
      requires ChannelValid() && id !in jobs
      ensures forall j :: j in ch ==> j.id != id
    {
    }

    method File(job: Job)
      requires Valid() && job.id !in jobs && job.Info() == NewJob(job.kind, job.req)
      modifies this`jobs, this`queued
      ensures Valid() && View() == Enqueue(old(View()), job.id, job.kind, job.req)
      ensures job.id in jobs && jobs[job.id] == job &&
              forall x :: x in old(jobs) ==> x in jobs && jobs[x] == old(jobs[x])
      ensures job.id !in old(queued) && forall x :: x in queued <==> x in old(queued) || x == job.id
    {
      hide Table, Apart, NoDup, Enqueue, NewJob;
      ghost var c := View();
      jobs := jobs[job.id := job];
      queued := queued + [job.id];
      EnqueueFiled(c, View(), job.id, job.kind, job.req);
    }

    /** Submit's new job and first critical section. */
    method Register(id: Id, kind: Kind, req: Request) returns (job: Job)
      requires Valid() && ChannelValid() && id !in jobs
      modifies this`jobs, this`queued
      ensures Valid() && ChannelValid() && View() == Enqueue(old(View()), id, kind, req)
      ensures fresh(job) && job.id == id && job.kind == kind && job.req == req
      ensures id in jobs && jobs[id] == job && id in queued && job !in ch
      ensures id !in old(queued)
    {
      hide *;
      ChannelFiled(id);
      job := new Job(id, kind, req);
      File(job);
      ChannelKept(id);
    }

    method Unfile(id: Id)
      requires Valid() && id in queued && View().running != Some(id)
      modifies this`jobs, this`queued
      ensures Valid() && View() == Withdraw(old(View()), id)
      ensures jobs == old(jobs) - {id} && forall x :: x in queued <==> x in old(queued) && x != id
    {
      hide Table, Apart, NoDup, Withdraw, RemoveFirst;
      ghost var c := View();
      jobs := jobs - {id};
      queued := RemoveId(queued, id);
      WithdrawFiled(c, View(), id);
    }

    /** Submit's roll-back. */
    method Unregister(job: Job)
      requires Valid() && ChannelValid()
      requires job.id in queued && job.id in jobs && jobs[job.id] == job && job !in ch
      modifies this`jobs, this`queued
      ensures Valid() && ChannelValid() && View() == Withdraw(old(View()), job.id)
    {
      hide *;
      WaitingFiled(job);
      Unfile(job.id);
      ChannelKept(job.id);
    }

    /**
     * The rest of Submit, whatever the others did since its first section: room in the channel and an
     * announcement, or the silent roll-back.
     */
    method SendOrRollBack(job: Job) returns (ok: bool)
      requires Valid() && ChannelValid()
      requires job.id in queued && job.id in jobs && jobs[job.id] == job && job !in ch
      modifies this`jobs, this`queued, this`ch, this`notified
      ensures Valid() && ChannelValid() && ok == (|old(ch)| < buffer)
      ensures notified == old(notified) + if ok then 1 else 0
      ensures ch == if ok then old(ch) + [job] else old(ch)
      ensures View() == if ok then old(View()) else Withdraw(old(View()), job.id)
    {
      hide Table, Apart;
      ok := |ch| < buffer;
      if ok {
        NoDupConcat(ch, [job]);
        ch := ch + [job];
        notified := notified + 1;
      } else {
        Unregister(job);
      }
    }

    /**
     * Submit run without interference: accepted exactly when the channel has room, and then announced;
     * otherwise the guarded state is as it was and nobody is told.
     */
    method Submit(id: Id, kind: Kind, req: Request) returns (job: Job?)
      requires Valid() && ChannelValid() && id !in jobs
      modifies this
      ensures Valid() && ChannelValid()
      ensures job != null <==> |old(ch)| < buffer
      ensures ch == if job != null then old(ch) + [job] else old(ch)
      ensures View() == if job != null then Enqueue(old(View()), id, kind, req) else old(View())
      ensures notified == old(notified) + if job != null then 1 else 0
    {
      ghost var c := View();
      assert id !in c.jobs;
      hide *;
      var j := Register(id, kind, req);
      var ok := SendOrRollBack(j);
      job := if ok then j else null;
      WithdrawUndoesEnqueue(c, id, kind, req);
    }

    /** The worker's receive. */
    method Receive() returns (job: Job)
      requires Valid() && ChannelValid() && ch != []
      modifies this`ch
      ensures Valid() && ChannelValid() && View() == old(View())
      ensures job == old(ch)[0] && ch == old(ch)[1..]
      ensures job.id in queued && job.id in jobs && jobs[job.id] == job && job !in ch
    {
      job := ch[0];
      assert ch == [job] + ch[1..];
      NoDupConcat([job], ch[1..]);
      ch := ch[1..];
    }

    method Launch(job: Job)
      requires Valid() && running == null && job.id in queued && job.id in jobs && jobs[job.id] == job
      modifies this`queued, this`running, job`state
      ensures Valid() && running == job && View() == Begin(old(View()), job.id)
      ensures forall x :: x in queued <==> x in old(queued) && x != job.id
    {
      hide Table, Apart, NoDup, Begin, RemoveFirst;
      ghost var c := View();
      job.state := JobState.Running;
      queued := RemoveId(queued, job.id);
      running := job;
      BeginFiled(c, View(), job.id);
    }

    /** runOne's first critical section. */
    method StartJob(job: Job)
      requires Valid() && ChannelValid() && running == null
      requires job.id in queued && job.id in jobs && jobs[job.id] == job && job !in ch
      modifies this`queued, this`running, this`notified, job`state
      ensures Valid() && ChannelValid() && running == job && notified == old(notified) + 1
      ensures View() == Begin(old(View()), job.id)
    {
      hide *;
      WaitingFiled(job);
      Launch(job);
      ChannelKept(job.id);
      notified := notified + 1;
    }

    /** The oldest completion is neither waiting nor running, so it can be forgotten. */
    lemma Oldest()
      requires Valid() && ChannelValid() && finished != []
      ensures finished[0] !in queued && forall j :: j in ch ==> j.id != finished[0]
    {
      assert finished[0] in View().finished;
      hide Table, NoDup;
    }

    method DropFirst()
      requires Valid() && finished != []
      modifies this`jobs, this`finished
      ensures Valid() && View() == DropOldest(old(View()))
      ensures finished == old(finished)[1..] && jobs == old(jobs) - {old(finished)[0]}
    {
      hide Table, Apart, NoDup, DropOldest;
      ghost var c := View();
      var oldest := finished[0];
      finished := finished[1..];
      jobs := jobs - {oldest};
      DropFiled(c, View());
    }

    method ForgetOldest()
      requires Valid() && ChannelValid() && finished != []
      modifies this`jobs, this`finished
      ensures Valid() && ChannelValid() && View() == DropOldest(old(View())) && |finished| == |old(finished)| - 1
      ensures forall id :: id in jobs ==> id in old(jobs) && jobs[id] == old(jobs)[id]
    {
      hide *;
      Oldest();
      ghost var oldest := finished[0];
      DropFirst();
      ChannelKept(oldest);
    }

    /** evictLocked. */
    method EvictLocked()
      requires Valid() && ChannelValid()
      modifies this`jobs, this`finished
      ensures Valid() && ChannelValid() && View() == Evict(old(View()), retain)
      ensures forall id :: id in jobs ==> id in old(jobs) && jobs[id] == old(jobs)[id]
    {
      while |finished| > retain
        invariant Valid() && ChannelValid()
        invariant forall id :: id in jobs ==> id in old(jobs) && jobs[id] == old(jobs)[id]
        invariant Evict(View(), retain) == Evict(old(View()), retain)
        decreases |finished|
      {
        ghost var c := View();
        ForgetOldest();
        EvictOne(c, View(), retain);
      }
    }

    static lemma EvictOne(c: Core, d: Core, retain: nat)
      requires |c.finished| > retain && d == DropOldest(c)
      ensures Evict(c, retain) == Evict(d, retain)
    {
    }

    method RecordOutcome(job: Job, outcome: Outcome<Result>, dur: int)
      requires eta != null ==> eta.Valid()
      modifies job`state, job`result, job`err, eta
      ensures job.Info() == Closed(old(job.Info()), outcome) && (eta != null ==> eta.Valid())
      ensures old(job.result) == None && old(job.err) == "" ==> job.Holds(outcome)
      ensures Samples() == if outcome.Ok? then Eta.Recorded(old(Samples()), Window(), dur) else old(Samples())
    {
      match outcome {
        case Ok(res) =>
          job.state := JobState.Done;
          job.result := Some(res);
          if eta != null {
            eta.Record(dur);
          }
        case Err(message) =>
          job.state := JobState.Failed;
          job.err := message;
      }
    }

    method CloseJob(job: Job, outcome: Outcome<Result>, dur: int)
      requires Valid() && ChannelValid() && running == job && job.result == None && job.err == ""
      modifies this`finished, this`running, job`state, job`result, job`err, eta
      ensures Valid() && ChannelValid() && running == null && job.Holds(outcome)
      ensures var c := old(View());
              View() == Settle(c, job.id, outcome,
                               if outcome.Ok? then Eta.Recorded(c.samples, Window(), dur) else c.samples)
    {
      hide Table, Apart, NoDup, Closed, Eta.Recorded;
      ghost var c := View();
      RecordOutcome(job, outcome, dur);
      running := null;
      finished := finished + [job.id];
      SettleFiled(c, View(), job.id, outcome, Samples());
    }

    /** The running job has neither a result nor an error yet. */
    lemma RunningBlank(job: Job)
      requires Valid() && running == job
      ensures job.id in View().jobs && View().running == Some(job.id) && Apart(View()) && retain >= 1
      ensures jobs[job.id] == job && job.result == None && job.err == ""
    {
      assert MatchesPlace(View(), job.id);
    }

    lemma Shown(job: Job)
      requires job.id in View().jobs && (job.id in jobs ==> jobs[job.id] == job)
      ensures View().jobs[job.id] == job.Info()
    {
    }

    /** What End leaves of the table. */
    static lemma EndEntries(c: Core, x: Id, outcome: Outcome<Result>, dur: int, window: nat, retain: nat)
      requires x in c.jobs && Apart(c) && c.running == Some(x) && retain >= 1
      ensures var d := End(c, x, outcome, dur, window, retain);
              && x in d.jobs && OthersKept(c, d, x)
              && d == Evict(Settle(c, x, outcome,
                                   if outcome.Ok? then Eta.Recorded(c.samples, window, dur) else c.samples), retain)
    {
      EndFields(c, x, outcome, dur, window, retain);
      NoDupConcat(c.finished, [x]);
      hide Evict, Eta.Recorded, NoDup;
    }

    method Conclude(job: Job, outcome: Outcome<Result>, dur: int)
      requires Valid() && ChannelValid() && running == job
      modifies this`jobs, this`finished, this`running, job`state, job`result, job`err, eta
      ensures Valid() && ChannelValid() && running == null && job.Holds(outcome)
      ensures View() == End(old(View()), job.id, outcome, dur, Window(), retain)
      ensures job.id in jobs ==> jobs[job.id] == job
    {
      hide *;
      RunningBlank(job);
      EndEntries(View(), job.id, outcome, dur, Window(), retain);
      CloseJob(job, outcome, dur);
      EvictLocked();
    }

    /**
     * runOne's last critical section. The job is in the table and holds exactly what the runner returned; its
     * plan, its partial result and the other entries that are kept stay as they were.
     */
    method EndJob(job: Job, outcome: Outcome<Result>, dur: int)
      requires Valid() && ChannelValid() && running == job
      modifies this`jobs, this`finished, this`running, this`notified, job`state, job`result, job`err, eta
      ensures Valid() && ChannelValid() && running == null && ch == old(ch) && notified == old(notified) + 1
      ensures View() == End(old(View()), job.id, outcome, dur, Window(), retain)
      ensures job.Holds(outcome) && job.id in View().jobs && View().jobs[job.id] == job.Info()
      ensures OthersKept(old(View()), View(), job.id)
    {
      hide *;
      RunningBlank(job);
      EndEntries(View(), job.id, outcome, dur, Window(), retain);
      Conclude(job, outcome, dur);
      Shown(job);
      notified := notified + 1;
    }

    /** runOne without interference, the runner's verdict and running time given. */
    method RunOne(job: Job, outcome: Outcome<Result>, dur: int)
      requires Valid() && ChannelValid() && running == null
      requires job.id in queued && job.id in jobs && jobs[job.id] == job && job !in ch
      modifies this`jobs, this`queued, this`finished, this`running, this`notified, eta
      modifies job`state, job`result, job`err
      ensures Valid() && ChannelValid() && running == null && ch == old(ch) && notified == old(notified) + 2
      ensures View() == End(Begin(old(View()), job.id), job.id, outcome, dur, Window(), retain)
      ensures job.Holds(outcome) && job.id in View().jobs && View().jobs[job.id] == job.Info()
      ensures OthersKept(old(View()), View(), job.id)
    {
      hide *;
      ghost var c := View();
      WaitingFiled(job);
      BeginOthers(c, job.id);
      StartJob(job);
      EndJob(job, outcome, dur);
      OthersKeptTwice(c, Begin(c, job.id), View(), job.id);
    }

    /** Get. */
    method Get(id: Id) returns (job: Job?)
      requires Valid()
      ensures job != null <==> id in View().jobs
      ensures job != null ==> job.id == id && job.Info() == View().jobs[id]
    {
      if id in jobs {
        return jobs[id];
      }
      return null;
    }

    /** etaAvg. */
    method EtaAvg() returns (avg: int, ok: bool)
      requires eta != null ==> eta.Valid()
      ensures ok <==> Samples() != []
      ensures if ok then Eta.Mean(Samples()) == Some(avg) else avg == 0
    {
      if eta == null {
        return 0, false;
      }
      avg, ok := eta.Average();
    }

    /** Snapshot. */
    method ReadSnapshot() returns (s: Snapshot)
      requires Valid()
      ensures s == TakeSnapshot(View())
    {
      var avg, ok := EtaAvg();
      s := Snapshot(running != null, None, |queued|, avg, ok);
      if running != null {
        s := s.(runningId := Some(running.id));
      }
    }

    /** JobView. */
    method ReadJobView(id: Id) returns (v: Option<JobView>)
      requires Valid()
      ensures v == ViewJob(View(), id)
    {
      hide Table, Apart, NoDup;
      if id !in jobs {
        return None;
      }
      var job := jobs[id];
      var view := JobView(id, job.state, 0, 0, false, job.err, job.plan);
      if job.state == Queued {
        var i := FindId(queued, id);
        view := view.(position := i + 1);
        var avg, known := EtaAvg();
        if known {
          var ahead := view.position;
          if running != null {
            ahead := ahead + 1;
          }
          view := view.(eta := avg * ahead, etaKnown := true);
        }
      }
      return Some(view);
    }
  }
}
