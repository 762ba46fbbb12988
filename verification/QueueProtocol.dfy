/**
 * The single-worker queue as a transition system. A Submit is three separate steps (append under the
 * lock; then a non-blocking send, or a second critical section that rolls the append back), and the
 * worker's receive, start and finish are separate steps too, so every interleaving is a run.
 */
module QueueProtocol {
  import opened Wrappers
  import opened Seqs
  import opened Contract
  import opened QueueCore

  /** A manager without an ETA tracker keeps no samples: its window is 0. */
  datatype Config = Config(buffer: nat, retain: nat, window: nat)

  ghost predicate ValidConfig(cfg: Config) {
    cfg.buffer >= 1 && cfg.retain >= 1
  }

  /** Where a Submit call stands: it owes the onChange between Sent and Returned. */
  datatype SubmitPc = Appended | SawFull | Sent | Returned | Rejected

  datatype WorkerPc = Idle | Received(id: Id) | Busy(id: Id) | Stopped

  /**
   * core and ch are the manager's own state; pcs and worker are the program counters. The rest is
   * history: stamp numbers the submissions in append order, sent, started and completed list the
   * channel sends, the starts and the completions.
   */
  datatype Sys = Sys(
    core: Core, ch: seq<Id>,
    pcs: map<Id, SubmitPc>, worker: WorkerPc,
    stamp: map<Id, nat>, sent: seq<Id>, started: seq<Id>, completed: seq<Id>)

  const INIT := Sys(EMPTY_CORE, [], map[], Idle, map[], [], [], [])

  datatype Act =
    | Append(id: Id, kind: Kind, req: Request)
    | Send(id: Id)
    | SeeFull(id: Id)
    | RollBack(id: Id)
    | Return(id: Id)
    | Receive
    | Start
    | Progress(plan: seq<Step>, partial: Option<Result>)
    | Finish(outcome: Outcome<Result>, dur: int)
    | Stop

  predicate At(s: Sys, id: Id, pc: SubmitPc) {
    id in s.pcs && s.pcs[id] == pc
  }

  predicate Enabled(cfg: Config, s: Sys, a: Act) {
    match a
    case Append(id, _, _) => id !in s.pcs // newID returns a fresh ID
    case Send(id) => At(s, id, Appended) && |s.ch| < cfg.buffer
    case SeeFull(id) => At(s, id, Appended) && |s.ch| >= cfg.buffer
    case RollBack(id) => At(s, id, SawFull)
    case Return(id) => At(s, id, Sent)
    case Receive => s.worker.Idle? && s.ch != []
    case Start => s.worker.Received? && s.worker.id in s.core.jobs
    case Progress(_, _) => s.worker.Busy? && s.worker.id in s.core.jobs
    case Finish(_, _) => s.worker.Busy? && s.worker.id in s.core.jobs
    case Stop => s.worker.Idle?
  }

  function Apply(cfg: Config, s: Sys, a: Act): Sys
    requires Enabled(cfg, s, a)
  {
    match a
    case Append(id, kind, req) =>
      s.(core := Enqueue(s.core, id, kind, req), pcs := s.pcs[id := Appended],
         stamp := s.stamp[id := |s.stamp|])
    case Send(id) => s.(ch := s.ch + [id], pcs := s.pcs[id := Sent], sent := s.sent + [id])
    case SeeFull(id) => s.(pcs := s.pcs[id := SawFull])
    case RollBack(id) => s.(core := Withdraw(s.core, id), pcs := s.pcs[id := Rejected])
    case Return(id) => s.(pcs := s.pcs[id := Returned])
    case Receive => s.(ch := s.ch[1..], worker := Received(s.ch[0]))
    case Start =>
      s.(core := Begin(s.core, s.worker.id), worker := Busy(s.worker.id), started := s.started + [s.worker.id])
    case Progress(plan, partial) => s.(core := Report(s.core, s.worker.id, plan, partial))
    case Finish(outcome, dur) =>
      s.(core := End(s.core, s.worker.id, outcome, dur, cfg.window, cfg.retain),
         worker := Idle, completed := s.completed + [s.worker.id])
    case Stop => s.(worker := Stopped)
  }

  // ----- runs -----

  ghost predicate Legal(cfg: Config, s: Sys, acts: seq<Act>)
    decreases |acts|
  {
    acts == [] || (Enabled(cfg, s, acts[0]) && Legal(cfg, Apply(cfg, s, acts[0]), acts[1..]))
  }

  ghost function After(cfg: Config, s: Sys, acts: seq<Act>): Sys
    requires Legal(cfg, s, acts)
    decreases |acts|
  {
    if acts == [] then s else After(cfg, Apply(cfg, s, acts[0]), acts[1..])
  }

  // ----- the invariant -----

  /** The job the worker has taken off the channel but not started, as a sequence. */
  function Held(w: WorkerPc): seq<Id> {
    if w.Received? then [w.id] else []
  }

  function Active(w: WorkerPc): seq<Id> {
    if w.Busy? then [w.id] else []
  }

  /** The sent jobs that have not started, in the order in which they will. */
  function Line(s: Sys): seq<Id> {
    Held(s.worker) + s.ch
  }

  predicate InFlight(s: Sys, id: Id) {
    At(s, id, Appended) || At(s, id, SawFull)
  }

  predicate WasSent(s: Sys, id: Id) {
    At(s, id, Sent) || At(s, id, Returned)
  }

  /** Jobs flow through the channel first in, first out, and are served one at a time. */
  ghost predicate Flow(s: Sys) {
    && s.sent == s.started + Line(s)
    && s.started == s.completed + Active(s.worker)
    && NoDup(s.sent)
  }

  /** The manager's own record of the running job and of the retained completions. */
  ghost predicate Service(cfg: Config, s: Sys) {
    && s.core.running == (if s.worker.Busy? then Some(s.worker.id) else None)
    && s.core.finished == Last(s.completed, cfg.retain)
    && |s.ch| <= cfg.buffer
  }

  ghost predicate Tickets(s: Sys) {
    && s.pcs.Keys == s.stamp.Keys
    && (forall id :: id in s.stamp ==> s.stamp[id] < |s.stamp|)
    && (forall id :: id in s.sent <==> WasSent(s, id))
  }

  /** queued holds the in-flight submissions and the line, in append order. */
  ghost predicate Waiting(s: Sys) {
    && (forall id :: id in s.core.queued <==> InFlight(s, id) || id in Line(s))
    && Ordered(s.stamp, s.core.queued)
  }

  ghost predicate Ordered(stamp: map<Id, nat>, q: seq<Id>) {
    && (forall i :: 0 <= i < |q| ==> q[i] in stamp)
    && (forall i, j :: 0 <= i < j < |q| ==> stamp[q[i]] < stamp[q[j]])
  }

  ghost predicate MatchesPlace(c: Core, id: Id)
    requires id in c.jobs
  {
    var job := c.jobs[id];
    && (job.state == Queued <==> id in c.queued)
    && (job.state == JobState.Running <==> c.running == Some(id))
    && (job.state == JobState.Done || job.state == JobState.Failed <==> id in c.finished)
    && (job.result.Some? <==> job.state == JobState.Done)
    && (job.err != "" ==> job.state == JobState.Failed)
  }

  /** The job table holds the waiting, running and retained jobs, each in the matching state. */
  ghost predicate Table(c: Core) {
    && (forall id :: id in c.jobs <==> id in c.queued || c.running == Some(id) || id in c.finished)
    && (forall id :: id in c.jobs ==> MatchesPlace(c, id))
  }

  ghost predicate Inv(cfg: Config, s: Sys) {
    ValidConfig(cfg) && Flow(s) && Service(cfg, s) && Tickets(s) && Waiting(s) && Table(s.core)
  }

  /** The three places a job can be in never overlap. */
  ghost predicate Apart(c: Core) {
    && (forall id :: id in c.queued ==> c.running != Some(id) && id !in c.finished)
    && (c.running.Some? ==> c.running.value !in c.finished)
    && NoDup(c.queued) && NoDup(c.finished)
  }

  lemma FlowApart(s: Sys)
    requires Flow(s)
    ensures NoDup(Line(s)) && NoDup(s.started) && NoDup(s.completed)
    ensures forall id :: id in s.sent <==> id in s.started || id in Line(s)
    ensures forall id :: id in s.started ==> id !in Line(s)
    ensures forall id :: id in s.started <==> id in s.completed || (s.worker.Busy? && id == s.worker.id)
    ensures forall id :: id in s.completed ==> !(s.worker.Busy? && id == s.worker.id)
  {
    NoDupConcat(s.started, Line(s));
    NoDupConcat(s.completed, Active(s.worker));
  }

  lemma LastMembers(s: seq<Id>, n: nat)
    ensures forall x :: x in Last(s, n) ==> x in s
    ensures NoDup(s) ==> NoDup(Last(s, n))
  {
    var l := Last(s, n);
    LastIsSuffix(s, n);
    NoDupConcat(s[..|s| - |l|], l);
  }

  lemma WaitingNotStarted(s: Sys)
    requires Flow(s) && Tickets(s) && Waiting(s)
    ensures forall id :: id in s.core.queued ==> id !in s.started
  {
    FlowApart(s);
    forall id | id in s.core.queued ensures id !in s.started {
      if InFlight(s, id) {
        assert !WasSent(s, id);
      }
    }
  }

  lemma OrderedNoDup(stamp: map<Id, nat>, q: seq<Id>)
    requires Ordered(stamp, q)
    ensures NoDup(q)
  {
  }

  lemma PlacesApart(cfg: Config, s: Sys)
    requires Flow(s) && Service(cfg, s) && Tickets(s) && Waiting(s)
    ensures Apart(s.core)
  {
    WaitingNotStarted(s);
    FlowApart(s);
    LastMembers(s.completed, cfg.retain);
    OrderedNoDup(s.stamp, s.core.queued);
    hide Flow, Tickets, Waiting, NoDup, Ordered, Line;
  }

  // ----- every step keeps the invariant, one step and one group of clauses at a time -----

  lemma OrderedAppend(stamp: map<Id, nat>, q: seq<Id>, x: Id, n: nat)
    requires Ordered(stamp, q) && x !in stamp && forall id :: id in stamp ==> stamp[id] < n
    ensures Ordered(stamp[x := n], q + [x])
  {
  }

  lemma RemoveOrdered(stamp: map<Id, nat>, q: seq<Id>, x: Id)
    requires Ordered(stamp, q) && x in q
    ensures Ordered(stamp, RemoveFirst(q, x))
  {
    RemoveFirstAt(q, x);
  }

  lemma AppendTickets(cfg: Config, s: Sys, id: Id, kind: Kind, req: Request)
    requires Tickets(s) && Enabled(cfg, s, Append(id, kind, req))
    ensures Tickets(Apply(cfg, s, Append(id, kind, req)))
  {
    var t := Apply(cfg, s, Append(id, kind, req));
    assert t.stamp.Keys == s.stamp.Keys + {id};
    assert |t.stamp| == |s.stamp| + 1;
  }

  lemma AppendWaiting(cfg: Config, s: Sys, id: Id, kind: Kind, req: Request)
    requires Tickets(s) && Waiting(s) && Enabled(cfg, s, Append(id, kind, req))
    ensures Waiting(Apply(cfg, s, Append(id, kind, req)))
  {
    OrderedAppend(s.stamp, s.core.queued, id, |s.stamp|);
  }

  lemma EnqueueTable(c: Core, id: Id, kind: Kind, req: Request)
    requires Table(c) && id !in c.jobs
    ensures Table(Enqueue(c, id, kind, req))
  {
    var d := Enqueue(c, id, kind, req);
    assert forall x :: x in c.jobs ==> MatchesPlace(c, x) && MatchesPlace(d, x);
  }

  /** The table's jobs have all been submitted and not rejected. */
  lemma PlacesKnown(cfg: Config, s: Sys, id: Id)
    requires Flow(s) && Service(cfg, s) && Tickets(s) && Waiting(s) && Table(s.core)
    requires id in s.core.jobs || id in s.core.queued || id in s.sent
    ensures InFlight(s, id) || WasSent(s, id)
  {
    FlowApart(s);
    LastMembers(s.completed, cfg.retain);
  }

  lemma AppendKeeps(cfg: Config, s: Sys, id: Id, kind: Kind, req: Request)
    requires Inv(cfg, s) && Enabled(cfg, s, Append(id, kind, req))
    ensures Inv(cfg, Apply(cfg, s, Append(id, kind, req)))
  {
    var t := Apply(cfg, s, Append(id, kind, req));
    if id in s.core.jobs {
      PlacesKnown(cfg, s, id);
    }
    AppendTickets(cfg, s, id, kind, req);
    AppendWaiting(cfg, s, id, kind, req);
    EnqueueTable(s.core, id, kind, req);
    hide Tickets, Waiting, Table, NoDup, Last;
    assert Flow(t) && Service(cfg, t);
  }

  lemma SendFlow(cfg: Config, s: Sys, id: Id)
    requires Flow(s) && Tickets(s) && Enabled(cfg, s, Send(id))
    ensures Flow(Apply(cfg, s, Send(id)))
  {
    assert Line(Apply(cfg, s, Send(id))) == Line(s) + [id];
    assert !WasSent(s, id);
    NoDupConcat(s.sent, [id]);
    hide NoDup;
  }

  lemma SendWaiting(cfg: Config, s: Sys, id: Id)
    requires Waiting(s) && Enabled(cfg, s, Send(id))
    ensures Waiting(Apply(cfg, s, Send(id)))
  {
    assert Line(Apply(cfg, s, Send(id))) == Line(s) + [id];
  }

  lemma SendTickets(cfg: Config, s: Sys, id: Id)
    requires Tickets(s) && Enabled(cfg, s, Send(id))
    ensures Tickets(Apply(cfg, s, Send(id)))
  {
  }

  lemma SendKeeps(cfg: Config, s: Sys, id: Id)
    requires Inv(cfg, s) && Enabled(cfg, s, Send(id))
    ensures Inv(cfg, Apply(cfg, s, Send(id)))
  {
    hide Flow, Tickets, Waiting, Table;
    SendFlow(cfg, s, id);
    SendTickets(cfg, s, id);
    SendWaiting(cfg, s, id);
  }

  /** A program counter that moves without changing whether the job is sent or in flight. */
  lemma PcKeeps(cfg: Config, s: Sys, id: Id, pc: SubmitPc)
    requires Inv(cfg, s) && id in s.pcs
    requires (s.pcs[id] == Appended && pc == SawFull) || (s.pcs[id] == Sent && pc == Returned)
    ensures Inv(cfg, s.(pcs := s.pcs[id := pc]))
  {
    hide Tickets, Waiting, Table, NoDup, Last;
    PcTickets(s, id, pc);
    PcWaiting(s, id, pc);
  }

  lemma PcTickets(s: Sys, id: Id, pc: SubmitPc)
    requires Tickets(s) && id in s.pcs
    requires (s.pcs[id] == Appended && pc == SawFull) || (s.pcs[id] == Sent && pc == Returned)
    ensures Tickets(s.(pcs := s.pcs[id := pc]))
  {
  }

  lemma PcWaiting(s: Sys, id: Id, pc: SubmitPc)
    requires Waiting(s) && id in s.pcs
    requires (s.pcs[id] == Appended && pc == SawFull) || (s.pcs[id] == Sent && pc == Returned)
    ensures Waiting(s.(pcs := s.pcs[id := pc]))
  {
  }

  lemma WithdrawTable(c: Core, id: Id)
    requires Table(c) && Apart(c) && id in c.queued
    ensures Table(Withdraw(c, id))
  {
    var d := Withdraw(c, id);
    RemoveFirstMembers(c.queued, id);
    assert forall x :: x in d.jobs ==> MatchesPlace(c, x) && MatchesPlace(d, x);
  }

  lemma RollBackTickets(cfg: Config, s: Sys, id: Id)
    requires Tickets(s) && Enabled(cfg, s, RollBack(id))
    ensures Tickets(Apply(cfg, s, RollBack(id)))
  {
  }

  lemma RollBackWaiting(cfg: Config, s: Sys, id: Id)
    requires Waiting(s) && NoDup(s.core.queued) && id !in Line(s) && Enabled(cfg, s, RollBack(id))
    ensures Waiting(Apply(cfg, s, RollBack(id)))
  {
    assert InFlight(s, id);
    RemoveFirstMembers(s.core.queued, id);
    RemoveOrdered(s.stamp, s.core.queued, id);
    hide NoDup, Ordered;
  }

  lemma InFlightNotInLine(s: Sys, id: Id)
    requires Flow(s) && Tickets(s) && Waiting(s) && InFlight(s, id)
    ensures id !in s.sent && id !in Line(s) && id in s.core.queued
  {
    FlowApart(s);
    assert !WasSent(s, id);
  }

  lemma RollBackKeeps(cfg: Config, s: Sys, id: Id)
    requires Inv(cfg, s) && Enabled(cfg, s, RollBack(id))
    ensures Inv(cfg, Apply(cfg, s, RollBack(id)))
  {
    hide Tickets, Waiting, Table, NoDup, Last;
    assert Flow(Apply(cfg, s, RollBack(id)));
    assert InFlight(s, id);
    PlacesApart(cfg, s);
    InFlightNotInLine(s, id);
    RollBackTickets(cfg, s, id);
    RollBackWaiting(cfg, s, id);
    WithdrawTable(s.core, id);
  }

  /** Waiting and Tickets look at the queue, the line and the program counters only. */
  lemma WaitingCongruence(s: Sys, t: Sys)
    requires Waiting(s) && Tickets(s) && t.core.queued == s.core.queued && Line(t) == Line(s)
    requires t.pcs == s.pcs && t.stamp == s.stamp && t.sent == s.sent
    ensures Waiting(t) && Tickets(t)
  {
  }

  lemma ReceiveKeeps(cfg: Config, s: Sys)
    requires Inv(cfg, s) && Enabled(cfg, s, Receive)
    ensures Inv(cfg, Apply(cfg, s, Receive))
  {
    hide Tickets, Waiting, Table, NoDup, Last;
    var t := Apply(cfg, s, Receive);
    assert Line(t) == Line(s);
    WaitingCongruence(s, t);
  }

  lemma BeginTable(c: Core, id: Id)
    requires Table(c) && Apart(c) && id in c.queued && c.running == None
    ensures Table(Begin(c, id))
  {
    var d := Begin(c, id);
    RemoveFirstMembers(c.queued, id);
    assert forall x :: x in d.jobs ==> MatchesPlace(c, x) && MatchesPlace(d, x);
  }

  lemma StartFlow(cfg: Config, s: Sys)
    requires Flow(s) && Enabled(cfg, s, Start)
    ensures Flow(Apply(cfg, s, Start))
  {
    hide NoDup;
    var t := Apply(cfg, s, Start);
    assert Line(s) == [s.worker.id] + Line(t);
    assert s.started + Line(s) == t.started + Line(t);
    assert s.started == s.completed;
  }

  lemma StartWaiting(cfg: Config, s: Sys)
    requires Waiting(s) && NoDup(s.core.queued) && NoDup(Line(s)) && Enabled(cfg, s, Start)
    requires !InFlight(s, s.worker.id) && s.worker.id in s.core.queued
    ensures Waiting(Apply(cfg, s, Start))
  {
    var t := Apply(cfg, s, Start);
    RemoveFirstMembers(s.core.queued, s.worker.id);
    RemoveOrdered(s.stamp, s.core.queued, s.worker.id);
    assert Line(s) == [s.worker.id] + Line(t);
    NoDupConcat([s.worker.id], Line(t));
    hide NoDup, Ordered;
  }

  lemma HeldIsWaiting(s: Sys)
    requires Flow(s) && Tickets(s) && Waiting(s) && s.worker.Received?
    ensures !InFlight(s, s.worker.id) && s.worker.id in s.core.queued && s.worker.id in Line(s)
  {
    FlowApart(s);
    assert s.worker.id in Line(s);
    assert WasSent(s, s.worker.id);
  }

  lemma StartKeeps(cfg: Config, s: Sys)
    requires Inv(cfg, s) && Enabled(cfg, s, Start)
    ensures Inv(cfg, Apply(cfg, s, Start))
  {
    hide Flow, Tickets, Waiting, Table, NoDup, Last;
    PlacesApart(cfg, s);
    FlowApart(s);
    HeldIsWaiting(s);
    StartFlow(cfg, s);
    StartWaiting(cfg, s);
    BeginTable(s.core, s.worker.id);
    PcFrame(s, Apply(cfg, s, Start));
  }

  lemma PcFrame(s: Sys, t: Sys)
    requires Tickets(s) && t.pcs == s.pcs && t.stamp == s.stamp && t.sent == s.sent
    ensures Tickets(t)
  {
  }

  lemma ReportTable(c: Core, id: Id, plan: seq<Step>, partial: Option<Result>)
    requires Table(c) && id in c.jobs
    ensures Table(Report(c, id, plan, partial))
  {
    var d := Report(c, id, plan, partial);
    assert forall x :: x in d.jobs ==> MatchesPlace(c, x) && MatchesPlace(d, x);
  }

  lemma ProgressKeeps(cfg: Config, s: Sys, plan: seq<Step>, partial: Option<Result>)
    requires Inv(cfg, s) && Enabled(cfg, s, Progress(plan, partial))
    ensures Inv(cfg, Apply(cfg, s, Progress(plan, partial)))
  {
    hide Tickets, Waiting, Table, NoDup, Last;
    WaitingCongruence(s, Apply(cfg, s, Progress(plan, partial)));
    ReportTable(s.core, s.worker.id, plan, partial);
  }

  /** End in terms of the fields: eviction touches the job table and the finished list only. */
  lemma EndFields(c: Core, x: Id, outcome: Outcome<Result>, dur: int, window: nat, retain: nat)
    requires x in c.jobs
    ensures var d := End(c, x, outcome, dur, window, retain);
            var f := c.finished + [x];
            && d.finished == Last(f, retain)
            && d.queued == c.queued && d.running == None
            && (forall id :: id in d.jobs <==> id in c.jobs && id !in f[..|f| - |d.finished|])
            && (forall id :: id in d.jobs ==>
                  d.jobs[id] == if id == x then Closed(c.jobs[x], outcome) else c.jobs[id])
  {
    var d := c.(jobs := c.jobs[x := Closed(c.jobs[x], outcome)],
                samples := if outcome.Ok? then Eta.Recorded(c.samples, window, dur) else c.samples,
                running := None, finished := c.finished + [x]);
    EvictKeepsNewest(d, retain);
  }

  /** What eviction drops from a duplicate-free finished list is apart from what it keeps. */
  lemma {:induction false} DroppedGone(f: seq<Id>, retain: nat)
    requires NoDup(f) && retain >= 1
    ensures var kept := Last(f, retain);
            var dropped := f[..|f| - |kept|];
            && (forall y :: y in f <==> y in dropped || y in kept)
            && (forall y :: y in dropped ==> y !in kept)
            && (f != [] ==> f[|f| - 1] in kept)
  {
    var kept := Last(f, retain);
    var dropped := f[..|f| - |kept|];
    LastIsSuffix(f, retain);
    LastKeepsLast(f, retain);
    hide Last, NoDup;
    NoDupConcat(dropped, kept);
  }

  lemma LastKeepsLast(f: seq<Id>, retain: nat)
    requires f != [] ==> retain >= 1
    ensures f != [] ==> f[|f| - 1] in Last(f, retain)
  {
    var kept := Last(f, retain);
    if f != [] {
      assert kept[|kept| - 1] == f[|f| - 1];
    }
  }

  /** Closing x and forgetting the dropped jobs keeps the table in step with the lists. */
  lemma CloseTable(c: Core, d: Core, x: Id, outcome: Outcome<Result>, dropped: set<Id>, kept: set<Id>)
    requires Table(c) && Apart(c) && c.running == Some(x) && x in c.jobs
    requires d.queued == c.queued && d.running == None
    requires forall id :: id in d.jobs <==> id in c.jobs && id !in dropped
    requires forall id :: id in d.jobs ==>
               d.jobs[id] == if id == x then Closed(c.jobs[x], outcome) else c.jobs[id]
    requires forall y :: y in d.finished <==> y in kept
    requires forall y :: y in c.finished || y == x <==> y in dropped || y in kept
    requires dropped !! kept && x in kept
    ensures Table(d)
  {
    hide NoDup;
    forall y | y in d.jobs ensures MatchesPlace(d, y) {
      assert MatchesPlace(c, y);
    }
  }

  lemma EndTable(c: Core, x: Id, outcome: Outcome<Result>, dur: int, window: nat, retain: nat)
    requires Table(c) && Apart(c) && c.running == Some(x) && x in c.jobs && retain >= 1
    ensures Table(End(c, x, outcome, dur, window, retain))
  {
    hide End, Last, Table, MatchesPlace;
    var d := End(c, x, outcome, dur, window, retain);
    var f := c.finished + [x];
    EndFields(c, x, outcome, dur, window, retain);
    NoDupConcat(c.finished, [x]);
    DroppedGone(f, retain);
    hide NoDup;
    var dropped := f[..|f| - |d.finished|];
    CloseTable(c, d, x, outcome, set y | y in dropped, set y | y in d.finished);
  }

  lemma FinishService(cfg: Config, s: Sys, outcome: Outcome<Result>, dur: int)
    requires ValidConfig(cfg) && Service(cfg, s) && Enabled(cfg, s, Finish(outcome, dur))
    ensures Service(cfg, Apply(cfg, s, Finish(outcome, dur)))
  {
    EndFields(s.core, s.worker.id, outcome, dur, cfg.window, cfg.retain);
    LastOfLast(s.completed, cfg.retain, s.worker.id);
    hide End, Last;
  }

  lemma FinishFlow(cfg: Config, s: Sys, outcome: Outcome<Result>, dur: int)
    requires Flow(s) && Enabled(cfg, s, Finish(outcome, dur))
    ensures Flow(Apply(cfg, s, Finish(outcome, dur)))
  {
    hide NoDup, End, Last;
    var t := Apply(cfg, s, Finish(outcome, dur));
    assert t.started == t.completed + Active(t.worker);
    assert Line(t) == Line(s);
  }

  lemma FinishKeeps(cfg: Config, s: Sys, outcome: Outcome<Result>, dur: int)
    requires Inv(cfg, s) && Enabled(cfg, s, Finish(outcome, dur))
    ensures Inv(cfg, Apply(cfg, s, Finish(outcome, dur)))
  {
    hide Flow, Tickets, Waiting, Table, End, Last;
    var t := Apply(cfg, s, Finish(outcome, dur));
    PlacesApart(cfg, s);
    FinishService(cfg, s, outcome, dur);
    FinishFlow(cfg, s, outcome, dur);
    EndTable(s.core, s.worker.id, outcome, dur, cfg.window, cfg.retain);
    EndFields(s.core, s.worker.id, outcome, dur, cfg.window, cfg.retain);
    assert Line(t) == Line(s);
    WaitingCongruence(s, t);
  }

  lemma StopKeeps(cfg: Config, s: Sys)
    requires Inv(cfg, s) && Enabled(cfg, s, Stop)
    ensures Inv(cfg, Apply(cfg, s, Stop))
  {
    hide Tickets, Waiting, Table, NoDup, Last;
    WaitingCongruence(s, Apply(cfg, s, Stop));
  }

  /** Every step of every thread keeps the invariant. */
  lemma StepKeeps(cfg: Config, s: Sys, a: Act)
    requires Inv(cfg, s) && Enabled(cfg, s, a)
    ensures Inv(cfg, Apply(cfg, s, a))
  {
    hide Inv;
    match a
    case Append(id, kind, req) => AppendKeeps(cfg, s, id, kind, req);
    case Send(id) => SendKeeps(cfg, s, id);
    case SeeFull(id) => PcKeeps(cfg, s, id, SawFull);
    case RollBack(id) => RollBackKeeps(cfg, s, id);
    case Return(id) => PcKeeps(cfg, s, id, Returned);
    case Receive => ReceiveKeeps(cfg, s);
    case Start => StartKeeps(cfg, s);
    case Progress(plan, partial) => ProgressKeeps(cfg, s, plan, partial);
    case Finish(outcome, dur) => FinishKeeps(cfg, s, outcome, dur);
    case Stop => StopKeeps(cfg, s);
  }

  /** Every state of every run satisfies the invariant. */
  lemma {:induction false} RunKeeps(cfg: Config, s: Sys, acts: seq<Act>)
    requires Inv(cfg, s) && Legal(cfg, s, acts)
    ensures Inv(cfg, After(cfg, s, acts))
    decreases |acts|
  {
    hide Inv;
    if acts != [] {
      StepKeeps(cfg, s, acts[0]);
      RunKeeps(cfg, Apply(cfg, s, acts[0]), acts[1..]);
    }
  }

  lemma InitHolds(cfg: Config)
    requires ValidConfig(cfg)
    ensures Inv(cfg, INIT)
  {
  }
}
