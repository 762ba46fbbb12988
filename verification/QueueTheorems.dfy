/** What the queue guarantees over whole runs: who runs when, who is kept, and what a position means. */
module QueueTheorems {
  import opened Seqs
  import opened Contract
  import opened QueueCore
  import opened QueueProtocol

  /** A run from the empty queue. */
  ghost predicate Possible(cfg: Config, acts: seq<Act>) {
    ValidConfig(cfg) && Legal(cfg, INIT, acts)
  }

  lemma {:induction false} PossibleInv(cfg: Config, acts: seq<Act>)
    requires Possible(cfg, acts)
    ensures Inv(cfg, After(cfg, INIT, acts))
  {
    InitHolds(cfg);
    RunKeeps(cfg, INIT, acts);
  }

  /** One more step at the front of a run. */
  lemma {:induction false} Prepend(cfg: Config, s: Sys, a: Act, rest: seq<Act>)
    requires Enabled(cfg, s, a) && Legal(cfg, Apply(cfg, s, a), rest)
    ensures Legal(cfg, s, [a] + rest)
    ensures After(cfg, s, [a] + rest) == After(cfg, Apply(cfg, s, a), rest)
  {
    hide Enabled, Apply;
    assert ([a] + rest)[1..] == rest;
  }

  lemma {:induction false} AfterConcat(cfg: Config, s: Sys, a: seq<Act>, b: seq<Act>)
    requires Legal(cfg, s, a) && Legal(cfg, After(cfg, s, a), b)
    ensures Legal(cfg, s, a + b) && After(cfg, s, a + b) == After(cfg, After(cfg, s, a), b)
    decreases |a|
  {
    hide Enabled, Apply;
    if a == [] {
      assert a + b == b;
    } else {
      assert (a + b)[1..] == a[1..] + b;
      AfterConcat(cfg, Apply(cfg, s, a[0]), a[1..], b);
    }
  }

  // ----- the job table -----

  /** The ids of the submissions that hold a place without having been sent. */
  ghost function InFlights(s: Sys): set<Id> {
    set id | id in s.pcs && InFlight(s, id)
  }

  /**
   * In every state of every run the table is the disjoint union of the queue, the running job and the
   * retained completions, each job in the state its place calls for; and the queue holds, once each,
   * the channel's jobs, the received one and the submissions still in flight.
   */
  lemma {:induction false} JobTable(cfg: Config, acts: seq<Act>)
    requires Possible(cfg, acts)
    ensures var s := After(cfg, INIT, acts);
            var queued := set id | id in s.core.queued;
            var running := if s.core.running.Some? then {s.core.running.value} else {};
            var finished := set id | id in s.core.finished;
            && s.core.jobs.Keys == queued + running + finished
            && queued !! running && (queued + running) !! finished
            && NoDup(s.core.queued) && NoDup(s.core.finished)
            && queued == InFlights(s) + (set id | id in Line(s))
            && (forall id :: id in s.core.jobs ==> MatchesPlace(s.core, id))
  {
    PossibleInv(cfg, acts);
    var s := After(cfg, INIT, acts);
    hide *;
    InvParts(cfg, s);
    PlacesApart(cfg, s);
    TableSets(s.core);
    WaitingSet(s);
  }

  lemma InvParts(cfg: Config, s: Sys)
    requires Inv(cfg, s)
    ensures Flow(s) && Service(cfg, s) && Tickets(s) && Waiting(s) && Table(s.core)
  {
    hide Flow, Service, Tickets, Waiting, Table;
  }

  lemma TableSets(c: Core)
    requires Table(c) && Apart(c)
    ensures var queued := set id | id in c.queued;
            var running := if c.running.Some? then {c.running.value} else {};
            var finished := set id | id in c.finished;
            && c.jobs.Keys == queued + running + finished
            && queued !! running && (queued + running) !! finished
            && NoDup(c.queued) && NoDup(c.finished)
            && (forall id :: id in c.jobs ==> MatchesPlace(c, id))
  {
    hide MatchesPlace, NoDup;
  }

  lemma WaitingSet(s: Sys)
    requires Waiting(s)
    ensures (set id | id in s.core.queued) == InFlights(s) + (set id | id in Line(s))
  {
    hide Line, Ordered;
  }

  // ----- order of service -----

  /** Histories only grow, and a settled submission stays settled. */
  ghost predicate Extends(s: Sys, t: Sys) {
    && s.sent <= t.sent && s.started <= t.started && s.completed <= t.completed
    && (forall id :: id in s.stamp ==> id in t.stamp && t.stamp[id] == s.stamp[id])
    && (forall id :: At(s, id, Rejected) ==> At(t, id, Rejected))
    && (forall id :: id in s.pcs ==> id in t.pcs)
  }

  lemma StepExtends(cfg: Config, s: Sys, a: Act)
    requires Inv(cfg, s) && Enabled(cfg, s, a)
    ensures Extends(s, Apply(cfg, s, a))
  {
    hide Flow, Service, Waiting, Table, End, Begin, Enqueue, Withdraw, Report;
  }

  lemma {:induction false} RunExtends(cfg: Config, s: Sys, acts: seq<Act>)
    requires Inv(cfg, s) && Legal(cfg, s, acts)
    ensures Extends(s, After(cfg, s, acts)) && Inv(cfg, After(cfg, s, acts))
    decreases |acts|
  {
    hide Inv;
    if acts != [] {
      StepKeeps(cfg, s, acts[0]);
      StepExtends(cfg, s, acts[0]);
      RunExtends(cfg, Apply(cfg, s, acts[0]), acts[1..]);
    }
  }

  /** Jobs start in the order of the channel sends, one at a time, and only after being sent. */
  lemma {:induction false} StrictFifo(cfg: Config, acts: seq<Act>)
    requires Possible(cfg, acts)
    ensures var s := After(cfg, INIT, acts);
            && s.started <= s.sent && NoDup(s.sent)
            && s.completed <= s.started && |s.started| <= |s.completed| + 1
            && (s.core.running.Some? <==> |s.started| == |s.completed| + 1)
            && (s.core.running.Some? ==> s.core.running.value == s.started[|s.completed|])
  {
    PossibleInv(cfg, acts);
  }

  /** x stands before y. */
  ghost predicate Before(s: seq<Id>, x: Id, y: Id) {
    exists i, j :: 0 <= i < j < |s| && s[i] == x && s[j] == y
  }

  /**
   * Real-time FIFO: if a had been sent when b's Submit began, then b never starts without a having
   * started before it, and a stays ahead of b in the queue for as long as both wait.
   */
  lemma {:induction false} RealTimeFifo(cfg: Config, first: seq<Act>, kind: Kind, req: Request,
                                        rest: seq<Act>, a: Id, b: Id)
    requires Possible(cfg, first)
    requires var s := After(cfg, INIT, first); a in s.sent && Legal(cfg, s, [Append(b, kind, req)] + rest)
    ensures var t := After(cfg, After(cfg, INIT, first), [Append(b, kind, req)] + rest);
            && (b in t.started ==> Before(t.started, a, b))
            && (a in t.core.queued && b in t.core.queued ==> Before(t.core.queued, a, b))
  {
    var s := After(cfg, INIT, first);
    var acts := [Append(b, kind, req)] + rest;
    PossibleInv(cfg, first);
    assert acts[0] == Append(b, kind, req) && acts[1..] == rest;
    var m := Apply(cfg, s, acts[0]);
    StepKeeps(cfg, s, acts[0]);
    StampOrder(cfg, s, a, b);
    RunExtends(cfg, s, acts);
    RunExtends(cfg, m, rest);
    var t := After(cfg, s, acts);
    assert m.stamp[a] < m.stamp[b];
    SentFirst(s, t, a, b);
    if a in t.core.queued && b in t.core.queued {
      QueueOrder(t, a, b);
    }
  }

  lemma StampOrder(cfg: Config, s: Sys, a: Id, b: Id)
    requires Inv(cfg, s) && a in s.sent && b !in s.pcs
    ensures a in s.stamp && s.stamp[a] < |s.stamp| && b !in s.sent && b !in s.stamp && a != b
  {
    hide Flow, Service, Waiting, Table;
    assert WasSent(s, a) && !WasSent(s, b);
  }

  lemma SentFirst(s: Sys, t: Sys, a: Id, b: Id)
    requires Flow(t) && s.sent <= t.sent && a in s.sent && b !in s.sent
    ensures b in t.started ==> Before(t.started, a, b)
  {
    hide NoDup;
    if b in t.started {
      var i :| 0 <= i < |s.sent| && s.sent[i] == a;
      var j :| 0 <= j < |t.started| && t.started[j] == b;
      assert t.sent[j] == b;
      assert j >= |s.sent|;
      assert t.started[i] == t.sent[i] == a;
    }
  }

  lemma QueueOrder(t: Sys, a: Id, b: Id)
    requires Ordered(t.stamp, t.core.queued) && a in t.core.queued && b in t.core.queued
    requires t.stamp[a] < t.stamp[b]
    ensures Before(t.core.queued, a, b)
  {
    var q := t.core.queued;
    var i :| 0 <= i < |q| && q[i] == a;
    var j :| 0 <= j < |q| && q[j] == b;
    assert i < j;
  }

  /** A rejected submission has left no entry and never runs, however the run goes on. */
  lemma {:induction false} RejectedNeverRuns(cfg: Config, first: seq<Act>, rest: seq<Act>, id: Id)
    requires Possible(cfg, first) && At(After(cfg, INIT, first), id, Rejected)
    requires Legal(cfg, After(cfg, INIT, first), rest)
    ensures var t := After(cfg, After(cfg, INIT, first), rest);
            id !in t.core.jobs && id !in t.core.queued && id !in t.sent && id !in t.started
  {
    PossibleInv(cfg, first);
    var s := After(cfg, INIT, first);
    RunExtends(cfg, s, rest);
    var t := After(cfg, s, rest);
    assert At(t, id, Rejected);
    hide *;
    RejectedGone(cfg, t, id);
  }

  lemma RejectedGone(cfg: Config, s: Sys, id: Id)
    requires Inv(cfg, s) && At(s, id, Rejected)
    ensures id !in s.core.jobs && id !in s.core.queued && id !in s.sent && id !in s.started
  {
    FlowApart(s);
    if id in s.core.jobs || id in s.core.queued || id in s.sent {
      PlacesKnown(cfg, s, id);
    }
    hide Flow, Service, Waiting, Table;
  }

  // ----- retention and memory -----

  /** The finished list is always the newest completions, and eviction never takes a waiting or running job. */
  lemma {:induction false} Retention(cfg: Config, acts: seq<Act>)
    requires Possible(cfg, acts)
    ensures var s := After(cfg, INIT, acts);
            && s.core.finished == Last(s.completed, cfg.retain)
            && (forall id :: id in s.completed && id in s.core.jobs <==> id in s.core.finished)
            && (forall id :: id in s.sent && id !in s.completed ==> id in s.core.jobs)
  {
    PossibleInv(cfg, acts);
    var s := After(cfg, INIT, acts);
    FlowApart(s);
    WaitingNotStarted(s);
    LastMembers(s.completed, cfg.retain);
  }

  lemma ServiceSize(cfg: Config, s: Sys)
    requires Service(cfg, s)
    ensures |s.core.finished| <= cfg.retain
    ensures |Line(s)| + (if s.core.running.Some? then 1 else 0) <= cfg.buffer + 1
  {
  }

  lemma FourSizes(a: set<Id>, b: set<Id>, c: set<Id>, d: set<Id>)
    ensures |a + b + c + d| <= |a| + |b| + |c| + |d|
  {
    UnionSize(a, b);
    UnionSize(a + b, c);
    UnionSize(a + b + c, d);
  }

  /** The table never outgrows the buffer, the retained jobs, one job in hand and the calls in flight. */
  lemma {:induction false} MemoryBound(cfg: Config, acts: seq<Act>)
    requires Possible(cfg, acts)
    ensures var s := After(cfg, INIT, acts);
            |s.core.jobs| <= cfg.buffer + 1 + cfg.retain + |InFlights(s)|
  {
    PossibleInv(cfg, acts);
    JobTable(cfg, acts);
    var s := After(cfg, INIT, acts);
    ServiceSize(cfg, s);
    hide Possible, Legal, After, Inv, Line, InFlights, MatchesPlace, NoDup;
    var line := set id | id in Line(s);
    var running := if s.core.running.Some? then {s.core.running.value} else {};
    var finished := set id | id in s.core.finished;
    ElementsSize(Line(s));
    ElementsSize(s.core.finished);
    FourSizes(InFlights(s), line, running, finished);
    assert |s.core.jobs| == |s.core.jobs.Keys|;
  }
}
