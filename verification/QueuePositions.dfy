/** What the position shown to a waiting submitter is worth. */
module QueuePositions {
  import opened Wrappers
  import opened Seqs
  import opened Contract
  import opened QueueCore
  import opened QueueProtocol
  import opened QueueTheorems

  // ----- positions never grow -----

  lemma OrderedOnce(cfg: Config, s: Sys)
    requires Inv(cfg, s)
    ensures NoDup(s.core.queued)
  {
    hide Flow, Service, Tickets, Table;
    OrderedNoDup(s.stamp, s.core.queued);
  }

  /** What one step does to the queue. */
  lemma QueueStep(cfg: Config, s: Sys, a: Act)
    requires Enabled(cfg, s, a)
    ensures var q := s.core.queued;
            var t := Apply(cfg, s, a);
            t.core.queued ==
            match a
            case Append(id, _, _) => q + [id]
            case RollBack(id) => RemoveFirst(q, id)
            case Start => RemoveFirst(q, s.worker.id)
            case _ => q
  {
    if a.Finish? {
      EndFields(s.core, s.worker.id, a.outcome, a.dur, cfg.window, cfg.retain);
    }
    hide End;
  }

  lemma PlaceAfterAppend(q: seq<Id>, x: Id, id: Id)
    requires id != x && id in q + [x]
    ensures id in q && IndexOf(q + [x], id) == IndexOf(q, id)
  {
    IndexOfAppend(q, [x], id);
  }

  lemma PlaceAfterRemove(q: seq<Id>, x: Id, id: Id)
    requires NoDup(q) && id in RemoveFirst(q, x)
    ensures id in q && IndexOf(RemoveFirst(q, x), id) <= IndexOf(q, id)
  {
    RemoveFirstMembers(q, x);
    RemoveFirstIndex(q, x, id);
  }

  lemma StepPosition(cfg: Config, s: Sys, a: Act, id: Id)
    requires Inv(cfg, s) && Enabled(cfg, s, a)
    requires id in s.pcs && id in Apply(cfg, s, a).core.queued
    ensures id in s.core.queued && Position(Apply(cfg, s, a).core, id) <= Position(s.core, id)
  {
    OrderedOnce(cfg, s);
    QueueStep(cfg, s, a);
    hide Inv, Apply, NoDup;
    match a
    case Append(x, _, _) => PlaceAfterAppend(s.core.queued, x, id);
    case RollBack(x) => PlaceAfterRemove(s.core.queued, x, id);
    case Start => PlaceAfterRemove(s.core.queued, s.worker.id, id);
    case _ =>
  }

  /** A waiting job only ever moves forward, in every run. */
  lemma {:induction false} PositionNeverGrows(cfg: Config, s: Sys, acts: seq<Act>, id: Id)
    requires Inv(cfg, s) && Legal(cfg, s, acts) && id in s.pcs
    ensures var t := After(cfg, s, acts);
            id in t.core.queued ==> id in s.core.queued && Position(t.core, id) <= Position(s.core, id)
    decreases |acts|
  {
    hide Inv, Position;
    if acts != [] {
      var m := Apply(cfg, s, acts[0]);
      StepKeeps(cfg, s, acts[0]);
      StepExtends(cfg, s, acts[0]);
      PositionNeverGrows(cfg, m, acts[1..], id);
      if id in m.core.queued {
        StepPosition(cfg, s, acts[0], id);
      }
    }
  }

  /** The banner's promise: the next submission is appended at place QueueLen + 1. */
  lemma BannerPosition(cfg: Config, s: Sys, id: Id, kind: Kind, req: Request)
    requires Inv(cfg, s) && Enabled(cfg, s, Append(id, kind, req))
    ensures Position(Apply(cfg, s, Append(id, kind, req)).core, id) == TakeSnapshot(s.core).queueLen + 1
  {
    if id in s.core.queued {
      PlacesKnown(cfg, s, id);
    }
    IndexOfAppend(s.core.queued, [id], id);
  }

  // ----- how many jobs really go first -----

  /** The number of jobs that start after state s and before id does, in a later state t. */
  ghost function StartsBefore(s: Sys, t: Sys, id: Id): int {
    IndexOf(t.started, id) - |s.started|
  }

  /** On every continuation in which id starts, exactly Position - 1 jobs start before it. */
  ghost predicate Honest(cfg: Config, s: Sys, id: Id) {
    forall acts :: Legal(cfg, s, acts) && id in After(cfg, s, acts).started
      ==> StartsBefore(s, After(cfg, s, acts), id) == Position(s.core, id) - 1
  }

  /** Whatever happens next, the line is served in order. */
  lemma {:induction false} LineServed(cfg: Config, s: Sys, acts: seq<Act>, id: Id)
    requires Inv(cfg, s) && Legal(cfg, s, acts) && id in Line(s)
    ensures var t := After(cfg, s, acts);
            id in t.started ==> StartsBefore(s, t, id) == IndexOf(Line(s), id)
  {
    RunExtends(cfg, s, acts);
    var t := After(cfg, s, acts);
    FlowApart(s);
    FlowApart(t);
    hide Service, Tickets, Waiting, Table, NoDup;
    IndexOfAppend(s.started, Line(s), id);
    if id in t.started {
      SameIndex(s, t, id);
    }
  }

  lemma SameIndex(s: Sys, t: Sys, id: Id)
    requires Flow(t) && s.sent <= t.sent && id in s.sent && id in t.started
    ensures IndexOf(t.started, id) == IndexOf(s.sent, id)
  {
    var i := IndexOf(s.sent, id);
    var j := IndexOf(t.started, id);
    assert t.sent[i] == id && t.sent[j] == id;
  }

  /** A worker that has not been stopped can serve the whole line. */
  lemma CanServe(cfg: Config, s: Sys, k: nat) returns (acts: seq<Act>)
    requires Inv(cfg, s) && !s.worker.Stopped? && k < |Line(s)|
    ensures Legal(cfg, s, acts) && Line(s)[k] in After(cfg, s, acts).started
    decreases k, if s.worker.Busy? then 2 else if s.worker.Idle? then 1 else 0
  {
    var a := NextServe(cfg, s);
    var m := Apply(cfg, s, a);
    StepKeeps(cfg, s, a);
    hide Inv;
    if a == Start && k == 0 {
      acts := [a];
      assert acts[1..] == [];
      assert Legal(cfg, m, acts[1..]);
    } else {
      var rest := CanServe(cfg, m, if a == Start then k - 1 else k);
      acts := [a] + rest;
      assert acts[1..] == rest;
    }
  }

  /** The worker's next step, and what it does to the line. */
  lemma NextServe(cfg: Config, s: Sys) returns (a: Act)
    requires Inv(cfg, s) && !s.worker.Stopped? && Line(s) != []
    ensures Enabled(cfg, s, a)
    ensures var m := Apply(cfg, s, a);
            if s.worker.Busy? then m.worker.Idle? && Line(m) == Line(s) && a.Finish?
            else if s.worker.Idle? then m.worker.Received? && Line(m) == Line(s) && a == Receive
            else a == Start && m.worker.Busy? && Line(m) == Line(s)[1..] && m.started == s.started + [Line(s)[0]]
    ensures var m := Apply(cfg, s, a); m.pcs == s.pcs && (a != Start ==> m.started == s.started)
  {
    if s.worker.Busy? {
      a := Finish(Err("timeout"), 1);
      assert s.worker.id in s.core.jobs;
    } else if s.worker.Idle? {
      a := Receive;
    } else {
      a := Start;
      HeldIsWaiting(s);
      assert s.worker.id in s.core.jobs;
    }
    hide End;
  }

  /** A sent job's position is honest exactly when the job has the same place in the queue list as in the line. */
  lemma SentHonest(cfg: Config, s: Sys, id: Id)
    requires Inv(cfg, s) && !s.worker.Stopped? && id in Line(s)
    ensures Honest(cfg, s, id) <==> IndexOf(s.core.queued, id) == IndexOf(Line(s), id)
  {
    forall acts | Legal(cfg, s, acts) && id in After(cfg, s, acts).started
      ensures StartsBefore(s, After(cfg, s, acts), id) == IndexOf(Line(s), id)
    {
      LineServed(cfg, s, acts, id);
    }
    hide StartsBefore, Inv;
    var k := IndexOf(Line(s), id);
    var acts := CanServe(cfg, s, k);
    assert Legal(cfg, s, acts) && id in After(cfg, s, acts).started;
  }

  // ----- jobs that will not start -----

  /** Either nothing starts any more, or this submission is about to be rolled back. */
  ghost predicate Hopeless(s: Sys, id: Id) {
    s.worker.Stopped? || At(s, id, SawFull) || At(s, id, Rejected)
  }

  lemma {:induction false} HopelessNeverStarts(cfg: Config, s: Sys, acts: seq<Act>, id: Id)
    requires Inv(cfg, s) && Legal(cfg, s, acts) && Hopeless(s, id) && id !in s.started
    ensures id !in After(cfg, s, acts).started
    decreases |acts|
  {
    hide Inv, Hopeless, Apply;
    if acts != [] {
      StepKeeps(cfg, s, acts[0]);
      HopelessStep(cfg, s, acts[0], id);
      HopelessNeverStarts(cfg, Apply(cfg, s, acts[0]), acts[1..], id);
    }
  }

  lemma HopelessStep(cfg: Config, s: Sys, a: Act, id: Id)
    requires Inv(cfg, s) && Enabled(cfg, s, a) && Hopeless(s, id) && id !in s.started
    ensures Hopeless(Apply(cfg, s, a), id) && id !in Apply(cfg, s, a).started
  {
    if a.Start? {
      FlowApart(s);
      assert s.worker.id in Line(s);
    }
    hide Table, Service, Waiting, End, Begin, Enqueue, Withdraw, Report, NoDup;
  }

  lemma WaitingNotYetStarted(cfg: Config, s: Sys, id: Id)
    requires Inv(cfg, s) && id in s.core.queued
    ensures id !in s.started && (InFlight(s, id) || id in Line(s)) && !(InFlight(s, id) && id in Line(s))
  {
    FlowApart(s);
    WaitingNotStarted(s);
    if InFlight(s, id) {
      InFlightNotInLine(s, id);
    }
  }

  // ----- jobs not yet sent -----

  /** The worker can serve the whole line and wait for more. */
  lemma Drain(cfg: Config, s: Sys) returns (acts: seq<Act>)
    requires Inv(cfg, s) && !s.worker.Stopped?
    ensures Legal(cfg, s, acts)
    ensures var m := After(cfg, s, acts);
            Inv(cfg, m) && m.worker.Idle? && m.ch == [] && m.pcs == s.pcs && m.started == s.started + Line(s)
    decreases |Line(s)|, if s.worker.Busy? then 2 else if s.worker.Idle? then 1 else 0
  {
    if Line(s) == [] && s.worker.Idle? {
      acts := [];
    } else {
      var a := NextMove(cfg, s);
      var m := Apply(cfg, s, a);
      StepKeeps(cfg, s, a);
      hide Inv, Apply, Enabled;
      var rest := Drain(cfg, m);
      acts := [a] + rest;
      Prepend(cfg, s, a, rest);
      assert a == Start ==> s.started + [Line(s)[0]] + Line(s)[1..] == s.started + Line(s);
    }
  }

  /** NextServe, or the end of the last job. */
  lemma NextMove(cfg: Config, s: Sys) returns (a: Act)
    requires Inv(cfg, s) && !s.worker.Stopped? && (Line(s) != [] || !s.worker.Idle?)
    ensures Enabled(cfg, s, a)
    ensures var m := Apply(cfg, s, a);
            && !m.worker.Stopped? && m.pcs == s.pcs
            && if s.worker.Busy? then m.worker.Idle? && Line(m) == Line(s) && m.started == s.started && a != Start
               else if s.worker.Idle? then
                 m.worker.Received? && Line(m) == Line(s) && m.started == s.started && a != Start
               else
                 a == Start && Line(s) != [] && m.worker.Busy?
                 && Line(m) == Line(s)[1..] && m.started == s.started + [Line(s)[0]]
  {
    if Line(s) != [] {
      a := NextServe(cfg, s);
    } else {
      a := Finish(Err("timeout"), 1);
      assert s.worker.id in s.core.jobs;
      hide End;
    }
  }

  /** With the line served, a submission that has been appended can be sent and start at once. */
  lemma ServeNew(cfg: Config, s: Sys, id: Id) returns (acts: seq<Act>)
    requires Inv(cfg, s) && s.worker.Idle? && s.ch == [] && At(s, id, Appended)
    ensures Legal(cfg, s, acts)
    ensures var m := After(cfg, s, acts);
            && Inv(cfg, m) && !m.worker.Stopped? && Line(m) == []
            && m.pcs == s.pcs[id := Sent] && m.started == s.started + [id]
  {
    hide *;
    ServeSteps(cfg, s, id);
    var s1 := Apply(cfg, s, Send(id));
    var s2 := Apply(cfg, s1, Receive);
    Prepend(cfg, s2, Start, []);
    Prepend(cfg, s1, Receive, [Start] + []);
    Prepend(cfg, s, Send(id), [Receive] + ([Start] + []));
    acts := [Send(id)] + ([Receive] + ([Start] + []));
  }

  lemma ServeSteps(cfg: Config, s: Sys, id: Id)
    requires Inv(cfg, s) && s.worker.Idle? && s.ch == [] && At(s, id, Appended)
    ensures Enabled(cfg, s, Send(id)) && Enabled(cfg, Apply(cfg, s, Send(id)), Receive)
    ensures Enabled(cfg, Apply(cfg, Apply(cfg, s, Send(id)), Receive), Start)
    ensures var m := Apply(cfg, Apply(cfg, Apply(cfg, s, Send(id)), Receive), Start);
            && Legal(cfg, m, []) && After(cfg, m, []) == m
            && Inv(cfg, m) && !m.worker.Stopped? && Line(m) == []
            && m.pcs == s.pcs[id := Sent] && m.started == s.started + [id]
  {
    var s1 := Apply(cfg, s, Send(id));
    StepKeeps(cfg, s, Send(id));
    var s2 := Apply(cfg, s1, Receive);
    StepKeeps(cfg, s1, Receive);
    HeldIsWaiting(s2);
    assert id in s2.core.jobs;
    StepKeeps(cfg, s2, Start);
    hide Inv;
  }

  lemma {:induction false} Above(ids: set<Id>) returns (b: Id)
    ensures forall x :: x in ids ==> x < b
  {
    b := 0;
    if ids != {} {
      var x :| x in ids;
      var c := Above(ids - {x});
      b := if c > x then c else x + 1;
      assert forall y :: y in ids ==> y == x || y in ids - {x};
    }
  }

  /** A new submission can overtake: it is appended, sent and started before id is sent. */
  lemma Overtaken(cfg: Config, s: Sys, id: Id) returns (acts: seq<Act>)
    requires Inv(cfg, s) && s.worker.Idle? && s.ch == [] && At(s, id, Appended)
    ensures Legal(cfg, s, acts)
    ensures var m := After(cfg, s, acts);
            Inv(cfg, m) && exists x :: x != id && m.started == s.started + [x] + [id]
  {
    hide *;
    var x, a := AnotherAppend(cfg, s, id);
    var s1 := Apply(cfg, s, a);
    var first := ServeNew(cfg, s1, x);
    var s2 := After(cfg, s1, first);
    var idle := Drain(cfg, s2);
    var s3 := After(cfg, s2, idle);
    assert At(s3, id, Appended) by {
      StillAppended(s, s3, x, id);
    }
    var last := ServeNew(cfg, s3, id);
    AfterConcat(cfg, s2, idle, last);
    AfterConcat(cfg, s1, first, idle + last);
    Prepend(cfg, s, a, first + (idle + last));
    acts := [a] + (first + (idle + last));
    assert After(cfg, s, acts).started == s.started + [x] + [] + [id];
    assert s.started + [x] + [] + [id] == s.started + [x] + [id];
  }

  lemma AnotherAppend(cfg: Config, s: Sys, id: Id) returns (x: Id, a: Act)
    requires Inv(cfg, s) && At(s, id, Appended)
    ensures Enabled(cfg, s, a) && x != id && Inv(cfg, Apply(cfg, s, a))
    ensures var s1 := Apply(cfg, s, a);
            && s1.worker == s.worker && s1.ch == s.ch && s1.started == s.started
            && s1.pcs == s.pcs[x := Appended] && At(s1, x, Appended)
  {
    x := Above(s.pcs.Keys);
    a := Append(x, Generate, Request("", "", [], ""));
    StepKeeps(cfg, s, a);
    hide Inv;
  }

  lemma StillAppended(s: Sys, t: Sys, x: Id, id: Id)
    requires At(s, id, Appended) && x != id && t.pcs == s.pcs[x := Appended][x := Sent]
    ensures At(t, id, Appended)
  {
  }

  /** An appended job's position is not honest: the next submission may overtake it, or may not. */
  lemma AppendedNotHonest(cfg: Config, s: Sys, id: Id)
    requires Inv(cfg, s) && !s.worker.Stopped? && At(s, id, Appended) && id in s.core.queued
    ensures !Honest(cfg, s, id)
  {
    WaitingNotYetStarted(cfg, s, id);
    assert id !in Line(s);
    hide *;
    var idle := Drain(cfg, s);
    var m := After(cfg, s, idle);
    assert At(m, id, Appended) by { SamePc(s, m, id); }
    var soon := ServeNew(cfg, m, id);
    var late := Overtaken(cfg, m, id);
    AfterConcat(cfg, s, idle, soon);
    AfterConcat(cfg, s, idle, late);
    var x :| x != id && After(cfg, s, idle + late).started == m.started + [x] + [id];
    StartsAt(s.started, Line(s), [], id);
    StartsAt(s.started, Line(s), [x], id);
    TwoCounts(cfg, s, id, idle + soon, idle + late, x);
  }

  lemma SamePc(s: Sys, m: Sys, id: Id)
    requires m.pcs == s.pcs && At(s, id, Appended)
    ensures At(m, id, Appended)
  {
  }

  lemma {:induction false} StartsAt(started: seq<Id>, line: seq<Id>, more: seq<Id>, id: Id)
    requires id !in started && id !in line && id !in more
    ensures id in started + line + more + [id]
    ensures IndexOf(started + line + more + [id], id) == |started| + |line| + |more|
  {
    IndexOfAppend(started + line + more, [id], id);
  }

  lemma TwoCounts(cfg: Config, s: Sys, id: Id, soon: seq<Act>, late: seq<Act>, x: Id)
    requires Legal(cfg, s, soon) && Legal(cfg, s, late)
    requires After(cfg, s, soon).started == s.started + Line(s) + [id]
    requires After(cfg, s, late).started == s.started + Line(s) + [x] + [id]
    requires id !in s.started && id !in Line(s) && x != id
    ensures !Honest(cfg, s, id)
  {
    StartsAt(s.started, Line(s), [], id);
    StartsAt(s.started, Line(s), [x], id);
    assert s.started + Line(s) + [] + [id] == s.started + Line(s) + [id];
    hide Line, Legal, After, Position, IndexOf;
  }

  /**
   * A waiting job's position is honest exactly when nothing can start it any more (the worker has stopped,
   * or the submission saw a full channel), or it has been sent and has the same place in the queue list as
   * in the line the worker serves. Overlapping submissions can make the two places differ.
   */
  lemma HonestExactly(cfg: Config, s: Sys, id: Id)
    requires Inv(cfg, s) && id in s.core.queued
    ensures Honest(cfg, s, id)
            <==> s.worker.Stopped? || At(s, id, SawFull)
                 || (id in Line(s) && IndexOf(s.core.queued, id) == IndexOf(Line(s), id))
  {
    WaitingNotYetStarted(cfg, s, id);
    if s.worker.Stopped? || At(s, id, SawFull) {
      assert Hopeless(s, id);
      hide Inv, Hopeless, Line;
      forall acts | Legal(cfg, s, acts) ensures id !in After(cfg, s, acts).started {
        HopelessNeverStarts(cfg, s, acts, id);
      }
    } else if id in Line(s) {
      SentHonest(cfg, s, id);
    } else {
      AppendedNotHonest(cfg, s, id);
    }
  }

  // ----- submissions that do not overlap -----

  /** No Submit begins while another stands between its append and its send or roll-back. */
  ghost predicate OneAtATime(cfg: Config, s: Sys, acts: seq<Act>)
    requires Legal(cfg, s, acts)
    decreases |acts|
  {
    acts == [] ||
    ((acts[0].Append? ==> forall id :: id in s.pcs ==> !InFlight(s, id)) &&
     OneAtATime(cfg, Apply(cfg, s, acts[0]), acts[1..]))
  }

  /** The queue list is the line, followed by at most one submission in flight. */
  ghost predicate InStep(s: Sys) {
    var q, n := s.core.queued, |Line(s)|;
    && n <= |q| <= n + 1 && q[..n] == Line(s)
    && (|q| == n + 1 ==> InFlight(s, q[n]))
  }

  lemma SubmitInStep(cfg: Config, s: Sys, a: Act)
    requires Inv(cfg, s) && InStep(s) && Enabled(cfg, s, a)
    requires (a.Append? && forall id :: id in s.pcs ==> !InFlight(s, id)) || a.Send? || a.SeeFull? || a.Return?
    ensures InStep(Apply(cfg, s, a))
  {
    hide Table, Service, NoDup, Ordered;
    var t := Apply(cfg, s, a);
    var q, n := s.core.queued, |Line(s)|;
    match a
    case Append(id, _, _) => assert q == q[..n];
    case Send(id) =>
      InFlightNotInLine(s, id);
      InFlightIsLast(s, id);
    case SeeFull(id) => InFlightNotInLine(s, id);
    case Return(id) =>
  }

  lemma RollBackInStep(cfg: Config, s: Sys, id: Id)
    requires Inv(cfg, s) && InStep(s) && Enabled(cfg, s, RollBack(id))
    ensures InStep(Apply(cfg, s, RollBack(id)))
  {
    InFlightNotInLine(s, id);
    InFlightIsLast(s, id);
    RemoveFirstAppend(Line(s), [id], id);
    hide Inv;
    assert RemoveFirst([id], id) == [];
  }

  lemma StartInStep(cfg: Config, s: Sys)
    requires InStep(s) && Enabled(cfg, s, Start) && !InFlight(s, s.worker.id)
    ensures InStep(Apply(cfg, s, Start))
  {
    var t := Apply(cfg, s, Start);
    var q, n := s.core.queued, |Line(s)|;
    assert Line(s) == [s.worker.id] + Line(t);
    assert q[0] == q[..n][0] == s.worker.id;
    assert t.core.queued == q[1..];
  }

  /** The worker's other steps change neither the queue list nor the line. */
  lemma QuietInStep(s: Sys, t: Sys)
    requires InStep(s) && t.core.queued == s.core.queued && Line(t) == Line(s) && t.pcs == s.pcs
    ensures InStep(t)
  {
  }

  lemma StepInStep(cfg: Config, s: Sys, a: Act)
    requires Inv(cfg, s) && InStep(s) && Enabled(cfg, s, a)
    requires a.Append? ==> forall id :: id in s.pcs ==> !InFlight(s, id)
    ensures InStep(Apply(cfg, s, a))
  {
    if a.Append? || a.Send? || a.SeeFull? || a.Return? {
      SubmitInStep(cfg, s, a);
    } else if a.RollBack? {
      RollBackInStep(cfg, s, a.id);
    } else if a.Start? {
      HeldIsWaiting(s);
      StartInStep(cfg, s);
    } else {
      QueueStep(cfg, s, a);
      hide Inv, End, InStep;
      assert Line(Apply(cfg, s, a)) == Line(s);
      QuietInStep(s, Apply(cfg, s, a));
    }
  }

  lemma InFlightIsLast(s: Sys, id: Id)
    requires InStep(s) && id in s.core.queued && id !in Line(s)
    ensures s.core.queued == Line(s) + [id]
  {
    var q, n := s.core.queued, |Line(s)|;
    assert q == q[..n] + q[n..];
    assert id in q[n..];
  }

  lemma {:induction false} RunInStep(cfg: Config, s: Sys, acts: seq<Act>)
    requires Inv(cfg, s) && InStep(s) && Legal(cfg, s, acts) && OneAtATime(cfg, s, acts)
    ensures InStep(After(cfg, s, acts))
    decreases |acts|
  {
    hide Inv, InStep;
    if acts != [] {
      StepKeeps(cfg, s, acts[0]);
      StepInStep(cfg, s, acts[0]);
      RunInStep(cfg, Apply(cfg, s, acts[0]), acts[1..]);
    }
  }

  lemma SequentialStep(cfg: Config, s: Sys, a: Act, id: Id)
    requires Inv(cfg, s) && InStep(s) && Enabled(cfg, s, a) && id in s.core.queued
    ensures var m := Apply(cfg, s, a);
            id in m.core.queued ==> |m.started| + IndexOf(m.core.queued, id) == |s.started| + IndexOf(s.core.queued, id)
    ensures var m := Apply(cfg, s, a);
            id !in m.core.queued ==>
              At(m, id, Rejected) || (m.started == s.started + [id] && IndexOf(s.core.queued, id) == 0)
  {
    if a.RollBack? {
      RollBackPlace(cfg, s, a.id, id);
    } else if a.Start? {
      StartPlace(cfg, s, id);
    } else {
      QueueStep(cfg, s, a);
      if a.Append? {
        IndexOfAppend(s.core.queued, [a.id], id);
      }
      hide Inv, InStep, End, IndexOf;
    }
  }

  lemma RollBackPlace(cfg: Config, s: Sys, x: Id, id: Id)
    requires Inv(cfg, s) && InStep(s) && Enabled(cfg, s, RollBack(x)) && id in s.core.queued
    ensures var m := Apply(cfg, s, RollBack(x));
            && m.started == s.started
            && (id in m.core.queued ==> IndexOf(m.core.queued, id) == IndexOf(s.core.queued, id))
            && (id !in m.core.queued ==> At(m, id, Rejected))
  {
    InFlightNotInLine(s, x);
    InFlightIsLast(s, x);
    hide Inv, InStep, IndexOf, RemoveFirst, Line;
    RemovedLast(Line(s), x, id);
  }

  lemma StartPlace(cfg: Config, s: Sys, id: Id)
    requires Inv(cfg, s) && InStep(s) && Enabled(cfg, s, Start) && id in s.core.queued
    ensures var m := Apply(cfg, s, Start);
            var q := s.core.queued;
            && m.started == s.started + [s.worker.id] && m.core.queued == q[1..]
            && (if id == s.worker.id then IndexOf(q, id) == 0
                else id in q[1..] && IndexOf(q, id) == IndexOf(q[1..], id) + 1)
            && s.worker.id !in q[1..]
  {
    InStepHead(s);
    OrderedOnce(cfg, s);
    IndexOfTail(s.core.queued, id);
    assert forall i :: 1 <= i < |s.core.queued| ==> s.core.queued[0] != s.core.queued[i];
    hide Inv, InStep, IndexOf, RemoveFirst, NoDup;
  }

  lemma RemovedLast(line: seq<Id>, x: Id, id: Id)
    requires x !in line && id in line + [x]
    ensures id in RemoveFirst(line + [x], x) <==> id != x
    ensures id != x ==> IndexOf(RemoveFirst(line + [x], x), id) == IndexOf(line + [x], id)
  {
    RemoveFirstAppend(line, [x], x);
    assert RemoveFirst([x], x) == [] && line + [] == line;
    IndexOfAppend(line, [x], id);
  }

  lemma InStepHead(s: Sys)
    requires InStep(s) && s.worker.Received?
    ensures s.core.queued != [] && s.core.queued[0] == s.worker.id
    ensures RemoveFirst(s.core.queued, s.worker.id) == s.core.queued[1..]
  {
    assert Line(s)[0] == s.worker.id;
    assert s.core.queued[..|Line(s)|][0] == s.core.queued[0];
  }

  /**
   * As long as submissions do not overlap, every waiting job, sent or in flight, starts after exactly the
   * number of jobs its position promises.
   */
  lemma {:induction false} SequentialServed(cfg: Config, s: Sys, acts: seq<Act>, id: Id)
    requires Inv(cfg, s) && InStep(s) && Legal(cfg, s, acts) && OneAtATime(cfg, s, acts) && id in s.core.queued
    ensures var t := After(cfg, s, acts);
            id in t.started ==> StartsBefore(s, t, id) == Position(s.core, id) - 1
    decreases |acts|
  {
    WaitingNotYetStarted(cfg, s, id);
    hide Inv, InStep, IndexOf, Apply, Enabled;
    if acts != [] {
      var a := acts[0];
      var m := Apply(cfg, s, a);
      StepKeeps(cfg, s, a);
      StepInStep(cfg, s, a);
      SequentialStep(cfg, s, a, id);
      if id in m.core.queued {
        SequentialServed(cfg, m, acts[1..], id);
      } else if At(m, id, Rejected) {
        RejectedStays(cfg, m, acts[1..], id);
      } else {
        StartedStays(cfg, m, acts[1..], s.started, id);
      }
    }
  }

  lemma {:induction false} RejectedStays(cfg: Config, s: Sys, acts: seq<Act>, id: Id)
    requires Inv(cfg, s) && Legal(cfg, s, acts) && At(s, id, Rejected)
    ensures id !in After(cfg, s, acts).started
  {
    RejectedGone(cfg, s, id);
    hide Inv;
    HopelessNeverStarts(cfg, s, acts, id);
  }

  lemma {:induction false} StartedStays(cfg: Config, s: Sys, acts: seq<Act>, before: seq<Id>, id: Id)
    requires Inv(cfg, s) && Legal(cfg, s, acts) && s.started == before + [id] && id !in before
    ensures IndexOf(After(cfg, s, acts).started, id) == |before|
  {
    RunExtends(cfg, s, acts);
    var t := After(cfg, s, acts);
    hide Inv, Legal, After;
    assert t.started == before + [id] + t.started[|s.started|..];
    IndexOfAppend(before, [id], id);
    IndexOfAppend(before + [id], t.started[|s.started|..], id);
  }

  /** When submissions have not overlapped, every sent job's position is honest whatever comes next. */
  lemma {:induction false} SequentialHonest(cfg: Config, acts: seq<Act>, id: Id)
    requires Possible(cfg, acts) && OneAtATime(cfg, INIT, acts)
    requires id in Line(After(cfg, INIT, acts))
    ensures Honest(cfg, After(cfg, INIT, acts), id)
  {
    InitHolds(cfg);
    PossibleInv(cfg, acts);
    RunInStep(cfg, INIT, acts);
    var s := After(cfg, INIT, acts);
    hide Inv, Honest, Legal, After, OneAtATime;
    InStepPlace(s, id);
    HonestExactly(cfg, s, id);
  }

  lemma InStepPlace(s: Sys, id: Id)
    requires InStep(s) && id in Line(s)
    ensures id in s.core.queued && IndexOf(s.core.queued, id) == IndexOf(Line(s), id)
  {
    var n := |Line(s)|;
    assert s.core.queued == Line(s) + s.core.queued[n..];
    IndexOfAppend(Line(s), s.core.queued[n..], id);
  }

  lemma {:induction false} SequentialInStep(cfg: Config, acts: seq<Act>)
    requires Possible(cfg, acts) && OneAtATime(cfg, INIT, acts)
    ensures Legal(cfg, INIT, acts) && Inv(cfg, After(cfg, INIT, acts)) && InStep(After(cfg, INIT, acts))
  {
    InitHolds(cfg);
    RunInStep(cfg, INIT, acts);
    hide Inv, Legal, After, OneAtATime;
    PossibleInv(cfg, acts);
  }

  /** And while they go on not overlapping, so is that of a job in flight. */
  lemma {:induction false} SequentialPositions(cfg: Config, first: seq<Act>, rest: seq<Act>, id: Id)
    requires Possible(cfg, first) && OneAtATime(cfg, INIT, first)
    requires Legal(cfg, After(cfg, INIT, first), rest) && OneAtATime(cfg, After(cfg, INIT, first), rest)
    requires id in After(cfg, INIT, first).core.queued
    ensures var s := After(cfg, INIT, first);
            var t := After(cfg, s, rest);
            id in t.started ==> StartsBefore(s, t, id) == Position(s.core, id) - 1
  {
    hide *;
    SequentialInStep(cfg, first);
    SequentialServed(cfg, After(cfg, INIT, first), rest, id);
  }

  // ----- submissions that do -----

  /** Submit(8) begins before Submit(7) has sent, and sends first; the worker takes 8 before 7 is sent. */
  function Overlap(req: Request): seq<Act> {
    [Append(7, Generate, req), Append(8, Generate, req), Send(8), Receive, Send(7)]
  }

  lemma OverlapRun(cfg: Config, req: Request)
    requires cfg.buffer >= 1
    ensures Legal(cfg, INIT, Overlap(req))
    ensures var s := After(cfg, INIT, Overlap(req));
            s.core.queued == [7, 8] && s.ch == [7] && s.worker == Received(8) && At(s, 8, Sent)
  {
    var a1, a2, a3, a4, a5 := Append(7, Generate, req), Append(8, Generate, req), Send(8), Receive, Send(7);
    var s1 := Apply(cfg, INIT, a1);
    var s2 := Apply(cfg, s1, a2);
    var s3 := Apply(cfg, s2, a3);
    var s4 := Apply(cfg, s3, a4);
    assert Enabled(cfg, s4, a5);
    var s5 := Apply(cfg, s4, a5);
    assert s5.core.queued == [7, 8] && s5.ch == [7] && s5.worker == Received(8) && At(s5, 8, Sent);
    hide Apply, Enabled;
    Prepend(cfg, s4, a5, []);
    Prepend(cfg, s3, a4, [a5] + []);
    Prepend(cfg, s2, a3, [a4] + ([a5] + []));
    Prepend(cfg, s1, a2, [a3] + ([a4] + ([a5] + [])));
    Prepend(cfg, INIT, a1, [a2] + ([a3] + ([a4] + ([a5] + []))));
    assert [a1] + ([a2] + ([a3] + ([a4] + ([a5] + [])))) == Overlap(req);
  }

  /** Two overlapping submissions, however the queue is configured: the job shown second starts first. */
  lemma OverlapMisleads(cfg: Config, req: Request)
    requires ValidConfig(cfg)
    ensures Possible(cfg, Overlap(req))
    ensures var s := After(cfg, INIT, Overlap(req));
            Position(s.core, 8) == 2 && Line(s) == [8, 7] && !Honest(cfg, s, 8)
  {
    hide Legal, After, Overlap, Inv, Honest;
    OverlapRun(cfg, req);
    var s := After(cfg, INIT, Overlap(req));
    assert Line(s) == [8, 7];
    PossibleInv(cfg, Overlap(req));
    HonestExactly(cfg, s, 8);
  }
}
