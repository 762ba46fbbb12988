/** The waiting-time estimates over whole runs of the queue. */
module Estimates {
  import opened Wrappers
  import opened Seqs
  import opened QueueCore
  import opened QueueProtocol
  import opened QueueTheorems
  import Eta

  /** How long the successful jobs of a run took, in the order they ended. */
  function Durations(acts: seq<Act>): seq<int> {
    if acts == [] then [] else DurationOf(acts[0]) + Durations(acts[1..])
  }

  function DurationOf(a: Act): seq<int> {
    if a.Finish? && a.outcome.Ok? then [a.dur] else []
  }

  /** The duration of each successful end counts, once, and nothing else does. */
  lemma {:induction false} DurationsConcat(a: seq<Act>, b: seq<Act>)
    ensures Durations(a + b) == Durations(a) + Durations(b)
  {
    hide DurationOf;
    if a == [] {
      assert a + b == b;
    } else {
      assert (a + b)[1..] == a[1..] + b;
      DurationsConcat(a[1..], b);
    }
  }

  lemma DurationsOne(a: Act)
    ensures Durations([a]) == match a case Finish(Ok(_), dur) => [dur] case _ => []
  {
    assert [a][1..] == [];
  }

  lemma StepSamples(cfg: Config, s: Sys, a: Act)
    requires Enabled(cfg, s, a)
    ensures Apply(cfg, s, a).core.samples ==
            if a.Finish? && a.outcome.Ok? then Eta.Recorded(s.core.samples, cfg.window, a.dur) else s.core.samples
  {
    if a.Finish? {
      var c, x := s.core, s.worker.id;
      EvictKeepsNewest(c.(jobs := c.jobs[x := Closed(c.jobs[x], a.outcome)],
                          samples := if a.outcome.Ok? then Eta.Recorded(c.samples, cfg.window, a.dur) else c.samples,
                          running := None, finished := c.finished + [x]), cfg.retain);
    }
    hide Evict, Eta.Recorded;
  }

  lemma ReplayStep(history: seq<int>, a: Act, window: nat)
    ensures Eta.Replay(history + DurationOf(a), window) ==
            if a.Finish? && a.outcome.Ok? then Eta.Recorded(Eta.Replay(history, window), window, a.dur)
            else Eta.Replay(history, window)
  {
    hide Eta.Recorded;
    if a.Finish? && a.outcome.Ok? {
      assert (history + [a.dur])[..|history|] == history;
    } else {
      assert history + [] == history;
    }
  }

  lemma {:induction false} SamplesFrom(cfg: Config, s: Sys, acts: seq<Act>, history: seq<int>)
    requires Legal(cfg, s, acts) && s.core.samples == Eta.Replay(history, cfg.window)
    ensures After(cfg, s, acts).core.samples == Eta.Replay(history + Durations(acts), cfg.window)
    decreases |acts|
  {
    hide Apply, Enabled, Eta.Recorded, Eta.Replay, DurationOf;
    if acts == [] {
      assert history + [] == history;
    } else {
      var a := acts[0];
      StepSamples(cfg, s, a);
      ReplayStep(history, a, cfg.window);
      SamplesFrom(cfg, Apply(cfg, s, a), acts[1..], history + DurationOf(a));
      assert history + Durations(acts) == history + DurationOf(a) + Durations(acts[1..]);
    }
  }

  /** eta is the rounded mean of the samples, times the places ahead. */
  ghost predicate IsEstimate(eta: int, samples: seq<int>, ahead: nat) {
    exists avg :: Eta.IsMean(Eta.Sum(samples), |samples|, avg) && eta == avg * ahead
  }

  lemma EstimateShown(c: Core, id: Id, lo: int, hi: int)
    requires id in c.jobs && c.jobs[id].state == Queued
    requires match Eta.Mean(c.samples) case Some(avg) => lo <= avg <= hi case None => true
    ensures var ahead := Position(c, id) + (if c.running.Some? then 1 else 0);
            && ViewJob(c, id).Some?
            && var v := ViewJob(c, id).value;
            && v.position == Position(c, id) && v.etaKnown == (c.samples != [])
            && (c.samples != [] ==> IsEstimate(v.eta, c.samples, ahead) && lo * ahead <= v.eta <= hi * ahead)
  {
    hide Position, Eta.Sum;
    var ahead := Position(c, id) + (if c.running.Some? then 1 else 0);
    if c.samples != [] {
      var avg := Eta.Sum(c.samples) / |c.samples|;
      Eta.MulMonotone(lo, avg, ahead);
      Eta.MulMonotone(avg, hi, ahead);
      Eta.MeanExactly(c.samples, avg);
    }
  }

  lemma {:induction false} QueuedState(cfg: Config, acts: seq<Act>, id: Id)
    requires Possible(cfg, acts) && id in After(cfg, INIT, acts).core.queued
    ensures var c := After(cfg, INIT, acts).core; id in c.jobs && c.jobs[id].state == Queued
  {
    PossibleInv(cfg, acts);
    assert MatchesPlace(After(cfg, INIT, acts).core, id);
    hide Flow, Service, Tickets, Waiting, Legal, After;
  }

  /**
   * In every state of every run the estimate a waiting job is shown is the rounded mean of the last `window`
   * positive durations of successful jobs, times the places ahead of it; it is known as soon as there is one
   * such duration, and it respects any bounds that hold of all of them.
   */
  lemma {:induction false} EstimateOfRun(cfg: Config, acts: seq<Act>, id: Id, lo: int, hi: int)
    requires Possible(cfg, acts) && id in After(cfg, INIT, acts).core.queued
    requires forall d :: d in Last(Eta.Positives(Durations(acts)), cfg.window) ==> lo <= d <= hi
    ensures var c := After(cfg, INIT, acts).core;
            var window := Last(Eta.Positives(Durations(acts)), cfg.window);
            var ahead := Position(c, id) + (if c.running.Some? then 1 else 0);
            && ViewJob(c, id).Some?
            && var v := ViewJob(c, id).value;
            && v.position == Position(c, id) && v.etaKnown == (window != [])
            && (window != [] ==> IsEstimate(v.eta, window, ahead) && lo * ahead <= v.eta <= hi * ahead)
  {
    var history := Durations(acts);
    QueuedState(cfg, acts, id);
    SamplesOfRun(cfg, acts);
    var c := After(cfg, INIT, acts).core;
    hide *;
    Eta.ReplayIsWindow(history, cfg.window);
    Eta.MeanWithinWindow(history, cfg.window, lo, hi);
    assert c.samples == Last(Eta.Positives(history), cfg.window);
    EstimateShown(c, id, lo, hi);
  }

  lemma {:induction false} SamplesOfRun(cfg: Config, acts: seq<Act>)
    requires Possible(cfg, acts)
    ensures After(cfg, INIT, acts).core.samples == Eta.Replay(Durations(acts), cfg.window)
  {
    SamplesFrom(cfg, INIT, acts, []);
    hide Legal, After, Durations;
    assert [] + Durations(acts) == Durations(acts);
  }
}
