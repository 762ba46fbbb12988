/** Runs of the live-status protocol: what can be stale, and that fresh states can always be reached. */
module LiveRuns {
  import opened Seqs
  import opened Contract
  import opened QueueCore
  import opened QueueProtocol
  import opened LiveStatus
  import opened Sse

  // ----- what a browser can go on showing -----

  /** A browser connects while nobody is publishing, and gets its first frame. */
  lemma Connect(cfg: Config, l: Live, h: Hid) returns (acts: seq<LiveAct>)
    requires l.pubs == map[] && h !in l.handlers
    ensures LiveLegal(cfg, l, acts)
    ensures LiveAfter(cfg, l, acts)
            == l.(subs := l.subs + {h},
                  handlers := l.handlers[h := Handler(Listening, false, false, l.q.core, l.q.core)])
  {
    var a1, a2, a3 := LiveAct.Subscribe(h), LiveAct.ReadSnapshot(h), LiveAct.ReadJobView(h);
    var l1 := LiveApply(cfg, l, a1);
    var l2 := LiveApply(cfg, l1, a2);
    var l3 := LiveApply(cfg, l2, a3);
    assert l3.handlers == l.handlers[h := Handler(Listening, false, false, l.q.core, l.q.core)];
    hide LiveApply;
    LivePrepend(cfg, l2, a3, []);
    LivePrepend(cfg, l1, a2, [a3] + []);
    LivePrepend(cfg, l, a1, [a2] + ([a3] + []));
    acts := [a1] + ([a2] + ([a3] + []));
  }

  /** Jobs 0 to n - 1 are accepted, announced and waiting in the channel; no browser yet, and an idle worker. */
  ghost predicate FilledTo(l: Live, n: nat) {
    && l.pubs == map[] && l.handlers == map[] && l.subs == {} && l.q.worker.Idle?
    && |l.q.ch| == n && |l.q.core.queued| == n
    && (forall id :: id in l.q.pcs ==> id < n && l.q.pcs[id] == Sent)
    && (forall id :: id in l.q.core.queued ==> id < n)
  }

  lemma OneMore(cfg: Config, l: Live, n: nat, req: Request) returns (acts: seq<LiveAct>)
    requires FilledTo(l, n) && n < cfg.buffer
    ensures LiveLegal(cfg, l, acts) && FilledTo(LiveAfter(cfg, l, acts), n + 1)
  {
    var a1, a2 := Queue(Append(n, Generate, req)), Queue(Send(n));
    var a3, a4 := PubBegin(Submitter(n)), PubEnd(Submitter(n));
    var l1 := LiveApply(cfg, l, a1);
    var l2 := LiveApply(cfg, l1, a2);
    var l3 := LiveApply(cfg, l2, a3);
    assert l3.pubs == map[Submitter(n) := Ticking({})];
    var l4 := LiveApply(cfg, l3, a4);
    assert l4.pubs == map[] && l4.q == l2.q;
    assert FilledTo(l4, n + 1);
    hide LiveApply, FilledTo;
    LivePrepend(cfg, l3, a4, []);
    LivePrepend(cfg, l2, a3, [a4] + []);
    LivePrepend(cfg, l1, a2, [a3] + ([a4] + []));
    LivePrepend(cfg, l, a1, [a2] + ([a3] + ([a4] + [])));
    acts := [a1] + ([a2] + ([a3] + ([a4] + [])));
  }

  lemma {:induction false} Filled(cfg: Config, n: nat, req: Request) returns (acts: seq<LiveAct>)
    requires n <= cfg.buffer
    ensures LiveLegal(cfg, LIVE_INIT, acts) && FilledTo(LiveAfter(cfg, LIVE_INIT, acts), n)
  {
    if n == 0 {
      acts := [];
    } else {
      var first := Filled(cfg, n - 1, req);
      var l := LiveAfter(cfg, LIVE_INIT, first);
      var next := OneMore(cfg, l, n - 1, req);
      hide *;
      LiveConcat(cfg, LIVE_INIT, first, next);
      acts := first + next;
    }
  }

  /** With the channel full, one more submission is appended and sees it. */
  lemma TurnedAway(cfg: Config, l: Live, req: Request) returns (acts: seq<LiveAct>)
    requires FilledTo(l, cfg.buffer)
    ensures LiveLegal(cfg, l, acts)
    ensures var m := LiveAfter(cfg, l, acts);
            && m.pubs == map[] && m.handlers == map[]
            && m.q.pcs == l.q.pcs[cfg.buffer := SawFull] && m.q.core.queued == l.q.core.queued + [cfg.buffer]
  {
    var n := cfg.buffer;
    var a1, a2 := Queue(Append(n, Generate, req)), Queue(SeeFull(n));
    var l1 := LiveApply(cfg, l, a1);
    var l2 := LiveApply(cfg, l1, a2);
    assert l2.q.pcs == l.q.pcs[n := SawFull];
    hide LiveApply;
    LivePrepend(cfg, l1, a2, []);
    LivePrepend(cfg, l, a1, [a2] + []);
    acts := [a1] + ([a2] + []);
  }

  lemma PhantomEnd(cfg: Config, l: Live, q: seq<Id>, n: nat)
    requires l.pubs == map[] && AtRest(l, 0) && l.handlers[0].snap.queued == q + [n]
    requires l.q.core.queued == q + [n] && n !in q && At(l.q, n, SawFull)
    requires forall id :: id in l.q.pcs && id != n ==> l.q.pcs[id] == Sent
    ensures LiveEnabled(cfg, l, Queue(RollBack(n)))
    ensures var m := LiveApply(cfg, l, Queue(RollBack(n)));
            && Quiet(m) && AtRest(m, 0) && m.handlers[0].snap.queued == q + [n] && m.q.core.queued == q
  {
    RemoveFirstAppend(q, [n], n);
    assert RemoveFirst([n], n) == [] && q + [] == q;
  }

  /**
   * The phantom entry is real, however the queue is configured: a run that ends quiet with a browser showing
   * one job more than the full buffer that waits.
   */
  lemma PhantomStaysShown(cfg: Config, req: Request) returns (acts: seq<LiveAct>)
    ensures LiveLegal(cfg, LIVE_INIT, acts)
    ensures var l := LiveAfter(cfg, LIVE_INIT, acts);
            && Quiet(l) && AtRest(l, 0) && |l.q.core.queued| == cfg.buffer
            && TakeSnapshot(l.handlers[0].snap).queueLen == TakeSnapshot(l.q.core).queueLen + 1
  {
    var n := cfg.buffer;
    var first := Filled(cfg, n, req);
    var l1 := LiveAfter(cfg, LIVE_INIT, first);
    var second := TurnedAway(cfg, l1, req);
    var l2 := LiveAfter(cfg, l1, second);
    var third := Connect(cfg, l2, 0);
    var l3 := LiveAfter(cfg, l2, third);
    assert AtRest(l3, 0) && At(l3.q, n, SawFull);
    PhantomEnd(cfg, l3, l1.q.core.queued, n);
    var a := Queue(RollBack(n));
    hide LiveApply, LiveEnabled, Quiet, LiveLegal, LiveAfter, AtRest;
    LivePrepend(cfg, l3, a, []);
    NoSteps(cfg, LiveApply(cfg, l3, a));
    LiveConcat(cfg, l2, third, [a] + []);
    LiveConcat(cfg, l1, second, third + ([a] + []));
    LiveConcat(cfg, LIVE_INIT, first, second + (third + ([a] + [])));
    acts := first + (second + (third + ([a] + [])));
  }

  lemma NoSteps(cfg: Config, l: Live)
    ensures LiveLegal(cfg, l, []) && LiveAfter(cfg, l, []) == l
  {
  }

  /** So is the gap of a Submit in flight: nothing is pending, owed or rejected, and one job is not shown. */
  lemma AppendNotShown(cfg: Config, req: Request) returns (acts: seq<LiveAct>)
    ensures LiveLegal(cfg, LIVE_INIT, acts)
    ensures var l := LiveAfter(cfg, LIVE_INIT, acts);
            && l.pubs == map[] && AtRest(l, 0) && (forall id :: !At(l.q, id, Rejected))
            && TakeSnapshot(l.handlers[0].snap).queueLen == 0 && TakeSnapshot(l.q.core).queueLen == 1
  {
    var first := Connect(cfg, LIVE_INIT, 0);
    var l := LiveAfter(cfg, LIVE_INIT, first);
    var a := Queue(Append(1, Generate, req));
    var m := LiveApply(cfg, l, a);
    assert (forall id :: !At(m.q, id, Rejected)) && m.q.core.queued == [1] && m.handlers[0].snap.queued == [];
    hide LiveApply, LiveEnabled;
    LivePrepend(cfg, l, a, []);
    LiveConcat(cfg, LIVE_INIT, first, [a] + []);
    acts := first + ([a] + []);
  }

  // ----- delivery -----

  /** A step of some publisher, or a read or receive of handler h. */
  predicate Delivers(a: LiveAct, h: Hid) {
    match a
    case PubBegin(_) | Tick(_, _) | PubEnd(_) => true
    case ReadSnapshot(x) => x == h
    case ReadJobView(x) => x == h
    case Take(x) => x == h
    case _ => false
  }

  ghost predicate AllDeliver(acts: seq<LiveAct>, h: Hid) {
    forall i :: 0 <= i < |acts| ==> Delivers(acts[i], h)
  }

  /** The publishers know whom they still have to reach. */
  ghost predicate Addressed(l: Live) {
    l.subs <= l.handlers.Keys &&
    forall p :: p in l.pubs && l.pubs[p].Ticking? ==> l.pubs[p].remaining <= l.handlers.Keys
  }

  /** m is l with some publishing done: more ticks pending, and nothing else. */
  ghost predicate OnlyTicked(l: Live, m: Live) {
    && m.q == l.q && m.subs == l.subs && m.handlers.Keys == l.handlers.Keys
    && forall h :: h in l.handlers ==>
         m.handlers[h] == l.handlers[h] || m.handlers[h] == l.handlers[h].(pending := true)
  }

  /** A publisher can finish what it owes. */
  lemma OneFinishes(cfg: Config, l: Live, p: Publisher, h: Hid) returns (acts: seq<LiveAct>)
    requires Addressed(l) && p in l.pubs
    ensures LiveLegal(cfg, l, acts) && AllDeliver(acts, h)
    ensures var m := LiveAfter(cfg, l, acts); m.pubs == l.pubs - {p} && OnlyTicked(l, m) && Addressed(m)
    decreases if l.pubs[p].Owes? then 1 else 0
  {
    if l.pubs[p].Owes? {
      var a := PubBegin(p);
      var l1 := LiveApply(cfg, l, a);
      assert l1.pubs - {p} == l.pubs - {p};
      var rest := OneFinishes(cfg, l1, p, h);
      hide LiveApply, LiveEnabled;
      LivePrepend(cfg, l, a, rest);
      acts := [a] + rest;
    } else {
      var ticks := TicksRun(cfg, l, p);
      var l1 := LiveAfter(cfg, l, ticks);
      assert l1.pubs - {p} == l.pubs - {p};
      EndRun(cfg, l, ticks, PubEnd(p));
      acts := ticks + [PubEnd(p)];
      hide LiveLegal, LiveAfter;
    }
  }

  lemma OnlyTickedOn(l: Live, m: Live, n: Live)
    requires OnlyTicked(l, m) && OnlyTicked(m, n)
    ensures OnlyTicked(l, n)
  {
  }

  /** So can all of them. */
  lemma {:induction false} AllFinish(cfg: Config, l: Live, h: Hid) returns (acts: seq<LiveAct>)
    requires Addressed(l)
    ensures LiveLegal(cfg, l, acts) && AllDeliver(acts, h)
    ensures var m := LiveAfter(cfg, l, acts); m.pubs == map[] && OnlyTicked(l, m)
    decreases |l.pubs|
  {
    if l.pubs == map[] {
      acts := [];
    } else {
      var p :| p in l.pubs;
      var first := OneFinishes(cfg, l, p, h);
      var m := LiveAfter(cfg, l, first);
      assert |m.pubs| < |l.pubs| by { Fewer(l.pubs, p); }
      hide LiveLegal, LiveAfter, OnlyTicked, Addressed;
      var rest := AllFinish(cfg, m, h);
      LiveConcat(cfg, l, first, rest);
      OnlyTickedOn(l, m, LiveAfter(cfg, m, rest));
      acts := first + rest;
    }
  }

  lemma Fewer(pubs: map<Publisher, PubPc>, p: Publisher)
    requires p in pubs
    ensures |pubs - {p}| < |pubs|
  {
    assert (pubs - {p}).Keys == pubs.Keys - {p};
  }

  /** How far a handler is from listening with nothing pending. */
  function Distance(x: Handler): nat {
    (if x.pending then 3 else 0) +
    (match x.pc case ReadSnap => 2 case ReadJob => 1 case _ => 0)
  }

  /** With nobody publishing, a handler that is not gone reads what it has to and listens. */
  lemma {:induction false} Reads(cfg: Config, l: Live, h: Hid) returns (acts: seq<LiveAct>)
    requires l.pubs == map[] && h in l.handlers && l.handlers[h].pc != Gone
    ensures LiveLegal(cfg, l, acts) && AllDeliver(acts, h)
    ensures var m := LiveAfter(cfg, l, acts); m.q == l.q && m.pubs == map[] && AtRest(m, h)
    decreases Distance(l.handlers[h])
  {
    var x := l.handlers[h];
    if x.pc == Listening && !x.pending {
      acts := [];
    } else {
      var a := if x.pc == ReadSnap then LiveAct.ReadSnapshot(h)
               else if x.pc == ReadJob then LiveAct.ReadJobView(h) else Take(h);
      var m := LiveApply(cfg, l, a);
      assert LiveEnabled(cfg, l, a) && m.q == l.q && m.pubs == map[] && h in m.handlers && m.handlers[h].pc != Gone;
      assert Distance(m.handlers[h]) < Distance(x) && Delivers(a, h);
      hide LiveApply, LiveEnabled, Distance, Delivers;
      var rest := Reads(cfg, m, h);
      LivePrepend(cfg, l, a, rest);
      acts := [a] + rest;
    }
  }

  /**
   * Delivery: from every reachable state the publishers' steps and the handler's own, and no others, lead to
   * one in which nothing is on its way to the handler and it has read the queue as it stands, up to the
   * submissions nobody announces.
   */
  lemma {:induction false} Delivery(cfg: Config, before: seq<LiveAct>, h: Hid) returns (acts: seq<LiveAct>)
    requires ValidConfig(cfg) && LiveLegal(cfg, LIVE_INIT, before)
    requires var l := LiveAfter(cfg, LIVE_INIT, before); h in l.handlers && l.handlers[h].pc != Gone
    ensures var l := LiveAfter(cfg, LIVE_INIT, before);
            && LiveLegal(cfg, l, acts) && AllDeliver(acts, h)
            && var m := LiveAfter(cfg, l, acts);
            && m.q == l.q && Settled(m, h) && HandlerAt(m, h, Listening)
            && Visible(m.handlers[h].snap, Hidden(l.q)) == Visible(l.q.core, Hidden(l.q))
            && Visible(m.handlers[h].view, Hidden(l.q)) == Visible(l.q.core, Hidden(l.q))
  {
    var l := LiveAfter(cfg, LIVE_INIT, before);
    LiveInvAlways(cfg, before);
    assert Addressed(l);
    hide LiveLegal, LiveAfter, LiveInv, Addressed, Visible, Hidden, Channels;
    var first := AllFinish(cfg, l, h);
    var m := LiveAfter(cfg, l, first);
    var second := Reads(cfg, m, h);
    LiveConcat(cfg, l, first, second);
    acts := first + second;
    LiveConcat(cfg, LIVE_INIT, before, acts);
    NoLostWakeup(cfg, before + acts, h);
  }
}
