/**
 * The live-status protocol: the queue, its publishers and the event-stream handlers as one transition
 * system. A publisher holds the broadcaster's read lock while it ticks the subscribers one by one;
 * subscribing and cancelling need the write lock.
 */
module LiveStatus {
  import opened Wrappers
  import opened Seqs
  import opened Contract
  import opened QueueCore
  import opened QueueProtocol
  import Eta

  type Hid = nat

  datatype Publisher = Submitter(id: Id) | WorkerThread | Monitor

  /** A publisher owes a Publish, or is part-way through one. */
  datatype PubPc = Owes | Ticking(remaining: set<Hid>)

  datatype HandlerPc = ReadSnap | ReadJob | Listening | Gone

  /** pending and closed describe the capacity-1 tick channel; snap and view what the last frame was read from. */
  datatype Handler = Handler(pc: HandlerPc, pending: bool, closed: bool, snap: Core, view: Core)

  datatype Live = Live(q: Sys, pubs: map<Publisher, PubPc>, subs: set<Hid>, handlers: map<Hid, Handler>)

  const LIVE_INIT := Live(INIT, map[], {}, map[])

  datatype LiveAct =
    | Queue(act: Act)
    | MonitorChange
    | PubBegin(p: Publisher)
    | Tick(p: Publisher, h: Hid)
    | PubEnd(p: Publisher)
    | Subscribe(h: Hid)
    | ReadSnapshot(h: Hid)
    | ReadJobView(h: Hid)
    | Take(h: Hid)
    | Cancel(h: Hid)

  predicate HandlerAt(l: Live, h: Hid, pc: HandlerPc) {
    h in l.handlers && l.handlers[h].pc == pc
  }

  predicate NobodyTicks(l: Live) {
    forall p :: p in l.pubs ==> l.pubs[p].Owes?
  }

  /** Each thread finishes its onChange before it goes on. */
  predicate Unobliged(l: Live, a: Act) {
    match a
    case Return(id) => Submitter(id) !in l.pubs
    case Receive | Start | Progress(_, _) | Finish(_, _) | Stop => WorkerThread !in l.pubs
    case _ => true
  }

  predicate LiveEnabled(cfg: Config, l: Live, a: LiveAct) {
    match a
    case Queue(act) => Enabled(cfg, l.q, act) && Unobliged(l, act)
    case MonitorChange => Monitor !in l.pubs
    case PubBegin(p) => p in l.pubs && l.pubs[p].Owes?
    case Tick(p, h) => p in l.pubs && l.pubs[p].Ticking? && h in l.pubs[p].remaining && h in l.handlers
    case PubEnd(p) => p in l.pubs && l.pubs[p] == Ticking({})
    case Subscribe(h) => h !in l.handlers && NobodyTicks(l)
    case ReadSnapshot(h) => HandlerAt(l, h, ReadSnap)
    case ReadJobView(h) => HandlerAt(l, h, ReadJob)
    case Take(h) => HandlerAt(l, h, Listening) && l.handlers[h].pending
    case Cancel(h) => HandlerAt(l, h, Listening) && NobodyTicks(l)
  }

  /** The publishes a queue step leaves owing. */
  function Owed(pubs: map<Publisher, PubPc>, a: Act): map<Publisher, PubPc> {
    match a
    case Send(id) => pubs[Submitter(id) := Owes]
    case Start | Progress(_, _) | Finish(_, _) => pubs[WorkerThread := Owes]
    case _ => pubs
  }

  function LiveApply(cfg: Config, l: Live, a: LiveAct): Live
    requires LiveEnabled(cfg, l, a)
  {
    match a
    case Queue(act) => l.(q := Apply(cfg, l.q, act), pubs := Owed(l.pubs, act))
    case MonitorChange => l.(pubs := l.pubs[Monitor := Owes])
    case PubBegin(p) => l.(pubs := l.pubs[p := Ticking(l.subs)])
    case Tick(p, h) =>
      l.(pubs := l.pubs[p := Ticking(l.pubs[p].remaining - {h})],
         handlers := l.handlers[h := l.handlers[h].(pending := true)])
    case PubEnd(p) => l.(pubs := l.pubs - {p})
    case Subscribe(h) =>
      l.(subs := l.subs + {h},
         handlers := l.handlers[h := Handler(ReadSnap, false, false, EMPTY_CORE, EMPTY_CORE)])
    case ReadSnapshot(h) => l.(handlers := l.handlers[h := l.handlers[h].(pc := ReadJob, snap := l.q.core)])
    case ReadJobView(h) => l.(handlers := l.handlers[h := l.handlers[h].(pc := Listening, view := l.q.core)])
    case Take(h) => l.(handlers := l.handlers[h := l.handlers[h].(pc := ReadSnap, pending := false)])
    case Cancel(h) =>
      if h in l.subs then
        l.(subs := l.subs - {h}, handlers := l.handlers[h := l.handlers[h].(pc := Gone, closed := true)])
      else
        l.(handlers := l.handlers[h := l.handlers[h].(pc := Gone)])
  }

  ghost predicate LiveLegal(cfg: Config, l: Live, acts: seq<LiveAct>)
    decreases |acts|
  {
    acts == [] || (LiveEnabled(cfg, l, acts[0]) && LiveLegal(cfg, LiveApply(cfg, l, acts[0]), acts[1..]))
  }

  ghost function LiveAfter(cfg: Config, l: Live, acts: seq<LiveAct>): Live
    requires LiveLegal(cfg, l, acts)
    decreases |acts|
  {
    if acts == [] then l else LiveAfter(cfg, LiveApply(cfg, l, acts[0]), acts[1..])
  }

  // ----- what freshness means -----

  /** The submissions a reader may see although they were never announced: in flight, or rolled back. */
  ghost function Hidden(s: Sys): set<Id> {
    set id | id in s.pcs && (InFlight(s, id) || At(s, id, Rejected))
  }

  /** The queue state with some submissions left out. */
  ghost function Visible(c: Core, hidden: set<Id>): Core {
    c.(jobs := c.jobs - hidden, queued := Without(c.queued, hidden))
  }

  /** Nothing is on its way to h: no pending tick and no publisher that still has to reach it. */
  ghost predicate Settled(l: Live, h: Hid) {
    && h in l.handlers && !l.handlers[h].pending
    && forall p :: p in l.pubs ==> l.pubs[p].Ticking? && h !in l.pubs[p].remaining
  }

  ghost predicate Same(l: Live, seen: Core) {
    Visible(seen, Hidden(l.q)) == Visible(l.q.core, Hidden(l.q))
  }

  ghost predicate Fresh(l: Live, h: Hid)
    requires h in l.handlers
  {
    && (l.handlers[h].pc == ReadJob || l.handlers[h].pc == Listening ==> Same(l, l.handlers[h].snap))
    && (l.handlers[h].pc == Listening ==> Same(l, l.handlers[h].view))
  }

  ghost predicate AllFresh(l: Live) {
    forall h :: Settled(l, h) ==> Fresh(l, h)
  }

  /** The jobs a queue state shows as waiting are those it lists. */
  ghost predicate ListedWaiting(c: Core) {
    && (forall id :: id in c.queued ==> id in c.jobs)
    && (forall id :: id in c.jobs ==> (c.jobs[id].state == Queued <==> id in c.queued))
  }

  /** As Submit filed it: what a view shows of it has not changed. */
  ghost predicate Untouched(job: JobInfo) {
    job.state == Queued && job.plan == [] && job.err == ""
  }

  /** The submissions in flight are as they were filed. */
  ghost predicate Pristine(s: Sys) {
    forall id :: id in s.core.jobs && InFlight(s, id) ==> Untouched(s.core.jobs[id])
  }

  /** What a handler has seen is consistent: queue in append order, every job submitted, the unsent ones untouched. */
  ghost predicate Known(s: Sys, c: Core) {
    && c.jobs.Keys <= s.pcs.Keys && (forall id :: id in c.queued ==> id in s.pcs)
    && ListedWaiting(c) && Ordered(s.stamp, c.queued)
    && (forall id :: id in c.jobs && !WasSent(s, id) ==> Untouched(c.jobs[id]))
  }

  ghost predicate AllKnown(l: Live) {
    forall h :: h in l.handlers ==> Known(l.q, l.handlers[h].snap) && Known(l.q, l.handlers[h].view)
  }

  /** Subscribed channels are open, closed ones are not subscribed, and ticks go to subscribers only. */
  ghost predicate Channels(l: Live) {
    && (forall h :: h in l.subs <==> h in l.handlers && !l.handlers[h].closed)
    && (forall h :: h in l.handlers ==> (l.handlers[h].closed <==> l.handlers[h].pc == Gone))
    && (forall p :: p in l.pubs && l.pubs[p].Ticking? ==> l.pubs[p].remaining <= l.subs)
  }

  ghost predicate LiveInv(cfg: Config, l: Live) {
    Inv(cfg, l.q) && Pristine(l.q) && Channels(l) && AllKnown(l) && AllFresh(l)
  }

  // ----- every step keeps the invariant -----

  lemma ChannelsKept(cfg: Config, l: Live, a: LiveAct)
    requires Channels(l) && LiveEnabled(cfg, l, a)
    ensures Channels(LiveApply(cfg, l, a))
  {
    hide Apply, Enabled;
  }

  lemma CoreKnown(cfg: Config, s: Sys)
    requires Inv(cfg, s) && Pristine(s)
    ensures Known(s, s.core)
  {
    forall id | id in s.core.jobs || id in s.core.queued ensures id in s.pcs {
      PlacesKnown(cfg, s, id);
    }
    forall id | id in s.core.jobs && !WasSent(s, id) ensures Untouched(s.core.jobs[id]) {
      PlacesKnown(cfg, s, id);
    }
    assert forall id :: id in s.core.jobs ==> MatchesPlace(s.core, id);
    assert Ordered(s.stamp, s.core.queued);
    hide Inv;
  }

  /** Submissions are remembered, keep their tickets, and once sent stay sent. */
  ghost predicate Remembers(s: Sys, t: Sys) {
    && s.pcs.Keys <= t.pcs.Keys
    && (forall id :: id in s.stamp ==> id in t.stamp && t.stamp[id] == s.stamp[id])
    && (forall id :: WasSent(s, id) ==> WasSent(t, id))
  }

  lemma StepRemembers(cfg: Config, s: Sys, a: Act)
    requires Inv(cfg, s) && Enabled(cfg, s, a)
    ensures Remembers(s, Apply(cfg, s, a))
  {
    assert s.pcs.Keys == s.stamp.Keys;
    hide Inv, Enqueue, Withdraw, Begin, Report, End;
  }

  lemma LiveRemembers(cfg: Config, l: Live, a: LiveAct)
    requires Inv(cfg, l.q) && LiveEnabled(cfg, l, a)
    ensures Remembers(l.q, LiveApply(cfg, l, a).q)
  {
    if a.Queue? {
      StepRemembers(cfg, l.q, a.act);
    }
    hide Inv, Apply, Enabled;
  }

  lemma KnownKept(cfg: Config, l: Live, a: LiveAct)
    requires Inv(cfg, l.q) && Pristine(l.q) && AllKnown(l) && LiveEnabled(cfg, l, a)
    ensures AllKnown(LiveApply(cfg, l, a))
  {
    CoreKnown(cfg, l.q);
    LiveRemembers(cfg, l, a);
    var m := LiveApply(cfg, l, a);
    KnownLater(l.q, m.q, l.q.core);
    NothingKnown(m.q);
    hide Inv, LiveApply, LiveEnabled, Known, Remembers, Pristine;
    forall h | h in m.handlers ensures Known(m.q, m.handlers[h].snap) && Known(m.q, m.handlers[h].view) {
      SeenFrom(cfg, l, a, h);
      if h in l.handlers {
        KnownLater(l.q, m.q, l.handlers[h].snap);
        KnownLater(l.q, m.q, l.handlers[h].view);
      }
    }
  }

  /** What a handler has seen after a step is what it had seen before, the present state, or nothing. */
  lemma SeenFrom(cfg: Config, l: Live, a: LiveAct, h: Hid)
    requires LiveEnabled(cfg, l, a) && h in LiveApply(cfg, l, a).handlers
    ensures var x := LiveApply(cfg, l, a).handlers[h];
            && (x.snap == EMPTY_CORE || x.snap == l.q.core || (h in l.handlers && x.snap == l.handlers[h].snap))
            && (x.view == EMPTY_CORE || x.view == l.q.core || (h in l.handlers && x.view == l.handlers[h].view))
  {
    hide Apply, Enabled;
  }

  lemma KnownLater(s: Sys, t: Sys, c: Core)
    requires Remembers(s, t) && Known(s, c)
    ensures Known(t, c)
  {
    hide WasSent, Untouched;
  }

  lemma NothingKnown(s: Sys)
    ensures Known(s, EMPTY_CORE)
  {
  }

  /** The worker's steps touch only its own job, which was sent. */
  lemma WorkerPristine(cfg: Config, s: Sys, a: Act)
    requires Inv(cfg, s) && Pristine(s) && Enabled(cfg, s, a) && (a.Start? || a.Progress? || a.Finish?)
    ensures Pristine(Apply(cfg, s, a))
  {
    var x := s.worker.id;
    WorkerSent(cfg, s);
    OthersKept(cfg, s, a);
    hide Inv, End, Untouched, Begin, Report;
  }

  lemma WorkerSent(cfg: Config, s: Sys)
    requires Inv(cfg, s) && (s.worker.Received? || s.worker.Busy?)
    ensures WasSent(s, s.worker.id)
  {
    FlowApart(s);
    assert s.worker.Received? ==> Line(s)[0] == s.worker.id;
    hide Service, Waiting, Table, NoDup;
  }

  lemma OthersKept(cfg: Config, s: Sys, a: Act)
    requires Enabled(cfg, s, a) && (a.Start? || a.Progress? || a.Finish?)
    ensures var t := Apply(cfg, s, a);
            forall id :: id in t.core.jobs && id != s.worker.id ==>
              id in s.core.jobs && t.core.jobs[id] == s.core.jobs[id]
  {
    if a.Finish? {
      EndFields(s.core, s.worker.id, a.outcome, a.dur, cfg.window, cfg.retain);
    }
    hide End;
  }

  lemma PristineKept(cfg: Config, s: Sys, a: Act)
    requires Inv(cfg, s) && Pristine(s) && Enabled(cfg, s, a)
    ensures Pristine(Apply(cfg, s, a))
  {
    if a.Start? || a.Progress? || a.Finish? {
      WorkerPristine(cfg, s, a);
    } else {
      hide Inv;
    }
  }

  /** The steps that change what a reader may rely on, each of which leaves a publish owing. */
  predicate Loud(a: Act) {
    a.Send? || a.Start? || a.Progress? || a.Finish?
  }

  lemma SameHidden(c: Core, h: set<Id>, k: set<Id>)
    requires forall id :: id in c.jobs || id in c.queued ==> (id in h <==> id in k)
    ensures Visible(c, h) == Visible(c, k)
  {
    WithoutCongruence(c.queued, h, k);
    assert c.jobs - h == c.jobs - k;
  }

  lemma AppendInvisible(s: Sys, id: Id, kind: Kind, req: Request, hidden: set<Id>)
    requires id in hidden
    ensures Visible(Enqueue(s.core, id, kind, req), hidden) == Visible(s.core, hidden)
  {
    WithoutAppend(s.core.queued, [id], hidden);
    assert Without([id], hidden) == [];
    assert Without(s.core.queued, hidden) + [] == Without(s.core.queued, hidden);
    assert s.core.jobs[id := NewJob(kind, req)] - hidden == s.core.jobs - hidden;
  }

  lemma RollBackInvisible(s: Sys, id: Id, hidden: set<Id>)
    requires id in hidden
    ensures Visible(Withdraw(s.core, id), hidden) == Visible(s.core, hidden)
  {
    WithoutRemoved(s.core.queued, id, hidden);
    assert (s.core.jobs - {id}) - hidden == s.core.jobs - hidden;
  }

  lemma HiddenStep(cfg: Config, s: Sys, a: Act)
    requires Enabled(cfg, s, a) && !Loud(a)
    ensures Hidden(Apply(cfg, s, a)) == if a.Append? then Hidden(s) + {a.id} else Hidden(s)
  {
    hide Enqueue, Withdraw;
    var t := Apply(cfg, s, a);
    assert forall id :: id in Hidden(t) <==> id in Hidden(s) || (a.Append? && id == a.id);
  }

  /** A quiet step changes neither what is visible now nor what was visible to an earlier reader. */
  lemma QuietStep(cfg: Config, s: Sys, a: Act, seen: Core)
    requires Inv(cfg, s) && Pristine(s) && Enabled(cfg, s, a) && !Loud(a) && Known(s, seen)
    ensures var t := Apply(cfg, s, a);
            && Visible(t.core, Hidden(t)) == Visible(s.core, Hidden(s))
            && Visible(seen, Hidden(t)) == Visible(seen, Hidden(s))
  {
    HiddenStep(cfg, s, a);
    CoreKnown(cfg, s);
    hide Inv, Visible, Hidden, Enqueue, Withdraw;
    var t := Apply(cfg, s, a);
    match a
    case Append(id, kind, req) =>
      SameHidden(seen, Hidden(t), Hidden(s));
      SameHidden(s.core, Hidden(t), Hidden(s));
      AppendInvisible(s, id, kind, req, Hidden(t));
    case RollBack(id) =>
      assert id in Hidden(s) by { RolledBackHidden(s, id); }
      RollBackInvisible(s, id, Hidden(s));
    case _ =>
  }

  lemma RolledBackHidden(s: Sys, id: Id)
    requires At(s, id, SawFull)
    ensures id in Hidden(s)
  {
  }

  lemma LoudFresh(cfg: Config, l: Live, a: Act)
    requires LiveEnabled(cfg, l, Queue(a)) && Loud(a)
    ensures AllFresh(LiveApply(cfg, l, Queue(a)))
  {
    hide Apply, Enabled, Fresh;
    var m := LiveApply(cfg, l, Queue(a));
    var p := if a.Send? then Submitter(a.id) else WorkerThread;
    assert p in m.pubs && m.pubs[p] == Owes;
  }

  lemma QueueFresh(cfg: Config, l: Live, a: Act)
    requires Inv(cfg, l.q) && Pristine(l.q) && AllKnown(l) && AllFresh(l) && LiveEnabled(cfg, l, Queue(a))
    ensures AllFresh(LiveApply(cfg, l, Queue(a)))
  {
    hide Inv, Pristine, Visible, Hidden, Known, Apply, Enabled;
    if Loud(a) {
      LoudFresh(cfg, l, a);
    } else {
      var m := LiveApply(cfg, l, Queue(a));
      forall h | Settled(m, h) ensures Fresh(m, h) {
        assert Settled(l, h) && Fresh(l, h);
        QuietStep(cfg, l.q, a, l.handlers[h].snap);
        QuietStep(cfg, l.q, a, l.handlers[h].view);
      }
    }
  }

  lemma PublishFresh(cfg: Config, l: Live, a: LiveAct)
    requires Channels(l) && AllFresh(l) && LiveEnabled(cfg, l, a)
    requires a.MonitorChange? || a.PubBegin? || a.Tick? || a.PubEnd?
    ensures AllFresh(LiveApply(cfg, l, a))
  {
    hide Same;
    var m := LiveApply(cfg, l, a);
    match a
    case MonitorChange => assert m.pubs[Monitor] == Owes;
    case PubBegin(p) =>
      forall h | Settled(m, h) ensures Fresh(m, h) {
        assert m.pubs[p] == Ticking(l.subs);
      }
    case Tick(p, x) =>
      forall h | Settled(m, h) ensures Fresh(m, h) {
        assert h != x;
        assert forall r :: r in l.pubs ==> r in m.pubs && (r != p ==> m.pubs[r] == l.pubs[r]);
        assert m.pubs[p].remaining == l.pubs[p].remaining - {x};
        assert Settled(l, h) && Fresh(l, h);
        SameQueue(l, m);
      }
    case PubEnd(p) =>
      forall h | Settled(m, h) ensures Fresh(m, h) {
        assert forall r :: r in l.pubs && r != p ==> r in m.pubs && m.pubs[r] == l.pubs[r];
        assert l.pubs[p].remaining == {};
        assert Settled(l, h) && Fresh(l, h);
        SameQueue(l, m);
      }
  }

  lemma SameQueue(l: Live, m: Live)
    requires l.q == m.q
    ensures forall c :: Same(l, c) <==> Same(m, c)
  {
  }

  lemma HandlerFresh(cfg: Config, l: Live, a: LiveAct)
    requires AllFresh(l) && LiveEnabled(cfg, l, a)
    requires a.Subscribe? || a.ReadSnapshot? || a.ReadJobView? || a.Take? || a.Cancel?
    ensures AllFresh(LiveApply(cfg, l, a))
  {
    var m := LiveApply(cfg, l, a);
    SameQueue(l, m);
    assert Same(l, l.q.core);
    hide Same;
    forall h | Settled(m, h) ensures Fresh(m, h) {
      if h != a.h || a.ReadJobView? {
        assert Settled(l, h) && Fresh(l, h);
      }
    }
  }

  lemma LiveStepKeeps(cfg: Config, l: Live, a: LiveAct)
    requires LiveInv(cfg, l) && LiveEnabled(cfg, l, a)
    ensures LiveInv(cfg, LiveApply(cfg, l, a))
  {
    hide Inv, Pristine, Channels, AllKnown, AllFresh;
    ChannelsKept(cfg, l, a);
    KnownKept(cfg, l, a);
    match a
    case Queue(act) =>
      StepKeeps(cfg, l.q, act);
      PristineKept(cfg, l.q, act);
      QueueFresh(cfg, l, act);
    case MonitorChange | PubBegin(_) | Tick(_, _) | PubEnd(_) => PublishFresh(cfg, l, a);
    case _ => HandlerFresh(cfg, l, a);
  }

  lemma {:induction false} LiveRunKeeps(cfg: Config, l: Live, acts: seq<LiveAct>)
    requires LiveInv(cfg, l) && LiveLegal(cfg, l, acts)
    ensures LiveInv(cfg, LiveAfter(cfg, l, acts))
    decreases |acts|
  {
    hide LiveInv;
    if acts != [] {
      LiveStepKeeps(cfg, l, acts[0]);
      LiveRunKeeps(cfg, LiveApply(cfg, l, acts[0]), acts[1..]);
    }
  }

  lemma LiveInitHolds(cfg: Config)
    requires ValidConfig(cfg)
    ensures LiveInv(cfg, LIVE_INIT)
  {
    InitHolds(cfg);
    hide Inv;
  }

  lemma {:induction false} LiveInvAlways(cfg: Config, acts: seq<LiveAct>)
    requires ValidConfig(cfg) && LiveLegal(cfg, LIVE_INIT, acts)
    ensures LiveInv(cfg, LiveAfter(cfg, LIVE_INIT, acts))
  {
    hide *;
    LiveInitHolds(cfg);
    LiveRunKeeps(cfg, LIVE_INIT, acts);
  }

  // ----- no lost wake-up -----

  /**
   * No lost wake-up. In every run of any publishers and handlers, once nothing is on its way to a listening
   * handler, what both halves of its last frame were read from is the present queue state, up to the
   * submissions nobody announces: those in flight and those turned away. Other publishers may be at work.
   */
  lemma {:induction false} NoLostWakeup(cfg: Config, acts: seq<LiveAct>, h: Hid)
    requires ValidConfig(cfg) && LiveLegal(cfg, LIVE_INIT, acts)
    requires var l := LiveAfter(cfg, LIVE_INIT, acts); Settled(l, h) && HandlerAt(l, h, Listening)
    ensures var l := LiveAfter(cfg, LIVE_INIT, acts);
            && Visible(l.handlers[h].snap, Hidden(l.q)) == Visible(l.q.core, Hidden(l.q))
            && Visible(l.handlers[h].view, Hidden(l.q)) == Visible(l.q.core, Hidden(l.q))
  {
    LiveInvAlways(cfg, acts);
    hide Inv, Pristine, Channels, AllKnown, Visible, Hidden, LiveLegal, LiveAfter, Settled;
    assert Fresh(LiveAfter(cfg, LIVE_INIT, acts), h);
  }

  /**
   * The unannounced entries are the only thing that can be stale: the global status such a browser shows is
   * the true one exactly when its snapshot's queue held as many of them as the queue does now.
   */
  lemma {:induction false} SnapshotFreshExactly(cfg: Config, acts: seq<LiveAct>, h: Hid)
    requires ValidConfig(cfg) && LiveLegal(cfg, LIVE_INIT, acts)
    requires var l := LiveAfter(cfg, LIVE_INIT, acts); Settled(l, h) && HandlerAt(l, h, Listening)
    ensures var l := LiveAfter(cfg, LIVE_INIT, acts);
            TakeSnapshot(l.handlers[h].snap) == TakeSnapshot(l.q.core)
            <==> CountIn(l.handlers[h].snap.queued, Hidden(l.q)) == CountIn(l.q.core.queued, Hidden(l.q))
  {
    NoLostWakeup(cfg, acts, h);
    hide LiveLegal, LiveAfter, Hidden, Settled, HandlerAt, Without, CountIn;
  }

  /** The hidden entries that stand before id in a queue. */
  function HiddenAhead(q: seq<Id>, hidden: set<Id>, id: Id): nat
    requires id in q
  {
    CountIn(q[..IndexOf(q, id)], hidden)
  }

  /** The elements of q with a ticket below k. */
  ghost function Earlier(q: seq<Id>, stamp: map<Id, nat>, k: nat): seq<Id> {
    if q == [] then []
    else (if q[0] in stamp && stamp[q[0]] < k then [q[0]] else []) + Earlier(q[1..], stamp, k)
  }

  lemma {:induction false} NoneEarlier(q: seq<Id>, stamp: map<Id, nat>, k: nat)
    requires forall x :: x in q ==> x in stamp && stamp[x] >= k
    ensures Earlier(q, stamp, k) == []
  {
    if q != [] {
      NoneEarlier(q[1..], stamp, k);
    }
  }

  lemma EarlierCons(x: Id, q: seq<Id>, stamp: map<Id, nat>, k: nat)
    requires x in stamp && stamp[x] < k
    ensures Earlier([x] + q, stamp, k) == [x] + Earlier(q, stamp, k)
  {
    assert ([x] + q)[1..] == q;
  }

  lemma OrderedHead(stamp: map<Id, nat>, q: seq<Id>)
    requires Ordered(stamp, q) && q != []
    ensures Ordered(stamp, q[1..])
    ensures forall y :: y in q ==> y in stamp && stamp[q[0]] <= stamp[y] && (y != q[0] ==> stamp[q[0]] < stamp[y])
  {
  }

  /** In a queue kept in append order, the visible entries ahead of id are the visible ones appended earlier. */
  lemma {:induction false} VisibleAhead(q: seq<Id>, stamp: map<Id, nat>, hidden: set<Id>, id: Id)
    requires Ordered(stamp, q) && id in q
    ensures Without(q[..IndexOf(q, id)], hidden) == Earlier(Without(q, hidden), stamp, stamp[id])
  {
    OrderedHead(stamp, q);
    IndexOfTail(q, id);
    hide Without, Earlier, Ordered, IndexOf;
    var x, rest := q[0], q[1..];
    if x == id {
      NoneEarlier(Without(q, hidden), stamp, stamp[id]);
      NothingAhead(q, hidden);
    } else {
      VisibleAhead(rest, stamp, hidden, id);
      VisibleStep(x, rest[..IndexOf(rest, id)], rest, stamp, hidden, stamp[id]);
      assert q == [x] + rest;
    }
  }

  lemma NothingAhead(q: seq<Id>, hidden: set<Id>)
    ensures Without(q[..0], hidden) == []
  {
  }

  lemma VisibleStep(x: Id, ahead: seq<Id>, rest: seq<Id>, stamp: map<Id, nat>, hidden: set<Id>, k: nat)
    requires x in stamp && stamp[x] < k
    requires Without(ahead, hidden) == Earlier(Without(rest, hidden), stamp, k)
    ensures Without([x] + ahead, hidden) == Earlier(Without([x] + rest, hidden), stamp, k)
  {
    hide *;
    WithoutCons(x, ahead, hidden);
    WithoutCons(x, rest, hidden);
    EarlierCons(x, Without(rest, hidden), stamp, k);
    assert [] + Without(ahead, hidden) == Without(ahead, hidden);
    assert [] + Without(rest, hidden) == Without(rest, hidden);
  }

  /** Queues in append order with the same visible entries place id alike when as many hidden ones precede it. */
  lemma PlacesAgree(p: seq<Id>, q: seq<Id>, stamp: map<Id, nat>, hidden: set<Id>, id: Id)
    requires Ordered(stamp, p) && Ordered(stamp, q) && id in p && id in q && Without(p, hidden) == Without(q, hidden)
    ensures IndexOf(p, id) == IndexOf(q, id) <==> HiddenAhead(p, hidden, id) == HiddenAhead(q, hidden, id)
  {
    VisibleAhead(p, stamp, hidden, id);
    VisibleAhead(q, stamp, hidden, id);
    hide Without, CountIn, Earlier, Ordered;
  }

  /** Both states show id in the same way, or neither shows it. */
  ghost predicate ShownAlike(seen: Core, c: Core, hidden: set<Id>, id: Id) {
    && (id in seen.jobs <==> id in c.jobs)
    && (id in seen.queued && id in c.queued ==>
          HiddenAhead(seen.queued, hidden, id) == HiddenAhead(c.queued, hidden, id))
  }

  lemma ViewsAgree(seen: Core, c: Core, id: Id)
    requires seen.samples == c.samples && seen.running == c.running && id in seen.jobs && id in c.jobs
    requires seen.jobs[id].state == c.jobs[id].state
             && seen.jobs[id].plan == c.jobs[id].plan && seen.jobs[id].err == c.jobs[id].err
    ensures ViewJob(seen, id) == ViewJob(c, id)
            <==> (seen.jobs[id].state == Queued ==> IndexOf(seen.queued, id) == IndexOf(c.queued, id))
  {
    hide Eta.Mean;
  }

  lemma SameEntry(s: Sys, seen: Core, hidden: set<Id>, id: Id)
    requires Known(s, seen) && Known(s, s.core) && seen.jobs - hidden == s.core.jobs - hidden
    requires id in hidden ==> !WasSent(s, id)
    requires id in seen.jobs && id in s.core.jobs
    ensures var p, q := seen.jobs[id], s.core.jobs[id]; p.state == q.state && p.plan == q.plan && p.err == q.err
    ensures id in seen.queued <==> seen.jobs[id].state == Queued
    ensures id in s.core.queued <==> s.core.jobs[id].state == Queued
  {
    if id !in hidden {
      assert (seen.jobs - hidden)[id] == (s.core.jobs - hidden)[id];
    }
    hide WasSent, Ordered;
  }

  lemma JobViewSame(s: Sys, seen: Core, hidden: set<Id>, id: Id)
    requires Known(s, seen) && Known(s, s.core) && Visible(seen, hidden) == Visible(s.core, hidden)
    requires id in hidden ==> !WasSent(s, id)
    ensures ViewJob(seen, id) == ViewJob(s.core, id) <==> ShownAlike(seen, s.core, hidden, id)
  {
    var c := s.core;
    SeenFields(seen, c, hidden);
    if id in seen.jobs && id in c.jobs {
      SameEntry(s, seen, hidden, id);
      ViewsAgree(seen, c, id);
      assert Ordered(s.stamp, seen.queued) && Ordered(s.stamp, c.queued);
      hide Known, Visible, Ordered, ViewJob, HiddenAhead, Without;
      if id in c.queued {
        PlacesAgree(seen.queued, c.queued, s.stamp, hidden, id);
      }
    } else {
      assert id in seen.queued ==> id in seen.jobs;
      assert id in c.queued ==> id in c.jobs;
      hide Known, Visible, HiddenAhead, WasSent, Eta.Mean;
    }
  }

  lemma SeenFields(seen: Core, c: Core, hidden: set<Id>)
    requires Visible(seen, hidden) == Visible(c, hidden)
    ensures seen.samples == c.samples && seen.running == c.running
    ensures seen.jobs - hidden == c.jobs - hidden && Without(seen.queued, hidden) == Without(c.queued, hidden)
  {
    hide Without;
  }

  /**
   * Likewise for the status of any job: it is the true one exactly when the job is in both states or in
   * neither and, while it waits, as many unannounced submissions stood ahead of it as stand there now.
   */
  lemma {:induction false} JobViewFreshExactly(cfg: Config, acts: seq<LiveAct>, h: Hid, id: Id)
    requires ValidConfig(cfg) && LiveLegal(cfg, LIVE_INIT, acts)
    requires var l := LiveAfter(cfg, LIVE_INIT, acts); Settled(l, h) && HandlerAt(l, h, Listening)
    ensures var l := LiveAfter(cfg, LIVE_INIT, acts);
            ViewJob(l.handlers[h].view, id) == ViewJob(l.q.core, id)
            <==> ShownAlike(l.handlers[h].view, l.q.core, Hidden(l.q), id)
  {
    NoLostWakeup(cfg, acts, h);
    LiveInvAlways(cfg, acts);
    var l := LiveAfter(cfg, LIVE_INIT, acts);
    CoreKnown(cfg, l.q);
    HiddenUnsent(l.q, id);
    hide Inv, Pristine, LiveLegal, LiveAfter, Channels, AllFresh, Settled,
         Visible, ViewJob, ShownAlike, Known, Hidden, WasSent;
    JobViewSame(l.q, l.handlers[h].view, Hidden(l.q), id);
  }

  lemma HiddenUnsent(s: Sys, id: Id)
    ensures id in Hidden(s) ==> !WasSent(s, id)
  {
  }

  // ----- once the queue is quiet -----

  /** Nobody owes or sends a tick and no Submit is in flight. */
  ghost predicate Quiet(l: Live) {
    l.pubs == map[] && forall id :: id in l.q.pcs ==> !InFlight(l.q, id)
  }

  ghost predicate AtRest(l: Live, h: Hid) {
    HandlerAt(l, h, Listening) && !l.handlers[h].pending
  }

  lemma QuietHidden(cfg: Config, l: Live)
    requires Inv(cfg, l.q) && Quiet(l)
    ensures forall id :: id in Hidden(l.q) <==> At(l.q, id, Rejected)
    ensures forall id :: id in l.q.core.jobs || id in l.q.core.queued ==> id !in Hidden(l.q)
  {
    var s := l.q;
    forall id | id in s.core.jobs || id in s.core.queued ensures id !in Hidden(s) {
      PlacesKnown(cfg, s, id);
    }
  }

  /** Then only a rejected submission can be shown that is not there. */
  lemma {:induction false} QuietSnapshot(cfg: Config, acts: seq<LiveAct>, h: Hid)
    requires ValidConfig(cfg) && LiveLegal(cfg, LIVE_INIT, acts)
    requires var l := LiveAfter(cfg, LIVE_INIT, acts); Quiet(l) && AtRest(l, h)
    ensures var l := LiveAfter(cfg, LIVE_INIT, acts);
            TakeSnapshot(l.handlers[h].snap) == TakeSnapshot(l.q.core)
            <==> forall id :: id in l.handlers[h].snap.queued ==> !At(l.q, id, Rejected)
  {
    QuietFacts(cfg, acts, h);
    SnapshotFreshExactly(cfg, acts, h);
    hide *;
  }

  /** And a submitter's own status is wrong only if the job was rejected or a rejected one was shown ahead of it. */
  lemma {:induction false} QuietJobView(cfg: Config, acts: seq<LiveAct>, h: Hid, id: Id)
    requires ValidConfig(cfg) && LiveLegal(cfg, LIVE_INIT, acts)
    requires var l := LiveAfter(cfg, LIVE_INIT, acts); Quiet(l) && AtRest(l, h) && id in l.handlers[h].view.jobs
    ensures var l := LiveAfter(cfg, LIVE_INIT, acts);
            var seen := l.handlers[h].view;
            ViewJob(seen, id) == ViewJob(l.q.core, id)
            <==> !At(l.q, id, Rejected) &&
                 (id in seen.queued ==>
                    forall j :: 0 <= j < IndexOf(seen.queued, id) ==> !At(l.q, seen.queued[j], Rejected))
  {
    hide *;
    QuietFacts(cfg, acts, h);
    var l := LiveAfter(cfg, LIVE_INIT, acts);
    JobViewFreshExactly(cfg, acts, h, id);
    QuietAlike(l.q, l.handlers[h].view, Hidden(l.q), id);
  }

  lemma {:induction false} QuietFacts(cfg: Config, acts: seq<LiveAct>, h: Hid)
    requires ValidConfig(cfg) && LiveLegal(cfg, LIVE_INIT, acts)
    requires var l := LiveAfter(cfg, LIVE_INIT, acts); Quiet(l) && AtRest(l, h)
    ensures var l := LiveAfter(cfg, LIVE_INIT, acts);
            && h in l.handlers && Settled(l, h) && HandlerAt(l, h, Listening)
            && Known(l.q, l.handlers[h].view) && Known(l.q, l.q.core)
            && Visible(l.handlers[h].view, Hidden(l.q)) == Visible(l.q.core, Hidden(l.q))
            && (forall id :: id in Hidden(l.q) <==> At(l.q, id, Rejected))
            && (forall id :: id in l.q.core.jobs || id in l.q.core.queued ==> id !in Hidden(l.q))
  {
    LiveInvAlways(cfg, acts);
    var l := LiveAfter(cfg, LIVE_INIT, acts);
    QuietHidden(cfg, l);
    CoreKnown(cfg, l.q);
    assert Settled(l, h);
    hide Inv, Pristine, LiveLegal, LiveAfter, Hidden, Known, Settled, Visible, Quiet, Channels, AllFresh;
    NoLostWakeup(cfg, acts, h);
  }

  lemma QuietAlike(s: Sys, seen: Core, hidden: set<Id>, id: Id)
    requires Known(s, seen) && Known(s, s.core) && Visible(seen, hidden) == Visible(s.core, hidden) && id in seen.jobs
    requires forall x :: x in s.core.jobs || x in s.core.queued ==> x !in hidden
    ensures ShownAlike(seen, s.core, hidden, id)
            <==> id !in hidden &&
                 (id in seen.queued ==> forall j :: 0 <= j < IndexOf(seen.queued, id) ==> seen.queued[j] !in hidden)
  {
    var c := s.core;
    SeenFields(seen, c, hidden);
    assert id !in hidden ==> id in seen.jobs - hidden;
    assert id in seen.queued && id !in hidden ==> id in Without(seen.queued, hidden) && id in c.queued;
    if id in seen.queued {
      AheadHidden(seen.queued, hidden, id);
    }
    if id in c.queued {
      AheadHidden(c.queued, hidden, id);
    }
    hide Without, Known, Visible, HiddenAhead;
  }

  lemma AheadHidden(q: seq<Id>, hidden: set<Id>, id: Id)
    requires id in q
    ensures HiddenAhead(q, hidden, id) == 0 <==> forall j :: 0 <= j < IndexOf(q, id) ==> q[j] !in hidden
  {
    var ahead := q[..IndexOf(q, id)];
    assert forall j :: 0 <= j < |ahead| ==> ahead[j] in ahead && ahead[j] == q[j];
    hide CountIn;
  }

  // ----- channel safety -----

  /** A tick always goes to an open, subscribed channel, and cancelling closes a channel still open. */
  lemma {:induction false} ChannelSafety(cfg: Config, acts: seq<LiveAct>, a: LiveAct)
    requires ValidConfig(cfg) && LiveLegal(cfg, LIVE_INIT, acts)
    requires LiveEnabled(cfg, LiveAfter(cfg, LIVE_INIT, acts), a)
    ensures var l := LiveAfter(cfg, LIVE_INIT, acts);
            && (a.Tick? ==> a.h in l.subs && !l.handlers[a.h].closed)
            && (a.Cancel? ==> a.h in l.subs && !l.handlers[a.h].closed)
            && (a.Take? ==> !l.handlers[a.h].closed)
  {
    LiveInvAlways(cfg, acts);
    var l := LiveAfter(cfg, LIVE_INIT, acts);
    assert Channels(l);
    hide *;
    SafeStep(cfg, l, a);
  }

  lemma SafeStep(cfg: Config, l: Live, a: LiveAct)
    requires Channels(l) && LiveEnabled(cfg, l, a)
    ensures a.Tick? || a.Cancel? ==> a.h in l.subs
    ensures a.Tick? || a.Cancel? || a.Take? ==> a.h in l.handlers && !l.handlers[a.h].closed
  {
    hide Enabled;
  }

  // ----- putting runs together -----

  lemma {:induction false} LivePrepend(cfg: Config, l: Live, a: LiveAct, rest: seq<LiveAct>)
    requires LiveEnabled(cfg, l, a) && LiveLegal(cfg, LiveApply(cfg, l, a), rest)
    ensures LiveLegal(cfg, l, [a] + rest)
    ensures LiveAfter(cfg, l, [a] + rest) == LiveAfter(cfg, LiveApply(cfg, l, a), rest)
  {
    hide LiveEnabled, LiveApply;
    assert ([a] + rest)[1..] == rest;
  }

  lemma {:induction false} LiveConcat(cfg: Config, l: Live, a: seq<LiveAct>, b: seq<LiveAct>)
    requires LiveLegal(cfg, l, a) && LiveLegal(cfg, LiveAfter(cfg, l, a), b)
    ensures LiveLegal(cfg, l, a + b) && LiveAfter(cfg, l, a + b) == LiveAfter(cfg, LiveAfter(cfg, l, a), b)
    decreases |a|
  {
    hide LiveEnabled, LiveApply;
    if a == [] {
      assert a + b == b;
    } else {
      LiveConcat(cfg, LiveApply(cfg, l, a[0]), a[1..], b);
      assert (a + b)[1..] == a[1..] + b;
    }
  }
}
