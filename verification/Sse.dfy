/** The tick broadcaster: one capacity-1 channel per subscriber, filled without blocking. */
module Sse {
  import opened QueueProtocol
  import opened LiveStatus

  /** A Go channel of capacity 1: it may hold one pending tick, and may be closed once. */
  class TickChan {
    var pending: bool
    var closed: bool

    constructor ()
      ensures !pending && !closed
    {
      pending, closed := false, false;
    }

    /** A select with a default: a second tick is dropped. Sending on a closed channel would panic. */
    method TrySend()
      requires !closed
      modifies this`pending
      ensures pending
    {
      if !pending {
        pending := true;
      }
    }

    /** Closing a closed channel would panic. */
    method Close()
      requires !closed
      modifies this`closed
      ensures closed
    {
      closed := true;
    }

    /** A receive, which blocks unless a tick is pending or the channel is closed. */
    method Receive() returns (open: bool)
      requires pending || closed
      modifies this`pending
      ensures open == old(pending) && !pending
    {
      open := pending;
      pending := false;
    }
  }

  class Broadcaster {
    var subs: set<TickChan>

    /** Every subscribed channel is open. */
    ghost predicate Valid()
      reads this, subs
    {
      forall ch :: ch in subs ==> !ch.closed
    }

    constructor ()
      ensures Valid() && subs == {}
    {
      subs := {};
    }

    method Subscribe() returns (ch: TickChan)
      requires Valid()
      modifies this
      ensures Valid() && fresh(ch) && subs == old(subs) + {ch}
      ensures !ch.pending && !ch.closed
    {
      ch := new TickChan();
      subs := subs + {ch};
    }

    /** The cancel function of ch: it may be called again, and closes the channel the first time only. */
    method Cancel(ch: TickChan)
      requires Valid()
      modifies this, ch`closed
      ensures Valid() && subs == old(subs) - {ch}
      ensures ch.closed == (old(ch.closed) || ch in old(subs))
      ensures ch !in old(subs) ==> ch.closed == old(ch.closed) && subs == old(subs)
    {
      if ch in subs {
        subs := subs - {ch};
        ch.Close();
      }
    }

    /** Every subscriber has a tick pending afterwards; nobody else's channel is touched, and none is closed. */
    method Publish()
      requires Valid()
      modifies subs`pending
      ensures Valid() && subs == old(subs)
      ensures forall ch :: ch in subs ==> ch.pending
    {
      var left := subs;
      while left != {}
        invariant left <= subs
        invariant forall ch :: ch in subs - left ==> ch.pending
        decreases |left|
      {
        var ch :| ch in left;
        ch.TrySend();
        left := left - {ch};
      }
    }
  }

  // ----- Publish and the protocol's steps -----

  /** What Publish does to the subscribers' channels, on the handlers of the protocol. */
  function Ticked(handlers: map<Hid, Handler>, hs: set<Hid>): map<Hid, Handler> {
    map h | h in handlers :: if h in hs then handlers[h].(pending := true) else handlers[h]
  }

  lemma {:induction false} TicksRun(cfg: Config, l: Live, p: Publisher) returns (acts: seq<LiveAct>)
    requires p in l.pubs && l.pubs[p].Ticking? && l.pubs[p].remaining <= l.handlers.Keys
    ensures LiveLegal(cfg, l, acts) && forall i :: 0 <= i < |acts| ==> acts[i].Tick?
    ensures LiveAfter(cfg, l, acts)
            == l.(pubs := l.pubs[p := Ticking({})], handlers := Ticked(l.handlers, l.pubs[p].remaining))
    decreases |l.pubs[p].remaining|
  {
    var left := l.pubs[p].remaining;
    if left == {} {
      acts := [];
      NothingTicked(l, p);
    } else {
      var h :| h in left;
      var a := Tick(p, h);
      OneTicked(cfg, l, p, h);
      hide LiveEnabled, LiveApply, Ticked;
      var m := LiveApply(cfg, l, a);
      var rest := TicksRun(cfg, m, p);
      LivePrepend(cfg, l, a, rest);
      acts := [a] + rest;
    }
  }

  lemma NothingTicked(l: Live, p: Publisher)
    requires p in l.pubs && l.pubs[p] == Ticking({})
    ensures l == l.(pubs := l.pubs[p := Ticking({})], handlers := Ticked(l.handlers, {}))
  {
    assert Ticked(l.handlers, {}) == l.handlers && l.pubs[p := Ticking({})] == l.pubs;
  }

  /** One tick, and what is left to do. */
  lemma OneTicked(cfg: Config, l: Live, p: Publisher, h: Hid)
    requires p in l.pubs && l.pubs[p].Ticking? && l.pubs[p].remaining <= l.handlers.Keys && h in l.pubs[p].remaining
    ensures LiveEnabled(cfg, l, Tick(p, h))
    ensures var m := LiveApply(cfg, l, Tick(p, h));
            var left := l.pubs[p].remaining;
            && p in m.pubs && m.pubs[p] == Ticking(left - {h}) && m.handlers.Keys == l.handlers.Keys
            && m.(pubs := m.pubs[p := Ticking({})], handlers := Ticked(m.handlers, left - {h}))
               == l.(pubs := l.pubs[p := Ticking({})], handlers := Ticked(l.handlers, left))
  {
    var m := LiveApply(cfg, l, Tick(p, h));
    var left := l.pubs[p].remaining;
    assert Ticked(m.handlers, left - {h}) == Ticked(l.handlers, left);
    assert m.pubs[p := Ticking({})] == l.pubs[p := Ticking({})];
  }

  /** One undisturbed Publish is a run of the protocol that ticks every subscriber and nobody else. */
  lemma PublishIsARun(cfg: Config, l: Live, p: Publisher) returns (acts: seq<LiveAct>)
    requires p in l.pubs && l.pubs[p].Owes? && Channels(l)
    ensures LiveLegal(cfg, l, acts)
    ensures LiveAfter(cfg, l, acts) == l.(pubs := l.pubs - {p}, handlers := Ticked(l.handlers, l.subs))
  {
    var m := LiveApply(cfg, l, PubBegin(p));
    var ticks := TicksRun(cfg, m, p);
    var n := LiveAfter(cfg, m, ticks);
    EndRun(cfg, m, ticks, PubEnd(p));
    acts := [PubBegin(p)] + (ticks + [PubEnd(p)]);
    assert acts[1..] == ticks + [PubEnd(p)];
    assert n.pubs - {p} == l.pubs - {p};
  }

  lemma {:induction false} EndRun(cfg: Config, l: Live, acts: seq<LiveAct>, a: LiveAct)
    requires LiveLegal(cfg, l, acts) && LiveEnabled(cfg, LiveAfter(cfg, l, acts), a)
    ensures LiveLegal(cfg, l, acts + [a])
    ensures LiveAfter(cfg, l, acts + [a]) == LiveApply(cfg, LiveAfter(cfg, l, acts), a)
    decreases |acts|
  {
    hide LiveEnabled, LiveApply;
    if acts == [] {
      assert [] + [a] == [a] && [a][1..] == [];
      assert LiveLegal(cfg, LiveApply(cfg, l, a), []);
    } else {
      assert (acts + [a])[1..] == acts[1..] + [a];
      EndRun(cfg, LiveApply(cfg, l, acts[0]), acts[1..], a);
    }
  }

  // ----- the class does what the protocol's steps say -----

  /** The handlers' channels, by handler: chans is injective, and the broadcaster holds those of the subscribers. */
  ghost predicate Represents(b: Broadcaster, l: Live, chans: map<Hid, TickChan>)
    reads b, chans.Values
  {
    && chans.Keys == l.handlers.Keys && l.subs <= chans.Keys
    && (forall h, k :: h in chans && k in chans && h != k ==> chans[h] != chans[k])
    && (forall h :: h in chans ==> chans[h].pending == l.handlers[h].pending && chans[h].closed == l.handlers[h].closed)
    && b.subs == (set h | h in l.subs :: chans[h])
  }

  /** Every subscribed channel is open because the protocol's channels are. */
  lemma OpenChannels(b: Broadcaster, l: Live, chans: map<Hid, TickChan>)
    requires Represents(b, l, chans) && Channels(l)
    ensures b.Valid()
  {
  }

  method SubscribeStep(b: Broadcaster, cfg: Config, ghost l: Live, ghost chans: map<Hid, TickChan>, ghost h: Hid)
      returns (ch: TickChan)
    requires Represents(b, l, chans) && Channels(l) && LiveEnabled(cfg, l, LiveAct.Subscribe(h))
    modifies b
    ensures Represents(b, LiveApply(cfg, l, LiveAct.Subscribe(h)), chans[h := ch])
  {
    OpenChannels(b, l, chans);
    ch := b.Subscribe();
  }

  method CancelStep(b: Broadcaster, ch: TickChan, cfg: Config,
                    ghost l: Live, ghost chans: map<Hid, TickChan>, ghost h: Hid)
    requires Represents(b, l, chans) && Channels(l) && LiveEnabled(cfg, l, LiveAct.Cancel(h)) && chans[h] == ch
    modifies b, ch`closed
    ensures Represents(b, LiveApply(cfg, l, LiveAct.Cancel(h)), chans)
  {
    OpenChannels(b, l, chans);
    b.Cancel(ch);
  }

  /** The handler's receive; a listening handler's channel is open, so it gets the pending tick. */
  method TakeStep(b: Broadcaster, ch: TickChan, cfg: Config,
                  ghost l: Live, ghost chans: map<Hid, TickChan>, ghost h: Hid)
      returns (open: bool)
    requires Represents(b, l, chans) && LiveEnabled(cfg, l, LiveAct.Take(h)) && chans[h] == ch
    modifies ch`pending
    ensures open && Represents(b, LiveApply(cfg, l, LiveAct.Take(h)), chans)
  {
    open := ch.Receive();
  }

  /** Broadcaster.Publish is a run of the protocol: its first step, a tick for each subscriber, its last. */
  method PublishSteps(b: Broadcaster, cfg: Config, ghost l: Live, ghost chans: map<Hid, TickChan>, ghost p: Publisher)
      returns (ghost acts: seq<LiveAct>)
    requires Represents(b, l, chans) && Channels(l) && p in l.pubs && l.pubs[p].Owes?
    modifies b.subs`pending
    ensures LiveLegal(cfg, l, acts) && Represents(b, LiveAfter(cfg, l, acts), chans)
  {
    OpenChannels(b, l, chans);
    acts := PublishIsARun(cfg, l, p);
    hide LiveLegal, LiveAfter, Channels;
    b.Publish();
  }
}
