/**
 * The life of an uploaded recording: a handler saves it to a temporary file and submits a job that
 * carries its path; from then on the job owns the file, and the runner removes it when it returns.
 * The queue protocol runs underneath, with the minutes runner configured and removals succeeding.
 */
module Uploads {
  import opened Wrappers
  import opened Seqs
  import opened Contract
  import opened QueueCore
  import opened QueueProtocol
  import opened QueuePositions

  type Path = string

  /** Who is answerable for a path: its handler, a job, or a handler whose Submit was turned away. */
  datatype Place = Saving | Saved | Submitted(id: Id) | Refused(id: Id) | Removed

  /** cleaned: the running job's runner has executed its deferred removal. */
  datatype Disk = Disk(q: Sys, files: set<Path>, place: map<Path, Place>, cleaned: bool)

  const DISK_INIT := Disk(INIT, {}, map[], false)

  datatype DiskAct =
    | Create(p: Path)
    | CopyFails(p: Path)
    | CopyDone(p: Path)
    | Upload(p: Path, id: Id, req: Request)
    | Queue(act: Act)
    | Discard(p: Path)
    | Cleanup

  predicate PlacedAt(d: Disk, p: Path, place: Place) {
    p in d.place && d.place[p] == place
  }

  predicate IsMom(c: Core, id: Id) {
    id in c.jobs && c.jobs[id].kind == Mom
  }

  predicate DiskEnabled(cfg: Config, d: Disk, a: DiskAct) {
    match a
    case Create(p) => p !in d.files // a fresh name, which a removed file may have had before
    case CopyFails(p) => PlacedAt(d, p, Saving)
    case CopyDone(p) => PlacedAt(d, p, Saving)
    case Upload(p, id, req) =>
      PlacedAt(d, p, Saved) && req.audioPath == p && Enabled(cfg, d.q, Append(id, Mom, req))
    case Queue(act) =>
      && Enabled(cfg, d.q, act)
      && (act.Append? ==> act.kind != Mom)
      && (act.Finish? && IsMom(d.q.core, d.q.worker.id) ==> d.cleaned)
    case Discard(p) => p in d.place && d.place[p].Refused?
    case Cleanup => d.q.worker.Busy? && IsMom(d.q.core, d.q.worker.id) && !d.cleaned
  }

  /** The runner removes the path its own request names. */
  function DiskApply(cfg: Config, d: Disk, a: DiskAct): Disk
    requires DiskEnabled(cfg, d, a)
  {
    match a
    case Create(p) => d.(files := d.files + {p}, place := d.place[p := Saving])
    case CopyFails(p) => d.(files := d.files - {p}, place := d.place[p := Removed])
    case CopyDone(p) => d.(place := d.place[p := Saved])
    case Upload(p, id, req) =>
      d.(q := Apply(cfg, d.q, Append(id, Mom, req)), place := d.place[p := Submitted(id)])
    case Queue(act) =>
      d.(q := Apply(cfg, d.q, act),
         cleaned := if act.Start? then false else d.cleaned,
         place := if act.RollBack? && IsMom(d.q.core, act.id)
                  then d.place[d.q.core.jobs[act.id].req.audioPath := Refused(act.id)] else d.place)
    case Discard(p) => d.(files := d.files - {p}, place := d.place[p := Removed])
    case Cleanup =>
      var p := d.q.core.jobs[d.q.worker.id].req.audioPath;
      d.(files := d.files - {p}, place := d.place[p := Removed], cleaned := true)
  }

  ghost predicate DiskLegal(cfg: Config, d: Disk, acts: seq<DiskAct>)
    decreases |acts|
  {
    acts == [] || (DiskEnabled(cfg, d, acts[0]) && DiskLegal(cfg, DiskApply(cfg, d, acts[0]), acts[1..]))
  }

  ghost function DiskAfter(cfg: Config, d: Disk, acts: seq<DiskAct>): Disk
    requires DiskLegal(cfg, d, acts)
    decreases |acts|
  {
    if acts == [] then d else DiskAfter(cfg, DiskApply(cfg, d, acts[0]), acts[1..])
  }

  /** The job waits, or runs and has not reached its removal. */
  ghost predicate Unserved(d: Disk, id: Id) {
    id in d.q.core.queued || (d.q.core.running == Some(id) && !d.cleaned)
  }

  /** A handler is answerable: it is saving, has saved, or must still discard a refused upload. */
  predicate WithHandler(place: Place) {
    place == Saving || place == Saved || place.Refused?
  }

  /** The files on disk are those some handler or some unserved job is answerable for. */
  ghost predicate FilesExact(d: Disk) {
    forall p :: p in d.files <==> p in d.place && (WithHandler(d.place[p]) || d.place[p].Submitted?)
  }

  /** The job is an unserved minutes job whose request names the path. */
  ghost predicate Carries(d: Disk, id: Id, p: Path) {
    IsMom(d.q.core, id) && d.q.core.jobs[id].req.audioPath == p && Unserved(d, id)
  }

  /** A path belongs to a job exactly while the job is unserved and names it. */
  ghost predicate Ownership(d: Disk) {
    forall p, id :: PlacedAt(d, p, Submitted(id)) <==> Carries(d, id, p)
  }

  ghost predicate DiskInv(cfg: Config, d: Disk) {
    Inv(cfg, d.q) && FilesExact(d) && Ownership(d)
  }

  /** What a queue step does to the running job. */
  lemma RunningStep(cfg: Config, s: Sys, a: Act)
    requires Enabled(cfg, s, a)
    ensures Apply(cfg, s, a).core.running ==
            if a.Start? then Some(s.worker.id) else if a.Finish? then None else s.core.running
  {
    if a.Finish? {
      EndFields(s.core, s.worker.id, a.outcome, a.dur, cfg.window, cfg.retain);
    }
    hide End;
  }

  lemma InPlace(cfg: Config, s: Sys, a: Act)
    requires Inv(cfg, s) && Enabled(cfg, s, a)
    ensures NoDup(s.core.queued)
    ensures forall id :: id in s.core.queued ==> s.core.running != Some(id) && id in s.pcs
    ensures a.Start? ==> s.core.running == None && s.worker.id in s.core.queued
    ensures a.Finish? ==> s.core.running == Some(s.worker.id)
    ensures forall id :: s.core.running == Some(id) ==> id in s.pcs
    ensures a.RollBack? ==> a.id in s.core.queued
  {
    PlacesApart(cfg, s);
    assert Apart(s.core);
    if s.worker.Received? {
      HeldIsWaiting(s);
    }
    hide NoDup, Ordered, Flow, Tickets, Table, Line;
    forall id | id in s.core.queued || s.core.running == Some(id) ensures id in s.pcs {
      QueuedKnown(cfg, s, id);
    }
  }

  lemma QueuedKnown(cfg: Config, s: Sys, id: Id)
    requires Inv(cfg, s) && (id in s.core.queued || s.core.running == Some(id))
    ensures id in s.pcs
  {
    assert id in s.core.jobs;
    hide Flow, Service, Tickets, Waiting, Table;
    PlacesKnown(cfg, s, id);
  }

  lemma QueuedStep(cfg: Config, s: Sys, a: Act, id: Id)
    requires Inv(cfg, s) && Enabled(cfg, s, a) && id in s.pcs
    ensures id in Apply(cfg, s, a).core.queued
            <==> id in s.core.queued && !(a.RollBack? && a.id == id) && !(a.Start? && s.worker.id == id)
  {
    OrderedOnce(cfg, s);
    QueueStep(cfg, s, a);
    hide Inv, Apply, NoDup;
    match a
    case Append(x, _, _) => assert id in s.core.queued + [x] <==> id in s.core.queued;
    case RollBack(x) => RemoveFirstMembers(s.core.queued, x);
    case Start => RemoveFirstMembers(s.core.queued, s.worker.id);
    case _ =>
  }

  /** A queue step, other than a roll-back, leaves the same minutes jobs unserved. */
  lemma UnservedStep(cfg: Config, d: Disk, a: Act, id: Id)
    requires Inv(cfg, d.q) && DiskEnabled(cfg, d, Queue(a)) && IsMom(d.q.core, id) && id in d.q.pcs
    ensures Unserved(DiskApply(cfg, d, Queue(a)), id)
            <==> Unserved(d, id) && !(a.RollBack? && a.id == id)
  {
    InPlace(cfg, d.q, a);
    QueuedStep(cfg, d.q, a, id);
    RunningStep(cfg, d.q, a);
    hide Inv, Apply, Enabled, NoDup;
  }

  /** A job in the table is there with the kind and the request it was submitted with, or was appended just now. */
  lemma EntryKept(cfg: Config, s: Sys, a: Act, id: Id)
    requires Enabled(cfg, s, a) && id in Apply(cfg, s, a).core.jobs
    ensures var t := Apply(cfg, s, a);
            if a.Append? && a.id == id then t.core.jobs[id] == NewJob(a.kind, a.req)
            else
              id in s.core.jobs && t.core.jobs[id].kind == s.core.jobs[id].kind
              && t.core.jobs[id].req == s.core.jobs[id].req
  {
    if a.Finish? {
      EndFields(s.core, s.worker.id, a.outcome, a.dur, cfg.window, cfg.retain);
    }
    hide End;
  }

  lemma UnservedFiled(cfg: Config, d: Disk, id: Id)
    requires Inv(cfg, d.q) && Unserved(d, id)
    ensures id in d.q.core.jobs && id in d.q.pcs
  {
    QueuedKnown(cfg, d.q, id);
    hide Flow, Service, Tickets, Waiting;
  }

  lemma FiledKnown(cfg: Config, s: Sys, id: Id)
    requires Inv(cfg, s) && id in s.core.jobs
    ensures id in s.pcs
  {
    hide Flow, Service, Tickets, Waiting, Table;
    PlacesKnown(cfg, s, id);
  }

  /** A queue step leaves a path with its job, unless the job is rolled back. */
  lemma CarriesStep(cfg: Config, d: Disk, a: Act, id: Id, p: Path)
    requires Inv(cfg, d.q) && DiskEnabled(cfg, d, Queue(a))
    ensures Carries(DiskApply(cfg, d, Queue(a)), id, p) <==> Carries(d, id, p) && !(a.RollBack? && a.id == id)
  {
    var e := DiskApply(cfg, d, Queue(a));
    StepKeeps(cfg, d.q, a);
    if Carries(e, id, p) {
      EntryKept(cfg, d.q, a, id);
      assert IsMom(d.q.core, id);
    }
    if IsMom(d.q.core, id) {
      FiledKnown(cfg, d.q, id);
      UnservedStep(cfg, d, a, id);
      if Unserved(e, id) {
        UnservedFiled(cfg, e, id);
        EntryKept(cfg, d.q, a, id);
        NotAppended(cfg, d.q, a, id);
      }
    }
    hide Inv, Apply, Enabled, Unserved;
  }

  lemma NotAppended(cfg: Config, s: Sys, a: Act, id: Id)
    requires Enabled(cfg, s, a) && id in s.pcs
    ensures !(a.Append? && a.id == id)
  {
  }

  /** Place by place, a queue step re-files at most the rolled-back job's path. */
  lemma Refiled(d: Disk, e: Disk, a: Act)
    requires FilesExact(d) && Ownership(d) && e.files == d.files
    requires a.RollBack? && IsMom(d.q.core, a.id) ==> Carries(d, a.id, d.q.core.jobs[a.id].req.audioPath)
    requires e.place == if a.RollBack? && IsMom(d.q.core, a.id)
                        then d.place[d.q.core.jobs[a.id].req.audioPath := Refused(a.id)] else d.place
    requires forall id, p :: Carries(e, id, p) <==> Carries(d, id, p) && !(a.RollBack? && a.id == id)
    ensures FilesExact(e) && Ownership(e)
  {
    forall p, id ensures PlacedAt(e, p, Submitted(id)) <==> Carries(e, id, p) {
      assert PlacedAt(d, p, Submitted(id)) <==> Carries(d, id, p);
      if a.RollBack? && IsMom(d.q.core, a.id) {
        var own := d.q.core.jobs[a.id].req.audioPath;
        assert PlacedAt(d, own, Submitted(a.id));
        assert Carries(d, a.id, p) ==> p == own;
      } else if a.RollBack? {
        assert !Carries(d, a.id, p);
      }
    }
    hide Carries;
    assert a.RollBack? && IsMom(d.q.core, a.id) ==>
      PlacedAt(d, d.q.core.jobs[a.id].req.audioPath, Submitted(a.id));
  }

  lemma QueueOwnership(cfg: Config, d: Disk, a: Act)
    requires DiskInv(cfg, d) && DiskEnabled(cfg, d, Queue(a))
    ensures FilesExact(DiskApply(cfg, d, Queue(a))) && Ownership(DiskApply(cfg, d, Queue(a)))
  {
    InPlace(cfg, d.q, a);
    assert a.RollBack? && IsMom(d.q.core, a.id) ==> Carries(d, a.id, d.q.core.jobs[a.id].req.audioPath);
    var e := DiskApply(cfg, d, Queue(a));
    hide Inv, Apply, Enabled, Unserved, NoDup, FilesExact, Ownership, Carries;
    forall id, p ensures Carries(e, id, p) <==> Carries(d, id, p) && !(a.RollBack? && a.id == id) {
      CarriesStep(cfg, d, a, id, p);
    }
    Refiled(d, e, a);
  }

  /** A submitted upload passes from its handler to its job. */
  lemma Handed(d: Disk, e: Disk, p: Path, id: Id)
    requires FilesExact(d) && Ownership(d) && PlacedAt(d, p, Saved)
    requires e.files == d.files && e.place == d.place[p := Submitted(id)]
    requires forall x, o :: Carries(e, x, o) <==> Carries(d, x, o) || (x == id && o == p)
    ensures FilesExact(e) && Ownership(e)
  {
    hide Carries;
    forall o, x ensures PlacedAt(e, o, Submitted(x)) <==> Carries(e, x, o) {
      assert PlacedAt(d, o, Submitted(x)) <==> Carries(d, x, o);
    }
  }

  lemma UploadOwnership(cfg: Config, d: Disk, p: Path, id: Id, req: Request)
    requires DiskInv(cfg, d) && DiskEnabled(cfg, d, Upload(p, id, req))
    ensures FilesExact(DiskApply(cfg, d, Upload(p, id, req))) && Ownership(DiskApply(cfg, d, Upload(p, id, req)))
  {
    var e := DiskApply(cfg, d, Upload(p, id, req));
    UploadFields(cfg, d, p, id, req);
    hide Inv, Apply, Enabled, FilesExact, Ownership, Carries, DiskApply;
    forall x, o ensures Carries(e, x, o) <==> Carries(d, x, o) || (x == id && o == p) {
      UploadCarries(cfg, d, p, id, req, x, o);
    }
    Handed(d, e, p, id);
  }

  lemma UploadCarries(cfg: Config, d: Disk, p: Path, id: Id, req: Request, x: Id, o: Path)
    requires Inv(cfg, d.q) && DiskEnabled(cfg, d, Upload(p, id, req))
    ensures Carries(DiskApply(cfg, d, Upload(p, id, req)), x, o) <==> Carries(d, x, o) || (x == id && o == p)
  {
    var e := DiskApply(cfg, d, Upload(p, id, req));
    if id in d.q.core.jobs {
      FiledKnown(cfg, d.q, id);
    }
    hide Inv;
    assert e.q.core.queued == d.q.core.queued + [id];
    assert x in e.q.core.queued <==> x in d.q.core.queued || x == id;
  }

  lemma UploadFields(cfg: Config, d: Disk, p: Path, id: Id, req: Request)
    requires DiskEnabled(cfg, d, Upload(p, id, req))
    ensures PlacedAt(d, p, Saved)
    ensures var e := DiskApply(cfg, d, Upload(p, id, req));
            e.files == d.files && e.place == d.place[p := Submitted(id)]
  {
  }

  lemma CleanupOwnership(cfg: Config, d: Disk)
    requires DiskInv(cfg, d) && DiskEnabled(cfg, d, Cleanup)
    ensures FilesExact(DiskApply(cfg, d, Cleanup)) && Ownership(DiskApply(cfg, d, Cleanup))
  {
    var x := d.q.worker.id;
    var p := d.q.core.jobs[x].req.audioPath;
    var e := DiskApply(cfg, d, Cleanup);
    RunningCarries(cfg, d);
    hide Inv, Enabled;
    forall o, id ensures PlacedAt(e, o, Submitted(id)) <==> Carries(e, id, o) {
      assert PlacedAt(d, o, Submitted(id)) <==> Carries(d, id, o);
      assert PlacedAt(d, p, Submitted(x));
    }
    hide Carries;
    assert PlacedAt(d, p, Submitted(x));
  }

  lemma RunningCarries(cfg: Config, d: Disk)
    requires Inv(cfg, d.q) && d.q.worker.Busy? && IsMom(d.q.core, d.q.worker.id) && !d.cleaned
    ensures d.q.core.running == Some(d.q.worker.id) && d.q.worker.id !in d.q.core.queued
    ensures Carries(d, d.q.worker.id, d.q.core.jobs[d.q.worker.id].req.audioPath)
  {
    PlacesApart(cfg, d.q);
    hide Flow, Tickets, Waiting, Table, NoDup;
  }

  lemma HandlerOwnership(cfg: Config, d: Disk, a: DiskAct)
    requires FilesExact(d) && Ownership(d) && DiskEnabled(cfg, d, a)
    requires a.Create? || a.CopyFails? || a.CopyDone? || a.Discard?
    ensures FilesExact(DiskApply(cfg, d, a)) && Ownership(DiskApply(cfg, d, a))
  {
    hide Enabled;
    var e := DiskApply(cfg, d, a);
    SameCarries(d, e);
    hide Carries;
    forall p, id ensures PlacedAt(e, p, Submitted(id)) <==> Carries(e, id, p) {
      assert PlacedAt(d, p, Submitted(id)) <==> Carries(d, id, p);
    }
  }

  lemma SameCarries(d: Disk, e: Disk)
    requires e.q == d.q && e.cleaned == d.cleaned
    ensures forall id, p :: Carries(e, id, p) <==> Carries(d, id, p)
  {
  }

  lemma DiskStepKeeps(cfg: Config, d: Disk, a: DiskAct)
    requires DiskInv(cfg, d) && DiskEnabled(cfg, d, a)
    ensures DiskInv(cfg, DiskApply(cfg, d, a))
  {
    hide Inv, FilesExact, Ownership;
    match a
    case Upload(p, id, req) =>
      StepKeeps(cfg, d.q, Append(id, Mom, req));
      UploadOwnership(cfg, d, p, id, req);
    case Queue(act) =>
      StepKeeps(cfg, d.q, act);
      QueueOwnership(cfg, d, act);
    case Cleanup => CleanupOwnership(cfg, d);
    case _ => HandlerOwnership(cfg, d, a);
  }

  lemma {:induction false} DiskRunKeeps(cfg: Config, d: Disk, acts: seq<DiskAct>)
    requires DiskInv(cfg, d) && DiskLegal(cfg, d, acts)
    ensures DiskInv(cfg, DiskAfter(cfg, d, acts))
    decreases |acts|
  {
    hide DiskInv;
    if acts != [] {
      DiskStepKeeps(cfg, d, acts[0]);
      DiskRunKeeps(cfg, DiskApply(cfg, d, acts[0]), acts[1..]);
    }
  }

  /** The files the unserved minutes jobs will remove: those their own requests name. */
  ghost function Awaited(d: Disk): set<Path> {
    set id | id in d.q.core.jobs && IsMom(d.q.core, id) && Unserved(d, id) :: d.q.core.jobs[id].req.audioPath
  }

  /**
   * No orphans: in every state of every run the files on disk are exactly those of the handlers that have
   * not finished with them and those that the waiting jobs, and the running one ahead of its removal, will
   * remove; no two jobs name the same file.
   */
  lemma {:induction false} NoOrphans(cfg: Config, acts: seq<DiskAct>)
    requires ValidConfig(cfg) && DiskLegal(cfg, DISK_INIT, acts)
    ensures var d := DiskAfter(cfg, DISK_INIT, acts);
            && d.files == (set p | p in d.place && WithHandler(d.place[p])) + Awaited(d)
            && (forall i, j, p :: Carries(d, i, p) && Carries(d, j, p) ==> i == j)
  {
    InitHolds(cfg);
    DiskRunKeeps(cfg, DISK_INIT, acts);
    var d := DiskAfter(cfg, DISK_INIT, acts);
    hide Inv, DiskLegal, DiskAfter, DiskApply, DiskEnabled, ValidConfig, Carries, FilesExact, Ownership, Awaited;
    FilesAnswered(d);
  }

  lemma FilesAnswered(d: Disk)
    requires FilesExact(d) && Ownership(d)
    ensures d.files == (set p | p in d.place && WithHandler(d.place[p])) + Awaited(d)
    ensures forall i, j, p :: Carries(d, i, p) && Carries(d, j, p) ==> i == j
  {
    AwaitedCarried(d);
    hide Carries, Awaited;
    forall i, j, p | Carries(d, i, p) && Carries(d, j, p) ensures i == j {
      assert PlacedAt(d, p, Submitted(i)) && PlacedAt(d, p, Submitted(j));
    }
    forall p ensures p in d.files <==> (p in d.place && WithHandler(d.place[p])) || p in Awaited(d) {
      if p in d.place && d.place[p].Submitted? {
        assert PlacedAt(d, p, Submitted(d.place[p].id));
      }
      if p in Awaited(d) {
        var id :| Carries(d, id, p);
        assert PlacedAt(d, p, Submitted(id));
      }
    }
  }

  lemma AwaitedCarried(d: Disk)
    ensures forall p :: p in Awaited(d) <==> exists id :: Carries(d, id, p)
  {
    hide Unserved;
    forall p ensures p in Awaited(d) <==> exists id :: Carries(d, id, p) {
      if p in Awaited(d) {
        var id :| IsMom(d.q.core, id) && Unserved(d, id) && d.q.core.jobs[id].req.audioPath == p;
        assert Carries(d, id, p);
      }
    }
  }

  /** Once every handler is done and the queue has drained, nothing is left on disk. */
  lemma {:induction false} DiskDrains(cfg: Config, acts: seq<DiskAct>)
    requires ValidConfig(cfg) && DiskLegal(cfg, DISK_INIT, acts)
    requires var d := DiskAfter(cfg, DISK_INIT, acts);
             && d.q.core.queued == [] && d.q.core.running == None
             && forall p :: p in d.place ==> !WithHandler(d.place[p])
    ensures DiskAfter(cfg, DISK_INIT, acts).files == {}
  {
    NoOrphans(cfg, acts);
    hide DiskLegal, DiskAfter;
  }
}
