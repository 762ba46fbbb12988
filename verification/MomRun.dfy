/** The minutes-of-meeting run: transcribe, chunk, extract per chunk, consolidate, and clean up. */
module MomRun {
  import opened Wrappers
  import opened Contract
  import opened Text
  import opened Chunks
  import QueueCore
  import opened ProgressReport

  datatype Transcription = Transcription(text: string, language: string)

  /** How each call out of the run ends; readBack and the file writes say only whether they succeed. */
  datatype Answers = Answers(
    mkdir: Outcome<()>,
    open: Outcome<()>,
    transcribe: Outcome<Transcription>,
    writeTranscript: Outcome<()>,
    writeChunks: Outcome<()>,
    createPartials: Outcome<()>,
    extract: nat -> Outcome<Minutes>,
    encode: nat -> Outcome<()>,
    readBack: Outcome<()>,
    consolidate: Outcome<Minutes>)

  datatype AiRequest =
    | Transcribe
    | Extract(chunk: string, language: string)
    | Consolidate(partials: seq<Minutes>, language: string)

  /** The temporary files and the per-job working directories, by job. */
  class Disk {
    var files: set<string>
    var jobDirs: set<QueueCore.Id>

    constructor (files: set<string>, jobDirs: set<QueueCore.Id>)
      ensures this.files == files && this.jobDirs == jobDirs
    {
      this.files, this.jobDirs := files, jobDirs;
    }
  }

  function ResolveLanguage(override_: string, code: string): string {
    var o := Trim(override_);
    if o != "" && !EqualFold(o, "auto") then o
    else
      match Lower(Trim(code))
      case "id" => "Indonesian"
      case "en" => "English"
      case _ => ""
  }

  function OrAuto(lang: string): string {
    if lang == "" then "auto" else lang
  }

  // ----- the run as a function of its answers -----

  function ChunksOf(text: string): seq<string> {
    JoinAll(Chunked(Fields(text), CHUNK_WORDS, OVERLAP_WORDS))
  }

  /** The first of n chunks whose extraction or whose write to the partials file fails, or n. */
  function FirstFailure(a: Answers, n: nat): (k: nat)
    ensures k <= n
    ensures forall i :: 0 <= i < k ==> a.extract(i).Ok? && a.encode(i).Ok?
    ensures k < n ==> a.extract(k).Err? || a.encode(k).Err?
  {
    if n == 0 then 0
    else
      var k := FirstFailure(a, n - 1);
      if k < n - 1 || a.extract(k).Err? || a.encode(k).Err? then k else n
  }

  /** What the partials file holds after the first k chunks. */
  function Notes(a: Answers, k: nat): (s: seq<Minutes>)
    requires forall i :: 0 <= i < k ==> a.extract(i).Ok?
    ensures |s| == k
  {
    seq(k, i requires 0 <= i < k => a.extract(i).value)
  }

  /** The failure of the stages before the first extraction, if any. */
  function Preparation(a: Answers): Outcome<Transcription> {
    match a.mkdir case Err(m) => Err("work dir: " + m) case Ok(_) =>
    match a.open case Err(m) => Err(m) case Ok(_) =>
    match a.transcribe case Err(m) => Err(m) case Ok(t) =>
    match a.writeTranscript case Err(m) => Err("write transcript: " + m) case Ok(_) =>
    match a.writeChunks case Err(m) => Err(m) case Ok(_) =>
    match a.createPartials case Err(m) => Err("partials file: " + m) case Ok(_) => Ok(t)
  }

  /** The extraction stage over n chunks: the partials file, or the first failure. */
  function Mapped(a: Answers, n: nat): Outcome<seq<Minutes>> {
    var k := FirstFailure(a, n);
    if k == n then Ok(Notes(a, n))
    else if a.extract(k).Err? then Err(a.extract(k).message)
    else Err("write partial: " + a.encode(k).message)
  }

  function Reduced(a: Answers): Outcome<Minutes> {
    match a.readBack case Err(m) => Err(m) case Ok(_) => a.consolidate
  }

  /** What run returns. */
  function Produced(a: Answers): Outcome<MomResult> {
    match Preparation(a) case Err(m) => Err(m) case Ok(t) =>
    match Mapped(a, |ChunksOf(t.text)|) case Err(m) => Err(m) case Ok(_) =>
    match Reduced(a) case Err(m) => Err(m) case Ok(minutes) => Ok(MomResult(minutes, t.text))
  }

  /** The extraction requests for the first k chunks. */
  function Extracts(chunks: seq<string>, language: string, k: nat): (s: seq<AiRequest>)
    requires k <= |chunks|
    ensures |s| == k
  {
    seq(k, i requires 0 <= i < k => Extract(chunks[i], language))
  }

  /** Every request run sends, in order. */
  function Requests(a: Answers, momLanguage: string): seq<AiRequest> {
    if a.mkdir.Err? || a.open.Err? then []
    else
      [Transcribe] +
      match Preparation(a) case Err(_) => [] case Ok(t) =>
        var chunks := ChunksOf(t.text);
        var language := ResolveLanguage(momLanguage, t.language);
        var n := |chunks|;
        var k := FirstFailure(a, n);
        Extracts(chunks, language, Attempted(a, n)) +
        (if k == n && a.readBack.Ok? then [Consolidate(Notes(a, n), language)] else [])
  }

  /** The two failures that return without closing the step they happen in. */
  predicate LeavesRunning(a: Answers) {
    match Preparation(a)
    case Err(_) => a.mkdir.Ok? && a.open.Ok? && a.transcribe.Ok? && a.writeTranscript.Err?
    case Ok(t) =>
      var n := |ChunksOf(t.text)|;
      var k := FirstFailure(a, n);
      k < n && a.extract(k).Ok?
  }

  // ----- the plan a run ends with -----

  function TranscribeStep(a: Answers, momLanguage: string): Step {
    var title := "Transcribe audio";
    if a.open.Err? then Step(title, StepState.Failed, "could not open the upload")
    else
      match a.transcribe
      case Err(m) => Step(title, StepState.Failed, m)
      case Ok(t) =>
        if a.writeTranscript.Err? then Step(title, StepState.Running, "")
        else Step(title, StepState.Done, "transcribed (" + OrAuto(ResolveLanguage(momLanguage, t.language)) + ")")
  }

  function ExtractTitle(i: nat, n: nat): string {
    "Extract notes — chunk " + Decimal(i + 1) + "/" + Decimal(n)
  }

  function ExtractStep(a: Answers, i: nat, n: nat): Step {
    match a.extract(i)
    case Err(m) => Step(ExtractTitle(i, n), StepState.Failed, m)
    case Ok(part) =>
      if a.encode(i).Err? then Step(ExtractTitle(i, n), StepState.Running, "")
      else
        Step(ExtractTitle(i, n), StepState.Done,
             Decimal(|part.discussions|) + " points, " + Decimal(|part.followUps|) + " follow-ups")
  }

  function ExtractSteps(a: Answers, k: nat, n: nat): (s: seq<Step>)
    ensures |s| == k
  {
    seq(k, i requires 0 <= i < k => ExtractStep(a, i, n))
  }

  function ConsolidateStep(a: Answers): Step {
    var title := "Consolidate minutes";
    if a.readBack.Err? then Step(title, StepState.Failed, "read partials")
    else
      match a.consolidate
      case Err(m) => Step(title, StepState.Failed, m)
      case Ok(mom) =>
        Step(title, StepState.Done,
             Decimal(|mom.discussions|) + " discussion points, " + Decimal(|mom.followUps|) + " follow-ups")
  }

  /** How many chunks of n are asked for: all of them, or those up to the first failure. */
  function Attempted(a: Answers, n: nat): (k: nat)
    ensures k <= n
  {
    var k := FirstFailure(a, n);
    if k < n then k + 1 else n
  }

  /** The plan when run returns, once it had its working directory. */
  function FinalPlan(a: Answers, momLanguage: string): seq<Step> {
    [TranscribeStep(a, momLanguage)] +
    match Preparation(a) case Err(_) => [] case Ok(t) =>
      var n := |ChunksOf(t.text)|;
      ExtractSteps(a, Attempted(a, n), n) + (if FirstFailure(a, n) == n then [ConsolidateStep(a)] else [])
  }

  /** An unwritable transcript leaves the transcription step running. */
  lemma TranscriptWriteLeavesRunning(a: Answers)
    requires a.mkdir.Ok? && a.open.Ok? && a.transcribe.Ok? && a.writeTranscript == Err("disk full")
    ensures LeavesRunning(a) && Produced(a) == Err("write transcript: disk full")
  {
  }

  /** An unwritable first partial leaves the first extraction step running. */
  lemma PartialWriteLeavesRunning(a: Answers)
    requires Preparation(a).Ok? && Fields(a.transcribe.value.text) != []
    requires a.extract(0).Ok? && a.encode(0) == Err("disk full")
    ensures LeavesRunning(a) && Produced(a) == Err("write partial: disk full")
  {
    var words := Fields(a.transcribe.value.text);
    SomeWords(|words|, CHUNK_WORDS, Chunks.Step(CHUNK_WORDS, OVERLAP_WORDS));
    hide Fields, Count, FirstFailure;
  }

  // ----- the run itself -----

  ghost predicate AllDone(plan: seq<Step>) {
    forall i :: 0 <= i < |plan| ==> plan[i].state == StepState.Done
  }

  lemma DoneIsSettled(plan: seq<Step>)
    requires AllDone(plan)
    ensures AllSettled(plan)
  {
  }

  lemma OneMoreDone(before: seq<Step>, plan: seq<Step>)
    requires |plan| == |before| + 1 && plan[..|before|] == before && AllDone(before)
    ensures AllDone(plan) <==> plan[|before|].state == StepState.Done
    ensures AllSettled(plan) <==> Settled(plan[|before|])
  {
    assert forall i :: 0 <= i < |before| ==> plan[i] == before[i];
  }

  /** Stages 1 and 2, up to the creation of the partials file. */
  method Prepare(p: Progress, a: Answers, momLanguage: string, ghost from: Origin)
      returns (r: Outcome<Transcription>, chunks: seq<string>, sent: seq<AiRequest>)
    requires OnTrack(p, from) && a.mkdir.Ok?
    modifies p, p.job`plan, p.job`partial, p.m`notified
    ensures r == Preparation(a) && (r.Ok? ==> chunks == ChunksOf(r.value.text))
    ensures sent == if a.open.Err? then [] else [Transcribe]
    ensures OnTrack(p, from) && p.partials == old(p.partials)
    ensures p.job.plan == [TranscribeStep(a, momLanguage)] && (r.Ok? ==> AllDone(p.job.plan))
    ensures AllSettled(p.job.plan) <==> a.open.Err? || a.transcribe.Err? || a.writeTranscript.Ok?
  {
    hide OnTrack, ResolveLanguage, Chunked, Fields;
    chunks, sent := [], [];
    OpenPlan(p, "Transcribe audio", from);
    assert p.job.plan[0].state == StepState.Running;
    if a.open.Err? {
      CloseStep(p, 0, StepState.Failed, "could not open the upload", from);
      return Err(a.open.message), chunks, sent;
    }
    sent := [Transcribe];
    if a.transcribe.Err? {
      CloseStep(p, 0, StepState.Failed, a.transcribe.message, from);
      return Err(a.transcribe.message), chunks, sent;
    }
    var t := a.transcribe.value;
    if a.writeTranscript.Err? {
      return Err("write transcript: " + a.writeTranscript.message), chunks, sent;
    }
    var language := ResolveLanguage(momLanguage, t.language);
    CloseStep(p, 0, StepState.Done, "transcribed (" + OrAuto(language) + ")", from);
    chunks := ChunkText(t.text, CHUNK_WORDS, OVERLAP_WORDS);
    if a.writeChunks.Err? {
      return Err(a.writeChunks.message), chunks, sent;
    }
    if a.createPartials.Err? {
      return Err("partials file: " + a.createPartials.message), chunks, sent;
    }
    r := Ok(t);
  }

  /** Stage 3: one extraction per chunk, each appended to the partials file. */
  method MapChunks(p: Progress, a: Answers, chunks: seq<string>, language: string, ghost from: Origin)
      returns (r: Outcome<seq<Minutes>>, sent: seq<AiRequest>)
    requires AllDone(p.job.plan) && OnTrack(p, from)
    modifies p, p.job`plan, p.job`partial, p.m`notified
    ensures r == Mapped(a, |chunks|)
    ensures sent == Extracts(chunks, language, Attempted(a, |chunks|))
    ensures OnTrack(p, from) && p.partials == old(p.partials)
    ensures p.job.plan == old(p.job.plan) + ExtractSteps(a, Attempted(a, |chunks|), |chunks|)
    ensures r.Ok? ==> AllDone(p.job.plan)
    ensures AllSettled(p.job.plan)
            <==> (var k := FirstFailure(a, |chunks|); k == |chunks| || a.extract(k).Err?)
  {
    hide OnTrack, AllDone, AllSettled, ExtractTitle, ExtractStep, ExtractSteps, ClosedStep, FirstFailure, Attempted,
         Decimal;
    var n := |chunks|;
    NeverFails(a, n);
    var file := [];
    sent := [];
    for i := 0 to n
      invariant forall j :: 0 <= j < i ==> a.extract(j).Ok? && a.encode(j).Ok?
      invariant file == Notes(a, i) && sent == Extracts(chunks, language, i)
      invariant OnTrack(p, from) && p.partials == old(p.partials)
      invariant p.job.plan == old(p.job.plan) + ExtractSteps(a, i, n) && AllDone(p.job.plan)
    {
      ghost var before := p.job.plan;
      DoneIsSettled(before);
      OneMoreExtract(old(p.job.plan), a, i, n);
      ExtractStepIs(a, i, n);
      FailsHere(a, i, n);
      var step := OpenStep(p, ExtractTitle(i, n), from);
      OneMoreDone(before, p.job.plan);
      sent := sent + [Extract(chunks[i], language)];
      match a.extract(i) {
        case Err(m) =>
          CloseStep(p, step, StepState.Failed, m, from);
          return Err(m), sent;
        case Ok(part) =>
          if a.encode(i).Err? {
            return Err("write partial: " + a.encode(i).message), sent;
          }
          file := file + [part];
          CloseStep(p, step, StepState.Done,
                    Decimal(|part.discussions|) + " points, " + Decimal(|part.followUps|) + " follow-ups", from);
          OneMoreDone(before, p.job.plan);
      }
    }
    DoneIsSettled(p.job.plan);
    r := Ok(file);
  }

  lemma OneMoreExtract(before: seq<Step>, a: Answers, i: nat, n: nat)
    ensures before + ExtractSteps(a, i + 1, n) == before + ExtractSteps(a, i, n) + [ExtractStep(a, i, n)]
    ensures before + ExtractSteps(a, 0, n) == before
  {
    hide ExtractStep;
  }

  /** An extraction's step, begun and then closed in either way or left alone. */
  lemma ExtractStepIs(a: Answers, i: nat, n: nat)
    ensures var begun := Step(ExtractTitle(i, n), StepState.Running, "");
            ExtractStep(a, i, n) ==
            match a.extract(i)
            case Err(m) => ClosedStep(begun, StepState.Failed, m)
            case Ok(part) =>
              if a.encode(i).Err? then begun
              else
                ClosedStep(begun, StepState.Done,
                           Decimal(|part.discussions|) + " points, " + Decimal(|part.followUps|) + " follow-ups")
  {
    hide ExtractTitle, Decimal;
  }

  lemma FailsHere(a: Answers, i: nat, n: nat)
    requires i < n && forall j :: 0 <= j < i ==> a.extract(j).Ok? && a.encode(j).Ok?
    ensures a.extract(i).Err? || a.encode(i).Err? ==> FirstFailure(a, n) == i && Attempted(a, n) == i + 1
  {
    hide FirstFailure;
  }

  lemma NeverFails(a: Answers, n: nat)
    ensures (forall j :: 0 <= j < n ==> a.extract(j).Ok? && a.encode(j).Ok?) ==>
              FirstFailure(a, n) == n && Attempted(a, n) == n
  {
    hide FirstFailure;
  }

  /** Stage 4: read the partials back and consolidate them. */
  method Consolidating(p: Progress, a: Answers, file: seq<Minutes>, language: string, ghost from: Origin)
      returns (r: Outcome<Minutes>, sent: seq<AiRequest>)
    requires AllDone(p.job.plan) && OnTrack(p, from)
    modifies p, p.job`plan, p.job`partial, p.m`notified
    ensures r == Reduced(a) && sent == if a.readBack.Ok? then [Consolidate(file, language)] else []
    ensures OnTrack(p, from) && p.partials == old(p.partials)
    ensures p.job.plan == old(p.job.plan) + [ConsolidateStep(a)]
    ensures AllSettled(p.job.plan) && (r.Ok? ==> AllDone(p.job.plan))
  {
    hide OnTrack, AllDone, AllSettled, Decimal;
    ghost var before := p.job.plan;
    DoneIsSettled(before);
    var step := OpenStep(p, "Consolidate minutes", from);
    OneMoreDone(before, p.job.plan);
    if a.readBack.Err? {
      CloseStep(p, step, StepState.Failed, "read partials", from);
      return Err(a.readBack.message), [];
    }
    sent := [Consolidate(file, language)];
    match a.consolidate {
      case Err(m) =>
        CloseStep(p, step, StepState.Failed, m, from);
        r := Err(m);
      case Ok(mom) =>
        CloseStep(p, step, StepState.Done,
                  Decimal(|mom.discussions|) + " discussion points, " + Decimal(|mom.followUps|) + " follow-ups", from);
        OneMoreDone(before, p.job.plan);
        r := Ok(mom);
    }
  }

  /** All the stages, inside the job's working directory. */
  method Stages(p: Progress, a: Answers, momLanguage: string, ghost from: Origin)
      returns (r: Outcome<MomResult>, sent: seq<AiRequest>)
    requires OnTrack(p, from) && a.mkdir.Ok?
    modifies p, p.job`plan, p.job`partial, p.m`notified
    ensures r == Produced(a) && sent == Requests(a, momLanguage)
    ensures OnTrack(p, from) && p.partials == old(p.partials) && p.job.plan == FinalPlan(a, momLanguage)
    ensures AllSettled(p.job.plan) <==> !LeavesRunning(a)
    ensures r.Ok? ==> |p.job.plan| == |ChunksOf(a.transcribe.value.text)| + 2 && AllDone(p.job.plan)
  {
    hide OnTrack, AllDone, AllSettled, ChunksOf, ResolveLanguage, TranscribeStep, ExtractSteps, ConsolidateStep;
    var prepared, chunks, asked := Prepare(p, a, momLanguage, from);
    sent := asked;
    if prepared.Err? {
      return Err(prepared.message), sent;
    }
    var t := prepared.value;
    var language := ResolveLanguage(momLanguage, t.language);
    var mapped, extracts := MapChunks(p, a, chunks, language, from);
    sent := sent + extracts;
    if mapped.Err? {
      return Err(mapped.message), sent;
    }
    var reduced, last := Consolidating(p, a, mapped.value, language, from);
    sent := sent + last;
    if reduced.Err? {
      return Err(reduced.message), sent;
    }
    r := Ok(MomResult(reduced.value, t.text));
  }

  /**
   * run. On every way out the upload and the working directory are gone; at every point all steps of the
   * plan but the last are settled; a successful run ends with one step per chunk and two more, all done.
   */
  method Run(p: Progress, disk: Disk, req: Request, momLanguage: string, a: Answers)
      returns (r: Outcome<MomResult>, sent: seq<AiRequest>)
    modifies p, p.job`plan, p.job`partial, p.m`notified, disk
    ensures r == Produced(a) && sent == Requests(a, momLanguage)
    ensures disk.files == old(disk.files) - {req.audioPath}
    ensures disk.jobDirs == old(disk.jobDirs) - (if a.mkdir.Ok? then {p.job.id} else {})
    ensures PlansShaped(p.plans, |old(p.plans)|) && p.partials == old(p.partials)
    ensures p.OnlyReported(old(p.Filed()), old(p.m.View()))
    ensures p.job.plan == if a.mkdir.Ok? then FinalPlan(a, momLanguage) else old(p.job.plan)
    ensures a.mkdir.Ok? ==> (AllSettled(p.job.plan) <==> !LeavesRunning(a))
    ensures r.Ok? ==> |p.job.plan| == |ChunksOf(a.transcribe.value.text)| + 2 && AllDone(p.job.plan)
  {
    hide AllDone, AllSettled, LeavesRunning, ChunksOf, ResolveLanguage, PlansShaped, Produced, Requests, FinalPlan;
    NoWorkDir(a, momLanguage);
    ghost var from := Here(p);
    StartsOnTrack(p);
    if a.mkdir.Err? {
      disk.files := disk.files - {req.audioPath};
      return Err("work dir: " + a.mkdir.message), [];
    }
    disk.jobDirs := disk.jobDirs + {p.job.id};
    r, sent := Stages(p, a, momLanguage, from);
    disk.jobDirs := disk.jobDirs - {p.job.id};
    disk.files := disk.files - {req.audioPath};
  }

  lemma NoWorkDir(a: Answers, momLanguage: string)
    ensures a.mkdir.Err? ==> Produced(a) == Err("work dir: " + a.mkdir.message) && Requests(a, momLanguage) == []
    ensures Produced(a).Ok? ==> a.mkdir.Ok? && a.transcribe.Ok?
  {
    hide ChunksOf, ResolveLanguage;
  }

  // ----- what the run says, asks and shows -----

  /**
   * The language of the minutes: an override is taken as it stands, trimmed, unless it is blank or "auto";
   * then Indonesian and English are recognised by their codes and anything else is left to the model.
   */
  lemma LanguageExactly(override_: string, code: string)
    ensures var o := Trim(override_);
            var language := ResolveLanguage(override_, code);
            if o != "" && !SameLetters(o, "auto") then language == o
            else if Spells(code, {"id"}) then language == "Indonesian"
            else if Spells(code, {"en"}) then language == "English"
            else language == ""
  {
    FoldExactly(Trim(override_), "auto");
    Lowercase("id");
    Lowercase("en");
    hide Trim, Lower, SameLetters;
  }

  /** The call failed, and message is its error after the prefix. */
  ghost predicate Tells<T>(call: Outcome<T>, prefix: string, message: string) {
    call.Err? && message == prefix + call.message
  }

  /** A run fails with the error of the first call that fails, in the order of the stages, and only so. */
  lemma FailsExactly(a: Answers, message: string)
    ensures Produced(a) == Err(message) <==>
            if a.mkdir.Err? then Tells(a.mkdir, "work dir: ", message)
            else if a.open.Err? then Tells(a.open, "", message)
            else if a.transcribe.Err? then Tells(a.transcribe, "", message)
            else if a.writeTranscript.Err? then Tells(a.writeTranscript, "write transcript: ", message)
            else if a.writeChunks.Err? then Tells(a.writeChunks, "", message)
            else if a.createPartials.Err? then Tells(a.createPartials, "partials file: ", message)
            else
              var n := |ChunksOf(a.transcribe.value.text)|;
              (exists k: nat :: k < n && FailsAt(a, k, message))
              || ((forall k: nat :: k < n ==> a.extract(k).Ok? && a.encode(k).Ok?) &&
                  if a.readBack.Err? then Tells(a.readBack, "", message) else Tells(a.consolidate, "", message))
  {
    hide ChunksOf;
    if Preparation(a).Ok? {
      var n := |ChunksOf(a.transcribe.value.text)|;
      var k := FirstFailure(a, n);
      hide FirstFailure, Notes;
      if k < n {
        assert Produced(a) == Err(message) <==> FailsAt(a, k, message);
        assert forall j: nat :: j < n && FailsAt(a, j, message) ==> j == k;
      }
    }
  }

  /** Chunk k is the first whose extraction, or whose write to the partials file, fails. */
  ghost predicate FailsAt(a: Answers, k: nat, message: string) {
    && (forall i: nat :: i < k ==> a.extract(i).Ok? && a.encode(i).Ok?)
    && (if a.extract(k).Err? then Tells(a.extract(k), "", message) else Tells(a.encode(k), "write partial: ", message))
  }

  /** What is asked: the transcription, then the chunks in order up to the first failure, then the consolidation. */
  lemma RequestsSent(a: Answers, momLanguage: string)
    ensures var sent := Requests(a, momLanguage);
            && (sent == [] <==> a.mkdir.Err? || a.open.Err?)
            && (sent != [] ==> sent[0] == Transcribe)
            && (Preparation(a).Err? ==> |sent| <= 1)
            && (Preparation(a).Ok? ==>
                  var t := a.transcribe.value;
                  AsksChunks(sent[1..], a, ChunksOf(t.text), ResolveLanguage(momLanguage, t.language)))
  {
    hide ChunksOf, ResolveLanguage, FirstFailure;
    if Preparation(a).Ok? {
      var t := a.transcribe.value;
      var chunks, language := ChunksOf(t.text), ResolveLanguage(momLanguage, t.language);
      var n := |chunks|;
      assert Requests(a, momLanguage)[1..] ==
        Extracts(chunks, language, Attempted(a, n)) +
        (if FirstFailure(a, n) == n && a.readBack.Ok? then [Consolidate(Notes(a, n), language)] else []);
    }
  }

  /** One request per chunk, up to the first that fails; if none does, the consolidation gets all their notes. */
  ghost predicate AsksChunks(sent: seq<AiRequest>, a: Answers, chunks: seq<string>, language: string) {
    var n := |chunks|;
    var k := Attempted(a, n);
    && k <= |sent| && (forall i: nat :: i < k ==> sent[i] == Extract(chunks[i], language))
    && (if FirstFailure(a, n) < n || a.readBack.Err? then |sent| == k
        else |sent| == n + 1 && sent[n].Consolidate? && sent[n].language == language && |sent[n].partials| == n &&
             forall i: nat :: i < n ==> sent[n].partials[i] == a.extract(i).value)
  }

  /** The state of a step tells how its calls ended; only a failed write leaves one running. */
  lemma PlanTells(a: Answers, momLanguage: string)
    ensures var plan := FinalPlan(a, momLanguage);
            && plan[0].title == "Transcribe audio" && TranscribeTells(plan[0], a, momLanguage)
            && (Preparation(a).Err? ==> |plan| == 1)
            && (Preparation(a).Ok? ==>
                  var n := |ChunksOf(a.transcribe.value.text)|;
                  var k := Attempted(a, n);
                  && |plan| == 1 + k + (if FirstFailure(a, n) == n then 1 else 0)
                  && ExtractsTell(plan[1..k + 1], a, n)
                  && (FirstFailure(a, n) == n ==>
                        plan[n + 1].title == "Consolidate minutes" && ConsolidateTells(plan[n + 1], a)))
  {
    hide ChunksOf, ResolveLanguage, FirstFailure, Decimal;
  }

  ghost predicate TranscribeTells(step: Step, a: Answers, momLanguage: string) {
    if a.open.Err? then step.state == StepState.Failed && step.detail == "could not open the upload"
    else if a.transcribe.Err? then step.state == StepState.Failed && step.detail == a.transcribe.message
    else if a.writeTranscript.Err? then step.state == StepState.Running && step.detail == ""
    else
      var language := ResolveLanguage(momLanguage, a.transcribe.value.language);
      && step.state == StepState.Done
      && step.detail == "transcribed (" + (if language == "" then "auto" else language) + ")"
  }

  ghost predicate ConsolidateTells(step: Step, a: Answers) {
    if a.readBack.Err? then step.state == StepState.Failed && step.detail == "read partials"
    else if a.consolidate.Err? then step.state == StepState.Failed && step.detail == a.consolidate.message
    else
      var minutes := a.consolidate.value;
      && step.state == StepState.Done
      && step.detail == Decimal(|minutes.discussions|) + " discussion points, " +
                        Decimal(|minutes.followUps|) + " follow-ups"
  }

  ghost predicate ExtractsTell(steps: seq<Step>, a: Answers, n: nat) {
    forall i: nat :: i < |steps| ==> ExtractTells(steps[i], a, i, n)
  }

  ghost predicate ExtractTells(step: Step, a: Answers, i: nat, n: nat) {
    && step.title == "Extract notes — chunk " + Decimal(i + 1) + "/" + Decimal(n)
    && (a.extract(i).Err? ==> step.state == StepState.Failed && step.detail == a.extract(i).message)
    && (a.extract(i).Ok? && a.encode(i).Err? ==> step.state == StepState.Running && step.detail == "")
    && (a.extract(i).Ok? && a.encode(i).Ok? ==>
          var part := a.extract(i).value;
          && step.state == StepState.Done
          && step.detail == Decimal(|part.discussions|) + " points, " + Decimal(|part.followUps|) + " follow-ups")
  }

  // ----- what a successful run has read -----

  /** One extraction request per chunk, in order, and a consolidation of the notes they were answered with. */
  ghost predicate AsksAll(sent: seq<AiRequest>, a: Answers, chunks: seq<string>, language: string) {
    var n := |chunks|;
    && |sent| == n + 2 && sent[0] == Transcribe
    && (forall k: nat :: k < n ==> a.extract(k).Ok? && sent[k + 1] == Extract(chunks[k], language))
    && sent[n + 1].Consolidate? && sent[n + 1].language == language && |sent[n + 1].partials| == n
    && forall k: nat :: k < n ==> sent[n + 1].partials[k] == a.extract(k).value
  }

  /**
   * A successful run asked for one extraction per chunk, in order; the chunks hold the words of the whole
   * transcript; and the consolidation got the notes of every chunk, in that order.
   */
  lemma NothingLost(a: Answers, momLanguage: string)
    requires Produced(a).Ok?
    ensures a.transcribe.Ok? && Produced(a).value == MomResult(a.consolidate.value, a.transcribe.value.text)
    ensures var t := a.transcribe.value;
            var chunks := ChunksOf(t.text);
            && AsksAll(Requests(a, momLanguage), a, chunks, ResolveLanguage(momLanguage, t.language))
            && AreWordsOf(Reassemble(WordsOf(chunks), OVERLAP_WORDS), t.text)
  {
    hide *;
    Succeeded(a);
    var t := a.transcribe.value;
    RequestsSent(a, momLanguage);
    AllAsked(Requests(a, momLanguage), a, ChunksOf(t.text), ResolveLanguage(momLanguage, t.language));
    TranscriptRead(t.text);
  }

  lemma TranscriptRead(text: string)
    ensures AreWordsOf(Reassemble(WordsOf(ChunksOf(text)), OVERLAP_WORDS), text)
  {
    hide Reassemble, Fields, AreWordsOf, WordsOf;
    ChunksReadBack(text, ChunksOf(text), CHUNK_WORDS, OVERLAP_WORDS);
  }

  lemma AllAsked(sent: seq<AiRequest>, a: Answers, chunks: seq<string>, language: string)
    requires sent != [] && sent[0] == Transcribe && AsksChunks(sent[1..], a, chunks, language)
    requires FirstFailure(a, |chunks|) == |chunks| && a.readBack.Ok?
    ensures AsksAll(sent, a, chunks, language)
  {
    var rest, n := sent[1..], |chunks|;
    assert Attempted(a, n) == n;
    hide FirstFailure, Attempted;
    assert forall k: nat :: k < |rest| ==> sent[k + 1] == rest[k];
  }

  /** A run succeeds only if every call does. */
  lemma Succeeded(a: Answers)
    requires Produced(a).Ok?
    ensures a.mkdir.Ok? && a.open.Ok? && a.transcribe.Ok? && Preparation(a).Ok?
    ensures FirstFailure(a, |ChunksOf(a.transcribe.value.text)|) == |ChunksOf(a.transcribe.value.text)|
    ensures a.readBack.Ok? && a.consolidate.Ok?
    ensures Produced(a).value == MomResult(a.consolidate.value, a.transcribe.value.text)
  {
    hide ChunksOf, FirstFailure, Notes;
  }
}
