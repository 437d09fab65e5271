/**
 * The job service of main.py: the in-memory `jobs` registry, the websocket
 * `ConnectionManager`, the two request handlers that validate input and
 * create jobs, the background pipeline run for a job, and the status and
 * download lookups.
 *
 * The external steps of the pipeline (making directories, ffmpeg, Whisper,
 * the language model, moviepy, writing files, yt-dlp) are abstract outcomes
 * supplied in an environment value; the order of the steps, the progress
 * announcements and the error handling follow main.py step by step. A file
 * the service opens itself (the upload, subtitles.srt, metadata.json) exists
 * from its `open` on, so a write into it that raises leaves it behind; a
 * file an external tool produces is counted only when the tool returns.
 */
module Server {
  import opened Wrappers
  import opened PyText
  import opened Records
  import VideoProcessor
  import SubtitleExtractor

  const UploadDir: string := "uploads"
  const OutputDir: string := "outputs"
  const MaxVideoSizeMB: nat := 500
  const BytesPerMB: nat := 1024 * 1024

  /** `os.path.join(dir, name)` for a relative directory and a plain file name. */
  function PathJoin(dir: string, name: string): string {
    dir + "/" + name
  }

  // ---------------------------------------------------------------------------
  // Job records

  datatype Status = Processing | Completed | Error

  /** The `metadata` dict written to metadata.json and stored on the job. */
  datatype Metadata = Metadata(
    jobId: string,
    filename: string,
    highlights: seq<Highlight>,
    subtitles: seq<Subtitle>,
    numHighlights: nat,
    numSubtitles: nat,
    processedAt: string)

  /**
   * A `jobs[job_id]` dict; a key the dict does not hold is `None` (the error
   * record of a rejected upload has only a status and a message).
   */
  datatype Job = Job(
    status: Status,
    progress: Option<int>,
    message: string,
    createdAt: Option<string>,
    outputDir: Option<string>,
    metadata: Option<Metadata>)

  /** What `update_job` does to the record. */
  function WithUpdate(job: Job, status: Status, progress: int, message: string): Job {
    job.(status := status, progress := Some(Min(progress, 100)), message := message)
  }

  /** What an `except` block of the pipeline does to the record. */
  function WithError(job: Job, reason: string): Job {
    job.(status := Error, message := reason)
  }

  /** The five assignments that close a successful run. */
  function WithCompletion(job: Job, outputDir: string, metadata: Metadata): Job {
    job.(status := Completed, progress := Some(100), message := "Processing completed successfully!",
         outputDir := Some(outputDir), metadata := Some(metadata))
  }

  // ---------------------------------------------------------------------------
  // The websocket connection registry

  /** A websocket, by identity. */
  datatype Observer = Observer(socket: nat)

  /** One `send_json` attempt of a broadcast; `delivered` is false when the send raised. */
  datatype Delivery = Delivery(observer: Observer, delivered: bool)

  /** One `broadcast` call: the job, the record sent, and the attempts in order. */
  datatype Publication = Publication(jobId: string, message: Job, deliveries: seq<Delivery>)

  /** The attempts a broadcast makes to `observers` when the sockets in `closed` raise. */
  function Deliveries(observers: seq<Observer>, closed: set<Observer>): seq<Delivery> {
    if observers == [] then []
    else
      var last := observers[|observers| - 1];
      Deliveries(observers[..|observers| - 1], closed) + [Delivery(last, last !in closed)]
  }

  /**
   * A broadcast tries every listed observer exactly once, in list order, and
   * reaches exactly the ones whose socket is open.
   */
  lemma {:induction false} DeliveriesSpec(observers: seq<Observer>, closed: set<Observer>)
    ensures var d := Deliveries(observers, closed);
            && |d| == |observers|
            && forall i :: 0 <= i < |d| ==>
                 d[i].observer == observers[i] && (d[i].delivered <==> observers[i] !in closed)
  {
    if observers != [] {
      DeliveriesSpec(observers[..|observers| - 1], closed);
    }
  }

  /** The position of the first occurrence of `x`. */
  function IndexOf(s: seq<Observer>, x: Observer): (i: nat)
    requires x in s
    ensures i < |s| && s[i] == x && x !in s[..i]
  {
    if s[0] == x then 0
    else
      assert s == [s[0]] + s[1..];
      var k := IndexOf(s[1..], x);
      assert s[..k + 1] == [s[0]] + s[1..][..k];
      k + 1
  }

  /** Python's `list.remove(x)`: drop the first occurrence. */
  function RemoveFirst(s: seq<Observer>, x: Observer): seq<Observer>
    requires x in s
  {
    s[..IndexOf(s, x)] + s[IndexOf(s, x) + 1..]
  }

  /**
   * `remove` takes out exactly one occurrence and keeps the rest in order:
   * one element fewer, one `x` fewer, and everything before the first `x`
   * untouched.
   */
  lemma RemoveFirstSpec(s: seq<Observer>, x: Observer)
    requires x in s
    ensures var r := RemoveFirst(s, x);
            && |r| == |s| - 1
            && multiset(r) + multiset{x} == multiset(s)
            && r[..IndexOf(s, x)] == s[..IndexOf(s, x)]
            && forall i :: IndexOf(s, x) <= i < |r| ==> r[i] == s[i + 1]
  {
    DropAt(s, IndexOf(s, x));
  }

  lemma DropAt(s: seq<Observer>, i: nat)
    requires i < |s|
    ensures var r := s[..i] + s[i + 1..];
            && |r| == |s| - 1
            && multiset(r) + multiset{s[i]} == multiset(s)
            && r[..i] == s[..i]
            && forall k :: i <= k < |r| ==> r[k] == s[k + 1]
  {
    var r := s[..i] + s[i + 1..];
    assert s == s[..i] + [s[i]] + s[i + 1..];
    calc {
      multiset(s);
      multiset(s[..i] + [s[i]] + s[i + 1..]);
      multiset(s[..i]) + multiset{s[i]} + multiset(s[i + 1..]);
      multiset(r) + multiset{s[i]};
    }
    assert r[..i] == s[..i];
  }

  /** Disconnecting a socket that was connected last, and only once, restores the list. */
  lemma RemoveFirstUndoesAppend(s: seq<Observer>, x: Observer)
    requires x !in s
    ensures RemoveFirst(s + [x], x) == s
  {
    var t := s + [x];
    assert forall k :: 0 <= k < |s| ==> t[k] == s[k] && t[k] != x;
    assert t[..|s|] == s;
  }

  /** `ConnectionManager`: the open websockets per job, and the log of what was broadcast. */
  class ConnectionManager {
    var active: map<string, seq<Observer>>
    ghost var published: seq<Publication>

    constructor()
      ensures active == map[] && published == []
    {
      active := map[];
      published := [];
    }

    /** The sockets listening on a job; none for a job nobody connected to. */
    function Listeners(jobId: string): seq<Observer>
      reads this
    {
      if jobId in active then active[jobId] else []
    }

    /** `connect`: append, creating the list when the job has none. */
    method Connect(observer: Observer, jobId: string)
      modifies this
      ensures active == old(active)[jobId := old(Listeners(jobId)) + [observer]]
      ensures published == old(published)
    {
      if jobId !in active {
        active := active[jobId := []];
      }
      active := active[jobId := active[jobId] + [observer]];
    }

    /**
     * `disconnect`: nothing for an unknown job; otherwise `list.remove`, which
     * raises `ValueError` (`ok` false, nothing changed) when the socket is not
     * in the list.
     */
    method Disconnect(jobId: string, observer: Observer) returns (ok: bool)
      modifies this
      ensures jobId !in old(active) ==> ok && active == old(active)
      ensures jobId in old(active) ==> (ok <==> observer in old(active)[jobId])
      ensures jobId in old(active) && observer in old(active)[jobId] ==>
                active == old(active)[jobId := RemoveFirst(old(active)[jobId], observer)]
      ensures !ok ==> active == old(active)
      ensures published == old(published)
    {
      ok := true;
      if jobId in active {
        if observer in active[jobId] {
          active := active[jobId := RemoveFirst(active[jobId], observer)];
        } else {
          ok := false;
        }
      }
    }

    /**
     * The connection bookkeeping of `websocket_endpoint`: connect, then, once
     * the socket goes away, disconnect. A fresh socket leaves the job's list
     * as it found it, though a job nobody listened to keeps an empty list.
     */
    method Session(observer: Observer, jobId: string)
      modifies this
      ensures observer !in old(Listeners(jobId)) ==> active == old(active)[jobId := old(Listeners(jobId))]
      ensures active == old(active)[jobId := RemoveFirst(old(Listeners(jobId)) + [observer], observer)]
      ensures published == old(published)
    {
      Connect(observer, jobId);
      var ok := Disconnect(jobId, observer);
      if observer !in old(Listeners(jobId)) {
        RemoveFirstUndoesAppend(old(Listeners(jobId)), observer);
      }
    }

    /**
     * `broadcast`: try each listed socket in order, swallow the failure of a
     * socket in `closed`, and never change the lists.
     */
    method Broadcast(jobId: string, message: Job, closed: set<Observer>)
      modifies this
      ensures active == old(active)
      ensures published == old(published) + [Publication(jobId, message, Deliveries(old(Listeners(jobId)), closed))]
    {
      var deliveries: seq<Delivery> := [];
      if jobId in active {
        var connections := active[jobId];
        for i := 0 to |connections|
          invariant deliveries == Deliveries(connections[..i], closed)
        {
          assert connections[..i + 1][..i] == connections[..i];
          var connection := connections[i];
          var delivered := connection !in closed;
          deliveries := deliveries + [Delivery(connection, delivered)];
        }
        assert connections[..|connections|] == connections;
      }
      published := published + [Publication(jobId, message, deliveries)];
    }
  }

  /** The broadcasts of a run that sends each of `snapshots` in turn. */
  function Publications(jobId: string, snapshots: seq<Job>, observers: seq<Observer>, closed: set<Observer>)
    : seq<Publication>
  {
    seq(|snapshots|, i requires 0 <= i < |snapshots| => Publication(jobId, snapshots[i], Deliveries(observers, closed)))
  }

  lemma PublicationsSnoc(jobId: string, snapshots: seq<Job>, job: Job, observers: seq<Observer>, closed: set<Observer>)
    ensures Publications(jobId, snapshots + [job], observers, closed)
         == Publications(jobId, snapshots, observers, closed) + [Publication(jobId, job, Deliveries(observers, closed))]
  {
  }

  // ---------------------------------------------------------------------------
  // The pipeline as a step machine

  /** The result of an external step: it returned, or it raised with this text. */
  datatype Outcome = Succeeded | Failed(reason: string)

  /**
   * A run of a pipeline: `Announce` is an `update_job` call, `Call` an
   * external step that writes `writes` when it returns, `Finish` the
   * completion block.
   */
  datatype Plan =
    | Announce(progress: int, message: string, next: Plan)
    | Call(outcome: Outcome, writes: set<string>, next: Plan)
    | Finish(outputDir: string, metadata: Metadata)

  /** The final record, every record broadcast in order, and the files written. */
  datatype Trace = Trace(final: Job, snapshots: seq<Job>, written: set<string>)

  /** Running a plan on a job record, with one `except` block around the whole run. */
  function Perform(job: Job, plan: Plan): Trace
    decreases plan
  {
    match plan
    case Announce(p, m, next) =>
      var updated := WithUpdate(job, Processing, p, m);
      var rest := Perform(updated, next);
      Trace(rest.final, [updated] + rest.snapshots, rest.written)
    case Call(outcome, writes, next) =>
      if outcome.Failed? then
        var failed := WithError(job, outcome.reason);
        Trace(failed, [failed], {})
      else
        var rest := Perform(job, next);
        Trace(rest.final, rest.snapshots, writes + rest.written)
    case Finish(dir, md) =>
      var done := WithCompletion(job, dir, md);
      Trace(done, [done], {})
  }

  /** The text of the first step that raises, if any. */
  function FirstFailure(plan: Plan): Option<string> {
    match plan
    case Announce(_, _, next) => FirstFailure(next)
    case Call(outcome, _, next) => if outcome.Failed? then Some(outcome.reason) else FirstFailure(next)
    case Finish(_, _) => None
  }

  /** The files of the steps that run and return, i.e. those before the first failure. */
  function Writes(plan: Plan): set<string> {
    match plan
    case Announce(_, _, next) => Writes(next)
    case Call(outcome, writes, next) => if outcome.Failed? then {} else writes + Writes(next)
    case Finish(_, _) => {}
  }

  /** The progress of a record, 0 when it has none. */
  function ProgressOf(job: Job): int {
    if job.progress.Some? then job.progress.value else 0
  }

  /**
   * What every run promises, for any plan:
   * - every record but the last is a `processing` one, and the last is the
   *   final record, so a run ends with exactly one terminal broadcast;
   * - the run ends in `error` exactly when a step raised, with that step's
   *   text as message and the progress of the record before it, and in
   *   `completed` (progress 100) otherwise;
   * - only the files of the steps before the failure are written, and the
   *   fields no step touches are kept.
   */
  lemma {:induction false} PerformOutcome(job: Job, plan: Plan)
    ensures var t := Perform(job, plan);
            && |t.snapshots| >= 1
            && t.snapshots[|t.snapshots| - 1] == t.final
            && (forall i :: 0 <= i < |t.snapshots| - 1 ==> t.snapshots[i].status == Processing)
            && (t.final.status == Error <==> FirstFailure(plan).Some?)
            && (t.final.status == Completed <==> FirstFailure(plan).None?)
            && (FirstFailure(plan).Some? ==>
                  && t.final.message == FirstFailure(plan).value
                  && t.final.progress == (if |t.snapshots| >= 2 then t.snapshots[|t.snapshots| - 2].progress else job.progress))
            && (FirstFailure(plan).None? ==> t.final.progress == Some(100))
            && t.written == Writes(plan)
            && t.final.createdAt == job.createdAt
            && (ProgressOf(job) <= 100 ==> ProgressOf(t.final) <= 100)
    decreases plan
  {
    match plan
    case Announce(p, m, next) =>
      PerformOutcome(WithUpdate(job, Processing, p, m), next);
    case Call(outcome, writes, next) =>
      if outcome.Succeeded? {
        PerformOutcome(job, next);
      }
    case Finish(_, _) =>
  }

  /**
   * The announced progress never goes below `from` and never decreases, and
   * `from` is at most 100.
   */
  predicate RisesFrom(plan: Plan, from: int) {
    from <= 100 &&
    match plan
    case Announce(p, _, next) => from <= p && RisesFrom(next, Min(p, 100))
    case Call(_, _, next) => RisesFrom(next, from)
    case Finish(_, _) => true
  }

  /** Every record carries a progress between `from` and 100, in non-decreasing order. */
  predicate Ascending(snapshots: seq<Job>, from: int) {
    && (forall i :: 0 <= i < |snapshots| ==>
          snapshots[i].progress.Some? && from <= ProgressOf(snapshots[i]) <= 100)
    && (forall i, j :: 0 <= i < j < |snapshots| ==> ProgressOf(snapshots[i]) <= ProgressOf(snapshots[j]))
  }

  /** A plan whose announcements rise gives a run whose broadcast progress rises. */
  lemma {:induction false} PerformRises(job: Job, plan: Plan)
    requires job.progress.Some? && RisesFrom(plan, job.progress.value)
    ensures Ascending(Perform(job, plan).snapshots, job.progress.value)
    decreases plan
  {
    match plan
    case Announce(p, m, next) =>
      var updated := WithUpdate(job, Processing, p, m);
      PerformRises(updated, next);
    case Call(outcome, writes, next) =>
      if outcome.Succeeded? {
        PerformRises(job, next);
      }
    case Finish(_, _) =>
  }

  /**
   * Conversely, when every step returns but the announcements do not rise,
   * some broadcast carries a smaller progress than the record held before it.
   */
  lemma {:induction false} PerformFalls(job: Job, plan: Plan) returns (i: nat, j: nat)
    requires job.progress.Some? && job.progress.value <= 100
    requires FirstFailure(plan).None? && !RisesFrom(plan, job.progress.value)
    ensures var s := [job] + Perform(job, plan).snapshots;
            i < j < |s| && ProgressOf(s[j]) < ProgressOf(s[i])
    decreases plan
  {
    match plan
    case Announce(p, m, next) =>
      var updated := WithUpdate(job, Processing, p, m);
      if p < job.progress.value {
        i, j := 0, 1;
      } else {
        i, j := PerformFalls(updated, next);
        i, j := i + 1, j + 1;
      }
    case Call(outcome, writes, next) =>
      i, j := PerformFalls(job, next);
  }

  /** The record a plan ends on when every step returns. */
  function Last(plan: Plan): (r: Plan)
    ensures r.Finish?
  {
    match plan
    case Announce(_, _, next) => Last(next)
    case Call(_, _, next) => Last(next)
    case Finish(_, _) => plan
  }

  /** A run in which every step returns ends on the output directory and metadata of its `Finish`. */
  lemma {:induction false} PerformCompletes(job: Job, plan: Plan)
    requires FirstFailure(plan).None?
    ensures var t := Perform(job, plan);
            && t.final.status == Completed
            && t.final.message == "Processing completed successfully!"
            && t.final.outputDir == Some(Last(plan).outputDir)
            && t.final.metadata == Some(Last(plan).metadata)
    decreases plan
  {
    match plan
    case Announce(p, m, next) =>
      PerformCompletes(WithUpdate(job, Processing, p, m), next);
    case Call(_, _, next) =>
      PerformCompletes(job, next);
    case Finish(_, _) =>
  }

  // ---------------------------------------------------------------------------
  // The two pipelines

  /**
   * The outcome of every external step of `process_video_async`, the values
   * the successful ones return, the duration of the resized video, the
   * clock reading for `processed_at`, and the sockets whose sends raise.
   * Opening subtitles.srt and metadata.json (which creates the file) and
   * writing into it are separate steps, since the file stays behind when the
   * write raises.
   */
  datatype VideoEnv = VideoEnv(
    makeDirs: Outcome,
    extractAudio: Outcome,
    transcribe: Outcome,
    subtitles: seq<Subtitle>,
    detect: Outcome,
    highlights: seq<Highlight>,
    resize: Outcome,
    openSrt: Outcome,
    writeSrt: Outcome,
    burnSubtitles: Outcome,
    createReel: Outcome,
    duration: int,
    openMetadata: Outcome,
    writeMetadata: Outcome,
    processedAt: string,
    closed: set<Observer>)

  /** Audio extraction, transcription and highlight detection all return. */
  predicate AnalysisSucceeds(env: VideoEnv) {
    env.extractAudio.Succeeded? && env.transcribe.Succeeded? && env.detect.Succeeded?
  }

  /** Resizing, both steps of the subtitle file, burning and the reel all return. */
  predicate RenderSucceeds(env: VideoEnv) {
    && env.resize.Succeeded? && env.openSrt.Succeeded? && env.writeSrt.Succeeded?
    && env.burnSubtitles.Succeeded? && env.createReel.Succeeded?
  }

  /** Every step before the dump returns, so metadata.json is created. */
  predicate MetadataOpened(env: VideoEnv) {
    env.makeDirs.Succeeded? && AnalysisSucceeds(env) && RenderSucceeds(env) && env.openMetadata.Succeeded?
  }

  /** Every external step of the run returns. */
  predicate StepsSucceed(env: VideoEnv) {
    MetadataOpened(env) && env.writeMetadata.Succeeded?
  }

  function JobOutputDir(jobId: string): string {
    PathJoin(OutputDir, jobId)
  }

  /** The reel is written only when at least one clip survives the selection. */
  function ReelFiles(dir: string, env: VideoEnv): set<string> {
    if VideoProcessor.SelectClips(env.highlights, env.duration) != [] then {PathJoin(dir, "highlights.mp4")} else {}
  }

  /** Every file the render stage can leave behind. */
  function RenderFiles(dir: string, env: VideoEnv): set<string> {
    {PathJoin(dir, "resized.mp4"), PathJoin(dir, "subtitles.srt"), PathJoin(dir, "final_with_subtitles.mp4")}
    + ReelFiles(dir, env)
  }

  function RunMetadata(jobId: string, filename: string, env: VideoEnv): Metadata {
    Metadata(jobId, filename, env.highlights, env.subtitles, |env.highlights|, |env.subtitles|, env.processedAt)
  }

  /** `process_video_async` as a plan: each `update_job` and each external step, in order. */
  function VideoPlan(jobId: string, filename: string, start: int, env: VideoEnv): Plan {
    var dir := JobOutputDir(jobId);
    Call(env.makeDirs, {},
    AnalysisPlan(dir, start, env, RenderPlan(dir, start, env, FinalPlan(jobId, filename, env))))
  }

  /** Audio extraction, transcription and highlight detection (main.py:205-216). */
  function AnalysisPlan(dir: string, start: int, env: VideoEnv, next: Plan): Plan {
    Announce(start + 20, "Extracting audio...",
    Call(env.extractAudio, {PathJoin(dir, "audio.mp3")},
    Announce(start + 35, "Extracting subtitles using Whisper...",
    Call(env.transcribe, {},
    Announce(start + 50, "Detecting highlights with GPT-4...",
    Call(env.detect, {},
    next))))))
  }

  /**
   * Resizing, the subtitle file (opened, which creates it, then written),
   * burning the subtitles in, and the reel (main.py:218-233).
   */
  function RenderPlan(dir: string, start: int, env: VideoEnv, next: Plan): Plan {
    Announce(start + 60, "Resizing video to 9:16 vertical format...",
    Call(env.resize, {PathJoin(dir, "resized.mp4")},
    Announce(start + 70, "Embedding subtitles into video...",
    Call(env.openSrt, {PathJoin(dir, "subtitles.srt")},
    Call(env.writeSrt, {},
    Call(env.burnSubtitles, {PathJoin(dir, "final_with_subtitles.mp4")},
    Announce(start + 80, "Creating highlight reel...",
    Call(env.createReel, ReelFiles(dir, env),
    next))))))))
  }

  /** metadata.json (opened, which creates it, then dumped) and the completion block (main.py:235-256). */
  function FinalPlan(jobId: string, filename: string, env: VideoEnv): Plan {
    var dir := JobOutputDir(jobId);
    Announce(95, "Finalizing results...",
    Call(env.openMetadata, {PathJoin(dir, "metadata.json")},
    Call(env.writeMetadata, {},
    Finish(dir, RunMetadata(jobId, filename, env)))))
  }

  /** How the yt-dlp call ends. */
  datatype Download = Downloaded | ToolFailed(stderr: string) | Crashed(text: string)

  /** `download_video_from_url` rewraps a tool failure and re-raises anything else as is. */
  function DownloadOutcome(d: Download): Outcome {
    match d
    case Downloaded => Succeeded
    case ToolFailed(stderr) => Failed("Failed to download video: " + stderr)
    case Crashed(text) => Failed(text)
  }

  function DownloadPath(jobId: string): string {
    PathJoin(UploadDir, jobId + "_video.mp4")
  }

  /** `process_url_async` as a plan: two announcements around the download, then the video run from 15. */
  function UrlPlan(jobId: string, download: Download, env: VideoEnv): Plan {
    Announce(5, "Downloading video from URL...",
    Call(DownloadOutcome(download), {DownloadPath(jobId)},
    Announce(15, "Video downloaded, starting processing...",
    VideoPlan(jobId, "video.mp4", 15, env))))
  }

  /**
   * The analysis stage passes control on exactly when its three steps return,
   * writes only the audio track, rises from `from` when the rest rises from
   * `start + 50`, and leaves the end of the run alone.
   */
  lemma AnalysisSteps(dir: string, start: int, env: VideoEnv, next: Plan, from: int)
    ensures var p := AnalysisPlan(dir, start, env, next);
            && (FirstFailure(p).None? <==> AnalysisSucceeds(env) && FirstFailure(next).None?)
            && (AnalysisSucceeds(env) ==> Writes(p) == {PathJoin(dir, "audio.mp3")} + Writes(next))
            && (!AnalysisSucceeds(env) ==> Writes(p) <= {PathJoin(dir, "audio.mp3")})
            && (RisesFrom(p, from) <==> from <= 100 && from <= start + 20 && RisesFrom(next, Min(start + 50, 100)))
            && Last(p) == Last(next)
  {
    var p0 := AnalysisPlan(dir, start, env, next);
    var p1 := p0.next; var p2 := p1.next; var p3 := p2.next; var p4 := p3.next; var p5 := p4.next;
    var m20, m35, m50 := Min(start + 20, 100), Min(start + 35, 100), Min(start + 50, 100);
    assert FirstFailure(p5).None? <==> env.detect.Succeeded? && FirstFailure(next).None?;
    assert FirstFailure(p4) == FirstFailure(p5);
    assert FirstFailure(p3).None? <==> env.transcribe.Succeeded? && FirstFailure(p4).None?;
    assert FirstFailure(p2) == FirstFailure(p3);
    assert FirstFailure(p1).None? <==> env.extractAudio.Succeeded? && FirstFailure(p2).None?;
    assert Writes(p5) == (if env.detect.Failed? then {} else Writes(next));
    assert Writes(p4) == Writes(p5);
    assert Writes(p3) == (if env.transcribe.Failed? then {} else Writes(p4));
    assert Writes(p2) == Writes(p3);
    assert Writes(p1) == (if env.extractAudio.Failed? then {} else {PathJoin(dir, "audio.mp3")} + Writes(p2));
    assert RisesFrom(p0, from) <==> from <= 100 && from <= start + 20 && RisesFrom(p1, m20);
    assert RisesFrom(p1, m20) <==> RisesFrom(p2, m20);
    assert RisesFrom(p2, m20) <==> RisesFrom(p3, m35);
    assert RisesFrom(p3, m35) <==> RisesFrom(p4, m35);
    assert RisesFrom(p4, m35) <==> RisesFrom(p5, m50);
    assert RisesFrom(p5, m50) <==> RisesFrom(next, m50);
    assert Last(p0) == Last(p1) == Last(p2) == Last(p3) == Last(p4) == Last(p5) == Last(next);
  }

  /**
   * The render stage passes control on exactly when its five steps return,
   * writes only its own files (all of them when it gets through), and rises
   * from `from` when the rest rises from `start + 80`.
   */
  lemma RenderSteps(dir: string, start: int, env: VideoEnv, next: Plan, from: int)
    ensures var p := RenderPlan(dir, start, env, next);
            && (FirstFailure(p).None? <==> RenderSucceeds(env) && FirstFailure(next).None?)
            && (RenderSucceeds(env) ==> Writes(p) == RenderFiles(dir, env) + Writes(next))
            && (!RenderSucceeds(env) ==> Writes(p) <= RenderFiles(dir, env))
            && (RisesFrom(p, from) <==> from <= 100 && from <= start + 60 && RisesFrom(next, Min(start + 80, 100)))
            && Last(p) == Last(next)
  {
    RenderFailure(dir, start, env, next);
    RenderWrites(dir, start, env, next);
    RenderRises(dir, start, env, next, from);
  }

  lemma RenderFailure(dir: string, start: int, env: VideoEnv, next: Plan)
    ensures var p := RenderPlan(dir, start, env, next);
            && (FirstFailure(p).None? <==> RenderSucceeds(env) && FirstFailure(next).None?)
            && Last(p) == Last(next)
  {
    var p0 := RenderPlan(dir, start, env, next);
    var p1 := p0.next; var p2 := p1.next; var p3 := p2.next; var p4 := p3.next;
    var p5 := p4.next; var p6 := p5.next; var p7 := p6.next;
    assert FirstFailure(p7).None? <==> env.createReel.Succeeded? && FirstFailure(next).None?;
    assert FirstFailure(p6) == FirstFailure(p7);
    assert FirstFailure(p5).None? <==> env.burnSubtitles.Succeeded? && FirstFailure(p6).None?;
    assert FirstFailure(p4).None? <==> env.writeSrt.Succeeded? && FirstFailure(p5).None?;
    assert FirstFailure(p3).None? <==> env.openSrt.Succeeded? && FirstFailure(p4).None?;
    assert FirstFailure(p2) == FirstFailure(p3);
    assert FirstFailure(p1).None? <==> env.resize.Succeeded? && FirstFailure(p2).None?;
    assert Last(p0) == Last(p1) == Last(p2) == Last(p3) == Last(p4) == Last(p5) == Last(p6) == Last(p7) == Last(next);
  }

  lemma RenderWrites(dir: string, start: int, env: VideoEnv, next: Plan)
    ensures var p := RenderPlan(dir, start, env, next);
            && (RenderSucceeds(env) ==> Writes(p) == RenderFiles(dir, env) + Writes(next))
            && (!RenderSucceeds(env) ==> Writes(p) <= RenderFiles(dir, env))
  {
    var p0 := RenderPlan(dir, start, env, next);
    var p1 := p0.next; var p2 := p1.next; var p3 := p2.next; var p4 := p3.next;
    var p5 := p4.next; var p6 := p5.next; var p7 := p6.next;
    var reel := ReelFiles(dir, env);
    assert Writes(p7) == (if env.createReel.Failed? then {} else reel + Writes(next));
    assert Writes(p6) == Writes(p7);
    assert Writes(p5) == (if env.burnSubtitles.Failed? then {} else {PathJoin(dir, "final_with_subtitles.mp4")} + Writes(p6));
    assert Writes(p4) == (if env.writeSrt.Failed? then {} else Writes(p5));
    assert Writes(p3) == (if env.openSrt.Failed? then {} else {PathJoin(dir, "subtitles.srt")} + Writes(p4));
    assert Writes(p2) == Writes(p3);
    assert Writes(p1) == (if env.resize.Failed? then {} else {PathJoin(dir, "resized.mp4")} + Writes(p2));
  }

  lemma RenderRises(dir: string, start: int, env: VideoEnv, next: Plan, from: int)
    ensures RisesFrom(RenderPlan(dir, start, env, next), from)
            <==> from <= 100 && from <= start + 60 && RisesFrom(next, Min(start + 80, 100))
  {
    var p0 := RenderPlan(dir, start, env, next);
    var p1 := p0.next; var p2 := p1.next; var p3 := p2.next; var p4 := p3.next;
    var p5 := p4.next; var p6 := p5.next; var p7 := p6.next;
    var m60, m70, m80 := Min(start + 60, 100), Min(start + 70, 100), Min(start + 80, 100);
    assert RisesFrom(p0, from) <==> from <= 100 && from <= start + 60 && RisesFrom(p1, m60);
    assert RisesFrom(p1, m60) <==> RisesFrom(p2, m60);
    assert RisesFrom(p2, m60) <==> RisesFrom(p3, m70);
    assert RisesFrom(p3, m70) <==> RisesFrom(p4, m70);
    assert RisesFrom(p4, m70) <==> RisesFrom(p5, m70);
    assert RisesFrom(p5, m70) <==> RisesFrom(p6, m70);
    assert RisesFrom(p6, m70) <==> RisesFrom(p7, m80);
    assert RisesFrom(p7, m80) <==> RisesFrom(next, m80);
  }


  /**
   * The final stage: it passes on to the completion block exactly when both
   * steps on metadata.json return, creates that file as soon as the open
   * returns (whether or not the dump then raises), and rises from `from`
   * exactly when `from` is at most 95.
   */
  lemma FinalSteps(jobId: string, filename: string, env: VideoEnv, from: int)
    ensures var p := FinalPlan(jobId, filename, env);
            && (FirstFailure(p).None? <==> env.openMetadata.Succeeded? && env.writeMetadata.Succeeded?)
            && Writes(p) == (if env.openMetadata.Succeeded? then {PathJoin(JobOutputDir(jobId), "metadata.json")} else {})
            && (RisesFrom(p, from) <==> from <= 95)
            && Last(p) == Finish(JobOutputDir(jobId), RunMetadata(jobId, filename, env))
  {
    var p0 := FinalPlan(jobId, filename, env);
    var p1 := p0.next; var p2 := p1.next; var p3 := p2.next;
    assert FirstFailure(p2).None? <==> env.writeMetadata.Succeeded?;
    assert FirstFailure(p1).None? <==> env.openMetadata.Succeeded? && FirstFailure(p2).None?;
    assert Writes(p2) == {};
    assert RisesFrom(p0, from) <==> from <= 95 && RisesFrom(p1, 95);
    assert RisesFrom(p1, 95) && RisesFrom(p2, 95);
    assert Last(p0) == Last(p1) == Last(p2) == p3;
  }

  /** The run stops at a failure exactly when some external step raises. */
  lemma VideoPlanFailure(jobId: string, filename: string, start: int, env: VideoEnv)
    ensures FirstFailure(VideoPlan(jobId, filename, start, env)).None? <==> StepsSucceed(env)
  {
    var dir := JobOutputDir(jobId);
    var fin := FinalPlan(jobId, filename, env);
    FinalSteps(jobId, filename, env, 0);
    RenderSteps(dir, start, env, fin, 0);
    AnalysisSteps(dir, start, env, RenderPlan(dir, start, env, fin), 0);
  }

  /** The files a run of the video plan leaves when every step returns. */
  function Artifacts(jobId: string, env: VideoEnv): set<string> {
    var dir := JobOutputDir(jobId);
    {PathJoin(dir, "audio.mp3"), PathJoin(dir, "resized.mp4"), PathJoin(dir, "subtitles.srt"),
     PathJoin(dir, "final_with_subtitles.mp4"), PathJoin(dir, "metadata.json")} + ReelFiles(dir, env)
  }

  lemma MetadataPathDistinct(dir: string)
    ensures var m := PathJoin(dir, "metadata.json");
            && m != PathJoin(dir, "audio.mp3") && m != PathJoin(dir, "resized.mp4")
            && m != PathJoin(dir, "subtitles.srt") && m != PathJoin(dir, "final_with_subtitles.mp4")
            && m != PathJoin(dir, "highlights.mp4")
  {
    var k := |dir| + 1;
    assert PathJoin(dir, "metadata.json")[k] == 'm';
    assert PathJoin(dir, "subtitles.srt")[k] == 's';
  }

  /**
   * A run in which every step returns writes the audio track, the resized
   * video, the subtitle file, the subtitled video, the metadata and, when
   * some clip survives the selection, the reel.
   */
  lemma VideoPlanWrites(jobId: string, filename: string, start: int, env: VideoEnv)
    requires StepsSucceed(env)
    ensures Writes(VideoPlan(jobId, filename, start, env)) == Artifacts(jobId, env)
  {
    var dir := JobOutputDir(jobId);
    var fin := FinalPlan(jobId, filename, env);
    FinalSteps(jobId, filename, env, 0);
    RenderSteps(dir, start, env, fin, 0);
    AnalysisSteps(dir, start, env, RenderPlan(dir, start, env, fin), 0);
  }

  /**
   * metadata.json exists after a run exactly when every step up to and
   * including its `open` returned; a dump that raises leaves it behind.
   */
  lemma VideoPlanMetadata(jobId: string, filename: string, start: int, env: VideoEnv)
    ensures PathJoin(JobOutputDir(jobId), "metadata.json") in Writes(VideoPlan(jobId, filename, start, env))
            <==> MetadataOpened(env)
  {
    var dir := JobOutputDir(jobId);
    var fin := FinalPlan(jobId, filename, env);
    MetadataPathDistinct(dir);
    FinalSteps(jobId, filename, env, 0);
    RenderSteps(dir, start, env, fin, 0);
    AnalysisSteps(dir, start, env, RenderPlan(dir, start, env, fin), 0);
  }

  /** When the directory cannot be made or the audio cannot be extracted, no file is written. */
  lemma VideoPlanEarlyFailure(jobId: string, filename: string, start: int, env: VideoEnv)
    requires env.makeDirs.Failed? || env.extractAudio.Failed?
    ensures Writes(VideoPlan(jobId, filename, start, env)) == {}
  {
    var p0 := VideoPlan(jobId, filename, start, env);
    var p1 := p0.next; var p2 := p1.next;
    assert Writes(p1) == Writes(p2);
  }

  /**
   * With `start_progress` at most 15, the announced progress rises from any
   * starting value up to `start_progress + 20`; above 15, the announcement of
   * 95 comes after a larger one.
   */
  lemma VideoPlanRises(jobId: string, filename: string, start: int, env: VideoEnv, from: int)
    requires from <= 100 && from <= start + 20
    ensures RisesFrom(VideoPlan(jobId, filename, start, env), from) <==> start <= 15
  {
    var dir := JobOutputDir(jobId);
    var fin := FinalPlan(jobId, filename, env);
    FinalSteps(jobId, filename, env, Min(start + 80, 100));
    RenderSteps(dir, start, env, fin, Min(start + 50, 100));
    AnalysisSteps(dir, start, env, RenderPlan(dir, start, env, fin), from);
  }

  /** A run that gets through every step ends on the job's output directory and its metadata. */
  lemma VideoPlanLast(jobId: string, filename: string, start: int, env: VideoEnv)
    ensures Last(VideoPlan(jobId, filename, start, env)) == Finish(JobOutputDir(jobId), RunMetadata(jobId, filename, env))
  {
    var dir := JobOutputDir(jobId);
    var fin := FinalPlan(jobId, filename, env);
    FinalSteps(jobId, filename, env, 0);
    RenderSteps(dir, start, env, fin, 0);
    AnalysisSteps(dir, start, env, RenderPlan(dir, start, env, fin), 0);
  }

  /**
   * A run of the video plan, summed up: it completes exactly when every
   * external step returns, and then with progress 100, the job's output
   * directory, the run's metadata and every artifact written; otherwise it
   * ends in `error`, and metadata.json is left behind exactly when only the
   * dump into it raised.
   */
  lemma VideoRunOutcome(job: Job, jobId: string, filename: string, start: int, env: VideoEnv)
    ensures var t := Perform(job, VideoPlan(jobId, filename, start, env));
            && (t.final.status == Completed <==> StepsSucceed(env))
            && (t.final.status == Error <==> !StepsSucceed(env))
            && (StepsSucceed(env) ==>
                  && t.final.progress == Some(100)
                  && t.final.message == "Processing completed successfully!"
                  && t.final.outputDir == Some(JobOutputDir(jobId))
                  && t.final.metadata == Some(RunMetadata(jobId, filename, env))
                  && t.written == Artifacts(jobId, env))
            && (PathJoin(JobOutputDir(jobId), "metadata.json") in t.written <==> MetadataOpened(env))
            && t.final.createdAt == job.createdAt
  {
    var plan := VideoPlan(jobId, filename, start, env);
    PerformOutcome(job, plan);
    VideoPlanFailure(jobId, filename, start, env);
    VideoPlanMetadata(jobId, filename, start, env);
    if StepsSucceed(env) {
      PerformCompletes(job, plan);
      VideoPlanLast(jobId, filename, start, env);
      VideoPlanWrites(jobId, filename, start, env);
    }
  }

  /** The URL run stops at a failure exactly when the download or some later step raises. */
  lemma UrlPlanFailure(jobId: string, download: Download, env: VideoEnv)
    ensures FirstFailure(UrlPlan(jobId, download, env)).None? <==> download.Downloaded? && StepsSucceed(env)
  {
    VideoPlanFailure(jobId, "video.mp4", 15, env);
    var p := UrlPlan(jobId, download, env);
    assert FirstFailure(p) == FirstFailure(p.next);
    assert download.Downloaded? ==> FirstFailure(p.next) == FirstFailure(p.next.next);
    assert FirstFailure(p.next.next) == FirstFailure(VideoPlan(jobId, "video.mp4", 15, env));
  }

  /**
   * The announced progress of the URL run rises from 0 (the record
   * `process_video_url` creates) through 5, 15 and then the video plan
   * started at 15.
   */
  lemma UrlPlanRises(jobId: string, download: Download, env: VideoEnv, from: int)
    requires from <= 5
    ensures RisesFrom(UrlPlan(jobId, download, env), from)
  {
    VideoPlanRises(jobId, "video.mp4", 15, env, 15);
    var p := UrlPlan(jobId, download, env);
    assert RisesFrom(p.next.next, 5);
    assert RisesFrom(p.next, 5);
  }

  /**
   * The URL run is the download framed by two announcements, followed by the
   * video run started at 15: a failed download ends it with one `error`
   * broadcast and nothing written; a successful one writes the download and
   * hands over to the video run, whose own failures are not reported twice.
   */
  lemma UrlRunComposes(job: Job, jobId: string, download: Download, env: VideoEnv)
    ensures var j5 := WithUpdate(job, Processing, 5, "Downloading video from URL...");
            var t := Perform(job, UrlPlan(jobId, download, env));
            && (!download.Downloaded? ==>
                  var failed := WithError(j5, DownloadOutcome(download).reason);
                  t == Trace(failed, [j5, failed], {}))
            && (download.Downloaded? ==>
                  var j15 := WithUpdate(j5, Processing, 15, "Video downloaded, starting processing...");
                  var v := Perform(j15, VideoPlan(jobId, "video.mp4", 15, env));
                  t == Trace(v.final, [j5, j15] + v.snapshots, {DownloadPath(jobId)} + v.written))
  {
    var j5 := WithUpdate(job, Processing, 5, "Downloading video from URL...");
    var p := UrlPlan(jobId, download, env);
    assert Perform(job, p).snapshots == [j5] + Perform(j5, p.next).snapshots;
    if download.Downloaded? {
      var j15 := WithUpdate(j5, Processing, 15, "Video downloaded, starting processing...");
      var v := Perform(j15, VideoPlan(jobId, "video.mp4", 15, env));
      assert Perform(j5, p.next.next) == Trace(v.final, [j15] + v.snapshots, v.written);
      assert [j5] + ([j15] + v.snapshots) == [j5, j15] + v.snapshots;
    }
  }

  // ---------------------------------------------------------------------------
  // Following a run step by step

  /** Where a run stands: the current record, the rest of the plan, and what was broadcast and written so far. */
  datatype Cursor = Cursor(job: Job, rest: Plan, snapshots: seq<Job>, written: set<string>)

  /** The whole run, seen from a cursor. */
  function Resume(c: Cursor): Trace {
    var t := Perform(c.job, c.rest);
    Trace(t.final, c.snapshots + t.snapshots, c.written + t.written)
  }

  predicate CanStep(c: Cursor) {
    c.rest.Announce? || (c.rest.Call? && c.rest.outcome.Succeeded?)
  }

  function Step(c: Cursor): Cursor
    requires CanStep(c)
  {
    match c.rest
    case Announce(p, m, next) =>
      var j := WithUpdate(c.job, Processing, p, m);
      Cursor(j, next, c.snapshots + [j], c.written)
    case Call(_, w, next) => Cursor(c.job, next, c.snapshots, c.written + w)
  }

  lemma StepResumes(c: Cursor)
    requires CanStep(c)
    ensures Resume(Step(c)) == Resume(c)
  {
    match c.rest
    case Announce(p, m, next) =>
      var j := WithUpdate(c.job, Processing, p, m);
      var t := Perform(j, next);
      assert c.snapshots + [j] + t.snapshots == c.snapshots + ([j] + t.snapshots);
    case Call(_, w, next) =>
  }

  /** A cursor at a raising step or at the completion block sees the run's last record. */
  lemma StopResumes(c: Cursor)
    requires (c.rest.Call? && c.rest.outcome.Failed?) || c.rest.Finish?
    ensures var last := if c.rest.Call? then WithError(c.job, c.rest.outcome.reason)
                        else WithCompletion(c.job, c.rest.outputDir, c.rest.metadata);
            Resume(c) == Trace(last, c.snapshots + [last], c.written)
  {
  }

  // ---------------------------------------------------------------------------
  // The service

  /** The body of an accepted `POST`: `{"job_id", "status": "processing", "message"}`. */
  datatype Started = Started(jobId: string, message: string)

  /** An `HTTPException`. */
  datatype HttpError = HttpError(status: nat, detail: string)

  /** `str()` of an `HTTPException`: the status code, a colon and the detail. */
  function ErrorText(e: HttpError): string {
    Decimal(e.status) + ": " + e.detail
  }

  /** The record `process_video` stores for a rejected upload: a status and a message only. */
  function ErrorRecord(message: string): Job {
    Job(Error, None, message, None, None, None)
  }

  /** `filename.endswith(('.mp4', '.avi', '.mov', '.mkv'))`. */
  predicate VideoExtension(filename: string) {
    EndsWith(filename, ".mp4") || EndsWith(filename, ".avi") || EndsWith(filename, ".mov") || EndsWith(filename, ".mkv")
  }

  function UploadPath(jobId: string, filename: string): string {
    PathJoin(UploadDir, jobId + "_" + filename)
  }

  /** `url.startswith(('http://', 'https://'))`. */
  predicate WebUrl(url: string) {
    StartsWith(url, "http://") || StartsWith(url, "https://")
  }

  /** `str(n)` of a three-digit status or limit, digit by digit. */
  lemma ThreeDigits(n: nat)
    requires 100 <= n < 1000
    ensures Decimal(n) == [DigitChar(n / 100), DigitChar(n / 10 % 10), DigitChar(n % 10)]
  {
    assert Decimal(n / 100) == [DigitChar(n / 100)];
    assert n / 10 / 10 == n / 100;
  }

  /** The detail of the rejection of an oversized upload, with the limit printed. */
  lemma TooLargeDetail()
    ensures "File too large (max " + Decimal(MaxVideoSizeMB) + "MB)" == "File too large (max 500MB)"
  {
    PrintedAs(500, "500");
  }

  /** `str(n)` of a three-digit number, given as a literal. */
  lemma PrintedAs(n: nat, text: string)
    requires 100 <= n < 1000 && |text| == 3
    requires text[0] == DigitChar(n / 100) && text[1] == DigitChar(n / 10 % 10) && text[2] == DigitChar(n % 10)
    ensures Decimal(n) == text
  {
    ThreeDigits(n);
  }

  datatype Origin = Origin(
    jobs: map<string, Job>,
    disk: set<string>,
    published: seq<Publication>,
    active: map<string, seq<Observer>>)

  /** The sockets listening on `jobId` when the run started. */
  function Subscribers(o: Origin, jobId: string): seq<Observer> {
    if jobId in o.active then o.active[jobId] else []
  }

  /** The `jobs` registry, the files on disk, and the connection manager. */
  class JobService {
    var jobs: map<string, Job>
    var disk: set<string>
    const manager: ConnectionManager

    /** No record ever shows a progress above 100. */
    ghost predicate Valid()
      reads this
    {
      forall id :: id in jobs ==> ProgressOf(jobs[id]) <= 100
    }

    /**
     * The service shows a run on `jobId` that started from `o` and has so far
     * left `job` as the record, broadcast `snapshots` and written `written`.
     */
    ghost predicate Shows(jobId: string, o: Origin, job: Job, snapshots: seq<Job>, written: set<string>, closed: set<Observer>)
      reads this, manager
    {
      && jobs == o.jobs[jobId := job]
      && disk == o.disk + written
      && manager.active == o.active
      && manager.published == o.published + Publications(jobId, snapshots, Subscribers(o, jobId), closed)
    }

    constructor(manager: ConnectionManager)
      ensures jobs == map[] && disk == {} && this.manager == manager
      ensures Valid()
    {
      jobs := map[];
      disk := {};
      this.manager := manager;
    }

    /**
     * `update_job`: set status, progress capped at 100 and message, then
     * broadcast the whole record.
     */
    method UpdateJob(jobId: string, status: Status, progress: int, message: string, closed: set<Observer>)
      requires jobId in jobs
      modifies this, manager
      ensures jobs == old(jobs)[jobId := WithUpdate(old(jobs[jobId]), status, progress, message)]
      ensures ProgressOf(jobs[jobId]) == Min(progress, 100)
      ensures disk == old(disk)
      ensures manager.active == old(manager.active)
      ensures manager.published == old(manager.published)
                + [Publication(jobId, jobs[jobId], Deliveries(manager.Listeners(jobId), closed))]
    {
      jobs := jobs[jobId := jobs[jobId].(status := status)];
      jobs := jobs[jobId := jobs[jobId].(progress := Some(Min(progress, 100)))];
      jobs := jobs[jobId := jobs[jobId].(message := message)];
      manager.Broadcast(jobId, jobs[jobId], closed);
    }

    /** The `except` block of the two pipelines: mark the record failed and broadcast it. */
    method FailJob(jobId: string, reason: string, closed: set<Observer>)
      requires jobId in jobs
      modifies this, manager
      ensures jobs == old(jobs)[jobId := WithError(old(jobs[jobId]), reason)]
      ensures disk == old(disk)
      ensures manager.active == old(manager.active)
      ensures manager.published == old(manager.published)
                + [Publication(jobId, jobs[jobId], Deliveries(manager.Listeners(jobId), closed))]
    {
      jobs := jobs[jobId := jobs[jobId].(status := Error)];
      jobs := jobs[jobId := jobs[jobId].(message := reason)];
      manager.Broadcast(jobId, jobs[jobId], closed);
    }

    /**
     * `process_video`: a bad extension, a failed open or write of the
     * upload and an oversized file each end as an error record and a 500 (the
     * generic handler catches the `HTTPException`s); the upload is on disk as
     * soon as it is opened, so before a failed write and before its size is
     * checked; otherwise a processing record at progress 0.
     */
    method ProcessVideo(jobId: string, filename: string, size: nat, open: Outcome, write: Outcome, now: string)
      returns (r: Result<Started, HttpError>)
      requires Valid()
      modifies this
      ensures Valid()
      ensures !VideoExtension(filename) ==>
                && r == Err(HttpError(500, ErrorText(HttpError(400, "Invalid video format"))))
                && jobs == old(jobs)[jobId := ErrorRecord(ErrorText(HttpError(400, "Invalid video format")))]
                && disk == old(disk)
      ensures VideoExtension(filename) && open.Failed? ==>
                && r == Err(HttpError(500, open.reason))
                && jobs == old(jobs)[jobId := ErrorRecord(open.reason)]
                && disk == old(disk)
      ensures VideoExtension(filename) && open.Succeeded? ==> disk == old(disk) + {UploadPath(jobId, filename)}
      ensures VideoExtension(filename) && open.Succeeded? && write.Failed? ==>
                && r == Err(HttpError(500, write.reason))
                && jobs == old(jobs)[jobId := ErrorRecord(write.reason)]
      ensures VideoExtension(filename) && open.Succeeded? && write.Succeeded? && size > MaxVideoSizeMB * BytesPerMB ==>
                && r == Err(HttpError(500, ErrorText(HttpError(413, "File too large (max 500MB)"))))
                && jobs == old(jobs)[jobId := ErrorRecord(ErrorText(HttpError(413, "File too large (max 500MB)")))]
      ensures VideoExtension(filename) && open.Succeeded? && write.Succeeded? && size <= MaxVideoSizeMB * BytesPerMB ==>
                && r == Ok(Started(jobId, "Video processing started"))
                && jobs == old(jobs)[jobId := Job(Processing, Some(0), "Uploaded successfully, starting processing...", Some(now), None, None)]
    {
      TooLargeDetail();
      if !VideoExtension(filename) {
        var reason := ErrorText(HttpError(400, "Invalid video format"));
        jobs := jobs[jobId := ErrorRecord(reason)];
        return Err(HttpError(500, reason));
      }
      var uploadPath := UploadPath(jobId, filename);
      if open.Failed? {
        jobs := jobs[jobId := ErrorRecord(open.reason)];
        return Err(HttpError(500, open.reason));
      }
      disk := disk + {uploadPath};
      if write.Failed? {
        jobs := jobs[jobId := ErrorRecord(write.reason)];
        return Err(HttpError(500, write.reason));
      }
      var fileSizeMB := size as real / BytesPerMB as real;
      if fileSizeMB > MaxVideoSizeMB as real {
        var reason := ErrorText(HttpError(413, "File too large (max " + Decimal(MaxVideoSizeMB) + "MB)"));
        jobs := jobs[jobId := ErrorRecord(reason)];
        return Err(HttpError(500, reason));
      }
      jobs := jobs[jobId := Job(Processing, Some(0), "Uploaded successfully, starting processing...", Some(now), None, None)];
      return Ok(Started(jobId, "Video processing started"));
    }

    /**
     * `process_video_url`: a URL that is not http(s) is a 400 and records
     * nothing; otherwise a processing record at progress 0.
     */
    method ProcessVideoUrl(jobId: string, url: string, now: string) returns (r: Result<Started, HttpError>)
      requires Valid()
      modifies this
      ensures Valid()
      ensures disk == old(disk)
      ensures !WebUrl(url) ==> r == Err(HttpError(400, "Invalid URL format")) && jobs == old(jobs)
      ensures WebUrl(url) ==>
                && r == Ok(Started(jobId, "Video download and processing started"))
                && jobs == old(jobs)[jobId := Job(Processing, Some(0), "Downloading video from URL...", Some(now), None, None)]
    {
      if !WebUrl(url) {
        return Err(HttpError(400, "Invalid URL format"));
      }
      jobs := jobs[jobId := Job(Processing, Some(0), "Downloading video from URL...", Some(now), None, None)];
      return Ok(Started(jobId, "Video download and processing started"));
    }

    /**
     * `process_video_async`: the job's record, the files and the broadcasts
     * are exactly those of the video plan run on the record it started from.
     */
    method ProcessVideoAsync(jobId: string, videoPath: string, filename: string, startProgress: int, env: VideoEnv)
      requires jobId in jobs && Valid()
      modifies this, manager
      ensures Valid()
      ensures var t := Perform(old(jobs[jobId]), VideoPlan(jobId, filename, startProgress, env));
              && jobs == old(jobs)[jobId := t.final]
              && disk == old(disk) + t.written
              && manager.active == old(manager.active)
              && manager.published == old(manager.published)
                   + Publications(jobId, t.snapshots, old(manager.Listeners(jobId)), env.closed)
    {
      ghost var o := Origin(jobs, disk, manager.published, manager.active);
      ghost var c := Cursor(jobs[jobId], VideoPlan(jobId, filename, startProgress, env), [], {});
      assert Resume(c) == Perform(jobs[jobId], c.rest);
      PerformOutcome(jobs[jobId], c.rest);
      RunVideo(jobId, videoPath, filename, startProgress, env, c, o);
    }

    /**
     * The steps of the run itself, from a service that shows cursor `c0` to
     * one that shows the end of the run. Each stage stops the run at the
     * first step that fails.
     */
    method RunVideo(jobId: string, videoPath: string, filename: string, startProgress: int, env: VideoEnv,
                    ghost c0: Cursor, ghost o: Origin)
      requires c0.rest == VideoPlan(jobId, filename, startProgress, env)
      requires Shows(jobId, o, c0.job, c0.snapshots, c0.written, env.closed)
      modifies this, manager
      ensures Shows(jobId, o, Resume(c0).final, Resume(c0).snapshots, Resume(c0).written, env.closed)
    {
      ghost var c := c0;
      var closed := env.closed;
      var outputDir := JobOutputDir(jobId);
      if env.makeDirs.Failed? {
        Abort(jobId, env.makeDirs.reason, closed, c, o);
        return;
      }
      c := Proceed(jobId, closed, c, o);
      ghost var final := FinalPlan(jobId, filename, env);
      ghost var render := RenderPlan(outputDir, startProgress, env, final);
      var stopped;
      stopped, c := Analyse(jobId, videoPath, outputDir, startProgress, env, render, c, o);
      if stopped {
        return;
      }
      stopped, c := Render(jobId, outputDir, startProgress, env, final, c, o);
      if stopped {
        return;
      }
      Finalize(jobId, filename, env, c, o);
    }

    /** Audio extraction, transcription and highlight detection. */
    method Analyse(jobId: string, videoPath: string, outputDir: string, startProgress: int, env: VideoEnv,
                   ghost next: Plan, ghost c0: Cursor, ghost o: Origin)
      returns (stopped: bool, ghost c: Cursor)
      requires c0.rest == AnalysisPlan(outputDir, startProgress, env, next)
      requires Shows(jobId, o, c0.job, c0.snapshots, c0.written, env.closed)
      modifies this, manager
      ensures Resume(c) == Resume(c0)
      ensures stopped ==> Shows(jobId, o, Resume(c0).final, Resume(c0).snapshots, Resume(c0).written, env.closed)
      ensures !stopped ==> c.rest == next && Shows(jobId, o, c.job, c.snapshots, c.written, env.closed)
    {
      var closed := env.closed;
      c := c0;
      stopped := true;
      c := Announce(jobId, startProgress + 20, "Extracting audio...", closed, c, o);
      var audioPath := PathJoin(outputDir, "audio.mp3");
      if env.extractAudio.Failed? {
        Abort(jobId, env.extractAudio.reason, closed, c, o);
        return;
      }
      c := Store(audioPath, jobId, closed, c, o);

      c := Announce(jobId, startProgress + 35, "Extracting subtitles using Whisper...", closed, c, o);
      if env.transcribe.Failed? {
        Abort(jobId, env.transcribe.reason, closed, c, o);
        return;
      }
      c := Proceed(jobId, closed, c, o);

      c := Announce(jobId, startProgress + 50, "Detecting highlights with GPT-4...", closed, c, o);
      if env.detect.Failed? {
        Abort(jobId, env.detect.reason, closed, c, o);
        return;
      }
      c := Proceed(jobId, closed, c, o);
      stopped := false;
    }

    /** Resizing, subtitle embedding and the highlight reel. */
    method Render(jobId: string, outputDir: string, startProgress: int, env: VideoEnv,
                  ghost next: Plan, ghost c0: Cursor, ghost o: Origin)
      returns (stopped: bool, ghost c: Cursor)
      requires c0.rest == RenderPlan(outputDir, startProgress, env, next)
      requires Shows(jobId, o, c0.job, c0.snapshots, c0.written, env.closed)
      modifies this, manager
      ensures Resume(c) == Resume(c0)
      ensures stopped ==> Shows(jobId, o, Resume(c0).final, Resume(c0).snapshots, Resume(c0).written, env.closed)
      ensures !stopped ==> c.rest == next && Shows(jobId, o, c.job, c.snapshots, c.written, env.closed)
    {
      var closed := env.closed;
      c := c0;
      stopped := true;
      c := Announce(jobId, startProgress + 60, "Resizing video to 9:16 vertical format...", closed, c, o);
      var resizedPath := PathJoin(outputDir, "resized.mp4");
      if env.resize.Failed? {
        Abort(jobId, env.resize.reason, closed, c, o);
        return;
      }
      c := Store(resizedPath, jobId, closed, c, o);

      c := Announce(jobId, startProgress + 70, "Embedding subtitles into video...", closed, c, o);
      var srtPath := PathJoin(outputDir, "subtitles.srt");
      if env.openSrt.Failed? {
        Abort(jobId, env.openSrt.reason, closed, c, o);
        return;
      }
      c := Store(srtPath, jobId, closed, c, o);
      if env.writeSrt.Failed? {
        Abort(jobId, env.writeSrt.reason, closed, c, o);
        return;
      }
      c := Proceed(jobId, closed, c, o);
      var finalPath := PathJoin(outputDir, "final_with_subtitles.mp4");
      if env.burnSubtitles.Failed? {
        Abort(jobId, env.burnSubtitles.reason, closed, c, o);
        return;
      }
      c := Store(finalPath, jobId, closed, c, o);

      c := Announce(jobId, startProgress + 80, "Creating highlight reel...", closed, c, o);
      var highlightPath := PathJoin(outputDir, "highlights.mp4");
      if env.createReel.Failed? {
        Abort(jobId, env.createReel.reason, closed, c, o);
        return;
      }
      var clips, wroteReel, _ := VideoProcessor.CreateHighlightVideo(env.highlights, env.duration, highlightPath);
      c := StoreIf(wroteReel, highlightPath, jobId, closed, c, o);
      stopped := false;
    }

    /** The metadata file and the completed record. */
    method Finalize(jobId: string, filename: string, env: VideoEnv, ghost c: Cursor, ghost o: Origin)
      requires c.rest == FinalPlan(jobId, filename, env)
      requires Shows(jobId, o, c.job, c.snapshots, c.written, env.closed)
      modifies this, manager
      ensures Shows(jobId, o, Resume(c).final, Resume(c).snapshots, Resume(c).written, env.closed)
    {
      var closed := env.closed;
      var outputDir := JobOutputDir(jobId);
      ghost var c1 := Announce(jobId, 95, "Finalizing results...", closed, c, o);
      var metadata := Metadata(jobId, filename, env.highlights, env.subtitles,
                               |env.highlights|, |env.subtitles|, env.processedAt);
      var metadataPath := PathJoin(outputDir, "metadata.json");
      if env.openMetadata.Failed? {
        Abort(jobId, env.openMetadata.reason, closed, c1, o);
        return;
      }
      ghost var c2 := Store(metadataPath, jobId, closed, c1, o);
      if env.writeMetadata.Failed? {
        Abort(jobId, env.writeMetadata.reason, closed, c2, o);
        return;
      }
      ghost var c3 := Proceed(jobId, closed, c2, o);
      Complete(jobId, outputDir, metadata, closed, c3, o);
    }

    /** Marks the record completed with its output directory and metadata, and broadcasts it. */
    method Complete(jobId: string, outputDir: string, metadata: Metadata, closed: set<Observer>,
                    ghost c: Cursor, ghost o: Origin)
      requires c.rest == Finish(outputDir, metadata)
      requires Shows(jobId, o, c.job, c.snapshots, c.written, closed)
      modifies this, manager
      ensures Shows(jobId, o, Resume(c).final, Resume(c).snapshots, Resume(c).written, closed)
    {
      var job := jobs[jobId];
      job := job.(status := Completed);
      job := job.(progress := Some(100));
      job := job.(message := "Processing completed successfully!");
      job := job.(outputDir := Some(outputDir));
      job := job.(metadata := Some(metadata));
      assert job == WithCompletion(c.job, outputDir, metadata);
      jobs := jobs[jobId := job];
      manager.Broadcast(jobId, jobs[jobId], closed);
      CompleteShows(jobId, o, c, closed);
    }

    /**
     * `process_url_async`: announce the download, fetch the video to
     * uploads/<job id>_video.mp4, announce the hand-over and continue with
     * the video run started at 15. `download` is what `yt-dlp` does.
     */
    method ProcessUrlAsync(jobId: string, download: Download, env: VideoEnv)
      requires jobId in jobs && Valid()
      modifies this, manager
      ensures Valid()
      ensures var t := Perform(old(jobs[jobId]), UrlPlan(jobId, download, env));
              && jobs == old(jobs)[jobId := t.final]
              && disk == old(disk) + t.written
              && manager.active == old(manager.active)
              && manager.published == old(manager.published)
                   + Publications(jobId, t.snapshots, old(manager.Listeners(jobId)), env.closed)
    {
      ghost var o := Origin(jobs, disk, manager.published, manager.active);
      ghost var c := Cursor(jobs[jobId], UrlPlan(jobId, download, env), [], {});
      assert Resume(c) == Perform(jobs[jobId], c.rest);
      PerformOutcome(jobs[jobId], c.rest);
      RunUrl(jobId, download, env, c, o);
    }

    /** The steps of the URL run, from a service that shows cursor `c0` to one that shows its end. */
    method RunUrl(jobId: string, download: Download, env: VideoEnv, ghost c0: Cursor, ghost o: Origin)
      requires c0.rest == UrlPlan(jobId, download, env)
      requires Shows(jobId, o, c0.job, c0.snapshots, c0.written, env.closed)
      modifies this, manager
      ensures Shows(jobId, o, Resume(c0).final, Resume(c0).snapshots, Resume(c0).written, env.closed)
    {
      ghost var c := c0;
      var closed := env.closed;
      c := Announce(jobId, 5, "Downloading video from URL...", closed, c, o);
      var uploadPath := DownloadPath(jobId);
      var outcome := DownloadOutcome(download);
      if outcome.Failed? {
        Abort(jobId, outcome.reason, closed, c, o);
        return;
      }
      c := Store(uploadPath, jobId, closed, c, o);
      c := Announce(jobId, 15, "Video downloaded, starting processing...", closed, c, o);
      RunVideo(jobId, uploadPath, "video.mp4", 15, env, c, o);
    }

    /** Marking the record failed at cursor `c` brings the service to the end of the run. */
    lemma FailShows(jobId: string, o: Origin, c: Cursor, closed: set<Observer>)
      requires c.rest.Call? && c.rest.outcome.Failed?
      requires jobs == o.jobs[jobId := WithError(c.job, c.rest.outcome.reason)]
      requires disk == o.disk + c.written && manager.active == o.active
      requires manager.published == o.published + Publications(jobId, c.snapshots, Subscribers(o, jobId), closed)
                 + [Publication(jobId, jobs[jobId], Deliveries(manager.Listeners(jobId), closed))]
      ensures Shows(jobId, o, Resume(c).final, Resume(c).snapshots, Resume(c).written, closed)
    {
      PublicationsSnoc(jobId, c.snapshots, jobs[jobId], Subscribers(o, jobId), closed);
      StopResumes(c);
    }

    /** Completing at cursor `c` brings the service to the end of the run. */
    lemma CompleteShows(jobId: string, o: Origin, c: Cursor, closed: set<Observer>)
      requires c.rest.Finish?
      requires jobs == o.jobs[jobId := WithCompletion(c.job, c.rest.outputDir, c.rest.metadata)]
      requires disk == o.disk + c.written && manager.active == o.active
      requires manager.published == o.published + Publications(jobId, c.snapshots, Subscribers(o, jobId), closed)
                 + [Publication(jobId, jobs[jobId], Deliveries(manager.Listeners(jobId), closed))]
      ensures Shows(jobId, o, Resume(c).final, Resume(c).snapshots, Resume(c).written, closed)
    {
      PublicationsSnoc(jobId, c.snapshots, jobs[jobId], Subscribers(o, jobId), closed);
      StopResumes(c);
    }

    /** Announcing at cursor `c` moves the service to the next step. */
    lemma AnnounceShows(jobId: string, o: Origin, c: Cursor, closed: set<Observer>)
      requires c.rest.Announce?
      requires jobs == o.jobs[jobId := WithUpdate(c.job, Processing, c.rest.progress, c.rest.message)]
      requires disk == o.disk + c.written && manager.active == o.active
      requires manager.published == o.published + Publications(jobId, c.snapshots, Subscribers(o, jobId), closed)
                 + [Publication(jobId, jobs[jobId], Deliveries(manager.Listeners(jobId), closed))]
      ensures Shows(jobId, o, Step(c).job, Step(c).snapshots, Step(c).written, closed)
      ensures Resume(Step(c)) == Resume(c)
    {
      PublicationsSnoc(jobId, c.snapshots, jobs[jobId], Subscribers(o, jobId), closed);
      StepResumes(c);
    }

    // The ghost cursor `c` follows the run through the steps below; each
    // performs one step of the source and moves the cursor past it.

    /** `update_job` at an announcement. */
    method Announce(jobId: string, progress: int, message: string, closed: set<Observer>, ghost c: Cursor, ghost o: Origin)
      returns (ghost next: Cursor)
      requires c.rest.Announce? && c.rest.progress == progress && c.rest.message == message
      requires Shows(jobId, o, c.job, c.snapshots, c.written, closed)
      modifies this, manager
      ensures next.rest == c.rest.next && Resume(next) == Resume(c)
      ensures Shows(jobId, o, next.job, next.snapshots, next.written, closed)
    {
      UpdateJob(jobId, Processing, progress, message, closed);
      AnnounceShows(jobId, o, c, closed);
      next := Step(c);
    }

    /** The `except` block, entered from a step that raised. */
    method Abort(jobId: string, reason: string, closed: set<Observer>, ghost c: Cursor, ghost o: Origin)
      requires c.rest.Call? && c.rest.outcome == Failed(reason)
      requires Shows(jobId, o, c.job, c.snapshots, c.written, closed)
      modifies this, manager
      ensures Shows(jobId, o, Resume(c).final, Resume(c).snapshots, Resume(c).written, closed)
    {
      FailJob(jobId, reason, closed);
      FailShows(jobId, o, c, closed);
    }

    /** A step that returned after writing `path`. */
    method Store(path: string, jobId: string, closed: set<Observer>, ghost c: Cursor, ghost o: Origin)
      returns (ghost next: Cursor)
      requires c.rest.Call? && c.rest.outcome.Succeeded? && c.rest.writes == {path}
      requires Shows(jobId, o, c.job, c.snapshots, c.written, closed)
      modifies this
      ensures next.rest == c.rest.next && Resume(next) == Resume(c)
      ensures Shows(jobId, o, next.job, next.snapshots, next.written, closed)
    {
      disk := disk + {path};
      StepResumes(c);
      next := Step(c);
    }

    /** A step that returned after writing `path` when `written` holds, and nothing otherwise. */
    method StoreIf(written: bool, path: string, jobId: string, closed: set<Observer>, ghost c: Cursor, ghost o: Origin)
      returns (ghost next: Cursor)
      requires c.rest.Call? && c.rest.outcome.Succeeded? && c.rest.writes == (if written then {path} else {})
      requires Shows(jobId, o, c.job, c.snapshots, c.written, closed)
      modifies this
      ensures next.rest == c.rest.next && Resume(next) == Resume(c)
      ensures Shows(jobId, o, next.job, next.snapshots, next.written, closed)
    {
      if written {
        disk := disk + {path};
      }
      StepResumes(c);
      next := Step(c);
    }

    /** A step that returned without writing a file. */
    lemma Proceed(jobId: string, closed: set<Observer>, c: Cursor, o: Origin) returns (next: Cursor)
      requires c.rest.Call? && c.rest.outcome.Succeeded? && c.rest.writes == {}
      requires Shows(jobId, o, c.job, c.snapshots, c.written, closed)
      ensures next.rest == c.rest.next && Resume(next) == Resume(c)
      ensures Shows(jobId, o, next.job, next.snapshots, next.written, closed)
    {
      StepResumes(c);
      next := Step(c);
    }
  }

  // ---------------------------------------------------------------------------
  // Looking a job up

  /** `get_job_status`: the record itself, or 404 for an unknown job. */
  function JobStatus(jobs: map<string, Job>, jobId: string): (r: Result<Job, HttpError>)
    ensures r.Ok? <==> jobId in jobs
    ensures r.Ok? ==> r.value == jobs[jobId]
    ensures r.Err? ==> r.error == HttpError(404, "Job not found")
  {
    if jobId !in jobs then Err(HttpError(404, "Job not found")) else Ok(jobs[jobId])
  }

  /** The `file_mapping` table of `download_file`. */
  function FileName(fileType: string): Option<string> {
    if fileType == "final" then Some("final_with_subtitles.mp4")
    else if fileType == "highlights" then Some("highlights.mp4")
    else if fileType == "subtitles" then Some("subtitles.srt")
    else if fileType == "metadata" then Some("metadata.json")
    else None
  }

  /** The `media_types` table of `download_file`, for the same keys. */
  function MediaType(fileType: string): string
    requires FileName(fileType).Some?
  {
    if fileType == "final" || fileType == "highlights" then "video/mp4"
    else if fileType == "subtitles" then "text/plain"
    else "application/json"
  }

  /** A `FileResponse`: the path served, its media type and the download name. */
  datatype FileResponse = FileResponse(path: string, mediaType: string, filename: string)

  /**
   * `download_file`: 404 for an unknown job, then 400 for a file type outside
   * the table, then 404 when the file is not on disk, otherwise the file of
   * that type in the job's output directory. The status of the job plays no
   * part.
   */
  function DownloadFile(jobs: map<string, Job>, disk: set<string>, jobId: string, fileType: string)
    : (r: Result<FileResponse, HttpError>)
    ensures jobId !in jobs ==> r == Err(HttpError(404, "Job not found"))
    ensures jobId in jobs && FileName(fileType).None? ==> r == Err(HttpError(400, "Invalid file type"))
    ensures r.Ok? <==>
              jobId in jobs && FileName(fileType).Some?
              && PathJoin(JobOutputDir(jobId), FileName(fileType).value) in disk
    ensures r.Ok? ==>
              && r.value.path in disk
              && r.value.filename == FileName(fileType).value
              && r.value.path == OutputDir + "/" + jobId + "/" + r.value.filename
              && r.value.mediaType == (if fileType == "subtitles" then "text/plain"
                                       else if fileType == "metadata" then "application/json"
                                       else "video/mp4")
    ensures r.Err? && jobId in jobs && FileName(fileType).Some? ==> r == Err(HttpError(404, "File not found"))
  {
    if jobId !in jobs then Err(HttpError(404, "Job not found"))
    else
      var name := FileName(fileType);
      if name.None? then Err(HttpError(400, "Invalid file type"))
      else
        var path := PathJoin(JobOutputDir(jobId), name.value);
        if path !in disk then Err(HttpError(404, "File not found"))
        else Ok(FileResponse(path, MediaType(fileType), name.value))
  }

  /**
   * After a video run in which every step returns, the subtitled video, the
   * subtitle file and the metadata can be downloaded, and the reel exactly
   * when some clip survived the selection (or it was already there). After
   * a run that stopped before metadata.json was opened, it is "File not
   * found" unless it was already on disk; after a run whose dump into it
   * raised, the job is in `error` and yet metadata.json is served.
   */
  lemma DownloadsAfterRun(jobs: map<string, Job>, disk: set<string>, jobId: string, filename: string,
                          start: int, env: VideoEnv)
    requires jobId in jobs
    ensures var t := Perform(jobs[jobId], VideoPlan(jobId, filename, start, env));
            var jobs', disk' := jobs[jobId := t.final], disk + t.written;
            var dir := JobOutputDir(jobId);
            && (StepsSucceed(env) ==>
                  && DownloadFile(jobs', disk', jobId, "final").Ok?
                  && DownloadFile(jobs', disk', jobId, "subtitles").Ok?
                  && DownloadFile(jobs', disk', jobId, "metadata").Ok?
                  && (DownloadFile(jobs', disk', jobId, "highlights").Ok? <==>
                        VideoProcessor.SelectClips(env.highlights, env.duration) != []
                        || PathJoin(dir, "highlights.mp4") in disk))
            && (!MetadataOpened(env) && PathJoin(dir, "metadata.json") !in disk ==>
                  DownloadFile(jobs', disk', jobId, "metadata") == Err(HttpError(404, "File not found")))
            && (MetadataOpened(env) && !StepsSucceed(env) ==>
                  && jobs'[jobId].status == Error
                  && DownloadFile(jobs', disk', jobId, "metadata").Ok?)
  {
    var t := Perform(jobs[jobId], VideoPlan(jobId, filename, start, env));
    var dir := JobOutputDir(jobId);
    VideoRunOutcome(jobs[jobId], jobId, filename, start, env);
    if StepsSucceed(env) {
      MetadataPathDistinct(dir);
      var h := PathJoin(dir, "highlights.mp4");
      assert h != PathJoin(dir, "final_with_subtitles.mp4") && h != PathJoin(dir, "subtitles.srt")
          && h != PathJoin(dir, "audio.mp3") && h != PathJoin(dir, "resized.mp4");
      assert h in Artifacts(jobId, env) <==> VideoProcessor.SelectClips(env.highlights, env.duration) != [];
    }
  }
}
