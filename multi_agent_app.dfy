/**
 * The video half of the multi-agent application: Generate Video submits the
 * prepared text, polls the job at most sixty times, downloads the finished
 * video, uploads it (overwriting) and records it in the session history;
 * Submit Feedback stores the feedback text under the next free name.
 */
module MultiAgentApp {
  import opened Wrappers
  import opened PyStr
  import opened BlobNaming
  import opened Polling
  import opened Session

  /** The sidebar fields and the TTS prompt. */
  datatype Form = Form(username: string, customerName: string, inputText: string)

  /** `f"{username}_{customer_name}_Maria"`: the start of every artifact name of the form. */
  function Head(f: Form): string
  {
    f.username + "_" + f.customerName + "_Maria"
  }

  /** The fewest `_`-segments a listed name needs to count. */
  const MinParts: nat := 3

  /** `max_attempts`: sixty status queries, five seconds apart. */
  const MaxAttempts: nat := 60

  lemma HeadSegments(f: Form)
    ensures Occurrences(Head(f), '_') >= 2
  {
    OccurrencesAppend(f.username, "_", '_');
    OccurrencesAppend(f.username + "_", f.customerName, '_');
    OccurrencesAppend(f.username + "_" + f.customerName, "_Maria", '_');
  }

  /** `check_existing_files(username, customer_name, file_type)`. */
  method CheckExistingFiles(container: seq<string>, f: Form, fileType: string) returns (count: int)
    ensures count == NextIndex(container, Head(f), fileType, MinParts)
  {
    var filePrefix := Head(f) + "_" + fileType;
    var existingFiles := ListBlobs(container, filePrefix);
    count := CountExisting(existingFiles, fileType, MinParts);
  }

  /** `f"{username}_{customer_name}_Maria_recordings{recording_count}.mp4"`. */
  function VideoName(f: Form, count: int): string
  {
    ArtifactName(Head(f), "recordings", count, "mp4")
  }

  /** `f"{username}_{customer_name}_Maria_feedback{feedback_count}.txt"`. */
  function FeedbackFileName(f: Form, count: int): string
  {
    ArtifactName(Head(f), "feedback", count, "txt")
  }

  /** A video name reads back as its count under the three-segment suffix rule. */
  lemma VideoNameRoundTrip(f: Form, k: int)
    ensures SuffixNumber(VideoName(f, k), "recordings", MinParts) == Some(k)
  {
    HeadSegments(f);
    ArtifactNameRoundTrip(Head(f), "recordings", k, "mp4", MinParts);
  }

  /** A feedback name reads back as its count under the three-segment suffix rule. */
  lemma FeedbackNameRoundTrip(f: Form, k: int)
    ensures SuffixNumber(FeedbackFileName(f, k), "feedback", MinParts) == Some(k)
  {
    HeadSegments(f);
    ArtifactNameRoundTrip(Head(f), "feedback", k, "txt", MinParts);
  }

  /** Once a video named with count `k` is stored, the next recording count exceeds `k`. */
  lemma StoredVideoRaisesCount(container: seq<string>, f: Form, k: int)
    requires VideoName(f, k) in container
    ensures NextIndex(container, Head(f), "recordings", MinParts) > k
  {
    HeadSegments(f);
    NextIndexAboveStored(container, Head(f), "recordings", k, "mp4", MinParts);
  }

  // ---------------------------------------------------------------------
  // Generate Video
  // ---------------------------------------------------------------------

  /** `submit_synthesis`: `resp.json().get("id")` below status 400, otherwise `None`. */
  function SubmitSynthesis(statusCode: int, replyId: Option<string>): (r: Option<string>)
    ensures r.Some? <==> statusCode < 400 && replyId.Some?
    ensures r.Some? ==> r == replyId
  {
    if statusCode < 400 then replyId else None
  }

  /** What the outside world answers during one run. */
  datatype Environment = Environment(
    container: seq<string>,      // blob names in the container
    submitStatus: int,           // HTTP status of the submission
    submitId: Option<string>,    // `id` of the submission reply
    service: StatusService,      // the status queries
    downloadOk: bool,            // the video download succeeds
    uploadOk: bool,              // the upload (with overwrite) succeeds
    blobUrl: string,             // `bc.url` of the uploaded video
    sasToken: string)            // the token `generate_sas_token` returns

  /** The externally visible steps, in the order they happen. */
  datatype Effect = Downloaded(url: string, path: string) | Uploaded(blobName: string) | Appended(record: ArtifactRecord)

  /** How a run ends; `TimedOut` is the error shown after the last attempt. */
  datatype RunOutcome =
    | MissingInput
    | NotSubmitted
    | TimedOut
    | DownloadFailed
    | UploadFailed
    | Completed(record: ArtifactRecord)

  /** A run: its outcome, the number of status queries made, and the effects in order. */
  datatype Run = Run(outcome: RunOutcome, polls: nat, effects: seq<Effect>)

  /** The button's guard: username, text and customer name all non-empty. */
  predicate FormComplete(f: Form)
  {
    f.username != "" && f.inputText != "" && f.customerName != ""
  }

  /** The steps after the successful reply `data`, which arrived at query number `polls`. */
  function AfterSuccess(f: Form, env: Environment, count: int, data: JobStatus, polls: nat): Run
  {
    var videoName := VideoName(f, count);
    if !env.downloadOk then Run(DownloadFailed, polls, [])
    else if !env.uploadOk then Run(UploadFailed, polls, [Downloaded(data.result.GetOr(""), videoName)])
    else
      var record := ArtifactRecord(videoName, env.blobUrl, env.sasToken);
      Run(Completed(record), polls, [Downloaded(data.result.GetOr(""), videoName), Uploaded(videoName), Appended(record)])
  }

  /** The bounded polling loop and what follows it, with the recording count already taken. */
  function PollingRun(f: Form, env: Environment, count: int, jobId: string): Run
  {
    var first := FirstSuccess(env.service, jobId, MaxAttempts);
    if first.None? then Run(TimedOut, MaxAttempts, [])
    else AfterSuccess(f, env, count, env.service(jobId, first.value).data, first.value + 1)
  }

  /** A run of Generate Video. */
  function VideoRun(f: Form, env: Environment, jobId: string): Run
  {
    if !FormComplete(f) then Run(MissingInput, 0, [])
    else
      var count := NextIndex(env.container, Head(f), "recordings", MinParts);
      if !Truthy(SubmitSynthesis(env.submitStatus, env.submitId)) then Run(NotSubmitted, 0, [])
      else PollingRun(f, env, count, jobId)
  }

  /** The success branch of the loop body, up to `break`. */
  method FinishJob(session: SessionState, f: Form, env: Environment, recordingCount: int, data: JobStatus, polls: nat)
    returns (run: Run)
    modifies session
    ensures run == AfterSuccess(f, env, recordingCount, data, polls)
    ensures session.videoHistory == old(session.videoHistory) + (if run.outcome.Completed? then [run.outcome.record] else [])
    ensures session.bingData == old(session.bingData) && session.finalSummary == old(session.finalSummary)
  {
    var videoName := VideoName(f, recordingCount);
    if !env.downloadOk {
      return Run(DownloadFailed, polls, []);
    }
    var effects := [Downloaded(data.result.GetOr(""), videoName)];
    if !env.uploadOk {
      return Run(UploadFailed, polls, effects);
    }
    effects := effects + [Uploaded(videoName)];
    var record := ArtifactRecord(videoName, env.blobUrl, env.sasToken);
    session.AppendRecord(record);
    effects := effects + [Appended(record)];
    run := Run(Completed(record), polls, effects);
  }

  /** `while attempt < max_attempts: ... attempt += 1` with its `else` branch for the timeout. */
  method PollForVideo(session: SessionState, f: Form, env: Environment, recordingCount: int, jobId: string)
    returns (run: Run)
    modifies session
    ensures run == PollingRun(f, env, recordingCount, jobId)
    ensures session.videoHistory == old(session.videoHistory) + (if run.outcome.Completed? then [run.outcome.record] else [])
    ensures session.bingData == old(session.bingData) && session.finalSummary == old(session.finalSummary)
  {
    var attempt := 0;
    while attempt < MaxAttempts
      invariant attempt <= MaxAttempts
      invariant FirstSuccess(env.service, jobId, attempt).None?
      invariant session.videoHistory == old(session.videoHistory)
      invariant session.bingData == old(session.bingData) && session.finalSummary == old(session.finalSummary)
    {
      var outcome := env.service(jobId, attempt);
      var (urlDl, data) := GetSynthesisMultiAgent(outcome);
      MultiAgentTestIsSucceeded(outcome);
      if Truthy(urlDl) && data.Some? {
        if data.value.status == Some("Succeeded") {
          FirstSuccessAt(env.service, jobId, attempt, MaxAttempts);
          run := FinishJob(session, f, env, recordingCount, data.value, attempt + 1);
          return;
        }
      }
      attempt := attempt + 1;
    }
    run := Run(TimedOut, MaxAttempts, []);
  }

  /** Generate Video: the guard, the count, the submission, then the bounded polling. */
  method GenerateVideo(session: SessionState, f: Form, env: Environment, jobId: string) returns (run: Run)
    modifies session
    ensures run == VideoRun(f, env, jobId)
    ensures session.videoHistory == old(session.videoHistory) + (if run.outcome.Completed? then [run.outcome.record] else [])
    ensures session.bingData == old(session.bingData) && session.finalSummary == old(session.finalSummary)
  {
    if f.username == "" || f.inputText == "" || f.customerName == "" {
      return Run(MissingInput, 0, []);
    }
    var recordingCount := CheckExistingFiles(env.container, f, "recordings");
    var submitted := SubmitSynthesis(env.submitStatus, env.submitId);
    if !(submitted.Some? && submitted.value != "") {
      return Run(NotSubmitted, 0, []);
    }
    run := PollForVideo(session, f, env, recordingCount, jobId);
  }

  // ---------------------------------------------------------------------
  // Properties of a run
  // ---------------------------------------------------------------------

  /** With a field missing nothing is counted, submitted, polled or recorded. */
  lemma GuardStopsRun(f: Form, env: Environment, jobId: string)
    requires f.username == "" || f.inputText == "" || f.customerName == ""
    ensures VideoRun(f, env, jobId) == Run(MissingInput, 0, [])
  {
  }

  /** The job is queried at most sixty times. */
  lemma AtMostSixtyPolls(f: Form, env: Environment, jobId: string)
    ensures VideoRun(f, env, jobId).polls <= MaxAttempts
  {
  }

  /** When the first success is query `i`, exactly `i + 1` queries are made and the loop ends there. */
  lemma PollsUpToFirstSuccess(f: Form, env: Environment, jobId: string, i: nat)
    requires FormComplete(f) && Truthy(SubmitSynthesis(env.submitStatus, env.submitId))
    requires i < MaxAttempts && Succeeded(env.service(jobId, i))
    requires forall j :: 0 <= j < i ==> !Succeeded(env.service(jobId, j))
    ensures VideoRun(f, env, jobId).polls == i + 1
    ensures !VideoRun(f, env, jobId).outcome.TimedOut?
  {
    assert FirstSuccess(env.service, jobId, i).None?;
    FirstSuccessAt(env.service, jobId, i, MaxAttempts);
  }

  /** Without a success among the sixty queries the run times out after exactly sixty, with no effect. */
  lemma TimeoutAfterSixty(f: Form, env: Environment, jobId: string)
    requires FormComplete(f) && Truthy(SubmitSynthesis(env.submitStatus, env.submitId))
    requires forall j :: 0 <= j < MaxAttempts ==> !Succeeded(env.service(jobId, j))
    ensures VideoRun(f, env, jobId) == Run(TimedOut, MaxAttempts, [])
  {
  }

  /**
   * A failed status, a reply without `Succeeded` and a query exception are
   * all alike: each only uses up an attempt, so the run depends on nothing
   * but which queries succeed and what the successful one says.
   */
  lemma FailuresOnlyUseAttempts(f: Form, env: Environment, other: StatusService, jobId: string)
    requires forall j :: 0 <= j < MaxAttempts ==> (Succeeded(env.service(jobId, j)) <==> Succeeded(other(jobId, j)))
    requires forall j :: 0 <= j < MaxAttempts && Succeeded(env.service(jobId, j)) ==> env.service(jobId, j) == other(jobId, j)
    ensures VideoRun(f, env.(service := other), jobId) == VideoRun(f, env, jobId)
  {
    SameSuccessesSameFirst(env.service, other, jobId, MaxAttempts);
  }

  /** The submission's id is only tested for truthiness: polling uses the locally generated job id. */
  lemma SubmitIdOnlyTested(f: Form, env: Environment, id: string, jobId: string)
    requires Truthy(SubmitSynthesis(env.submitStatus, env.submitId)) && id != ""
    ensures VideoRun(f, env.(submitId := Some(id)), jobId) == VideoRun(f, env, jobId)
  {
  }

  /** A completed run downloaded, uploaded and appended, in that order, the record of the counted video name. */
  lemma CompletedRunSteps(f: Form, env: Environment, jobId: string)
    requires VideoRun(f, env, jobId).outcome.Completed?
    ensures var run := VideoRun(f, env, jobId);
            var first := FirstSuccess(env.service, jobId, MaxAttempts);
            var name := VideoName(f, NextIndex(env.container, Head(f), "recordings", MinParts));
            && first.Some? && run.polls == first.value + 1
            && run.outcome.record == ArtifactRecord(name, env.blobUrl, env.sasToken)
            && run.effects == [Downloaded(env.service(jobId, first.value).data.result.value, name), Uploaded(name), Appended(run.outcome.record)]
  {
  }

  /** After a completed run the stored video raises the next recording count by exactly one. */
  lemma CompletedRunAdvancesCount(f: Form, env: Environment, jobId: string)
    requires VideoRun(f, env, jobId).outcome.Completed?
    ensures var k := NextIndex(env.container, Head(f), "recordings", MinParts);
            NextIndex(env.container + [VideoRun(f, env, jobId).outcome.record.name], Head(f), "recordings", MinParts) == k + 1
  {
    HeadSegments(f);
    var k := NextIndex(env.container, Head(f), "recordings", MinParts);
    NextIndexAfterStore(env.container, Head(f), "recordings", "mp4", MinParts, k);
  }

  // ---------------------------------------------------------------------
  // Session
  // ---------------------------------------------------------------------

  /**
   * The session after the page script's first run: `final_summary` is set
   * to `""` when absent, then `video_history` to `[]`; no search text yet.
   */
  method FirstRunSession() returns (session: SessionState)
    ensures fresh(session)
    ensures session.videoHistory == [] && session.bingData == None && session.finalSummary == Some("")
  {
    session := new SessionState();
    session.InitFinalSummary();
  }

  // ---------------------------------------------------------------------
  // Feedback
  // ---------------------------------------------------------------------

  /**
   * How Submit Feedback ends.  `FeedbackRejected` stands for the
   * `ResourceExistsError` that `upload_blob` raises when the name is already
   * taken; the method proves that branch unreachable.  `FeedbackFailed` is
   * any other upload error.
   */
  datatype FeedbackOutcome = NoFeedback | FeedbackSaved(name: string) | FeedbackRejected(name: string) | FeedbackFailed(name: string)

  /** The feedback name Submit Feedback picks over `container`. */
  function FeedbackName(container: seq<string>, f: Form): string
  {
    FeedbackFileName(f, NextIndex(container, Head(f), "feedback", MinParts))
  }

  /**
   * Submit Feedback: the text is stored under the next feedback name, which
   * is new in the container.  `uploadOk` is whether the Blob service accepts
   * the upload; when it raises, the page stops and nothing is stored.
   */
  method SubmitFeedback(container: seq<string>, f: Form, feedback: string, uploadOk: bool) returns (outcome: FeedbackOutcome, stored: seq<string>)
    ensures feedback == "" ==> outcome == NoFeedback && stored == container
    ensures feedback != "" && uploadOk ==> outcome == FeedbackSaved(FeedbackName(container, f))
    ensures feedback != "" && uploadOk ==> stored == container + [FeedbackName(container, f)]
    ensures feedback != "" && !uploadOk ==> outcome == FeedbackFailed(FeedbackName(container, f)) && stored == container
  {
    if feedback == "" {
      return NoFeedback, container;
    }
    var feedbackCount := CheckExistingFiles(container, f, "feedback");
    var fname := FeedbackFileName(f, feedbackCount);
    HeadSegments(f);
    NextNameIsFresh(container, Head(f), "feedback", "txt", MinParts);
    if fname in container {
      assert false;
      return FeedbackRejected(fname), container;
    }
    if !uploadOk {
      return FeedbackFailed(fname), container;
    }
    outcome := FeedbackSaved(fname);
    stored := container + [fname];
  }

  /** Each stored feedback raises the next feedback count by one. */
  lemma FeedbackCountAdvances(container: seq<string>, f: Form)
    ensures NextIndex(container + [FeedbackName(container, f)], Head(f), "feedback", MinParts)
            == NextIndex(container, Head(f), "feedback", MinParts) + 1
  {
    HeadSegments(f);
    NextIndexAfterStore(container, Head(f), "feedback", "txt", MinParts, NextIndex(container, Head(f), "feedback", MinParts));
  }
}
