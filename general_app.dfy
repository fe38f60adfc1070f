/**
 * The general avatar application: a user, industry vertical and customer
 * name select the artifact names; Submit for Synthesis submits the text,
 * polls the job until it succeeds, downloads the video, writes its SRT
 * captions locally, uploads the video and records it in the session
 * history; Submit Feedback stores the feedback text under the next free
 * feedback name.
 */
module GeneralApp {
  import opened Wrappers
  import opened PyStr
  import opened BlobNaming
  import opened Captions
  import opened Polling
  import opened Session

  /** The sidebar fields and the text to speak. */
  datatype Form = Form(username: string, industryVertical: string, customerName: string, inputText: string)

  /** `f"{username}_{industry_vertical}_{customer_name}_Maria"`: the start of every artifact name of the form. */
  function Head(f: Form): string
  {
    f.username + "_" + f.industryVertical + "_" + f.customerName + "_Maria"
  }

  /** The fewest `_`-segments a listed name needs to count. */
  const MinParts: nat := 4

  lemma HeadSegments(f: Form)
    ensures Occurrences(Head(f), '_') >= 3
  {
    OccurrencesAppend(f.username, "_", '_');
    OccurrencesAppend(f.username + "_", f.industryVertical, '_');
    OccurrencesAppend(f.username + "_" + f.industryVertical, "_", '_');
    OccurrencesAppend(f.username + "_" + f.industryVertical + "_", f.customerName, '_');
    OccurrencesAppend(f.username + "_" + f.industryVertical + "_" + f.customerName, "_Maria", '_');
  }

  /** `check_existing_files`: the next index over the blobs listed under `{head}_{file_type}`. */
  method CheckExistingFiles(container: seq<string>, f: Form, fileType: string) returns (count: int)
    ensures count == NextIndex(container, Head(f), fileType, MinParts)
  {
    var filePrefix := Head(f) + "_" + fileType;
    var existingFiles := ListBlobs(container, filePrefix);
    count := CountExisting(existingFiles, fileType, MinParts);
  }

  /** `generate_filename(username, industry_vertical, customer_name, count, extension, file_type)`. */
  function GenerateFilename(f: Form, count: int, extension: string, fileType: string): string
  {
    ArtifactName(Head(f), fileType, count, extension)
  }

  /** A generated video or feedback name reads back as its count under the four-segment suffix rule. */
  lemma GenerateFilenameRoundTrip(f: Form, k: int, extension: string, fileType: string)
    requires KnownKind(fileType, extension)
    ensures SuffixNumber(GenerateFilename(f, k, extension, fileType), fileType, MinParts) == Some(k)
  {
    HeadSegments(f);
    ArtifactNameRoundTrip(Head(f), fileType, k, extension, MinParts);
  }

  /** Once a generated name with count `k` is stored, the next count for that file type exceeds `k`. */
  lemma StoredNameRaisesCount(container: seq<string>, f: Form, k: int, extension: string, fileType: string)
    requires KnownKind(fileType, extension)
    requires GenerateFilename(f, k, extension, fileType) in container
    ensures NextIndex(container, Head(f), fileType, MinParts) > k
  {
    HeadSegments(f);
    NextIndexAboveStored(container, Head(f), fileType, k, extension, MinParts);
  }

  // ---------------------------------------------------------------------
  // Submitting the synthesis job
  // ---------------------------------------------------------------------

  /** What `submit_synthesis` gives back: the reply's `id`, `None` on an HTTP error, or a `KeyError` escaping. */
  datatype SubmitReply = Submitted(id: string) | Refused | MissingId

  /** `submit_synthesis` on a reply with `statusCode` and optional `id`: `response.json()["id"]` below 400. */
  function SubmitSynthesis(statusCode: int, replyId: Option<string>): (r: SubmitReply)
    ensures r.Refused? <==> statusCode >= 400
    ensures r.Submitted? <==> statusCode < 400 && replyId.Some?
    ensures r.Submitted? ==> r.id == replyId.value
  {
    if statusCode < 400 then
      if replyId.Some? then Submitted(replyId.value) else MissingId
    else Refused
  }

  /** `if submit_synthesis(...)`: a non-empty id. */
  predicate SubmitAccepted(r: SubmitReply)
  {
    r.Submitted? && r.id != ""
  }

  // ---------------------------------------------------------------------
  // The Submit for Synthesis run
  // ---------------------------------------------------------------------

  /** What the outside world answers during one run. */
  datatype Environment = Environment(
    container: seq<string>,      // blob names in the container
    submitStatus: int,           // HTTP status of the submission
    submitId: Option<string>,    // `id` of the submission reply
    service: StatusService,      // the status queries
    downloadOk: bool,            // the video download succeeds
    uploadOk: bool,              // the upload succeeds when the name is new
    blobUrl: string,             // `blob_client.url` of the uploaded video
    sasToken: string)            // the token `generate_sas_token` returns

  /** The externally visible steps, in the order they happen. */
  datatype Effect =
    | Downloaded(url: string, path: string)
    | SavedSrt(path: string, content: string)
    | Uploaded(blobName: string)
    | Appended(record: ArtifactRecord)

  /** How a run ends; `StillPolling` when no success was seen among the observed polls. */
  datatype RunOutcome =
    | MissingInput
    | SubmitCrashed
    | NotSubmitted
    | StillPolling
    | DownloadFailed
    | UploadFailed
    | Completed(record: ArtifactRecord)

  /** A run: its outcome, the number of status queries made, and the effects in order. */
  datatype Run = Run(outcome: RunOutcome, polls: nat, effects: seq<Effect>)

  /** The button's guard: username, text and customer name all non-empty. */
  predicate FormComplete(f: Form)
  {
    f.username != "" && f.inputText != "" && f.customerName != ""
  }

  /** The video name for count `count`. */
  function VideoName(f: Form, count: int): string
  {
    GenerateFilename(f, count, "mp4", "recordings")
  }

  /** The steps after the successful reply `data`, which arrived at query number `polls`. */
  function AfterSuccess(f: Form, env: Environment, count: int, data: JobStatus, polls: nat): Run
  {
    var videoName := VideoName(f, count);
    if !env.downloadOk then Run(DownloadFailed, polls, [])
    else
      var early := [Downloaded(data.result.GetOr(""), videoName),
                    SavedSrt(videoName + ".srt", SrtBlocks(WordCaptions(data.wordBoundary), 1))];
      if videoName in env.container || !env.uploadOk then Run(UploadFailed, polls, early)
      else
        var record := ArtifactRecord(videoName, env.blobUrl, env.sasToken);
        Run(Completed(record), polls, early + [Uploaded(videoName), Appended(record)])
  }

  /** A run of Submit for Synthesis, observed for at most `horizon` status queries. */
  function SynthesisRun(f: Form, env: Environment, jobId: string, horizon: nat): Run
  {
    if !FormComplete(f) then Run(MissingInput, 0, [])
    else
      var count := NextIndex(env.container, Head(f), "recordings", MinParts);
      var reply := SubmitSynthesis(env.submitStatus, env.submitId);
      if reply.MissingId? then Run(SubmitCrashed, 0, [])
      else if !SubmitAccepted(reply) then Run(NotSubmitted, 0, [])
      else PollingRun(f, env, count, jobId, horizon)
  }

  /** The polling loop and what follows it, with the recording count already taken. */
  function PollingRun(f: Form, env: Environment, count: int, jobId: string, horizon: nat): Run
  {
    var first := FirstSuccess(env.service, jobId, horizon);
    if first.None? then Run(StillPolling, horizon, [])
    else AfterSuccess(f, env, count, env.service(jobId, first.value).data, first.value + 1)
  }

  /** The success branch of the polling loop. */
  method FinishJob(session: SessionState, f: Form, env: Environment, recordingCount: int, responseData: JobStatus, polls: nat)
    returns (run: Run)
    modifies session
    ensures run == AfterSuccess(f, env, recordingCount, responseData, polls)
    ensures session.videoHistory == old(session.videoHistory) + (if run.outcome.Completed? then [run.outcome.record] else [])
    ensures session.bingData == old(session.bingData) && session.finalSummary == old(session.finalSummary)
  {
    var videoName := GenerateFilename(f, recordingCount, "mp4", "recordings");
    var localVideoPath := videoName;
    if !env.downloadOk {
      return Run(DownloadFailed, polls, []);
    }
    var effects := [Downloaded(responseData.result.GetOr(""), localVideoPath)];
    var subtitleData := ExtractWordTimestamps(responseData.wordBoundary);
    var srtContent := GenerateSrt(subtitleData);
    var srtFilename := videoName + ".srt";
    effects := effects + [SavedSrt(srtFilename, srtContent)];
    if videoName in env.container || !env.uploadOk {
      return Run(UploadFailed, polls, effects);
    }
    effects := effects + [Uploaded(videoName)];
    var record := ArtifactRecord(videoName, env.blobUrl, env.sasToken);
    session.AppendRecord(record);
    effects := effects + [Appended(record)];
    run := Run(Completed(record), polls, effects);
  }

  /** Submit for Synthesis: the guard, the count, the submission, then `while True` polling until success. */
  method SubmitForSynthesis(session: SessionState, f: Form, env: Environment, jobId: string, horizon: nat)
    returns (run: Run)
    modifies session
    ensures run == SynthesisRun(f, env, jobId, horizon)
    ensures session.videoHistory == old(session.videoHistory) + (if run.outcome.Completed? then [run.outcome.record] else [])
    ensures session.bingData == old(session.bingData) && session.finalSummary == old(session.finalSummary)
  {
    if f.username == "" || f.inputText == "" || f.customerName == "" {
      return Run(MissingInput, 0, []);
    }
    var recordingCount := CheckExistingFiles(env.container, f, "recordings");
    var reply := SubmitSynthesis(env.submitStatus, env.submitId);
    if reply.MissingId? {
      return Run(SubmitCrashed, 0, []);
    }
    if !(reply.Submitted? && reply.id != "") {
      return Run(NotSubmitted, 0, []);
    }
    run := PollUntilSuccess(session, f, env, recordingCount, jobId, horizon);
  }

  /** `while True`: query the status, leave on success, otherwise wait and query again. */
  method PollUntilSuccess(session: SessionState, f: Form, env: Environment, recordingCount: int, jobId: string, horizon: nat)
    returns (run: Run)
    modifies session
    ensures run == PollingRun(f, env, recordingCount, jobId, horizon)
    ensures session.videoHistory == old(session.videoHistory) + (if run.outcome.Completed? then [run.outcome.record] else [])
    ensures session.bingData == old(session.bingData) && session.finalSummary == old(session.finalSummary)
  {
    var polls := 0;
    while polls < horizon
      invariant polls <= horizon
      invariant FirstSuccess(env.service, jobId, polls).None?
      invariant session.videoHistory == old(session.videoHistory)
      invariant session.bingData == old(session.bingData) && session.finalSummary == old(session.finalSummary)
      decreases horizon - polls
    {
      var outcome := env.service(jobId, polls);
      var (downloadUrl, responseData) := GetSynthesisGeneral(outcome);
      GeneralTestIsSucceeded(outcome);
      if Truthy(downloadUrl) && responseData.Some? {
        FirstSuccessAt(env.service, jobId, polls, horizon);
        run := FinishJob(session, f, env, recordingCount, responseData.value, polls + 1);
        return;
      }
      polls := polls + 1;
    }
    run := Run(StillPolling, horizon, []);
  }

  // ---------------------------------------------------------------------
  // Properties of a run
  // ---------------------------------------------------------------------

  /** With a field missing nothing is counted, submitted, polled or recorded. */
  lemma GuardStopsRun(f: Form, env: Environment, jobId: string, horizon: nat)
    requires f.username == "" || f.inputText == "" || f.customerName == ""
    ensures SynthesisRun(f, env, jobId, horizon) == Run(MissingInput, 0, [])
  {
  }

  /** Before the first successful status query nothing is downloaded, saved, uploaded or recorded. */
  lemma NothingBeforeSuccess(f: Form, env: Environment, jobId: string, horizon: nat)
    requires forall j :: 0 <= j < horizon ==> !Succeeded(env.service(jobId, j))
    ensures SynthesisRun(f, env, jobId, horizon).effects == []
    ensures !SynthesisRun(f, env, jobId, horizon).outcome.Completed?
    ensures FormComplete(f) && SubmitAccepted(SubmitSynthesis(env.submitStatus, env.submitId))
            ==> SynthesisRun(f, env, jobId, horizon) == Run(StillPolling, horizon, [])
  {
  }

  /** The loop has no attempt bound: once a success is seen, watching longer changes nothing. */
  lemma HorizonIrrelevantAfterSuccess(f: Form, env: Environment, jobId: string, h1: nat, h2: nat)
    requires h1 <= h2
    requires exists j :: 0 <= j < h1 && Succeeded(env.service(jobId, j))
    ensures SynthesisRun(f, env, jobId, h2) == SynthesisRun(f, env, jobId, h1)
  {
    FirstSuccessStable(env.service, jobId, h1, h2);
  }

  /** The generated video name is new in the container, so an upload can only fail on its own. */
  lemma VideoNameIsFresh(f: Form, container: seq<string>)
    ensures VideoName(f, NextIndex(container, Head(f), "recordings", MinParts)) !in container
  {
    HeadSegments(f);
    NextNameIsFresh(container, Head(f), "recordings", "mp4", MinParts);
  }

  /** A failed upload is the service's doing: the video name never collides with a stored blob. */
  lemma UploadFailsOnlyOnError(f: Form, env: Environment, jobId: string, horizon: nat)
    requires SynthesisRun(f, env, jobId, horizon).outcome.UploadFailed?
    ensures !env.uploadOk
  {
    VideoNameIsFresh(f, env.container);
  }

  /** The steps after a success, when they complete. */
  lemma AfterSuccessSteps(f: Form, env: Environment, count: int, data: JobStatus, polls: nat)
    requires AfterSuccess(f, env, count, data, polls).outcome.Completed?
    ensures var run := AfterSuccess(f, env, count, data, polls);
            var name := VideoName(f, count);
            && run.polls == polls
            && run.outcome.record == ArtifactRecord(name, env.blobUrl, env.sasToken)
            && run.effects == [Downloaded(data.result.GetOr(""), name),
                               SavedSrt(name + ".srt", SrtBlocks(WordCaptions(data.wordBoundary), 1)),
                               Uploaded(name),
                               Appended(run.outcome.record)]
  {
  }

  /** A run that is past the submission and has seen a success continues with the steps after it. */
  lemma RunAfterFirstSuccess(f: Form, env: Environment, jobId: string, horizon: nat)
    requires SynthesisRun(f, env, jobId, horizon).effects != []
    ensures var first := FirstSuccess(env.service, jobId, horizon);
            && FormComplete(f) && first.Some?
            && Succeeded(env.service(jobId, first.value))
            && SynthesisRun(f, env, jobId, horizon)
               == AfterSuccess(f, env, NextIndex(env.container, Head(f), "recordings", MinParts),
                               env.service(jobId, first.value).data, first.value + 1)
  {
  }

  /**
   * A completed run polled up to and including the first success, then
   * downloaded the video, saved its captions as `{video_name}.srt`,
   * uploaded the video alone and appended one record, in that order.
   */
  lemma CompletedRunSteps(f: Form, env: Environment, jobId: string, horizon: nat)
    requires SynthesisRun(f, env, jobId, horizon).outcome.Completed?
    ensures var run := SynthesisRun(f, env, jobId, horizon);
            var first := FirstSuccess(env.service, jobId, horizon);
            var name := VideoName(f, NextIndex(env.container, Head(f), "recordings", MinParts));
            var data := env.service(jobId, first.value).data;
            && first.Some? && run.polls == first.value + 1
            && run.outcome.record == ArtifactRecord(name, env.blobUrl, env.sasToken)
            && run.effects == [Downloaded(data.result.value, name),
                               SavedSrt(name + ".srt", SrtBlocks(WordCaptions(data.wordBoundary), 1)),
                               Uploaded(name),
                               Appended(run.outcome.record)]
  {
    RunAfterFirstSuccess(f, env, jobId, horizon);
    var first := FirstSuccess(env.service, jobId, horizon);
    var count := NextIndex(env.container, Head(f), "recordings", MinParts);
    var data := env.service(jobId, first.value).data;
    var run := AfterSuccess(f, env, count, data, first.value + 1);
    assert SynthesisRun(f, env, jobId, horizon) == run;
    AfterSuccessSteps(f, env, count, data, first.value + 1);
    assert data.result.GetOr("") == data.result.value;
  }

  /** The captions file is never uploaded: the only upload of a run is the video. */
  lemma OnlyVideoUploaded(f: Form, env: Environment, jobId: string, horizon: nat)
    ensures var run := SynthesisRun(f, env, jobId, horizon);
            forall i :: 0 <= i < |run.effects| && run.effects[i].Uploaded? ==>
              run.effects[i].blobName == VideoName(f, NextIndex(env.container, Head(f), "recordings", MinParts))
  {
  }

  /** After a completed run the stored video raises the next recording count by exactly one. */
  lemma CompletedRunAdvancesCount(f: Form, env: Environment, jobId: string, horizon: nat)
    requires SynthesisRun(f, env, jobId, horizon).outcome.Completed?
    ensures var k := NextIndex(env.container, Head(f), "recordings", MinParts);
            NextIndex(env.container + [SynthesisRun(f, env, jobId, horizon).outcome.record.name], Head(f), "recordings", MinParts)
            == k + 1
  {
    HeadSegments(f);
    var k := NextIndex(env.container, Head(f), "recordings", MinParts);
    NextIndexAfterStore(env.container, Head(f), "recordings", "mp4", MinParts, k);
  }

  // ---------------------------------------------------------------------
  // Feedback
  // ---------------------------------------------------------------------

  /**
   * How Submit Feedback ends.  `FeedbackRejected` stands for the
   * `ResourceExistsError` that `upload_blob` raises when the name is already
   * taken; the method proves that branch unreachable.  `FeedbackFailed` is
   * any other upload error.
   */
  datatype FeedbackOutcome = NoFeedback | FeedbackSaved(name: string) | FeedbackRejected(name: string) | FeedbackFailed(name: string)

  /** The feedback name Submit Feedback picks over `container`. */
  function FeedbackName(container: seq<string>, f: Form): string
  {
    GenerateFilename(f, NextIndex(container, Head(f), "feedback", MinParts), "txt", "feedback")
  }

  /**
   * Submit Feedback: with non-empty feedback, the next feedback count is
   * looked up and the text is stored under the generated name, which is new,
   * so the upload without overwrite is never rejected for a name collision.
   * `uploadOk` is whether the Blob service accepts the upload; when it
   * raises, the page stops and nothing is stored.
   */
  method SubmitFeedback(container: seq<string>, f: Form, feedback: string, uploadOk: bool) returns (outcome: FeedbackOutcome, stored: seq<string>)
    ensures feedback == "" ==> outcome == NoFeedback && stored == container
    ensures feedback != "" && uploadOk ==> outcome == FeedbackSaved(FeedbackName(container, f))
    ensures feedback != "" && uploadOk ==> stored == container + [FeedbackName(container, f)]
    ensures feedback != "" && !uploadOk ==> outcome == FeedbackFailed(FeedbackName(container, f)) && stored == container
  {
    if feedback == "" {
      return NoFeedback, container;
    }
    var feedbackCount := CheckExistingFiles(container, f, "feedback");
    var feedbackFilename := GenerateFilename(f, feedbackCount, "txt", "feedback");
    HeadSegments(f);
    NextNameIsFresh(container, Head(f), "feedback", "txt", MinParts);
    if feedbackFilename in container {
      assert false;
      return FeedbackRejected(feedbackFilename), container;
    }
    if !uploadOk {
      return FeedbackFailed(feedbackFilename), container;
    }
    outcome := FeedbackSaved(feedbackFilename);
    stored := container + [feedbackFilename];
  }

  /** Each stored feedback raises the next feedback count by one, so consecutive names never repeat. */
  lemma FeedbackCountAdvances(container: seq<string>, f: Form)
    ensures NextIndex(container + [FeedbackName(container, f)], Head(f), "feedback", MinParts)
            == NextIndex(container, Head(f), "feedback", MinParts) + 1
  {
    HeadSegments(f);
    NextIndexAfterStore(container, Head(f), "feedback", "txt", MinParts, NextIndex(container, Head(f), "feedback", MinParts));
  }

  // ---------------------------------------------------------------------
  // The default text
  // ---------------------------------------------------------------------

  /** The welcome text that greets a named customer. */
  function WelcomeText(customerName: string): string
  {
    WelcomeOpening + customerName + WelcomeBody
  }

  const WelcomeOpening: string := "Welcome "

  const WelcomeBody: string :=
    "! I'm Maria, your AI partner from the Global Black Belt AI Team at Microsoft. "
    + "We're thrilled that you've chosen to explore AI solutions with us. Our team is eager to collaborate with you to build cutting-edge AI solutions using Microsoft Azure AI services, along with our trusted partners. "
    + "Let's embark on this journey together and transform your business with the power of AI. This personalized avatar is here to assist you and provide all the information you need."

  const Greeting: string := "Hi, I'm Maria, your AI partner from the Global Black Belt AI Team at Microsoft."

  /** `default_input_text`: the welcome text when username, vertical and customer are all given, else the greeting. */
  function DefaultInputText(f: Form): string
  {
    if f.username != "" && f.industryVertical != "" && f.customerName != "" then WelcomeText(f.customerName) else Greeting
  }

  /** The welcome text holds the customer name right after its opening, so different customers get different texts. */
  lemma WelcomeTextNamesCustomer(f: Form)
    requires f.username != "" && f.industryVertical != "" && f.customerName != ""
    ensures var t := DefaultInputText(f);
            |t| >= |WelcomeOpening| + |f.customerName| && t[|WelcomeOpening|..|WelcomeOpening| + |f.customerName|] == f.customerName
  {
    MiddleSlice(WelcomeOpening, f.customerName, WelcomeBody);
  }

  /** The welcome text determines the customer name. */
  lemma WelcomeTextInjective(c1: string, c2: string)
    requires WelcomeText(c1) == WelcomeText(c2)
    ensures c1 == c2
  {
    MiddleSlice(WelcomeOpening, c1, WelcomeBody);
    MiddleSlice(WelcomeOpening, c2, WelcomeBody);
  }
}
