# Avatar video front ends: a verified model of their logic

The repository holds two Streamlit applications that drive Azure batch avatar
synthesis.

- **The general application** (`app1.py`, byte-identical `app1_general.py`)
  names the user's artifacts from a username, an industry vertical and a
  customer name. Submit for Synthesis submits the text. It then polls the job
  without limit until the job succeeds. On success it downloads the video,
  writes SubRip (SRT) captions from the job's word boundaries, uploads the
  video without overwrite and records it in the session's video history.
  Submit Feedback stores the feedback text under the next free feedback name.
- **The multi-agent application** (`app2_ma.py`, byte-identical
  `app2_multi_agent.py`) does the same from a username and a customer name,
  with four differences:
  - a search agent fetches Bing snippets for the customer;
  - a summarizer agent condenses them;
  - a manager agent approves the summary when its reply contains the word
    "approved" in any case;
  - the approved summary goes into the text-to-speech prompt, and Generate
    Video polls at most sixty times and then uploads with overwrite.

The model is built from these modules:

- `Wrappers`: `Option`.
- `PyStr`: the Python string operations the code relies on: `split`, `join`, `in`, `replace(p, "")`, `strip`, `lower` on ASCII, `str(int)`, `int(str)` and `f"{i:0w}"`.
- `BlobNaming`: `check_existing_files` over a blob listing, and the artifact name pattern.
- `Captions`: `format_srt_time`, `generate_srt`, `extract_word_timestamps`, and an SRT reader used as their inverse.
- `Polling`: status queries as a function `(job id, query number) -> outcome`; the first successful query; both `get_synthesis` variants.
- `Session`: `st.session_state` as a class. Its fields are `video_history`, `bing_data` and `final_summary`.
- `GeneralApp`: the general application's buttons.
- `MultiAgentApp`: Generate Video and Submit Feedback of the multi-agent application.
- `AgentPipeline`: Fetch Bing Data, Summarize & Approve, and the TTS prompt.

Submit for Synthesis and Generate Video are each modelled twice:

- a method that follows the page code step by step, with its loops and its session updates;
- a specification function that says what a run produces: its outcome, the number of status queries, and the ordered list of externally visible effects.

The method's contract ties the two together. The lemmas then state what the
specification implies. The other buttons are methods whose contracts give
their result through a function: Fetch Bing Data through `SearchText`,
Summarize & Approve through `Review`, Submit Feedback through `FeedbackName`,
and Reset Session directly as the new session state.

The services are parameters:

- the blob container's names;
- the submission's status code and id;
- the function answering status queries;
- the download and upload success flags;
- the blob URL and the SAS token;
- the search endpoint;
- the two chat agents, modelled as functions from instructions and user message to the streamed message contents.

## Model

| member | source | states |
|---|---|---|
| PyStr.Split | app1.py:92 | definition of one-character `str.split`: scans the text and cuts at each separator; at least one piece |
| PyStr.LastSegment | app1.py:93 | definition of `parts[-1]` after `split("_")` |
| PyStr.Join | app2_ma.py:217 | definition of `sep.join(parts)`: `""` for none, the parts with `sep` between them otherwise |
| PyStr.Contains | app2_ma.py:255 | definition of the substring test `p in s` |
| PyStr.RemoveAll | app1.py:94 | definition of `s.replace(p, "")`: one left-to-right pass that drops every non-overlapping occurrence |
| PyStr.AsciiLower | app2_ma.py:255 | `lower()` keeps the length and lower-cases each character (ASCII letters only) |
| PyStr.Strip | app2_ma.py:131 | `strip()` leaves no leading or trailing white space, is empty exactly for all-space text, and keeps text that has none at either end |
| PyStr.IntToString | app1.py:178 | definition of `str(i)` in the names: a `-` for negatives, then the decimal digits |
| PyStr.ParseInt | app1.py:96 | definition of `int(number_part)`: white space stripped, an optional sign, then ASCII digits; `None` stands for `ValueError` |
| PyStr.FormatZeroPadded | app1.py:207 | definition of `f"{i:0w}"`: the sign, then zeros up to width `w`, then the digits |
| PyStr.SplitCount | app2_ma.py:315-316 | `split('_')` yields one more piece than there are separators |
| PyStr.SplitPartsLackSeparator | app2_ma.py:315-316 | no piece of a split holds the separator |
| PyStr.SplitJoin | app2_multi_agent.py:217 | splitting a newline join at newlines gives back the parts when none holds a newline |
| PyStr.SplitAroundSeparator | app2_ma.py:315-316 | splitting `a + sep + b` is the split of `a` followed by the split of `b` |
| PyStr.LastSegmentAfterSeparator | app2_ma.py:316 | `parts[-1]` of `head + "_" + tail` is `tail` when `tail` has no `_`, and the name has two more segments than `head` has `_` |
| PyStr.ContainsIff | app2_multi_agent.py:255 | `p in s` holds exactly when `p` occurs at some index of `s` |
| PyStr.StripTrailingNewline | app2_multi_agent.py:128-131 | stripping `text + "\n"` gives `text` when `text` has no white space at its edges |
| PyStr.ParseIntToString | app2_ma.py:319-320 | `int(str(i)) == i` for every integer |
| PyStr.ParseIntFormatZeroPadded | app1.py:207 | `int(f"{i:0w}") == i` for every integer and width |
| PyStr.FormatZeroPaddedShape | app1.py:207 | `f"{i:0w}"` has at least `w` characters, exactly `w` when `0 <= i < 10^w`, all of them digits or `-` |
| PyStr.RemoveAllSkipsNumeral | app2_ma.py:318 | removing `.mp4`, `.webm`, `.txt` or a file type leaves a run of digits and `-` in front untouched |
| BlobNaming.NumberPart | app2_ma.py:318 | definition of the replace chain that removes the file type and the three extensions from the last segment |
| BlobNaming.SuffixNumber | app2_ma.py:315-324 | definition of one listed name's contribution: a number only with enough `_`-segments, the right start, and a parsable rest |
| BlobNaming.Bump | app2_ma.py:321-322 | definition of the loop step `if number >= count: count = number + 1` |
| BlobNaming.CountBy | app2_ma.py:313-325 | definition of the counting loop over a listing, for any suffix rule, starting from 1 |
| BlobNaming.CountFrom | app2_ma.py:313-325 | definition of the counting loop with the source's suffix rule |
| BlobNaming.NextIndex | app2_ma.py:310-325 | definition of `check_existing_files`: the count over the names listed under `{head}_{file_type}` |
| BlobNaming.ArtifactName | app1.py:178 | definition of the name pattern `{head}_{file_type}{k}.{extension}` |
| BlobNaming.ListBlobs | app2_ma.py:311-312 | the listing holds exactly the container's names that start with the prefix |
| BlobNaming.ListBlobsAppend | app2_ma.py:311-312 | a stored name with the prefix is listed after the earlier ones |
| BlobNaming.CountExisting | app2_ma.py:313-325 | the counting loop's result is the count function of the listed names |
| BlobNaming.CountFromIsNextIndex | app2_ma.py:313-325 | the count is at least 1, above every parsed suffix, and is 1 or one more than a parsed suffix, i.e. `max(1, 1 + largest parsed suffix)` |
| BlobNaming.CountByIsNextIndex | app2_ma.py:320-322 | the same for any suffix rule, by induction over the listing |
| BlobNaming.NextIndexUnique | app2_ma.py:313-325 | that characterisation determines the count |
| BlobNaming.NextIndexLeast | app2_ma.py:313-325 | the count is the least value above every parsed suffix, and at least 1 |
| BlobNaming.CountByDefault | app1.py:89 | with no parsable name the count is 1 |
| BlobNaming.CountByOrderIndependent | app2_ma.py:314-322 | the listing order does not matter |
| BlobNaming.CountBySkip | app2_ma.py:319-324 | a name whose suffix does not parse leaves the count as it is |
| BlobNaming.SkippedNameKeepsCount | app2_ma.py:316-324 | names with too few segments, a last segment not starting with the file type, or a non-integer remainder are skipped |
| BlobNaming.CountByAppend | app2_ma.py:320-322 | one more listed name raises the count to its number plus one exactly when the number is at least the count |
| BlobNaming.NumberPartRecordings | app2_ma.py:318 | the replace chain turns `recordings{d}.mp4` into `d` |
| BlobNaming.NumberPartFeedback | app2_ma.py:318 | the replace chain turns `feedback{d}.txt` into `d` |
| BlobNaming.ArtifactNameRoundTrip | app2_ma.py:316-321 | a name `{head}_{file_type}{k}.{ext}` with enough segments parses back to `k`, for every integer `k` |
| BlobNaming.ArtifactNameHasPrefix | app1.py:87 | a generated name is listed under its own prefix |
| BlobNaming.NextIndexAboveStored | app2_ma.py:318-322 | once a name with index `k` is stored the next index is above `k` |
| BlobNaming.NextNameIsFresh | app1.py:171-175 | the name built from the next index is not in the container |
| BlobNaming.NextIndexAfterStore | app2_ma.py:313-325 | storing the name built from the next index raises the next index by exactly one |
| Captions.FormatSrtTime | app1.py:200-207 | definition of `format_srt_time`: three floor `divmod` steps, then the padded fields joined as `hh:mm:ss,fff` |
| Captions.TimeLine | app1.py:186 | definition of the `{start} --> {end}` line |
| Captions.SrtBlock | app1.py:185-187 | definition of one block: index line, time line, text line and a blank line |
| Captions.SrtBlocks | app1.py:180-191 | definition of `generate_srt`: the blocks of the entries numbered from `first` |
| Captions.WordCaption | app1.py:214-217 | definition of one caption from a word boundary: `start`, `end` and `word` copied |
| Captions.WordCaptions | app1.py:209-219 | definition of `extract_word_timestamps`: `[]` without `wordBoundary`, otherwise one caption per record |
| Captions.FormatSrtTimeComponents | app1.py:200-207 | for `ms >= 0` the stamp is the hours, the minutes and seconds within the hour and minute, and the milliseconds; minutes and seconds take 2 digits, milliseconds 3, and hours at least 2, exactly 2 below 100 hours |
| Captions.ParseFormatSrtTime | app1.py:200-207 | reading the stamp back as `((h*60+m)*60+s)*1000+f` recovers the input, for every integer |
| Captions.FormatSrtTimeInjective | app1.py:200-207 | different inputs give different stamps |
| Captions.FormatSrtTimeExample | app1.py:200-207 | `format_srt_time(3661004) == "01:01:01,004"` |
| Captions.FormatSrtTimeZero | app1.py:200-207 | `format_srt_time(0) == "00:00:00,000"` |
| Captions.PaddedExamples | app1.py:207 | `01`, `004`, `00` and `000` for the padded fields |
| Captions.GenerateSrt | app1_general.py:180-191 | the accumulation loop produces the blocks `"{i}\n{start} --> {end}\n{text}\n\n"` for `i = 1..n` in input order, and `""` for no entries |
| Captions.ConcatBlocksCons | app1_general.py:185-190 | the first entry's block comes first, the rest are numbered from the next index |
| Captions.SrtBlocksAppend | app1_general.py:184-191 | the captions of `a + b` are those of `a` followed by those of `b` numbered from `\|a\| + 1` |
| Captions.ParseTimeLineRoundTrip | app1_general.py:186-189 | the `start --> end` line reads back as the two times and holds no newline |
| Captions.SplitBlock | app1_general.py:187-189 | a block splits into its index line, time line, text line and the empty line |
| Captions.ParseBlocksRoundTrip | app1_general.py:180-191 | the lines of the blocks read back as the entries when no text has a newline |
| Captions.ParseGenerateSrt | app1_general.py:180-191 | the SRT text reads back as the caption entries when no text has a newline |
| Captions.WordCaptionsOf | app1_general.py:213-218 | one caption per record, in order, copying `start`, `end` and `word` |
| Captions.ExtractWordTimestamps | app1_general.py:209-219 | the loop yields `[]` without `wordBoundary`, and otherwise one caption per record, in order |
| Polling.Succeeded | app1.py:237 | definition of a finishing reply: status `Succeeded` and a non-empty result URL |
| Polling.FirstSuccess | app1_general.py:233-238 | the first successful query among the first `n`: it succeeds, every earlier one fails, and none exists exactly when all `n` fail |
| Polling.FirstSuccessStable | app1_general.py:233-270 | watching longer does not move a success already seen |
| Polling.FirstSuccessAt | app2_ma.py:400-405 | a success right after a run of failures is the first success |
| Polling.SameSuccessesSameFirst | app2_ma.py:376-383 | the first success depends only on which queries succeed |
| Polling.GetSynthesisGeneral | app1_general.py:152-168 | `(result, data)` exactly on status `Succeeded` with a result; `(None, None)` for any other status, a missing key or an exception |
| Polling.GeneralTestIsSucceeded | app1_general.py:236-238 | the loop's `download_url and response_data` test is the success condition |
| Polling.GetSynthesisMultiAgent | app2_ma.py:373-383 | `(outputs.result, data)` for every reply and `(None, None)` on an exception |
| Polling.MultiAgentTestIsSucceeded | app2_ma.py:403-404 | the loop's `url_dl and data` plus status test is the same success condition |
| Session.DisplayLine | app2_ma.py:448-450 | definition of one history line `{name} - [Download]({url}?{sas})` |
| Session.DisplayLines | app2_ma.py:448-450 | one line `"{name} - [Download]({url}?{sas_token})"` per entry, in append order |
| Session.DisplayLinesAppend | app2_ma.py:448-450 | appending an entry adds exactly its line at the end |
| Session.SessionState.constructor | app1.py:77-78 | the general page's first-run session: an empty history and no stored search text or summary |
| Session.SessionState.AppendRecord | app2_ma.py:412-416 | the record is appended and earlier entries and other keys are unchanged |
| Session.SessionState.ResetHistory | app2_ma.py:452-453 | Reset Session replaces the history with `[]` and leaves the other keys |
| Session.SessionState.StoreBingData | app2_multi_agent.py:240 | `bing_data` is set and nothing else changes |
| Session.SessionState.StoreFinalSummary | app2_multi_agent.py:257 | `final_summary` is set and nothing else changes |
| Session.SessionState.InitFinalSummary | app2_multi_agent.py:277-278 | `final_summary` becomes `""` only when absent |
| Session.SessionState.HistoryLines | app1.py:284-286 | the display loop writes exactly the display lines of the history |
| GeneralApp.Head | app1.py:178 | definition of the name head `{user}_{vertical}_{customer}_Maria` |
| GeneralApp.GenerateFilename | app1.py:177-178 | definition of `generate_filename` over the head |
| GeneralApp.VideoName | app1.py:240 | definition of the video name with file type `recordings` and extension `mp4` |
| GeneralApp.FormComplete | app1.py:223 | definition of the guard: username, text and customer all non-empty |
| GeneralApp.AfterSuccess | app1.py:237-267 | definition of what follows a success: download, captions, upload, history record, stopping at a failed step |
| GeneralApp.PollingRun | app1.py:232-270 | definition of the `while True` loop observed for `horizon` queries: still polling without a success, otherwise `AfterSuccess` from the first one |
| GeneralApp.SynthesisRun | app1.py:222-270 | definition of Submit for Synthesis: the guard, the count, the submission, then `PollingRun` |
| GeneralApp.FeedbackName | app1.py:277-278 | definition of the feedback name: `generate_filename` with the next feedback count |
| GeneralApp.WelcomeText | app1.py:62-66 | definition of the welcome text with the customer name inserted |
| GeneralApp.DefaultInputText | app1.py:61-68 | definition of the default text: the welcome text when all three fields are set, the short greeting otherwise |
| GeneralApp.HeadSegments | app1.py:87 | the name head holds at least three `_`, so every generated name has the four segments the suffix rule needs |
| GeneralApp.CheckExistingFiles | app1.py:86-101 | the count is the next index for the four-segment prefix `{user}_{vertical}_{customer}_Maria_{type}` |
| GeneralApp.GenerateFilenameRoundTrip | app1.py:177-178 | recording and feedback names read back as their count |
| GeneralApp.StoredNameRaisesCount | app1.py:93-98 | once a generated name with count `k` is stored, the next count is above `k` |
| GeneralApp.SubmitSynthesis | app1.py:145-149 | the id below status 400; `None` from 400 up; a reply without `id` raises |
| GeneralApp.SubmitForSynthesis | app1.py:222-270 | the button does what the run function says, and the history gains exactly the completed record |
| GeneralApp.PollUntilSuccess | app1.py:233-270 | the `while True` loop, seen for `horizon` queries, matches the polling function; nothing in the session changes before the success |
| GeneralApp.FinishJob | app1.py:240-268 | download, save `{video}.srt`, upload and append run in order; a failed step ends the run there |
| GeneralApp.GuardStopsRun | app1.py:223-224 | with a required field empty nothing is counted, submitted, polled or recorded |
| GeneralApp.NothingBeforeSuccess | app1.py:233-270 | with no success yet there are no effects, and a submitted run is still polling after every query it made |
| GeneralApp.HorizonIrrelevantAfterSuccess | app1.py:233-270 | once a success is seen, watching longer gives the same run: the loop has no bound |
| GeneralApp.VideoNameIsFresh | app1.py:240 | the video name is new in the container |
| GeneralApp.UploadFailsOnlyOnError | app1.py:171-175 | the upload without overwrite never meets an existing name |
| GeneralApp.AfterSuccessSteps | app1.py:240-268 | after a success the effects are the download, the captions file, the video upload and the one appended record |
| GeneralApp.RunAfterFirstSuccess | app1.py:233-238 | a run with any effect passed the guard and the submission and continues from the first successful query |
| GeneralApp.CompletedRunSteps | app1_general.py:240-269 | a completed run made `i + 1` queries for a first success at `i`, and its effects are the download, the SRT save, the upload and the append, in that order |
| GeneralApp.OnlyVideoUploaded | app1_general.py:246-254 | the only blob uploaded in a run is the video, never the captions file |
| GeneralApp.CompletedRunAdvancesCount | app1.py:240-256 | after a completed run the next recording count is one higher |
| GeneralApp.SubmitFeedback | app1.py:276-281 | non-empty feedback is stored under the next feedback name, which is new, when the upload succeeds; a failed upload or empty feedback stores nothing |
| GeneralApp.FeedbackCountAdvances | app1.py:277-278 | each stored feedback raises the next feedback count by one |
| GeneralApp.WelcomeTextNamesCustomer | app1.py:61-66 | the default text holds the customer name right after `Welcome ` |
| GeneralApp.WelcomeTextInjective | app1.py:61-66 | different customers get different welcome texts |
| MultiAgentApp.Head | app2_ma.py:311 | definition of the name head `{user}_{customer}_Maria` |
| MultiAgentApp.VideoName | app2_ma.py:407 | definition of the inline video name `{head}_recordings{k}.mp4` |
| MultiAgentApp.FeedbackFileName | app2_ma.py:439 | definition of the inline feedback name `{head}_feedback{k}.txt` |
| MultiAgentApp.FeedbackName | app2_ma.py:438-439 | definition of the feedback name with the next feedback count |
| MultiAgentApp.FormComplete | app2_ma.py:392 | definition of the guard: username, text and customer all non-empty |
| MultiAgentApp.AfterSuccess | app2_ma.py:405-422 | definition of what follows a success: download, upload with overwrite, history record, stopping at a failed step |
| MultiAgentApp.PollingRun | app2_ma.py:398-429 | definition of the 60-attempt loop: `TimedOut` after 60 queries without a success, otherwise `AfterSuccess` from the first one |
| MultiAgentApp.VideoRun | app2_ma.py:391-429 | definition of Generate Video: the guard, the count, the submission, then `PollingRun` |
| MultiAgentApp.HeadSegments | app2_ma.py:311 | the name head holds at least two `_`, enough for the three-segment rule |
| MultiAgentApp.CheckExistingFiles | app2_ma.py:310-325 | the count is the next index for the prefix `{user}_{customer}_Maria_{type}` |
| MultiAgentApp.VideoNameRoundTrip | app2_ma.py:407 | `{user}_{customer}_Maria_recordings{k}.mp4` reads back as `k` |
| MultiAgentApp.FeedbackNameRoundTrip | app2_ma.py:439 | `{user}_{customer}_Maria_feedback{k}.txt` reads back as `k` |
| MultiAgentApp.StoredVideoRaisesCount | app2_ma.py:318-322 | once video `k` is stored the next recording count is above `k` |
| MultiAgentApp.SubmitSynthesis | app2_ma.py:367-371 | `.get("id")` below status 400, else `None` |
| MultiAgentApp.GenerateVideo | app2_ma.py:391-429 | the button does what the run function says, and the history gains exactly the completed record |
| MultiAgentApp.PollForVideo | app2_ma.py:400-429 | the bounded loop with its `else` branch matches the polling function; nothing in the session changes before the success |
| MultiAgentApp.FinishJob | app2_ma.py:405-425 | download, upload with overwrite and append run in order; a failed step ends the run there |
| MultiAgentApp.GuardStopsRun | app2_ma.py:392-393 | with a required field empty nothing is counted, submitted, polled or recorded |
| MultiAgentApp.AtMostSixtyPolls | app2_ma.py:398-401 | a run makes at most sixty status queries |
| MultiAgentApp.PollsUpToFirstSuccess | app2_ma.py:400-425 | a first success at query `i < 60` means exactly `i + 1` queries and no timeout |
| MultiAgentApp.TimeoutAfterSixty | app2_ma.py:426-429 | with no success among sixty queries the run times out after exactly sixty, with no effect |
| MultiAgentApp.FailuresOnlyUseAttempts | app2_ma.py:376-383 | failed statuses, other statuses and exceptions only use an attempt; the run depends only on which queries succeed and on the successful reply |
| MultiAgentApp.SubmitIdOnlyTested | app2_ma.py:396-397 | any two non-empty submission ids give the same run; polling uses the local job id |
| MultiAgentApp.CompletedRunSteps | app2_ma.py:405-418 | a completed run downloads, uploads and appends the record of the counted video name, in that order, after `i + 1` queries |
| MultiAgentApp.CompletedRunAdvancesCount | app2_ma.py:407-416 | after a completed run the next recording count is one higher |
| MultiAgentApp.FirstRunSession | app2_ma.py:277-302 | the multi-agent page's first-run session: an empty history, `final_summary` set to `""`, no search text |
| MultiAgentApp.SubmitFeedback | app2_ma.py:437-442 | non-empty feedback is stored under the next feedback name, which is new, when the upload succeeds; a failed upload or empty feedback stores nothing |
| MultiAgentApp.FeedbackCountAdvances | app2_ma.py:438-439 | each stored feedback raises the next feedback count by one |
| AgentPipeline.KeyRefused | app2_ma.py:115-117 | definition of the key check: an empty key or one containing the shipped placeholder |
| AgentPipeline.SnippetText | app2_ma.py:124-128 | definition of the accumulated `snippet + "\n"` text |
| AgentPipeline.SearchText | app2_ma.py:114-133 | definition of `bing_search`: the key error, the failure text, the no-results text, or the stripped snippets |
| AgentPipeline.SearchQuery | app2_ma.py:235 | definition of the search query for a customer |
| AgentPipeline.ManagerInstructions | app2_ma.py:173-178 | definition of the manager's instructions with the customer name inserted |
| AgentPipeline.LastOr | app2_ma.py:199-202 | definition of "the last streamed message, or `\"\"`" |
| AgentPipeline.Chain | app2_ma.py:187-218 | definition of `run_summarizer_manager_chain`: the summarizer reads the text, the manager reads the summary, and the log is joined |
| AgentPipeline.Approved | app2_ma.py:255 | definition of the approval test `"approved" in mgr_out.lower()` |
| AgentPipeline.Review | app2_ma.py:244-259 | definition of Summarize & Approve: nothing without usable search text, otherwise the chain and its verdict |
| AgentPipeline.DefaultTtsText | app2_ma.py:282-291 | definition of the TTS prompt: the template with customer and summary when both names are set, the greeting otherwise |
| AgentPipeline.RevisionExample | app2_ma.py:255 | `"needs revision: remove brand X"` does not approve, although it holds an a |
| AgentPipeline.NoApNeverApproved | app2_ma.py:255 | a reply in which no a is followed by a p, in either case, never approves |
| AgentPipeline.BingSearch | app2_multi_agent.py:114-133 | the search follows the search-text function: key check, call, snippet loop, strip |
| AgentPipeline.ShippedKeyErrors | app2_multi_agent.py:116-117 | with the shipped placeholder key every query yields the `**ERROR**` text |
| AgentPipeline.RefusedKeyIgnoresService | app2_multi_agent.py:116-117 | with a refused key the result depends on neither the service nor the query |
| AgentPipeline.NoResultsText | app2_multi_agent.py:129-131 | a reply without `webPages` or `value` gives `"No Bing results found."` |
| AgentPipeline.EmptyResultsText | app2_multi_agent.py:125-131 | an empty result list gives `""` |
| AgentPipeline.Snippets | app2_multi_agent.py:126-127 | one snippet per item, in order, a missing one as `""` |
| AgentPipeline.SnippetTextJoin | app2_multi_agent.py:126-128 | the accumulated text is the newline join of the snippets with one final newline |
| AgentPipeline.SearchRecoversSnippets | app2_multi_agent.py:124-131 | splitting the search text at newlines gives the snippets back when none holds a newline and the edges are not white space |
| AgentPipeline.FetchBingData | app2_multi_agent.py:231-240 | no customer: nothing stored; else `bing_data` is the search text for `{customer} history, recent recognition, products and services` |
| AgentPipeline.SearchQueryInjective | app2_multi_agent.py:235 | different customers are searched with different queries |
| AgentPipeline.ManagerInstructionsNameCustomer | app2_multi_agent.py:173-178 | the manager's instructions name exactly the given customer |
| AgentPipeline.Tagged | app2_multi_agent.py:204 | one tagged log line per streamed message, in order |
| AgentPipeline.RunSummarizerManagerChain | app2_multi_agent.py:187-218 | the two streaming loops return each agent's last message (or `""`) and the joined log, as the chain function says |
| AgentPipeline.ConversationLines | app2_multi_agent.py:193-217 | the conversation splits into the `[Summarizer] ` lines followed by the `[Manager] ` lines, one per message, when no message has a newline and at least one message was streamed |
| AgentPipeline.ReviewedSummaryIsLastMessage | app2_multi_agent.py:200-212 | the reviewed summary is the summarizer's last message, or `""`, and the manager's input is that summary |
| AgentPipeline.ApprovedWhenWordPresent | app2_multi_agent.py:255 | any reply containing "approved" in any case approves, whatever surrounds it |
| AgentPipeline.NoLetterANeverApproved | app2_multi_agent.py:255 | a reply without the letter a never approves |
| AgentPipeline.AsciiLowerAppend | app2_multi_agent.py:255 | lower-casing distributes over concatenation |
| AgentPipeline.ShoutedApproval | app2_multi_agent.py:255 | `"APPROVED"` approves |
| AgentPipeline.NegatedApproval | app2_multi_agent.py:255 | `"Not approved."` approves too |
| AgentPipeline.RejectionExample | app2_multi_agent.py:255-260 | `"Rejected: too long."` does not approve |
| AgentPipeline.SummarizeAndApprove | app2_multi_agent.py:244-260 | without usable search text nothing runs; otherwise the chain runs, and `final_summary` becomes its summary exactly on approval and is kept otherwise |
| AgentPipeline.BlankDataNotReviewed | app2_multi_agent.py:245-246 | absent or blank search text is never summarized |
| AgentPipeline.StripKeepsNonBlank | app2_multi_agent.py:245 | text starting with a non-space character is not blank |
| AgentPipeline.ShippedKeyErrorIsSummarized | app2_multi_agent.py:116-117 | with the shipped key the summarizer is fed the key error text |
| AgentPipeline.TtsTextCarriesSummary | app2_multi_agent.py:282-289 | with both names the prompt holds the customer after `Hello ` and the summary at its offset |
| AgentPipeline.TtsTextDeterminesSummary | app2_multi_agent.py:282-289 | for one customer, different summaries give different prompts |
| AgentPipeline.TtsTextWithoutNames | app2_multi_agent.py:290-291 | without both names the prompt is the fixed greeting, whatever the summary |
| AgentPipeline.PrepareTtsPrompt | app2_multi_agent.py:277-291 | `final_summary` is initialised when absent and the prompt is built around it; the `summary_for_tts` fallback never applies |
| AgentPipeline.ApprovalReachesPrompt | app2_multi_agent.py:255-289 | an approved summary appears in the next prompt; a rejected one leaves the earlier prompt |

`Captions.ParseSrt`, `Captions.ParseBlocks` and `Captions.ParseTimeLine` have
no counterpart in the code. They are reference readers of the SRT format. The
round-trip lemmas above state what the writer guarantees.

## Left out

- The Streamlit page: layout, CSS, markdown, spinners, warnings, the download buttons and the logout link. Only the values they show or store are modelled.
- The HTTP calls and the Blob SDK are inputs and outcomes: the listing, the submission status and id, the status function, and the download and upload flags. The downloaded bytes and the blob contents are not modelled.
- The SAS token depends on a key and the clock. It is an opaque string.
- The Semantic Kernel agents and `asyncio`: each agent is a function from its instructions and user message to the contents it streams. Only the instructions' text is modelled; the kernel and service set-up (`create_summarizer_agent`, `create_manager_agent`) are left out.
- `time.sleep(5)` has no effect besides the delay, and `uuid4` job ids are parameters.
- The local file writes, `save_srt_file` and the video file: the saved captions appear only as an effect naming the path and the content.
- The order of a listing: `ListBlobs` keeps container order, while the Blob service lists names lexicographically. `CountByOrderIndependent` shows that the count does not depend on the order.
- The list-then-upload race between concurrent sessions is a concurrency issue and is not modelled.
- `target_language` and the date input are read but never used by the code. The translator settings are only defined.
- JSON values of unexpected types are not modelled: a non-string `id`, `result` or `snippet`, or a `webPages` that is not an object. The model's ids, results and snippets are strings or absent.
- Word boundaries: `start` and `end` are integers in the model. A float value, which `int(...)` in `format_srt_time` truncates, and a record without `start`, `end` or `word`, which raises `KeyError` in `extract_word_timestamps`, are not modelled.
- PyStr.ParseInt: accepts an optional sign and ASCII digits after stripping white space. Python's `int()` also takes `_` between digits and non-ASCII digits; those names are skipped.
- PyStr.AsciiLower: lower-cases only ASCII letters, where Python's `lower()` covers all of Unicode.
- GeneralApp.PollUntilSuccess: the `while True` loop has no bound. The model observes it for a given number of queries (`horizon`) and reports `StillPolling` when no success falls in that window.
- GeneralApp.SubmitForSynthesis, MultiAgentApp.FinishJob, MultiAgentApp.GenerateVideo: an exception in the download or upload request (`raise_for_status`, `upload_blob`) aborts the page script. The model reports it as `DownloadFailed` or `UploadFailed` with the effects so far.
- The chat messages' `content` is taken to be a string; a message without content is not modelled.
