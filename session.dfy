/**
 * The per-browser-session state the applications keep between reruns of
 * the page script (`st.session_state`): the video history, and for the
 * multi-agent application the fetched search text and the approved summary.
 * A missing key is `None`.
 */
module Session {
  import opened Wrappers

  /** One history entry: `{"name": ..., "url": ..., "sas_token": ...}`. */
  datatype ArtifactRecord = ArtifactRecord(name: string, url: string, sasToken: string)

  /** The download link of an entry: its URL with the SAS token as query string. */
  function Link(r: ArtifactRecord): string
  {
    r.url + "?" + r.sasToken
  }

  /** The line the history section writes for one entry: `"{name} - [Download]({link})"`. */
  function DisplayLine(r: ArtifactRecord): string
  {
    r.name + " - [Download](" + Link(r) + ")"
  }

  /** The history section's lines, one per entry in append order. */
  function DisplayLines(history: seq<ArtifactRecord>): (lines: seq<string>)
    ensures |lines| == |history|
    ensures forall i :: 0 <= i < |history| ==> lines[i] == DisplayLine(history[i])
  {
    if history == [] then []
    else DisplayLines(history[..|history| - 1]) + [DisplayLine(history[|history| - 1])]
  }

  /** Appending an entry adds exactly its line at the end of the display. */
  lemma DisplayLinesAppend(history: seq<ArtifactRecord>, r: ArtifactRecord)
    ensures DisplayLines(history + [r]) == DisplayLines(history) + [DisplayLine(r)]
  {
    assert (history + [r])[..|history|] == history;
  }

  class SessionState {
    var videoHistory: seq<ArtifactRecord>
    var bingData: Option<string>
    var finalSummary: Option<string>

    /**
     * A session whose only key is `video_history`, set to `[]`: the general
     * application's state after its first run.  The multi-agent application
     * also stores `final_summary` in its first run (`InitFinalSummary`).
     */
    constructor ()
      ensures videoHistory == [] && bingData == None && finalSummary == None
    {
      videoHistory := [];
      bingData := None;
      finalSummary := None;
    }

    /** `st.session_state['video_history'].append(record)`. */
    method AppendRecord(r: ArtifactRecord)
      modifies this
      ensures videoHistory == old(videoHistory) + [r]
      ensures bingData == old(bingData) && finalSummary == old(finalSummary)
    {
      videoHistory := videoHistory + [r];
    }

    /** Reset Session: `st.session_state['video_history'] = []`. */
    method ResetHistory()
      modifies this
      ensures videoHistory == []
      ensures bingData == old(bingData) && finalSummary == old(finalSummary)
    {
      videoHistory := [];
    }

    /** `st.session_state["bing_data"] = text`. */
    method StoreBingData(text: string)
      modifies this
      ensures bingData == Some(text)
      ensures videoHistory == old(videoHistory) && finalSummary == old(finalSummary)
    {
      bingData := Some(text);
    }

    /** `st.session_state["final_summary"] = summary`. */
    method StoreFinalSummary(summary: string)
      modifies this
      ensures finalSummary == Some(summary)
      ensures videoHistory == old(videoHistory) && bingData == old(bingData)
    {
      finalSummary := Some(summary);
    }

    /** `if 'final_summary' not in st.session_state: st.session_state['final_summary'] = ""`. */
    method InitFinalSummary()
      modifies this
      ensures finalSummary == (if old(finalSummary).None? then Some("") else old(finalSummary))
      ensures videoHistory == old(videoHistory) && bingData == old(bingData)
    {
      if finalSummary.None? {
        finalSummary := Some("");
      }
    }

    /** The Session Video History loop: one line per entry, in append order. */
    method HistoryLines() returns (lines: seq<string>)
      ensures lines == DisplayLines(videoHistory)
    {
      lines := [];
      for i := 0 to |videoHistory|
        invariant lines == DisplayLines(videoHistory[..i])
      {
        var vid := videoHistory[i];
        var link := vid.url + "?" + vid.sasToken;
        lines := lines + [vid.name + " - [Download](" + link + ")"];
        assert videoHistory[..i + 1] == videoHistory[..i] + [vid];
        DisplayLinesAppend(videoHistory[..i], vid);
      }
      assert videoHistory[..|videoHistory|] == videoHistory;
    }
  }
}
