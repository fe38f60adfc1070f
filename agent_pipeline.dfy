/**
 * The search, summarize and approve half of the multi-agent application:
 * Fetch Bing Data stores the search snippets for the customer, Summarize &
 * Approve runs the summarizer agent and then the manager agent over them and
 * keeps the summary when the manager's reply says "approved", and the TTS
 * prompt is built around the kept summary.
 */
module AgentPipeline {
  import opened Wrappers
  import opened PyStr
  import opened Session

  // ---------------------------------------------------------------------
  // Step A: the search agent
  // ---------------------------------------------------------------------

  /** One entry of `webPages.value`; a missing `snippet` is `None`. */
  datatype SearchItem = SearchItem(snippet: Option<string>)

  /** The `webPages` object of a reply; a missing `value` is `None`. */
  datatype WebPages = WebPages(value: Option<seq<SearchItem>>)

  /** A search call: an exception (HTTP error, bad JSON, network) or a decoded reply, `webPages` possibly missing. */
  datatype SearchReply = SearchFailed(message: string) | SearchAnswered(webPages: Option<WebPages>)

  /** The search endpoint, as a function of the query. */
  type SearchService = string -> SearchReply

  /** `BING_SEARCH_API_KEY` as shipped: the placeholder. */
  const ShippedKey: string := "YOUR_BING_SEARCH_API_KEY"

  const KeyMissingMessage: string := ErrorMark + "Bing Search API key not found. Provide BING_SEARCH_API_KEY in your configuration."
  const ErrorMark: string := "**ERROR**: "
  const NoResultsMessage: string := "No Bing results found."
  const FailurePrefix: string := "Bing API call failed: "

  /** An empty key, or one still holding the placeholder, is refused before any call. */
  predicate KeyRefused(apiKey: string)
  {
    apiKey == "" || Contains(apiKey, ShippedKey)
  }

  /** The snippets of the items in order, a missing one as `""`. */
  function Snippets(items: seq<SearchItem>): (s: seq<string>)
    ensures |s| == |items|
    ensures forall i :: 0 <= i < |items| ==> s[i] == items[i].snippet.GetOr("")
  {
    if items == [] then [] else Snippets(items[..|items| - 1]) + [items[|items| - 1].snippet.GetOr("")]
  }

  /** The text the result loop accumulates: every snippet followed by a newline. */
  function SnippetText(items: seq<SearchItem>): string
  {
    if items == [] then "" else SnippetText(items[..|items| - 1]) + items[|items| - 1].snippet.GetOr("") + "\n"
  }

  /** `bing_search(query)` with the key and the endpoint as parameters. */
  function SearchText(apiKey: string, service: SearchService, query: string): string
  {
    if KeyRefused(apiKey) then KeyMissingMessage
    else match service(query)
      case SearchFailed(message) => FailurePrefix + message
      case SearchAnswered(webPages) =>
        if webPages.Some? && webPages.value.value.Some? then Strip(SnippetText(webPages.value.value.value))
        else Strip(NoResultsMessage)
  }

  /** `bing_search`: the key check, the call, and the loop over `webPages.value`. */
  method BingSearch(apiKey: string, service: SearchService, query: string) returns (text: string)
    ensures text == SearchText(apiKey, service, query)
  {
    if apiKey == "" || Contains(apiKey, ShippedKey) {
      return KeyMissingMessage;
    }
    var reply := service(query);
    if reply.SearchFailed? {
      return FailurePrefix + reply.message;
    }
    var resultsText := "";
    if reply.webPages.Some? && reply.webPages.value.value.Some? {
      var items := reply.webPages.value.value.value;
      for i := 0 to |items|
        invariant resultsText == SnippetText(items[..i])
      {
        var snippet := items[i].snippet.GetOr("");
        resultsText := resultsText + snippet + "\n";
        assert items[..i + 1][..i] == items[..i];
      }
      assert items[..|items|] == items;
    } else {
      resultsText := NoResultsMessage;
    }
    text := Strip(resultsText);
  }

  /** The shipped configuration never reaches the search service: every query yields the key error. */
  lemma ShippedKeyErrors(service: SearchService, query: string)
    ensures SearchText(ShippedKey, service, query) == KeyMissingMessage
  {
    assert ShippedKey <= ShippedKey;
  }

  /** With a refused key the result depends on neither the service nor the query. */
  lemma RefusedKeyIgnoresService(apiKey: string, s1: SearchService, s2: SearchService, q1: string, q2: string)
    requires KeyRefused(apiKey)
    ensures SearchText(apiKey, s1, q1) == SearchText(apiKey, s2, q2)
  {
  }

  /** A reply without `webPages.value` reads as the no-results message, unchanged by the strip. */
  lemma NoResultsText(apiKey: string, service: SearchService, query: string)
    requires !KeyRefused(apiKey)
    requires service(query).SearchAnswered?
    requires service(query).webPages.None? || service(query).webPages.value.value.None?
    ensures SearchText(apiKey, service, query) == NoResultsMessage
  {
    assert !IsSpace(NoResultsMessage[0]) && !IsSpace(NoResultsMessage[|NoResultsMessage| - 1]);
  }

  /** An empty result list gives the empty text, not the no-results message. */
  lemma EmptyResultsText(apiKey: string, service: SearchService, query: string)
    requires !KeyRefused(apiKey)
    requires service(query) == SearchAnswered(Some(WebPages(Some([]))))
    ensures SearchText(apiKey, service, query) == ""
  {
  }

  /** The accumulated text is the newline join of the snippets plus one final newline. */
  lemma {:induction false} SnippetTextJoin(items: seq<SearchItem>)
    requires |items| >= 1
    ensures SnippetText(items) == Join(Snippets(items), "\n") + "\n"
  {
    var init := items[..|items| - 1];
    if |items| > 1 {
      SnippetTextJoin(init);
      assert Snippets(items)[..|items| - 1] == Snippets(init);
    }
  }

  /** The join of the parts starts with the first part. */
  lemma {:induction false} JoinStartsWithFirst(parts: seq<string>, sep: string)
    requires |parts| >= 1
    ensures parts[0] <= Join(parts, sep)
  {
    if |parts| > 1 {
      var init := parts[..|parts| - 1];
      JoinStartsWithFirst(init, sep);
      assert Join(parts, sep) == Join(init, sep) + (sep + parts[|parts| - 1]);
    }
  }

  /** The join of the parts ends with the last part. */
  lemma JoinEndsWithLast(parts: seq<string>, sep: string)
    requires |parts| >= 1
    ensures var j := Join(parts, sep); var last := parts[|parts| - 1];
            |last| <= |j| && j[|j| - |last|..] == last
  {
  }

  /** Stripping a newline-terminated join and splitting it at newlines gives the parts back. */
  lemma SplitStrippedJoin(parts: seq<string>)
    requires |parts| >= 1
    requires forall i :: 0 <= i < |parts| ==> '\n' !in parts[i]
    requires parts[0] != [] && !IsSpace(parts[0][0])
    requires var last := parts[|parts| - 1]; last != [] && !IsSpace(last[|last| - 1])
    ensures Split(Strip(Join(parts, "\n") + "\n"), '\n') == parts
  {
    var j := Join(parts, "\n");
    JoinStartsWithFirst(parts, "\n");
    JoinEndsWithLast(parts, "\n");
    assert j[0] == parts[0][0];
    var last := parts[|parts| - 1];
    assert j[|j| - 1] == j[|j| - |last|..][|last| - 1] == last[|last| - 1];
    StripTrailingNewline(j);
    SplitJoin(parts, '\n');
  }

  /**
   * The snippets come back from the search text by splitting at newlines,
   * as long as none of them holds a newline and the text does not begin or
   * end with white space that the strip would remove.
   */
  lemma SearchRecoversSnippets(apiKey: string, service: SearchService, query: string, items: seq<SearchItem>)
    requires !KeyRefused(apiKey)
    requires service(query) == SearchAnswered(Some(WebPages(Some(items))))
    requires |items| >= 1
    requires forall i :: 0 <= i < |items| ==> '\n' !in items[i].snippet.GetOr("")
    requires var first := items[0].snippet.GetOr(""); first != [] && !IsSpace(first[0])
    requires var last := items[|items| - 1].snippet.GetOr(""); last != [] && !IsSpace(last[|last| - 1])
    ensures Split(SearchText(apiKey, service, query), '\n') == Snippets(items)
  {
    SnippetTextJoin(items);
    SplitStrippedJoin(Snippets(items));
  }

  // ---------------------------------------------------------------------
  // Fetch Bing Data
  // ---------------------------------------------------------------------

  /** The query for a customer. */
  function SearchQuery(customerName: string): string
  {
    customerName + " history, recent recognition, products and services"
  }

  datatype FetchOutcome = NoCustomer | Fetched(query: string, data: string)

  /** Fetch Bing Data: without a customer name only a warning; otherwise the search text is stored. */
  method FetchBingData(session: SessionState, apiKey: string, service: SearchService, customerName: string)
    returns (outcome: FetchOutcome)
    modifies session
    ensures customerName == "" ==> outcome == NoCustomer && session.bingData == old(session.bingData)
    ensures customerName != "" ==> outcome == Fetched(SearchQuery(customerName), SearchText(apiKey, service, SearchQuery(customerName)))
    ensures customerName != "" ==> session.bingData == Some(outcome.data)
    ensures session.videoHistory == old(session.videoHistory) && session.finalSummary == old(session.finalSummary)
  {
    if customerName == "" {
      return NoCustomer;
    }
    var query := customerName + " history, recent recognition, products and services";
    var dataFound := BingSearch(apiKey, service, query);
    session.StoreBingData(dataFound);
    outcome := Fetched(query, dataFound);
  }

  /** The query names the customer at its start, so different customers are searched differently. */
  lemma SearchQueryInjective(c1: string, c2: string)
    requires SearchQuery(c1) == SearchQuery(c2)
    ensures c1 == c2
  {
    assert SearchQuery(c1)[..|SearchQuery(c1)| - |SearchQuery("")|] == c1;
    assert SearchQuery(c2)[..|SearchQuery(c2)| - |SearchQuery("")|] == c2;
  }

  // ---------------------------------------------------------------------
  // Steps B and C: the summarizer and the manager
  // ---------------------------------------------------------------------

  /** A chat agent: from its instructions and the user message, the contents of the messages it streams back. */
  type Agent = (string, string) -> seq<string>

  const SummarizerInstructions: string :=
    "You are SummarizerAgent. Given the Bing search results provided (approximately 200 words), summarize the information into a concise summary of 100 to 150 words. "
    + "The summary must mention only the customer's name (from user input) and Microsoft, and exclude any other brands or competitors. "
    + "Focus on the customer's history, vision, products, and services."

  const ManagerOpening: string :=
    "You are ManagerAgent. Check the summary provided by SummarizerAgent to ensure:\n1) Only the customer's name '"
  const ManagerClosing: string :=
    "' and 'Microsoft' are mentioned.\n2) The summary is within 100 to 150 words.\n3) If the summary is acceptable, respond 'approved'. Otherwise, indicate what needs to be changed."

  /** The manager's instructions, naming the customer. */
  function ManagerInstructions(customerName: string): string
  {
    ManagerOpening + customerName + ManagerClosing
  }

  /** The manager's instructions name exactly the customer passed in. */
  lemma ManagerInstructionsNameCustomer(c1: string, c2: string)
    ensures ManagerInstructions(c1)[|ManagerOpening|..|ManagerOpening| + |c1|] == c1
    ensures ManagerInstructions(c1) == ManagerInstructions(c2) ==> c1 == c2
  {
    MiddleSlice(ManagerOpening, c1, ManagerClosing);
    MiddleSlice(ManagerOpening, c2, ManagerClosing);
  }

  const SummarizerTag: string := "[Summarizer] "
  const ManagerTag: string := "[Manager] "

  /** The last message of a stream, `""` when it is empty. */
  function LastOr(messages: seq<string>): string
  {
    if messages == [] then "" else messages[|messages| - 1]
  }

  /** The conversation-log lines for a stream: each message after its tag. */
  function Tagged(tag: string, messages: seq<string>): (lines: seq<string>)
    ensures |lines| == |messages|
    ensures forall i :: 0 <= i < |messages| ==> lines[i] == tag + messages[i]
  {
    if messages == [] then [] else Tagged(tag, messages[..|messages| - 1]) + [tag + messages[|messages| - 1]]
  }

  /** What the chain returns: the summary, the manager's decision and the conversation text. */
  datatype ChainResult = ChainResult(summary: string, decision: string, conversation: string)

  /** `run_summarizer_manager_chain`: the summarizer reads the search text, the manager reads the summary. */
  function Chain(summarizer: Agent, manager: Agent, customerName: string, rawText: string): ChainResult
  {
    var summaries := summarizer(SummarizerInstructions, rawText);
    var decisions := manager(ManagerInstructions(customerName), LastOr(summaries));
    ChainResult(LastOr(summaries), LastOr(decisions), Join(Tagged(SummarizerTag, summaries) + Tagged(ManagerTag, decisions), "\n"))
  }

  /** The two streaming loops of the chain and the final join of the log. */
  method RunSummarizerManagerChain(summarizer: Agent, manager: Agent, customerName: string, rawText: string)
    returns (summarizerOutput: string, managerOutput: string, fullConvo: string)
    ensures ChainResult(summarizerOutput, managerOutput, fullConvo) == Chain(summarizer, manager, customerName, rawText)
  {
    var conversationLog: seq<string> := [];
    var summaries := summarizer(SummarizerInstructions, rawText);
    summarizerOutput := "";
    for i := 0 to |summaries|
      invariant summarizerOutput == LastOr(summaries[..i])
      invariant conversationLog == Tagged(SummarizerTag, summaries[..i])
    {
      summarizerOutput := summaries[i];
      conversationLog := conversationLog + [SummarizerTag + summaries[i]];
      assert summaries[..i + 1][..i] == summaries[..i];
    }
    assert summaries[..|summaries|] == summaries;
    var decisions := manager(ManagerInstructions(customerName), summarizerOutput);
    managerOutput := "";
    for i := 0 to |decisions|
      invariant managerOutput == LastOr(decisions[..i])
      invariant conversationLog == Tagged(SummarizerTag, summaries) + Tagged(ManagerTag, decisions[..i])
    {
      managerOutput := decisions[i];
      conversationLog := conversationLog + [ManagerTag + decisions[i]];
      assert decisions[..i + 1][..i] == decisions[..i];
    }
    assert decisions[..|decisions|] == decisions;
    fullConvo := Join(conversationLog, "\n");
  }

  /**
   * The conversation text splits at newlines into one tagged line per
   * streamed message, summarizer first, as long as no message holds a newline
   * and at least one of the two agents streamed a message.
   */
  lemma ConversationLines(summarizer: Agent, manager: Agent, customerName: string, rawText: string)
    requires var summaries := summarizer(SummarizerInstructions, rawText);
             var decisions := manager(ManagerInstructions(customerName), LastOr(summaries));
             |summaries| + |decisions| >= 1
    requires var summaries := summarizer(SummarizerInstructions, rawText);
             forall i :: 0 <= i < |summaries| ==> '\n' !in summaries[i]
    requires var decisions := manager(ManagerInstructions(customerName), LastOr(summarizer(SummarizerInstructions, rawText)));
             forall i :: 0 <= i < |decisions| ==> '\n' !in decisions[i]
    ensures var summaries := summarizer(SummarizerInstructions, rawText);
            var decisions := manager(ManagerInstructions(customerName), LastOr(summaries));
            Split(Chain(summarizer, manager, customerName, rawText).conversation, '\n')
              == Tagged(SummarizerTag, summaries) + Tagged(ManagerTag, decisions)
  {
    var summaries := summarizer(SummarizerInstructions, rawText);
    var decisions := manager(ManagerInstructions(customerName), LastOr(summaries));
    var lines := Tagged(SummarizerTag, summaries) + Tagged(ManagerTag, decisions);
    forall i | 0 <= i < |lines|
      ensures '\n' !in lines[i]
    {
      if i < |summaries| {
        assert lines[i] == SummarizerTag + summaries[i];
      } else {
        assert lines[i] == ManagerTag + decisions[i - |summaries|];
      }
    }
    SplitJoin(lines, '\n');
  }

  /** The manager approves when its lower-cased reply contains "approved" anywhere. */
  predicate Approved(decision: string)
  {
    Contains(AsciiLower(decision), "approved")
  }

  /** Lower-casing distributes over concatenation. */
  lemma AsciiLowerAppend(a: string, b: string)
    ensures AsciiLower(a + b) == AsciiLower(a) + AsciiLower(b)
  {
  }

  /** Whatever surrounds it, a reply with the word in any case approves, "not approved" among them. */
  lemma ApprovedWhenWordPresent(before: string, word: string, after: string)
    requires AsciiLower(word) == "approved"
    ensures Approved(before + word + after)
  {
    AsciiLowerAppend(before + word, after);
    AsciiLowerAppend(before, word);
    MiddleSlice(AsciiLower(before), "approved", AsciiLower(after));
    ContainsIff(AsciiLower(before + word + after), "approved");
    assert OccursAt(AsciiLower(before + word + after), "approved", |before|);
  }

  /** A reply without the letter a in either case never approves. */
  lemma NoLetterANeverApproved(decision: string)
    requires forall k :: 0 <= k < |decision| ==> LowerChar(decision[k]) != 'a'
    ensures !Approved(decision)
  {
    var lower := AsciiLower(decision);
    ContainsIff(lower, "approved");
    forall i: nat
      ensures !OccursAt(lower, "approved", i)
    {
      if i + 8 <= |lower| {
        assert lower[i] != 'a';
        assert lower[i..i + 8][0] == lower[i];
      }
    }
  }

  /** Lower-casing leaves a string without upper-case ASCII letters as it is. */
  lemma AsciiLowerOfLower(s: string)
    requires forall k :: 0 <= k < |s| ==> !('A' <= s[k] <= 'Z')
    ensures AsciiLower(s) == s
  {
  }

  /** The shouted reply "APPROVED" approves. */
  lemma ShoutedApproval()
    ensures Approved("APPROVED")
  {
    var w := "APPROVED";
    assert AsciiLower(w) == "approved" by {
      var l := AsciiLower(w);
      assert l[0] == 'a' && l[1] == 'p' && l[2] == 'p' && l[3] == 'r';
      assert l[4] == 'o' && l[5] == 'v' && l[6] == 'e' && l[7] == 'd';
    }
    ApprovedWhenWordPresent("", w, "");
    assert "" + w + "" == w;
  }

  /** The reply "Not approved." approves as well: the test looks for the word only. */
  lemma NegatedApproval()
    ensures Approved("Not " + "approved" + ".")
  {
    AsciiLowerOfLower("approved");
    ApprovedWhenWordPresent("Not ", "approved", ".");
  }

  /** A request for changes without the word does not approve. */
  lemma RejectionExample()
    ensures !Approved("Rejected: too long.")
  {
    NoLetterANeverApproved("Rejected: too long.");
  }

  /** A reply in which no letter a is followed by a letter p, in either case, never approves. */
  lemma NoApNeverApproved(decision: string)
    requires forall k :: 0 <= k < |decision| - 1 && LowerChar(decision[k]) == 'a' ==> LowerChar(decision[k + 1]) != 'p'
    ensures !Approved(decision)
  {
    var lower := AsciiLower(decision);
    ContainsIff(lower, "approved");
    forall i: nat
      ensures !OccursAt(lower, "approved", i)
    {
      if i + 8 <= |lower| {
        assert lower[i..i + 8][0] == lower[i] && lower[i..i + 8][1] == lower[i + 1];
        assert lower[i] != 'a' || lower[i + 1] != 'p';
      }
    }
  }

  /** A request for changes that holds an a, but not the word, does not approve. */
  lemma RevisionExample()
    ensures !Approved("needs revision: remove brand X")
  {
    var d := "needs revision: remove brand X";
    assert forall k :: 0 <= k < |d| && k != 25 ==> d[k] != 'a' && d[k] != 'A';
    assert d[26] == 'n';
    NoApNeverApproved(d);
  }

  // ---------------------------------------------------------------------
  // Summarize & Approve
  // ---------------------------------------------------------------------

  datatype ReviewOutcome = NoBingData | Reviewed(chain: ChainResult, approved: bool)

  /** Summarize & Approve on the stored search text: nothing without text, otherwise the chain and the manager's verdict. */
  function Review(bingData: Option<string>, summarizer: Agent, manager: Agent, customerName: string): ReviewOutcome
  {
    if bingData.None? || Strip(bingData.value) == "" then NoBingData
    else
      var chain := Chain(summarizer, manager, customerName, bingData.value);
      Reviewed(chain, Approved(chain.decision))
  }

  /** Summarize & Approve: the summary is kept as the final summary exactly when the manager approves. */
  method SummarizeAndApprove(session: SessionState, summarizer: Agent, manager: Agent, customerName: string)
    returns (outcome: ReviewOutcome)
    modifies session
    ensures outcome == Review(old(session.bingData), summarizer, manager, customerName)
    ensures session.finalSummary == if outcome.Reviewed? && outcome.approved then Some(outcome.chain.summary) else old(session.finalSummary)
    ensures session.videoHistory == old(session.videoHistory) && session.bingData == old(session.bingData)
  {
    if session.bingData.None? || Strip(session.bingData.value) == "" {
      return NoBingData;
    }
    var sumOut, mgrOut, convo := RunSummarizerManagerChain(summarizer, manager, customerName, session.bingData.value);
    var approved := Contains(AsciiLower(mgrOut), "approved");
    if approved {
      session.StoreFinalSummary(sumOut);
    }
    outcome := Reviewed(ChainResult(sumOut, mgrOut, convo), approved);
  }

  /** A text starting with a non-space character does not strip to nothing. */
  lemma StripKeepsNonBlank(s: string)
    requires s != [] && !IsSpace(s[0])
    ensures Strip(s) != ""
  {
  }

  /** Text that strips to nothing, or no text at all, is never summarized. */
  lemma BlankDataNotReviewed(text: string, summarizer: Agent, manager: Agent, customerName: string)
    requires forall k :: 0 <= k < |text| ==> IsSpace(text[k])
    ensures Review(Some(text), summarizer, manager, customerName) == NoBingData
    ensures Review(None, summarizer, manager, customerName) == NoBingData
  {
  }

  /** With the shipped key the stored text is the key error, and it is that error that gets summarized. */
  lemma ShippedKeyErrorIsSummarized(service: SearchService, query: string, summarizer: Agent, manager: Agent, customerName: string)
    ensures Review(Some(SearchText(ShippedKey, service, query)), summarizer, manager, customerName)
            == var chain := Chain(summarizer, manager, customerName, KeyMissingMessage);
               Reviewed(chain, Approved(chain.decision))
  {
    ShippedKeyErrors(service, query);
    assert KeyMissingMessage[0] == ErrorMark[0] == '*';
    StripKeepsNonBlank(KeyMissingMessage);
  }

  /** The summary the manager reviews is the summarizer's last message, `""` if it sent none. */
  lemma ReviewedSummaryIsLastMessage(bingData: Option<string>, summarizer: Agent, manager: Agent, customerName: string)
    requires Review(bingData, summarizer, manager, customerName).Reviewed?
    ensures var summaries := summarizer(SummarizerInstructions, bingData.value);
            var r := Review(bingData, summarizer, manager, customerName);
            && (summaries == [] ==> r.chain.summary == "")
            && (summaries != [] ==> r.chain.summary == summaries[|summaries| - 1])
            && r.chain.decision == LastOr(manager(ManagerInstructions(customerName), r.chain.summary))
  {
  }

  // ---------------------------------------------------------------------
  // The TTS prompt
  // ---------------------------------------------------------------------

  const TtsOpening: string := "Hello "
  const TtsMiddle: string :=
    ", I'm Maria, your AI customer support agent at Microsoft.\n\n"
    + "We appreciate your interest in exploring Azure AI solutions. "
    + "Our team is eager to assist you and provide relevant info.\n\n"
  const TtsClosing: string := "\n\nLet us know how we can help with your projects or use cases!"

  /** The prompt when a username or customer name is missing. */
  const TtsGreeting: string := "Hi, I'm Maria, your AI partner from the Global Black Belt AI Team at Microsoft."

  /** `default_tts_text`: the customer greeting around the approved summary, or the generic greeting. */
  function DefaultTtsText(username: string, customerName: string, approvedSummary: string): string
  {
    if username != "" && customerName != "" then TtsOpening + customerName + TtsMiddle + approvedSummary + TtsClosing
    else TtsGreeting
  }

  /** The offset of the summary in the prompt for a customer. */
  function SummaryOffset(customerName: string): nat
  {
    |TtsOpening| + |customerName| + |TtsMiddle|
  }

  /** Where the second and fourth pieces of a five-part concatenation sit. */
  lemma FiveParts(a: string, b: string, c: string, d: string, e: string)
    ensures var t := a + b + c + d + e;
            && t[|a|..|a| + |b|] == b
            && |t| >= |a| + |b| + |c| + |d|
            && t[|a| + |b| + |c|..|a| + |b| + |c| + |d|] == d
  {
    MiddleSlice(a + b + c, d, e);
    MiddleSlice(a, b, c + d + e);
    assert a + b + (c + d + e) == a + b + c + d + e;
  }

  /** With both names given the prompt carries the approved summary at its offset and the customer after the opening. */
  lemma TtsTextCarriesSummary(username: string, customerName: string, approvedSummary: string)
    requires username != "" && customerName != ""
    ensures var t := DefaultTtsText(username, customerName, approvedSummary);
            var k := SummaryOffset(customerName);
            && |t| >= k + |approvedSummary|
            && t[k..k + |approvedSummary|] == approvedSummary
            && t[|TtsOpening|..|TtsOpening| + |customerName|] == customerName
  {
    FiveParts(TtsOpening, customerName, TtsMiddle, approvedSummary, TtsClosing);
  }

  /** For one user and customer, different summaries give different prompts. */
  lemma TtsTextDeterminesSummary(username: string, customerName: string, s1: string, s2: string)
    requires username != "" && customerName != ""
    requires DefaultTtsText(username, customerName, s1) == DefaultTtsText(username, customerName, s2)
    ensures s1 == s2
  {
    TtsTextCarriesSummary(username, customerName, s1);
    TtsTextCarriesSummary(username, customerName, s2);
    assert |s1| == |s2|;
  }

  /** Without both names the prompt ignores the summary. */
  lemma TtsTextWithoutNames(username: string, customerName: string, approvedSummary: string)
    requires username == "" || customerName == ""
    ensures DefaultTtsText(username, customerName, approvedSummary) == TtsGreeting
  {
  }

  /** The page code before the TTS text area: initialise the final summary if absent, then build the prompt. */
  method PrepareTtsPrompt(session: SessionState, username: string, customerName: string) returns (ttsText: string)
    modifies session
    ensures session.finalSummary == Some(old(session.finalSummary).GetOr(""))
    ensures ttsText == DefaultTtsText(username, customerName, old(session.finalSummary).GetOr(""))
    ensures session.videoHistory == old(session.videoHistory) && session.bingData == old(session.bingData)
  {
    session.InitFinalSummary();
    var approvedSummary := session.finalSummary.GetOr("");
    if username != "" && customerName != "" {
      ttsText := TtsOpening + customerName + TtsMiddle + approvedSummary + TtsClosing;
    } else {
      ttsText := TtsGreeting;
    }
  }

  /** An approved summary reaches the next prompt for the customer; a rejected one leaves the earlier summary there. */
  lemma ApprovalReachesPrompt(bingData: Option<string>, summarizer: Agent, manager: Agent,
                              username: string, customerName: string, earlier: Option<string>)
    requires username != "" && customerName != ""
    ensures var r := Review(bingData, summarizer, manager, customerName);
            var kept := if r.Reviewed? && r.approved then Some(r.chain.summary) else earlier;
            var t := DefaultTtsText(username, customerName, kept.GetOr(""));
            && (r.Reviewed? && r.approved ==>
                  t[SummaryOffset(customerName)..SummaryOffset(customerName) + |r.chain.summary|] == r.chain.summary)
            && (!(r.Reviewed? && r.approved) ==> t == DefaultTtsText(username, customerName, earlier.GetOr("")))
  {
    var r := Review(bingData, summarizer, manager, customerName);
    if r.Reviewed? && r.approved {
      TtsTextCarriesSummary(username, customerName, r.chain.summary);
    }
  }
}
