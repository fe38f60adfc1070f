/**
 * Status queries against the batch avatar synthesis service.  The service
 * is a parameter: `service(jobId, i)` is what the `i`-th status query for
 * `jobId` (counting from 0) brings back.
 */
module Polling {
  import opened Wrappers
  import opened Captions

  /** The fields of a job-status reply the applications read (`status`, `outputs.result`, `wordBoundary`). */
  datatype JobStatus = JobStatus(status: Option<string>, result: Option<string>, wordBoundary: Option<seq<WordBoundary>>)

  /** One status query: an exception (HTTP error, bad JSON, network) or a decoded reply. */
  datatype PollOutcome = QueryFailed(message: string) | Answered(data: JobStatus)

  /** What a status query against the service returns, per job id and query number. */
  type StatusService = (string, nat) -> PollOutcome

  /** Python truthiness of an optional string: present and non-empty. */
  predicate Truthy(s: Option<string>)
  {
    s.Some? && s.value != ""
  }

  /** A reply that ends the waiting: status `Succeeded` and a non-empty result URL. */
  predicate Succeeded(o: PollOutcome)
  {
    o.Answered? && o.data.status == Some("Succeeded") && Truthy(o.data.result)
  }

  /** The first of the queries `0 .. n - 1` for `jobId` that succeeds, if any. */
  function FirstSuccess(service: StatusService, jobId: string, n: nat): (r: Option<nat>)
    ensures r.Some? ==> r.value < n && Succeeded(service(jobId, r.value))
    ensures r.Some? ==> forall j :: 0 <= j < r.value ==> !Succeeded(service(jobId, j))
    ensures r.None? <==> forall j :: 0 <= j < n ==> !Succeeded(service(jobId, j))
  {
    if n == 0 then None
    else
      var earlier := FirstSuccess(service, jobId, n - 1);
      if earlier.Some? then earlier
      else if Succeeded(service(jobId, n - 1)) then Some(n - 1)
      else None
  }

  /** Watching longer does not move a success already seen. */
  lemma {:induction false} FirstSuccessStable(service: StatusService, jobId: string, n: nat, m: nat)
    requires n <= m
    requires FirstSuccess(service, jobId, n).Some?
    ensures FirstSuccess(service, jobId, m) == FirstSuccess(service, jobId, n)
    decreases m - n
  {
    if n < m {
      FirstSuccessStable(service, jobId, n, m - 1);
    }
  }

  /** A success right after a run of failures is the first success of any longer watch. */
  lemma FirstSuccessAt(service: StatusService, jobId: string, i: nat, n: nat)
    requires i < n
    requires FirstSuccess(service, jobId, i).None? && Succeeded(service(jobId, i))
    ensures FirstSuccess(service, jobId, n) == Some(i)
  {
    assert FirstSuccess(service, jobId, i + 1) == Some(i);
    FirstSuccessStable(service, jobId, i + 1, n);
  }

  /** The first success is determined by which queries succeed and nothing else. */
  lemma {:induction false} SameSuccessesSameFirst(s1: StatusService, s2: StatusService, jobId: string, n: nat)
    requires forall j :: 0 <= j < n ==> (Succeeded(s1(jobId, j)) <==> Succeeded(s2(jobId, j)))
    ensures FirstSuccess(s1, jobId, n) == FirstSuccess(s2, jobId, n)
  {
    if n > 0 {
      SameSuccessesSameFirst(s1, s2, jobId, n - 1);
    }
  }

  /**
   * `get_synthesis` of the general application:
   * `(outputs.result, data)` when `status` is `Succeeded`, otherwise, and on
   * any exception (including a missing key), `(None, None)`.
   */
  function GetSynthesisGeneral(o: PollOutcome): (r: (Option<string>, Option<JobStatus>))
    ensures r.1.Some? <==> o.Answered? && o.data.status == Some("Succeeded") && o.data.result.Some?
    ensures r.1.Some? ==> r == (o.data.result, Some(o.data))
    ensures r.1.None? ==> r == (None, None)
  {
    match o
    case QueryFailed(_) => (None, None)
    case Answered(data) =>
      if data.status.None? then (None, None)
      else if data.status.value == "Succeeded" then
        if data.result.None? then (None, None) else (data.result, Some(data))
      else (None, None)
  }

  /** The general application leaves its polling loop exactly on a `Succeeded` reply with a non-empty result. */
  lemma GeneralTestIsSucceeded(o: PollOutcome)
    ensures var r := GetSynthesisGeneral(o); (Truthy(r.0) && r.1.Some?) <==> Succeeded(o)
  {
  }

  /**
   * `get_synthesis` of the multi-agent application:
   * `(data.get('outputs', {}).get('result'), data)` for any reply, and
   * `(None, None)` on an exception.
   */
  function GetSynthesisMultiAgent(o: PollOutcome): (r: (Option<string>, Option<JobStatus>))
    ensures o.QueryFailed? ==> r == (None, None)
    ensures o.Answered? ==> r == (o.data.result, Some(o.data))
  {
    match o
    case QueryFailed(_) => (None, None)
    case Answered(data) => (data.result, Some(data))
  }

  /** The multi-agent test (`url_dl and data` and status `Succeeded`) is the same success condition. */
  lemma MultiAgentTestIsSucceeded(o: PollOutcome)
    ensures var r := GetSynthesisMultiAgent(o);
            (Truthy(r.0) && r.1.Some? && r.1.value.status == Some("Succeeded")) <==> Succeeded(o)
  {
  }
}
