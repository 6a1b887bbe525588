/** The asynchronous query protocol: what a query submission returns, the service
    seen as an oracle that answers status checks and hands out one result payload,
    and the specification of the polling that `query` performs. Sleeping is counted
    in loop iterations, not seconds. */
module AsyncQuery {
  import opened Wrappers
  import opened Json

  /** The record `_request_query` returns: `{'query_id', 'complete', 'results'}`. */
  datatype QueryResponse = QueryResponse(queryId: Option<string>, complete: bool, results: Json)

  /** The exceptions the protocol can raise. */
  datatype QueryError =
    | HttpError(status: int)                            // raise_for_status on a 4xx/5xx reply
    | MalformedReply                                    // a 202 body without a string `query_id`
    | NotSubscriptable                                  // `query` indexing the None that other statuses yield
    | ResultError(payload: Json)                        // ValueError: the result is an `error` mapping
    | ZeroStep                                          // ValueError: `range` with a zero step
    | NegativeSleep                                     // ValueError: `time.sleep` of a negative interval
    | Timeout(queryId: Option<string>, timeout: int)    // TimeoutError naming the query

  /** The values `range(start, stop, step)` runs through. */
  function RangeSeq(start: int, stop: int, step: int): seq<int>
    requires step != 0
    decreases if step > 0 then stop - start else start - stop
  {
    if (step > 0 && start < stop) || (step < 0 && start > stop) then
      [start] + RangeSeq(start + step, stop, step)
    else []
  }

  /** `len(range(start, stop, step))` for a positive step, in closed form. */
  function RangeLength(start: int, stop: int, step: int): nat
    requires step > 0
  {
    if start < stop then (stop - start + step - 1) / step else 0
  }

  /** Dividing one more step by the step gives one more. */
  lemma DivAddStep(d: int, step: int)
    requires step > 0
    ensures (d + step) / step == d / step + 1
  {
    var q, r := d / step, d % step;
    var q', r' := (d + step) / step, (d + step) % step;
    assert d == step * q + r && 0 <= r < step;
    assert d + step == step * q' + r' && 0 <= r' < step;
    var x := q' - q - 1;
    assert step * x == r - r';
    if x >= 1 { MulAtLeast(step, x); }
    if x <= -1 { MulAtLeast(step, -x); }
  }

  lemma MulAtLeast(a: int, x: int)
    requires a > 0 && x >= 1
    ensures a * x >= a
  {
  }

  lemma {:induction false} RangeSeqLength(start: int, stop: int, step: int)
    requires step > 0
    ensures |RangeSeq(start, stop, step)| == RangeLength(start, stop, step)
    decreases stop - start
  {
    if start < stop {
      RangeSeqLength(start + step, stop, step);
      var d := stop - (start + step) + step - 1;
      DivAddStep(d, step);
      if start + step >= stop {
        assert 0 <= d < step;
        assert d / step == 0;
      }
    }
  }

  /** With the defaults of `query` (interval 5, timeout 300) there are at most 59 status checks. */
  lemma DefaultPollBudget()
    ensures |RangeSeq(5, 300, 5)| == 59
  {
    RangeSeqLength(5, 300, 5);
  }

  /** The answer the oracle gives to the `i`-th status check (answers past the end are "not done"). */
  function StatusAt(answers: seq<bool>, i: nat): bool
  {
    i < |answers| && answers[i]
  }

  /** The first of the first `n` status checks that reports completion. */
  function FirstDone(answers: seq<bool>, n: nat): (k: Option<nat>)
    ensures k.Some? ==> k.value < n && StatusAt(answers, k.value)
    ensures k.Some? ==> forall j :: 0 <= j < k.value ==> !StatusAt(answers, j)
    ensures k.None? ==> forall j :: 0 <= j < n ==> !StatusAt(answers, j)
  {
    if n == 0 then None
    else
      var k := FirstDone(answers, n - 1);
      if k.Some? then k
      else if StatusAt(answers, n - 1) then Some(n - 1)
      else None
  }

  /** Drop the first `i` answers of the status oracle. */
  function Drop(s: seq<bool>, i: nat): seq<bool>
  {
    if i <= |s| then s[i..] else []
  }

  /** What a call of `query` produces and how many service calls it makes. */
  datatype Outcome = Outcome(result: Result<Json, QueryError>, statusChecks: nat, downloads: nat)

  /** How `query` hands back a payload, both for an immediate result and after the download:
      an error mapping is raised, anything else returned. */
  function Deliver(payload: Json): (r: Result<Json, QueryError>)
    ensures r.Success? <==> !IsErrorPayload(payload)
    ensures r.Success? ==> r.value == payload
    ensures r.Failure? ==> r.error == ResultError(payload)
  {
    if IsErrorPayload(payload) then Failure(ResultError(payload)) else Success(payload)
  }

  /** Specification of `query` after submission: `response` is what `_request_query`
      returned (None for a status other than 200/202), `answers` the oracle's replies to
      the status checks and `payload` what downloading the result gives. */
  function QuerySpec(response: Option<QueryResponse>, wait: bool, pollInterval: int, timeout: int,
                     answers: seq<bool>, payload: Json): Outcome
  {
    if response.None? then Outcome(Failure(NotSubscriptable), 0, 0)
    else if !wait || response.value.complete then Outcome(Deliver(response.value.results), 0, 0)
    else if pollInterval == 0 then Outcome(Failure(ZeroStep), 0, 0)
    else
      var ticks := RangeSeq(pollInterval, timeout, pollInterval);
      if pollInterval < 0 && |ticks| > 0 then Outcome(Failure(NegativeSleep), 0, 0)
      else
        match FirstDone(answers, |ticks|)
        case Some(k) => Outcome(Deliver(payload), k + 1, 1)
        case None => Outcome(Failure(Timeout(response.value.queryId, timeout)), |ticks|, 0)
  }

  /** An error mapping is never returned as a result, on either path. */
  lemma ErrorPayloadNeverReturned(response: Option<QueryResponse>, wait: bool, pollInterval: int, timeout: int,
                                  answers: seq<bool>, payload: Json)
    ensures var o := QuerySpec(response, wait, pollInterval, timeout, answers, payload);
      o.result.Success? ==>
        !IsErrorPayload(o.result.value) &&
        (o.result.value == payload || (response.Some? && o.result.value == response.value.results))
  {
  }

  /** Polling makes at most `len(range(interval, timeout, interval))` status checks and at
      most one download; it downloads exactly when a check within that budget reports done,
      and then after exactly the checks up to and including that one. */
  lemma PollingBudget(q: QueryResponse, pollInterval: int, timeout: int, answers: seq<bool>, payload: Json)
    requires !q.complete && pollInterval > 0
    ensures var o := QuerySpec(Some(q), true, pollInterval, timeout, answers, payload);
      var n := RangeLength(pollInterval, timeout, pollInterval);
      o.statusChecks <= n && o.downloads <= 1 &&
      (o.downloads == 1 <==> exists j :: 0 <= j < n && StatusAt(answers, j)) &&
      (o.downloads == 1 ==> StatusAt(answers, o.statusChecks - 1) &&
                            forall j :: 0 <= j < o.statusChecks - 1 ==> !StatusAt(answers, j))
  {
    RangeSeqLength(pollInterval, timeout, pollInterval);
  }

  /** Without a completed check within the budget, `TimeoutError` names the query and
      nothing is downloaded. */
  lemma TimeoutNamesQuery(q: QueryResponse, pollInterval: int, timeout: int, answers: seq<bool>, payload: Json)
    requires !q.complete && pollInterval > 0
    requires forall j :: 0 <= j < RangeLength(pollInterval, timeout, pollInterval) ==> !StatusAt(answers, j)
    ensures var o := QuerySpec(Some(q), true, pollInterval, timeout, answers, payload);
      o.result == Failure(Timeout(q.queryId, timeout)) && o.downloads == 0 &&
      o.statusChecks == RangeLength(pollInterval, timeout, pollInterval)
  {
    RangeSeqLength(pollInterval, timeout, pollInterval);
  }

  /** Answers [False, False, True] with interval 5: a timeout of 16 allows three checks and
      one download; a timeout of 15 allows only two checks and times out. */
  lemma PollingExample(q: QueryResponse, payload: Json)
    requires !q.complete && !IsErrorPayload(payload)
    ensures QuerySpec(Some(q), true, 5, 16, [false, false, true], payload) == Outcome(Success(payload), 3, 1)
    ensures QuerySpec(Some(q), true, 5, 15, [false, false, true], payload) == Outcome(Failure(Timeout(q.queryId, 15)), 2, 0)
  {
    RangeSeqLength(5, 16, 5);
    RangeSeqLength(5, 15, 5);
  }

  /** The service as seen by the poller: the answers it will give to status checks, the
      result payload, and how often each endpoint has been called. */
  class AsyncServer {
    var pending: seq<bool>
    const payload: Json
    var statusChecks: nat
    var downloads: nat

    constructor (answers: seq<bool>, payload: Json)
      ensures pending == answers && this.payload == payload
      ensures statusChecks == 0 && downloads == 0
    {
      pending := answers;
      this.payload := payload;
      statusChecks := 0;
      downloads := 0;
    }

    /** `status_query`: GET async/query/{id}, returning `is_done`. */
    method StatusQuery(queryId: Option<string>) returns (done: bool)
      modifies this
      ensures done == StatusAt(old(pending), 0)
      ensures pending == if old(pending) == [] then [] else old(pending)[1..]
      ensures statusChecks == old(statusChecks) + 1 && downloads == old(downloads)
    {
      done := pending != [] && pending[0];
      if pending != [] { pending := pending[1..]; }
      statusChecks := statusChecks + 1;
    }

    /** `download_query_result`: GET async/query_result/{id}. */
    method DownloadQueryResult(queryId: Option<string>) returns (result: Json)
      modifies this
      ensures result == payload
      ensures pending == old(pending) && statusChecks == old(statusChecks)
      ensures downloads == old(downloads) + 1
    {
      result := payload;
      downloads := downloads + 1;
    }
  }
}
