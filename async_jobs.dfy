/** Waiting for an asynchronous ONTAP job. `WaitForAsyncResponse` dispatches on
    the status of the submission's result; an "in_progress" job is polled by
    `checkForJobCompletion`, which runs one job-status query per attempt until
    the job succeeds, fails permanently, or the retry budget is spent.

    The exponential backoff (1 s initial interval, multiplier 2, 10 percent
    jitter, capped by the caller's maximum wait) is modelled by its effect
    only: the number of retries it allows, `retries`. The answers of the
    successive status queries are an input sequence. */
module AsyncJobs {
  import opened Wrappers
  import opened Strs
  import opened ZapiErrors

  /** What `NewZapiAsyncResult` extracts from a submission's response. */
  datatype AsyncResult = AsyncResult(jobId: int, status: string, errorCode: int)

  /** The answer to one job-get-iter status query: transport error, result
      status, and the job states of the attribute list (None where the
      source's `AttributesListPtr` is nil). */
  datatype JobQuery = JobQuery(callErr: Option<Error>, result: ZapiError, jobStates: Option<seq<string>>)

  /** The source reads the first job of a present list without a length check,
      so a passed answer with a present list must hold at least one job. */
  predicate WellFormedQuery(q: JobQuery)
  {
    q.callErr.None? && q.result.IsPassed() && q.jobStates.Some? ==> |q.jobStates.value| > 0
  }

  predicate AllWellFormed(queries: seq<JobQuery>)
  {
    forall i :: 0 <= i < |queries| ==> WellFormedQuery(queries[i])
  }

  predicate IsTerminalFailureState(state: string)
  {
    state == "failure" || state == "error" || state == "quit" || state == "dead"
  }

  /** How one status query ends the attempt: done, a permanent (non-retried)
      failure, or an error the backoff retries. */
  datatype Verdict = Completed | PermanentFailure | Retryable

  /** `checkJobFinished`: failed queries and unfinished jobs are retried; a
      terminal-failure state stops the backoff; "success" completes. */
  function Classify(q: JobQuery): (v: Verdict)
    requires WellFormedQuery(q)
    ensures v == Completed <==>
              q.callErr.None? && q.result.IsPassed() && q.jobStates.Some? && q.jobStates.value[0] == "success"
    ensures v == PermanentFailure <==>
              q.callErr.None? && q.result.IsPassed() && q.jobStates.Some?
              && IsTerminalFailureState(q.jobStates.value[0])
  {
    if q.callErr.Some? then Retryable
    else if !q.result.IsPassed() then Retryable
    else if q.jobStates.None? then Retryable
    else
      var jobState := q.jobStates.value[0];
      if IsTerminalFailureState(jobState) then PermanentFailure
      else if jobState != "success" then Retryable
      else Completed
  }

  /** The single error `checkForJobCompletion` reports for every failure. */
  function JobFailedText(jobId: int): string
  {
    "job Id " + IntToString(jobId) + " failed to complete successfully"
  }

  /** The outcome of polling: whether the job completed, and how many status
      queries were issued. */
  datatype PollOutcome = PollOutcome(success: bool, queried: nat)

  /** Reference definition of the retry loop: query, and retry a retryable
      answer while the budget lasts. */
  function Poll(queries: seq<JobQuery>, retries: nat): PollOutcome
    requires |queries| > retries && AllWellFormed(queries)
    decreases retries
  {
    match Classify(queries[0])
    case Completed => PollOutcome(true, 1)
    case PermanentFailure => PollOutcome(false, 1)
    case Retryable =>
      if retries == 0 then PollOutcome(false, 1)
      else
        var rest := Poll(queries[1..], retries - 1);
        PollOutcome(rest.success, rest.queried + 1)
  }

  /** What the loop promises, stated directly: at least one and at most
      retries + 1 queries; every query but the last was retryable; success
      exactly when the last completed; a retryable last query only when the
      budget is spent. */
  predicate PollsAs(queries: seq<JobQuery>, retries: nat, success: bool, queried: nat)
    requires |queries| > retries && AllWellFormed(queries)
  {
    && 1 <= queried <= retries + 1
    && (forall i :: 0 <= i < queried - 1 ==> Classify(queries[i]) == Retryable)
    && (success <==> Classify(queries[queried - 1]) == Completed)
    && (Classify(queries[queried - 1]) == Retryable ==> queried == retries + 1)
  }

  /** The reference definition satisfies the direct statement, and nothing
      else does. */
  lemma {:induction false} PollCharacterized(queries: seq<JobQuery>, retries: nat, success: bool, queried: nat)
    requires |queries| > retries && AllWellFormed(queries)
    ensures PollsAs(queries, retries, Poll(queries, retries).success, Poll(queries, retries).queried)
    ensures PollsAs(queries, retries, success, queried) ==> Poll(queries, retries) == PollOutcome(success, queried)
    decreases retries
  {
    if Classify(queries[0]) == Retryable && retries > 0 {
      var tail := queries[1..];
      assert AllWellFormed(tail) by {
        forall i | 0 <= i < |tail| ensures WellFormedQuery(tail[i]) {
          assert tail[i] == queries[i + 1];
        }
      }
      if PollsAs(queries, retries, success, queried) {
        assert queried > 1;
        forall i | 0 <= i < queried - 2 ensures Classify(tail[i]) == Retryable {
          assert tail[i] == queries[i + 1];
        }
        assert tail[queried - 2] == queries[queried - 1];
        PollCharacterized(tail, retries - 1, success, queried - 1);
      } else {
        PollCharacterized(tail, retries - 1, success, queried);
      }
      var rest := Poll(tail, retries - 1);
      forall i | 0 <= i < rest.queried ensures Classify(queries[i]) == Retryable {
        if i > 0 {
          assert queries[i] == tail[i - 1];
        }
      }
      assert queries[rest.queried] == tail[rest.queried - 1];
    }
  }

  /** A terminal-failure state ends the wait at once: no further query, and
      no success. */
  lemma {:induction false} FirstTerminalFailureStops(queries: seq<JobQuery>, retries: nat, k: nat)
    requires |queries| > retries && AllWellFormed(queries)
    requires k <= retries && Classify(queries[k]) == PermanentFailure
    requires forall i :: 0 <= i < k ==> Classify(queries[i]) == Retryable
    ensures Poll(queries, retries) == PollOutcome(false, k + 1)
  {
    PollCharacterized(queries, retries, false, k + 1);
  }

  /** The wait never reports success once it has seen a terminal-failure state. */
  lemma NoSuccessAfterTerminalFailure(queries: seq<JobQuery>, retries: nat, k: nat)
    requires |queries| > retries && AllWellFormed(queries)
    requires k <= retries && k < Poll(queries, retries).queried && Classify(queries[k]) == PermanentFailure
    ensures !Poll(queries, retries).success
  {
    var o := Poll(queries, retries);
    PollCharacterized(queries, retries, o.success, o.queried);
  }

  /** Success exactly when some answer within the budget completes and every
      answer before it was retryable. */
  lemma SuccessIffCompletedWithinBudget(queries: seq<JobQuery>, retries: nat)
    requires |queries| > retries && AllWellFormed(queries)
    ensures Poll(queries, retries).success <==>
              exists k :: 0 <= k <= retries && Classify(queries[k]) == Completed
                          && forall i :: 0 <= i < k ==> Classify(queries[i]) == Retryable
  {
    var o := Poll(queries, retries);
    PollCharacterized(queries, retries, o.success, o.queried);
    if !o.success {
      forall k | 0 <= k <= retries && Classify(queries[k]) == Completed
        ensures exists i :: 0 <= i < k && Classify(queries[i]) != Retryable
      {
        assert k >= o.queried - 1;
        if k == o.queried - 1 {
          assert false;
        }
        assert Classify(queries[o.queried - 1]) != Retryable;
      }
    } else {
      assert Classify(queries[o.queried - 1]) == Completed;
    }
  }

  /** A job whose first status answer is "success" costs exactly one query. */
  lemma FirstAnswerSuccess(queries: seq<JobQuery>, retries: nat)
    requires |queries| > retries && AllWellFormed(queries)
    requires Classify(queries[0]) == Completed
    ensures Poll(queries, retries) == PollOutcome(true, 1)
  {
  }

  /** `checkForJobCompletion`: the retry loop around `checkJobFinished`. */
  method CheckForJobCompletion(jobId: int, queries: seq<JobQuery>, retries: nat) returns (err: Option<Error>, queried: nat)
    requires |queries| > retries && AllWellFormed(queries)
    ensures 1 <= queried <= retries + 1
    ensures forall i :: 0 <= i < queried - 1 ==> Classify(queries[i]) == Retryable
    ensures err.None? <==> Classify(queries[queried - 1]) == Completed
    ensures Classify(queries[queried - 1]) == Retryable ==> queried == retries + 1
    ensures err.Some? ==> err == Some(Message(JobFailedText(jobId)))
    ensures Poll(queries, retries) == PollOutcome(err.None?, queried)
  {
    var attempt := 0;
    while true
      invariant 0 <= attempt <= retries
      invariant forall i :: 0 <= i < attempt ==> Classify(queries[i]) == Retryable
      decreases retries - attempt
    {
      var verdict := Classify(queries[attempt]);
      if verdict == Completed {
        err, queried := None, attempt + 1;
        break;
      }
      if verdict == PermanentFailure || attempt == retries {
        err, queried := Some(Message(JobFailedText(jobId))), attempt + 1;
        break;
      }
      attempt := attempt + 1;
    }
    PollCharacterized(queries, retries, err.None?, queried);
  }

  const InProgressStatus := "in_progress"
  const FailedStatus := "failed"

  function AsyncFailedText(errorCode: int): string
  {
    "result status is failed with errorCode " + IntToString(errorCode)
  }

  /** `WaitForAsyncResponse`: only an "in_progress" submission is polled; a
      "failed" one is reported with its error code; any other status is
      success without a single status query. */
  method WaitForAsyncResponse(asyncResult: Result<AsyncResult, Error>, queries: seq<JobQuery>, retries: nat)
    returns (err: Option<Error>, queried: nat)
    requires |queries| > retries && AllWellFormed(queries)
    ensures queried > 0 <==> asyncResult.Success? && asyncResult.value.status == InProgressStatus
    ensures asyncResult.Failure? ==> err == Some(asyncResult.error)
    ensures asyncResult.Success? && asyncResult.value.status == InProgressStatus ==>
              Poll(queries, retries) == PollOutcome(err.None?, queried)
              && (err.Some? ==> err == Some(Message(JobFailedText(asyncResult.value.jobId))))
    ensures asyncResult.Success? && asyncResult.value.status == FailedStatus ==>
              err == Some(Message(AsyncFailedText(asyncResult.value.errorCode)))
    ensures (asyncResult.Success? && asyncResult.value.status != InProgressStatus
             && asyncResult.value.status != FailedStatus) ==> err.None?
  {
    if asyncResult.Failure? {
      return Some(asyncResult.error), 0;
    }
    var result := asyncResult.value;
    if result.status == InProgressStatus {
      err, queried := CheckForJobCompletion(result.jobId, queries, retries);
    } else if result.status == FailedStatus {
      err, queried := Some(Message(AsyncFailedText(result.errorCode))), 0;
    } else {
      err, queried := None, 0;
    }
  }

  function WaitFailureText(detail: string): string
  {
    "error waiting for response: " + detail
  }

  /** The response of volume-size-async, as FlexGroupExists uses it. */
  datatype AsyncSizeResponse = AsyncSizeResponse(callErr: Option<Error>, result: ZapiError, async: Result<AsyncResult, Error>)

  /** `FlexGroupExists`: a failed status with a not-found code means "does not
      exist"; any other failure is reported; a passed submission is waited for
      and the FlexGroup exists once the wait succeeds. */
  method FlexGroupExists(resp: AsyncSizeResponse, queries: seq<JobQuery>, retries: nat)
    returns (r: Result<bool, Error>, queried: nat)
    requires |queries| > retries && AllWellFormed(queries)
    ensures !resp.result.IsPassed() ==> queried == 0
    ensures (!resp.result.IsPassed() && (resp.result.code == EOBJECTNOTFOUND || resp.result.code == EVOLUMEDOESNOTEXIST))
              ==> r == Success(false)
    ensures (!resp.result.IsPassed() && resp.result.code != EOBJECTNOTFOUND && resp.result.code != EVOLUMEDOESNOTEXIST)
              ==> r == Failure(ZapiFailure(resp.result))
    ensures resp.result.IsPassed() && resp.callErr.Some? ==> r == Failure(resp.callErr.value) && queried == 0
    ensures r == Success(true) ==> resp.result.IsPassed() && resp.callErr.None?
    ensures r.Success? ==> r.value == resp.result.IsPassed()
    ensures resp.result.IsPassed() && resp.callErr.None? && resp.async.Failure? ==>
              r == Failure(Message(WaitFailureText(ErrorText(resp.async.error)))) && queried == 0
    ensures (resp.result.IsPassed() && resp.callErr.None? && resp.async.Success?
             && resp.async.value.status == FailedStatus) ==>
              r == Failure(Message(WaitFailureText(AsyncFailedText(resp.async.value.errorCode)))) && queried == 0
    ensures (resp.result.IsPassed() && resp.callErr.None? && resp.async.Success?
             && resp.async.value.status != InProgressStatus && resp.async.value.status != FailedStatus) ==>
              r == Success(true) && queried == 0
    ensures (resp.result.IsPassed() && resp.callErr.None? && resp.async.Success?
             && resp.async.value.status == InProgressStatus) ==>
              Poll(queries, retries) == PollOutcome(r == Success(true), queried)
              && (r != Success(true) ==> r == Failure(Message(WaitFailureText(JobFailedText(resp.async.value.jobId)))))
  {
    var zerr := NewZapiError(Some(resp.result));
    if !zerr.IsPassed() {
      if zerr.code == EOBJECTNOTFOUND || zerr.code == EVOLUMEDOESNOTEXIST {
        return Success(false), 0;
      }
      return Failure(ZapiFailure(zerr)), 0;
    }
    var gerr := GetError(Some(resp.result), resp.callErr);
    if gerr.Some? {
      return Failure(gerr.value), 0;
    }
    var werr;
    werr, queried := WaitForAsyncResponse(resp.async, queries, retries);
    if werr.Some? {
      return Failure(Message(WaitFailureText(ErrorText(werr.value)))), queried;
    }
    r := Success(true);
  }
}
