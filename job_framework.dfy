/** The job life cycle shared by the worker's job kinds: the status classification, the
    staleness rule, the base `start_job` and the status/retry logic of `submit_job`.
    The horde's answer to each POST is an input: the worker sees a status code, or a
    connection error or read timeout instead of a response, or any other exception of the
    POST, which the loop does not catch. */
module JobFramework {
  import opened Py

  /** The statuses a job goes through. */
  datatype JobStatus = Init | Working | Polling | Finalizing | FinalizingFaulted | Done | Faulted | DoneFaulted

  /** `is_finished`: the job is past its working phases. */
  predicate IsFinished(s: JobStatus) {
    s !in {Working, Polling, Init}
  }

  /** `is_polling` */
  predicate IsPolling(s: JobStatus) {
    s == Polling
  }

  /** `is_finalizing`: the generation is over, the upload may still be due. */
  predicate IsFinalizing(s: JobStatus) {
    s in {Finalizing, FinalizingFaulted}
  }

  /** `is_faulted` */
  predicate IsFaulted(s: JobStatus) {
    s in {Faulted, FinalizingFaulted, DoneFaulted}
  }

  /** Seconds after its start at which any job counts as stale. */
  const HardLimit: real := 1200.0

  /** `is_stale` at clock reading `now`: past the hard limit since the start; otherwise,
      with a truthy stale time and a job that has left `Init`, past the stale time. */
  predicate IsStale(status: JobStatus, startTime: real, staleTime: Option<real>, now: real) {
    if now - startTime > HardLimit then true
    else if staleTime.None? || staleTime.value == 0.0 then false
    else if status == Init then false
    else now > staleTime.value
  }

  // ---------------------------------------------------------------- the classification

  /** The finished statuses are exactly the other five. */
  lemma FinishedStatuses(s: JobStatus)
    ensures IsFinished(s) <==> s in {Finalizing, FinalizingFaulted, Done, Faulted, DoneFaulted}
  {
  }

  /** A faulted or finalizing job is finished, a polling one is not. */
  lemma ClassesNested(s: JobStatus)
    ensures IsFaulted(s) ==> IsFinished(s)
    ensures IsFinalizing(s) ==> IsFinished(s)
    ensures IsPolling(s) ==> !IsFinished(s)
  {
  }

  // ---------------------------------------------------------------- staleness

  /** The staleness rule unfolded: the hard limit, or a set deadline that has passed on a
      job that has started. */
  lemma StaleIff(status: JobStatus, startTime: real, staleTime: Option<real>, now: real)
    ensures IsStale(status, startTime, staleTime, now)
        <==> now - startTime > HardLimit
             || (staleTime.Some? && staleTime.value != 0.0 && status != Init && now > staleTime.value)
  {
  }

  /** A job still in `Init`, or one without a stale time, is stale only by the hard limit. */
  lemma OnlyHardLimit(status: JobStatus, startTime: real, staleTime: Option<real>, now: real)
    requires status == Init || staleTime.None?
    ensures IsStale(status, startTime, staleTime, now) <==> now - startTime > HardLimit
  {
  }

  /** Once stale, a job stays stale as the clock advances. */
  lemma StaleMonotone(status: JobStatus, startTime: real, staleTime: Option<real>, now: real, later: real)
    requires now <= later && IsStale(status, startTime, staleTime, now)
    ensures IsStale(status, startTime, staleTime, later)
  {
  }

  // ---------------------------------------------------------------- submission

  /** What a POST to the horde came back with; `Uncaught` is any exception other than a
      connection error or a read timeout (too many redirects, a bad URL, ...). */
  datatype Reply = Response(code: int) | ConnectionError | ReadTimeout | Uncaught

  /** A reply after which the POST is tried again: a caught exception, or one of the codes
      502, 503, 408 and 500. */
  predicate Retryable(r: Reply) {
    r.ConnectionError? || r.ReadTimeout? || (r.Response? && r.code in {502, 503, 408, 500})
  }

  /** `Response.ok`: the code is neither a client error nor a server error. */
  predicate ResponseOk(code: int) {
    !(400 <= code < 600)
  }

  /** A reply that ends the loop with the job accepted: ok, and not the "already submitted"
      404. */
  predicate Accepted(r: Reply) {
    r.Response? && !Retryable(r) && r.code != 404 && ResponseOk(r.code)
  }

  /** The status after giving up on the upload. */
  function GaveUp(s: JobStatus): JobStatus {
    if IsFinalizing(s) then DoneFaulted else Faulted
  }

  /** The status after a decisive reply, accepted or not. */
  function Settled(s: JobStatus): JobStatus {
    if IsFinalizing(s) then Done else s
  }

  /** The payload sent for a faulted job. */
  const FaultedPayload: Dict := map["success" := Bool(false), "state" := Str("faulted")]

  /** How the POST loop ends: the final status and retry counter, how many POSTs were
      made, whether the horde accepted the job, and whether an uncaught exception left
      `submit_job`. */
  datatype Outcome = Outcome(status: JobStatus, retry: int, posts: nat, accepted: bool, raised: bool)

  /** The POST loop of `submit_job` from reply number `n` on, with status `s` and retry
      counter `retry`. */
  function Posting(s: JobStatus, retry: int, replies: nat -> Reply, n: nat): Outcome
    decreases if retry <= 3 then 4 - retry else 0
  {
    if replies(n).Uncaught? then Outcome(s, retry, n + 1, false, true)
    else if Retryable(replies(n)) then
      if retry + 1 > 3 then Outcome(GaveUp(s), retry + 1, n + 1, false, false)
      else Posting(s, retry + 1, replies, n + 1)
    else Outcome(Settled(s), 0, n + 1, Accepted(replies(n)), false)
  }

  /** Replies `n` to `n + count - 1` all lead to another try. */
  predicate AllRetryable(replies: nat -> Reply, n: nat, count: nat) {
    forall j: nat :: n <= j < n + count ==> Retryable(replies(j))
  }

  /** At least one POST and at most `4 - retry` of them are made (one when the counter is
      already past 3). */
  lemma {:induction false} PostsBounded(s: JobStatus, retry: int, replies: nat -> Reply, n: nat)
    requires 0 <= retry
    ensures n < Posting(s, retry, replies, n).posts <= n + (if retry <= 3 then 4 - retry else 1)
    decreases if retry <= 3 then 4 - retry else 0
  {
    if Retryable(replies(n)) && retry + 1 <= 3 {
      PostsBounded(s, retry + 1, replies, n + 1);
    }
  }

  /** With `retry` tries used, the job is given up exactly when the remaining `4 - retry`
      replies are all retryable; it then ends with counter 4 after exactly those POSTs. */
  lemma {:induction false} GiveUpIff(s: JobStatus, retry: int, replies: nat -> Reply, n: nat)
    requires 0 <= retry <= 3
    ensures Posting(s, retry, replies, n).retry > 3 <==> AllRetryable(replies, n, 4 - retry)
    ensures AllRetryable(replies, n, 4 - retry)
        ==> Posting(s, retry, replies, n) == Outcome(GaveUp(s), 4, n + 4 - retry, false, false)
    decreases 4 - retry
  {
    if Retryable(replies(n)) && retry < 3 {
      GiveUpIff(s, retry + 1, replies, n + 1);
    }
  }

  /** The first reply that is not retryable, within the tries left, decides.  A response
      resets the counter and settles the status, and the job is accepted exactly when that
      response is ok and not 404.  An uncaught exception leaves the status and the counter
      as they stand after the `k` retries. */
  lemma {:induction false} FirstDecisive(s: JobStatus, retry: int, replies: nat -> Reply, n: nat, k: nat)
    requires 0 <= retry && k < (if retry <= 3 then 4 - retry else 1)
    requires AllRetryable(replies, n, k) && !Retryable(replies(n + k))
    ensures replies(n + k).Uncaught? ==>
      Posting(s, retry, replies, n) == Outcome(s, retry + k, n + k + 1, false, true)
    ensures replies(n + k).Response? ==>
      Posting(s, retry, replies, n) == Outcome(Settled(s), 0, n + k + 1, Accepted(replies(n + k)), false)
    decreases k
  {
    if k > 0 {
      assert Retryable(replies(n));
      FirstDecisive(s, retry + 1, replies, n + 1, k - 1);
    }
  }

  /** A finalizing job leaves the upload done, cleanly or faulted, unless an uncaught
      exception ends `submit_job`, which leaves it finalizing. */
  lemma {:induction false} FinalizingResolved(s: JobStatus, retry: int, replies: nat -> Reply, n: nat)
    requires IsFinalizing(s)
    ensures !Posting(s, retry, replies, n).raised ==> Posting(s, retry, replies, n).status in {Done, DoneFaulted}
    ensures Posting(s, retry, replies, n).raised ==> Posting(s, retry, replies, n).status == s
    decreases if retry <= 3 then 4 - retry else 0
  {
    if Retryable(replies(n)) && retry + 1 <= 3 {
      FinalizingResolved(s, retry + 1, replies, n + 1);
    }
  }

  /** Any other job keeps its status, or becomes `Faulted` when the upload is given up. */
  lemma {:induction false} OtherStatusKept(s: JobStatus, retry: int, replies: nat -> Reply, n: nat)
    requires !IsFinalizing(s)
    ensures Posting(s, retry, replies, n).status in {s, Faulted}
    ensures Posting(s, retry, replies, n).accepted ==> Posting(s, retry, replies, n).status == s
    decreases if retry <= 3 then 4 - retry else 0
  {
    if Retryable(replies(n)) && retry + 1 <= 3 {
      OtherStatusKept(s, retry + 1, replies, n + 1);
    }
  }

  /** An uncaught exception ends the loop with the job not accepted, its status as it was,
      and the counter raised once for every retry before the exception. */
  lemma {:induction false} RaisedLeavesState(s: JobStatus, retry: int, replies: nat -> Reply, n: nat)
    ensures var o := Posting(s, retry, replies, n);
      o.raised ==> o.status == s && !o.accepted && o.posts > n && o.retry == retry + (o.posts - n - 1)
    decreases if retry <= 3 then 4 - retry else 0
  {
    if !replies(n).Uncaught? && Retryable(replies(n)) && retry + 1 <= 3 {
      RaisedLeavesState(s, retry + 1, replies, n + 1);
    }
  }

  /** An accepted upload always leaves the counter at 0. */
  lemma {:induction false} AcceptedResets(s: JobStatus, retry: int, replies: nat -> Reply, n: nat)
    ensures Posting(s, retry, replies, n).accepted ==> Posting(s, retry, replies, n).retry == 0
    decreases if retry <= 3 then 4 - retry else 0
  {
    if Retryable(replies(n)) && retry + 1 <= 3 {
      AcceptedResets(s, retry + 1, replies, n + 1);
    }
  }

  // ---------------------------------------------------------------- the job object

  /** `HordeJobFramework`: the state every job keeps while it is processed and submitted. */
  class HordeJob {
    var status: JobStatus
    var loopRetry: int
    var startTime: real
    var staleTime: Option<real>
    var submitDict: Dict
    var pop: Option<Dict>
    var outOfMemory: bool

    /** A job for the popped request `pop`, created at clock reading `now`. */
    constructor(pop: Dict, now: real)
      ensures status == Init && loopRetry == 0 && startTime == now && staleTime == None
      ensures submitDict == map[] && this.pop == Some(pop) && !outOfMemory
    {
      status := Init;
      loopRetry := 0;
      startTime := now;
      staleTime := None;
      submitDict := map[];
      this.pop := Some(pop);
      outOfMemory := false;
    }

    /** The base `start_job`: the job is done at once with a plain success payload. */
    method StartJob()
      modifies this
      ensures status == Done && submitDict == map["success" := Bool(true)]
      ensures loopRetry == old(loopRetry) && startTime == old(startTime) && staleTime == old(staleTime)
      ensures pop == old(pop) && outOfMemory == old(outOfMemory)
    {
      status := Working;
      status := Done;
      submitDict := map["success" := Bool(true)];
    }

    /** `submit_job` once the payload is prepared: a faulted job sends the faulted
        payload instead, then the payload `sent` is POSTed, answer `replies(i)` coming
        back to POST number `i`, until the loop ends as `Posting` says.  An accepted job
        has its payload and pop cleared; `raised` reports an uncaught exception, which
        leaves `submit_job` without settling the status. */
    method SubmitJob(replies: nat -> Reply) returns (sent: Dict, posts: nat, raised: bool)
      modifies this
      ensures sent == (if old(status) in {Faulted, FinalizingFaulted} then FaultedPayload else old(submitDict))
      ensures var o := Posting(old(status), old(loopRetry), replies, 0);
        status == o.status && loopRetry == o.retry && posts == o.posts && raised == o.raised
        && (if o.accepted then submitDict == map[] && pop == None
            else submitDict == sent && pop == old(pop))
      ensures startTime == old(startTime) && staleTime == old(staleTime) && outOfMemory == old(outOfMemory)
    {
      raised := false;
      if status in {Faulted, FinalizingFaulted} {
        submitDict := FaultedPayload;
      }
      sent := submitDict;
      posts := 0;
      while true
        invariant status == old(status) && submitDict == sent && pop == old(pop)
        invariant startTime == old(startTime) && staleTime == old(staleTime) && outOfMemory == old(outOfMemory)
        invariant Posting(status, loopRetry, replies, posts) == Posting(old(status), old(loopRetry), replies, 0)
        invariant !raised
        decreases if loopRetry <= 3 then 4 - loopRetry else 0
      {
        var reply := replies(posts);
        posts := posts + 1;
        if reply.Uncaught? {
          raised := true;
          return;
        }
        if Retryable(reply) {
          loopRetry := loopRetry + 1;
          if loopRetry > 3 {
            if IsFinalizing(status) {
              status := DoneFaulted;
            } else {
              status := Faulted;
            }
            return;
          }
          continue;
        }
        loopRetry := 0;
        if reply.code == 404 || !ResponseOk(reply.code) {
          if IsFinalizing(status) {
            status := Done;
          }
          return;
        }
        break;
      }
      if IsFinalizing(status) {
        status := Done;
      }
      submitDict := map[];
      pop := None;
    }
  }
}
