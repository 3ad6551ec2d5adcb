/** The bounded retry loop of one bulk-detail batch (run.py:156-170). */
module Retry {
  import opened Config
  import opened Records

  /** What one bulk-detail request yields: a status with the `data` list of
      its body, or a connection failure. */
  datatype DetailResponse = DetailResponse(status: int, data: seq<FriendRecord>) | DetailNetworkError

  /** One batch's outcome: the detail records obtained (those of a 200, or
      none) and the seconds slept after each attempt made (0 for no sleep). */
  datatype BatchRun = BatchRun(records: seq<FriendRecord>, waits: seq<nat>)

  /** The wait after a 429 at 0-based attempt `attempt`. */
  function Backoff(attempt: nat): (w: nat)
    ensures w >= RATE_LIMIT_DELAY && w % RATE_LIMIT_DELAY == 0
    ensures attempt < MAX_RETRIES ==> w <= MAX_RETRIES * RATE_LIMIT_DELAY
  {
    (attempt + 1) * RATE_LIMIT_DELAY
  }

  /** A response after which the loop goes on to the next attempt. */
  predicate Retries(r: DetailResponse) {
    r.DetailNetworkError? || r.status == STATUS_TOO_MANY_REQUESTS
  }

  predicate IsRateLimited(r: DetailResponse) {
    r.DetailResponse? && r.status == STATUS_TOO_MANY_REQUESTS
  }

  /** The attempts from `attempt` on; `respond(k)` is the answer to attempt `k`. */
  function RetryFrom(respond: nat -> DetailResponse, attempt: nat): (run: BatchRun)
    requires attempt <= MAX_RETRIES
    ensures attempt < MAX_RETRIES ==> 0 < |run.waits|
    ensures |run.waits| <= MAX_RETRIES - attempt
    ensures forall k :: attempt <= k < attempt + |run.waits| - 1 ==> Retries(respond(k))
    ensures 0 < |run.waits| < MAX_RETRIES - attempt ==> !Retries(respond(attempt + |run.waits| - 1))
    ensures forall k :: 0 <= k < |run.waits| ==>
              run.waits[k] == (if respond(attempt + k).DetailNetworkError? then NETWORK_ERROR_DELAY
                               else if IsRateLimited(respond(attempt + k)) then Backoff(attempt + k)
                               else 0)
    decreases MAX_RETRIES - attempt
  {
    if attempt == MAX_RETRIES then BatchRun([], [])
    else
      match respond(attempt)
      case DetailNetworkError =>
        var rest := RetryFrom(respond, attempt + 1);
        BatchRun(rest.records, [NETWORK_ERROR_DELAY] + rest.waits)
      case DetailResponse(status, data) =>
        if status == STATUS_OK then BatchRun(data, [0])
        else if status == STATUS_TOO_MANY_REQUESTS then
          var rest := RetryFrom(respond, attempt + 1);
          BatchRun(rest.records, [Backoff(attempt)] + rest.waits)
        else BatchRun([], [0])
  }

  /** One batch: attempts 0, 1 and 2 at most. */
  function RunBatch(respond: nat -> DetailResponse): (run: BatchRun)
    ensures 0 < |run.waits| <= MAX_RETRIES
  {
    RetryFrom(respond, 0)
  }

  /** The batch keeps records only from a 200 on its final attempt: no partial
      credit from an abandoned or exhausted batch. */
  lemma RecordsOnlyFromSuccess(respond: nat -> DetailResponse, attempt: nat)
    requires attempt <= MAX_RETRIES
    ensures var run := RetryFrom(respond, attempt);
            var last := respond(attempt + |run.waits| - 1);
            run.records == (if 0 < |run.waits| && last.DetailResponse? && last.status == STATUS_OK then last.data else [])
  {
  }

  /** Rate-limit waits strictly increase across the attempts of a batch. */
  lemma BackoffIncreases(respond: nat -> DetailResponse, j: nat, k: nat)
    requires j < k < |RunBatch(respond).waits|
    requires IsRateLimited(respond(j)) && IsRateLimited(respond(k))
    ensures RunBatch(respond).waits[j] < RunBatch(respond).waits[k]
  {
  }

  /** Two 429s and then a 200: three requests, waits of 5 and 10 seconds
      before the two retries, and the records of the 200. */
  lemma TwoRateLimitsThenSuccess(data: seq<FriendRecord>)
    ensures var respond := (k: nat) => if k < 2 then DetailResponse(429, []) else DetailResponse(200, data);
            RunBatch(respond) == BatchRun(data, [5, 10, 0])
  {
  }

  /** Three 429s exhaust the batch with nothing obtained. */
  lemma RateLimitedThrice()
    ensures RunBatch((k: nat) => DetailResponse(429, [])) == BatchRun([], [5, 10, 15])
  {
  }
}
