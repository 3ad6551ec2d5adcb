/** The tracker's fixed configuration (run.py:16-18 and the page size of run.py:105). */
module Config {

  /** Number of user ids sent in one bulk-detail request. */
  const BATCH_SIZE: nat := 50

  /** Number of requests one batch may issue before it is abandoned. */
  const MAX_RETRIES: nat := 3

  /** Base delay, in seconds, after a rate-limited (429) response. */
  const RATE_LIMIT_DELAY: nat := 5

  /** Pause, in seconds, after a connection error on a batch request. */
  const NETWORK_ERROR_DELAY: nat := 1

  /** The `limit` parameter of every friend-list page request. */
  const PAGE_LIMIT: nat := 50

  /** HTTP status codes the tracker distinguishes. */
  const STATUS_OK: int := 200
  const STATUS_TOO_MANY_REQUESTS: int := 429
}
