/** What each transition does to one row, once with the PostgreSQL guards and once with the Redis-only ones. */
module TaskRows {
  import opened Wrappers
  import opened TaskTypes

  // --- PostgreSQL guards -------------------------------------------------------------------

  predicate CanComplete(row: TaskPayload, worker: WorkerId) {
    if row.status == RUNNING then worker == "" || row.workerId == worker
    else if row.status != FAILED || row.error != WaitTimeout then false
    else worker != "" && row.workerId == worker
  }

  predicate CanFail(row: TaskPayload, worker: WorkerId) {
    Active(row) && (worker == "" || row.workerId == worker)
  }

  predicate StaleRunning(row: TaskPayload, now: Time) {
    row.status == RUNNING && row.leaseExpiresAt > 0.0 && row.leaseExpiresAt < now
  }

  // --- Redis-only guards -------------------------------------------------------------------

  predicate CanUpdateTerminal(row: TaskPayload, target: TaskStatus, worker: WorkerId) {
    if row.status == RUNNING then worker == "" || row.workerId == worker
    else if target == FAILED && row.status == PENDING then worker == ""
    else if target == SUCCEEDED && row.status == FAILED then
      worker != "" && row.error == WaitTimeout && row.workerId == worker
    else false
  }

  predicate LeaseExpired(row: TaskPayload, now: Time) {
    var expiresAt := if row.leaseExpiresAt != 0.0 then row.leaseExpiresAt
                     else row.startedAt + row.timeoutSeconds;
    expiresAt > 0.0 && now > expiresAt
  }

  predicate ShouldDetach(row: TaskPayload, now: Time) {
    row.status == RUNNING && !LeaseExpired(row, now)
  }

  // --- the guards by backend ---------------------------------------------------------------

  predicate CompleteAllowed(b: Backend, row: TaskPayload, worker: WorkerId) {
    match b
    case Postgres => CanComplete(row, worker)
    case RedisOnly => CanUpdateTerminal(row, SUCCEEDED, worker) && (worker == "" || row.workerId == worker)
  }

  predicate FailAllowed(b: Backend, row: TaskPayload, worker: WorkerId) {
    match b
    case Postgres => CanFail(row, worker)
    case RedisOnly => CanUpdateTerminal(row, FAILED, worker) && (worker == "" || row.workerId == worker)
  }

  predicate Stale(b: Backend, row: TaskPayload, now: Time) {
    match b
    case Postgres => StaleRunning(row, now)
    case RedisOnly => row.status == RUNNING && LeaseExpired(row, now)
  }

  // --- the writes --------------------------------------------------------------------------

  function ClaimRow(row: TaskPayload, worker: WorkerId, now: Time): TaskPayload {
    row.(status := RUNNING, workerId := worker, startedAt := now, leaseExpiresAt := now + row.timeoutSeconds)
  }

  function CompleteRow(row: TaskPayload, result: string): TaskPayload {
    row.(status := SUCCEEDED, result := Some(result), error := NoError)
  }

  /** The row store leaves the result alone when a task fails; the Redis-only backend clears it. */
  function FailRow(b: Backend, row: TaskPayload, error: TaskError): TaskPayload {
    match b
    case Postgres => row.(status := FAILED, error := error)
    case RedisOnly => row.(status := FAILED, result := None, error := error)
  }

  function RequeueRow(row: TaskPayload): TaskPayload {
    row.(status := PENDING, workerId := "", startedAt := 0.0, leaseExpiresAt := 0.0,
    result := None, error := NoError, retryCount := row.retryCount + 1)
  }

  function RecoverRow(b: Backend, row: TaskPayload): TaskPayload {
    if row.retryCount < row.maxRetries then RequeueRow(row)
    else FailRow(b, row, RetriesExhausted(row.maxRetries))
  }

  /** The cancellation writes the whole row back; it never clears the result. */
  function CancelRow(row: TaskPayload): TaskPayload {
    row.(status := FAILED, error := ParentCancelled)
  }

  // --- what every reachable row satisfies --------------------------------------------------

  predicate RowOk(id: TaskId, row: TaskPayload) {
    && row.taskId == id
    && (row.status == PENDING ==> row.workerId == "")
    && (row.result.Some? <==> row.status == SUCCEEDED)
    && (row.status == PENDING ==> row.error == NoError)
    && 0 <= row.retryCount
    && (row.retryCount == 0 || row.retryCount <= row.maxRetries)
  }

  /** Without renewals a running row's lease is exactly its start plus its timeout. */
  predicate LeaseIsStartPlusTimeout(row: TaskPayload) {
    row.status == RUNNING ==> row.leaseExpiresAt == row.startedAt + row.timeoutSeconds
  }

  /** The two completion guards always agree; the two fail guards agree exactly when no pending row
      carries the (non-empty) worker id that asks. */
  lemma GuardsAgree(row: TaskPayload, worker: WorkerId)
    ensures CompleteAllowed(Postgres, row, worker) <==> CompleteAllowed(RedisOnly, row, worker)
    ensures (FailAllowed(Postgres, row, worker) <==> FailAllowed(RedisOnly, row, worker))
       <==> !(row.status == PENDING && worker != "" && row.workerId == worker)
  {
  }

  /** The two staleness tests agree exactly unless the lease was zeroed while the fallback deadline has passed. */
  lemma StaleAgrees(row: TaskPayload, now: Time)
    ensures (Stale(Postgres, row, now) <==> Stale(RedisOnly, row, now))
       <==> !(row.status == RUNNING && row.leaseExpiresAt == 0.0
              && 0.0 < row.startedAt + row.timeoutSeconds < now)
  {
  }
}
