/** The state record of one sub-agent task and the vocabulary shared by both queue backends. */
module TaskTypes {

  import opened Wrappers

  type TaskId = string
  type WorkerId = string
  type Time = real

  datatype TaskStatus = PENDING | RUNNING | SUCCEEDED | FAILED

  /** Error texts the queue itself writes are kept apart; a caller may pass any of them. */
  datatype TaskError =
    | NoError
    | WaitTimeout                    // WAIT_TIMEOUT_ERROR
    | WaitDetached                   // WAIT_DETACHED_ERROR
    | ParentCancelled                // PARENT_CANCELLED_ERROR
    | RetriesExhausted(retries: int) // written by the recovery loop
    | OtherError(text: string)

  datatype TaskPayload = TaskPayload(
    taskId: TaskId,
    inputData: string,
    parentTaskId: TaskId,
    status: TaskStatus,
    workerId: WorkerId,
    createdAt: Time,
    startedAt: Time,
    timeoutSeconds: Time,
    leaseExpiresAt: Time,
    result: Option<string>,
    error: TaskError,
    retryCount: int,
    maxRetries: int)

  datatype QueueSubmitSpec = QueueSubmitSpec(
    taskId: TaskId, inputData: string, parentTaskId: TaskId, timeoutSeconds: Time, maxRetries: int)

  /** With a persistence object the rows decide; without one the Redis keys do. */
  datatype Backend = Postgres | RedisOnly

  type Rows = map<TaskId, TaskPayload>

  const HEARTBEAT_INTERVAL_SECONDS: Time := 15.0
  const LEASE_EXTENSION_SECONDS: Time := 60.0

  predicate Terminal(status: TaskStatus) { status == SUCCEEDED || status == FAILED }

  predicate Active(p: TaskPayload) { p.status == PENDING || p.status == RUNNING }

  function BuildPayload(spec: QueueSubmitSpec, now: Time): TaskPayload {
    TaskPayload(spec.taskId, spec.inputData, spec.parentTaskId, PENDING, "", now, 0.0,
                spec.timeoutSeconds, 0.0, None, NoError, 0, spec.maxRetries)
  }

  /** The payload is of the task that this spec asked for at this time. */
  predicate BelongsTo(p: TaskPayload, spec: QueueSubmitSpec, createdAt: Time) {
    && p.taskId == spec.taskId && p.inputData == spec.inputData && p.parentTaskId == spec.parentTaskId
    && p.timeoutSeconds == spec.timeoutSeconds && p.maxRetries == spec.maxRetries && p.createdAt == createdAt
  }

  /** And nothing has happened to the task yet. */
  predicate AsSubmitted(p: TaskPayload, spec: QueueSubmitSpec, createdAt: Time) {
    && BelongsTo(p, spec, createdAt) && p.status == PENDING && p.workerId == "" && p.retryCount == 0
    && p.startedAt == 0.0 && p.leaseExpiresAt == 0.0 && p.result == None && p.error == NoError
  }

  function Lookup(m: Rows, id: TaskId): Option<TaskPayload> {
    if id in m then Some(m[id]) else None
  }

  /** The ids of the rows under one parent that still count against its capacity. */
  function ActiveChildren(m: Rows, parent: TaskId): set<TaskId> {
    set id | id in m && m[id].parentTaskId == parent && Active(m[id])
  }
}
