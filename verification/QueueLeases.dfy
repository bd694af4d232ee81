/** Timed guarantees: a task whose worker keeps its heartbeat is never taken away. */
module QueueLeases {
  import opened Wrappers
  import opened TaskTypes
  import opened TaskRows
  import opened QueueSpec
  import opened TaskLife
  import opened QueueInvariant
  import opened QueueHistory

  /** The operations from `i` up to `e` leave the task to its worker: renewals of it come at most `gap` after the
      previous beat, every look at the clock that concerns it falls within `gap` of the last beat, and whoever completes
      or fails it meanwhile does so under the id of another worker. */
  ghost predicate KeptAlive(ops: seq<Op>, i: nat, e: nat, id: TaskId, worker: WorkerId, last: Time, gap: Time)
    requires i <= e <= |ops|
    decreases e - i
  {
    i < e ==>
      && KeptAlive(ops, i + 1, e, id, worker, Beat(ops[i], id, last), gap)
      && match ops[i]
         case RenewLease(x, now, extension) => x == id ==> last < now <= last + gap && extension == LEASE_EXTENSION_SECONDS
         case Recover(now, _) => now <= last + gap
         case WaitPoll(ids, _, _, stuckAt) => id in ids ==> stuckAt <= last + gap
         case Complete(x, _, v) => x == id ==> v != "" && v != worker
         case Fail(x, _, v) => x == id ==> v != "" && v != worker
         case _ => true
  }

  function Beat(op: Op, id: TaskId, last: Time): Time {
    if op.RenewLease? && op.id == id then op.now else last
  }

  /** The time of the last renewal of the task from `i` up to `e`, `last` when there is none. */
  function LastBeat(ops: seq<Op>, i: nat, e: nat, id: TaskId, last: Time): Time
    requires i <= e <= |ops|
    decreases e - i
  {
    if i == e then last else LastBeat(ops, i + 1, e, id, Beat(ops[i], id, last))
  }

  /** The row is the one the worker was given, with a lease that outlives every moment up to `last + gap`. */
  ghost predicate Leased(row: Option<TaskPayload>, given: TaskPayload, last: Time, gap: Time) {
    && row.Some? && row.value == given.(leaseExpiresAt := row.value.leaseExpiresAt)
    && row.value.status == RUNNING && 0.0 < last && row.value.leaseExpiresAt > last + gap
  }

  /** One operation that keeps the task alive keeps it leased. */
  lemma LeasedStep(row: TaskPayload, given: TaskPayload, ops: seq<Op>, i: nat, e: nat, answer: Answer, id: TaskId,
                   last: Time, gap: Time)
    requires 0.0 <= gap < LEASE_EXTENSION_SECONDS
    requires i < e <= |ops| && KeptAlive(ops, i, e, id, given.workerId, last, gap)
    requires Leased(Some(row), given, last, gap) && AnswerFits(Postgres, Some(row), ops[i], answer, id)
    ensures Leased(RowAfter(Postgres, Some(row), ops[i], answer, id), given, Beat(ops[i], id, last), gap)
  {
  }

  /** Heartbeat safety: with renewals at most `gap` apart, below both the extension and the task's timeout, a claimed task
      stays RUNNING under its worker with its lease beyond the last beat by more than `gap`, so that no clock read in
      time finds it expired, whatever recovery, waiters, cancellations and other workers do. */
  lemma {:induction false} HeartbeatKeepsLease(r: Run, given: TaskPayload, i: nat, e: nat, id: TaskId, last: Time, gap: Time)
    requires IsRun(Postgres, r) && i <= e <= |r.ops|
    requires 0.0 <= gap < LEASE_EXTENSION_SECONDS
    requires KeptAlive(r.ops, i, e, id, given.workerId, last, gap)
    requires Leased(RowAt(Postgres, r, i, id), given, last, gap)
    ensures Leased(RowAt(Postgres, r, e, id), given, LastBeat(r.ops, i, e, id, last), gap)
    decreases e - i
  {
    if i < e {
      RowStep(Postgres, r, i, id);
      LeasedStep(RowAt(Postgres, r, i, id).value, given, r.ops, i, e, r.answers[i], id, last, gap);
      HeartbeatKeepsLease(r, given, i + 1, e, id, Beat(r.ops[i], id, last), gap);
    }
  }

  /** From the claim at `c` up to `e` the worker beats at most 15 + `delay` seconds apart. */
  ghost predicate WorkerBeats(r: Run, c: nat, e: nat, id: TaskId, delay: Time) {
    && IsRun(Postgres, r) && c < e <= |r.ops| && r.ops[c].Claim? && ClaimsTask(r.answers[c], id)
    && 0.0 < r.ops[c].claimedAt && 0.0 <= delay
    && HEARTBEAT_INTERVAL_SECONDS + delay < LEASE_EXTENSION_SECONDS
    && HEARTBEAT_INTERVAL_SECONDS + delay < r.answers[c].task.value.timeoutSeconds
    && KeptAlive(r.ops, c + 1, e, id, r.ops[c].worker, r.ops[c].claimedAt, HEARTBEAT_INTERVAL_SECONDS + delay)
  }

  /** The same from the claim on: the queue's answer to the claim is the row the worker keeps. */
  lemma ClaimedTaskIsKept(r: Run, c: nat, e: nat, id: TaskId, delay: Time)
    requires WorkerBeats(r, c, e, id, delay)
    ensures r.answers[c].task.value.workerId == r.ops[c].worker
    ensures Leased(RowAt(Postgres, r, e, id), r.answers[c].task.value,
                   LastBeat(r.ops, c + 1, e, id, r.ops[c].claimedAt), HEARTBEAT_INTERVAL_SECONDS + delay)
  {
    assert Link(Postgres, r, c);
    ReachableInv(Postgres, r, c);
    ClaimAt(Postgres, r.states[c], r.ops[c].worker, r.ops[c].claimedAt, id);
    RowStep(Postgres, r, c, id);
    HeartbeatKeepsLease(r, r.answers[c].task.value, c + 1, e, id, r.ops[c].claimedAt, HEARTBEAT_INTERVAL_SECONDS + delay);
  }

  lemma {:induction false} AnswerForEachKnown(b: Backend, seen: Rows, ids: seq<TaskId>, now: Time, id: TaskId)
    requires id in ids && id in seen
    ensures WaitAnswer(b, seen[id], now) in WaitAnswers(b, seen, ids, now)
    decreases |ids|
  {
    if ids[0] != id { AnswerForEachKnown(b, seen, ids[1..], now, id); }
  }

  /** A waiter that gives up while the lease is alive gets a detached copy; the row itself is untouched. */
  lemma WaiterDetachesFromLeasedTask(b: Backend, r: Run, i: nat, id: TaskId)
    requires IsRun(b, r) && i < |r.ops| && r.ops[i].WaitPoll? && id in r.ops[i].ids
    requires r.ops[i].deadline.Some? && r.ops[i].now > r.ops[i].deadline.value
    requires RowAt(b, r, i, id).Some? && ShouldDetach(RowAt(b, r, i, id).value, r.ops[i].stuckAt)
    ensures r.answers[i].Waited? && r.answers[i].statuses.Some?
    ensures RowAt(b, r, i, id).value.(error := WaitDetached) in r.answers[i].statuses.value
    ensures RowAt(b, r, i + 1, id) == RowAt(b, r, i, id)
  {
    var q, op := r.states[i], r.ops[i];
    assert Link(b, r, i);
    ReachableInv(b, r, i);
    RowStep(b, r, i, id);
    WaitPollAnswer(b, q, op);
    AnswerForEachKnown(b, Tasks(b, q), op.ids, op.stuckAt, id);
  }

  lemma {:induction false} KeptAliveUpTo(ops: seq<Op>, i: nat, e: nat, id: TaskId, worker: WorkerId, last: Time, gap: Time)
    requires i <= e < |ops| && KeptAlive(ops, i, e + 1, id, worker, last, gap)
    ensures KeptAlive(ops, i, e, id, worker, last, gap)
    ensures KeptAlive(ops, e, e + 1, id, worker, LastBeat(ops, i, e, id, last), gap)
    decreases e - i
  {
    if i < e { KeptAliveUpTo(ops, i + 1, e, id, worker, Beat(ops[i], id, last), gap); }
  }

  /** A parent that stops waiting for a task whose worker beats in time gets the detached copy of the very row the
      worker holds, and the row stays. */
  lemma WaiterDetachesFromBeatingTask(r: Run, c: nat, e: nat, id: TaskId, delay: Time)
    requires e < |r.ops| && WorkerBeats(r, c, e + 1, id, delay) && c < e
    requires r.ops[e].WaitPoll? && id in r.ops[e].ids
    requires r.ops[e].deadline.Some? && r.ops[e].now > r.ops[e].deadline.value
    ensures var given, row := r.answers[c].task.value, RowAt(Postgres, r, e, id);
      && row.Some? && row.value == given.(leaseExpiresAt := row.value.leaseExpiresAt)
      && r.answers[e].Waited? && r.answers[e].statuses.Some?
      && row.value.(error := WaitDetached) in r.answers[e].statuses.value
      && RowAt(Postgres, r, e + 1, id) == row
  {
    KeptAliveUpTo(r.ops, c + 1, e, id, r.ops[c].worker, r.ops[c].claimedAt, HEARTBEAT_INTERVAL_SECONDS + delay);
    ClaimedTaskIsKept(r, c, e, id, delay);
    WaiterDetachesFromLeasedTask(Postgres, r, e, id);
  }

  /** Recovery in time neither requeues nor expires it. */
  lemma RecoveryLeavesBeatingTask(r: Run, c: nat, e: nat, id: TaskId, delay: Time)
    requires e < |r.ops| && WorkerBeats(r, c, e + 1, id, delay) && c < e && r.ops[e].Recover?
    ensures RowAt(Postgres, r, e, id).Some? && RowAt(Postgres, r, e + 1, id) == RowAt(Postgres, r, e, id)
  {
    KeptAliveUpTo(r.ops, c + 1, e, id, r.ops[c].worker, r.ops[c].claimedAt, HEARTBEAT_INTERVAL_SECONDS + delay);
    ClaimedTaskIsKept(r, c, e, id, delay);
    RowStep(Postgres, r, e, id);
  }

  // --- what a wait returns -------------------------------------------------------------------------

  lemma {:induction false} AnswersComeFromRows(b: Backend, seen: Rows, ids: seq<TaskId>, now: Time, p: TaskPayload)
    requires p in WaitAnswers(b, seen, ids, now)
    ensures exists id :: id in ids && id in seen && p == WaitAnswer(b, seen[id], now)
    decreases |ids|
  {
    if ids[0] in seen && p == WaitAnswer(b, seen[ids[0]], now) {
      assert ids[0] in ids;
    } else {
      AnswersComeFromRows(b, seen, ids[1..], now, p);
      var id :| id in ids[1..] && id in seen && p == WaitAnswer(b, seen[id], now);
      assert id in ids;
    }
  }

  /** Every payload a wait of a run returns is the final row of its task, or a detached copy of a running row that the
      wait left alone. */
  lemma WaitReturnsTerminalOrDetached(b: Backend, r: Run, i: nat, p: TaskPayload) returns (id: TaskId)
    requires IsRun(b, r) && i < |r.ops| && r.ops[i].WaitPoll?
    requires r.answers[i].Waited? && r.answers[i].statuses.Some? && p in r.answers[i].statuses.value
    ensures id in r.ops[i].ids && RowAt(b, r, i, id).Some?
    ensures if ShouldDetach(RowAt(b, r, i, id).value, r.ops[i].stuckAt)
      then p == RowAt(b, r, i, id).value.(error := WaitDetached) && RowAt(b, r, i + 1, id) == RowAt(b, r, i, id)
      else Terminal(p.status) && RowAt(b, r, i + 1, id) == Some(p)
  {
    var q, op := r.states[i], r.ops[i];
    assert Link(b, r, i);
    ReachableInv(b, r, i);
    WaitPollAnswer(b, q, op);
    AnswersComeFromRows(b, Tasks(b, q), op.ids, op.stuckAt, p);
    id :| id in op.ids && id in Tasks(b, q) && p == WaitAnswer(b, Tasks(b, q)[id], op.stuckAt);
    RowStep(b, r, i, id);
    WaitAnswerTerminalOrDetached(b, Tasks(b, q)[id], op.stuckAt);
  }

  /** The Redis-only backend ignores renewals: a running task's lease never moves from start + timeout. */
  lemma {:induction false} RedisOnlyLeaseNeverMoves(r: Run, i: nat, id: TaskId)
    requires IsRun(RedisOnly, r) && i <= |r.ops| && RowAt(RedisOnly, r, i, id).Some?
    ensures LeaseIsStartPlusTimeout(RowAt(RedisOnly, r, i, id).value)
  {
    if i > 0 {
      RowStep(RedisOnly, r, i - 1, id);
      if RowAt(RedisOnly, r, i - 1, id).Some? { RedisOnlyLeaseNeverMoves(r, i - 1, id); }
    }
  }

  /** So there recovery takes a running task exactly when its start + timeout has passed, heartbeats or not. */
  lemma RedisOnlyRecoversIffTimedOut(r: Run, i: nat, id: TaskId)
    requires IsRun(RedisOnly, r) && i < |r.ops| && r.ops[i].Recover?
    requires RowAt(RedisOnly, r, i, id).Some? && RowAt(RedisOnly, r, i, id).value.status == RUNNING
    ensures var row := RowAt(RedisOnly, r, i, id).value;
            RowAt(RedisOnly, r, i + 1, id) != Some(row) <==> 0.0 < row.startedAt + row.timeoutSeconds < r.ops[i].now
  {
    RedisOnlyLeaseNeverMoves(r, i, id);
    RowStep(RedisOnly, r, i, id);
  }
}
