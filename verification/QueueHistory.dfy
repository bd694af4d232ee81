/** Whole-run guarantees of the task queue, for every sequence of method calls: attempts, results, finality. */
module QueueHistory {
  import opened Wrappers
  import opened TaskTypes
  import opened TaskRows
  import opened QueueSpec
  import opened TaskLife
  import opened QueueInvariant

  ghost function RowAt(b: Backend, r: Run, i: nat, id: TaskId): Option<TaskPayload>
    requires i < |r.states|
  {
    Lookup(Tasks(b, r.states[i]), id)
  }

  predicate ClaimsTask(answer: Answer, id: TaskId) {
    answer.Claimed? && answer.task.Some? && answer.task.value.taskId == id
  }

  predicate CreatesByBatch(b: Backend, op: Op, answer: Answer, id: TaskId) {
    op.SubmitMany? && FindSpec(SavedSpecs(b, op, answer), id).Some?
  }

  /** What an operation's answer says about the row it met. */
  ghost predicate AnswerFits(b: Backend, row: Option<TaskPayload>, op: Op, answer: Answer, id: TaskId) {
    && (ClaimsTask(answer, id) ==> op.Claim? && row.Some? && row.value.status == PENDING)
    && (op.Submit? && op.spec.taskId == id ==> row.None?)
    && (CreatesByBatch(b, op, answer, id) ==> row.None?)
    && (op.Complete? && op.id == id ==> (answer == Flag(true) <==> row.Some? && CompleteAllowed(b, row.value, op.worker)))
  }

  lemma StepAnswerFits(b: Backend, q: QueueState, op: Op, id: TaskId)
    requires Inv(b, q) && LegalOp(b, q, op)
    ensures AnswerFits(b, Lookup(Tasks(b, q), id), op, Step(b, q, op).1, id)
  {
    if op.Claim? { ClaimAt(b, q, op.worker, op.claimedAt, id); }
    if op.SubmitMany? {
      var ps := BuildPayloads(op.specs, op.builtAt);
      if ps != [] && DistinctFresh(Tasks(b, q), ps) { DistinctSpecs(op.specs, op.builtAt, Tasks(b, q)); }
    }
  }

  /** One step of a run, seen from one task. */
  lemma RowStep(b: Backend, r: Run, i: nat, id: TaskId)
    requires IsRun(b, r) && i < |r.ops|
    ensures RowAt(b, r, i + 1, id) == RowAfter(b, RowAt(b, r, i, id), r.ops[i], r.answers[i], id)
    ensures AnswerFits(b, RowAt(b, r, i, id), r.ops[i], r.answers[i], id)
    ensures RowAt(b, r, i, id).Some? ==> RowOk(id, RowAt(b, r, i, id).value)
  {
    var q := r.states[i];
    ReachableInv(b, r, i);
    assert Link(b, r, i);
    StepActsPerTask(b, q, r.ops[i], id);
    StepAnswerFits(b, q, r.ops[i], id);
  }

  // --- attempts ------------------------------------------------------------------------------

  /** How often the queue has handed this task to a worker in the first `i` operations. */
  ghost function Claims(b: Backend, r: Run, i: nat, id: TaskId): nat
    requires |r.states| == |r.ops| + 1 && |r.answers| == |r.ops| && i <= |r.ops|
  {
    if i == 0 then 0 else Claims(b, r, i - 1, id) + if ClaimsTask(r.answers[i - 1], id) then 1 else 0
  }

  ghost predicate Accounts(row: Option<TaskPayload>, claims: nat) {
    match row
    case None => claims == 0
    case Some(p) =>
      match p.status
      case PENDING => claims == p.retryCount
      case RUNNING => claims == p.retryCount + 1
      case SUCCEEDED => claims == p.retryCount + 1
      case FAILED => claims == p.retryCount + 1 || (claims == p.retryCount && p.workerId == "")
  }

  lemma RowAccounts(b: Backend, row: Option<TaskPayload>, op: Op, answer: Answer, id: TaskId, claims: nat)
    requires row.Some? ==> RowOk(id, row.value)
    requires AnswerFits(b, row, op, answer, id) && Accounts(row, claims)
    ensures Accounts(RowAfter(b, row, op, answer, id), claims + if ClaimsTask(answer, id) then 1 else 0)
  {
  }

  /** Claims equal retry_count while pending and retry_count + 1 once running or succeeded. */
  lemma {:induction false} AttemptAccounting(b: Backend, r: Run, i: nat, id: TaskId)
    requires IsRun(b, r) && i <= |r.ops|
    ensures Accounts(RowAt(b, r, i, id), Claims(b, r, i, id))
  {
    if i > 0 {
      AttemptAccounting(b, r, i - 1, id);
      RowStep(b, r, i - 1, id);
      RowAccounts(b, RowAt(b, r, i - 1, id), r.ops[i - 1], r.answers[i - 1], id, Claims(b, r, i - 1, id));
    }
  }

  function RetryBudget(p: TaskPayload): nat { if p.maxRetries < 0 then 0 else p.maxRetries }

  /** No task is ever handed out more than 1 + max_retries times. */
  lemma ClaimsBounded(b: Backend, r: Run, i: nat, id: TaskId)
    requires IsRun(b, r) && i <= |r.ops| && RowAt(b, r, i, id).Some?
    ensures Claims(b, r, i, id) <= 1 + RetryBudget(RowAt(b, r, i, id).value)
  {
    AttemptAccounting(b, r, i, id);
    ReachableInv(b, r, i);
  }

  // --- termination ---------------------------------------------------------------------------

  function StatusRank(s: TaskStatus): nat {
    match s case PENDING => 3 case RUNNING => 2 case FAILED => 1 case SUCCEEDED => 0
  }

  function Rank(p: TaskPayload): int { 4 * (RetryBudget(p) - p.retryCount) + StatusRank(p.status) }

  /** How often the status of an existing task changed in the first `i` operations. */
  ghost function StatusChanges(b: Backend, r: Run, i: nat, id: TaskId): nat
    requires |r.states| == |r.ops| + 1 && |r.answers| == |r.ops| && i <= |r.ops|
  {
    if i == 0 then 0
    else
      var before, after := RowAt(b, r, i - 1, id), RowAt(b, r, i, id);
      StatusChanges(b, r, i - 1, id)
      + if before.Some? && after.Some? && before.value.status != after.value.status then 1 else 0
  }

  /** Every status change uses up rank; nothing ever gives rank back. */
  lemma RankDecreases(b: Backend, row: TaskPayload, op: Op, answer: Answer, id: TaskId)
    requires RowOk(id, row) && AnswerFits(b, Some(row), op, answer, id)
    ensures var row' := RowAfter(b, Some(row), op, answer, id);
            && row'.Some? && row'.value.maxRetries == row.maxRetries
            && Rank(row'.value) <= Rank(row)
            && (row'.value.status != row.status ==> Rank(row'.value) < Rank(row))
            && (row'.value.status == row.status ==> row'.value.retryCount == row.retryCount)
  {
  }

  /** Each task changes status at most 4 * max_retries + 3 times, however long the run. */
  lemma {:induction false} StatusChangesBounded(b: Backend, r: Run, i: nat, id: TaskId)
    requires IsRun(b, r) && i <= |r.ops|
    ensures match RowAt(b, r, i, id)
            case None => StatusChanges(b, r, i, id) == 0
            case Some(p) => 0 <= Rank(p) && StatusChanges(b, r, i, id) + Rank(p) <= 4 * RetryBudget(p) + 3
  {
    if i > 0 {
      StatusChangesBounded(b, r, i - 1, id);
      RowStep(b, r, i - 1, id);
      var before := RowAt(b, r, i - 1, id);
      if before.Some? { RankDecreases(b, before.value, r.ops[i - 1], r.answers[i - 1], id); }
      ReachableInv(b, r, i);
    }
  }

  // --- results -------------------------------------------------------------------------------

  ghost predicate AcceptedAt(b: Backend, r: Run, k: nat, id: TaskId) {
    k < |r.ops| && k < |r.answers| && r.ops[k].Complete? && r.ops[k].id == id && r.answers[k] == Flag(true)
  }

  /** A row that only a late success could still change, or nothing at all. */
  predicate Settled(p: TaskPayload) {
    p.status == SUCCEEDED || (p.status == FAILED && (p.error != WaitTimeout || p.workerId == ""))
  }

  lemma SettledRowStays(b: Backend, row: TaskPayload, op: Op, answer: Answer, id: TaskId)
    requires Settled(row) && AnswerFits(b, Some(row), op, answer, id)
    ensures RowAfter(b, Some(row), op, answer, id) == Some(row)
  {
  }

  /** A succeeded task and its result, and any failure but a waited-out one, never change again. */
  lemma {:induction false} SettledForever(b: Backend, r: Run, i: nat, j: nat, id: TaskId)
    requires IsRun(b, r) && i <= j <= |r.ops|
    requires RowAt(b, r, i, id).Some? && Settled(RowAt(b, r, i, id).value)
    ensures RowAt(b, r, j, id) == RowAt(b, r, i, id)
    decreases j
  {
    if i < j {
      SettledForever(b, r, i, j - 1, id);
      RowStep(b, r, j - 1, id);
      SettledRowStays(b, RowAt(b, r, i, id).value, r.ops[j - 1], r.answers[j - 1], id);
    }
  }

  /** A failed task changes only by the late success of the very worker whose wait ran out. */
  lemma FailedChangesOnlyLate(b: Backend, r: Run, i: nat, id: TaskId)
    requires IsRun(b, r) && i < |r.ops|
    requires RowAt(b, r, i, id).Some? && RowAt(b, r, i, id).value.status == FAILED
    requires RowAt(b, r, i + 1, id) != RowAt(b, r, i, id)
    ensures var row := RowAt(b, r, i, id).value;
            && row.error == WaitTimeout && row.workerId != ""
            && AcceptedAt(b, r, i, id) && r.ops[i].worker == row.workerId
            && RowAt(b, r, i + 1, id) == Some(CompleteRow(row, r.ops[i].result))
  {
    RowStep(b, r, i, id);
  }

  /** Over any run at most one completion of a task is accepted. */
  lemma AtMostOneAcceptedResult(b: Backend, r: Run, k1: nat, k2: nat, id: TaskId)
    requires IsRun(b, r) && AcceptedAt(b, r, k1, id) && AcceptedAt(b, r, k2, id)
    ensures k1 == k2
  {
    var k, m := if k1 < k2 then k1 else k2, if k1 < k2 then k2 else k1;
    if k < m {
      RowStep(b, r, k, id);
      SettledForever(b, r, k + 1, m, id);
      RowStep(b, r, m, id);
    }
  }

  /** The task is `worker`'s by a claim at `j` that no requeue and no other claim has undone before `i`. */
  ghost predicate HeldSince(b: Backend, r: Run, j: nat, i: nat, id: TaskId, worker: WorkerId)
    requires |r.states| == |r.ops| + 1 && |r.answers| == |r.ops| && i <= |r.ops|
  {
    && j < i && r.ops[j].Claim? && r.ops[j].worker == worker && ClaimsTask(r.answers[j], id)
    && (forall k | j < k < i :: !ClaimsTask(r.answers[k], id))
    && (forall k | j < k <= i :: RowAt(b, r, k, id).Some? && RowAt(b, r, k, id).value.status != PENDING)
  }

  lemma WorkerIdFromClaim(b: Backend, row: Option<TaskPayload>, op: Op, answer: Answer, id: TaskId)
    requires row.Some? ==> RowOk(id, row.value)
    requires AnswerFits(b, row, op, answer, id)
    ensures var row' := RowAfter(b, row, op, answer, id);
            row'.Some? && row'.value.workerId != "" ==>
              && row'.value.status != PENDING
              && if ClaimsTask(answer, id) then op.worker == row'.value.workerId
                 else row.Some? && row.value.workerId == row'.value.workerId
  {
  }

  lemma {:induction false} WorkerIdNamesLatestClaim(b: Backend, r: Run, i: nat, id: TaskId) returns (j: nat)
    requires IsRun(b, r) && i <= |r.ops|
    requires RowAt(b, r, i, id).Some? && RowAt(b, r, i, id).value.workerId != ""
    ensures HeldSince(b, r, j, i, id, RowAt(b, r, i, id).value.workerId)
  {
    assert i > 0;
    RowStep(b, r, i - 1, id);
    WorkerIdFromClaim(b, RowAt(b, r, i - 1, id), r.ops[i - 1], r.answers[i - 1], id);
    if ClaimsTask(r.answers[i - 1], id) {
      j := i - 1;
    } else {
      j := WorkerIdNamesLatestClaim(b, r, i - 1, id);
    }
  }

  /** Fencing: a completion under a worker id is accepted only from the worker of the latest claim, with no requeue since. */
  lemma FencedCompletion(b: Backend, r: Run, k: nat, id: TaskId) returns (j: nat)
    requires IsRun(b, r) && AcceptedAt(b, r, k, id) && r.ops[k].worker != ""
    ensures HeldSince(b, r, j, k, id, r.ops[k].worker)
    ensures RowAt(b, r, k + 1, id).Some? && RowAt(b, r, k + 1, id).value.result == Some(r.ops[k].result)
    ensures forall m | k < m <= |r.ops| :: RowAt(b, r, m, id) == RowAt(b, r, k + 1, id)
  {
    RowStep(b, r, k, id);
    j := WorkerIdNamesLatestClaim(b, r, k, id);
    forall m | k < m <= |r.ops| ensures RowAt(b, r, m, id) == RowAt(b, r, k + 1, id) {
      SettledForever(b, r, k + 1, m, id);
    }
  }

  /** The worker id names a process, not one run of it. So a run that claimed the task at `j` and has its completion
      accepted at `k` still held it then exactly if no later claim went to the same worker id; every other worker's claim
      and every requeue between is fenced off. */
  lemma StaleRunPassesIffReclaimed(b: Backend, r: Run, j: nat, k: nat, id: TaskId)
    requires IsRun(b, r) && j < k && AcceptedAt(b, r, k, id) && r.ops[k].worker != ""
    requires r.ops[j].Claim? && ClaimsTask(r.answers[j], id) && r.ops[j].worker == r.ops[k].worker
    ensures HeldSince(b, r, j, k, id, r.ops[k].worker)
       <==> forall m | j < m < k && r.ops[m].Claim? && ClaimsTask(r.answers[m], id) :: r.ops[m].worker != r.ops[k].worker
  {
    var latest := FencedCompletion(b, r, k, id);
  }

  // --- a run in which the fence lets a stale completion pass ------------------------------------

  /** Any legal operation extends a run. */
  lemma Extended(b: Backend, r: Run, op: Op) returns (longer: Run)
    requires IsRun(b, r) && LegalOp(b, r.states[|r.ops|], op)
    ensures IsRun(b, longer) && longer.ops == r.ops + [op]
    ensures longer.states == r.states + [Step(b, r.states[|r.ops|], op).0]
    ensures longer.answers == r.answers + [Step(b, r.states[|r.ops|], op).1]
  {
    var (q, answer) := Step(b, r.states[|r.ops|], op);
    longer := Run(r.states + [q], r.ops + [op], r.answers + [answer]);
    forall i {:trigger Link(b, longer, i)} | 0 <= i < |longer.ops| ensures Link(b, longer, i) {
      if i < |r.ops| { assert Link(b, r, i); }
    }
  }

  const RETRIED := BuildPayload(QueueSubmitSpec("t", "", "p", 10.0, 1), 1.0)
  const FIRST_TAKEN := ClaimRow(RETRIED, "w", 1.0)
  const TAKEN_AGAIN := ClaimRow(RequeueRow(FIRST_TAKEN), "w", 21.0)

  /** The queue with one cached task. */
  function Lone(p: TaskPayload, list: seq<TaskId>): QueueState {
    QueueState(map[p.taskId := p], map[p.taskId := p], list, {p.taskId}, {})
  }

  lemma LoneClaim(p: TaskPayload, now: Time)
    requires p.status == PENDING
    ensures Step(Postgres, Lone(p, [p.taskId]), Claim("w", now))
         == (Lone(ClaimRow(p, "w", now), []), Claimed(Some(ClaimRow(p, "w", now))))
  {
    var taken := ClaimRow(p, "w", now);
    assert [p.taskId][..0] == [];
    assert map[p.taskId := p][p.taskId := taken] == map[p.taskId := taken];
  }

  lemma LoneRecovery()
    ensures Step(Postgres, Lone(FIRST_TAKEN, []), Recover(20.0, ["t"])).0 == Lone(RequeueRow(FIRST_TAKEN), ["t"])
  {
    assert StaleSnapshot(Postgres, Lone(FIRST_TAKEN, []).rows, 20.0, ["t"][1..]) == [];
    var after := Lone(RequeueRow(FIRST_TAKEN), ["t"]);
    assert RecoverAll(Postgres, after, [FIRST_TAKEN][1..]).0 == after;
  }

  lemma FirstRunStarts() returns (r: Run)
    ensures IsRun(Postgres, r) && |r.ops| == 2 && r.states[2] == Lone(FIRST_TAKEN, [])
    ensures r.ops[1] == Claim("w", 1.0) && ClaimsTask(r.answers[1], "t")
  {
    r := Extended(Postgres, Run([EMPTY_QUEUE], [], []), Submit(QueueSubmitSpec("t", "", "p", 10.0, 1), 1.0));
    assert EnqueueMany(SavePayload(Postgres, EMPTY_QUEUE, RETRIED), [RETRIED]).list == ["t"] + [];
    assert r.states[1] == Lone(RETRIED, ["t"]);
    LoneClaim(RETRIED, 1.0);
    r := Extended(Postgres, r, Claim("w", 1.0));
  }

  lemma SecondRunStarts() returns (r: Run)
    ensures IsRun(Postgres, r) && |r.ops| == 4 && r.states[4] == Lone(TAKEN_AGAIN, [])
    ensures r.ops[1] == Claim("w", 1.0) && ClaimsTask(r.answers[1], "t")
    ensures r.ops[3] == Claim("w", 21.0) && ClaimsTask(r.answers[3], "t")
  {
    r := FirstRunStarts();
    LoneRecovery();
    r := Extended(Postgres, r, Recover(20.0, ["t"]));
    LoneClaim(RequeueRow(FIRST_TAKEN), 21.0);
    r := Extended(Postgres, r, Claim("w", 21.0));
  }

  /** Such a run exists: the first run of a process loses its lease, the same process claims the retried task, and then the
      first run's completion is accepted although it no longer holds the task. */
  lemma StaleRunCanPass() returns (r: Run)
    ensures IsRun(Postgres, r) && |r.ops| == 5
    ensures r.ops[1] == Claim("w", 1.0) && ClaimsTask(r.answers[1], "t")
    ensures r.ops[4] == Complete("t", "stale", "w") && AcceptedAt(Postgres, r, 4, "t")
    ensures !HeldSince(Postgres, r, 1, 4, "t", "w")
  {
    r := SecondRunStarts();
    r := Extended(Postgres, r, Complete("t", "stale", "w"));
    assert ClaimsTask(r.answers[3], "t");
  }

  // --- cancellation --------------------------------------------------------------------------

  /** A task cancelled while pending keeps that very row for the rest of the run: never claimed, completed or requeued. */
  lemma CancelledPendingIsFinal(b: Backend, r: Run, i: nat, j: nat, id: TaskId)
    requires IsRun(b, r) && i < j <= |r.ops|
    requires r.ops[i] == Cancel(id) && RowAt(b, r, i, id).Some? && RowAt(b, r, i, id).value.status == PENDING
    ensures r.answers[i] == Flag(true)
    ensures RowAt(b, r, j, id) == Some(CancelRow(RowAt(b, r, i, id).value))
    ensures j < |r.ops| ==> !ClaimsTask(r.answers[j], id) && !AcceptedAt(b, r, j, id)
  {
    assert Link(b, r, i);
    ReachableInv(b, r, i);
    RowStep(b, r, i, id);
    assert GetStatus(b, r.states[i], id).1 == RowAt(b, r, i, id);
    SettledForever(b, r, i + 1, j, id);
    if j < |r.ops| { RowStep(b, r, j, id); }
  }
}
