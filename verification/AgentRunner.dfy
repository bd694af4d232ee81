/** What a worker does to the queue while and after running one claimed task. */
module AgentRunner {
  import opened Wrappers
  import opened TaskTypes
  import opened TaskRows
  import opened TaskQueue
  import Q = QueueSpec
  import H = QueueHistory
  import T = QueueTransitions

  /** How the agent run ended; the run itself is not modelled. */
  datatype RunOutcome =
    | Finished(result: string)
    | Cancelled(byParent: bool)   // CancelledError, with or without the cancel event set
    | TimedOut
    | Raised(text: string)

  /** The queue after a run: its answers decide which calls follow. */
  function AfterRun(b: Backend, q: Q.QueueState, p: TaskPayload, outcome: RunOutcome): Q.QueueState {
    match outcome
    case Finished(result) =>
      var (q1, answer) := Q.CompleteStep(b, q, p.taskId, result, p.workerId);
      if answer == Q.Flag(true) then q1
      else Q.FailStep(b, q1, p.taskId, OtherError("complete discarded"), p.workerId).0
    case Cancelled(byParent) => if byParent then Q.FailStep(b, q, p.taskId, ParentCancelled, p.workerId).0 else q
    case TimedOut => Q.FailStep(b, q, p.taskId, OtherError("timeout"), p.workerId).0
    case Raised(text) => Q.FailStep(b, q, p.taskId, OtherError(text), p.workerId).0
  }

  predicate Holds(row: TaskPayload, worker: WorkerId) { row.status == RUNNING && row.workerId == worker }

  predicate Reported(after: TaskPayload, result: string) {
    after.status == SUCCEEDED && after.result == Some(result) && after.error == NoError
  }

  /** The error a run that does not finish leaves; never the one of a waited-out task, after which a result still counts. */
  predicate ErrorOf(outcome: RunOutcome, error: TaskError) {
    match outcome
    case Finished(_) => false
    case Cancelled(byParent) => byParent && error == ParentCancelled
    case TimedOut => error.OtherError?
    case Raised(text) => error == OtherError(text)
  }

  predicate WaitedOut(p: TaskPayload, worker: WorkerId) {
    p.status == FAILED && p.error == WaitTimeout && worker != "" && p.workerId == worker
  }

  /** What a run leaves of its task. If it still held it, the task has ended for good, with the result or with the error of
      this outcome; a waited-out task takes the result; any other ended task, and another worker's, stays as it was. In no
      case is it RUNNING under this worker id. */
  ghost predicate LetsGo(before: TaskPayload, after: TaskPayload, worker: WorkerId, outcome: RunOutcome) {
    && T.SameTask(before, after) && !Holds(after, worker)
    && (Holds(before, worker) ==>
          && H.Settled(after) && T.SameAttempt(before, after)
          && if outcome.Finished? then Reported(after, outcome.result)
             else after.status == FAILED && ErrorOf(outcome, after.error))
    && (WaitedOut(before, worker) && outcome.Finished? ==> Reported(after, outcome.result))
    && (Terminal(before.status) && !(WaitedOut(before, worker) && outcome.Finished?) ==> after == before)
    && (before.workerId != worker && worker != "" ==> after == before)
  }

  lemma FinishedLetsGo(b: Backend, q: Q.QueueState, p: TaskPayload, outcome: RunOutcome)
    requires outcome.Finished? && p.taskId in Q.Tasks(b, q) && Q.Tasks(b, q)[p.taskId].taskId == p.taskId
    ensures var before, after := Q.Tasks(b, q), Q.Tasks(b, AfterRun(b, q, p, outcome));
      p.taskId in after && LetsGo(before[p.taskId], after[p.taskId], p.workerId, outcome)
  {
  }

  lemma RunLetsGo(b: Backend, q: Q.QueueState, p: TaskPayload, outcome: RunOutcome)
    requires outcome != Cancelled(false) && p.taskId in Q.Tasks(b, q) && Q.Tasks(b, q)[p.taskId].taskId == p.taskId
    ensures var before, after := Q.Tasks(b, q), Q.Tasks(b, AfterRun(b, q, p, outcome));
      p.taskId in after && LetsGo(before[p.taskId], after[p.taskId], p.workerId, outcome)
  {
    if outcome.Finished? { FinishedLetsGo(b, q, p, outcome); }
  }

  /** So whichever way the run of a held task ended, no later completion of the task is accepted in any run. */
  lemma NoLateResult(b: Backend, r: Q.Run, i: nat, m: nat, id: TaskId, before: TaskPayload, worker: WorkerId,
                     outcome: RunOutcome)
    requires Q.IsRun(b, r) && i <= m < |r.ops| && H.RowAt(b, r, i, id).Some?
    requires Holds(before, worker) && LetsGo(before, H.RowAt(b, r, i, id).value, worker, outcome)
    ensures !H.AcceptedAt(b, r, m, id) && H.RowAt(b, r, m + 1, id) == H.RowAt(b, r, i, id)
  {
    H.SettledForever(b, r, i, m, id);
    H.SettledForever(b, r, i, m + 1, id);
    H.RowStep(b, r, m, id);
  }

  /** The two calls of a finished run with any other operations between them: over a queue run, a worker that reports its
      result at `k` and, if that is discarded, its failure at `m`, no longer has the task RUNNING under its id. Its report
      is accepted if it still holds the task, an accepted result is final, and the failure leaves a task that is another
      worker's alone. */
  lemma WorkerLetsGo(b: Backend, r: Q.Run, k: nat, m: nat, id: TaskId, worker: WorkerId)
    requires Q.IsRun(b, r) && k < |r.ops| && worker != ""
    requires r.ops[k].Complete? && r.ops[k].id == id && r.ops[k].worker == worker
    requires !H.AcceptedAt(b, r, k, id) ==>
      k < m < |r.ops| && r.ops[m].Fail? && r.ops[m].id == id && r.ops[m].worker == worker
    ensures H.RowAt(b, r, k, id).Some? && Holds(H.RowAt(b, r, k, id).value, worker) ==> H.AcceptedAt(b, r, k, id)
    ensures H.AcceptedAt(b, r, k, id) ==>
      && H.RowAt(b, r, k, id).Some?
      && forall j | k < j <= |r.ops| :: H.RowAt(b, r, j, id) == Some(CompleteRow(H.RowAt(b, r, k, id).value, r.ops[k].result))
    ensures !H.AcceptedAt(b, r, k, id) && H.RowAt(b, r, m, id).Some? ==>
      var before, after := H.RowAt(b, r, m, id).value, H.RowAt(b, r, m + 1, id);
      && after.Some? && !Holds(after.value, worker)
      && (before.workerId != worker ==> after.value == before)
  {
    H.RowStep(b, r, k, id);
    if H.AcceptedAt(b, r, k, id) {
      var j := H.FencedCompletion(b, r, k, id);
    } else {
      H.RowStep(b, r, m, id);
    }
  }

  /** One heartbeat round: renew, then look for the cancel flag. */
  method HeartbeatRound(queue: TaskQueue, id: TaskId, now: Time) returns (stop: bool)
    modifies queue, queue.persistence
    ensures queue.State() == Q.RenewStep(queue.Kind(), old(queue.State()), id, now, LEASE_EXTENSION_SECONDS)
    ensures stop <==> id in queue.State().flags
  {
    queue.RenewLease(id, now, LEASE_EXTENSION_SECONDS);
    stop := queue.IsCancelRequested(id);
  }

  /** One claimed task: unless the run is cancelled from outside, the worker lets go of it. */
  method ExecuteAgentPayload(queue: TaskQueue, p: TaskPayload, outcome: RunOutcome) returns (reraised: bool)
    modifies queue, queue.persistence
    ensures reraised <==> outcome == Cancelled(false)
    ensures queue.State() == AfterRun(queue.Kind(), old(queue.State()), p, outcome)
    ensures reraised ==> queue.State() == old(queue.State())
    ensures var before, after := Q.Tasks(queue.Kind(), old(queue.State())), Q.Tasks(queue.Kind(), queue.State());
      var id := p.taskId;
      !reraised && id in before && before[id].taskId == id ==>
        id in after && LetsGo(before[id], after[id], p.workerId, outcome)
  {
    reraised := false;
    var answer: Q.Answer;
    ghost var b, q := queue.Kind(), queue.State();
    match outcome {
      case Finished(result) =>
        answer := queue.Complete(p.taskId, result, p.workerId);
        if answer != Q.Flag(true) {
          answer := queue.Fail(p.taskId, OtherError("complete discarded"), p.workerId);
        }
      case Cancelled(byParent) =>
        if byParent {
          answer := queue.Fail(p.taskId, ParentCancelled, p.workerId);
        } else {
          reraised := true;
        }
      case TimedOut => answer := queue.Fail(p.taskId, OtherError("timeout"), p.workerId);
      case Raised(text) => answer := queue.Fail(p.taskId, OtherError(text), p.workerId);
    }
    if !reraised && p.taskId in Q.Tasks(b, q) && Q.Tasks(b, q)[p.taskId].taskId == p.taskId {
      RunLetsGo(b, q, p, outcome);
    }
  }
}
