/** The life of a task field by field: what a submission creates, what each operation of a run changes of it and when, and
    what a worker is handed. */
module QueueTransitions {
  import opened Wrappers
  import opened TaskTypes
  import opened TaskRows
  import opened QueueSpec
  import opened TaskLife
  import opened QueueInvariant
  import opened QueueHistory
  import QueueCapacity

  // --- what a change is ----------------------------------------------------------------------------

  predicate SameTask(p: TaskPayload, q: TaskPayload) {
    && p.taskId == q.taskId && p.inputData == q.inputData && p.parentTaskId == q.parentTaskId
    && p.timeoutSeconds == q.timeoutSeconds && p.maxRetries == q.maxRetries && p.createdAt == q.createdAt
  }

  /** Who runs the task, since when and until when, and how often it was retried. */
  predicate SameAttempt(p: TaskPayload, q: TaskPayload) {
    && p.workerId == q.workerId && p.startedAt == q.startedAt && p.leaseExpiresAt == q.leaseExpiresAt
    && p.retryCount == q.retryCount
  }

  predicate FailedWith(before: TaskPayload, after: TaskPayload, error: TaskError) {
    SameAttempt(before, after) && after.status == FAILED && after.error == error && after.result == None
  }

  /** The moment after which nobody can count on the worker any more. */
  function ExpiresAt(p: TaskPayload): Time {
    if p.leaseExpiresAt != 0.0 then p.leaseExpiresAt else p.startedAt + p.timeoutSeconds
  }

  /** When an operation of a run moves an existing task. Only a claim's choice is left to its answer. */
  ghost predicate Moves(b: Backend, p: TaskPayload, op: Op, answer: Answer, id: TaskId) {
    match op
    case Claim(_, _) => ClaimsTask(answer, id)
    case Complete(i, _, worker) =>
      i == id && if p.status == RUNNING then worker == "" || worker == p.workerId
                 else p.status == FAILED && p.error == WaitTimeout && worker != "" && worker == p.workerId
    case Fail(i, _, worker) =>
      && i == id && (p.status == PENDING || p.status == RUNNING) && (worker == "" || worker == p.workerId)
    case Recover(now, _) =>
      p.status == RUNNING && if b.Postgres? then 0.0 < p.leaseExpiresAt < now else 0.0 < ExpiresAt(p) < now
    case RenewLease(i, _, _) => b.Postgres? && i == id && p.status == RUNNING
    case Cancel(i) => i == id && p.status == PENDING
    case WaitPoll(ids, deadline, now, stuckAt) =>
      && id in ids && deadline.Some? && deadline.value < now
      && (p.status == PENDING || (p.status == RUNNING && 0.0 < ExpiresAt(p) < stuckAt))
    case _ => false
  }

  ghost predicate Moved(p: TaskPayload, q: TaskPayload, op: Op) {
    SameTask(p, q) &&
    match op
    case Claim(worker, now) =>
      && p.status == PENDING && q.status == RUNNING && q.workerId == worker
      && q.startedAt == now && q.leaseExpiresAt == now + p.timeoutSeconds
      && q.retryCount == p.retryCount && q.result == None && q.error == NoError
    case Complete(_, result, _) => SameAttempt(p, q) && q.status == SUCCEEDED && q.result == Some(result) && q.error == NoError
    case Fail(_, error, _) => FailedWith(p, q, error)
    case Recover(_, _) =>
      if p.retryCount < p.maxRetries then
        && q.status == PENDING && q.workerId == "" && q.startedAt == 0.0 && q.leaseExpiresAt == 0.0
        && q.retryCount == p.retryCount + 1 && q.result == None && q.error == NoError
      else FailedWith(p, q, RetriesExhausted(p.maxRetries))
    case RenewLease(_, now, extension) => q == p.(leaseExpiresAt := now + extension)
    case Cancel(_) => FailedWith(p, q, ParentCancelled)
    case WaitPoll(_, _, _, _) => FailedWith(p, q, WaitTimeout)
    case _ => false
  }

  lemma TimedMoves(b: Backend, p: TaskPayload, op: Op, answer: Answer, id: TaskId)
    requires RowOk(id, p) && (op.Recover? || op.WaitPoll?)
    ensures var q := RowAfter(b, Some(p), op, answer, id);
      q.Some? && if Moves(b, p, op, answer, id) then Moved(p, q.value, op) else q.value == p
  {
  }

  lemma OtherMoves(b: Backend, p: TaskPayload, op: Op, answer: Answer, id: TaskId)
    requires RowOk(id, p) && AnswerFits(b, Some(p), op, answer, id) && !op.Recover? && !op.WaitPoll?
    ensures var q := RowAfter(b, Some(p), op, answer, id);
      q.Some? && if Moves(b, p, op, answer, id) then Moved(p, q.value, op) else q.value == p
  {
  }

  /** The whole life of an existing task: in every run each operation moves it exactly when it says so, to the state it
      says, and otherwise leaves every field as it was. */
  lemma RowMoves(b: Backend, r: Run, i: nat, id: TaskId)
    requires IsRun(b, r) && i < |r.ops| && RowAt(b, r, i, id).Some?
    ensures RowAt(b, r, i + 1, id).Some?
    ensures var p, q := RowAt(b, r, i, id).value, RowAt(b, r, i + 1, id).value;
      if Moves(b, p, r.ops[i], r.answers[i], id) then Moved(p, q, r.ops[i]) else q == p
  {
    RowStep(b, r, i, id);
    var p, op := RowAt(b, r, i, id).value, r.ops[i];
    if op.Recover? || op.WaitPoll? {
      TimedMoves(b, p, op, r.answers[i], id);
    } else {
      OtherMoves(b, p, op, r.answers[i], id);
    }
  }

  /** A completion or a failure is answered True exactly when it moves its task, a cancellation exactly when the task has
      not ended. */
  lemma AnswersTellMoves(b: Backend, r: Run, i: nat)
    requires IsRun(b, r) && i < |r.ops| && (r.ops[i].Complete? || r.ops[i].Fail? || r.ops[i].Cancel?)
    ensures var op, row := r.ops[i], RowAt(b, r, i, r.ops[i].id);
      r.answers[i] == Flag(true) <==>
        row.Some? && if op.Cancel? then !Terminal(row.value.status) else Moves(b, row.value, op, r.answers[i], op.id)
  {
    assert Link(b, r, i);
    ReachableInv(b, r, i);
  }

  // --- cancel flags ----------------------------------------------------------------------------------

  lemma FlagsMove(b: Backend, r: Run, i: nat)
    requires IsRun(b, r) && i < |r.ops|
    ensures r.states[i + 1].flags
         == r.states[i].flags + if r.ops[i].Cancel? && r.answers[i] == Flag(true) then {r.ops[i].id} else {}
  {
    var q, op := r.states[i], r.ops[i];
    assert Link(b, r, i);
    ReachableInv(b, r, i);
    match op
    case Submit(spec, now) => EnqueueKeepsTasks(SavePayload(b, q, BuildPayload(spec, now)), [BuildPayload(spec, now)]);
    case SubmitMany(_, _, _, _) => BatchKeepsFlags(b, q, op);
    case Claim(worker, now) => ClaimAt(b, q, worker, now, "");
    case Recover(now, order) => RecoverAt(b, q, now, order, "");
    case WaitPoll(_, _, _, _) => WaitPollAt(b, q, op, "");
    case _ =>
  }

  lemma BatchKeepsFlags(b: Backend, q: QueueState, op: Op)
    requires op.SubmitMany?
    ensures Step(b, q, op).0.flags == q.flags
  {
    if b.RedisOnly? {
      RedisBatchEffect(q, op);
    } else {
      var ps := BuildPayloads(op.specs, op.builtAt);
      var q1 := q.(rows := SaveManyWithCapacity(q.rows, ps, op.maxActive).0);
      EnqueueKeepsTasks(q1, ps);
      if Strikes(op.fault, ps) && op.fault.value.PushRaises? { EnqueueKeepsTasks(q1, ps[..op.fault.value.at]); }
    }
  }

  /** A worker finds the cancel flag of its task up exactly if some cancellation of the task has been answered True. */
  lemma {:induction false} FlagIffCancelled(b: Backend, r: Run, i: nat, id: TaskId)
    requires IsRun(b, r) && i <= |r.ops|
    ensures id in r.states[i].flags <==> exists j :: 0 <= j < i && r.ops[j] == Cancel(id) && r.answers[j] == Flag(true)
  {
    if i > 0 {
      FlagIffCancelled(b, r, i - 1, id);
      FlagsMove(b, r, i - 1);
    }
  }

  // --- how much a recovery does ----------------------------------------------------------------------

  function Retried(stale: seq<TaskPayload>): set<TaskId> {
    set p | p in stale && p.retryCount < p.maxRetries :: p.taskId
  }

  lemma RetriedFirst(p: TaskPayload, rest: seq<TaskPayload>)
    requires forall q | q in rest :: q.taskId != p.taskId
    ensures Retried([p] + rest) == Retried(rest) + (if p.retryCount < p.maxRetries then {p.taskId} else {})
    ensures |Retried([p] + rest)| == |Retried(rest)| + if p.retryCount < p.maxRetries then 1 else 0
  {
    assert p.taskId !in Retried(rest);
  }

  lemma {:induction false} RequeuedCount(stale: seq<TaskPayload>, list: seq<TaskId>)
    requires forall i, j | 0 <= i < j < |stale| :: stale[i].taskId != stale[j].taskId
    ensures Requeued(stale, list).1 == |Retried(stale)|
    decreases |stale|
  {
    if stale == [] {
      assert Retried(stale) == {};
    } else {
      var p, rest := stale[0], stale[1..];
      assert forall j | 0 <= j < |rest| :: rest[j] == stale[j + 1];
      RequeuedCount(rest, if p.retryCount < p.maxRetries then [p.taskId] + list else list);
      RetriedFirst(p, rest);
      assert stale == [p] + rest;
    }
  }

  /** A recovery answers with the number of tasks it puts back. */
  lemma RecoveryCountsRetries(b: Backend, r: Run, i: nat)
    requires IsRun(b, r) && i < |r.ops| && r.ops[i].Recover?
    ensures r.answers[i] == Count(|set id | id in Tasks(b, r.states[i])
      && Moves(b, Tasks(b, r.states[i])[id], r.ops[i], r.answers[i], id)
      && Tasks(b, r.states[i])[id].retryCount < Tasks(b, r.states[i])[id].maxRetries|)
  {
    var q, op := r.states[i], r.ops[i];
    var tasks := Tasks(b, q);
    assert Link(b, r, i);
    ReachableInv(b, r, i);
    var stale := StaleSnapshot(b, tasks, op.now, op.order);
    RecoverAt(b, q, op.now, op.order, "");
    SnapshotEntries(b, tasks, op.now, op.order);
    RequeuedCount(stale, q.list);
    var retried := Retried(stale);
    forall id ensures id in retried <==>
      id in tasks && Moves(b, tasks[id], op, r.answers[i], id) && tasks[id].retryCount < tasks[id].maxRetries
    {
      if id in tasks { assert tasks[id].taskId == id; }
    }
    assert retried == set id | id in tasks && Moves(b, tasks[id], op, r.answers[i], id)
                               && tasks[id].retryCount < tasks[id].maxRetries;
  }

  // --- where a task comes from ---------------------------------------------------------------------

  function SpecsOf(op: Op): seq<QueueSubmitSpec> {
    match op case Submit(spec, _) => [spec] case SubmitMany(specs, _, _, _) => specs case _ => []
  }

  function TimeOf(op: Op): Time {
    match op case Submit(_, now) => now case SubmitMany(_, _, now, _) => now case _ => 0.0
  }

  /** At step `j` of the run the task came into being, from this spec and no other of the call. */
  ghost predicate CreatedBy(b: Backend, r: Run, j: nat, id: TaskId, spec: QueueSubmitSpec)
    requires j < |r.ops| && |r.states| == |r.ops| + 1
  {
    && RowAt(b, r, j, id).None? && RowAt(b, r, j + 1, id).Some?
    && spec in SpecsOf(r.ops[j]) && spec.taskId == id
    && forall s | s in SpecsOf(r.ops[j]) && s.taskId == id :: s == spec
  }

  lemma OnlySpec(specs: seq<QueueSubmitSpec>, spec: QueueSubmitSpec)
    requires spec in specs && forall i, j | 0 <= i < j < |specs| :: specs[i].taskId != specs[j].taskId
    ensures forall s | s in specs && s.taskId == spec.taskId :: s == spec
  {
    var k :| 0 <= k < |specs| && specs[k] == spec;
    assert forall m | 0 <= m < |specs| && specs[m].taskId == spec.taskId :: m == k;
  }

  /** A new task is PENDING and untouched, unless its batch was taken back. */
  lemma NewRowBelongs(b: Backend, r: Run, i: nat, id: TaskId) returns (spec: QueueSubmitSpec)
    requires IsRun(b, r) && i < |r.ops| && RowAt(b, r, i, id).None? && RowAt(b, r, i + 1, id).Some?
    ensures CreatedBy(b, r, i, id, spec)
    ensures var p := RowAt(b, r, i + 1, id).value;
      if b.Postgres? && r.answers[i] == Batch(EnqueueError)
      then BelongsTo(p, spec, TimeOf(r.ops[i])) && p.status == FAILED && p.error == OtherError("enqueue")
      else AsSubmitted(p, spec, TimeOf(r.ops[i]))
  {
    var op, answer := r.ops[i], r.answers[i];
    RowStep(b, r, i, id);
    assert Link(b, r, i);
    if op.Submit? {
      spec := op.spec;
    } else {
      spec := FindSpec(SavedSpecs(b, op, answer), id).value;
      assert spec in op.specs;
      QueueCapacity.AdmittedAreNew(b, r.states[i], op);
      OnlySpec(op.specs, spec);
    }
  }

  /** Every task of a run is that of the spec it was created from, at whatever point and in whatever state: its input,
      parent, timeout, retry bound and time of creation never change. */
  lemma {:induction false} RowBelongsToItsSpec(b: Backend, r: Run, i: nat, id: TaskId) returns (j: nat, spec: QueueSubmitSpec)
    requires IsRun(b, r) && i <= |r.ops| && RowAt(b, r, i, id).Some?
    ensures j < i && CreatedBy(b, r, j, id, spec)
    ensures BelongsTo(RowAt(b, r, i, id).value, spec, TimeOf(r.ops[j]))
  {
    assert i > 0;
    if RowAt(b, r, i - 1, id).None? {
      j := i - 1;
      spec := NewRowBelongs(b, r, j, id);
    } else {
      j, spec := RowBelongsToItsSpec(b, r, i - 1, id);
      RowMoves(b, r, i - 1, id);
    }
  }

  // --- what the callers get ------------------------------------------------------------------------

  /** A worker is handed the task as it was submitted, however often it was requeued, as its own from now until its
      timeout has passed; and that is what is stored. */
  lemma WorkerGetsTheSpec(b: Backend, r: Run, i: nat, p: TaskPayload) returns (j: nat, spec: QueueSubmitSpec)
    requires IsRun(b, r) && i < |r.ops| && r.answers[i] == Claimed(Some(p))
    ensures r.ops[i].Claim? && j < i && CreatedBy(b, r, j, p.taskId, spec) && BelongsTo(p, spec, TimeOf(r.ops[j]))
    ensures p.status == RUNNING && p.workerId == r.ops[i].worker && p.startedAt == r.ops[i].claimedAt
    ensures p.leaseExpiresAt == r.ops[i].claimedAt + spec.timeoutSeconds && p.result == None && p.error == NoError
    ensures RowAt(b, r, i + 1, p.taskId) == Some(p)
  {
    var q, op := r.states[i], r.ops[i];
    assert Link(b, r, i);
    ReachableInv(b, r, i);
    ClaimAt(b, q, op.worker, op.claimedAt, p.taskId);
    RowStep(b, r, i, p.taskId);
    j, spec := RowBelongsToItsSpec(b, r, i, p.taskId);
    RowMoves(b, r, i, p.taskId);
  }

  /** The answers to a submission and to an accepted batch are the specs' tasks, untouched. */
  lemma SubmittersGetTheirSpecs(b: Backend, q: QueueState, op: Op)
    ensures op.Submit? ==> Step(b, q, op).1.Submitted? && AsSubmitted(Step(b, q, op).1.payload, op.spec, op.createdAt)
    ensures op.SubmitMany? && Step(b, q, op).1.result.Accepted? ==>
      var ps := Step(b, q, op).1.result.payloads;
      |ps| == |op.specs| && forall k | 0 <= k < |ps| :: AsSubmitted(ps[k], op.specs[k], op.builtAt)
  {
  }
}
