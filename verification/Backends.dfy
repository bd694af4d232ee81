/** One abstract machine behind both backends: the row store and the Redis-only guards give the same answers and reach
    the same tasks, list and flags, step by step and run by run. */
module Backends {
  import opened Wrappers
  import opened TaskTypes
  import opened TaskRows
  import opened Sequences
  import opened QueueSpec
  import opened TaskLife
  import opened QueueInvariant
  import opened QueueHistory

  // --- the abstract machine: tasks, list, flags, no backend ------------------------------------

  datatype Machine = Machine(tasks: Rows, list: seq<TaskId>, flags: set<TaskId>)

  function View(b: Backend, q: QueueState): Machine { Machine(Tasks(b, q), q.list, q.flags) }

  ghost function MachineAnswer(tasks: Rows, list: seq<TaskId>, op: Op): Answer {
    match op
    case Submit(spec, now) => Submitted(BuildPayload(spec, now))
    case SubmitMany(specs, maxActive, now, _) =>
      var ps := BuildPayloads(specs, now);
      Batch(if ps != [] && !SameParent(ps) then ParentMismatch
            else if ps != [] && |ActiveChildren(tasks, ps[0].parentTaskId)| + |ps| > maxActive then CapacityExceeded
            else Accepted(ps))
    case Claim(worker, now) =>
      var found := PopPending(tasks, list).0;
      Claimed(if found.Some? then Some(ClaimRow(tasks[found.value], worker, now)) else None)
    case Complete(id, _, worker) => Flag(id in tasks && CanComplete(tasks[id], worker))
    case Fail(id, _, worker) => Flag(id in tasks && CanFail(tasks[id], worker))
    case Recover(now, order) => Count(Requeued(StaleSnapshot(Postgres, tasks, now, order), list).1)
    case RenewLease(_, _, _) => Nothing
    case Cancel(id) => Flag(id in tasks && Active(tasks[id]))
    case WaitPoll(ids, deadline, now, stuckAt) =>
      Waited(if ids == [] || AllDone(tasks, ids) || (deadline.Some? && now > deadline.value)
             then Some(WaitAnswers(Postgres, tasks, ids, stuckAt)) else None)
  }

  ghost function MachineList(tasks: Rows, list: seq<TaskId>, op: Op): seq<TaskId> {
    match op
    case Submit(spec, now) => [spec.taskId] + list
    case SubmitMany(specs, _, now, _) =>
      if MachineAnswer(tasks, list, op).result.Accepted?
      then EnqueueMany(EMPTY_QUEUE.(list := list), BuildPayloads(specs, now)).list else list
    case Claim(_, _) => PopPending(tasks, list).1
    case Recover(now, order) => Requeued(StaleSnapshot(Postgres, tasks, now, order), list).0
    case Cancel(id) => if id in tasks && tasks[id].status == PENDING then Without(list, id) else list
    case _ => list
  }

  ghost function MachineFlags(tasks: Rows, flags: set<TaskId>, op: Op): set<TaskId> {
    if op.Cancel? && op.id in tasks && Active(tasks[op.id]) then flags + {op.id} else flags
  }

  function CreatedIds(op: Op): set<TaskId> {
    match op
    case Submit(spec, _) => {spec.taskId}
    case SubmitMany(specs, _, _, _) => set i | 0 <= i < |specs| :: specs[i].taskId
    case _ => {}
  }

  /** Every task moves as its own row and the answer say. */
  ghost function MachineTasks(tasks: Rows, op: Op, answer: Answer): Rows {
    map id | id in tasks.Keys + CreatedIds(op) && RowAfter(Postgres, Lookup(tasks, id), op, answer, id).Some?
      :: RowAfter(Postgres, Lookup(tasks, id), op, answer, id).value
  }

  ghost function MachineStep(m: Machine, op: Op): (Machine, Answer) {
    var answer := MachineAnswer(m.tasks, m.list, op);
    (Machine(MachineTasks(m.tasks, op, answer), MachineList(m.tasks, m.list, op), MachineFlags(m.tasks, m.flags, op)), answer)
  }

  // --- where the two backends can differ -------------------------------------------------------

  /** The row store's view of the bound. */
  ghost predicate WithinBound(tasks: Rows, ps: seq<TaskPayload>, maxActive: nat) {
    ps == [] || (SameParent(ps) && |ActiveChildren(tasks, ps[0].parentTaskId)| + |ps| <= maxActive)
  }

  /** A batch is portable unless it is all for the empty parent and only the parentless tasks the row store counts push it
      over the bound, or it is within the bound and repeats an id, names a known task, or Redis raises while it is pushed. */
  ghost predicate PortableBatch(tasks: Rows, ps: seq<TaskPayload>, maxActive: nat, fault: Option<Fault>) {
    && !(ps != [] && SameParent(ps) && ps[0].parentTaskId == "" && |ps| <= maxActive && !WithinBound(tasks, ps, maxActive))
    && (WithinBound(tasks, ps, maxActive) ==> DistinctFresh(tasks, ps) && !Strikes(fault, ps))
  }

  /** The operations both backends treat alike: a condition on the tasks and the call before it is made (and on whether
      Redis raises during it). */
  ghost predicate Portable(tasks: Rows, op: Op) {
    match op
    case SubmitMany(specs, maxActive, now, fault) => PortableBatch(tasks, BuildPayloads(specs, now), maxActive, fault)
    case Complete(id, _, _) => id in tasks
    case Fail(id, _, _) => id in tasks
    case RenewLease(id, now, extension) =>
      id in tasks && tasks[id].status == RUNNING ==> tasks[id].leaseExpiresAt == now + extension
    case _ => true
  }

  /** The scan of either backend lists every task once. */
  ghost predicate FullScan(tasks: Rows, op: Op) { op.Recover? ==> ListsIds(tasks.Keys, op.order) }

  ghost predicate LeasesFixed(tasks: Rows) {
    forall id | id in tasks :: LeaseIsStartPlusTimeout(tasks[id])
  }

  // --- each backend refines the machine --------------------------------------------------------

  lemma {:induction false} SnapshotsAgree(tasks: Rows, now: Time, order: seq<TaskId>)
    requires LeasesFixed(tasks)
    ensures StaleSnapshot(RedisOnly, tasks, now, order) == StaleSnapshot(Postgres, tasks, now, order)
    decreases |order|
  {
    if order != [] {
      if order[0] in tasks { StaleAgrees(tasks[order[0]], now); }
      SnapshotsAgree(tasks, now, order[1..]);
    }
  }

  lemma {:induction false} WaitAnswersAgree(tasks: Rows, ids: seq<TaskId>, now: Time)
    requires RowsOk(tasks)
    ensures WaitAnswers(RedisOnly, tasks, ids, now) == WaitAnswers(Postgres, tasks, ids, now)
    decreases |ids|
  {
    if ids != [] {
      if ids[0] in tasks { assert RowOk(ids[0], tasks[ids[0]]); }
      WaitAnswersAgree(tasks, ids[1..], now);
    }
  }

  lemma QuietFault(b: Backend, q: QueueState, op: Op)
    requires op.SubmitMany? && !Strikes(op.fault, BuildPayloads(op.specs, op.builtAt))
    ensures Step(b, q, op) == Step(b, q, op.(fault := None))
  {
  }

  /** What Redis alone counts against the bound. */
  lemma RedisBound(q: QueueState, ps: seq<TaskPayload>)
    requires Inv(RedisOnly, q) && ps != []
    ensures RedisActive(q, ps[0].parentTaskId)
         == if ps[0].parentTaskId == "" then {} else ActiveChildren(q.keys, ps[0].parentTaskId)
  {
  }

  lemma RejectedBatch(b: Backend, q: QueueState, op: Op)
    requires op.SubmitMany? && Inv(b, q) && Portable(Tasks(b, q), op)
    requires !WithinBound(Tasks(b, q), BuildPayloads(op.specs, op.builtAt), op.maxActive)
    ensures Step(b, q, op).0 == q && Step(b, q, op).1 == MachineAnswer(Tasks(b, q), q.list, op)
    ensures !Step(b, q, op).1.result.Accepted? && !Step(b, q, op).1.result.EnqueueError?
  {
    if b.RedisOnly? { RedisBound(q, BuildPayloads(op.specs, op.builtAt)); }
  }

  lemma AcceptedBatch(b: Backend, q: QueueState, op: Op)
    requires op.SubmitMany? && Inv(b, q) && Portable(Tasks(b, q), op) && op.fault.None?
    requires WithinBound(Tasks(b, q), BuildPayloads(op.specs, op.builtAt), op.maxActive)
    ensures Step(b, q, op).1 == MachineAnswer(Tasks(b, q), q.list, op)
    ensures Step(b, q, op).0.list == MachineList(Tasks(b, q), q.list, op) && Step(b, q, op).0.flags == q.flags
  {
    var ps := BuildPayloads(op.specs, op.builtAt);
    match b
    case Postgres =>
      var q1 := q.(rows := SaveManyWithCapacity(q.rows, ps, op.maxActive).0);
      EnqueueKeepsTasks(q1, ps);
      EnqueueActsSeparately(q1, EMPTY_QUEUE.(list := q.list), ps);
    case RedisOnly =>
      if ps != [] { RedisBound(q, ps); }
      SaveAndEnqueueAllEffect(q, ps);
      EnqueueActsSeparately(q, EMPTY_QUEUE.(list := q.list), ps);
  }

  lemma RefinesRecover(b: Backend, q: QueueState, op: Op)
    requires op.Recover? && Inv(b, q) && LeasesFixed(Tasks(b, q)) && ListsIds(Tasks(b, q).Keys, op.order)
    ensures Step(b, q, op).1 == MachineAnswer(Tasks(b, q), q.list, op)
    ensures Step(b, q, op).0.list == MachineList(Tasks(b, q), q.list, op) && Step(b, q, op).0.flags == q.flags
  {
    RecoverAt(b, q, op.now, op.order, "");
    SnapshotsAgree(Tasks(b, q), op.now, op.order);
  }

  lemma RefinesWait(b: Backend, q: QueueState, op: Op)
    requires op.WaitPoll? && Inv(b, q)
    ensures Step(b, q, op).1 == MachineAnswer(Tasks(b, q), q.list, op)
    ensures Step(b, q, op).0.list == q.list && Step(b, q, op).0.flags == q.flags
  {
    WaitPollAt(b, q, op, "");
    WaitPollAnswer(b, q, op);
    WaitAnswersAgree(Tasks(b, q), op.ids, op.stuckAt);
  }

  lemma RefinesUpdate(b: Backend, q: QueueState, op: Op)
    requires op.Complete? || op.Fail? || op.Cancel? || op.RenewLease?
    requires Inv(b, q) && Portable(Tasks(b, q), op)
    ensures Step(b, q, op).1 == MachineAnswer(Tasks(b, q), q.list, op)
    ensures Step(b, q, op).0.list == MachineList(Tasks(b, q), q.list, op)
    ensures Step(b, q, op).0.flags == MachineFlags(Tasks(b, q), q.flags, op)
  {
    if op.Complete? || op.Fail? {
      assert RowOk(op.id, Tasks(b, q)[op.id]);
      GuardsAgree(Tasks(b, q)[op.id], op.worker);
    }
  }

  /** On well-formed rows the effect on a row does not depend on the backend either. */
  lemma RowAfterAgrees(row: Option<TaskPayload>, op: Op, answer: Answer, id: TaskId)
    requires row.Some? ==> RowOk(id, row.value) && LeaseIsStartPlusTimeout(row.value)
    requires op.RenewLease? && op.id == id && row.Some? && row.value.status == RUNNING
             ==> row.value.leaseExpiresAt == op.now + op.extension
    requires answer != Batch(EnqueueError)
    ensures RowAfter(RedisOnly, row, op, answer, id) == RowAfter(Postgres, row, op, answer, id)
    ensures var row' := RowAfter(Postgres, row, op, answer, id); row'.Some? ==> LeaseIsStartPlusTimeout(row'.value)
  {
  }

  lemma LookupMachineTasks(tasks: Rows, op: Op, answer: Answer, id: TaskId)
    ensures Lookup(MachineTasks(tasks, op, answer), id) == RowAfter(Postgres, Lookup(tasks, id), op, answer, id)
  {
    if op.SubmitMany? && FindSpec(op.specs, id).Some? {
      var i :| 0 <= i < |op.specs| && op.specs[i] == FindSpec(op.specs, id).value;
      assert op.specs[i].taskId in CreatedIds(op);
    }
  }

  lemma SameLookupsSameMap(m: Rows, n: Rows)
    requires forall id :: Lookup(m, id) == Lookup(n, id)
    ensures m == n
  {
    assert forall id :: id in m <==> Lookup(m, id).Some?;
    assert forall id :: id in n <==> Lookup(n, id).Some?;
    assert forall id | id in m :: Lookup(m, id) == Some(m[id]) && Lookup(n, id) == Some(n[id]);
  }

  /** The tasks move as the machine says, given that the backend answers as the machine does. */
  lemma TasksRefine(b: Backend, q: QueueState, op: Op)
    requires Inv(b, q) && WellFormedOp(b, q, op) && LeasesFixed(Tasks(b, q)) && Portable(Tasks(b, q), op)
    requires Step(b, q, op).1 == MachineAnswer(Tasks(b, q), q.list, op)
    ensures Tasks(b, Step(b, q, op).0) == MachineTasks(Tasks(b, q), op, Step(b, q, op).1)
    ensures LeasesFixed(Tasks(b, Step(b, q, op).0)) && Inv(b, Step(b, q, op).0)
  {
    var tasks, tasks', answer := Tasks(b, q), Tasks(b, Step(b, q, op).0), Step(b, q, op).1;
    forall id
      ensures Lookup(tasks', id) == Lookup(MachineTasks(tasks, op, answer), id)
      ensures id in tasks' ==> LeaseIsStartPlusTimeout(tasks'[id])
    {
      StepActsPerTask(b, q, op, id);
      RowAfterAgrees(Lookup(tasks, id), op, answer, id);
      LookupMachineTasks(tasks, op, answer, id);
      assert id in tasks' ==> Lookup(tasks', id) == Some(tasks'[id]);
    }
    SameLookupsSameMap(tasks', MachineTasks(tasks, op, answer));
    StepKeepsInv(b, q, op);
  }

  /** On the row store's side of `RowAfter` a fault shows in the answer only. */
  lemma QuietMachineTasks(tasks: Rows, op: Op, answer: Answer)
    requires op.SubmitMany?
    ensures MachineTasks(tasks, op.(fault := None), answer) == MachineTasks(tasks, op, answer)
  {
    var quiet, loud := MachineTasks(tasks, op.(fault := None), answer), MachineTasks(tasks, op, answer);
    forall id ensures Lookup(quiet, id) == Lookup(loud, id) {
      LookupMachineTasks(tasks, op.(fault := None), answer, id);
      LookupMachineTasks(tasks, op, answer, id);
    }
    SameLookupsSameMap(quiet, loud);
  }

  lemma RejectedMachineTasks(tasks: Rows, op: Op, answer: Answer)
    requires op.SubmitMany? && SavedSpecs(Postgres, op, answer) == []
    ensures MachineTasks(tasks, op, answer) == tasks
  {
    forall id ensures Lookup(MachineTasks(tasks, op, answer), id) == Lookup(tasks, id) {
      LookupMachineTasks(tasks, op, answer, id);
    }
    SameLookupsSameMap(MachineTasks(tasks, op, answer), tasks);
  }

  lemma AcceptedRefines(b: Backend, q: QueueState, op: Op)
    requires op.SubmitMany? && Inv(b, q) && LeasesFixed(Tasks(b, q)) && Portable(Tasks(b, q), op) && op.fault.None?
    requires WithinBound(Tasks(b, q), BuildPayloads(op.specs, op.builtAt), op.maxActive)
    ensures (View(b, Step(b, q, op).0), Step(b, q, op).1) == MachineStep(View(b, q), op)
    ensures LeasesFixed(Tasks(b, Step(b, q, op).0)) && Inv(b, Step(b, q, op).0)
  {
    AcceptedBatch(b, q, op);
    TasksRefine(b, q, op);
  }

  lemma BatchRefines(b: Backend, q: QueueState, op: Op)
    requires op.SubmitMany? && Inv(b, q) && LeasesFixed(Tasks(b, q)) && Portable(Tasks(b, q), op)
    ensures (View(b, Step(b, q, op).0), Step(b, q, op).1) == MachineStep(View(b, q), op)
    ensures LeasesFixed(Tasks(b, Step(b, q, op).0)) && Inv(b, Step(b, q, op).0)
  {
    if WithinBound(Tasks(b, q), BuildPayloads(op.specs, op.builtAt), op.maxActive) {
      QuietFault(b, q, op);
      AcceptedRefines(b, q, op.(fault := None));
      QuietMachineTasks(Tasks(b, q), op, Step(b, q, op).1);
    } else {
      RejectedBatch(b, q, op);
      RejectedMachineTasks(Tasks(b, q), op, Step(b, q, op).1);
    }
  }

  lemma AnswersRefine(b: Backend, q: QueueState, op: Op)
    requires !op.SubmitMany? && Inv(b, q) && LeasesFixed(Tasks(b, q)) && Portable(Tasks(b, q), op) && FullScan(Tasks(b, q), op)
    ensures Step(b, q, op).1 == MachineAnswer(Tasks(b, q), q.list, op)
    ensures Step(b, q, op).0.list == MachineList(Tasks(b, q), q.list, op)
    ensures Step(b, q, op).0.flags == MachineFlags(Tasks(b, q), q.flags, op)
  {
    match op
    case Submit(spec, now) =>
      var q1 := SavePayload(b, q, BuildPayload(spec, now));
      assert EnqueueMany(q1, [BuildPayload(spec, now)]) == LPush(q1.(index := q1.index + {spec.taskId}), spec.taskId);
    case Claim(worker, now) => ClaimAt(b, q, worker, now, "");
    case Recover(_, _) => RefinesRecover(b, q, op);
    case WaitPoll(_, _, _, _) => RefinesWait(b, q, op);
    case _ => RefinesUpdate(b, q, op);
  }

  /** Refinement: on every portable operation each backend takes the machine's step, tasks, list, flags and answer. */
  lemma RefinesMachine(b: Backend, q: QueueState, op: Op)
    requires Inv(b, q) && LeasesFixed(Tasks(b, q)) && Portable(Tasks(b, q), op) && FullScan(Tasks(b, q), op)
    ensures (View(b, Step(b, q, op).0), Step(b, q, op).1) == MachineStep(View(b, q), op)
    ensures LeasesFixed(Tasks(b, Step(b, q, op).0)) && Inv(b, Step(b, q, op).0)
  {
    if op.SubmitMany? {
      BatchRefines(b, q, op);
    } else {
      AnswersRefine(b, q, op);
      TasksRefine(b, q, op);
    }
  }

  // --- the two backends side by side -----------------------------------------------------------

  /** The states a row-store queue and a Redis-only queue can share. */
  ghost predicate Related(p: QueueState, k: QueueState) {
    Inv(Postgres, p) && Inv(RedisOnly, k) && View(Postgres, p) == View(RedisOnly, k) && LeasesFixed(p.rows)
  }

  ghost predicate SameStep(p: QueueState, k: QueueState, op: Op) {
    && Step(Postgres, p, op).1 == Step(RedisOnly, k, op).1
    && View(Postgres, Step(Postgres, p, op).0) == View(RedisOnly, Step(RedisOnly, k, op).0)
  }

  lemma PortableStepsAgree(p: QueueState, k: QueueState, op: Op)
    requires Related(p, k) && FullScan(p.rows, op) && Portable(p.rows, op)
    ensures SameStep(p, k, op) && Related(Step(Postgres, p, op).0, Step(RedisOnly, k, op).0)
  {
    RefinesMachine(Postgres, p, op);
    RefinesMachine(RedisOnly, k, op);
  }

  /** When Redis raises during an accepted batch, the row store fails all of it and Redis alone leaves some of it pending. */
  lemma FaultDiffers(p: QueueState, k: QueueState, op: Op)
    requires Related(p, k) && op.SubmitMany?
    requires var ps := BuildPayloads(op.specs, op.builtAt);
      WithinBound(p.rows, ps, op.maxActive) && DistinctFresh(p.rows, ps) && Strikes(op.fault, ps)
    ensures !SameStep(p, k, op)
  {
    var ps := BuildPayloads(op.specs, op.builtAt);
    if ps != [] { RedisBound(k, ps); }
    if op.fault.value.at < |ps| {
      var id := op.specs[op.fault.value.at].taskId;
      assert op.specs[..op.fault.value.at + 1][op.fault.value.at].taskId == id;
      SubmitManyAt(Postgres, p, op, id);
      SubmitManyAt(RedisOnly, k, op, id);
    }
  }

  lemma OtherBatchesDiffer(p: QueueState, k: QueueState, op: Op)
    requires Related(p, k) && op.SubmitMany? && !Portable(p.rows, op)
    requires var ps := BuildPayloads(op.specs, op.builtAt);
      !(WithinBound(p.rows, ps, op.maxActive) && DistinctFresh(p.rows, ps) && Strikes(op.fault, ps))
    ensures Step(Postgres, p, op).1 != Step(RedisOnly, k, op).1
  {
    RedisBound(k, BuildPayloads(op.specs, op.builtAt));
  }

  /** Exactly the portable operations are treated alike. */
  lemma BackendsAgreeIff(p: QueueState, k: QueueState, op: Op)
    requires Related(p, k) && FullScan(p.rows, op)
    ensures SameStep(p, k, op) <==> Portable(p.rows, op)
  {
    if Portable(p.rows, op) {
      PortableStepsAgree(p, k, op);
    } else if op.SubmitMany? {
      var ps := BuildPayloads(op.specs, op.builtAt);
      if WithinBound(p.rows, ps, op.maxActive) && DistinctFresh(p.rows, ps) && Strikes(op.fault, ps) {
        FaultDiffers(p, k, op);
      } else {
        OtherBatchesDiffer(p, k, op);
      }
    } else if op.RenewLease? {
      StepActsPerTask(Postgres, p, op, op.id);
    }
  }

  ghost predicate PortableRun(r: Run) {
    forall i | 0 <= i < |r.ops| && i < |r.states| :: Portable(r.states[i].rows, r.ops[i])
  }

  /** The main result: over any run of portable operations both backends give the same answers and the same tasks. */
  lemma {:induction false} BackendsAgree(p: Run, k: Run, i: nat)
    requires IsRun(Postgres, p) && IsRun(RedisOnly, k) && p.ops == k.ops && PortableRun(p)
    requires i <= |p.ops|
    ensures Related(p.states[i], k.states[i])
    ensures forall j | 0 <= j < i :: p.answers[j] == k.answers[j]
  {
    if i > 0 {
      BackendsAgree(p, k, i - 1);
      assert Link(Postgres, p, i - 1) && Link(RedisOnly, k, i - 1);
      PortableStepsAgree(p.states[i - 1], k.states[i - 1], p.ops[i - 1]);
    }
  }
}
