/** What holds after every queue method, in every legal run of any length. */
module QueueInvariant {
  import opened Wrappers
  import opened TaskTypes
  import opened TaskRows
  import opened Sequences
  import opened QueueSpec
  import opened TaskLife

  ghost predicate RowsOk(m: Rows) { forall id | id in m :: RowOk(id, m[id]) }

  /** With persistence, each cached payload in Redis equals its row. */
  ghost predicate Coherent(q: QueueState) {
    forall id | id in q.keys :: id in q.rows && q.keys[id] == q.rows[id]
  }

  /** The list holds ids of known tasks only. */
  ghost predicate ListKnown(m: Rows, list: seq<TaskId>) {
    forall id | id in list :: id in m
  }

  /** Every pending task can be popped: its id is in the Redis list. */
  ghost predicate PendingListed(m: Rows, list: seq<TaskId>) {
    forall id | id in m && m[id].status == PENDING :: id in list
  }

  ghost predicate Inv(b: Backend, q: QueueState) {
    && RowsOk(Tasks(b, q))
    && ListKnown(Tasks(b, q), q.list)
    && (b.Postgres? ==> Coherent(q))
    && (b.RedisOnly? ==> q.index == q.keys.Keys)
  }

  // --- rows ----------------------------------------------------------------------------------

  lemma RowAfterOk(b: Backend, row: Option<TaskPayload>, op: Op, answer: Answer, id: TaskId)
    requires row.Some? ==> RowOk(id, row.value)
    requires op.Claim? && row.Some? && answer.Claimed? && answer.task.Some? && answer.task.value.taskId == id
             ==> row.value.status == PENDING
    ensures RowAfter(b, row, op, answer, id).Some? ==> RowOk(id, RowAfter(b, row, op, answer, id).value)
  {
  }

  lemma ClaimAnswerPending(b: Backend, q: QueueState, op: Op, id: TaskId)
    requires KeyedById(Tasks(b, q)) && op.Claim?
    ensures var answer := Step(b, q, op).1;
            answer.task.Some? ==> answer.task.value.taskId in Tasks(b, q) && Tasks(b, q)[answer.task.value.taskId].status == PENDING
  {
    ClaimAt(b, q, op.worker, op.claimedAt, id);
  }

  lemma StepKeepsRowsOk(b: Backend, q: QueueState, op: Op)
    requires Inv(b, q) && WellFormedOp(b, q, op)
    ensures RowsOk(Tasks(b, Step(b, q, op).0))
  {
    var (q', answer) := Step(b, q, op);
    forall id | id in Tasks(b, q') ensures RowOk(id, Tasks(b, q')[id]) {
      StepActsPerTask(b, q, op, id);
      if op.Claim? { ClaimAnswerPending(b, q, op, id); }
      RowAfterOk(b, Lookup(Tasks(b, q), id), op, answer, id);
    }
  }

  // --- cache coherence -----------------------------------------------------------------------

  lemma {:induction false} ClaimKeepsCoherent(q: QueueState, worker: WorkerId, now: Time)
    requires Coherent(q) && KeyedById(q.rows)
    ensures Coherent(ClaimStep(Postgres, q, worker, now).0)
    decreases |q.list|
  {
    if q.list != [] {
      var last := |q.list| - 1;
      var (q1, p) := ClaimPopped(Postgres, q.(list := q.list[..last]), q.list[last], worker, now);
      if p.None? { ClaimKeepsCoherent(q1, worker, now); }
    }
  }

  lemma {:induction false} RecoverKeepsCoherent(q: QueueState, stale: seq<TaskPayload>)
    requires Coherent(q) && KeyedById(q.rows)
    ensures Coherent(RecoverAll(Postgres, q, stale).0)
    decreases |stale|
  {
    if stale != [] {
      RecoverKeepsCoherent(RecoverOne(Postgres, q, stale[0]).0, stale[1..]);
    }
  }

  lemma {:induction false} StatusesKeepCoherent(q: QueueState, ids: seq<TaskId>)
    requires Coherent(q) && KeyedById(q.rows)
    ensures Coherent(Statuses(Postgres, q, ids).0) && KeyedById(Statuses(Postgres, q, ids).0.rows)
    decreases |ids|
  {
    if ids != [] { StatusesKeepCoherent(GetStatus(Postgres, q, ids[0]).0, ids[1..]); }
  }

  lemma {:induction false} FailStuckKeepsCoherent(q: QueueState, ids: seq<TaskId>, statuses: seq<Option<TaskPayload>>, now: Time)
    requires |ids| == |statuses| && Coherent(q) && KeyedById(q.rows)
    ensures Coherent(FailStuck(Postgres, q, ids, statuses, now).0)
    decreases |ids|
  {
    if ids != [] {
      var q1 := if statuses[0].None? then q else FailStuckOne(Postgres, q, ids[0], statuses[0].value, now).0;
      FailStuckKeepsCoherent(q1, ids[1..], statuses[1..], now);
    }
  }

  lemma SubmitManyKeepsCoherent(q: QueueState, op: Op)
    requires Coherent(q) && op.SubmitMany?
    ensures Coherent(Step(Postgres, q, op).0)
  {
    var specs, now := op.specs, op.builtAt;
    var ps := BuildPayloads(specs, now);
    var (q', answer) := Step(Postgres, q, op);
    var rows := SaveManyWithCapacity(q.rows, ps, op.maxActive).0;
    EnqueueKeepsTasks(q.(rows := rows), ps);
    if Strikes(op.fault, ps) && op.fault.value.PushRaises? {
      EnqueueKeepsTasks(q.(rows := rows), ps[..op.fault.value.at]);
    }
    assert q'.keys == q.keys;
    forall id | id in q.keys ensures Lookup(q'.rows, id) == Some(q.keys[id]) {
      SubmitManyAt(Postgres, q, op, id);
      if ps != [] && DistinctFresh(q.rows, ps) { DistinctSpecs(specs, now, q.rows); }
    }
  }

  /** Cached payloads equal their rows at the end of every queue method, accepted or rejected. */
  lemma StepKeepsCoherent(q: QueueState, op: Op)
    requires Coherent(q) && KeyedById(q.rows)
    ensures Coherent(Step(Postgres, q, op).0)
  {
    match op
    case Submit(spec, now) =>
      EnqueueKeepsTasks(SavePayload(Postgres, q, BuildPayload(spec, now)), [BuildPayload(spec, now)]);
    case SubmitMany(_, _, _, _) => SubmitManyKeepsCoherent(q, op);
    case Claim(worker, now) => ClaimKeepsCoherent(q, worker, now);
    case Recover(now, order) => RecoverKeepsCoherent(q, StaleSnapshot(Postgres, q.rows, now, order));
    case WaitPoll(ids, deadline, now, stuckAt) =>
      if ids != [] {
        var (q1, statuses) := Statuses(Postgres, q, ids);
        StatusesKeepCoherent(q, ids);
        FailStuckKeepsCoherent(q1, ids, statuses, stuckAt);
      }
    case _ =>
  }

  // --- the list and the index ----------------------------------------------------------------

  /** The pop loop only ever discards ids of tasks that are not pending. */
  lemma {:induction false} ClaimDropsNoPending(b: Backend, q: QueueState, worker: WorkerId, now: Time, id: TaskId)
    requires KeyedById(Tasks(b, q)) && id in q.list && id in Tasks(b, q) && Tasks(b, q)[id].status == PENDING
    ensures var (q', p) := ClaimStep(b, q, worker, now); id in q'.list || (p.Some? && p.value.taskId == id)
    decreases |q.list|
  {
    var last := |q.list| - 1;
    var (q1, p) := ClaimPopped(b, q.(list := q.list[..last]), q.list[last], worker, now);
    assert q.list == q.list[..last] + [q.list[last]];
    if p.None? && id in q.list[..last] { ClaimDropsNoPending(b, q1, worker, now, id); }
  }

  /** A task a batch on Redis alone leaves where no claim finds it: Redis raises at the list push of a payload that the
      batch, within the bound, has just saved. */
  ghost predicate HidesTask(b: Backend, q: QueueState, op: Op) {
    && b.RedisOnly? && op.SubmitMany? && op.fault.Some? && op.fault.value.PushRaises?
    && var ps := BuildPayloads(op.specs, op.builtAt);
       op.fault.value.at < |ps| && SameParent(ps) && |RedisActive(q, ps[0].parentTaskId)| + |ps| <= op.maxActive
  }

  /** In a list of distinct specs each is found by its id, and in a prefix only if it is there. */
  lemma SpecIsFound(specs: seq<QueueSubmitSpec>, n: nat, k: nat)
    requires n <= |specs| && k < |specs| && forall i, j | 0 <= i < j < |specs| :: specs[i].taskId != specs[j].taskId
    ensures FindSpec(specs[..n], specs[k].taskId) == if k < n then Some(specs[k]) else None
  {
    var found := FindSpec(specs[..n], specs[k].taskId);
    assert k < n ==> specs[..n][k] == specs[k];
    assert forall m | 0 <= m < n && specs[m].taskId == specs[k].taskId :: m == k;
  }

  lemma HiddenTask(q: QueueState, op: Op)
    requires Inv(RedisOnly, q) && WellFormedOp(RedisOnly, q, op) && HidesTask(RedisOnly, q, op)
    ensures var id, q' := op.specs[op.fault.value.at].taskId, Step(RedisOnly, q, op).0;
      id in q'.keys && q'.keys[id].status == PENDING && id !in q'.list
  {
    var at := op.fault.value.at;
    var id := op.specs[at].taskId;
    DistinctSpecs(op.specs, op.builtAt, q.keys);
    SubmitManyAt(RedisOnly, q, op, id);
    BatchLists(RedisOnly, q, op, id);
    SpecIsFound(op.specs, at, at);
    SpecIsFound(op.specs, at + 1, at);
  }

  lemma BatchPendingIsListed(b: Backend, q: QueueState, op: Op, id: TaskId)
    requires op.SubmitMany? && PendingListed(Tasks(b, q), q.list) && WellFormedOp(b, q, op) && !HidesTask(b, q, op)
    requires id in Tasks(b, Step(b, q, op).0) && Tasks(b, Step(b, q, op).0)[id].status == PENDING
    ensures id in Step(b, q, op).0.list
  {
    SubmitManyAt(b, q, op, id);
    BatchLists(b, q, op, id);
  }

  /** A batch leaves every pending task listed exactly unless one of its list pushes raises on Redis alone. */
  lemma BatchHidesIff(b: Backend, q: QueueState, op: Op)
    requires op.SubmitMany? && Inv(b, q) && PendingListed(Tasks(b, q), q.list) && WellFormedOp(b, q, op)
    ensures PendingListed(Tasks(b, Step(b, q, op).0), Step(b, q, op).0.list) <==> !HidesTask(b, q, op)
  {
    if HidesTask(b, q, op) {
      HiddenTask(q, op);
    } else {
      forall id | id in Tasks(b, Step(b, q, op).0) && Tasks(b, Step(b, q, op).0)[id].status == PENDING
        ensures id in Step(b, q, op).0.list
      {
        BatchPendingIsListed(b, q, op, id);
      }
    }
  }

  lemma SubmitManyKeepsIndex(q: QueueState, op: Op)
    requires op.SubmitMany? && Inv(RedisOnly, q) && WellFormedOp(RedisOnly, q, op)
    ensures Step(RedisOnly, q, op).0.index == Step(RedisOnly, q, op).0.keys.Keys
  {
    var (q', answer) := Step(RedisOnly, q, op);
    var saved := SavedSpecs(RedisOnly, op, answer);
    RedisBatchEffect(q, op);
    EnqueueKeepsTasks(q, BuildPayloads(saved, op.builtAt));
    forall id ensures id in q'.index <==> id in q'.keys {
      SubmitManyAt(RedisOnly, q, op, id);
      FindSpecInPayloads(saved, op.builtAt, id);
      assert id in q'.keys <==> Lookup(q'.keys, id).Some?;
    }
  }

  lemma SubmitLists(b: Backend, q: QueueState, op: Op)
    requires op.Submit?
    ensures Step(b, q, op).0.list == [op.spec.taskId] + q.list
  {
    var p := BuildPayload(op.spec, op.createdAt);
    var q1 := SavePayload(b, q, p);
    assert EnqueueMany(q1, [p]) == LPush(q1.(index := q1.index + {p.taskId}), p.taskId);
  }

  /** Only known tasks are pushed. */
  lemma OnlyKnownPushed(b: Backend, q: QueueState, op: Op, id: TaskId)
    requires Inv(b, q) && WellFormedOp(b, q, op) && !op.SubmitMany? && id in Step(b, q, op).0.list
    ensures id in q.list || id in Tasks(b, q) || (op.Submit? && op.spec.taskId == id)
  {
    match op
    case Submit(_, _) => SubmitLists(b, q, op);
    case Claim(worker, now) => ClaimAt(b, q, worker, now, id);
    case Recover(now, order) =>
      RecoverAt(b, q, now, order, id);
      SnapshotEntries(b, Tasks(b, q), now, order);
      RequeuedOnly(StaleSnapshot(b, Tasks(b, q), now, order), q.list, id);
    case Cancel(i) => WithoutShape(q.list, i);
    case WaitPoll(_, _, _, _) => WaitPollAt(b, q, op, id);
    case _ =>
  }

  lemma PushedAreSaved(b: Backend, op: Op, answer: Answer, id: TaskId)
    requires op.SubmitMany? && FindSpec(PushedSpecs(b, op, answer), id).Some?
    ensures FindSpec(SavedSpecs(b, op, answer), id).Some?
  {
    var pushed, saved := PushedSpecs(b, op, answer), SavedSpecs(b, op, answer);
    var i :| 0 <= i < |pushed| && pushed[i].taskId == id;
    assert i < |saved| && saved[i] == op.specs[i] == pushed[i];
  }

  lemma ListedIsKnown(b: Backend, q: QueueState, op: Op, id: TaskId)
    requires Inv(b, q) && WellFormedOp(b, q, op) && id in Step(b, q, op).0.list
    ensures id in Tasks(b, Step(b, q, op).0)
  {
    StepActsPerTask(b, q, op, id);
    if op.SubmitMany? {
      BatchLists(b, q, op, id);
      if id !in q.list { PushedAreSaved(b, op, Step(b, q, op).1, id); }
    } else {
      OnlyKnownPushed(b, q, op, id);
    }
  }

  lemma OthersStayListed(b: Backend, q: QueueState, op: Op, id: TaskId)
    requires Inv(b, q) && PendingListed(Tasks(b, q), q.list) && WellFormedOp(b, q, op)
    requires op.Submit? || op.Complete? || op.Fail? || op.RenewLease? || op.Cancel?
    requires id in Tasks(b, Step(b, q, op).0) && Tasks(b, Step(b, q, op).0)[id].status == PENDING
    ensures id in Step(b, q, op).0.list
  {
    StepActsPerTask(b, q, op, id);
    if op.Submit? { SubmitLists(b, q, op); }
    if op.Cancel? { WithoutShape(q.list, op.id); }
  }

  lemma PendingStaysListed(b: Backend, q: QueueState, op: Op, id: TaskId)
    requires Inv(b, q) && PendingListed(Tasks(b, q), q.list) && WellFormedOp(b, q, op) && !op.SubmitMany?
    requires id in Tasks(b, Step(b, q, op).0) && Tasks(b, Step(b, q, op).0)[id].status == PENDING
    ensures id in Step(b, q, op).0.list
  {
    match op
    case Claim(worker, now) =>
      ClaimAt(b, q, worker, now, id);
      ClaimDropsNoPending(b, q, worker, now, id);
    case Recover(now, order) => RecoverAt(b, q, now, order, id);
    case WaitPoll(_, _, _, _) => WaitPollAt(b, q, op, id);
    case _ => OthersStayListed(b, q, op, id);
  }

  /** No method loses a pending task, it stays claimable through the list, exactly unless a raising push on Redis alone
      hides it. */
  lemma StepKeepsPendingListed(b: Backend, q: QueueState, op: Op)
    requires Inv(b, q) && PendingListed(Tasks(b, q), q.list) && WellFormedOp(b, q, op)
    ensures PendingListed(Tasks(b, Step(b, q, op).0), Step(b, q, op).0.list) <==> !HidesTask(b, q, op)
  {
    if op.SubmitMany? {
      BatchHidesIff(b, q, op);
    } else {
      forall id | id in Tasks(b, Step(b, q, op).0) && Tasks(b, Step(b, q, op).0)[id].status == PENDING
        ensures id in Step(b, q, op).0.list
      {
        PendingStaysListed(b, q, op, id);
      }
    }
  }

  lemma StepKeepsIndex(q: QueueState, op: Op)
    requires Inv(RedisOnly, q) && WellFormedOp(RedisOnly, q, op)
    ensures Step(RedisOnly, q, op).0.index == Step(RedisOnly, q, op).0.keys.Keys
  {
    var b := RedisOnly;
    var (q', answer) := Step(b, q, op);
    if op.SubmitMany? { SubmitManyKeepsIndex(q, op); return; }
    forall id ensures id in q'.index <==> id in q'.keys {
      StepActsPerTask(b, q, op, id);
      assert id in q'.keys <==> Lookup(q'.keys, id).Some?;
      match op
      case Submit(spec, now) =>
        EnqueueKeepsTasks(SavePayload(b, q, BuildPayload(spec, now)), [BuildPayload(spec, now)]);
        assert [BuildPayload(spec, now)][0].taskId == spec.taskId;
      case Claim(worker, now) => ClaimAt(b, q, worker, now, id);
      case Recover(now, order) => RecoverAt(b, q, now, order, id);
      case WaitPoll(_, _, _, _) => WaitPollAt(b, q, op, id);
      case _ =>
    }
  }

  lemma StepKeepsInv(b: Backend, q: QueueState, op: Op)
    requires Inv(b, q) && WellFormedOp(b, q, op)
    ensures Inv(b, Step(b, q, op).0)
  {
    StepKeepsRowsOk(b, q, op);
    forall id | id in Step(b, q, op).0.list ensures id in Tasks(b, Step(b, q, op).0) { ListedIsKnown(b, q, op, id); }
    if b.Postgres? { StepKeepsCoherent(q, op); } else { StepKeepsIndex(q, op); }
  }

  /** Main invariant: rows well-formed, only known ids listed, cache and index in agreement, at every point of every run,
      whenever Redis raises during a batch. */
  lemma {:induction false} ReachableInv(b: Backend, r: Run, i: nat)
    requires IsRun(b, r) && i <= |r.ops|
    ensures Inv(b, r.states[i])
  {
    if i > 0 {
      ReachableInv(b, r, i - 1);
      assert Link(b, r, i - 1);
      StepKeepsInv(b, r.states[i - 1], r.ops[i - 1]);
    }
  }

  /** Nothing pending is lost at any point of a run exactly if no list push of a batch raised on Redis alone before. */
  lemma {:induction false} NothingHiddenIff(b: Backend, r: Run, i: nat)
    requires IsRun(b, r) && i <= |r.ops|
    ensures (forall k | 0 <= k <= i :: PendingListed(Tasks(b, r.states[k]), r.states[k].list))
       <==> (forall k | 0 <= k < i :: !HidesTask(b, r.states[k], r.ops[k]))
  {
    if i > 0 {
      NothingHiddenIff(b, r, i - 1);
      ReachableInv(b, r, i - 1);
      assert Link(b, r, i - 1);
      if PendingListed(Tasks(b, r.states[i - 1]), r.states[i - 1].list) {
        StepKeepsPendingListed(b, r.states[i - 1], r.ops[i - 1]);
      }
    }
  }

  const LONE_SPEC := QueueSubmitSpec("t", "", "p", 10.0, 1)

  /** Such a batch, from the empty queue: its one task is pending, and a claim finds nothing. */
  lemma RaisingPushHidesTask()
    ensures var op := SubmitMany([LONE_SPEC], 1, 1.0, Some(PushRaises(0)));
      && LegalOp(RedisOnly, EMPTY_QUEUE, op) && HidesTask(RedisOnly, EMPTY_QUEUE, op)
      && var (q, answer) := Step(RedisOnly, EMPTY_QUEUE, op);
         && answer == Batch(EnqueueError) && Lookup(q.keys, "t") == Some(BuildPayload(LONE_SPEC, 1.0))
         && ClaimStep(RedisOnly, q, "w", 2.0).1 == None
  {
    assert RedisActive(EMPTY_QUEUE, "p") == {};
  }

  /** A claim answers None only when no task at all is pending: the queue hides no work. */
  lemma ClaimNoneIffNothingPending(b: Backend, q: QueueState, worker: WorkerId, now: Time)
    requires Inv(b, q) && PendingListed(Tasks(b, q), q.list)
    ensures ClaimStep(b, q, worker, now).1.None?
       <==> forall id | id in Tasks(b, q) :: Tasks(b, q)[id].status != PENDING
  {
    ClaimAt(b, q, worker, now, "");
    if ClaimStep(b, q, worker, now).1.None? {
      forall id | id in Tasks(b, q) ensures Tasks(b, q)[id].status != PENDING {
        if Tasks(b, q)[id].status == PENDING {
          ClaimDropsNoPending(b, q, worker, now, id);
          EmptyAfterNone(b, q, worker, now);
        }
      }
    }
  }

  lemma {:induction false} EmptyAfterNone(b: Backend, q: QueueState, worker: WorkerId, now: Time)
    requires ClaimStep(b, q, worker, now).1.None?
    ensures ClaimStep(b, q, worker, now).0.list == []
    decreases |q.list|
  {
    if q.list != [] {
      var last := |q.list| - 1;
      EmptyAfterNone(b, ClaimPopped(b, q.(list := q.list[..last]), q.list[last], worker, now).0, worker, now);
    }
  }
}
