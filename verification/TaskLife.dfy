/** Every queue step seen from one task: what happens to a row depends on that row, the operation and its answer only. */
module TaskLife {
  import opened Wrappers
  import opened TaskTypes
  import opened TaskRows
  import opened QueueSpec

  /** The spec in a batch that carries this id, if any. */
  function FindSpec(specs: seq<QueueSubmitSpec>, id: TaskId): (r: Option<QueueSubmitSpec>)
    ensures r.None? ==> forall i | 0 <= i < |specs| :: specs[i].taskId != id
    ensures r.Some? ==> r.value in specs && r.value.taskId == id
  {
    if specs == [] then None
    else if specs[0].taskId == id then Some(specs[0]) else FindSpec(specs[1..], id)
  }

  /** The specs of a batch whose payloads have been saved when it answers: none when it is rejected, all with the row
      store or when nothing raises, and on Redis alone those up to the one at whose push or time-to-live Redis raises. */
  function SavedSpecs(b: Backend, op: Op, answer: Answer): (saved: seq<QueueSubmitSpec>)
    requires op.SubmitMany?
    ensures saved <= op.specs
    ensures saved != [] ==> answer.Batch? && (answer.result.Accepted? || answer.result.EnqueueError?)
  {
    if !answer.Batch? || !(answer.result.Accepted? || answer.result.EnqueueError?) then []
    else if b.RedisOnly? && answer.result.EnqueueError? && op.fault.Some? && op.fault.value.at < |op.specs|
    then op.specs[..op.fault.value.at + 1]
    else op.specs
  }

  /** Of those, the ones whose ids reached the list: up to the one whose push raises. */
  function PushedSpecs(b: Backend, op: Op, answer: Answer): (pushed: seq<QueueSubmitSpec>)
    requires op.SubmitMany?
    ensures pushed <= op.specs
  {
    var saved := SavedSpecs(b, op, answer);
    if saved != [] && answer.result.EnqueueError? && op.fault.Some? && op.fault.value.PushRaises? && op.fault.value.at < |op.specs|
    then op.specs[..op.fault.value.at]
    else saved
  }

  /** The whole effect of one operation on the row stored under `id`. */
  function RowAfter(b: Backend, row: Option<TaskPayload>, op: Op, answer: Answer, id: TaskId): Option<TaskPayload> {
    match op
    case Submit(spec, now) => if spec.taskId == id then Some(BuildPayload(spec, now)) else row
    case SubmitMany(_, _, now, _) =>
      var spec := FindSpec(SavedSpecs(b, op, answer), id);
      if spec.None? then row
      else if b.Postgres? && answer.result.EnqueueError?
      then Some(FailRow(Postgres, BuildPayload(spec.value, now), OtherError("enqueue")))
      else Some(BuildPayload(spec.value, now))
    case Claim(worker, now) =>
      if row.Some? && answer.Claimed? && answer.task.Some? && answer.task.value.taskId == id
      then Some(ClaimRow(row.value, worker, now)) else row
    case Complete(i, result, worker) =>
      if i == id && row.Some? && CompleteAllowed(b, row.value, worker) then Some(CompleteRow(row.value, result)) else row
    case Fail(i, error, worker) =>
      if i == id && row.Some? && FailAllowed(b, row.value, worker) then Some(FailRow(b, row.value, error)) else row
    case Recover(now, _) =>
      if row.Some? && Stale(b, row.value, now) then Some(RecoverRow(b, row.value)) else row
    case RenewLease(i, now, extension) =>
      if b.Postgres? && i == id && row.Some? && row.value.status == RUNNING
      then Some(row.value.(leaseExpiresAt := now + extension)) else row
    case Cancel(i) =>
      if i == id && row.Some? && row.value.status == PENDING then Some(CancelRow(row.value)) else row
    case WaitPoll(ids, deadline, now, stuckAt) =>
      if id in ids && deadline.Some? && now > deadline.value && row.Some? && Active(row.value)
         && !ShouldDetach(row.value, stuckAt)
      then Some(FailRow(b, row.value, WaitTimeout)) else row
  }

  ghost predicate KeyedById(m: Rows) { forall id | id in m :: m[id].taskId == id }

  // --- one lemma per operation ---------------------------------------------------------------

  lemma {:induction false} EnqueueKeepsTasks(q: QueueState, ps: seq<TaskPayload>)
    ensures var q' := EnqueueMany(q, ps);
            q'.rows == q.rows && q'.keys == q.keys && q'.flags == q.flags
    ensures forall id :: id in q.list ==> id in EnqueueMany(q, ps).list
    ensures forall i | 0 <= i < |ps| :: ps[i].taskId in EnqueueMany(q, ps).list
    ensures forall id :: id in EnqueueMany(q, ps).index <==> id in q.index || exists i | 0 <= i < |ps| :: ps[i].taskId == id
    decreases |ps|
  {
    if ps != [] {
      EnqueueKeepsTasks(LPush(q.(index := q.index + {ps[0].taskId}), ps[0].taskId), ps[1..]);
      forall i | 0 <= i < |ps| ensures ps[i].taskId in EnqueueMany(q, ps).list {
        assert i > 0 ==> ps[i] == ps[1..][i - 1];
      }
      forall id ensures id in EnqueueMany(q, ps).index <==> id in q.index || exists i | 0 <= i < |ps| :: ps[i].taskId == id {
        assert (exists i | 0 <= i < |ps| :: ps[i].taskId == id)
          <==> ps[0].taskId == id || exists i | 0 <= i < |ps[1..]| :: ps[1..][i].taskId == id by {
          if i :| 0 <= i < |ps| && ps[i].taskId == id && i > 0 { assert ps[1..][i - 1].taskId == id; }
          if i :| 0 <= i < |ps[1..]| && ps[1..][i].taskId == id { assert ps[i + 1].taskId == id; }
        }
      }
    }
  }

  lemma {:induction false} AddRowsAt(rows: Rows, specs: seq<QueueSubmitSpec>, now: Time, id: TaskId)
    requires forall i, j | 0 <= i < j < |specs| :: specs[i].taskId != specs[j].taskId
    ensures Lookup(AddRows(rows, BuildPayloads(specs, now)), id)
         == if FindSpec(specs, id).Some? then Some(BuildPayload(FindSpec(specs, id).value, now)) else Lookup(rows, id)
    decreases |specs|
  {
    var ps := BuildPayloads(specs, now);
    if specs != [] {
      assert ps[1..] == BuildPayloads(specs[1..], now);
      AddRowsAt(rows[ps[0].taskId := ps[0]], specs[1..], now, id);
    }
  }

  /** Failing a just-saved batch again leaves each of its rows failed and every other row alone. */
  lemma {:induction false} FailSavedAt(rows: Rows, ps: seq<TaskPayload>, id: TaskId)
    ensures Lookup(FailSaved(rows, ps), id)
         == if id in rows && Active(rows[id]) && (exists i | 0 <= i < |ps| :: ps[i].taskId == id)
            then Some(FailRow(Postgres, rows[id], OtherError("enqueue"))) else Lookup(rows, id)
    decreases |ps|
  {
    if ps != [] {
      FailSavedAt(FailInRows(rows, ps[0].taskId, OtherError("enqueue"), "").0, ps[1..], id);
      if i :| 0 <= i < |ps| && ps[i].taskId == id && i > 0 { assert ps[1..][i - 1].taskId == id; }
      if i :| 0 <= i < |ps[1..]| && ps[1..][i].taskId == id { assert ps[i + 1].taskId == id; }
    }
  }

  lemma {:induction false} SaveAndEnqueueAllEffect(q: QueueState, ps: seq<TaskPayload>)
    ensures var q' := SaveAndEnqueueAll(q, ps);
            q'.keys == AddRows(q.keys, ps) && q'.rows == q.rows && q'.flags == q.flags
    ensures SaveAndEnqueueAll(q, ps).list == EnqueueMany(q, ps).list
    ensures SaveAndEnqueueAll(q, ps).index == EnqueueMany(q, ps).index
    decreases |ps|
  {
    if ps != [] {
      var q1 := EnqueueMany(SavePayload(RedisOnly, q, ps[0]), [ps[0]]);
      assert EnqueueMany(SavePayload(RedisOnly, q, ps[0]), [ps[0]])
          == LPush(SavePayload(RedisOnly, q, ps[0]).(index := q.index + {ps[0].taskId}), ps[0].taskId);
      SaveAndEnqueueAllEffect(q1, ps[1..]);
      EnqueueActsSeparately(q1, LPush(q.(index := q.index + {ps[0].taskId}), ps[0].taskId), ps[1..]);
    }
  }

  /** What pushing does to the list depends on the list alone, and likewise for the index. */
  lemma {:induction false} EnqueueActsSeparately(q1: QueueState, q2: QueueState, ps: seq<TaskPayload>)
    ensures q1.list == q2.list ==> EnqueueMany(q1, ps).list == EnqueueMany(q2, ps).list
    ensures q1.index == q2.index ==> EnqueueMany(q1, ps).index == EnqueueMany(q2, ps).index
    decreases |ps|
  {
    if ps != [] {
      EnqueueActsSeparately(LPush(q1.(index := q1.index + {ps[0].taskId}), ps[0].taskId),
                            LPush(q2.(index := q2.index + {ps[0].taskId}), ps[0].taskId), ps[1..]);
    }
  }

  lemma FindSpecInPayloads(specs: seq<QueueSubmitSpec>, now: Time, id: TaskId)
    ensures FindSpec(specs, id).Some?
       <==> exists i | 0 <= i < |BuildPayloads(specs, now)| :: BuildPayloads(specs, now)[i].taskId == id
  {
    var ps := BuildPayloads(specs, now);
    assert forall i | 0 <= i < |ps| :: ps[i].taskId == specs[i].taskId;
    if FindSpec(specs, id).Some? {
      var i :| 0 <= i < |specs| && specs[i] == FindSpec(specs, id).value;
      assert ps[i].taskId == id;
    }
  }

  lemma DistinctSpecs(specs: seq<QueueSubmitSpec>, now: Time, rows: Rows)
    requires DistinctFresh(rows, BuildPayloads(specs, now))
    ensures forall i, j | 0 <= i < j < |specs| :: specs[i].taskId != specs[j].taskId
    ensures forall i | 0 <= i < |specs| :: specs[i].taskId !in rows
  {
    var ps := BuildPayloads(specs, now);
    forall i, j | 0 <= i < j < |specs| ensures specs[i].taskId != specs[j].taskId {
      assert ps[i].taskId != ps[j].taskId;
    }
    forall i | 0 <= i < |specs| ensures specs[i].taskId !in rows { assert ps[i].taskId !in rows; }
  }

  lemma {:induction false} AddRowsSnoc(rows: Rows, ps: seq<TaskPayload>, p: TaskPayload)
    ensures AddRows(rows, ps + [p]) == AddRows(rows, ps)[p.taskId := p]
    decreases |ps|
  {
    if ps == [] {
      assert [] + [p] == [p] && [p][1..] == [];
    } else {
      assert (ps + [p])[0] == ps[0] && (ps + [p])[1..] == ps[1..] + [p];
      AddRowsSnoc(rows[ps[0].taskId := ps[0]], ps[1..], p);
    }
  }

  lemma {:induction false} EnqueueSnoc(q: QueueState, ps: seq<TaskPayload>, p: TaskPayload)
    ensures var q' := EnqueueMany(q, ps); EnqueueMany(q, ps + [p]) == LPush(q'.(index := q'.index + {p.taskId}), p.taskId)
    decreases |ps|
  {
    if ps == [] {
      assert [] + [p] == [p] && [p][1..] == [];
    } else {
      assert (ps + [p])[0] == ps[0] && (ps + [p])[1..] == ps[1..] + [p];
      EnqueueSnoc(LPush(q.(index := q.index + {ps[0].taskId}), ps[0].taskId), ps[1..], p);
    }
  }

  lemma BuildPrefix(specs: seq<QueueSubmitSpec>, now: Time, n: nat)
    requires n <= |specs|
    ensures BuildPayloads(specs, now)[..n] == BuildPayloads(specs[..n], now)
  {
  }

  lemma SaveAndEnqueueUpToEffect(q: QueueState, ps: seq<TaskPayload>, fault: Fault)
    requires fault.at < |ps|
    ensures var q', saved, pushed := SaveAndEnqueueUpTo(q, ps, fault), ps[..fault.at + 1],
                                     if fault.PushRaises? then ps[..fault.at] else ps[..fault.at + 1];
      && q'.keys == AddRows(q.keys, saved) && q'.rows == q.rows && q'.flags == q.flags
      && q'.list == EnqueueMany(q, pushed).list && q'.index == EnqueueMany(q, saved).index
  {
    var before, p := ps[..fault.at], ps[fault.at];
    var q1 := SavePayload(RedisOnly, SaveAndEnqueueAll(q, before), p);
    assert ps[..fault.at + 1] == before + [p];
    SaveAndEnqueueAllEffect(q, before);
    AddRowsSnoc(q.keys, before, p);
    EnqueueSnoc(q, before, p);
    assert EnqueueMany(q1, [p]) == LPush(q1.(index := q1.index + {p.taskId}), p.taskId);
    assert [p][..0] == [] && EnqueueMany(q1, []) == q1;
  }

  /** The queue after a batch on Redis alone that has saved and indexed the one and listed the other. */
  ghost predicate SavedAndListed(q: QueueState, q': QueueState, saved: seq<TaskPayload>, pushed: seq<TaskPayload>) {
    && q'.keys == AddRows(q.keys, saved) && q'.rows == q.rows && q'.flags == q.flags
    && q'.list == EnqueueMany(q, pushed).list && q'.index == EnqueueMany(q, saved).index
  }

  lemma BrokenBatchEffect(q: QueueState, op: Op)
    requires op.SubmitMany? && Step(RedisOnly, q, op).1 == Batch(EnqueueError)
    ensures op.fault.Some? && op.fault.value.at < |op.specs|
    ensures var at := op.fault.value.at;
      var saved := BuildPayloads(op.specs[..at + 1], op.builtAt);
      SavedAndListed(q, Step(RedisOnly, q, op).0, saved,
                     if op.fault.value.PushRaises? then BuildPayloads(op.specs[..at], op.builtAt) else saved)
  {
    var at := op.fault.value.at;
    BuildPrefix(op.specs, op.builtAt, at);
    BuildPrefix(op.specs, op.builtAt, at + 1);
    SaveAndEnqueueUpToEffect(q, BuildPayloads(op.specs, op.builtAt), op.fault.value);
  }

  /** A batch on Redis alone: what it has saved and indexed, and what of it is in the list. */
  lemma RedisBatchEffect(q: QueueState, op: Op)
    requires op.SubmitMany?
    ensures var (q', answer) := Step(RedisOnly, q, op);
      SavedAndListed(q, q', BuildPayloads(SavedSpecs(RedisOnly, op, answer), op.builtAt),
                     BuildPayloads(PushedSpecs(RedisOnly, op, answer), op.builtAt))
  {
    var (q', answer) := Step(RedisOnly, q, op);
    if answer.result.EnqueueError? {
      BrokenBatchEffect(q, op);
    } else if answer.result.Accepted? {
      assert SavedSpecs(RedisOnly, op, answer) == op.specs && PushedSpecs(RedisOnly, op, answer) == op.specs;
      SaveAndEnqueueAllEffect(q, BuildPayloads(op.specs, op.builtAt));
    } else {
      assert SavedSpecs(RedisOnly, op, answer) == [] && PushedSpecs(RedisOnly, op, answer) == [];
      assert q' == q && SavedAndListed(q, q, BuildPayloads([], op.builtAt), BuildPayloads([], op.builtAt));
    }
  }

  lemma RedisBatchAt(q: QueueState, op: Op, id: TaskId)
    requires op.SubmitMany? && WellFormedOp(RedisOnly, q, op)
    ensures Lookup(Step(RedisOnly, q, op).0.keys, id)
         == RowAfter(RedisOnly, Lookup(q.keys, id), op, Step(RedisOnly, q, op).1, id)
  {
    DistinctSpecs(op.specs, op.builtAt, q.keys);
    RedisBatchEffect(q, op);
    AddRowsAt(q.keys, SavedSpecs(RedisOnly, op, Step(RedisOnly, q, op).1), op.builtAt, id);
  }

  /** The rows after the compensation are the saved ones failed again, whatever was pushed before. */
  lemma CompensatedRows(q: QueueState, op: Op)
    requires op.SubmitMany? && Step(Postgres, q, op).1 == Batch(EnqueueError)
    ensures var ps := BuildPayloads(op.specs, op.builtAt); Step(Postgres, q, op).0.rows == FailSaved(AddRows(q.rows, ps), ps)
  {
    var ps := BuildPayloads(op.specs, op.builtAt);
    var q1 := q.(rows := SaveManyWithCapacity(q.rows, ps, op.maxActive).0);
    EnqueueKeepsTasks(q1, ps);
    if op.fault.value.PushRaises? { EnqueueKeepsTasks(q1, ps[..op.fault.value.at]); }
  }

  lemma AcceptedRows(q: QueueState, op: Op)
    requires op.SubmitMany? && Step(Postgres, q, op).1.result.Accepted?
    ensures Step(Postgres, q, op).0.rows == AddRows(q.rows, BuildPayloads(op.specs, op.builtAt))
  {
    var ps := BuildPayloads(op.specs, op.builtAt);
    EnqueueKeepsTasks(q.(rows := SaveManyWithCapacity(q.rows, ps, op.maxActive).0), ps);
  }

  lemma StoreBatchAt(q: QueueState, op: Op, id: TaskId)
    requires op.SubmitMany?
    ensures Lookup(Step(Postgres, q, op).0.rows, id)
         == RowAfter(Postgres, Lookup(q.rows, id), op, Step(Postgres, q, op).1, id)
  {
    var ps, result := BuildPayloads(op.specs, op.builtAt), Step(Postgres, q, op).1.result;
    if result.Accepted? || result.EnqueueError? {
      if ps != [] { DistinctSpecs(op.specs, op.builtAt, q.rows); }
      AddRowsAt(q.rows, op.specs, op.builtAt, id);
      if result.Accepted? {
        AcceptedRows(q, op);
      } else {
        CompensatedRows(q, op);
        FailSavedAt(AddRows(q.rows, ps), ps, id);
        FindSpecInPayloads(op.specs, op.builtAt, id);
      }
    }
  }

  lemma StoreBatchList(q: QueueState, op: Op)
    requires op.SubmitMany?
    ensures var (q', answer) := Step(Postgres, q, op);
      q'.list == EnqueueMany(q, BuildPayloads(PushedSpecs(Postgres, op, answer), op.builtAt)).list
  {
    var ps := BuildPayloads(op.specs, op.builtAt);
    var answer := Step(Postgres, q, op).1;
    var q1 := q.(rows := SaveManyWithCapacity(q.rows, ps, op.maxActive).0);
    var pushed := BuildPayloads(PushedSpecs(Postgres, op, answer), op.builtAt);
    EnqueueActsSeparately(q1, q, pushed);
    if answer.result.EnqueueError? && op.fault.value.PushRaises? { BuildPrefix(op.specs, op.builtAt, op.fault.value.at); }
  }

  lemma {:induction false} PushedOnly(q: QueueState, ps: seq<TaskPayload>, id: TaskId)
    requires forall i | 0 <= i < |ps| :: ps[i].taskId != id
    ensures id in EnqueueMany(q, ps).list ==> id in q.list
    decreases |ps|
  {
    if ps != [] { PushedOnly(LPush(q.(index := q.index + {ps[0].taskId}), ps[0].taskId), ps[1..], id); }
  }

  /** On either backend a batch adds to the list exactly the ids of the payloads it pushed. */
  lemma BatchLists(b: Backend, q: QueueState, op: Op, id: TaskId)
    requires op.SubmitMany?
    ensures var (q', answer) := Step(b, q, op);
      id in q'.list <==> id in q.list || FindSpec(PushedSpecs(b, op, answer), id).Some?
  {
    var pushed := PushedSpecs(b, op, Step(b, q, op).1);
    var ps := BuildPayloads(pushed, op.builtAt);
    if b.Postgres? { StoreBatchList(q, op); } else { RedisBatchEffect(q, op); }
    FindSpecInPayloads(pushed, op.builtAt, id);
    EnqueueKeepsTasks(q, ps);
    if FindSpec(pushed, id).None? { PushedOnly(q, ps, id); }
  }

  lemma SubmitManyAt(b: Backend, q: QueueState, op: Op, id: TaskId)
    requires op.SubmitMany? && WellFormedOp(b, q, op)
    ensures Lookup(Tasks(b, Step(b, q, op).0), id) == RowAfter(b, Lookup(Tasks(b, q), id), op, Step(b, q, op).1, id)
  {
    match b
    case Postgres => StoreBatchAt(q, op, id);
    case RedisOnly => RedisBatchAt(q, op, id);
  }

  /** The pop loop as a search: the last listed id whose task is pending, and what is left of the list. */
  function PopPending(tasks: Rows, list: seq<TaskId>): (r: (Option<TaskId>, seq<TaskId>))
    ensures r.0.Some? ==> r.0.value in tasks && tasks[r.0.value].status == PENDING
    ensures forall x :: x in r.1 ==> x in list
  {
    if list == [] then (None, [])
    else
      var last := |list| - 1;
      if list[last] in tasks && tasks[list[last]].status == PENDING then (Some(list[last]), list[..last])
      else PopPending(tasks, list[..last])
  }

  /** A claim takes the row the search finds, if any, and answers with exactly what it wrote. */
  lemma {:induction false} ClaimAt(b: Backend, q: QueueState, worker: WorkerId, now: Time, id: TaskId)
    requires KeyedById(Tasks(b, q))
    ensures var (q', p) := ClaimStep(b, q, worker, now);
            var (found, rest) := PopPending(Tasks(b, q), q.list);
            && p == (if found.Some? then Some(ClaimRow(Tasks(b, q)[found.value], worker, now)) else None)
            && q'.list == rest && q'.flags == q.flags && q'.index == q.index
            && Lookup(Tasks(b, q'), id) == (if found == Some(id) then p else Lookup(Tasks(b, q), id))
    decreases |q.list|
  {
    if q.list != [] {
      var last := |q.list| - 1;
      var (q1, p) := ClaimPopped(b, q.(list := q.list[..last]), q.list[last], worker, now);
      if p.None? { ClaimAt(b, q1, worker, now, id); }
    }
  }

  /** The snapshot holds exactly the stale rows, each once. */
  lemma {:induction false} SnapshotEntries(b: Backend, tasks: Rows, now: Time, order: seq<TaskId>)
    requires KeyedById(tasks)
    requires forall i, j | 0 <= i < j < |order| :: order[i] != order[j]
    ensures var s := StaleSnapshot(b, tasks, now, order);
            && (forall p :: p in s <==> p.taskId in order && p.taskId in tasks && p == tasks[p.taskId] && Stale(b, p, now))
            && (forall i, j | 0 <= i < j < |s| :: s[i].taskId != s[j].taskId)
    decreases |order|
  {
    if order != [] {
      var rest := StaleSnapshot(b, tasks, now, order[1..]);
      SnapshotEntries(b, tasks, now, order[1..]);
      assert order == [order[0]] + order[1..];
      assert forall k | 0 <= k < |order[1..]| :: order[1..][k] == order[k + 1];
      assert forall i | 0 <= i < |rest| :: rest[i] in rest && rest[i].taskId in order[1..];
    }
  }

  /** Recovering one row whose snapshot is still current touches that row only. */
  lemma RecoverOneAt(b: Backend, q: QueueState, p: TaskPayload, id: TaskId)
    requires p.taskId in Tasks(b, q) && Tasks(b, q)[p.taskId] == p && p.status == RUNNING
    ensures var (q', outcome) := RecoverOne(b, q, p);
            && Lookup(Tasks(b, q'), id)
               == (if id == p.taskId then Some(RecoverRow(b, p)) else Lookup(Tasks(b, q), id))
            && q'.flags == q.flags && q'.index == q.index
            && q'.list == (if p.retryCount < p.maxRetries then [p.taskId] + q.list else q.list)
            && (outcome == Recovered <==> p.retryCount < p.maxRetries)
  {
  }

  /** The list after recovery: the ids of the retried tasks pushed in scan order. */
  function Requeued(stale: seq<TaskPayload>, list: seq<TaskId>): (r: (seq<TaskId>, nat))
    ensures forall x :: x in list ==> x in r.0
    ensures forall i | 0 <= i < |stale| && stale[i].retryCount < stale[i].maxRetries :: stale[i].taskId in r.0
    decreases |stale|
  {
    if stale == [] then (list, 0)
    else
      var retry := stale[0].retryCount < stale[0].maxRetries;
      var (l, n) := Requeued(stale[1..], if retry then [stale[0].taskId] + list else list);
      assert forall i | 0 < i < |stale| :: stale[i] == stale[1..][i - 1];
      assert retry ==> stale[0].taskId in [stale[0].taskId] + list;
      (l, n + if retry then 1 else 0)
  }

  /** Nothing else is pushed. */
  lemma {:induction false} RequeuedOnly(stale: seq<TaskPayload>, list: seq<TaskId>, id: TaskId)
    requires id in Requeued(stale, list).0
    ensures id in list || exists i :: 0 <= i < |stale| && stale[i].taskId == id
    decreases |stale|
  {
    if stale != [] {
      var pushed := if stale[0].retryCount < stale[0].maxRetries then [stale[0].taskId] + list else list;
      RequeuedOnly(stale[1..], pushed, id);
      if i :| 0 <= i < |stale[1..]| && stale[1..][i].taskId == id { assert stale[i + 1].taskId == id; }
    }
  }

  lemma {:induction false} RecoverAllAt(b: Backend, q: QueueState, stale: seq<TaskPayload>, id: TaskId)
    requires forall i | 0 <= i < |stale| ::
      stale[i].taskId in Tasks(b, q) && Tasks(b, q)[stale[i].taskId] == stale[i] && stale[i].status == RUNNING
    requires forall i, j | 0 <= i < j < |stale| :: stale[i].taskId != stale[j].taskId
    ensures var q' := RecoverAll(b, q, stale).0;
            && Lookup(Tasks(b, q'), id)
               == (if id in Tasks(b, q) && Tasks(b, q)[id] in stale && Tasks(b, q)[id].taskId == id
                   then Some(RecoverRow(b, Tasks(b, q)[id])) else Lookup(Tasks(b, q), id))
            && q'.flags == q.flags && q'.index == q.index
            && (q'.list, RecoverAll(b, q, stale).1) == Requeued(stale, q.list)
    decreases |stale|
  {
    if stale != [] {
      var p := stale[0];
      var q1 := RecoverOne(b, q, p).0;
      forall i | 0 <= i < |stale[1..]|
        ensures stale[1..][i].taskId in Tasks(b, q1) && Tasks(b, q1)[stale[1..][i].taskId] == stale[1..][i]
      {
        assert stale[1..][i] == stale[i + 1];
        RecoverOneAt(b, q, p, stale[i + 1].taskId);
      }
      RecoverOneAt(b, q, p, id);
      RecoverAllAt(b, q1, stale[1..], id);
      if id == p.taskId {
        assert forall i | 0 <= i < |stale[1..]| :: stale[1..][i].taskId != id;
      }
    }
  }

  lemma RecoverAt(b: Backend, q: QueueState, now: Time, order: seq<TaskId>, id: TaskId)
    requires KeyedById(Tasks(b, q)) && ListsIds(Tasks(b, q).Keys, order)
    ensures var q' := RecoverStep(b, q, now, order).0;
            && Lookup(Tasks(b, q'), id)
               == (if id in Tasks(b, q) && Stale(b, Tasks(b, q)[id], now) then Some(RecoverRow(b, Tasks(b, q)[id]))
                   else Lookup(Tasks(b, q), id))
            && q'.flags == q.flags && q'.index == ScannedIndex(b, q, order).index
            && (q'.list, RecoverStep(b, q, now, order).1) == Requeued(StaleSnapshot(b, Tasks(b, q), now, order), q.list)
            && (id in Tasks(b, q) && Stale(b, Tasks(b, q)[id], now) && Tasks(b, q)[id].retryCount < Tasks(b, q)[id].maxRetries
                ==> id in q'.list)
  {
    var tasks := Tasks(b, q);
    var q0 := ScannedIndex(b, q, order);
    var s := StaleSnapshot(b, tasks, now, order);
    SnapshotEntries(b, tasks, now, order);
    assert forall i | 0 <= i < |s| :: s[i] in s;
    RecoverAllAt(b, q0, s, id);
    if id in tasks && Stale(b, tasks[id], now) && tasks[id].retryCount < tasks[id].maxRetries {
      assert tasks[id] in s;
      var i :| 0 <= i < |s| && s[i] == tasks[id];
    }
  }

  /** Looking at tasks changes no task and pushes nothing. */
  lemma {:induction false} StatusesKeep(b: Backend, q: QueueState, ids: seq<TaskId>)
    requires KeyedById(Tasks(b, q))
    requires b.Postgres? ==> forall id | id in q.keys :: id in q.rows
    ensures var (q', statuses) := Statuses(b, q, ids);
            && q' == q.(keys := q'.keys) && Tasks(b, q') == Tasks(b, q)
            && (forall i | 0 <= i < |ids| :: statuses[i] == Lookup(Tasks(b, q), ids[i]))
            && (b.Postgres? ==> forall id | id in q'.keys :: id in q.rows && (q'.keys[id] == q.rows[id] || (id in q.keys && q'.keys[id] == q.keys[id])))
    decreases |ids|
  {
    if ids != [] {
      var (q1, s) := GetStatus(b, q, ids[0]);
      StatusesKeep(b, q1, ids[1..]);
      var (q2, rest) := Statuses(b, q1, ids[1..]);
      forall i | 0 <= i < |ids| ensures ([s] + rest)[i] == Lookup(Tasks(b, q), ids[i]) {
        assert i > 0 ==> ids[i] == ids[1..][i - 1];
      }
    }
  }

  /** The row a poll started from, or that row already failed by this very poll. */
  ghost predicate SeenOrFailed(b: Backend, seen: TaskPayload, row: TaskPayload, now: Time) {
    || row == seen
    || (Active(seen) && !ShouldDetach(seen, now) && row == FailRow(b, seen, WaitTimeout))
  }

  function StuckRow(b: Backend, seen: TaskPayload, now: Time): TaskPayload {
    if Active(seen) && !ShouldDetach(seen, now) then FailRow(b, seen, WaitTimeout) else seen
  }

  /** What a timed-out parent gets for one known task: a detached copy while its lease is alive, its final row otherwise. */
  function WaitAnswer(b: Backend, seen: TaskPayload, now: Time): TaskPayload {
    if ShouldDetach(seen, now) then seen.(error := WaitDetached) else StuckRow(b, seen, now)
  }

  lemma WaitAnswerTerminalOrDetached(b: Backend, seen: TaskPayload, now: Time)
    ensures Terminal(WaitAnswer(b, seen, now).status)
         || (ShouldDetach(seen, now) && WaitAnswer(b, seen, now) == seen.(error := WaitDetached) && StuckRow(b, seen, now) == seen)
  {
  }

  lemma FailStuckOneAt(b: Backend, q: QueueState, id: TaskId, seen: TaskPayload, now: Time)
    requires KeyedById(Tasks(b, q)) && id in Tasks(b, q) && seen.taskId == id
    requires SeenOrFailed(b, seen, Tasks(b, q)[id], now)
    ensures var (q', p) := FailStuckOne(b, q, id, seen, now);
            && q'.list == q.list && q'.flags == q.flags && q'.index == q.index
            && Tasks(b, q') == Tasks(b, q)[id := StuckRow(b, seen, now)]
            && p == WaitAnswer(b, seen, now)
  {
  }

  /** One entry per known task, in the order asked for; unknown tasks have none. */
  function WaitAnswers(b: Backend, seen: Rows, ids: seq<TaskId>, now: Time): seq<TaskPayload> {
    if ids == [] then []
    else (if ids[0] in seen then [WaitAnswer(b, seen[ids[0]], now)] else []) + WaitAnswers(b, seen, ids[1..], now)
  }

  ghost predicate PollKeeps(b: Backend, seen: Rows, tasks: Rows, now: Time) {
    tasks.Keys == seen.Keys && forall id | id in seen :: SeenOrFailed(b, seen[id], tasks[id], now)
  }

  /** Every stuck task of the poll is failed, no other row changes. */
  lemma {:induction false} FailStuckAt(b: Backend, q: QueueState, seen: Rows, ids: seq<TaskId>,
                                       statuses: seq<Option<TaskPayload>>, now: Time, id: TaskId)
    requires KeyedById(seen) && PollKeeps(b, seen, Tasks(b, q), now)
    requires |statuses| == |ids| && forall i | 0 <= i < |ids| :: statuses[i] == Lookup(seen, ids[i])
    ensures var q' := FailStuck(b, q, ids, statuses, now).0;
            && q'.list == q.list && q'.flags == q.flags && q'.index == q.index
            && Tasks(b, q').Keys == seen.Keys
            && (id in seen ==> Tasks(b, q')[id] == if id in ids then StuckRow(b, seen[id], now) else Tasks(b, q)[id])
    decreases |ids|
  {
    if ids != [] {
      assert forall i | 0 <= i < |ids[1..]| :: statuses[1..][i] == Lookup(seen, ids[1..][i]);
      assert ids == [ids[0]] + ids[1..];
      if statuses[0].None? {
        FailStuckAt(b, q, seen, ids[1..], statuses[1..], now, id);
      } else {
        FailStuckOneAt(b, q, ids[0], seen[ids[0]], now);
        FailStuckAt(b, FailStuckOne(b, q, ids[0], seen[ids[0]], now).0, seen, ids[1..], statuses[1..], now, id);
      }
    }
  }

  /** The answer of a timed-out poll has one entry per known task, in order, each terminal or detached. */
  lemma {:induction false} FailStuckAnswers(b: Backend, q: QueueState, seen: Rows, ids: seq<TaskId>,
                                            statuses: seq<Option<TaskPayload>>, now: Time)
    requires KeyedById(seen) && PollKeeps(b, seen, Tasks(b, q), now)
    requires |statuses| == |ids| && forall i | 0 <= i < |ids| :: statuses[i] == Lookup(seen, ids[i])
    ensures FailStuck(b, q, ids, statuses, now).1 == WaitAnswers(b, seen, ids, now)
    decreases |ids|
  {
    if ids != [] {
      assert forall i | 0 <= i < |ids[1..]| :: statuses[1..][i] == Lookup(seen, ids[1..][i]);
      if statuses[0].None? {
        FailStuckAnswers(b, q, seen, ids[1..], statuses[1..], now);
      } else {
        FailStuckOneAt(b, q, ids[0], seen[ids[0]], now);
        FailStuckAnswers(b, FailStuckOne(b, q, ids[0], seen[ids[0]], now).0, seen, ids[1..], statuses[1..], now);
      }
    }
  }

  lemma WaitPollAt(b: Backend, q: QueueState, op: Op, id: TaskId)
    requires op.WaitPoll? && KeyedById(Tasks(b, q))
    requires b.Postgres? ==> forall x | x in q.keys :: x in q.rows
    ensures var q' := Step(b, q, op).0;
            && Lookup(Tasks(b, q'), id) == RowAfter(b, Lookup(Tasks(b, q), id), op, Step(b, q, op).1, id)
            && q'.list == q.list && q'.flags == q.flags && q'.index == q.index
  {
    var tasks := Tasks(b, q);
    if op.ids != [] {
      StatusesKeep(b, q, op.ids);
      var (q1, statuses) := Statuses(b, q, op.ids);
      if AllTerminal(statuses) {
        if id in op.ids { var i :| 0 <= i < |op.ids| && op.ids[i] == id; assert statuses[i] == Lookup(tasks, id); }
      } else if op.deadline.Some? && op.now > op.deadline.value {
        FailStuckAt(b, q1, tasks, op.ids, statuses, op.stuckAt, id);
      }
    }
  }

  ghost predicate AllDone(tasks: Rows, ids: seq<TaskId>) {
    forall id | id in ids :: id in tasks && Terminal(tasks[id].status)
  }

  /** A poll answers when everything is terminal or the deadline has passed, with one entry per known task. */
  lemma WaitPollAnswer(b: Backend, q: QueueState, op: Op)
    requires op.WaitPoll? && KeyedById(Tasks(b, q))
    requires b.Postgres? ==> forall x | x in q.keys :: x in q.rows
    ensures Step(b, q, op).1 == Waited(
              if op.ids == [] || AllDone(Tasks(b, q), op.ids) || (op.deadline.Some? && op.now > op.deadline.value)
              then Some(WaitAnswers(b, Tasks(b, q), op.ids, op.stuckAt)) else None)
  {
    if op.ids != [] {
      StatusesKeep(b, q, op.ids);
      var (q1, statuses) := Statuses(b, q, op.ids);
      AllTerminalIffAllDone(Tasks(b, q), op.ids, statuses);
      if AllTerminal(statuses) {
        PresentAnswers(b, Tasks(b, q), op.ids, statuses, op.stuckAt);
      } else {
        FailStuckAnswers(b, q1, Tasks(b, q), op.ids, statuses, op.stuckAt);
      }
    }
  }

  lemma AllTerminalIffAllDone(tasks: Rows, ids: seq<TaskId>, statuses: seq<Option<TaskPayload>>)
    requires |statuses| == |ids| && forall i | 0 <= i < |ids| :: statuses[i] == Lookup(tasks, ids[i])
    ensures AllTerminal(statuses) <==> AllDone(tasks, ids)
  {
    if AllTerminal(statuses) {
      forall id | id in ids ensures id in tasks && Terminal(tasks[id].status) {
        var i :| 0 <= i < |ids| && ids[i] == id;
        assert statuses[i].Some?;
      }
    }
  }

  lemma {:induction false} PresentAnswers(b: Backend, seen: Rows, ids: seq<TaskId>, statuses: seq<Option<TaskPayload>>, now: Time)
    requires |statuses| == |ids| && forall i | 0 <= i < |ids| :: statuses[i] == Lookup(seen, ids[i])
    requires AllTerminal(statuses)
    ensures Present(statuses) == WaitAnswers(b, seen, ids, now)
    decreases |ids|
  {
    if ids != [] {
      assert forall i | 0 <= i < |ids[1..]| :: statuses[1..][i] == Lookup(seen, ids[1..][i]);
      assert statuses[0].Some? && Terminal(statuses[0].value.status);
      PresentAnswers(b, seen, ids[1..], statuses[1..], now);
    }
  }

  // --- all operations together ---------------------------------------------------------------

  /** Every queue method acts on each task separately: the loops of claim, recovery, batches and waits included. */
  lemma StepActsPerTask(b: Backend, q: QueueState, op: Op, id: TaskId)
    requires KeyedById(Tasks(b, q)) && WellFormedOp(b, q, op)
    requires b.Postgres? ==> forall x | x in q.keys :: x in q.rows
    ensures Lookup(Tasks(b, Step(b, q, op).0), id) == RowAfter(b, Lookup(Tasks(b, q), id), op, Step(b, q, op).1, id)
  {
    match op
    case Submit(spec, now) =>
      EnqueueKeepsTasks(SavePayload(b, q, BuildPayload(spec, now)), [BuildPayload(spec, now)]);
    case SubmitMany(_, _, _, _) => SubmitManyAt(b, q, op, id);
    case Claim(worker, now) => ClaimAt(b, q, worker, now, id);
    case Recover(now, order) => RecoverAt(b, q, now, order, id);
    case WaitPoll(_, _, _, _) => WaitPollAt(b, q, op, id);
    case _ =>
  }
}
