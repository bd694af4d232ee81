/** The order in which tasks are handed out: first in, first out, unless recovery puts a task back at the end. */
module QueueOrder {
  import opened Wrappers
  import opened TaskTypes
  import opened TaskRows
  import opened Sequences
  import opened QueueSpec
  import opened TaskLife
  import opened QueueInvariant
  import opened QueueHistory

  /** Every listing of `first` is nearer to the end that workers pop than any of `second`. */
  ghost predicate Ahead(list: seq<TaskId>, first: TaskId, second: TaskId) {
    forall i, j | 0 <= i < |list| && 0 <= j < |list| && list[i] == second && list[j] == first :: i < j
  }

  /** The list after an operation: some ids in front of what is left of the old list, in its order. */
  ghost predicate Joins(list: seq<TaskId>, list': seq<TaskId>, joined: seq<TaskId>, left: seq<TaskId>) {
    && list' == joined + left
    && (left <= list || exists id :: left == Without(list, id))
  }

  lemma {:induction false} WithoutKeepsAhead(list: seq<TaskId>, id: TaskId, first: TaskId, second: TaskId)
    requires Ahead(list, first, second)
    ensures Ahead(Without(list, id), first, second)
  {
    if list != [] {
      var rest := Without(list[1..], id);
      assert forall i | 0 < i < |list| :: list[i] == list[1..][i - 1];
      assert forall i | 0 <= i < |list[1..]| :: list[1..][i] == list[i + 1];
      WithoutKeepsAhead(list[1..], id, first, second);
      WithoutShape(list[1..], id);
      if list[0] != id {
        assert first in rest ==> first in list[1..];
        FrontKeepsAhead(list[0], rest, first, second, list);
      }
    }
  }

  lemma FrontKeepsAhead(x: TaskId, rest: seq<TaskId>, first: TaskId, second: TaskId, list: seq<TaskId>)
    requires list != [] && list[0] == x && Ahead(list, first, second) && Ahead(rest, first, second)
    requires forall y | y in rest :: y in list[1..]
    ensures Ahead([x] + rest, first, second)
  {
    var all := [x] + rest;
    assert forall i | 0 < i < |all| :: all[i] == rest[i - 1] && all[i] in list[1..];
    assert forall i | 0 <= i < |list[1..]| :: list[1..][i] == list[i + 1];
  }

  lemma JoiningKeepsAhead(list: seq<TaskId>, list': seq<TaskId>, joined: seq<TaskId>, left: seq<TaskId>,
                          first: TaskId, second: TaskId)
    requires Ahead(list, first, second) && Joins(list, list', joined, left) && first !in joined
    ensures Ahead(list', first, second)
  {
    if !(left <= list) {
      var id :| left == Without(list, id);
      WithoutKeepsAhead(list, id, first, second);
    }
    assert Ahead(left, first, second);
    assert forall i | 0 <= i < |list'| :: list'[i] == if i < |joined| then joined[i] else left[i - |joined|];
    assert forall i | 0 <= i < |joined| :: joined[i] in joined;
  }

  // --- what each operation does to the list --------------------------------------------------------

  lemma {:induction false} EnqueuedInFront(q: QueueState, ps: seq<TaskPayload>) returns (joined: seq<TaskId>)
    ensures EnqueueMany(q, ps).list == joined + q.list
    ensures |joined| == |ps| && forall k | 0 <= k < |ps| :: joined[|ps| - 1 - k] == ps[k].taskId
    decreases |ps|
  {
    joined := [];
    if ps == [] {
      assert [] + q.list == q.list;
    } else {
      var rest := EnqueuedInFront(LPush(q.(index := q.index + {ps[0].taskId}), ps[0].taskId), ps[1..]);
      joined := rest + [ps[0].taskId];
      assert forall k | 0 < k < |ps| :: ps[k] == ps[1..][k - 1];
      assert rest + ([ps[0].taskId] + q.list) == joined + q.list;
    }
  }

  lemma {:induction false} RequeuedInFront(stale: seq<TaskPayload>, list: seq<TaskId>) returns (joined: seq<TaskId>)
    ensures Requeued(stale, list).0 == joined + list
    ensures forall id | id in joined :: exists p :: p in stale && p.taskId == id && p.retryCount < p.maxRetries
    decreases |stale|
  {
    joined := [];
    if stale == [] {
      assert [] + list == list;
    } else if stale[0].retryCount < stale[0].maxRetries {
      var rest := RequeuedInFront(stale[1..], [stale[0].taskId] + list);
      joined := rest + [stale[0].taskId];
      assert rest + ([stale[0].taskId] + list) == joined + list;
      assert stale[0] in stale;
    } else {
      joined := RequeuedInFront(stale[1..], list);
    }
  }

  /** The pop loop takes the last listed id whose task is pending, and drops those after it. */
  lemma {:induction false} PopsTheLast(tasks: Rows, list: seq<TaskId>)
    ensures var (found, rest) := PopPending(tasks, list);
      && rest <= list
      && (found.Some? ==>
            && |rest| < |list| && list[|rest|] == found.value
            && forall m | |rest| < m < |list| :: !(list[m] in tasks && tasks[list[m]].status == PENDING))
    decreases |list|
  {
    if list != [] {
      var init := list[..|list| - 1];
      PopsTheLast(tasks, init);
      assert forall m | 0 <= m < |init| :: init[m] == list[m];
    }
  }

  /** Only new tasks and tasks recovery puts back join the list. */
  ghost predicate MayJoin(b: Backend, q: QueueState, op: Op, id: TaskId) {
    id in Tasks(b, q) ==>
      op.Recover? && Stale(b, Tasks(b, q)[id], op.now) && Tasks(b, q)[id].retryCount < Tasks(b, q)[id].maxRetries
  }

  lemma BatchJoins(b: Backend, q: QueueState, op: Op) returns (joined: seq<TaskId>)
    requires op.SubmitMany? && LegalOp(b, q, op)
    ensures Step(b, q, op).0.list == joined + q.list
    ensures forall id | id in joined :: id !in Tasks(b, q)
  {
    var answer := Step(b, q, op).1;
    var pushed := PushedSpecs(b, op, answer);
    var ps := BuildPayloads(pushed, op.builtAt);
    if b.Postgres? { StoreBatchList(q, op); } else { RedisBatchEffect(q, op); }
    joined := EnqueuedInFront(q, ps);
    forall id | id in joined ensures id !in Tasks(b, q) {
      var k :| 0 <= k < |joined| && joined[k] == id;
      assert ps[|ps| - 1 - k].taskId == id && pushed[|ps| - 1 - k] == op.specs[|ps| - 1 - k];
      DistinctSpecs(op.specs, op.builtAt, Tasks(b, q));
    }
  }

  lemma RecoveryJoins(b: Backend, q: QueueState, op: Op) returns (joined: seq<TaskId>)
    requires op.Recover? && Inv(b, q) && LegalOp(b, q, op)
    ensures Step(b, q, op).0.list == joined + q.list
    ensures forall id | id in joined :: MayJoin(b, q, op, id)
  {
    RecoverAt(b, q, op.now, op.order, "");
    SnapshotEntries(b, Tasks(b, q), op.now, op.order);
    joined := RequeuedInFront(StaleSnapshot(b, Tasks(b, q), op.now, op.order), q.list);
  }

  /** Every operation leaves the list in its order but for what it takes out, and lets others join in front of it. */
  lemma StepJoins(b: Backend, q: QueueState, op: Op) returns (joined: seq<TaskId>, left: seq<TaskId>)
    requires Inv(b, q) && LegalOp(b, q, op)
    ensures Joins(q.list, Step(b, q, op).0.list, joined, left)
    ensures forall id | id in joined :: MayJoin(b, q, op, id)
  {
    joined, left := [], Step(b, q, op).0.list;
    assert [] + left == left;
    match op
    case Submit(spec, _) =>
      SubmitLists(b, q, op);
      joined, left := [spec.taskId], q.list;
    case SubmitMany(_, _, _, _) =>
      left := q.list;
      joined := BatchJoins(b, q, op);
    case Claim(worker, now) =>
      ClaimAt(b, q, worker, now, "");
      PopsTheLast(Tasks(b, q), q.list);
    case Recover(_, _) =>
      left := q.list;
      joined := RecoveryJoins(b, q, op);
    case WaitPoll(_, _, _, _) => WaitPollAt(b, q, op, "");
    case _ =>
  }

  // --- first in, first out ---------------------------------------------------------------------------

  lemma AheadIsKept(b: Backend, r: Run, i: nat, first: TaskId, second: TaskId)
    requires IsRun(b, r) && i < |r.ops| && Ahead(r.states[i].list, first, second)
    requires RowAt(b, r, i, first).Some? && RowAt(b, r, i + 1, first).Some?
    requires RowAt(b, r, i + 1, first).value.retryCount == RowAt(b, r, i, first).value.retryCount
    ensures Ahead(r.states[i + 1].list, first, second)
  {
    var q, op := r.states[i], r.ops[i];
    assert Link(b, r, i);
    ReachableInv(b, r, i);
    RowStep(b, r, i, first);
    var joined, left := StepJoins(b, q, op);
    assert !MayJoin(b, q, op, first);
    JoiningKeepsAhead(q.list, r.states[i + 1].list, joined, left, first, second);
  }

  /** The task is not put back to the end of the queue between `i` and `k`. */
  ghost predicate NotRequeued(b: Backend, r: Run, i: nat, k: nat, id: TaskId) {
    i <= k < |r.states| && RowAt(b, r, i, id).Some? &&
    forall m | i <= m <= k ::
      RowAt(b, r, m, id).Some? && RowAt(b, r, m, id).value.retryCount == RowAt(b, r, i, id).value.retryCount
  }

  lemma {:induction false} StaysAhead(b: Backend, r: Run, i: nat, k: nat, first: TaskId, second: TaskId)
    requires IsRun(b, r) && Ahead(r.states[if i < |r.states| then i else 0].list, first, second)
    requires NotRequeued(b, r, i, k, first)
    ensures Ahead(r.states[k].list, first, second)
    decreases k - i
  {
    if i < k {
      assert RowAt(b, r, i + 1, first).value.retryCount == RowAt(b, r, i, first).value.retryCount;
      AheadIsKept(b, r, i, first, second);
      StaysAhead(b, r, i + 1, k, first, second);
    }
  }

  /** First in, first out: a task that was there when a second one came is no longer PENDING when the second is claimed,
      unless recovery put it back to the end of the queue in between (or its push had raised). */
  lemma FirstInFirstOut(b: Backend, r: Run, i: nat, k: nat, first: TaskId, second: TaskId)
    requires IsRun(b, r) && i < k < |r.ops| && RowAt(b, r, i, first).Some? && RowAt(b, r, i, second).None?
    requires NotRequeued(b, r, i, k, first) && ClaimsTask(r.answers[k], second)
    requires PendingListed(Tasks(b, r.states[k]), r.states[k].list)
    ensures RowAt(b, r, k, first).value.status != PENDING
  {
    var q, op := r.states[k], r.ops[k];
    ReachableInv(b, r, i);
    assert second !in r.states[i].list;
    StaysAhead(b, r, i, k, first, second);
    assert Link(b, r, k);
    ReachableInv(b, r, k);
    ClaimAt(b, q, op.worker, op.claimedAt, second);
    PopsTheLast(Tasks(b, q), q.list);
    var popped := |PopPending(Tasks(b, q), q.list).1|;
    assert q.list[popped] == second;
    if first in q.list {
      var j :| 0 <= j < |q.list| && q.list[j] == first;
      assert popped < j;
    }
  }
}
