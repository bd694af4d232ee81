/** The per-parent bound on unfinished children, over every run. */
module QueueCapacity {
  import opened Wrappers
  import opened TaskTypes
  import opened TaskRows
  import opened QueueSpec
  import opened TaskLife
  import opened QueueInvariant
  import opened QueueHistory

  /** Children of `parent` enter only through capacity batches, each bounded by at most `bound`. */
  ghost predicate EntersByBatch(op: Op, parent: TaskId, bound: nat) {
    && (op.Submit? ==> op.spec.parentTaskId != parent)
    && (op.SubmitMany? && (exists i | 0 <= i < |op.specs| :: op.specs[i].parentTaskId == parent) ==> op.maxActive <= bound)
  }

  /** Except by creation, no operation makes a task active or moves it to another parent. */
  lemma ActiveOnlyShrinks(b: Backend, row: Option<TaskPayload>, op: Op, answer: Answer, id: TaskId)
    requires AnswerFits(b, row, op, answer, id)
    requires !(op.Submit? && op.spec.taskId == id) && !CreatesByBatch(b, op, answer, id)
    ensures var row' := RowAfter(b, row, op, answer, id);
            && (row.Some? <==> row'.Some?)
            && (row.Some? ==> row'.value.parentTaskId == row.value.parentTaskId
                              && (Active(row'.value) ==> Active(row.value)))
  {
  }

  function BatchIds(specs: seq<QueueSubmitSpec>): (s: set<TaskId>)
    ensures forall id :: id in s <==> exists i | 0 <= i < |specs| :: specs[i].taskId == id
    ensures |s| <= |specs|
  {
    if specs == [] then {}
    else
      assert specs == [specs[0]] + specs[1..];
      {specs[0].taskId} + BatchIds(specs[1..])
  }

  lemma SubsetSize<T>(a: set<T>, b: set<T>)
    requires a <= b
    ensures |a| <= |b|
  {
    assert b == a + (b - a);
  }

  lemma AcceptedBatchFits(b: Backend, q: QueueState, op: Op, parent: TaskId)
    requires op.SubmitMany? && Inv(b, q) && (b.RedisOnly? ==> parent != "")
    requires Step(b, q, op).1.result.Accepted? || Step(b, q, op).1.result.EnqueueError?
    requires exists i | 0 <= i < |op.specs| :: op.specs[i].parentTaskId == parent
    ensures |ActiveChildren(Tasks(b, q), parent)| + |op.specs| <= op.maxActive
  {
    var ps := BuildPayloads(op.specs, op.builtAt);
    var i :| 0 <= i < |op.specs| && op.specs[i].parentTaskId == parent;
    assert ps[i].parentTaskId == ps[0].parentTaskId;
    if b.RedisOnly? { assert RedisActive(q, parent) == ActiveChildren(q.keys, parent); }
  }

  ghost predicate BatchOf(op: Op, answer: Answer, parent: TaskId) {
    && op.SubmitMany? && answer.Batch? && (answer.result.Accepted? || answer.result.EnqueueError?)
    && exists k | 0 <= k < |op.specs| :: op.specs[k].parentTaskId == parent
  }

  /** New active children come from an accepted batch of that parent, and from nowhere else. */
  lemma ActiveComesFromBatch(b: Backend, r: Run, i: nat, parent: TaskId, bound: nat)
    requires IsRun(b, r) && i < |r.ops| && EntersByBatch(r.ops[i], parent, bound)
    ensures ActiveChildren(Tasks(b, r.states[i + 1]), parent)
         <= ActiveChildren(Tasks(b, r.states[i]), parent)
            + if BatchOf(r.ops[i], r.answers[i], parent) then BatchIds(r.ops[i].specs) else {}
  {
    var op, answer := r.ops[i], r.answers[i];
    var before, after := ActiveChildren(Tasks(b, r.states[i]), parent), ActiveChildren(Tasks(b, r.states[i + 1]), parent);
    forall id | id in after ensures id in before || (BatchOf(op, answer, parent) && id in BatchIds(op.specs)) {
      RowStep(b, r, i, id);
      if CreatesByBatch(b, op, answer, id) {
        var saved := SavedSpecs(b, op, answer);
        var k :| 0 <= k < |saved| && saved[k].taskId == id;
        assert op.specs[k] == saved[k];
      } else if !(op.Submit? && op.spec.taskId == id) {
        ActiveOnlyShrinks(b, RowAt(b, r, i, id), op, answer, id);
      }
    }
  }

  lemma StepKeepsCapacity(b: Backend, r: Run, i: nat, parent: TaskId, bound: nat)
    requires IsRun(b, r) && i < |r.ops| && EntersByBatch(r.ops[i], parent, bound)
    requires b.RedisOnly? ==> parent != ""
    requires |ActiveChildren(Tasks(b, r.states[i]), parent)| <= bound
    ensures |ActiveChildren(Tasks(b, r.states[i + 1]), parent)| <= bound
  {
    var before, after := ActiveChildren(Tasks(b, r.states[i]), parent), ActiveChildren(Tasks(b, r.states[i + 1]), parent);
    ActiveComesFromBatch(b, r, i, parent, bound);
    if BatchOf(r.ops[i], r.answers[i], parent) {
      ReachableInv(b, r, i);
      assert Link(b, r, i);
      AcceptedBatchFits(b, r.states[i], r.ops[i], parent);
      SubsetSize(after, before + BatchIds(r.ops[i].specs));
    } else {
      SubsetSize(after, before);
    }
  }

  /** Capacity: at every point of every run at most `bound` children of the parent are pending or running. */
  lemma {:induction false} CapacityHolds(b: Backend, r: Run, i: nat, parent: TaskId, bound: nat)
    requires IsRun(b, r) && i <= |r.ops| && (b.RedisOnly? ==> parent != "")
    requires forall k | 0 <= k < |r.ops| :: EntersByBatch(r.ops[k], parent, bound)
    ensures |ActiveChildren(Tasks(b, r.states[i]), parent)| <= bound
  {
    if i > 0 {
      CapacityHolds(b, r, i - 1, parent, bound);
      StepKeepsCapacity(b, r, i - 1, parent, bound);
    }
  }

  lemma BatchAnswer(b: Backend, q: QueueState, op: Op)
    requires op.SubmitMany?
    ensures var answer := Step(b, q, op).1;
            && answer.Batch?
            && (answer.result.Accepted? ==> answer.result.payloads == BuildPayloads(op.specs, op.builtAt))
            && (answer.result.Accepted? || answer.result.EnqueueError? ==>
                  b.RedisOnly? || op.specs == [] || DistinctFresh(q.rows, BuildPayloads(op.specs, op.builtAt)))
            && (!answer.result.Accepted? && !answer.result.EnqueueError? ==> Step(b, q, op).0 == q)
  {
  }

  lemma AdmittedAreNew(b: Backend, q: QueueState, op: Op)
    requires op.SubmitMany? && WellFormedOp(b, q, op) && op.specs != []
    requires Step(b, q, op).1.result.Accepted? || Step(b, q, op).1.result.EnqueueError?
    ensures forall i, j | 0 <= i < j < |op.specs| :: op.specs[i].taskId != op.specs[j].taskId
    ensures forall i | 0 <= i < |op.specs| :: op.specs[i].taskId !in Tasks(b, q)
  {
    BatchAnswer(b, q, op);
    DistinctSpecs(op.specs, op.builtAt, Tasks(b, q));
  }

  lemma AdmittedIsListed(b: Backend, q: QueueState, op: Op, k: nat)
    requires op.SubmitMany? && Inv(b, q) && WellFormedOp(b, q, op) && k < |op.specs|
    requires Step(b, q, op).1.result.Accepted? || Step(b, q, op).1.result.EnqueueError?
    ensures op.specs[k].taskId in Step(b, q, op).0.list <==> k < |PushedSpecs(b, op, Step(b, q, op).1)|
  {
    AdmittedAreNew(b, q, op);
    BatchLists(b, q, op, op.specs[k].taskId);
    SpecIsFound(op.specs, |PushedSpecs(b, op, Step(b, q, op).1)|, k);
  }

  lemma AdmittedIsSaved(b: Backend, q: QueueState, op: Op, k: nat)
    requires op.SubmitMany? && WellFormedOp(b, q, op) && k < |op.specs|
    requires Step(b, q, op).1.result.Accepted? || Step(b, q, op).1.result.EnqueueError?
    ensures var (q', answer) := Step(b, q, op);
      Lookup(Tasks(b, q'), op.specs[k].taskId) ==
        if k >= |SavedSpecs(b, op, answer)| then None
        else if b.Postgres? && answer.result.EnqueueError?
        then Some(FailRow(Postgres, BuildPayload(op.specs[k], op.builtAt), OtherError("enqueue")))
        else Some(BuildPayload(op.specs[k], op.builtAt))
  {
    AdmittedAreNew(b, q, op);
    SubmitManyAt(b, q, op, op.specs[k].taskId);
    SpecIsFound(op.specs, |SavedSpecs(b, op, Step(b, q, op).1)|, k);
  }

  /** What a batch leaves of each of its tasks. It enters whole and claimable, or changes nothing; if Redis raises during
      the pushes, with the row store all of it ends FAILED, and on Redis alone the payloads up to the one it raised at
      stay PENDING, all of them listed but the one whose push raised. */
  lemma BatchAllOrNothing(b: Backend, r: Run, i: nat, k: nat)
    requires IsRun(b, r) && i < |r.ops| && r.ops[i].SubmitMany? && k < |r.ops[i].specs|
    ensures r.answers[i].Batch?
    ensures var spec, now, fault := r.ops[i].specs[k], r.ops[i].builtAt, r.ops[i].fault;
            var row, listed := RowAt(b, r, i + 1, spec.taskId), spec.taskId in r.states[i + 1].list;
            match r.answers[i].result
            case Accepted(_) => row.Some? && AsSubmitted(row.value, spec, now) && listed
            case EnqueueError =>
              if b.Postgres? then
                row.Some? && BelongsTo(row.value, spec, now) && row.value.status == FAILED && row.value.error == OtherError("enqueue")
              else
                && fault.Some? && (if k <= fault.value.at then row.Some? && AsSubmitted(row.value, spec, now) else row.None?)
                && (listed <==> k < fault.value.at || fault == Some(ExpireRaises(k)))
            case _ => r.states[i + 1] == r.states[i]
  {
    var op, q, answer := r.ops[i], r.states[i], r.answers[i];
    assert Link(b, r, i);
    ReachableInv(b, r, i);
    BatchAnswer(b, q, op);
    if answer.result.Accepted? || answer.result.EnqueueError? {
      AdmittedIsSaved(b, q, op, k);
      AdmittedIsListed(b, q, op, k);
    }
  }

  /** Redis raises within an admitted batch on Redis alone, and not only at the time-to-live of its last payload. */
  ghost predicate BreaksOff(q: QueueState, op: Op)
    requires op.SubmitMany?
  {
    var ps := BuildPayloads(op.specs, op.builtAt);
    && op.fault.Some? && op.fault.value.at < |ps| && SameParent(ps)
    && |RedisActive(q, ps[0].parentTaskId)| + |ps| <= op.maxActive
    && op.fault != Some(ExpireRaises(|ps| - 1))
  }

  ghost predicate WhollyIn(q: QueueState, specs: seq<QueueSubmitSpec>) {
    forall k | 0 <= k < |specs| :: specs[k].taskId in q.keys && specs[k].taskId in q.list
  }

  lemma BrokenOff(q: QueueState, op: Op)
    requires op.SubmitMany? && Inv(RedisOnly, q) && WellFormedOp(RedisOnly, q, op) && BreaksOff(q, op)
    ensures Step(RedisOnly, q, op).0 != q && !WhollyIn(Step(RedisOnly, q, op).0, op.specs)
  {
    var at := op.fault.value.at;
    AdmittedAreNew(RedisOnly, q, op);
    AdmittedIsSaved(RedisOnly, q, op, at);
    if op.fault.value.PushRaises? {
      AdmittedIsListed(RedisOnly, q, op, at);
    } else {
      AdmittedIsSaved(RedisOnly, q, op, at + 1);
    }
  }

  /** So on Redis alone a batch is all or nothing exactly unless it breaks off. */
  lemma RedisBatchWholeIff(q: QueueState, op: Op)
    requires op.SubmitMany? && Inv(RedisOnly, q) && WellFormedOp(RedisOnly, q, op)
    ensures var q' := Step(RedisOnly, q, op).0; q' == q || WhollyIn(q', op.specs) <==> !BreaksOff(q, op)
  {
    var (q', answer) := Step(RedisOnly, q, op);
    if BreaksOff(q, op) {
      BrokenOff(q, op);
    } else if answer.result.Accepted? || answer.result.EnqueueError? {
      forall k | 0 <= k < |op.specs| ensures op.specs[k].taskId in q'.keys && op.specs[k].taskId in q'.list {
        AdmittedIsSaved(RedisOnly, q, op, k);
        AdmittedIsListed(RedisOnly, q, op, k);
      }
    }
  }

  /** The compensation path gives every parent its previous active children back. */
  lemma CompensationRestoresActive(r: Run, i: nat, parent: TaskId)
    requires IsRun(Postgres, r) && i < |r.ops| && r.answers[i] == Batch(EnqueueError)
    ensures ActiveChildren(r.states[i + 1].rows, parent) == ActiveChildren(r.states[i].rows, parent)
  {
    assert Link(Postgres, r, i);
    forall id ensures id in ActiveChildren(r.states[i + 1].rows, parent) <==> id in ActiveChildren(r.states[i].rows, parent) {
      RowStep(Postgres, r, i, id);
      assert Lookup(r.states[i].rows, id) == RowAt(Postgres, r, i, id);
      assert Lookup(r.states[i + 1].rows, id) == RowAt(Postgres, r, i + 1, id);
    }
  }
}
