/** The task queue over Redis, with or without the row store behind it. Every method is proved to be the step of
    QueueSpec that the run theorems speak about. */
module TaskQueue {
  import opened Wrappers
  import opened TaskTypes
  import opened TaskRows
  import opened Sequences
  import opened TaskStore
  import Q = QueueSpec

  class TaskQueue {
    const persistence: SubAgentTaskStore?
    var keys: Rows             // task keys in Redis
    var queue: seq<TaskId>     // the Redis list, head first
    var index: set<TaskId>
    var cancelKeys: set<TaskId>

    ghost function Kind(): Backend { if persistence != null then Postgres else RedisOnly }

    ghost function State(): Q.QueueState
      reads this, persistence
    {
      Q.QueueState(if persistence != null then persistence.rows else map[], keys, queue, index, cancelKeys)
    }

    constructor (persistence: SubAgentTaskStore?)
      ensures this.persistence == persistence
      ensures State() == Q.EMPTY_QUEUE.(rows := if persistence != null then persistence.rows else map[])
    {
      this.persistence := persistence;
      keys, queue, index, cancelKeys := map[], [], {}, {};
    }

    // --- helpers -----------------------------------------------------------------------------

    method CachePayload(p: TaskPayload)
      modifies this`keys
      ensures State() == Q.CachePayload(old(State()), p)
    {
      keys := keys[p.taskId := p];
    }

    method SavePayload(p: TaskPayload)
      modifies this`keys, persistence
      ensures State() == Q.SavePayload(Kind(), old(State()), p)
    {
      if persistence != null { persistence.SavePayload(p); }
      CachePayload(p);
    }

    method RefreshCache(id: TaskId)
      modifies this`keys
      ensures State() == Q.RefreshCache(Kind(), old(State()), id)
    {
      if persistence == null { return; }
      var p := persistence.GetStatus(id);
      if p.Some? { CachePayload(p.value); }
    }

    method GetStatus(id: TaskId) returns (p: Option<TaskPayload>)
      modifies this`keys
      ensures (State(), p) == Q.GetStatus(Kind(), old(State()), id)
    {
      if persistence != null {
        p := persistence.GetStatus(id);
        if p.Some? { CachePayload(p.value); return; }
      }
      p := if id in keys then Some(keys[id]) else None;
    }

    /** Pushes the payloads in order, unless Redis raises on the way. */
    method EnqueueMany(ps: seq<TaskPayload>, fault: Option<Q.Fault>) returns (ok: bool)
      modifies this`index, this`queue
      ensures ok <==> !Q.Strikes(fault, ps)
      ensures State() == if ok then Q.EnqueueMany(old(State()), ps) else Q.EnqueueUpTo(old(State()), ps, fault.value)
    {
      var upTo := if Q.Strikes(fault, ps) && fault.value.PushRaises? then fault.value.at else |ps|;
      ghost var pushed := ps[..upTo];
      var i := 0;
      while i < |ps|
        invariant 0 <= i <= upTo <= |ps|
        invariant Q.EnqueueMany(State(), pushed[i..]) == Q.EnqueueMany(old(State()), pushed)
      {
        index := index + {ps[i].taskId};
        if fault == Some(Q.PushRaises(i)) { return false; }
        queue := [ps[i].taskId] + queue;
        assert pushed[i..][1..] == pushed[i + 1..];
        i := i + 1;
      }
      assert pushed == ps;
      ok := !(fault.Some? && fault.value.ExpireRaises?);
    }

    method SaveAndEnqueue(p: TaskPayload, fault: Option<Q.Fault>) returns (ok: bool)
      modifies this`keys, this`index, this`queue, persistence
      ensures ok <==> !Q.Strikes(fault, [p])
      ensures var q := Q.SavePayload(Kind(), old(State()), p);
        State() == if ok then Q.EnqueueMany(q, [p]) else Q.EnqueueUpTo(q, [p], fault.value)
    {
      SavePayload(p);
      ok := EnqueueMany([p], fault);
    }

    // --- public methods ------------------------------------------------------------------------

    method Submit(spec: QueueSubmitSpec, now: Time) returns (p: TaskPayload)
      modifies this`keys, this`index, this`queue, persistence
      ensures (State(), Q.Submitted(p)) == Q.SubmitStep(Kind(), old(State()), spec, now)
      ensures AsSubmitted(p, spec, now) && Lookup(Q.Tasks(Kind(), State()), spec.taskId) == Some(p)
    {
      p := BuildPayload(spec, now);
      var ok := SaveAndEnqueue(p, None);
    }

    /** The children of one parent, found by walking the index in the order given. */
    method CountActiveChildren(parent: TaskId, order: seq<TaskId>) returns (active: nat)
      requires persistence == null && Q.ListsIds(index, order)
      ensures active == |Q.RedisActive(State(), parent)|
    {
      if parent == "" { return 0; }
      ghost var children := Q.RedisActive(State(), parent);
      ghost var seen: set<TaskId> := {};
      active := 0;
      for i := 0 to |order|
        invariant seen <= children && active == |seen|
        invariant forall id :: id in seen ==> id in order[..i]
        invariant forall k | 0 <= k < i :: order[k] in children ==> order[k] in seen
      {
        assert order[i] !in order[..i];
        assert order[..i + 1] == order[..i] + [order[i]];
        assert order[i] in children <==> order[i] in keys && keys[order[i]].parentTaskId == parent && Active(keys[order[i]]);
        if order[i] in keys && keys[order[i]].parentTaskId == parent && Active(keys[order[i]]) {
          active := active + 1;
          seen := seen + {order[i]};
        }
      }
      assert seen == children;
    }

    method FailSavedPayloads(ps: seq<TaskPayload>)
      requires persistence != null
      modifies persistence
      ensures State() == old(State()).(rows := Q.FailSaved(old(persistence.rows), ps))
    {
      for i := 0 to |ps|
        invariant Q.FailSaved(persistence.rows, ps[i..]) == Q.FailSaved(old(persistence.rows), ps)
      {
        assert ps[i..][1..] == ps[i + 1..];
        var ok := persistence.Fail(ps[i].taskId, OtherError("enqueue"), "");
      }
    }

    method SubmitManyWithCapacity(specs: seq<QueueSubmitSpec>, maxActive: nat, now: Time, fault: Option<Q.Fault>,
                                  order: seq<TaskId>) returns (r: Q.SubmitResult)
      requires persistence == null ==> Q.ListsIds(index, order)
      modifies this`keys, this`index, this`queue, persistence
      ensures (State(), Q.Batch(r)) == Q.SubmitManyStep(Kind(), old(State()), specs, maxActive, now, fault)
      ensures r.Accepted? ==> |r.payloads| == |specs| && forall k | 0 <= k < |specs| :: AsSubmitted(r.payloads[k], specs[k], now)
    {
      var ps := Q.BuildPayloads(specs, now);
      if persistence != null {
        r := persistence.SaveManyWithCapacity(ps, maxActive);
        if r.Accepted? {
          var ok := EnqueueMany(ps, fault);
          if !ok {
            FailSavedPayloads(ps);
            r := Q.EnqueueError;
          }
        }
        return;
      }
      if ps != [] && !Q.SameParent(ps) { return Q.ParentMismatch; }
      var active := CountActiveChildren(if ps == [] then "" else ps[0].parentTaskId, order);
      if active + |ps| > maxActive { return Q.CapacityExceeded; }
      ghost var strikes := fault.Some? && fault.value.at < |ps|;
      ghost var first := if strikes then ps[..fault.value.at] else ps;
      for i := 0 to |ps|
        invariant i <= |first|
        invariant Q.SaveAndEnqueueAll(State(), first[i..]) == Q.SaveAndEnqueueAll(old(State()), first)
      {
        var raises := if fault.None? || fault.value.at != i then None
                      else Some(if fault.value.PushRaises? then Q.PushRaises(0) else Q.ExpireRaises(0));
        var ok := SaveAndEnqueue(ps[i], raises);
        if !ok { return Q.EnqueueError; }
        assert first[i..][1..] == first[i + 1..];
      }
      r := Q.Accepted(ps);
    }

    /** Pops until an id is claimed or the list is empty. */
    method Claim(worker: WorkerId, now: Time) returns (p: Option<TaskPayload>)
      modifies this`keys, this`queue, persistence
      ensures (State(), p) == Q.ClaimStep(Kind(), old(State()), worker, now)
    {
      while queue != []
        invariant Q.ClaimStep(Kind(), State(), worker, now) == Q.ClaimStep(Kind(), old(State()), worker, now)
        decreases |queue|
      {
        var id := queue[|queue| - 1];
        queue := queue[..|queue| - 1];
        if persistence != null {
          p := persistence.Claim(id, worker, now);
          if p.None? { continue; }
          CachePayload(p.value);
          return;
        }
        p := GetStatus(id);
        if p.None? || p.value.status != PENDING { continue; }
        var claimed := p.value.(status := RUNNING, workerId := worker, startedAt := now,
        leaseExpiresAt := now + p.value.timeoutSeconds);
        SavePayload(claimed);
        return Some(claimed);
      }
      p := None;
    }

    /** The Redis-only write of a final status; a missing task raises. */
    method UpdateTerminal(id: TaskId, target: TaskStatus, result: Option<string>, error: TaskError, worker: WorkerId)
      returns (answer: Q.Answer)
      requires persistence == null
      modifies this`keys
      ensures (State(), answer) == Q.UpdateTerminal(old(State()), id, target, result, error, worker)
    {
      var p := GetStatus(id);
      if p.None? { return Q.TaskNotFound; }
      if !CanUpdateTerminal(p.value, target, worker) { return Q.Flag(false); }
      if worker != "" && p.value.workerId != worker { return Q.Flag(false); }
      SavePayload(p.value.(status := target, result := result, error := error));
      answer := Q.Flag(true);
    }

    method Complete(id: TaskId, result: string, worker: WorkerId) returns (answer: Q.Answer)
      modifies this`keys, persistence
      ensures (State(), answer) == Q.CompleteStep(Kind(), old(State()), id, result, worker)
    {
      if persistence != null {
        var ok := persistence.Complete(id, result, worker);
        RefreshCache(id);
        return Q.Flag(ok);
      }
      answer := UpdateTerminal(id, SUCCEEDED, Some(result), NoError, worker);
    }

    method Fail(id: TaskId, error: TaskError, worker: WorkerId) returns (answer: Q.Answer)
      modifies this`keys, persistence
      ensures (State(), answer) == Q.FailStep(Kind(), old(State()), id, error, worker)
    {
      if persistence != null {
        var ok := persistence.Fail(id, error, worker);
        RefreshCache(id);
        return Q.Flag(ok);
      }
      answer := UpdateTerminal(id, FAILED, None, error, worker);
    }

    method RenewLease(id: TaskId, now: Time, extension: Time)
      modifies this`keys, persistence
      ensures State() == Q.RenewStep(Kind(), old(State()), id, now, extension)
    {
      if persistence != null {
        persistence.RenewLease(id, now, extension);
        RefreshCache(id);
      }
    }

    // --- recovery ------------------------------------------------------------------------------

    method ScanRedisStale(now: Time, order: seq<TaskId>) returns (stale: seq<TaskPayload>)
      requires persistence == null
      modifies this`index
      ensures State() == Q.ScannedIndex(RedisOnly, old(State()), order)
      ensures stale == Q.StaleSnapshot(RedisOnly, keys, now, order)
    {
      stale := [];
      for i := 0 to |order|
        invariant index == set id | id in old(index) && !(id in order[..i] && id !in keys)
        invariant stale + Q.StaleSnapshot(RedisOnly, keys, now, order[i..]) == Q.StaleSnapshot(RedisOnly, keys, now, order)
      {
        assert order[i..][1..] == order[i + 1..];
        assert order[..i + 1] == order[..i] + [order[i]];
        if order[i] !in keys {
          index := index - {order[i]};
        } else if keys[order[i]].status == RUNNING && LeaseExpired(keys[order[i]], now) {
          stale := stale + [keys[order[i]]];
        }
      }
      assert order[..|order|] == order;
    }

    method RecoverOne(p: TaskPayload) returns (outcome: Q.Outcome)
      modifies this`keys, this`queue, persistence
      ensures (State(), outcome) == Q.RecoverOne(Kind(), old(State()), p)
    {
      if p.retryCount < p.maxRetries {
        SavePayload(p.(status := PENDING, workerId := "", startedAt := 0.0, leaseExpiresAt := 0.0,
                       result := None, error := NoError, retryCount := p.retryCount + 1));
        queue := [p.taskId] + queue;
        return Q.Recovered;
      }
      var answer := Fail(p.taskId, RetriesExhausted(p.maxRetries), "");
      var refreshed := GetStatus(p.taskId);
      outcome := if refreshed.Some? && refreshed.value.status == FAILED then Q.Expired else Q.Skipped;
    }

    method RecoverEach(stale: seq<TaskPayload>) returns (recovered: nat)
      modifies this`keys, this`queue, persistence
      ensures (State(), recovered) == Q.RecoverAll(Kind(), old(State()), stale)
    {
      recovered := 0;
      var failed := 0;
      ghost var whole := Q.RecoverAll(Kind(), State(), stale);
      assert stale[0..] == stale;
      for i := 0 to |stale|
        invariant whole.0 == Q.RecoverAll(Kind(), State(), stale[i..]).0
        invariant whole.1 == recovered + Q.RecoverAll(Kind(), State(), stale[i..]).1
      {
        assert stale[i..][1..] == stale[i + 1..];
        var outcome := RecoverOne(stale[i]);
        if outcome == Q.Recovered {
          recovered := recovered + 1;
        } else if outcome == Q.Expired {
          failed := failed + 1;
        }
      }
    }

    method RecoverStaleTasks(now: Time, order: seq<TaskId>) returns (recovered: nat)
      modifies this`keys, this`queue, this`index, persistence
      ensures (State(), recovered) == Q.RecoverStep(Kind(), old(State()), now, order)
    {
      var stale: seq<TaskPayload>;
      if persistence != null {
        stale := persistence.ListStaleRunning(now, order);
      } else {
        stale := ScanRedisStale(now, order);
      }
      recovered := RecoverEach(stale);
    }

    // --- cancellation --------------------------------------------------------------------------

    method Cancel(id: TaskId) returns (ok: bool)
      modifies this`keys, this`queue, this`cancelKeys, persistence
      ensures (State(), ok) == Q.CancelStep(Kind(), old(State()), id)
    {
      var p := GetStatus(id);
      if p.None? || Terminal(p.value.status) { return false; }
      cancelKeys := cancelKeys + {id};
      if p.value.status == PENDING {
        queue := Without(queue, id);
        SavePayload(p.value.(status := FAILED, error := ParentCancelled));
      }
      ok := true;
    }

    method IsCancelRequested(id: TaskId) returns (requested: bool)
      ensures requested <==> id in State().flags
    {
      requested := id in cancelKeys;
    }

    // --- one poll of a waiting parent ------------------------------------------------------------

    method FailStuckTask(id: TaskId, status: TaskPayload, now: Time) returns (p: TaskPayload)
      modifies this`keys, persistence
      ensures (State(), p) == Q.FailStuckOne(Kind(), old(State()), id, status, now)
    {
      if Terminal(status.status) { return status; }
      if ShouldDetach(status, now) { return status.(error := WaitDetached); }
      var answer := Fail(id, WaitTimeout, "");
      var refreshed := GetStatus(id);
      p := if refreshed.Some? then refreshed.value else status.(status := FAILED, error := WaitTimeout);
    }

    method FailStuckTasks(ids: seq<TaskId>, statuses: seq<Option<TaskPayload>>, now: Time) returns (final: seq<TaskPayload>)
      requires |ids| == |statuses|
      modifies this`keys, persistence
      ensures (State(), final) == Q.FailStuck(Kind(), old(State()), ids, statuses, now)
    {
      final := [];
      ghost var whole := Q.FailStuck(Kind(), State(), ids, statuses, now);
      assert ids[0..] == ids && statuses[0..] == statuses;
      for i := 0 to |ids|
        invariant whole.0 == Q.FailStuck(Kind(), State(), ids[i..], statuses[i..], now).0
        invariant whole.1 == final + Q.FailStuck(Kind(), State(), ids[i..], statuses[i..], now).1
      {
        assert ids[i..][1..] == ids[i + 1..] && statuses[i..][1..] == statuses[i + 1..];
        if statuses[i].None? { continue; }
        var p := FailStuckTask(ids[i], statuses[i].value, now);
        final := final + [p];
      }
      assert ids[|ids|..] == [] && final + [] == final;
    }

    method WaitPoll(ids: seq<TaskId>, deadline: Option<Time>, now: Time, stuckAt: Time) returns (r: Option<seq<TaskPayload>>)
      modifies this`keys, persistence
      ensures (State(), r) == Q.WaitPollStep(Kind(), old(State()), ids, deadline, now, stuckAt)
    {
      if ids == [] { return Some([]); }
      var statuses: seq<Option<TaskPayload>> := [];
      ghost var whole := Q.Statuses(Kind(), State(), ids);
      assert ids[0..] == ids;
      for i := 0 to |ids|
        invariant |statuses| == i
        invariant whole.0 == Q.Statuses(Kind(), State(), ids[i..]).0
        invariant whole.1 == statuses + Q.Statuses(Kind(), State(), ids[i..]).1
      {
        assert ids[i..][1..] == ids[i + 1..];
        var s := GetStatus(ids[i]);
        statuses := statuses + [s];
      }
      assert ids[|ids|..] == [] && statuses + [] == statuses;
      if Q.AllTerminal(statuses) { return Some(Q.Present(statuses)); }
      if deadline.Some? && now > deadline.value {
        var final := FailStuckTasks(ids, statuses, stuckAt);
        return Some(final);
      }
      r := None;
    }
  }
}
