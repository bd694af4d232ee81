/** The PostgreSQL row store. Each method is one transaction on the row map. */
module TaskStore {
  import opened Wrappers
  import opened TaskTypes
  import opened TaskRows
  import Q = QueueSpec

  class SubAgentTaskStore {
    var rows: Rows

    constructor ()
      ensures rows == map[]
    {
      rows := map[];
    }

    method SavePayload(p: TaskPayload)
      modifies this
      ensures rows == old(rows)[p.taskId := p]
    {
      rows := rows[p.taskId := p];
    }

    /** Counts, checks the bound, then adds every row or none. */
    method SaveManyWithCapacity(ps: seq<TaskPayload>, maxActive: nat) returns (r: Q.SubmitResult)
      modifies this
      ensures (rows, r) == Q.SaveManyWithCapacity(old(rows), ps, maxActive)
    {
      if ps == [] { return Q.Accepted([]); }
      if !Q.SameParent(ps) { return Q.ParentMismatch; }
      var activeCount := |ActiveChildren(rows, ps[0].parentTaskId)|;
      if activeCount + |ps| > maxActive { return Q.CapacityExceeded; }
      var added := rows;
      for i := 0 to |ps|
        invariant rows == old(rows)
        invariant Q.AddRows(added, ps[i..]) == Q.AddRows(rows, ps)
        invariant forall id :: id in added <==> id in rows || exists j | 0 <= j < i :: ps[j].taskId == id
        invariant forall j | 0 <= j < i :: ps[j].taskId !in rows
        invariant forall j, k | 0 <= j < k < i :: ps[j].taskId != ps[k].taskId
      {
        if ps[i].taskId in added { return Q.SaveManyError; }
        added := added[ps[i].taskId := ps[i]];
        assert ps[i..][1..] == ps[i + 1..];
      }
      rows := added;
      r := Q.Accepted(ps);
    }

    method Claim(id: TaskId, worker: WorkerId, now: Time) returns (p: Option<TaskPayload>)
      modifies this
      ensures (rows, p) == Q.ClaimInRows(old(rows), id, worker, now)
    {
      if id !in rows || rows[id].status != PENDING { return None; }
      var row := rows[id];
      row := row.(status := RUNNING);
      row := row.(workerId := worker);
      row := row.(startedAt := now);
      row := row.(leaseExpiresAt := now + row.timeoutSeconds);
      rows := rows[id := row];
      p := Some(row);
    }

    method Complete(id: TaskId, result: string, worker: WorkerId) returns (ok: bool)
      modifies this
      ensures (rows, ok) == Q.CompleteInRows(old(rows), id, result, worker)
    {
      if id !in rows || !CanComplete(rows[id], worker) { return false; }
      rows := rows[id := rows[id].(status := SUCCEEDED, result := Some(result), error := NoError)];
      ok := true;
    }

    method Fail(id: TaskId, error: TaskError, worker: WorkerId) returns (ok: bool)
      modifies this
      ensures (rows, ok) == Q.FailInRows(old(rows), id, error, worker)
    {
      if id !in rows || (rows[id].status != PENDING && rows[id].status != RUNNING) { return false; }
      if worker != "" && rows[id].workerId != worker { return false; }
      rows := rows[id := rows[id].(status := FAILED, error := error)];
      ok := true;
    }

    method GetStatus(id: TaskId) returns (p: Option<TaskPayload>)
      ensures p == Lookup(rows, id)
    {
      p := if id in rows then Some(rows[id]) else None;
    }

    /** `order` is the order in which the database returns the rows. */
    method ListStaleRunning(now: Time, order: seq<TaskId>) returns (stale: seq<TaskPayload>)
      ensures stale == Q.StaleSnapshot(Postgres, rows, now, order)
    {
      stale := [];
      for i := 0 to |order|
        invariant stale + Q.StaleSnapshot(Postgres, rows, now, order[i..]) == Q.StaleSnapshot(Postgres, rows, now, order)
      {
        assert order[i..][1..] == order[i + 1..];
        if order[i] in rows && StaleRunning(rows[order[i]], now) {
          ghost var rest := Q.StaleSnapshot(Postgres, rows, now, order[i + 1..]);
          assert stale + ([rows[order[i]]] + rest) == (stale + [rows[order[i]]]) + rest;
          stale := stale + [rows[order[i]]];
        }
      }
    }

    method RenewLease(id: TaskId, now: Time, extension: Time)
      modifies this
      ensures rows == Q.RenewInRows(old(rows), id, now, extension)
    {
      if id in rows && rows[id].status == RUNNING {
        rows := rows[id := rows[id].(leaseExpiresAt := now + extension)];
      }
    }
  }
}
