/** The task queue as a state machine: every public `TaskQueue` method is one step on the rows, the Redis keys,
    the Redis list, the index set and the cancel flags. The class in TaskQueue.dfy is proved against these steps. */
module QueueSpec {
  import opened Wrappers
  import opened TaskTypes
  import opened TaskRows
  import opened Sequences

  /** `list` is the Redis list, head first: `lpush` adds at index 0, `brpop` takes the last element. */
  datatype QueueState = QueueState(
    rows: Rows, keys: Rows, list: seq<TaskId>, index: set<TaskId>, flags: set<TaskId>)

  const EMPTY_QUEUE := QueueState(map[], map[], [], {}, {})

  datatype SubmitResult =
    | Accepted(payloads: seq<TaskPayload>)
    | ParentMismatch
    | CapacityExceeded
    | SaveManyError      // duplicate primary key
    | EnqueueError       // Redis raised during the pushes; with rows, those saved were failed again

  datatype Answer =
    | Nothing
    | Submitted(payload: TaskPayload)
    | Batch(result: SubmitResult)
    | Claimed(task: Option<TaskPayload>)
    | Flag(ok: bool)
    | TaskNotFound
    | Count(n: nat)
    | Waited(statuses: Option<seq<TaskPayload>>)

  /** Where Redis raises during the pushes of a batch: at the list push of one payload, or when a time-to-live is set
      after it (with rows only once, after all pushes). */
  datatype Fault = PushRaises(at: nat) | ExpireRaises(at: nat)

  datatype Op =
    | Submit(spec: QueueSubmitSpec, createdAt: Time)
    | SubmitMany(specs: seq<QueueSubmitSpec>, maxActive: nat, builtAt: Time, fault: Option<Fault>)
    | Claim(worker: WorkerId, claimedAt: Time)
    | Complete(id: TaskId, result: string, worker: WorkerId)
    | Fail(id: TaskId, error: TaskError, worker: WorkerId)
    | Recover(now: Time, order: seq<TaskId>)
    | RenewLease(id: TaskId, now: Time, extension: Time)
    | Cancel(id: TaskId)
    | WaitPoll(ids: seq<TaskId>, deadline: Option<Time>, now: Time, stuckAt: Time)

  function Tasks(b: Backend, q: QueueState): Rows {
    if b.Postgres? then q.rows else q.keys
  }

  // --- private helpers of the queue ---------------------------------------------------------

  function CachePayload(q: QueueState, p: TaskPayload): QueueState {
    q.(keys := q.keys[p.taskId := p])
  }

  function SavePayload(b: Backend, q: QueueState, p: TaskPayload): QueueState {
    CachePayload(if b.Postgres? then q.(rows := q.rows[p.taskId := p]) else q, p)
  }

  function RefreshCache(b: Backend, q: QueueState, id: TaskId): QueueState {
    if b.Postgres? && id in q.rows then CachePayload(q, q.rows[id]) else q
  }

  function GetStatus(b: Backend, q: QueueState, id: TaskId): (QueueState, Option<TaskPayload>) {
    if b.Postgres? && id in q.rows then (CachePayload(q, q.rows[id]), Some(q.rows[id]))
    else (q, Lookup(q.keys, id))
  }

  function LPush(q: QueueState, id: TaskId): QueueState {
    q.(list := [id] + q.list)
  }

  function EnqueueMany(q: QueueState, ps: seq<TaskPayload>): QueueState
    decreases |ps|
  {
    if ps == [] then q
    else EnqueueMany(LPush(q.(index := q.index + {ps[0].taskId}), ps[0].taskId), ps[1..])
  }

  /** Whether the fault strikes while these are pushed together. */
  predicate Strikes(fault: Option<Fault>, ps: seq<TaskPayload>) {
    fault.Some? && (fault.value.PushRaises? ==> fault.value.at < |ps|)
  }

  /** What is pushed when the fault strikes: the index already holds the id whose list push raises. */
  function EnqueueUpTo(q: QueueState, ps: seq<TaskPayload>, fault: Fault): QueueState
    requires Strikes(Some(fault), ps)
  {
    if fault.ExpireRaises? then EnqueueMany(q, ps)
    else
      var q' := EnqueueMany(q, ps[..fault.at]);
      q'.(index := q'.index + {ps[fault.at].taskId})
  }

  // --- submit ------------------------------------------------------------------------------

  function SubmitStep(b: Backend, q: QueueState, spec: QueueSubmitSpec, now: Time): (QueueState, Answer) {
    var p := BuildPayload(spec, now);
    (EnqueueMany(SavePayload(b, q, p), [p]), Submitted(p))
  }

  function BuildPayloads(specs: seq<QueueSubmitSpec>, now: Time): seq<TaskPayload> {
    seq(|specs|, i requires 0 <= i < |specs| => BuildPayload(specs[i], now))
  }

  predicate SameParent(ps: seq<TaskPayload>) {
    forall i | 0 <= i < |ps| :: ps[i].parentTaskId == ps[0].parentTaskId
  }

  predicate DistinctFresh(rows: Rows, ps: seq<TaskPayload>) {
    && (forall i | 0 <= i < |ps| :: ps[i].taskId !in rows)
    && (forall i, j | 0 <= i < j < |ps| :: ps[i].taskId != ps[j].taskId)
  }

  function AddRows(rows: Rows, ps: seq<TaskPayload>): Rows
    decreases |ps|
  {
    if ps == [] then rows else AddRows(rows[ps[0].taskId := ps[0]], ps[1..])
  }

  /** The compensation after a failed push: fail every saved row that is still unfinished. */
  function FailSaved(rows: Rows, ps: seq<TaskPayload>): Rows
    decreases |ps|
  {
    if ps == [] then rows
    else FailSaved(FailInRows(rows, ps[0].taskId, OtherError("enqueue"), "").0, ps[1..])
  }

  function SaveManyWithCapacity(rows: Rows, ps: seq<TaskPayload>, maxActive: nat): (Rows, SubmitResult) {
    if ps == [] then (rows, Accepted([]))
    else if !SameParent(ps) then (rows, ParentMismatch)
    else if |ActiveChildren(rows, ps[0].parentTaskId)| + |ps| > maxActive then (rows, CapacityExceeded)
    else if !DistinctFresh(rows, ps) then (rows, SaveManyError)
    else (AddRows(rows, ps), Accepted(ps))
  }

  function SaveAndEnqueueAll(q: QueueState, ps: seq<TaskPayload>): QueueState
    decreases |ps|
  {
    if ps == [] then q
    else SaveAndEnqueueAll(EnqueueMany(SavePayload(RedisOnly, q, ps[0]), [ps[0]]), ps[1..])
  }

  /** `get_children` of the Redis-only backend: an empty parent has no children. */
  function RedisActive(q: QueueState, parent: TaskId): set<TaskId> {
    if parent == "" then {} else set id | id in q.index && id in ActiveChildren(q.keys, parent)
  }

  /** The Redis-only batch when the fault strikes at one of its payloads, each saved and pushed by itself. */
  function SaveAndEnqueueUpTo(q: QueueState, ps: seq<TaskPayload>, fault: Fault): QueueState
    requires fault.at < |ps|
  {
    var p := ps[fault.at];
    EnqueueUpTo(SavePayload(RedisOnly, SaveAndEnqueueAll(q, ps[..fault.at]), p), [p],
                if fault.PushRaises? then PushRaises(0) else ExpireRaises(0))
  }

  function SubmitManyStep(b: Backend, q: QueueState, specs: seq<QueueSubmitSpec>, maxActive: nat, now: Time,
                          fault: Option<Fault>): (QueueState, Answer) {
    var ps := BuildPayloads(specs, now);
    match b
    case Postgres =>
      var (rows, r) := SaveManyWithCapacity(q.rows, ps, maxActive);
      if !r.Accepted? then (q, Batch(r))
      else
        var q1 := q.(rows := rows);
        if Strikes(fault, ps) then
          var q2 := EnqueueUpTo(q1, ps, fault.value);
          (q2.(rows := FailSaved(q2.rows, ps)), Batch(EnqueueError))
        else (EnqueueMany(q1, ps), Batch(r))
    case RedisOnly =>
      if ps != [] && !SameParent(ps) then (q, Batch(ParentMismatch))
      else
        var parent := if ps == [] then "" else ps[0].parentTaskId;
        if |RedisActive(q, parent)| + |ps| > maxActive then (q, Batch(CapacityExceeded))
        else if fault.Some? && fault.value.at < |ps| then (SaveAndEnqueueUpTo(q, ps, fault.value), Batch(EnqueueError))
        else (SaveAndEnqueueAll(q, ps), Batch(Accepted(ps)))
  }

  // --- claim -------------------------------------------------------------------------------

  function ClaimInRows(rows: Rows, id: TaskId, worker: WorkerId, now: Time): (Rows, Option<TaskPayload>) {
    if id in rows && rows[id].status == PENDING then
      var p := ClaimRow(rows[id], worker, now);
      (rows[id := p], Some(p))
    else (rows, None)
  }

  /** One turn of the pop loop: the popped id is claimed or dropped. */
  function ClaimPopped(b: Backend, q: QueueState, id: TaskId, worker: WorkerId, now: Time): (QueueState, Option<TaskPayload>) {
    if b.Postgres? then
      var (rows, p) := ClaimInRows(q.rows, id, worker, now);
      (if p.Some? then CachePayload(q.(rows := rows), p.value) else q, p)
    else if id in q.keys && q.keys[id].status == PENDING then
      var p := ClaimRow(q.keys[id], worker, now);
      (SavePayload(b, q, p), Some(p))
    else (q, None)
  }

  function ClaimStep(b: Backend, q: QueueState, worker: WorkerId, now: Time): (r: (QueueState, Option<TaskPayload>))
    ensures |r.0.list| <= |q.list|
    decreases |q.list|
  {
    if q.list == [] then (q, None)
    else
      var last := |q.list| - 1;
      var (q1, p) := ClaimPopped(b, q.(list := q.list[..last]), q.list[last], worker, now);
      if p.Some? then (q1, p) else ClaimStep(b, q1, worker, now)
  }

  // --- complete and fail -------------------------------------------------------------------

  function CompleteInRows(rows: Rows, id: TaskId, result: string, worker: WorkerId): (Rows, bool) {
    if id in rows && CanComplete(rows[id], worker) then (rows[id := CompleteRow(rows[id], result)], true)
    else (rows, false)
  }

  function FailInRows(rows: Rows, id: TaskId, error: TaskError, worker: WorkerId): (Rows, bool) {
    if id in rows && CanFail(rows[id], worker) then (rows[id := FailRow(Postgres, rows[id], error)], true)
    else (rows, false)
  }

  /** `update_terminal_payload_state`, the Redis-only write of a final status. */
  function UpdateTerminal(q: QueueState, id: TaskId, target: TaskStatus, result: Option<string>, error: TaskError,
                          worker: WorkerId): (QueueState, Answer) {
    if id !in q.keys then (q, TaskNotFound)
    else
      var p := q.keys[id];
      if !CanUpdateTerminal(p, target, worker) then (q, Flag(false))
      else if worker != "" && p.workerId != worker then (q, Flag(false))
      else (SavePayload(RedisOnly, q, p.(status := target, result := result, error := error)), Flag(true))
  }

  function CompleteStep(b: Backend, q: QueueState, id: TaskId, result: string, worker: WorkerId): (QueueState, Answer) {
    match b
    case Postgres =>
      var (rows, ok) := CompleteInRows(q.rows, id, result, worker);
      (RefreshCache(b, q.(rows := rows), id), Flag(ok))
    case RedisOnly => UpdateTerminal(q, id, SUCCEEDED, Some(result), NoError, worker)
  }

  function FailStep(b: Backend, q: QueueState, id: TaskId, error: TaskError, worker: WorkerId): (QueueState, Answer) {
    match b
    case Postgres =>
      var (rows, ok) := FailInRows(q.rows, id, error, worker);
      (RefreshCache(b, q.(rows := rows), id), Flag(ok))
    case RedisOnly => UpdateTerminal(q, id, FAILED, None, error, worker)
  }

  // --- lease renewal -----------------------------------------------------------------------

  function RenewInRows(rows: Rows, id: TaskId, now: Time, extension: Time): Rows {
    if id in rows && rows[id].status == RUNNING then
      rows[id := rows[id].(leaseExpiresAt := now + extension)]
    else rows
  }

  function RenewStep(b: Backend, q: QueueState, id: TaskId, now: Time, extension: Time): QueueState {
    match b
    case Postgres => RefreshCache(b, q.(rows := RenewInRows(q.rows, id, now, extension)), id)
    case RedisOnly => q
  }

  // --- recovery ----------------------------------------------------------------------------

  /** The stale snapshot, in the order the backend lists its ids. */
  function StaleSnapshot(b: Backend, tasks: Rows, now: Time, order: seq<TaskId>): seq<TaskPayload> {
    if order == [] then []
    else
      var rest := StaleSnapshot(b, tasks, now, order[1..]);
      if order[0] in tasks && Stale(b, tasks[order[0]], now) then [tasks[order[0]]] + rest else rest
  }

  datatype Outcome = Recovered | Expired | Skipped

  function RecoverOne(b: Backend, q: QueueState, p: TaskPayload): (QueueState, Outcome) {
    if p.retryCount < p.maxRetries then (LPush(SavePayload(b, q, RequeueRow(p)), p.taskId), Recovered)
    else
      var q1 := FailStep(b, q, p.taskId, RetriesExhausted(p.maxRetries), "").0;
      var (q2, status) := GetStatus(b, q1, p.taskId);
      (q2, if status.Some? && status.value.status == FAILED then Expired else Skipped)
  }

  function RecoverAll(b: Backend, q: QueueState, stale: seq<TaskPayload>): (QueueState, nat)
    decreases |stale|
  {
    if stale == [] then (q, 0)
    else
      var (q1, outcome) := RecoverOne(b, q, stale[0]);
      var (q2, n) := RecoverAll(b, q1, stale[1..]);
      (q2, n + if outcome == Recovered then 1 else 0)
  }

  /** The Redis-only scan also drops index entries whose key is gone. */
  function ScannedIndex(b: Backend, q: QueueState, order: seq<TaskId>): QueueState {
    if b.Postgres? then q else q.(index := set id | id in q.index && !(id in order && id !in q.keys))
  }

  function RecoverStep(b: Backend, q: QueueState, now: Time, order: seq<TaskId>): (QueueState, nat) {
    RecoverAll(b, ScannedIndex(b, q, order), StaleSnapshot(b, Tasks(b, q), now, order))
  }

  // --- cancellation ------------------------------------------------------------------------

  function CancelStep(b: Backend, q: QueueState, id: TaskId): (QueueState, bool) {
    var (q1, status) := GetStatus(b, q, id);
    if status.None? || Terminal(status.value.status) then (q1, false)
    else
      var q2 := q1.(flags := q1.flags + {id});
      if status.value.status == PENDING then
        (SavePayload(b, q2.(list := Without(q2.list, id)), CancelRow(status.value)), true)
      else (q2, true)
  }

  // --- one poll of a waiting parent ----------------------------------------------------------

  function Statuses(b: Backend, q: QueueState, ids: seq<TaskId>): (r: (QueueState, seq<Option<TaskPayload>>))
    ensures |r.1| == |ids|
    decreases |ids|
  {
    if ids == [] then (q, [])
    else
      var (q1, s) := GetStatus(b, q, ids[0]);
      var (q2, rest) := Statuses(b, q1, ids[1..]);
      (q2, [s] + rest)
  }

  function FailStuck(b: Backend, q: QueueState, ids: seq<TaskId>, statuses: seq<Option<TaskPayload>>, now: Time)
    : (QueueState, seq<TaskPayload>)
    requires |ids| == |statuses|
    decreases |ids|
  {
    if ids == [] then (q, [])
    else if statuses[0].None? then FailStuck(b, q, ids[1..], statuses[1..], now)
    else
      var (q1, p) := FailStuckOne(b, q, ids[0], statuses[0].value, now);
      var (q2, rest) := FailStuck(b, q1, ids[1..], statuses[1..], now);
      (q2, [p] + rest)
  }

  function FailStuckOne(b: Backend, q: QueueState, id: TaskId, status: TaskPayload, now: Time): (QueueState, TaskPayload) {
    if Terminal(status.status) then (q, status)
    else if ShouldDetach(status, now) then (q, status.(error := WaitDetached))
    else
      var q1 := FailStep(b, q, id, WaitTimeout, "").0;
      var (q2, refreshed) := GetStatus(b, q1, id);
      (q2, if refreshed.Some? then refreshed.value else status.(status := FAILED, error := WaitTimeout))
  }

  predicate AllTerminal(statuses: seq<Option<TaskPayload>>) {
    forall i | 0 <= i < |statuses| :: statuses[i].Some? && Terminal(statuses[i].value.status)
  }

  function Present(statuses: seq<Option<TaskPayload>>): seq<TaskPayload> {
    if statuses == [] then []
    else (if statuses[0].Some? then [statuses[0].value] else []) + Present(statuses[1..])
  }

  function WaitPollStep(b: Backend, q: QueueState, ids: seq<TaskId>, deadline: Option<Time>, now: Time, stuckAt: Time)
    : (QueueState, Option<seq<TaskPayload>>) {
    if ids == [] then (q, Some([]))
    else
      var (q1, statuses) := Statuses(b, q, ids);
      if AllTerminal(statuses) then (q1, Some(Present(statuses)))
      else if deadline.Some? && now > deadline.value then
        var (q2, final) := FailStuck(b, q1, ids, statuses, stuckAt);
        (q2, Some(final))
      else (q1, None)
  }

  // --- the step function and its runs --------------------------------------------------------

  function Step(b: Backend, q: QueueState, op: Op): (QueueState, Answer) {
    match op
    case Submit(spec, now) => SubmitStep(b, q, spec, now)
    case SubmitMany(specs, maxActive, now, fault) => SubmitManyStep(b, q, specs, maxActive, now, fault)
    case Claim(worker, now) => var (q', p) := ClaimStep(b, q, worker, now); (q', Claimed(p))
    case Complete(id, result, worker) => CompleteStep(b, q, id, result, worker)
    case Fail(id, error, worker) => FailStep(b, q, id, error, worker)
    case Recover(now, order) => var (q', n) := RecoverStep(b, q, now, order); (q', Count(n))
    case RenewLease(id, now, extension) => (RenewStep(b, q, id, now, extension), Nothing)
    case Cancel(id) => var (q', ok) := CancelStep(b, q, id); (q', Flag(ok))
    case WaitPoll(ids, deadline, now, stuckAt) =>
      var (q', w) := WaitPollStep(b, q, ids, deadline, now, stuckAt); (q', Waited(w))
  }

  /** `order` lists every known id exactly once. */
  ghost predicate ListsIds(ids: set<TaskId>, order: seq<TaskId>) {
    && (forall i, j | 0 <= i < j < |order| :: order[i] != order[j])
    && (forall id :: id in order <==> id in ids)
  }

  /** What every call has: a full listing for the scan and, on Redis alone, new and distinct ids in a batch. */
  ghost predicate WellFormedOp(b: Backend, q: QueueState, op: Op) {
    match op
    case SubmitMany(specs, _, now, _) => b.RedisOnly? ==> DistinctFresh(q.keys, BuildPayloads(specs, now))
    case Recover(_, order) => ListsIds(Tasks(b, q).Keys, order)
    case _ => true
  }

  /** In a run single submissions bring new ids too. */
  ghost predicate LegalOp(b: Backend, q: QueueState, op: Op) {
    WellFormedOp(b, q, op) && (op.Submit? ==> op.spec.taskId !in Tasks(b, q))
  }

  /** A run from the empty queue: the operations, the state before each one and after the last, and the answers. */
  datatype Run = Run(states: seq<QueueState>, ops: seq<Op>, answers: seq<Answer>)

  ghost predicate Link(b: Backend, r: Run, i: nat)
    requires |r.states| == |r.ops| + 1 && |r.answers| == |r.ops| && i < |r.ops|
  {
    LegalOp(b, r.states[i], r.ops[i]) && Step(b, r.states[i], r.ops[i]) == (r.states[i + 1], r.answers[i])
  }

  ghost predicate IsRun(b: Backend, r: Run) {
    && |r.states| == |r.ops| + 1 && |r.answers| == |r.ops|
    && r.states[0] == EMPTY_QUEUE
    && forall i {:trigger Link(b, r, i)} | 0 <= i < |r.ops| :: Link(b, r, i)
  }
}
