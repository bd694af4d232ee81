/** The row/list hand-off at the grain of single store and Redis calls. Each actor has a program counter; an interleaving
    is any sequence of actions. Rows live in the row store (the persistence backend). */
module Handoff {
  import opened Wrappers
  import opened TaskTypes
  import opened TaskRows
  import opened Sequences
  import Q = QueueSpec

  type ActorId = nat

  /** Where an actor stands between two calls. */
  datatype Pc =
    | Idle
    | SubmitSave(payload: TaskPayload)
    | SubmitPush(id: TaskId)
    | BatchSave(payloads: seq<TaskPayload>, maxActive: nat)
    | BatchPush(rest: seq<TaskPayload>, saved: seq<TaskPayload>)
    | BatchFail(rest: seq<TaskPayload>)
    | ClaimPop(worker: WorkerId)
    | ClaimHeld(id: TaskId, worker: WorkerId)
    | Working(id: TaskId, worker: WorkerId)
    | HeartbeatCheck(id: TaskId, worker: WorkerId)
    | Stopping(id: TaskId, worker: WorkerId)
    | RecoverList
    | RecoverNext(stale: seq<TaskPayload>)
    | RecoverPush(id: TaskId, pending: seq<TaskPayload>)
    | CancelRead(id: TaskId)
    | CancelFlag(snapshot: TaskPayload)
    | CancelRemove(snapshot: TaskPayload)
    | CancelSave(snapshot: TaskPayload)
    | CancelDone(id: TaskId, ok: bool)

  datatype Action =
    | Begin(actor: ActorId, pc: Pc)                              // an idle actor enters a method
    | Advance(actor: ActorId, now: Time, order: seq<TaskId>)     // its next store or Redis call
    | ClaimSkips(actor: ActorId)                                 // the store claim passes over a row that is locked elsewhere
    | EnqueueRaises(actor: ActorId)                              // a push of a batch raises
    | Finish(actor: ActorId, outcome: Option<string>)            // a worker completes (Some) or gives up (None)
    | StoreComplete(id: TaskId, result: string, worker: WorkerId)
    | StoreFail(id: TaskId, error: TaskError, worker: WorkerId)
    | StoreRenew(id: TaskId, now: Time, extension: Time)

  datatype State = State(rows: Rows, list: seq<TaskId>, flags: set<TaskId>, pcs: map<ActorId, Pc>)

  const START := State(map[], [], {}, map[])

  function PcOf(s: State, a: ActorId): Pc { if a in s.pcs then s.pcs[a] else Idle }

  function Goto(s: State, a: ActorId, pc: Pc): State { s.(pcs := s.pcs[a := pc]) }

  /** What `build_payload` produces. */
  predicate NewlyBuilt(p: TaskPayload) {
    p == BuildPayload(QueueSubmitSpec(p.taskId, p.inputData, p.parentTaskId, p.timeoutSeconds, p.maxRetries), p.createdAt)
  }

  predicate AllNewlyBuilt(ps: seq<TaskPayload>) { forall i | 0 <= i < |ps| :: NewlyBuilt(ps[i]) }

  predicate EntryPoint(pc: Pc) {
    match pc
    case SubmitSave(p) => NewlyBuilt(p)
    case BatchSave(ps, _) => AllNewlyBuilt(ps)
    case _ => pc.ClaimPop? || pc.RecoverList? || pc.CancelRead?
  }

  /** One call by an actor that has one to make. */
  function AdvanceStep(s: State, a: ActorId, now: Time, order: seq<TaskId>): State {
    match PcOf(s, a)
    case SubmitSave(p) => Goto(s.(rows := s.rows[p.taskId := p]), a, SubmitPush(p.taskId))
    case SubmitPush(id) => Goto(s.(list := [id] + s.list), a, Idle)
    case BatchSave(ps, maxActive) =>
      var (rows, r) := Q.SaveManyWithCapacity(s.rows, ps, maxActive);
      Goto(s.(rows := rows), a, if r.Accepted? then BatchPush(ps, ps) else Idle)
    case BatchPush(rest, saved) =>
      if rest == [] then Goto(s, a, Idle)
      else Goto(s.(list := [rest[0].taskId] + s.list), a, BatchPush(rest[1..], saved))
    case BatchFail(rest) =>
      if rest == [] then Goto(s, a, Idle)
      else Goto(s.(rows := Q.FailInRows(s.rows, rest[0].taskId, OtherError("enqueue"), "").0), a, BatchFail(rest[1..]))
    case ClaimPop(worker) =>
      if s.list == [] then Goto(s, a, Idle)
      else Goto(s.(list := s.list[..|s.list| - 1]), a, ClaimHeld(s.list[|s.list| - 1], worker))
    case ClaimHeld(id, worker) =>
      var (rows, p) := Q.ClaimInRows(s.rows, id, worker, now);
      Goto(s.(rows := rows), a, if p.Some? then Working(id, worker) else ClaimPop(worker))
    case Working(id, worker) => Goto(s.(rows := Q.RenewInRows(s.rows, id, now, LEASE_EXTENSION_SECONDS)), a, HeartbeatCheck(id, worker))
    case HeartbeatCheck(id, worker) => Goto(s, a, if id in s.flags then Stopping(id, worker) else Working(id, worker))
    case Stopping(id, worker) => Goto(s.(rows := Q.FailInRows(s.rows, id, ParentCancelled, worker).0), a, Idle)
    case RecoverList => Goto(s, a, RecoverNext(Q.StaleSnapshot(Postgres, s.rows, now, order)))
    case RecoverNext(stale) =>
      if stale == [] then Goto(s, a, Idle)
      else if stale[0].retryCount < stale[0].maxRetries then
        Goto(s.(rows := s.rows[stale[0].taskId := RequeueRow(stale[0])]), a, RecoverPush(stale[0].taskId, stale[1..]))
      else
        Goto(s.(rows := Q.FailInRows(s.rows, stale[0].taskId, RetriesExhausted(stale[0].maxRetries), "").0),
             a, RecoverNext(stale[1..]))
    case RecoverPush(id, rest) => Goto(s.(list := [id] + s.list), a, RecoverNext(rest))
    case CancelRead(id) =>
      if id !in s.rows || Terminal(s.rows[id].status) then Goto(s, a, CancelDone(id, false))
      else Goto(s, a, CancelFlag(s.rows[id]))
    case CancelFlag(p) => Goto(s.(flags := s.flags + {p.taskId}), a,
                               if p.status == PENDING then CancelRemove(p) else CancelDone(p.taskId, true))
    case CancelRemove(p) => Goto(s.(list := Without(s.list, p.taskId)), a, CancelSave(p))
    case CancelSave(p) => Goto(s.(rows := s.rows[p.taskId := CancelRow(p)]), a, CancelDone(p.taskId, true))
    case _ => s
  }

  /** The actor's next call is a transaction that locks or writes the row: the count of a batch under the same parent, a
      claim, or a write that goes through. */
  predicate Locks(rows: Rows, pc: Pc, id: TaskId) {
    && id in rows
    && match pc
       case BatchSave(ps, _) =>
         ps != [] && Q.SameParent(ps) && Active(rows[id]) && rows[id].parentTaskId == ps[0].parentTaskId
       case BatchFail(rest) => rest != [] && rest[0].taskId == id && Active(rows[id])
       case ClaimHeld(i, _) => i == id && rows[id].status == PENDING
       case Working(i, _) => i == id && rows[id].status == RUNNING
       case Stopping(i, worker) => i == id && CanFail(rows[id], worker)
       case RecoverNext(stale) =>
         stale != [] && stale[0].taskId == id && (stale[0].retryCount < stale[0].maxRetries || Active(rows[id]))
       case SubmitSave(p) => p.taskId == id
       case CancelSave(p) => p.taskId == id
       case _ => false
  }

  predicate LockedElsewhere(s: State, a: ActorId, id: TaskId) {
    exists o | o in s.pcs :: o != a && Locks(s.rows, s.pcs[o], id)
  }

  function Do(s: State, act: Action): State {
    match act
    case Begin(a, pc) =>
      if (PcOf(s, a).Idle? || PcOf(s, a).CancelDone?) && EntryPoint(pc) then Goto(s, a, pc) else s
    case Advance(a, now, order) => AdvanceStep(s, a, now, order)
    case ClaimSkips(a) =>
      if PcOf(s, a).ClaimHeld? && LockedElsewhere(s, a, PcOf(s, a).id) then Goto(s, a, ClaimPop(PcOf(s, a).worker)) else s
    case EnqueueRaises(a) =>
      if PcOf(s, a).BatchPush? then Goto(s, a, BatchFail(PcOf(s, a).saved)) else s
    case Finish(a, outcome) =>
      if !PcOf(s, a).Working? then s
      else
        var (id, worker) := (PcOf(s, a).id, PcOf(s, a).worker);
        Goto(s.(rows := if outcome.Some? then Q.CompleteInRows(s.rows, id, outcome.value, worker).0
                        else Q.FailInRows(s.rows, id, OtherError("failed"), worker).0), a, Idle)
    case StoreComplete(id, result, worker) => s.(rows := Q.CompleteInRows(s.rows, id, result, worker).0)
    case StoreFail(id, error, worker) => s.(rows := Q.FailInRows(s.rows, id, error, worker).0)
    case StoreRenew(id, now, extension) => s.(rows := Q.RenewInRows(s.rows, id, now, extension))
  }

  /** The state an interleaving leads to. */
  function Exec(s: State, acts: seq<Action>): State
    decreases |acts|
  {
    if acts == [] then s else Do(Exec(s, acts[..|acts| - 1]), acts[|acts| - 1])
  }

  // --- no lost task ----------------------------------------------------------------------------

  ghost predicate InPayloads(ps: seq<TaskPayload>, id: TaskId) { exists i | 0 <= i < |ps| :: ps[i].taskId == id }

  /** The actor holds the id between pop and claim, or still has to push it or to fail it. */
  ghost predicate Owes(pc: Pc, id: TaskId) {
    match pc
    case SubmitPush(i) => i == id
    case BatchPush(rest, _) => InPayloads(rest, id)
    case BatchFail(rest) => InPayloads(rest, id)
    case ClaimHeld(i, _) => i == id
    case RecoverPush(i, _) => i == id
    case CancelSave(p) => p.taskId == id
    case _ => false
  }

  ghost predicate AtHand(s: State, id: TaskId) {
    id in s.list || exists a :: a in s.pcs && Owes(s.pcs[a], id)
  }

  ghost predicate NothingLost(s: State) {
    forall id | id in s.rows && s.rows[id].status == PENDING :: AtHand(s, id)
  }

  /** What the program counters remember is consistent with the rows and flags. */
  ghost predicate PcOk(s: State, pc: Pc) {
    match pc
    case SubmitSave(p) => NewlyBuilt(p)
    case BatchSave(ps, _) => AllNewlyBuilt(ps)
    case BatchPush(rest, saved) =>
      forall id :: InPayloads(rest, id) ==> InPayloads(saved, id)
    case RecoverNext(stale) => forall i | 0 <= i < |stale| :: stale[i].status == RUNNING
    case RecoverPush(_, rest) => forall i | 0 <= i < |rest| :: rest[i].status == RUNNING
    case CancelFlag(p) => Active(p)
    case CancelRemove(p) => p.status == PENDING && p.taskId in s.flags
    case CancelSave(p) => p.status == PENDING && p.taskId in s.flags
    case CancelDone(id, ok) => ok ==> id in s.flags
    case _ => true
  }

  ghost predicate PcsOk(s: State) { forall a | a in s.pcs :: PcOk(s, s.pcs[a]) }

  lemma {:induction false} SnapshotRunning(rows: Rows, now: Time, order: seq<TaskId>)
    ensures forall i | 0 <= i < |Q.StaleSnapshot(Postgres, rows, now, order)| ::
              Q.StaleSnapshot(Postgres, rows, now, order)[i].status == RUNNING
    decreases |order|
  {
    if order != [] { SnapshotRunning(rows, now, order[1..]); }
  }

  lemma InTail(ps: seq<TaskPayload>, id: TaskId)
    requires ps != []
    ensures InPayloads(ps, id) <==> ps[0].taskId == id || InPayloads(ps[1..], id)
  {
    if i :| 0 <= i < |ps| && ps[i].taskId == id && i > 0 { assert ps[1..][i - 1].taskId == id; }
    if i :| 0 <= i < |ps[1..]| && ps[1..][i].taskId == id { assert ps[i + 1].taskId == id; }
  }

  lemma FlagsGrow(s: State, act: Action)
    ensures s.flags <= Do(s, act).flags
  {
  }

  /** The actor that moves: everyone else stays where they were. */
  function Mover(act: Action): Option<ActorId> {
    match act
    case Begin(a, _) => Some(a)
    case Advance(a, _, _) => Some(a)
    case ClaimSkips(a) => Some(a)
    case EnqueueRaises(a) => Some(a)
    case Finish(a, _) => Some(a)
    case _ => None
  }

  lemma OthersStay(s: State, act: Action, a: ActorId)
    requires Mover(act) != Some(a)
    ensures a in Do(s, act).pcs <==> a in s.pcs
    ensures PcOf(Do(s, act), a) == PcOf(s, a)
  {
  }

  lemma PcOkKept(s: State, act: Action, pc: Pc)
    requires PcOk(s, pc)
    ensures PcOk(Do(s, act), pc)
  {
    FlagsGrow(s, act);
  }

  lemma MoverPcOk(s: State, act: Action, a: ActorId)
    requires PcOk(s, PcOf(s, a)) && Mover(act) == Some(a)
    ensures PcOk(Do(s, act), PcOf(Do(s, act), a))
  {
    PcOkKept(s, act, PcOf(s, a));
    if act.Advance? {
      match PcOf(s, a)
      case RecoverList => SnapshotRunning(s.rows, act.now, act.order);
      case BatchPush(rest, saved) => if rest != [] { forall id { InTail(rest, id); } }
      case _ =>
    }
  }

  lemma StepKeepsPcsOk(s: State, act: Action)
    requires PcsOk(s)
    ensures PcsOk(Do(s, act))
  {
    var s' := Do(s, act);
    forall a | a in s'.pcs ensures PcOk(s', s'.pcs[a]) {
      if Mover(act) == Some(a) {
        MoverPcOk(s, act, a);
      } else {
        OthersStay(s, act, a);
        PcOkKept(s, act, PcOf(s, a));
      }
    }
  }

  lemma {:induction false} AddRowsOnlyAdds(rows: Rows, ps: seq<TaskPayload>, id: TaskId)
    requires AllNewlyBuilt(ps)
    ensures var m := Q.AddRows(rows, ps);
            id in m ==> (id in rows && m[id] == rows[id]) || (InPayloads(ps, id) && m[id].status == PENDING)
    decreases |ps|
  {
    if ps != [] {
      InTail(ps, id);
      AddRowsOnlyAdds(rows[ps[0].taskId := ps[0]], ps[1..], id);
    }
  }

  /** Only these calls put a row into PENDING. */
  lemma NewPendingIsWritten(s: State, act: Action, id: TaskId)
    requires PcsOk(s)
    requires id in Do(s, act).rows && Do(s, act).rows[id].status == PENDING
    requires !(id in s.rows && s.rows[id].status == PENDING)
    ensures act.Advance? && var pc := PcOf(s, act.actor);
      || pc.BatchSave? || (pc.SubmitSave? && pc.payload.taskId == id)
      || (pc.RecoverNext? && pc.stale != [] && pc.stale[0].retryCount < pc.stale[0].maxRetries && pc.stale[0].taskId == id)
  {
  }

  /** Whoever puts a row into PENDING still owes the push. */
  lemma NewPendingIsOwed(s: State, act: Action, id: TaskId)
    requires PcsOk(s)
    requires id in Do(s, act).rows && Do(s, act).rows[id].status == PENDING
    requires !(id in s.rows && s.rows[id].status == PENDING)
    ensures act.Advance? && act.actor in Do(s, act).pcs && Owes(Do(s, act).pcs[act.actor], id)
  {
    NewPendingIsWritten(s, act, id);
    assert PcOk(s, s.pcs[act.actor]);
    if PcOf(s, act.actor).BatchSave? { AddRowsOnlyAdds(s.rows, PcOf(s, act.actor).payloads, id); }
  }

  /** A list entry leaves only into a claimer's hands or a cancellation's. */
  lemma ListedStaysAtHand(s: State, act: Action, id: TaskId)
    requires id in s.list
    ensures AtHand(Do(s, act), id)
  {
    var s' := Do(s, act);
    if act.Advance? {
      match PcOf(s, act.actor)
      case ClaimPop(worker) => assert s.list == s.list[..|s.list| - 1] + [s.list[|s.list| - 1]];
        if id !in s'.list { assert Owes(s'.pcs[act.actor], id); }
      case CancelRemove(p) => WithoutShape(s.list, p.taskId);
        if id !in s'.list { assert Owes(s'.pcs[act.actor], id); }
      case _ =>
    }
  }

  /** A claimer gives up the id it popped because another actor's transaction has the row locked, and nobody else has the
      id. */
  ghost predicate DropsLastTrace(s: State, act: Action, id: TaskId) {
    && act.ClaimSkips? && PcOf(s, act.actor).ClaimHeld? && PcOf(s, act.actor).id == id
    && LockedElsewhere(s, act.actor, id)
    && id !in s.list && forall a | a in s.pcs && a != act.actor :: !Owes(s.pcs[a], id)
  }

  /** A debt is kept, or paid by a push, or paid by taking the row out of PENDING, or handed to the compensation. */
  lemma DebtIsPaid(s: State, act: Action, id: TaskId, a: ActorId)
    requires PcsOk(s) && a in s.pcs && Owes(s.pcs[a], id) && !(act.ClaimSkips? && act.actor == a)
    requires id in Do(s, act).rows && Do(s, act).rows[id].status == PENDING
    ensures AtHand(Do(s, act), id)
  {
    var s' := Do(s, act);
    if Mover(act) != Some(a) {
      OthersStay(s, act, a);
      assert Owes(s'.pcs[a], id);
    } else {
      assert PcOk(s, s.pcs[a]);
      if (s.pcs[a].BatchPush? || s.pcs[a].BatchFail?) && s.pcs[a].rest != [] { InTail(s.pcs[a].rest, id); }
      assert id in s'.list || Owes(s'.pcs[a], id);
    }
  }

  lemma SkippedElsewhere(s: State, act: Action, id: TaskId)
    requires act.ClaimSkips? && AtHand(s, id) && !DropsLastTrace(s, act, id)
    ensures AtHand(Do(s, act), id)
  {
    if id !in s.list && Do(s, act) != s {
      var a :| a in s.pcs && Owes(s.pcs[a], id);
      var other := if a != act.actor || !PcOf(s, a).ClaimHeld? then a
                   else var o :| o in s.pcs && o != act.actor && Owes(s.pcs[o], id); o;
      assert other in Do(s, act).pcs && Owes(Do(s, act).pcs[other], id);
    }
  }

  lemma DroppedIsLost(s: State, act: Action, id: TaskId)
    requires DropsLastTrace(s, act, id)
    ensures !AtHand(Do(s, act), id) && Do(s, act).rows == s.rows
  {
    forall a | a in Do(s, act).pcs ensures !Owes(Do(s, act).pcs[a], id) {
      if a != act.actor { OthersStay(Do(s, act), act, a); }
    }
  }

  /** The one way to lose a pending task: a claim that passes over its row while holding the last trace of its id. */
  lemma StepLosesIff(s: State, act: Action, id: TaskId)
    requires PcsOk(s) && NothingLost(s)
    requires id in Do(s, act).rows && Do(s, act).rows[id].status == PENDING
    ensures !AtHand(Do(s, act), id) <==> DropsLastTrace(s, act, id)
  {
    if DropsLastTrace(s, act, id) {
      DroppedIsLost(s, act, id);
    } else if !(id in s.rows && s.rows[id].status == PENDING) {
      NewPendingIsOwed(s, act, id);
    } else if act.ClaimSkips? {
      SkippedElsewhere(s, act, id);
    } else if id in s.list {
      ListedStaysAtHand(s, act, id);
    } else {
      var a :| a in s.pcs && Owes(s.pcs[a], id);
      DebtIsPaid(s, act, id, a);
    }
  }

  lemma {:induction false} PcsStayOk(acts: seq<Action>)
    ensures PcsOk(Exec(START, acts))
    decreases |acts|
  {
    if acts != [] {
      PcsStayOk(acts[..|acts| - 1]);
      StepKeepsPcsOk(Exec(START, acts[..|acts| - 1]), acts[|acts| - 1]);
    }
  }

  /** The action drops a pending task. */
  ghost predicate DropsTask(s: State, act: Action) {
    exists id :: DropsLastTrace(s, act, id) && id in s.rows && s.rows[id].status == PENDING
  }

  /** No action of the interleaving drops a pending task. */
  ghost predicate NoTaskDropped(acts: seq<Action>) {
    acts == [] ||
    (NoTaskDropped(acts[..|acts| - 1]) && !DropsTask(Exec(START, acts[..|acts| - 1]), acts[|acts| - 1]))
  }

  /** Nothing is lost at any point of the interleaving. */
  ghost predicate NeverLost(acts: seq<Action>) {
    NothingLost(Exec(START, acts)) && (acts == [] || NeverLost(acts[..|acts| - 1]))
  }

  /** No lost task: after an interleaving in which no claim drops the last trace of a pending row, each pending row is
      listed, held or owed. */
  lemma {:induction false} NoLostTask(acts: seq<Action>)
    requires NoTaskDropped(acts)
    ensures NothingLost(Exec(START, acts))
    decreases |acts|
  {
    if acts != [] {
      var s, act := Exec(START, acts[..|acts| - 1]), acts[|acts| - 1];
      NoLostTask(acts[..|acts| - 1]);
      PcsStayOk(acts[..|acts| - 1]);
      forall id | id in Do(s, act).rows && Do(s, act).rows[id].status == PENDING ensures AtHand(Do(s, act), id) {
        StepLosesIff(s, act, id);
        if DropsLastTrace(s, act, id) { DroppedIsLost(s, act, id); }
      }
    }
  }

  lemma DropLoses(s: State, act: Action)
    requires DropsTask(s, act)
    ensures !NothingLost(Do(s, act))
  {
    var id :| DropsLastTrace(s, act, id) && id in s.rows && s.rows[id].status == PENDING;
    DroppedIsLost(s, act, id);
  }

  /** And exactly then: a dropped task is lost at once. */
  lemma {:induction false} NothingLostIff(acts: seq<Action>)
    ensures NoTaskDropped(acts) <==> NeverLost(acts)
    decreases |acts|
  {
    if acts != [] {
      var init := acts[..|acts| - 1];
      NothingLostIff(init);
      if NoTaskDropped(acts) {
        NoLostTask(acts);
      } else if NoTaskDropped(init) {
        DropLoses(Exec(START, init), acts[|acts| - 1]);
      }
    }
  }

  /** Once every actor is between methods or at work, every pending row is in the list itself. */
  lemma QuiescentPendingIsListed(acts: seq<Action>, id: TaskId)
    requires NoTaskDropped(acts)
    requires var s := Exec(START, acts); forall a | a in s.pcs :: s.pcs[a].Idle? || s.pcs[a].Working? || s.pcs[a].CancelDone?
    requires id in Exec(START, acts).rows && Exec(START, acts).rows[id].status == PENDING
    ensures id in Exec(START, acts).list
  {
    NoLostTask(acts);
  }

  // --- claims ----------------------------------------------------------------------------------

  /** Stale and duplicate list entries are harmless: RUNNING is entered only from PENDING, by the claimer that holds the id. */
  lemma OnlyPendingIsClaimed(acts: seq<Action>, act: Action, id: TaskId)
    requires id in Do(Exec(START, acts), act).rows && Do(Exec(START, acts), act).rows[id].status == RUNNING
    requires !(id in Exec(START, acts).rows && Exec(START, acts).rows[id].status == RUNNING)
    ensures var s := Exec(START, acts);
            && act.Advance? && PcOf(s, act.actor).ClaimHeld? && PcOf(s, act.actor).id == id
            && id in s.rows && s.rows[id].status == PENDING
            && Do(s, act).rows[id] == ClaimRow(s.rows[id], PcOf(s, act.actor).worker, act.now)
  {
    PcsStayOk(acts);
    RunningIsEnteredByClaim(Exec(START, acts), act, id);
  }

  lemma RunningIsEnteredByClaim(s: State, act: Action, id: TaskId)
    requires PcsOk(s)
    requires id in Do(s, act).rows && Do(s, act).rows[id].status == RUNNING
    requires !(id in s.rows && s.rows[id].status == RUNNING)
    ensures act.Advance? && PcOf(s, act.actor).ClaimHeld? && PcOf(s, act.actor).id == id
    ensures id in s.rows && s.rows[id].status == PENDING
    ensures Do(s, act).rows[id] == ClaimRow(s.rows[id], PcOf(s, act.actor).worker, act.now)
  {
    if Mover(act).Some? && Mover(act).value in s.pcs { assert PcOk(s, s.pcs[Mover(act).value]); }
    if act.Advance? && PcOf(s, act.actor).BatchSave? { AddRowsOnlyAdds(s.rows, PcOf(s, act.actor).payloads, id); }
  }

  // --- cancellation ----------------------------------------------------------------------------

  lemma {:induction false} FlagsStay(acts: seq<Action>, more: seq<Action>)
    ensures Exec(START, acts).flags <= Exec(START, acts + more).flags
    decreases |more|
  {
    if more == [] {
      assert acts + more == acts;
    } else {
      var all := acts + more;
      assert all[..|all| - 1] == acts + more[..|more| - 1];
      FlagsStay(acts, more[..|more| - 1]);
      FlagsGrow(Exec(START, all[..|all| - 1]), all[|all| - 1]);
    }
  }

  lemma {:induction false} WorkerStays(s: State, acts: seq<Action>, w: ActorId)
    requires w in s.pcs && forall k | 0 <= k < |acts| :: Mover(acts[k]) != Some(w)
    ensures w in Exec(s, acts).pcs && Exec(s, acts).pcs[w] == s.pcs[w]
    decreases |acts|
  {
    if acts != [] {
      WorkerStays(s, acts[..|acts| - 1], w);
      OthersStay(Exec(s, acts[..|acts| - 1]), acts[|acts| - 1], w);
    }
  }

  lemma FlagStopsTheWorker(s: State, w: ActorId, now: Time, order: seq<TaskId>)
    requires PcOf(s, w).HeartbeatCheck?
    ensures PcOf(Do(s, Advance(w, now, order)), w)
         == if PcOf(s, w).id in s.flags then Stopping(PcOf(s, w).id, PcOf(s, w).worker) else Working(PcOf(s, w).id, PcOf(s, w).worker)
  {
  }

  lemma StoppingLetsGo(s: State, w: ActorId, now: Time, order: seq<TaskId>)
    requires PcOf(s, w).Stopping?
    ensures var rows := Do(s, Advance(w, now, order)).rows;
      !(PcOf(s, w).id in rows && rows[PcOf(s, w).id].status == RUNNING && rows[PcOf(s, w).id].workerId == PcOf(s, w).worker)
  {
  }

  /** Once a cancellation has answered True, the flag is up for good: however cancel and claim interleave, a worker that
      reads the flag in a later heartbeat round stops, and after its failure write, whatever others do before it, its row
      is not RUNNING under it. */
  lemma CancelReachesTheWorker(acts: seq<Action>, c: ActorId, id: TaskId, more: seq<Action>, w: ActorId, between: seq<Action>,
                               now: Time, order: seq<TaskId>, later: Time, order2: seq<TaskId>)
    requires PcOf(Exec(START, acts), c) == CancelDone(id, true)
    requires forall k | 0 <= k < |between| :: Mover(between[k]) != Some(w)
    ensures id in Exec(START, acts + more).flags
    ensures var s := Exec(START, acts + more);
      PcOf(s, w).HeartbeatCheck? && PcOf(s, w).id == id ==>
        var s1 := Do(s, Advance(w, now, order));
        var s2 := Exec(s1, between);
        var s3 := Do(s2, Advance(w, later, order2));
        && PcOf(s1, w) == Stopping(id, PcOf(s, w).worker)
        && PcOf(s2, w) == Stopping(id, PcOf(s, w).worker)
        && !(id in s3.rows && s3.rows[id].status == RUNNING && s3.rows[id].workerId == PcOf(s, w).worker)
  {
    PcsStayOk(acts);
    assert PcOk(Exec(START, acts), Exec(START, acts).pcs[c]);
    FlagsStay(acts, more);
    var s := Exec(START, acts + more);
    if PcOf(s, w).HeartbeatCheck? && PcOf(s, w).id == id {
      FlagStopsTheWorker(s, w, now, order);
      var s1 := Do(s, Advance(w, now, order));
      WorkerStays(s1, between, w);
      StoppingLetsGo(Exec(s1, between), w, later, order2);
    }
  }
}
