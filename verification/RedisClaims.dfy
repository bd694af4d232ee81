/** Redis alone at the grain of single Redis calls: there a claim, a completion, a failure, a requeue and a cancellation each
    read the key of a task in one call and write it back in a later one. */
module RedisClaims {
  import opened Wrappers
  import opened TaskTypes
  import opened TaskRows
  import opened Sequences
  import Q = QueueSpec

  type ActorId = nat

  /** Where an actor stands between two calls; `read` is the payload it has read and will write back changed. */
  datatype Pc =
    | Idle
    | SubmitSave(payload: TaskPayload)
    | Push(id: TaskId)
    | ClaimPop(worker: WorkerId)
    | ClaimRead(id: TaskId, worker: WorkerId)
    | ClaimWrite(read: TaskPayload, worker: WorkerId)
    | Claimed(payload: TaskPayload)
    | UpdateRead(id: TaskId, target: TaskStatus, result: Option<string>, error: TaskError, worker: WorkerId)
    | UpdateWrite(read: TaskPayload, target: TaskStatus, result: Option<string>, error: TaskError, worker: WorkerId)
    | RecoverRead(id: TaskId)
    | RecoverWrite(read: TaskPayload)
    | CancelRead(id: TaskId)
    | CancelRemove(read: TaskPayload)
    | CancelWrite(read: TaskPayload)

  datatype Action =
    | Begin(actor: ActorId, pc: Pc)           // an actor that is in no method enters one
    | Advance(actor: ActorId, now: Time)      // its next Redis call

  datatype State = State(keys: Rows, list: seq<TaskId>, pcs: map<ActorId, Pc>)

  const START := State(map[], [], map[])

  function PcOf(s: State, a: ActorId): Pc { if a in s.pcs then s.pcs[a] else Idle }

  function Goto(s: State, a: ActorId, pc: Pc): State { s.(pcs := s.pcs[a := pc]) }

  predicate EntryPoint(pc: Pc) {
    pc.SubmitSave? || pc.ClaimPop? || pc.UpdateRead? || pc.RecoverRead? || pc.CancelRead?
  }

  /** What the actor's next call writes, if it writes a key. */
  function Written(pc: Pc, now: Time): Option<TaskPayload> {
    match pc
    case SubmitSave(p) => Some(p)
    case ClaimWrite(p, worker) => Some(ClaimRow(p, worker, now))
    case UpdateWrite(p, target, result, error, _) => Some(p.(status := target, result := result, error := error))
    case RecoverWrite(p) => Some(RequeueRow(p))
    case CancelWrite(p) => Some(CancelRow(p))
    case _ => None
  }

  function KeysAfter(s: State, a: ActorId, now: Time): Rows {
    var w := Written(PcOf(s, a), now);
    if w.Some? then s.keys[w.value.taskId := w.value] else s.keys
  }

  function ListAfter(s: State, pc: Pc): seq<TaskId> {
    match pc
    case Push(id) => [id] + s.list
    case ClaimPop(_) => if s.list == [] then [] else s.list[..|s.list| - 1]
    case CancelRemove(p) => Without(s.list, p.taskId)
    case _ => s.list
  }

  function PcAfter(s: State, pc: Pc, now: Time): Pc {
    match pc
    case SubmitSave(p) => Push(p.taskId)
    case ClaimPop(worker) => if s.list == [] then Idle else ClaimRead(s.list[|s.list| - 1], worker)
    case ClaimRead(id, worker) =>
      if id in s.keys && s.keys[id].status == PENDING then ClaimWrite(s.keys[id], worker) else ClaimPop(worker)
    case ClaimWrite(p, worker) => Claimed(ClaimRow(p, worker, now))
    case UpdateRead(id, target, result, error, worker) =>
      if id in s.keys && CanUpdateTerminal(s.keys[id], target, worker) && (worker == "" || s.keys[id].workerId == worker)
      then UpdateWrite(s.keys[id], target, result, error, worker) else Idle
    case RecoverRead(id) =>
      if !(id in s.keys && Stale(RedisOnly, s.keys[id], now)) then Idle
      else if s.keys[id].retryCount < s.keys[id].maxRetries then RecoverWrite(s.keys[id])
      else UpdateRead(id, FAILED, None, RetriesExhausted(s.keys[id].maxRetries), "")
    case RecoverWrite(p) => Push(p.taskId)
    case CancelRead(id) => if id in s.keys && s.keys[id].status == PENDING then CancelRemove(s.keys[id]) else Idle
    case CancelRemove(p) => CancelWrite(p)
    case Claimed(_) => pc
    case _ => Idle
  }

  function Do(s: State, act: Action): State {
    match act
    case Begin(a, pc) => if (PcOf(s, a).Idle? || PcOf(s, a).Claimed?) && EntryPoint(pc) then Goto(s, a, pc) else s
    case Advance(a, now) =>
      State(KeysAfter(s, a, now), ListAfter(s, PcOf(s, a)), s.pcs[a := PcAfter(s, PcOf(s, a), now)])
  }

  function Exec(s: State, acts: seq<Action>): State
    decreases |acts|
  {
    if acts == [] then s else Do(Exec(s, acts[..|acts| - 1]), acts[|acts| - 1])
  }

  // --- when a method is as good as one step --------------------------------------------------------

  /** The payload an actor holds between its read and its write. */
  function Held(pc: Pc): Option<TaskPayload> {
    match pc
    case ClaimWrite(p, _) => Some(p)
    case UpdateWrite(p, _, _, _, _) => Some(p)
    case RecoverWrite(p) => Some(p)
    case CancelRemove(p) => Some(p)
    case CancelWrite(p) => Some(p)
    case _ => None
  }

  /** The actor's payload is still what the key holds. */
  ghost predicate Current(s: State, a: ActorId) {
    var held := Held(PcOf(s, a));
    held.Some? ==> Lookup(s.keys, held.value.taskId) == held
  }

  ghost predicate AllCurrent(s: State) { forall a | a in s.pcs :: Current(s, a) }

  /** The call writes a key that another actor has read and is about to write back. */
  ghost predicate Overtakes(s: State, act: Action) {
    act.Advance? && exists o :: o in s.pcs && WritesOver(s, act, o)
  }

  ghost predicate WritesOver(s: State, act: Action, o: ActorId)
    requires act.Advance?
  {
    var w, held := Written(PcOf(s, act.actor), act.now), Held(PcOf(s, o));
    o != act.actor && w.Some? && held.Some? && w.value.taskId == held.value.taskId && w.value != held.value
  }

  ghost predicate Keyed(s: State) { forall id | id in s.keys :: s.keys[id].taskId == id }

  lemma StepKeepsKeyed(s: State, act: Action)
    requires Keyed(s)
    ensures Keyed(Do(s, act))
  {
  }

  lemma StaysCurrentIff(s: State, act: Action, o: ActorId)
    requires Keyed(s) && Current(s, o)
    ensures Current(Do(s, act), o) <==> !(act.Advance? && WritesOver(s, act, o))
  {
  }

  lemma StepOvertakesIff(s: State, act: Action)
    requires Keyed(s) && AllCurrent(s)
    ensures AllCurrent(Do(s, act)) <==> !Overtakes(s, act)
  {
    if Overtakes(s, act) {
      var o :| o in s.pcs && WritesOver(s, act, o);
      StaysCurrentIff(s, act, o);
      assert o in Do(s, act).pcs;
    } else {
      forall o | o in Do(s, act).pcs ensures Current(Do(s, act), o) {
        StaysCurrentIff(s, act, o);
      }
    }
  }

  lemma {:induction false} AlwaysKeyed(acts: seq<Action>)
    ensures Keyed(Exec(START, acts))
    decreases |acts|
  {
    if acts != [] {
      AlwaysKeyed(acts[..|acts| - 1]);
      StepKeepsKeyed(Exec(START, acts[..|acts| - 1]), acts[|acts| - 1]);
    }
  }

  ghost predicate AlwaysCurrent(acts: seq<Action>) {
    AllCurrent(Exec(START, acts)) && (acts == [] || AlwaysCurrent(acts[..|acts| - 1]))
  }

  ghost predicate NeverOvertaken(acts: seq<Action>) {
    acts == [] ||
    (NeverOvertaken(acts[..|acts| - 1]) && !Overtakes(Exec(START, acts[..|acts| - 1]), acts[|acts| - 1]))
  }

  /** Every payload read is still current when it is written back, at every point of an interleaving, exactly if no call
      writes a key between another actor's read and write of it. */
  lemma {:induction false} AlwaysCurrentIff(acts: seq<Action>)
    ensures AlwaysCurrent(acts) <==> NeverOvertaken(acts)
    decreases |acts|
  {
    if acts != [] {
      var init := acts[..|acts| - 1];
      AlwaysCurrentIff(init);
      AlwaysKeyed(init);
      if AlwaysCurrent(init) { StepOvertakesIff(Exec(START, init), acts[|acts| - 1]); }
    }
  }

  /** What an actor holds has passed the test of its method. */
  predicate PcOk(pc: Pc) {
    match pc
    case ClaimWrite(p, _) => p.status == PENDING
    case UpdateWrite(p, target, _, _, worker) =>
      CanUpdateTerminal(p, target, worker) && (worker == "" || p.workerId == worker)
    case RecoverWrite(p) => p.status == RUNNING && p.retryCount < p.maxRetries
    case CancelRemove(p) => p.status == PENDING
    case CancelWrite(p) => p.status == PENDING
    case _ => true
  }

  lemma {:induction false} AlwaysPcsOk(acts: seq<Action>, a: ActorId)
    ensures PcOk(PcOf(Exec(START, acts), a))
    decreases |acts|
  {
    if acts != [] { AlwaysPcsOk(acts[..|acts| - 1], a); }
  }

  /** The whole method as one step of the queue, on the keys. */
  function MethodKeys(q: Q.QueueState, pc: Pc, now: Time): Rows
    requires Held(pc).Some?
  {
    match pc
    case ClaimWrite(p, worker) => Q.ClaimPopped(RedisOnly, q, p.taskId, worker, now).0.keys
    case UpdateWrite(p, target, result, error, worker) => Q.UpdateTerminal(q, p.taskId, target, result, error, worker).0.keys
    case RecoverWrite(p) => if p.taskId in q.keys then Q.RecoverOne(RedisOnly, q, q.keys[p.taskId]).0.keys else q.keys
    case CancelRemove(p) => q.keys
    case CancelWrite(p) => Q.CancelStep(RedisOnly, q, p.taskId).0.keys
  }

  /** A write of a current payload does to the keys what the whole method does as one step. So without overtaking every
      method acts on Redis alone as it does in the runs of whole methods, and a claim takes a task that is PENDING. */
  lemma CurrentWriteIsTheMethod(acts: seq<Action>, a: ActorId, now: Time)
    requires Current(Exec(START, acts), a) && Held(PcOf(Exec(START, acts), a)).Some?
    ensures var s := Exec(START, acts);
      && Do(s, Advance(a, now)).keys == MethodKeys(Q.QueueState(map[], s.keys, s.list, {}, {}), PcOf(s, a), now)
      && (PcOf(s, a).ClaimWrite? ==> PcOf(s, a).read.taskId in s.keys && s.keys[PcOf(s, a).read.taskId].status == PENDING)
  {
    AlwaysPcsOk(acts, a);
    AlwaysKeyed(acts);
  }

  // --- when a task is claimed twice ----------------------------------------------------------------

  /** The actor's next call would claim a task that is no longer PENDING, over whoever took it. */
  ghost predicate ClaimsTwice(s: State, a: ActorId) {
    PcOf(s, a).ClaimWrite? && var id := PcOf(s, a).read.taskId; !(id in s.keys && s.keys[id].status == PENDING)
  }

  ghost predicate NobodyClaimsTwice(s: State) { forall a | a in s.pcs :: !ClaimsTwice(s, a) }

  /** The call takes a task out of PENDING that actor `o` has read as PENDING and is about to claim. */
  ghost predicate TakesFrom(s: State, act: Action, o: ActorId) {
    act.Advance? && o != act.actor && PcOf(s, o).ClaimWrite? &&
    var w := Written(PcOf(s, act.actor), act.now);
    w.Some? && w.value.taskId == PcOf(s, o).read.taskId && w.value.status != PENDING
  }

  ghost predicate TakesFromAClaimer(s: State, act: Action) { exists o :: o in s.pcs && TakesFrom(s, act, o) }

  lemma ClaimsTwiceIff(s: State, act: Action, o: ActorId)
    requires Keyed(s) && !ClaimsTwice(s, o)
    ensures ClaimsTwice(Do(s, act), o) <==> TakesFrom(s, act, o)
  {
  }

  lemma StepLetsClaimTwiceIff(s: State, act: Action)
    requires Keyed(s) && NobodyClaimsTwice(s)
    ensures NobodyClaimsTwice(Do(s, act)) <==> !TakesFromAClaimer(s, act)
  {
    if TakesFromAClaimer(s, act) {
      var o :| o in s.pcs && TakesFrom(s, act, o);
      ClaimsTwiceIff(s, act, o);
      assert o in Do(s, act).pcs;
    } else {
      forall o | o in Do(s, act).pcs ensures !ClaimsTwice(Do(s, act), o) {
        ClaimsTwiceIff(s, act, o);
      }
    }
  }

  ghost predicate NeverClaimedTwice(acts: seq<Action>) {
    NobodyClaimsTwice(Exec(START, acts)) && (acts == [] || NeverClaimedTwice(acts[..|acts| - 1]))
  }

  ghost predicate NothingTakenFromClaimers(acts: seq<Action>) {
    acts == [] ||
    (NothingTakenFromClaimers(acts[..|acts| - 1])
     && !TakesFromAClaimer(Exec(START, acts[..|acts| - 1]), acts[|acts| - 1]))
  }

  /** No point of an interleaving lets a task be claimed twice exactly if no call of it takes a task out of PENDING between
      another claimer's read and write. */
  lemma {:induction false} ClaimedTwiceIff(acts: seq<Action>)
    ensures NeverClaimedTwice(acts) <==> NothingTakenFromClaimers(acts)
    decreases |acts|
  {
    if acts != [] {
      var init := acts[..|acts| - 1];
      ClaimedTwiceIff(init);
      AlwaysKeyed(init);
      if NeverClaimedTwice(init) { StepLetsClaimTwiceIff(Exec(START, init), acts[|acts| - 1]); }
    }
  }

  // --- two recoveries and two claims of one task ---------------------------------------------------

  const CHILD := BuildPayload(QueueSubmitSpec("t", "", "p", 10.0, 1), 1.0)
  const TAKEN := ClaimRow(CHILD, "w", 1.0)
  const RETRIED := RequeueRow(TAKEN)

  lemma Extend(acts: seq<Action>, s: State, act: Action)
    requires Exec(START, acts) == s
    ensures Exec(START, acts + [act]) == Do(s, act)
  {
    assert (acts + [act])[..|acts|] == acts;
  }

  /** An idle actor enters a method and makes its first call. */
  lemma Enters(before: seq<Action>, s: State, a: ActorId, pc: Pc, now: Time) returns (acts: seq<Action>)
    requires Exec(START, before) == s && PcOf(s, a).Idle? && EntryPoint(pc)
    ensures Exec(START, acts) == Do(s.(pcs := s.pcs[a := pc]), Advance(a, now))
  {
    Extend(before, s, Begin(a, pc));
    Extend(before + [Begin(a, pc)], s.(pcs := s.pcs[a := pc]), Advance(a, now));
    acts := before + [Begin(a, pc)] + [Advance(a, now)];
  }

  lemma ReadsStale(before: seq<Action>, s: State, a: ActorId) returns (acts: seq<Action>)
    requires Exec(START, before) == s && PcOf(s, a).Idle? && s.keys == map["t" := TAKEN]
    ensures Exec(START, acts) == s.(pcs := s.pcs[a := RecoverWrite(TAKEN)])
  {
    acts := Enters(before, s, a, RecoverRead("t"), 20.0);
    assert s.pcs[a := RecoverRead("t")][a := RecoverWrite(TAKEN)] == s.pcs[a := RecoverWrite(TAKEN)];
  }

  lemma Requeues(before: seq<Action>, s: State, a: ActorId) returns (acts: seq<Action>)
    requires Exec(START, before) == s && PcOf(s, a) == RecoverWrite(TAKEN) && s.keys.Keys == {"t"}
    ensures Exec(START, acts) == State(map["t" := RETRIED], ["t"] + s.list, s.pcs[a := Idle])
  {
    var saved := s.(keys := map["t" := RETRIED], pcs := s.pcs[a := Push("t")]);
    Extend(before, s, Advance(a, 20.0));
    Extend(before + [Advance(a, 20.0)], saved, Advance(a, 20.0));
    acts := before + [Advance(a, 20.0)] + [Advance(a, 20.0)];
    assert s.pcs[a := Push("t")][a := Idle] == s.pcs[a := Idle];
  }

  /** A worker pops the id and reads the pending payload. */
  lemma Reads(before: seq<Action>, s: State, a: ActorId, worker: WorkerId, p: TaskPayload) returns (acts: seq<Action>)
    requires Exec(START, before) == s && PcOf(s, a).Idle? && s.keys == map["t" := p] && p.status == PENDING
    requires s.list != [] && s.list[|s.list| - 1] == "t"
    ensures Exec(START, acts) == s.(list := s.list[..|s.list| - 1], pcs := s.pcs[a := ClaimWrite(p, worker)])
  {
    acts := Enters(before, s, a, ClaimPop(worker), 1.0);
    var popped := s.(list := s.list[..|s.list| - 1], pcs := s.pcs[a := ClaimRead("t", worker)]);
    assert Do(s.(pcs := s.pcs[a := ClaimPop(worker)]), Advance(a, 1.0)) == popped;
    Extend(acts, popped, Advance(a, 1.0));
    acts := acts + [Advance(a, 1.0)];
  }

  const TASK_TAKEN := State(map["t" := TAKEN], [], map[0 := Claimed(TAKEN)])

  lemma TaskIsSubmitted() returns (acts: seq<Action>)
    ensures Exec(START, acts) == State(map["t" := CHILD], ["t"], map[0 := Idle])
  {
    acts := Enters([], START, 0, SubmitSave(CHILD), 1.0);
    var saved := State(map["t" := CHILD], [], map[0 := Push("t")]);
    assert Do(START.(pcs := START.pcs[0 := SubmitSave(CHILD)]), Advance(0, 1.0)) == saved;
    Extend(acts, saved, Advance(0, 1.0));
    acts := acts + [Advance(0, 1.0)];
    assert ["t"] + [] == ["t"];
  }

  lemma TaskIsTaken() returns (acts: seq<Action>)
    ensures Exec(START, acts) == TASK_TAKEN
  {
    acts := TaskIsSubmitted();
    acts := Reads(acts, State(map["t" := CHILD], ["t"], map[0 := Idle]), 0, "w", CHILD);
    Extend(acts, State(map["t" := CHILD], [], map[0 := ClaimWrite(CHILD, "w")]), Advance(0, 1.0));
    acts := acts + [Advance(0, 1.0)];
  }

  const BOTH_RECOVER := TASK_TAKEN.(pcs := map[0 := Claimed(TAKEN), 1 := RecoverWrite(TAKEN), 2 := RecoverWrite(TAKEN)])
  const LISTED_TWICE := State(map["t" := RETRIED], ["t", "t"], map[0 := Claimed(TAKEN), 1 := Idle, 2 := Idle])

  lemma BothRecover() returns (acts: seq<Action>)
    ensures Exec(START, acts) == BOTH_RECOVER
  {
    acts := TaskIsTaken();
    acts := ReadsStale(acts, TASK_TAKEN, 1);
    acts := ReadsStale(acts, TASK_TAKEN.(pcs := TASK_TAKEN.pcs[1 := RecoverWrite(TAKEN)]), 2);
  }

  lemma BothRequeue() returns (acts: seq<Action>)
    ensures Exec(START, acts) == LISTED_TWICE
  {
    acts := BothRecover();
    acts := Requeues(acts, BOTH_RECOVER, 1);
    assert ["t"] + [] == ["t"] && ["t"] + ["t"] == ["t", "t"];
    acts := Requeues(acts, State(map["t" := RETRIED], ["t"], BOTH_RECOVER.pcs[1 := Idle]), 2);
  }

  lemma BothRead() returns (acts: seq<Action>)
    ensures Exec(START, acts) == State(
      map["t" := RETRIED], [], map[0 := Claimed(TAKEN), 1 := ClaimWrite(RETRIED, "a"), 2 := ClaimWrite(RETRIED, "b")])
  {
    acts := BothRequeue();
    acts := Reads(acts, LISTED_TWICE, 1, "a", RETRIED);
    assert ["t", "t"][..1] == ["t"] && ["t"][..0] == [];
    var s := LISTED_TWICE.(list := ["t"], pcs := LISTED_TWICE.pcs[1 := ClaimWrite(RETRIED, "a")]);
    acts := Reads(acts, s, 2, "b", RETRIED);
  }

  /** Two recoveries that overlap list a task twice, and then two workers are both told that they have claimed it. */
  lemma TwoWorkersClaimOneTask() returns (acts: seq<Action>)
    ensures PcOf(Exec(START, acts), 1) == Claimed(ClaimRow(RETRIED, "a", 21.0))
    ensures PcOf(Exec(START, acts), 2) == Claimed(ClaimRow(RETRIED, "b", 21.0))
  {
    acts := BothRead();
    var s := Exec(START, acts);
    Extend(acts, s, Advance(1, 21.0));
    Extend(acts + [Advance(1, 21.0)], Do(s, Advance(1, 21.0)), Advance(2, 21.0));
    acts := acts + [Advance(1, 21.0)] + [Advance(2, 21.0)];
  }
}
