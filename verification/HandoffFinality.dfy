/** What single store calls can undo, at the grain of the hand-off model: the exact conditions under which a success stays
    and the capacity bound holds, which fresh snapshots meet, and runs in which they fail. */
module HandoffFinality {
  import opened Wrappers
  import opened TaskTypes
  import opened TaskRows
  import opened Handoff
  import Q = QueueSpec
  import QueueCapacity

  // --- finality ------------------------------------------------------------------------------------

  /** The action writes a whole row from what the actor remembers, not from the row itself. */
  predicate WholeRowWrite(s: State, act: Action, id: TaskId) {
    act.Advance? &&
    match PcOf(s, act.actor)
    case SubmitSave(p) => p.taskId == id
    case RecoverNext(stale) => stale != [] && stale[0].taskId == id && stale[0].retryCount < stale[0].maxRetries
    case CancelSave(p) => p.taskId == id
    case _ => false
  }

  /** Exactly the whole-row writes can undo a success at this grain; every guarded store call respects it. */
  lemma SuccessUndoneIff(s: State, act: Action, id: TaskId)
    requires PcsOk(s) && id in s.rows && s.rows[id].status == SUCCEEDED
    ensures id in Do(s, act).rows
    ensures Do(s, act).rows[id] != s.rows[id] <==> WholeRowWrite(s, act, id)
  {
    if Mover(act).Some? && Mover(act).value in s.pcs { assert PcOk(s, s.pcs[Mover(act).value]); }
    if act.Advance? && PcOf(s, act.actor).BatchSave? {
      var ps, maxActive := PcOf(s, act.actor).payloads, PcOf(s, act.actor).maxActive;
      AddRowsOnlyAdds(s.rows, ps, id);
      if Q.SaveManyWithCapacity(s.rows, ps, maxActive).1.Accepted? && ps != [] { AddRowsKeepsOld(s.rows, ps, id); }
    }
  }

  lemma {:induction false} AddRowsKeepsOld(rows: Rows, ps: seq<TaskPayload>, id: TaskId)
    requires id in rows && forall i | 0 <= i < |ps| :: ps[i].taskId != id
    ensures id in Q.AddRows(rows, ps) && Q.AddRows(rows, ps)[id] == rows[id]
    decreases |ps|
  {
    if ps != [] { AddRowsKeepsOld(rows[ps[0].taskId := ps[0]], ps[1..], id); }
  }

  /** From the first `k` actions on the row is this one, at every point. */
  ghost predicate StaysSince(acts: seq<Action>, k: nat, id: TaskId, row: TaskPayload)
    decreases |acts|
  {
    && Lookup(Exec(START, acts).rows, id) == Some(row)
    && (k < |acts| ==> StaysSince(acts[..|acts| - 1], k, id, row))
  }

  ghost predicate NotRewrittenSince(acts: seq<Action>, k: nat, id: TaskId)
    decreases |acts|
  {
    k < |acts| ==>
      && NotRewrittenSince(acts[..|acts| - 1], k, id)
      && !WholeRowWrite(Exec(START, acts[..|acts| - 1]), acts[|acts| - 1], id)
  }

  /** So under any interleaving a success stays exactly if no actor writes the whole row from memory after it. */
  lemma {:induction false} SuccessStaysIff(acts: seq<Action>, k: nat, id: TaskId, row: TaskPayload)
    requires k <= |acts| && Lookup(Exec(START, acts[..k]).rows, id) == Some(row) && row.status == SUCCEEDED
    ensures StaysSince(acts, k, id, row) <==> NotRewrittenSince(acts, k, id)
    decreases |acts|
  {
    if k == |acts| {
      assert acts[..k] == acts;
    } else {
      var init := acts[..|acts| - 1];
      assert init[..k] == acts[..k];
      SuccessStaysIff(init, k, id, row);
      PcsStayOk(init);
      if StaysSince(init, k, id, row) { SuccessUndoneIff(Exec(START, init), acts[|acts| - 1], id); }
    }
  }

  /** Every snapshot is still the row when it is written back, and single submissions use new ids. */
  ghost predicate FreshWrite(s: State, act: Action) {
    act.Advance? ==>
      match PcOf(s, act.actor)
      case SubmitSave(p) => p.taskId !in s.rows
      case RecoverNext(stale) => stale != [] ==> Lookup(s.rows, stale[0].taskId) == Some(stale[0])
      case CancelSave(p) => Lookup(s.rows, p.taskId) == Some(p)
      case _ => true
  }

  /** The hypothesis under which what holds for whole methods carries over. */
  ghost predicate FreshWrites(acts: seq<Action>) {
    forall k | 0 <= k < |acts| :: FreshWrite(Exec(START, acts[..k]), acts[k])
  }

  lemma FreshSoFar(acts: seq<Action>)
    requires FreshWrites(acts) && acts != []
    ensures FreshWrites(acts[..|acts| - 1]) && FreshWrite(Exec(START, acts[..|acts| - 1]), acts[|acts| - 1])
  {
    var init := acts[..|acts| - 1];
    forall k | 0 <= k < |init| ensures FreshWrite(Exec(START, init[..k]), init[k]) {
      assert init[..k] == acts[..k];
    }
  }

  lemma FreshStepKeepsSuccess(s: State, act: Action, id: TaskId)
    requires PcsOk(s) && FreshWrite(s, act) && id in s.rows && s.rows[id].status == SUCCEEDED
    ensures id in Do(s, act).rows && Do(s, act).rows[id] == s.rows[id]
  {
    if Mover(act).Some? && Mover(act).value in s.pcs { assert PcOk(s, s.pcs[Mover(act).value]); }
    SuccessUndoneIff(s, act, id);
  }

  /** With fresh snapshots a success is final under every interleaving. */
  lemma {:induction false} FreshSuccessIsFinal(acts: seq<Action>, k: nat, id: TaskId)
    requires FreshWrites(acts) && k <= |acts|
    requires id in Exec(START, acts[..k]).rows && Exec(START, acts[..k]).rows[id].status == SUCCEEDED
    ensures Lookup(Exec(START, acts).rows, id) == Some(Exec(START, acts[..k]).rows[id])
    decreases |acts|
  {
    if k == |acts| {
      assert acts[..k] == acts;
    } else {
      var init := acts[..|acts| - 1];
      assert init[..k] == acts[..k];
      FreshSoFar(acts);
      FreshSuccessIsFinal(init, k, id);
      PcsStayOk(init);
      FreshStepKeepsSuccess(Exec(START, init), acts[|acts| - 1], id);
    }
  }

  // --- capacity ------------------------------------------------------------------------------------

  /** What an actor is about to save respects the bound on the children of `parent`. */
  ghost predicate SavesWithin(pc: Pc, parent: TaskId, bound: nat) {
    match pc
    case SubmitSave(p) => p.parentTaskId != parent
    case BatchSave(ps, maxActive) => (exists i | 0 <= i < |ps| :: ps[i].parentTaskId == parent) ==> maxActive <= bound
    case _ => true
  }

  ghost predicate EntersByBatch(acts: seq<Action>, parent: TaskId, bound: nat) {
    forall k | 0 <= k < |acts| && acts[k].Begin? :: SavesWithin(acts[k].pc, parent, bound)
  }

  ghost predicate AllSaveWithin(s: State, parent: TaskId, bound: nat) {
    forall a | a in s.pcs :: SavesWithin(s.pcs[a], parent, bound)
  }

  function Ids(ps: seq<TaskPayload>): (s: set<TaskId>)
    ensures |s| <= |ps|
    ensures forall id :: id in s <==> exists i | 0 <= i < |ps| :: ps[i].taskId == id
  {
    if ps == [] then {}
    else
      assert ps == [ps[0]] + ps[1..];
      {ps[0].taskId} + Ids(ps[1..])
  }

  /** A recovery writes this child of `parent` back as PENDING from its snapshot. */
  predicate Requeues(s: State, act: Action, parent: TaskId, id: TaskId) {
    act.Advance? && PcOf(s, act.actor).RecoverNext? &&
    var stale := PcOf(s, act.actor).stale;
    stale != [] && stale[0].taskId == id && stale[0].parentTaskId == parent && stale[0].retryCount < stale[0].maxRetries
  }

  /** Only a batch or a recovery makes a child of `parent` active. */
  lemma NewActive(s: State, act: Action, parent: TaskId, bound: nat, id: TaskId)
    requires PcsOk(s) && AllSaveWithin(s, parent, bound)
    requires id in ActiveChildren(Do(s, act).rows, parent) && id !in ActiveChildren(s.rows, parent)
    ensures || Requeues(s, act, parent, id)
            || (act.Advance? && PcOf(s, act.actor).BatchSave? && InPayloads(PcOf(s, act.actor).payloads, id))
    ensures act.Advance? && PcOf(s, act.actor).BatchSave? ==> id in Do(s, act).rows && id !in s.rows
  {
    if Mover(act).Some? && Mover(act).value in s.pcs {
      assert PcOk(s, s.pcs[Mover(act).value]);
      assert SavesWithin(s.pcs[Mover(act).value], parent, bound);
    }
    if act.Advance? && PcOf(s, act.actor).BatchSave? {
      var ps, maxActive := PcOf(s, act.actor).payloads, PcOf(s, act.actor).maxActive;
      AddRowsOnlyAdds(s.rows, ps, id);
      if id in s.rows && Q.SaveManyWithCapacity(s.rows, ps, maxActive).1.Accepted? && ps != [] {
        AddRowsKeepsOld(s.rows, ps, id);
      }
    }
  }

  lemma {:induction false} AddedRowIsPayload(rows: Rows, ps: seq<TaskPayload>, id: TaskId)
    requires id in Q.AddRows(rows, ps)
    ensures (id in rows && Q.AddRows(rows, ps)[id] == rows[id])
         || exists i :: 0 <= i < |ps| && ps[i].taskId == id && Q.AddRows(rows, ps)[id] == ps[i]
    decreases |ps|
  {
    if ps != [] {
      var added := rows[ps[0].taskId := ps[0]];
      AddedRowIsPayload(added, ps[1..], id);
      if i :| 0 <= i < |ps[1..]| && ps[1..][i].taskId == id && Q.AddRows(rows, ps)[id] == ps[1..][i] {
        assert ps[i + 1].taskId == id;
      }
    }
  }

  lemma BatchKeepsBound(s: State, act: Action, parent: TaskId, bound: nat)
    requires PcsOk(s) && AllSaveWithin(s, parent, bound) && act.Advance? && PcOf(s, act.actor).BatchSave?
    requires |ActiveChildren(s.rows, parent)| <= bound
    ensures |ActiveChildren(Do(s, act).rows, parent)| <= bound
  {
    var before, after := ActiveChildren(s.rows, parent), ActiveChildren(Do(s, act).rows, parent);
    if id :| id in after && id !in before {
      NewActive(s, act, parent, bound, id);
      var ps, maxActive := PcOf(s, act.actor).payloads, PcOf(s, act.actor).maxActive;
      AddedRowIsPayload(s.rows, ps, id);
      assert SavesWithin(s.pcs[act.actor], parent, bound);
      assert |ActiveChildren(s.rows, parent)| + |ps| <= maxActive <= bound;
      forall x | x in after ensures x in before + Ids(ps) {
        if x !in before { NewActive(s, act, parent, bound, x); }
      }
      QueueCapacity.SubsetSize(after, before + Ids(ps));
    } else {
      QueueCapacity.SubsetSize(after, before);
    }
  }

  lemma RequeueAddsItsChild(s: State, act: Action, parent: TaskId, id: TaskId)
    requires Requeues(s, act, parent, id) && id !in ActiveChildren(s.rows, parent)
    ensures ActiveChildren(Do(s, act).rows, parent) == ActiveChildren(s.rows, parent) + {id}
    ensures |ActiveChildren(Do(s, act).rows, parent)| == |ActiveChildren(s.rows, parent)| + 1
  {
  }

  lemma OthersKeepBound(s: State, act: Action, parent: TaskId, bound: nat)
    requires PcsOk(s) && AllSaveWithin(s, parent, bound) && !(act.Advance? && PcOf(s, act.actor).BatchSave?)
    requires forall id :: Requeues(s, act, parent, id) ==> id in ActiveChildren(s.rows, parent)
    requires |ActiveChildren(s.rows, parent)| <= bound
    ensures |ActiveChildren(Do(s, act).rows, parent)| <= bound
  {
    forall id | id in ActiveChildren(Do(s, act).rows, parent) ensures id in ActiveChildren(s.rows, parent) {
      if id !in ActiveChildren(s.rows, parent) { NewActive(s, act, parent, bound, id); }
    }
    QueueCapacity.SubsetSize(ActiveChildren(Do(s, act).rows, parent), ActiveChildren(s.rows, parent));
  }

  /** A recovery brings a child back that no longer counts, and the bound is used up. */
  ghost predicate RevivesOverBound(s: State, act: Action, parent: TaskId, bound: nat) {
    && |ActiveChildren(s.rows, parent)| == bound
    && exists id :: Requeues(s, act, parent, id) && id !in ActiveChildren(s.rows, parent)
  }

  /** The one call that can exceed the bound. */
  lemma StepExceedsIff(s: State, act: Action, parent: TaskId, bound: nat)
    requires PcsOk(s) && AllSaveWithin(s, parent, bound) && |ActiveChildren(s.rows, parent)| <= bound
    ensures |ActiveChildren(Do(s, act).rows, parent)| > bound <==> RevivesOverBound(s, act, parent, bound)
  {
    if id :| Requeues(s, act, parent, id) && id !in ActiveChildren(s.rows, parent) {
      RequeueAddsItsChild(s, act, parent, id);
    } else if act.Advance? && PcOf(s, act.actor).BatchSave? {
      BatchKeepsBound(s, act, parent, bound);
    } else {
      OthersKeepBound(s, act, parent, bound);
    }
  }

  lemma StepSavesWithin(s: State, act: Action, parent: TaskId, bound: nat, a: ActorId)
    requires AllSaveWithin(s, parent, bound) && (act.Begin? ==> SavesWithin(act.pc, parent, bound)) && a in Do(s, act).pcs
    ensures SavesWithin(Do(s, act).pcs[a], parent, bound)
  {
    if a in s.pcs { assert SavesWithin(s.pcs[a], parent, bound); }
    if Mover(act) != Some(a) { OthersStay(s, act, a); }
  }

  lemma {:induction false} SavesStayWithin(acts: seq<Action>, parent: TaskId, bound: nat)
    requires EntersByBatch(acts, parent, bound)
    ensures AllSaveWithin(Exec(START, acts), parent, bound)
    decreases |acts|
  {
    if acts != [] {
      var init, act := acts[..|acts| - 1], acts[|acts| - 1];
      SavesStayWithin(init, parent, bound);
      var s := Exec(START, init);
      forall a | a in Do(s, act).pcs ensures SavesWithin(Do(s, act).pcs[a], parent, bound) {
        StepSavesWithin(s, act, parent, bound, a);
      }
    }
  }

  /** No recovery of the interleaving revives a child over the bound. */
  ghost predicate NeverRevives(acts: seq<Action>, parent: TaskId, bound: nat) {
    acts == [] ||
    (NeverRevives(acts[..|acts| - 1], parent, bound)
     && !RevivesOverBound(Exec(START, acts[..|acts| - 1]), acts[|acts| - 1], parent, bound))
  }

  /** At every point of the interleaving at most `bound` children of `parent` are unfinished. */
  ghost predicate AlwaysWithin(acts: seq<Action>, parent: TaskId, bound: nat) {
    && |ActiveChildren(Exec(START, acts).rows, parent)| <= bound
    && (acts == [] || AlwaysWithin(acts[..|acts| - 1], parent, bound))
  }

  /** Capacity at this grain: if children enter only through batches within the bound, it holds exactly if no recovery
      brings a finished child back while the bound is used up. */
  lemma {:induction false} CapacityHoldsIff(acts: seq<Action>, parent: TaskId, bound: nat)
    requires EntersByBatch(acts, parent, bound)
    ensures AlwaysWithin(acts, parent, bound) <==> NeverRevives(acts, parent, bound)
    decreases |acts|
  {
    if acts == [] {
      assert ActiveChildren(START.rows, parent) == {};
    } else {
      var init := acts[..|acts| - 1];
      CapacityHoldsIff(init, parent, bound);
      PcsStayOk(init);
      SavesStayWithin(init, parent, bound);
      if AlwaysWithin(init, parent, bound) { StepExceedsIff(Exec(START, init), acts[|acts| - 1], parent, bound); }
    }
  }

  lemma FreshRevivesNothing(s: State, act: Action, parent: TaskId, bound: nat)
    requires PcsOk(s) && FreshWrite(s, act)
    ensures !RevivesOverBound(s, act, parent, bound)
  {
    if id :| Requeues(s, act, parent, id) { assert PcOk(s, s.pcs[act.actor]); }
  }

  lemma {:induction false} FreshNeverRevives(acts: seq<Action>, parent: TaskId, bound: nat)
    requires FreshWrites(acts)
    ensures NeverRevives(acts, parent, bound)
    decreases |acts|
  {
    if acts != [] {
      var init := acts[..|acts| - 1];
      FreshSoFar(acts);
      FreshNeverRevives(init, parent, bound);
      PcsStayOk(init);
      FreshRevivesNothing(Exec(START, init), acts[|acts| - 1], parent, bound);
    }
  }

  /** In particular with fresh snapshots. */
  lemma FreshCapacityHolds(acts: seq<Action>, parent: TaskId, bound: nat)
    requires FreshWrites(acts) && EntersByBatch(acts, parent, bound)
    ensures |ActiveChildren(Exec(START, acts).rows, parent)| <= bound
  {
    FreshNeverRevives(acts, parent, bound);
    CapacityHoldsIff(acts, parent, bound);
  }

  // --- runs with snapshots that are not fresh ------------------------------------------------------

  const CHILD := BuildPayload(QueueSubmitSpec("t", "", "p", 10.0, 1), 1.0)
  const SECOND := BuildPayload(QueueSubmitSpec("u", "", "p", 10.0, 1), 1.0)
  const TAKEN := ClaimRow(CHILD, "w", 1.0)
  const DONE := CompleteRow(TAKEN, "done")

  const SUBMITTED := State(map["t" := CHILD], ["t"], {}, map[0 := Idle])

  lemma Extend(acts: seq<Action>, s: State, act: Action)
    requires Exec(START, acts) == s
    ensures Exec(START, acts + [act]) == Do(s, act)
  {
    assert (acts + [act])[..|acts|] == acts;
  }

  lemma ChildIsSaved() returns (acts: seq<Action>)
    ensures Exec(START, acts) == State(map["t" := CHILD], [], {}, map[0 := BatchPush([CHILD], [CHILD])])
    ensures EntersByBatch(acts, "p", 1)
  {
    var begin, save := Begin(0, BatchSave([CHILD], 1)), Advance(0, 1.0, []);
    Extend([], START, begin);
    assert [] + [begin] == [begin];
    var s := State(map[], [], {}, map[0 := BatchSave([CHILD], 1)]);
    assert Do(START, begin) == s;
    Extend([begin], s, save);
    acts := [begin] + [save];
    assert ActiveChildren(map[], "p") == {};
    assert Q.AddRows(map[], [CHILD]) == map["t" := CHILD];
  }

  lemma ChildIsSubmitted() returns (acts: seq<Action>)
    ensures Exec(START, acts) == SUBMITTED && EntersByBatch(acts, "p", 1)
  {
    var a1 := ChildIsSaved();
    var push := Advance(0, 1.0, []);
    var s1 := State(map["t" := CHILD], [], {}, map[0 := BatchPush([CHILD], [CHILD])]);
    var s2 := State(map["t" := CHILD], ["t"], {}, map[0 := BatchPush([], [CHILD])]);
    Extend(a1, s1, push);
    assert [CHILD][1..] == [] && ["t"] + [] == ["t"];
    assert Do(s1, push) == s2;
    Extend(a1 + [push], s2, push);
    acts := a1 + [push] + [push];
  }

  const TO_CLAIM := Begin(1, ClaimPop("w"))
  const CLAIMER := Advance(1, 1.0, [])
  const CANCELLER := Advance(2, 1.0, [])

  lemma ClaimerBegins(acts: seq<Action>, s: State)
    requires Exec(START, acts) == s && 1 !in s.pcs
    ensures Exec(START, acts + [TO_CLAIM]) == s.(pcs := s.pcs[1 := ClaimPop("w")])
  {
    Extend(acts, s, TO_CLAIM);
  }

  lemma ClaimerPops(acts: seq<Action>, s: State)
    requires Exec(START, acts) == s && PcOf(s, 1) == ClaimPop("w") && s.list == ["t"]
    ensures Exec(START, acts + [CLAIMER]) == s.(list := [], pcs := s.pcs[1 := ClaimHeld("t", "w")])
  {
    Extend(acts, s, CLAIMER);
  }

  lemma ClaimerTakes(acts: seq<Action>, s: State)
    requires Exec(START, acts) == s && PcOf(s, 1) == ClaimHeld("t", "w") && s.rows == map["t" := CHILD]
    ensures Exec(START, acts + [CLAIMER]) == s.(rows := map["t" := TAKEN], pcs := s.pcs[1 := Working("t", "w")])
  {
    Extend(acts, s, CLAIMER);
  }

  /** From any state with the child listed and actor 1 new, it is claimed in two calls. */
  lemma ChildIsClaimed(before: seq<Action>, s: State) returns (acts: seq<Action>)
    requires Exec(START, before) == s && s.rows == map["t" := CHILD] && s.list == ["t"] && 1 !in s.pcs
    requires EntersByBatch(before, "p", 1)
    ensures Exec(START, acts) == s.(rows := map["t" := TAKEN], list := [], pcs := s.pcs[1 := Working("t", "w")])
    ensures EntersByBatch(acts, "p", 1)
  {
    var s1 := s.(pcs := s.pcs[1 := ClaimPop("w")]);
    var s2 := s.(list := [], pcs := s.pcs[1 := ClaimHeld("t", "w")]);
    ClaimerBegins(before, s);
    ClaimerPops(before + [TO_CLAIM], s1);
    ClaimerTakes(before + [TO_CLAIM] + [CLAIMER], s2);
    acts := before + [TO_CLAIM] + [CLAIMER] + [CLAIMER];
  }

  lemma ChildFinishes(before: seq<Action>, s: State) returns (acts: seq<Action>)
    requires Exec(START, before) == s && s.rows == map["t" := TAKEN] && PcOf(s, 1) == Working("t", "w")
    requires EntersByBatch(before, "p", 1)
    ensures Exec(START, acts) == s.(rows := map["t" := DONE], pcs := s.pcs[1 := Idle])
    ensures EntersByBatch(acts, "p", 1)
  {
    Extend(before, s, Finish(1, Some("done")));
    acts := before + [Finish(1, Some("done"))];
  }

  const CLAIMED := State(map["t" := TAKEN], [], {}, map[0 := Idle, 1 := Working("t", "w")])
  const LISTED := CLAIMED.(pcs := CLAIMED.pcs[2 := RecoverNext([TAKEN])])
  const LISTED_AND_DONE := State(map["t" := DONE], [], {}, LISTED.pcs[1 := Idle])

  lemma ChildIsListed(before: seq<Action>) returns (acts: seq<Action>)
    requires Exec(START, before) == CLAIMED && EntersByBatch(before, "p", 1)
    ensures Exec(START, acts) == LISTED && EntersByBatch(acts, "p", 1)
  {
    var begin, list := Begin(2, RecoverList), Advance(2, 20.0, ["t"]);
    var s := CLAIMED.(pcs := CLAIMED.pcs[2 := RecoverList]);
    Extend(before, CLAIMED, begin);
    Extend(before + [begin], s, list);
    StaleChild();
    acts := before + [begin] + [list];
  }

  /** A recovery lists the child as stale, and its worker finishes it after that. */
  lemma ChildFinishesAfterListing() returns (acts: seq<Action>)
    ensures Exec(START, acts) == LISTED_AND_DONE && EntersByBatch(acts, "p", 1)
  {
    acts := ChildIsSubmitted();
    acts := ChildIsClaimed(acts, SUBMITTED);
    assert SUBMITTED.(rows := map["t" := TAKEN], list := [], pcs := SUBMITTED.pcs[1 := Working("t", "w")]) == CLAIMED;
    acts := ChildIsListed(acts);
    acts := ChildFinishes(acts, LISTED);
  }

  lemma StaleChild()
    ensures Q.StaleSnapshot(Postgres, map["t" := TAKEN], 20.0, ["t"]) == [TAKEN]
  {
    assert Q.StaleSnapshot(Postgres, map["t" := TAKEN], 20.0, ["t"][1..]) == [];
  }

  /** Without the hypothesis a success is not final: the recovery writes its snapshot back as PENDING. */
  lemma RecoveryCanUndoASuccess() returns (acts: seq<Action>, k: nat)
    ensures k <= |acts| && Lookup(Exec(START, acts[..k]).rows, "t") == Some(DONE) && DONE.status == SUCCEEDED
    ensures Lookup(Exec(START, acts).rows, "t") == Some(RequeueRow(TAKEN)) && RequeueRow(TAKEN).status == PENDING
  {
    var before := ChildFinishesAfterListing();
    Extend(before, LISTED_AND_DONE, Advance(2, 20.0, []));
    acts, k := before + [Advance(2, 20.0, [])], |before|;
    assert acts[..k] == before;
  }

  lemma SecondIsSaved(before: seq<Action>) returns (acts: seq<Action>)
    requires Exec(START, before) == LISTED_AND_DONE && EntersByBatch(before, "p", 1)
    ensures EntersByBatch(acts, "p", 1)
    ensures Exec(START, acts).rows == map["t" := DONE, "u" := SECOND] && PcOf(Exec(START, acts), 2) == RecoverNext([TAKEN])
  {
    var begin := Begin(0, BatchSave([SECOND], 1));
    var s := LISTED_AND_DONE.(pcs := LISTED_AND_DONE.pcs[0 := BatchSave([SECOND], 1)]);
    Extend(before, LISTED_AND_DONE, begin);
    SecondIsAccepted(s);
    Extend(before + [begin], s, Advance(0, 1.0, []));
    acts := before + [begin] + [Advance(0, 1.0, [])];
  }

  lemma SecondIsAccepted(s: State)
    requires s.rows == map["t" := DONE] && PcOf(s, 0) == BatchSave([SECOND], 1)
    ensures Do(s, Advance(0, 1.0, []))
         == s.(rows := map["t" := DONE, "u" := SECOND], pcs := s.pcs[0 := BatchPush([SECOND], [SECOND])])
  {
    assert ActiveChildren(s.rows, "p") == {};
    assert Q.AddRows(s.rows, [SECOND]) == map["t" := DONE, "u" := SECOND];
  }

  lemma ChildIsRevived(s: State)
    requires s.rows == map["t" := DONE, "u" := SECOND] && PcOf(s, 2) == RecoverNext([TAKEN])
    ensures ActiveChildren(Do(s, Advance(2, 20.0, [])).rows, "p") == {"t", "u"}
  {
    assert Do(s, Advance(2, 20.0, [])).rows == map["t" := RequeueRow(TAKEN), "u" := SECOND];
  }

  /** Nor does the bound hold: with the finished child brought back, two children are unfinished under a bound of one. */
  lemma RecoveryCanExceedTheBound() returns (acts: seq<Action>)
    ensures EntersByBatch(acts, "p", 1) && |ActiveChildren(Exec(START, acts).rows, "p")| == 2
  {
    var before := ChildFinishesAfterListing();
    before := SecondIsSaved(before);
    var s := Exec(START, before);
    Extend(before, s, Advance(2, 20.0, []));
    acts := before + [Advance(2, 20.0, [])];
    ChildIsRevived(s);
  }

  lemma CancellationReads(before: seq<Action>) returns (acts: seq<Action>)
    requires Exec(START, before) == SUBMITTED && EntersByBatch(before, "p", 1)
    ensures Exec(START, acts) == SUBMITTED.(pcs := SUBMITTED.pcs[2 := CancelFlag(CHILD)]) && EntersByBatch(acts, "p", 1)
  {
    var begin, next := Begin(2, CancelRead("t")), Advance(2, 1.0, []);
    var s := SUBMITTED.(pcs := SUBMITTED.pcs[2 := CancelRead("t")]);
    Extend(before, SUBMITTED, begin);
    Extend(before + [begin], s, next);
    acts := before + [begin] + [next];
  }

  const CANCELLING := State(map["t" := DONE], [], {}, map[0 := Idle, 1 := Idle, 2 := CancelFlag(CHILD)])

  lemma ChildFinishesWhileCancelling() returns (acts: seq<Action>)
    ensures Exec(START, acts) == CANCELLING
  {
    acts := ChildIsSubmitted();
    acts := CancellationReads(acts);
    var s := SUBMITTED.(pcs := SUBMITTED.pcs[2 := CancelFlag(CHILD)]);
    acts := ChildIsClaimed(acts, s);
    var t := s.(rows := map["t" := TAKEN], list := [], pcs := s.pcs[1 := Working("t", "w")]);
    acts := ChildFinishes(acts, t);
  }

  /** A cancellation that read the task as PENDING writes FAILED over the success that came between. */
  lemma CancellationCanUndoASuccess() returns (acts: seq<Action>, k: nat)
    ensures k <= |acts| && Lookup(Exec(START, acts[..k]).rows, "t") == Some(DONE) && DONE.status == SUCCEEDED
    ensures Lookup(Exec(START, acts).rows, "t") == Some(CancelRow(CHILD)) && CancelRow(CHILD).status == FAILED
  {
    var before := ChildFinishesWhileCancelling();
    acts := CancellationWrites(before, CANCELLING);
    k := |before|;
    assert acts[..k] == before;
  }

  lemma CancelFlags(acts: seq<Action>, s: State)
    requires Exec(START, acts) == s && PcOf(s, 2) == CancelFlag(CHILD)
    ensures Exec(START, acts + [CANCELLER]) == s.(flags := s.flags + {"t"}, pcs := s.pcs[2 := CancelRemove(CHILD)])
  {
    Extend(acts, s, CANCELLER);
  }

  lemma CancelRemoves(acts: seq<Action>, s: State)
    requires Exec(START, acts) == s && PcOf(s, 2) == CancelRemove(CHILD)
    ensures PcOf(Exec(START, acts + [CANCELLER]), 2) == CancelSave(CHILD)
  {
    Extend(acts, s, CANCELLER);
  }

  lemma CancelSaves(acts: seq<Action>, s: State)
    requires Exec(START, acts) == s && PcOf(s, 2) == CancelSave(CHILD)
    ensures Lookup(Exec(START, acts + [CANCELLER]).rows, "t") == Some(CancelRow(CHILD))
  {
    Extend(acts, s, CANCELLER);
  }

  lemma CancellationWrites(before: seq<Action>, s: State) returns (acts: seq<Action>)
    requires Exec(START, before) == s && PcOf(s, 2) == CancelFlag(CHILD)
    ensures before <= acts && Lookup(Exec(START, acts).rows, "t") == Some(CancelRow(CHILD))
  {
    CancelFlags(before, s);
    CancelRemoves(before + [CANCELLER], Exec(START, before + [CANCELLER]));
    CancelSaves(before + [CANCELLER] + [CANCELLER], Exec(START, before + [CANCELLER] + [CANCELLER]));
    acts := before + [CANCELLER] + [CANCELLER] + [CANCELLER];
  }

  lemma ChildIsHeld() returns (acts: seq<Action>)
    ensures Exec(START, acts) == State(map["t" := CHILD], [], {}, map[0 := Idle, 1 := ClaimHeld("t", "w")])
  {
    var before := ChildIsSubmitted();
    ClaimerBegins(before, SUBMITTED);
    ClaimerPops(before + [TO_CLAIM], SUBMITTED.(pcs := SUBMITTED.pcs[1 := ClaimPop("w")]));
    acts := before + [TO_CLAIM] + [CLAIMER];
  }

  const COUNTING := State(map["t" := CHILD], [], {}, map[0 := BatchSave([SECOND], 1), 1 := ClaimHeld("t", "w")])

  /** The child is popped, and another batch of its parent, one that will be turned away, has its row locked to count it. */
  lemma ChildIsCounted() returns (acts: seq<Action>)
    ensures Exec(START, acts) == COUNTING
  {
    var before := ChildIsHeld();
    var s := State(map["t" := CHILD], [], {}, map[0 := Idle, 1 := ClaimHeld("t", "w")]);
    Extend(before, s, Begin(0, BatchSave([SECOND], 1)));
    acts := before + [Begin(0, BatchSave([SECOND], 1))];
  }

  lemma ClaimerSkips(acts: seq<Action>)
    requires Exec(START, acts) == COUNTING
    ensures Exec(START, acts + [ClaimSkips(1)]) == COUNTING.(pcs := COUNTING.pcs[1 := ClaimPop("w")])
  {
    assert Locks(COUNTING.rows, COUNTING.pcs[0], "t");
    Extend(acts, COUNTING, ClaimSkips(1));
  }

  lemma BatchIsTurnedAway(acts: seq<Action>, s: State)
    requires Exec(START, acts) == s && PcOf(s, 0) == BatchSave([SECOND], 1) && s.rows == map["t" := CHILD]
    ensures Exec(START, acts + [Advance(0, 1.0, [])]) == s.(pcs := s.pcs[0 := Idle])
  {
    Extend(acts, s, Advance(0, 1.0, []));
    assert ActiveChildren(s.rows, "p") == {"t"};
  }

  lemma ClaimerFindsNothing(acts: seq<Action>, s: State)
    requires Exec(START, acts) == s && PcOf(s, 1) == ClaimPop("w") && s.list == []
    ensures Exec(START, acts + [CLAIMER]) == s.(pcs := s.pcs[1 := Idle])
  {
    Extend(acts, s, CLAIMER);
  }

  /** A claim that passes over the locked row loses the task: in the end nobody is inside a method and the list is empty. */
  lemma SkippedClaimLosesTheTask() returns (acts: seq<Action>)
    ensures Exec(START, acts) == State(map["t" := CHILD], [], {}, map[0 := Idle, 1 := Idle]) && CHILD.status == PENDING
  {
    var before := ChildIsCounted();
    var s := COUNTING.(pcs := COUNTING.pcs[1 := ClaimPop("w")]);
    ClaimerSkips(before);
    ClaimerFindsNothing(before + [ClaimSkips(1)], s);
    BatchIsTurnedAway(before + [ClaimSkips(1)] + [CLAIMER], s.(pcs := s.pcs[1 := Idle]));
    acts := before + [ClaimSkips(1)] + [CLAIMER] + [Advance(0, 1.0, [])];
  }
}
