/** The sub-worker scaler: how many consumers are alive after any series of polls of the task queue. */
module WorkerPool {
  import opened Wrappers
  import opened TaskTypes
  import opened Sequences
  import opened TaskQueue
  import Q = QueueSpec

  // --- the scaler's input --------------------------------------------------------------------------

  datatype Snapshot = Snapshot(pending: nat, running: nat, succeeded: nat, failed: nat) {
    function Unfinished(): nat { pending + running }

    function Bump(status: TaskStatus): Snapshot {
      match status
      case PENDING => this.(pending := pending + 1)
      case RUNNING => this.(running := running + 1)
      case SUCCEEDED => this.(succeeded := succeeded + 1)
      case FAILED => this.(failed := failed + 1)
    }
  }

  function WithStatus(tasks: Rows, ids: set<TaskId>, status: TaskStatus): set<TaskId> {
    set id | id in ids && id in tasks && tasks[id].status == status
  }

  function CountsOf(tasks: Rows, ids: set<TaskId>): Snapshot {
    Snapshot(|WithStatus(tasks, ids, PENDING)|, |WithStatus(tasks, ids, RUNNING)|,
             |WithStatus(tasks, ids, SUCCEEDED)|, |WithStatus(tasks, ids, FAILED)|)
  }

  lemma OneMoreWithStatus(tasks: Rows, ids: set<TaskId>, id: TaskId, status: TaskStatus)
    requires id !in ids
    ensures |WithStatus(tasks, ids + {id}, status)|
         == |WithStatus(tasks, ids, status)| + if id in tasks && tasks[id].status == status then 1 else 0
  {
    assert WithStatus(tasks, ids + {id}, status)
        == WithStatus(tasks, ids, status) + if id in tasks && tasks[id].status == status then {id} else {};
  }

  lemma CountOneMore(tasks: Rows, ids: set<TaskId>, id: TaskId)
    requires id !in ids
    ensures CountsOf(tasks, ids + {id})
         == if id in tasks then CountsOf(tasks, ids).Bump(tasks[id].status) else CountsOf(tasks, ids)
  {
    OneMoreWithStatus(tasks, ids, id, PENDING);
    OneMoreWithStatus(tasks, ids, id, RUNNING);
    OneMoreWithStatus(tasks, ids, id, SUCCEEDED);
    OneMoreWithStatus(tasks, ids, id, FAILED);
  }

  /** The ids a snapshot walks: the rows, or the Redis index without them. */
  ghost function TaskIds(b: Backend, q: Q.QueueState): set<TaskId> {
    if b.Postgres? then q.rows.Keys else q.index
  }

  /** Counts every task under its current status; reading refreshes cached payloads and nothing else. */
  method GetTaskQueueSnapshot(queue: TaskQueue, order: seq<TaskId>) returns (counts: Snapshot)
    requires Q.ListsIds(TaskIds(queue.Kind(), queue.State()), order)
    modifies queue`keys
    ensures Q.Tasks(queue.Kind(), queue.State()) == old(Q.Tasks(queue.Kind(), queue.State()))
    ensures counts == CountsOf(Q.Tasks(queue.Kind(), queue.State()), TaskIds(queue.Kind(), queue.State()))
  {
    ghost var tasks := Q.Tasks(queue.Kind(), queue.State());
    ghost var ids := TaskIds(queue.Kind(), queue.State());
    ghost var seen: set<TaskId> := {};
    counts := Snapshot(0, 0, 0, 0);
    for i := 0 to |order|
      invariant Q.Tasks(queue.Kind(), queue.State()) == tasks && TaskIds(queue.Kind(), queue.State()) == ids
      invariant forall id :: id in seen <==> id in order[..i]
      invariant counts == CountsOf(tasks, seen)
    {
      assert order[..i + 1] == order[..i] + [order[i]] && order[i] !in order[..i];
      CountOneMore(tasks, seen, order[i]);
      var p := queue.GetStatus(order[i]);
      if p.Some? { counts := counts.Bump(p.value.status); }
      seen := seen + {order[i]};
    }
    assert order[..|order|] == order;
    assert seen == ids;
  }

  // --- the controller ------------------------------------------------------------------------------

  datatype PoolConfig = PoolConfig(defaultConcurrency: nat, maxConcurrency: nat, idleSeconds: real)

  /** WorkerPoolConfig raises ValueError otherwise. */
  predicate Allowed(c: PoolConfig) { 1 <= c.defaultConcurrency <= c.maxConcurrency }

  datatype Poll = Poll(snapshot: Snapshot, time: real)

  /** Consumers are numbered as they are created; `cancelled` holds those whose task was cancelled. */
  datatype Pool = Pool(live: seq<nat>, retired: seq<nat>, cancelled: set<nat>, created: nat, idleSince: real)

  const EMPTY_POOL := Pool([], [], {}, 0, 0.0)

  function TargetConcurrency(c: PoolConfig, unfinished: nat): nat {
    if unfinished <= c.defaultConcurrency then c.defaultConcurrency
    else if c.maxConcurrency <= unfinished then c.maxConcurrency else unfinished
  }

  function Numbers(from: nat, to: nat): seq<nat>
    requires from <= to
  {
    seq(to - from, k requires 0 <= k < to - from => from + k)
  }

  function Scaled(p: Pool, target: nat): Pool {
    var n := |p.live|;
    if target > n then
      p.(live := p.live + Numbers(p.created, p.created + (target - n)), created := p.created + (target - n))
    else
      p.(live := p.live[..target], retired := p.retired + p.live[target..],
         cancelled := p.cancelled + Members(p.live[target..]))
  }

  function Adjust(c: PoolConfig, p: Pool, poll: Poll): Pool {
    var target := TargetConcurrency(c, poll.snapshot.Unfinished());
    if target > |p.live| then Scaled(p, target).(idleSince := 0.0)
    else if poll.snapshot.Unfinished() > 0 then p.(idleSince := 0.0)
    else
      var since := if p.idleSince != 0.0 then p.idleSince else poll.time;
      var q := p.(idleSince := since);
      if poll.time - since >= c.idleSeconds then Scaled(q, c.defaultConcurrency) else q
  }

  /** The pool after start-up and these polls. */
  function After(c: PoolConfig, polls: seq<Poll>): Pool {
    if polls == [] then Scaled(EMPTY_POOL, c.defaultConcurrency)
    else Adjust(c, After(c, polls[..|polls| - 1]), polls[|polls| - 1])
  }

  class WorkerPoolController {
    const config: PoolConfig
    var consumers: seq<nat>
    var retired: seq<nat>
    var cancelled: set<nat>
    var created: nat
    var idleSince: real

    ghost function Value(): Pool reads this { Pool(consumers, retired, cancelled, created, idleSince) }

    constructor (config: PoolConfig)
      requires Allowed(config)
      ensures this.config == config && Value() == EMPTY_POOL
    {
      this.config := config;
      consumers, retired, cancelled, created, idleSince := [], [], {}, 0, 0.0;
    }

    method ScaleTo(target: nat)
      modifies this
      ensures Value() == Scaled(old(Value()), target)
    {
      var current := |consumers|;
      if target > current {
        for index := current to target
          invariant created == old(created) + (index - current)
          invariant Value() == old(Value()).(live := old(consumers) + Numbers(old(created), created), created := created)
        {
          consumers := consumers + [created];
          created := created + 1;
        }
        return;
      }
      var retiring := consumers[target..];
      consumers := consumers[..target];
      CancelAll(retiring);
      retired := retired + retiring;
    }

    method CancelAll(retiring: seq<nat>)
      modifies this`cancelled
      ensures cancelled == old(cancelled) + Members(retiring)
    {
      for i := 0 to |retiring|
        invariant cancelled == old(cancelled) + Members(retiring[..i])
      {
        cancelled := cancelled + {retiring[i]};
        assert retiring[..i + 1] == retiring[..i] + [retiring[i]];
      }
      assert retiring[..|retiring|] == retiring;
    }

    method AdjustOnce(snapshot: Snapshot, loopTime: real)
      modifies this
      ensures Value() == Adjust(config, old(Value()), Poll(snapshot, loopTime))
    {
      var target := TargetConcurrency(config, snapshot.Unfinished());
      if target > |consumers| {
        ScaleTo(target);
        idleSince := 0.0;
        return;
      }
      if snapshot.Unfinished() > 0 {
        idleSince := 0.0;
        return;
      }
      idleSince := if idleSince != 0.0 then idleSince else loopTime;
      if loopTime - idleSince >= config.idleSeconds { ScaleTo(config.defaultConcurrency); }
    }

    method CancelConsumers()
      modifies this
      ensures consumers == [] && retired == [] && created == old(created)
      ensures cancelled == old(cancelled) + Members(old(retired)) + Members(old(consumers))
    {
      var retiring := retired + consumers;
      retired, consumers := [], [];
      CancelAll(retiring);
    }

    /** The whole life of the controller: start, one adjustment per poll until shutdown, and the final cancellation. */
    method Run(polls: seq<Poll>)
      requires Allowed(config) && Value() == EMPTY_POOL
      modifies this
      ensures consumers == [] && created == After(config, polls).created
      ensures forall k: nat :: k in cancelled <==> k < created
    {
      ScaleTo(config.defaultConcurrency);
      for i := 0 to |polls|
        invariant Value() == After(config, polls[..i])
      {
        AdjustOnce(polls[i].snapshot, polls[i].time);
        assert polls[..i + 1][..i] == polls[..i];
      }
      assert polls[..|polls|] == polls;
      EveryConsumerIsLiveOrRetired(config, polls);
      ghost var all, gone := consumers + retired, Members(retired) + Members(consumers);
      assert forall k: nat :: k in all <==> k in gone;
      CancelConsumers();
      assert cancelled == gone;
    }
  }

  // --- what holds after any polls ------------------------------------------------------------------

  /** Every consumer ever created is in exactly one of live and retired; exactly the retired are cancelled. */
  ghost predicate Partition(p: Pool) {
    && Distinct(p.live + p.retired)
    && (forall k: nat :: k < p.created <==> k in p.live + p.retired)
    && p.cancelled == Members(p.retired)
  }

  lemma {:induction false} NumbersAreDistinct(low: nat, high: nat)
    requires low <= high
    ensures Distinct(Numbers(low, high))
    ensures forall k: nat :: k in Numbers(low, high) <==> low <= k < high
    decreases high - low
  {
    if low < high {
      NumbersAreDistinct(low + 1, high);
      assert Numbers(low, high)[1..] == Numbers(low + 1, high);
      assert Numbers(low, high) == [low] + Numbers(low + 1, high);
    }
  }

  lemma GrowingIsDistinct(live: seq<nat>, retired: seq<nat>, from: nat, to: nat)
    requires Distinct(live + retired) && from <= to && forall k | k in live + retired :: k < from
    ensures Distinct((live + Numbers(from, to)) + retired)
    ensures forall k: nat :: k in (live + Numbers(from, to)) + retired <==> k in live + retired || from <= k < to
  {
    NumbersAreDistinct(from, to);
    DistinctJoin(live, retired);
    assert forall k | k in live || k in retired :: k in live + retired;
    DistinctJoin(live, Numbers(from, to));
    DistinctJoin(live + Numbers(from, to), retired);
  }

  lemma ScalingKeepsPartition(p: Pool, target: nat)
    requires Partition(p)
    ensures Partition(Scaled(p, target)) && |Scaled(p, target).live| == target
  {
    var q := Scaled(p, target);
    if target > |p.live| {
      GrowingIsDistinct(p.live, p.retired, p.created, q.created);
    } else {
      assert p.live == q.live + p.live[target..];
      ReorderIsDistinct(q.live, p.live[target..], p.retired);
    }
  }

  lemma ReorderIsDistinct(a: seq<nat>, b: seq<nat>, c: seq<nat>)
    requires Distinct((a + b) + c)
    ensures Distinct(a + (c + b)) && forall k :: k in a + (c + b) <==> k in (a + b) + c
  {
    DistinctJoin(a + b, c);
    DistinctJoin(a, b);
    DistinctJoin(c, b);
    DistinctJoin(a, c + b);
  }

  lemma {:induction false} EveryConsumerIsLiveOrRetired(c: PoolConfig, polls: seq<Poll>)
    requires Allowed(c)
    ensures Partition(After(c, polls))
    ensures c.defaultConcurrency <= |After(c, polls).live| <= c.maxConcurrency
  {
    if polls == [] {
      ScalingKeepsPartition(EMPTY_POOL, c.defaultConcurrency);
    } else {
      var before, poll := After(c, polls[..|polls| - 1]), polls[|polls| - 1];
      EveryConsumerIsLiveOrRetired(c, polls[..|polls| - 1]);
      ScalingKeepsPartition(before, TargetConcurrency(c, poll.snapshot.Unfinished()));
      var since := if before.idleSince != 0.0 then before.idleSince else poll.time;
      ScalingKeepsPartition(before.(idleSince := since), c.defaultConcurrency);
    }
  }

  /** Where the run of zero-unfinished polls that ends the series begins. */
  function IdleRun(polls: seq<Poll>): (start: nat)
    ensures start <= |polls|
    ensures forall k | start <= k < |polls| :: polls[k].snapshot.Unfinished() == 0
    ensures start > 0 ==> polls[start - 1].snapshot.Unfinished() > 0
  {
    if polls == [] then 0
    else if polls[|polls| - 1].snapshot.Unfinished() > 0 then |polls|
    else IdleRun(polls[..|polls| - 1])
  }

  lemma {:induction false} IdleSinceIsRunStart(c: PoolConfig, polls: seq<Poll>)
    requires Allowed(c) && forall k | 0 <= k < |polls| :: polls[k].time > 0.0
    ensures After(c, polls).idleSince == if IdleRun(polls) < |polls| then polls[IdleRun(polls)].time else 0.0
  {
    if polls != [] {
      IdleSinceIsRunStart(c, polls[..|polls| - 1]);
      EveryConsumerIsLiveOrRetired(c, polls[..|polls| - 1]);
    }
  }

  /** The size after one more poll: grow to the target, or fall back to the default exactly after an idle run of
      at least `idleSeconds`, or stay. */
  lemma SizeAfterPoll(c: PoolConfig, polls: seq<Poll>)
    requires Allowed(c) && polls != [] && forall k | 0 <= k < |polls| :: polls[k].time > 0.0
    ensures
      var before, after := |After(c, polls[..|polls| - 1]).live|, |After(c, polls).live|;
      var last, start := polls[|polls| - 1], IdleRun(polls);
      && (after < before <==>
            before > c.defaultConcurrency && start < |polls| && last.time - polls[start].time >= c.idleSeconds)
      && (after < before ==> after == c.defaultConcurrency)
      && (after > before <==> before < last.snapshot.Unfinished() && before < c.maxConcurrency)
      && (after > before ==>
            after == if last.snapshot.Unfinished() < c.maxConcurrency then last.snapshot.Unfinished() else c.maxConcurrency)
  {
    var init, poll := polls[..|polls| - 1], polls[|polls| - 1];
    var before := After(c, init);
    EveryConsumerIsLiveOrRetired(c, init);
    IdleSinceIsRunStart(c, init);
    ScalingKeepsPartition(before, TargetConcurrency(c, poll.snapshot.Unfinished()));
    var since := if before.idleSince != 0.0 then before.idleSince else poll.time;
    ScalingKeepsPartition(before.(idleSince := since), c.defaultConcurrency);
  }

  // --- which consumers come and go -------------------------------------------------------------------

  predicate Ascending(s: seq<nat>) { forall i, j | 0 <= i < j < |s| :: s[i] < s[j] }

  /** From one pool to the next: all stay, or new ones join at the end, or the last ones leave and are cancelled. */
  ghost predicate Follows(p: Pool, q: Pool) {
    if |q.live| >= |p.live| then
      && p.live <= q.live && q.retired == p.retired && q.cancelled == p.cancelled
      && q.created == p.created + (|q.live| - |p.live|)
      && forall k | |p.live| <= k < |q.live| :: q.live[k] == p.created + (k - |p.live|)
    else
      && q.live <= p.live && q.created == p.created
      && q.retired == p.retired + p.live[|q.live|..]
      && forall k: nat :: k in q.cancelled <==> k in p.cancelled || k in p.live[|q.live|..]
  }

  lemma ScalingFollows(p: Pool, target: nat)
    ensures Follows(p, Scaled(p, target)) && |Scaled(p, target).live| == target
  {
    var q := Scaled(p, target);
    assert target <= |p.live| ==> p.live == p.live[..target] + p.live[target..];
    assert target == |p.live| ==> p.live[target..] == [] && p.retired + [] == p.retired;
  }

  lemma FollowingStaysAscending(p: Pool, q: Pool)
    requires Follows(p, q) && Ascending(p.live) && forall k | 0 <= k < |p.live| :: p.live[k] < p.created
    ensures Ascending(q.live) && forall k | 0 <= k < |q.live| :: q.live[k] < q.created
  {
    assert forall k | 0 <= k < |p.live| && k < |q.live| :: p.live[k] == q.live[k];
  }

  lemma {:induction false} LiveInOrder(c: PoolConfig, polls: seq<Poll>)
    ensures var p := After(c, polls); Ascending(p.live) && forall k | 0 <= k < |p.live| :: p.live[k] < p.created
  {
    if polls == [] {
      ScalingFollows(EMPTY_POOL, c.defaultConcurrency);
      FollowingStaysAscending(EMPTY_POOL, After(c, polls));
    } else {
      LiveInOrder(c, polls[..|polls| - 1]);
      AdjustingFollows(c, After(c, polls[..|polls| - 1]), polls[|polls| - 1]);
      FollowingStaysAscending(After(c, polls[..|polls| - 1]), After(c, polls));
    }
  }

  lemma AdjustingFollows(c: PoolConfig, p: Pool, poll: Poll)
    ensures Follows(p, Adjust(c, p, poll))
  {
    ScalingFollows(p, TargetConcurrency(c, poll.snapshot.Unfinished()));
    var since := if p.idleSince != 0.0 then p.idleSince else poll.time;
    ScalingFollows(p.(idleSince := since), c.defaultConcurrency);
  }

  /** A poll lets new consumers join, or retires and cancels the latest ones: whoever stays was created before whoever
      goes. */
  lemma PollRetiresTheLatest(c: PoolConfig, polls: seq<Poll>)
    requires polls != []
    ensures var p, q := After(c, polls[..|polls| - 1]), After(c, polls);
      && Follows(p, q)
      && forall stays, goes | stays in q.live && goes in q.retired[|p.retired|..] && |q.live| < |p.live| :: stays < goes
  {
    var p, q := After(c, polls[..|polls| - 1]), After(c, polls);
    LiveInOrder(c, polls[..|polls| - 1]);
    AdjustingFollows(c, p, polls[|polls| - 1]);
    if |q.live| < |p.live| {
      assert q.retired[|p.retired|..] == p.live[|q.live|..];
    }
  }
}
