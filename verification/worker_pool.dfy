/**
  The bookkeeping of `MyThreadingPool`: the task queue, the number of busy
  workers and the cap. Every `with self._lock` block is one atomic
  transition; the threads themselves and the tasks' effects are not modelled.
 */
module WorkerPool {

  datatype Pool<T> = Pool(queuedTasks: seq<T>, currentWorkerCount: int, maxWorkerCount: int)

  /** How a task call ended; the worker swallows an exception. */
  datatype TaskOutcome = Returned | Raised

  /** The result of a worker's first locked block: it took the task at the
      head of the queue, or found no free slot or no task and returned. */
  datatype Claim<T> = Claimed(task: T, pool: Pool<T>) | Declined

  /** A new pool (the cap defaults to 4): no tasks, no busy workers. */
  function NewPool<T>(maxWorkerThreadCount: int := 4): (p: Pool<T>)
    ensures |p.queuedTasks| == 0 && p.currentWorkerCount == 0
    ensures p.maxWorkerCount == maxWorkerThreadCount
  {
    Pool([], 0, maxWorkerThreadCount)
  }

  /** The busy count is never negative and never above the cap, except that a
      pool with a cap below one has no busy worker at all. */
  predicate Valid<T>(p: Pool<T>) {
    0 <= p.currentWorkerCount && (p.currentWorkerCount <= p.maxWorkerCount || p.currentWorkerCount == 0)
  }

  /** The locked block of `apply`: the task joins the back of the queue. */
  function Apply<T>(p: Pool<T>, task: T): (r: Pool<T>)
    ensures |r.queuedTasks| == |p.queuedTasks| + 1
    ensures r.queuedTasks[..|p.queuedTasks|] == p.queuedTasks && r.queuedTasks[|p.queuedTasks|] == task
    ensures r.(queuedTasks := p.queuedTasks) == p
  {
    p.(queuedTasks := p.queuedTasks + [task])
  }

  /** How many worker threads `_start_workers` starts: one per free slot,
      none if the queue is empty. */
  function Spawnable<T>(p: Pool<T>): nat {
    if |p.queuedTasks| > 0 && p.currentWorkerCount < p.maxWorkerCount
    then p.maxWorkerCount - p.currentWorkerCount
    else 0
  }

  /** The loop of `_start_workers`, counting the threads it starts. The queue
      cannot change while the lock is held, so the emptiness test gives the
      same answer on every iteration. */
  method StartWorkers<T>(p: Pool<T>) returns (spawned: nat)
    ensures spawned == Spawnable(p)
    ensures spawned > 0 <==> |p.queuedTasks| > 0 && p.currentWorkerCount < p.maxWorkerCount
  {
    spawned := 0;
    var i := p.currentWorkerCount;
    while i < p.maxWorkerCount
      invariant p.currentWorkerCount <= p.maxWorkerCount ==> p.currentWorkerCount <= i <= p.maxWorkerCount
      invariant p.currentWorkerCount > p.maxWorkerCount ==> i == p.currentWorkerCount
      invariant spawned == i - p.currentWorkerCount
      invariant |p.queuedTasks| == 0 ==> spawned == 0
      decreases p.maxWorkerCount - i
    {
      if |p.queuedTasks| == 0 {
        break;
      }
      spawned := spawned + 1;
      i := i + 1;
    }
  }

  /** The first locked block of `_worker_thread`: take the head task and
      occupy a slot, unless the pool is full or the queue empty. */
  function ClaimTask<T>(p: Pool<T>): (c: Claim<T>)
    ensures c.Declined? <==> p.currentWorkerCount >= p.maxWorkerCount || |p.queuedTasks| == 0
    ensures c.Claimed? ==>
      && [c.task] + c.pool.queuedTasks == p.queuedTasks
      && c.pool.currentWorkerCount == p.currentWorkerCount + 1
      && c.pool.maxWorkerCount == p.maxWorkerCount
  {
    if p.currentWorkerCount >= p.maxWorkerCount || |p.queuedTasks| == 0 then Declined
    else Claimed(p.queuedTasks[0], Pool(p.queuedTasks[1..], p.currentWorkerCount + 1, p.maxWorkerCount))
  }

  /** The second locked block of `_worker_thread`: free the slot. */
  function ReleaseWorker<T>(p: Pool<T>): (r: Pool<T>)
    ensures r.currentWorkerCount + 1 == p.currentWorkerCount
    ensures r.(currentWorkerCount := p.currentWorkerCount) == p
  {
    p.(currentWorkerCount := p.currentWorkerCount - 1)
  }

  /** A claim never breaks the bounds on the busy count. */
  lemma ClaimKeepsValid<T>(p: Pool<T>)
    requires Valid(p)
    ensures ClaimTask(p).Claimed? ==> Valid(ClaimTask(p).pool)
  {
  }

  /** One worker on its own: claim, run the task, release. Whether the task
      returned or raised, a worker that claimed gives its slot back, so the
      busy count is as before and the head task has left the queue. */
  function WorkerThread<T>(p: Pool<T>, outcome: TaskOutcome): (r: Pool<T>)
    ensures ClaimTask(p).Declined? ==> r == p
    ensures ClaimTask(p).Claimed? ==>
      && r.currentWorkerCount == p.currentWorkerCount
      && [p.queuedTasks[0]] + r.queuedTasks == p.queuedTasks
  {
    match ClaimTask(p)
    case Declined => p
    case Claimed(_, q) => ReleaseWorker(q)
  }

  // ---------------------------------------------------------------------
  // Interleaved transitions.

  /** One locked block, from whichever thread: a task submitted by `apply`,
      a worker's claim, or a busy worker finishing its task. */
  datatype Event<T> = Submit(task: T) | WorkerStart | WorkerFinish(outcome: TaskOutcome)

  /** The pool, the tasks claimed so far in claim order, and how many workers
      hold a slot. */
  datatype History<T> = History(pool: Pool<T>, claimed: seq<T>, busy: nat)

  /** One event. A finish with no busy worker cannot happen, since only a
      worker that claimed reaches the release, and is skipped. */
  function Transition<T>(h: History<T>, e: Event<T>): History<T> {
    match e
    case Submit(task) => h.(pool := Apply(h.pool, task))
    case WorkerStart =>
      (match ClaimTask(h.pool)
       case Claimed(task, q) => History(q, h.claimed + [task], h.busy + 1)
       case Declined => h)
    case WorkerFinish(_) =>
      if h.busy > 0 then History(ReleaseWorker(h.pool), h.claimed, h.busy - 1) else h
  }

  /** Applies the events in order. */
  function Replay<T>(h: History<T>, events: seq<Event<T>>): History<T>
    decreases |events|
  {
    if |events| == 0 then h else Replay(Transition(h, events[0]), events[1..])
  }

  /** The tasks `apply` submits in a sequence of events, in order. */
  function Submitted<T>(events: seq<Event<T>>): seq<T>
    decreases |events|
  {
    if |events| == 0 then []
    else (if events[0].Submit? then [events[0].task] else []) + Submitted(events[1..])
  }

  /** The bookkeeping stays consistent: the busy count is the number of
      workers holding a slot. */
  predicate Consistent<T>(h: History<T>) {
    Valid(h.pool) && h.pool.currentWorkerCount == h.busy
  }

  /** Every single event keeps the bookkeeping consistent and the cap
      fixed, and moves a task from the queue's head to the claims only. */
  lemma TransitionInvariants<T>(h: History<T>, e: Event<T>)
    requires Consistent(h)
    ensures var r := Transition(h, e);
      && Consistent(r)
      && r.pool.maxWorkerCount == h.pool.maxWorkerCount
      && r.claimed + r.pool.queuedTasks
         == h.claimed + h.pool.queuedTasks + (if e.Submit? then [e.task] else [])
  {
    if e.WorkerStart? && ClaimTask(h.pool).Claimed? {
      var c := ClaimTask(h.pool);
      assert h.claimed + [c.task] + c.pool.queuedTasks == h.claimed + ([c.task] + c.pool.queuedTasks);
    }
  }

  /** Under any interleaving the bookkeeping stays consistent and within the
      cap, the cap never changes, and the tasks are claimed in submission
      order, each once: the claims followed by the queue are the queue
      followed by the new submissions. */
  lemma {:induction false} ReplayInvariants<T>(h: History<T>, events: seq<Event<T>>)
    requires Consistent(h)
    ensures var r := Replay(h, events);
      && Consistent(r)
      && r.pool.maxWorkerCount == h.pool.maxWorkerCount
      && r.claimed + r.pool.queuedTasks == h.claimed + h.pool.queuedTasks + Submitted(events)
    decreases |events|
  {
    if |events| > 0 {
      var h' := Transition(h, events[0]);
      TransitionInvariants(h, events[0]);
      ReplayInvariants(h', events[1..]);
    }
  }

  /** From a new pool: every claimed task was submitted, in submission order,
      and the busy count never exceeds a non-negative cap. */
  lemma FifoFromNewPool<T>(maxWorkers: int, events: seq<Event<T>>)
    ensures var r := Replay(History(NewPool(maxWorkers), [], 0), events);
      && r.claimed + r.pool.queuedTasks == Submitted(events)
      && 0 <= r.pool.currentWorkerCount
      && (maxWorkers >= 0 ==> r.pool.currentWorkerCount <= maxWorkers)
  {
    ReplayInvariants(History(NewPool<T>(maxWorkers), [], 0), events);
  }

  /** `k` workers starting with no other event in between. */
  function Starts<T>(k: nat): (events: seq<Event<T>>)
    ensures |events| == k
    decreases k
  {
    if k == 0 then [] else [WorkerStart] + Starts(k - 1)
  }

  function Min(a: nat, b: nat): nat {
    if a <= b then a else b
  }

  /** How many tasks can be claimed before the queue runs dry or the pool fills. */
  function Claimable<T>(p: Pool<T>): nat {
    Min(|p.queuedTasks|, if p.maxWorkerCount > p.currentWorkerCount then p.maxWorkerCount - p.currentWorkerCount else 0)
  }

  /** `k` workers starting one after another claim the first tasks of the
      queue, as many as there are workers, tasks and free slots. */
  lemma {:induction false} StartsClaim<T>(h: History<T>, k: nat)
    requires Consistent(h)
    ensures var r := Replay(h, Starts(k));
      var m := Min(k, Claimable(h.pool));
      && r.claimed == h.claimed + h.pool.queuedTasks[..m]
      && r.pool.queuedTasks == h.pool.queuedTasks[m..]
      && r.busy == h.busy + m
    decreases k
  {
    if k > 0 {
      var h' := Transition(h, WorkerStart);
      ReplayStart(h, k);
      if Claimable(h.pool) > 0 {
        StartsClaim(h', k - 1);
        ClaimStep(h, k, Replay(h', Starts(k - 1)));
      } else {
        assert h' == h;
        StartsClaim(h, k - 1);
      }
    }
  }

  /** Replaying `k` starts is one start, then `k - 1` more. */
  lemma ReplayStart<T>(h: History<T>, k: nat)
    requires k > 0
    ensures Replay(h, Starts(k)) == Replay(Transition(h, WorkerStart), Starts(k - 1))
  {
    assert Starts<T>(k)[1..] == Starts<T>(k - 1);
  }

  /** The inductive step of `StartsClaim` when the first start claims: the
      head task goes first, then the tasks the remaining starts claim. */
  lemma ClaimStep<T>(h: History<T>, k: nat, r: History<T>)
    requires Consistent(h) && k > 0 && Claimable(h.pool) > 0
    requires var h' := Transition(h, WorkerStart);
      var m' := Min(k - 1, Claimable(h'.pool));
      && r.claimed == h'.claimed + h'.pool.queuedTasks[..m']
      && r.pool.queuedTasks == h'.pool.queuedTasks[m'..]
      && r.busy == h'.busy + m'
    ensures var m := Min(k, Claimable(h.pool));
      && r.claimed == h.claimed + h.pool.queuedTasks[..m]
      && r.pool.queuedTasks == h.pool.queuedTasks[m..]
      && r.busy == h.busy + m
  {
    var q := h.pool.queuedTasks;
    var m := Min(k, Claimable(h.pool));
    StartClaims(h);
    TakeOneMore(q, m);
    assert (h.claimed + [q[0]]) + q[1..][..m - 1] == h.claimed + ([q[0]] + q[1..][..m - 1]);
  }

  /** A start with a claimable task moves the head task to the claims. */
  lemma StartClaims<T>(h: History<T>)
    requires Consistent(h)
    requires Claimable(h.pool) > 0
    ensures var h' := Transition(h, WorkerStart);
      && h'.claimed == h.claimed + [h.pool.queuedTasks[0]]
      && h'.pool.queuedTasks == h.pool.queuedTasks[1..]
      && h'.busy == h.busy + 1
      && Consistent(h')
      && Claimable(h'.pool) == Claimable(h.pool) - 1
  {
    TransitionInvariants(h, WorkerStart);
  }

  lemma TakeOneMore<T>(q: seq<T>, m: nat)
    requires 0 < m <= |q|
    ensures [q[0]] + q[1..][..m - 1] == q[..m]
    ensures q[1..][m - 1..] == q[m..]
  {
  }

  /** The workers `_start_workers` spawns leave no task waiting while a slot
      is free: when they claim one after another, with no other locked block
      in between, the queue is then empty or the pool full. */
  lemma SpawnedWorkersSaturate<T>(p: Pool<T>)
    requires Valid(p)
    ensures var r := Replay(History(p, [], p.currentWorkerCount), Starts(Spawnable(p)));
      |r.pool.queuedTasks| == 0 || r.pool.currentWorkerCount >= r.pool.maxWorkerCount
  {
    var h := History(p, [], p.currentWorkerCount);
    StartsClaim(h, Spawnable(p));
    ReplayInvariants(h, Starts(Spawnable(p)));
  }
}
