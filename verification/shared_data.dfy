/**
  `MyMultithreadingData`: products, errors and two request counters, each
  changed under one lock by one method. Each method is one atomic
  transition; threads are modelled by interleaving their transitions.
 */
module SharedData {

  datatype MultithreadingData<P, E> = MultithreadingData(
    products: seq<P>,
    errors: seq<E>,
    successfulRequests: int,
    failedRequests: int)

  /** A fresh object: nothing collected, both counters zero. */
  function New<P, E>(): (d: MultithreadingData<P, E>)
    ensures |d.products| == 0 && |d.errors| == 0
    ensures d.successfulRequests == 0 && d.failedRequests == 0
  {
    MultithreadingData([], [], 0, 0)
  }

  /** Extends `products` with a batch; nothing else changes. */
  function AddProducts<P, E>(d: MultithreadingData<P, E>, batch: seq<P>): (r: MultithreadingData<P, E>)
    ensures |r.products| == |d.products| + |batch|
    ensures r.products[..|d.products|] == d.products && r.products[|d.products|..] == batch
    ensures r.(products := d.products) == d
  {
    d.(products := d.products + batch)
  }

  /** Appends one error record; nothing else changes. */
  function AddError<P, E>(d: MultithreadingData<P, E>, error: E): (r: MultithreadingData<P, E>)
    ensures |r.errors| == |d.errors| + 1
    ensures r.errors[..|d.errors|] == d.errors && r.errors[|d.errors|] == error
    ensures r.(errors := d.errors) == d
  {
    d.(errors := d.errors + [error])
  }

  /** Adds `num` (1 by default) to the successful-request counter only. */
  function AddSuccessfulRequest<P, E>(d: MultithreadingData<P, E>, num: int := 1): (r: MultithreadingData<P, E>)
    ensures r.successfulRequests - d.successfulRequests == num
    ensures r.(successfulRequests := d.successfulRequests) == d
  {
    d.(successfulRequests := d.successfulRequests + num)
  }

  /** Adds `num` (1 by default) to the failed-request counter only. */
  function AddFailedRequest<P, E>(d: MultithreadingData<P, E>, num: int := 1): (r: MultithreadingData<P, E>)
    ensures r.failedRequests - d.failedRequests == num
    ensures r.(failedRequests := d.failedRequests) == d
  {
    d.(failedRequests := d.failedRequests + num)
  }

  /** One call of one of the four methods. */
  datatype Op<P, E> =
    | ProductsOp(batch: seq<P>)
    | ErrorOp(error: E)
    | SuccessOp(num: int)
    | FailureOp(num: int)

  function Apply<P, E>(d: MultithreadingData<P, E>, op: Op<P, E>): MultithreadingData<P, E> {
    match op
    case ProductsOp(batch) => AddProducts(d, batch)
    case ErrorOp(error) => AddError(d, error)
    case SuccessOp(num) => AddSuccessfulRequest(d, num)
    case FailureOp(num) => AddFailedRequest(d, num)
  }

  /** Applies a sequence of calls, first to last. */
  function ApplyAll<P, E>(d: MultithreadingData<P, E>, ops: seq<Op<P, E>>): MultithreadingData<P, E>
    decreases |ops|
  {
    if |ops| == 0 then d else ApplyAll(Apply(d, ops[0]), ops[1..])
  }

  /** How much a set of calls adds to each counter and to each list's length. */
  datatype Tally = Tally(successes: int, failures: int, products: int, errors: int)

  function Plus(a: Tally, b: Tally): Tally {
    Tally(a.successes + b.successes, a.failures + b.failures, a.products + b.products, a.errors + b.errors)
  }

  const Zero: Tally := Tally(0, 0, 0, 0)

  /** The counters and list lengths of an object. */
  function Measure<P, E>(d: MultithreadingData<P, E>): Tally {
    Tally(d.successfulRequests, d.failedRequests, |d.products|, |d.errors|)
  }

  function OpTally<P, E>(op: Op<P, E>): Tally {
    match op
    case ProductsOp(batch) => Tally(0, 0, |batch|, 0)
    case ErrorOp(_) => Tally(0, 0, 0, 1)
    case SuccessOp(num) => Tally(num, 0, 0, 0)
    case FailureOp(num) => Tally(0, num, 0, 0)
  }

  function OpsTally<P, E>(ops: seq<Op<P, E>>): Tally
    decreases |ops|
  {
    if |ops| == 0 then Zero else Plus(OpTally(ops[0]), OpsTally(ops[1..]))
  }

  function ThreadsTally<P, E>(threads: seq<seq<Op<P, E>>>): Tally
    decreases |threads|
  {
    if |threads| == 0 then Zero else Plus(OpsTally(threads[0]), ThreadsTally(threads[1..]))
  }

  /** One call adds exactly its own amounts. */
  lemma ApplyTally<P, E>(d: MultithreadingData<P, E>, op: Op<P, E>)
    ensures Measure(Apply(d, op)) == Plus(Measure(d), OpTally(op))
  {
  }

  /** Calls made one after another add up. */
  lemma {:induction false} ApplyAllTally<P, E>(d: MultithreadingData<P, E>, ops: seq<Op<P, E>>)
    ensures Measure(ApplyAll(d, ops)) == Plus(Measure(d), OpsTally(ops))
    decreases |ops|
  {
    if |ops| > 0 {
      ApplyTally(d, ops[0]);
      ApplyAllTally(Apply(d, ops[0]), ops[1..]);
    }
  }

  /** Two calls of the counter methods give the same object in either order. */
  lemma CountersCommute<P, E>(d: MultithreadingData<P, E>, a: Op<P, E>, b: Op<P, E>)
    requires (a.SuccessOp? || a.FailureOp?) && (b.SuccessOp? || b.FailureOp?)
    ensures Apply(Apply(d, a), b) == Apply(Apply(d, b), a)
  {
  }

  /** Runs threads, each a sequence of calls, under a schedule: each entry of
      `sched` lets the named thread make its next call. An entry naming a
      finished or missing thread does nothing. Returns the object and what
      every thread still has to do. */
  function Interleave<P, E>(d: MultithreadingData<P, E>, threads: seq<seq<Op<P, E>>>, sched: seq<nat>)
    : (MultithreadingData<P, E>, seq<seq<Op<P, E>>>)
    decreases |sched|
  {
    if |sched| == 0 then (d, threads)
    else
      var t := sched[0];
      if t < |threads| && |threads[t]| > 0 then
        Interleave(Apply(d, threads[t][0]), threads[t := threads[t][1..]], sched[1..])
      else
        Interleave(d, threads, sched[1..])
  }

  /** Replacing one thread's calls changes the total by the difference. */
  lemma {:induction false} ThreadsTallyUpdate<P, E>(threads: seq<seq<Op<P, E>>>, t: nat, ops: seq<Op<P, E>>)
    requires t < |threads|
    ensures Plus(ThreadsTally(threads[t := ops]), OpsTally(threads[t]))
         == Plus(ThreadsTally(threads), OpsTally(ops))
    decreases |threads|
  {
    if t > 0 {
      assert threads[t := ops][1..] == threads[1..][t - 1 := ops];
      ThreadsTallyUpdate(threads[1..], t - 1, ops);
    } else {
      assert threads[t := ops][1..] == threads[1..];
    }
  }

  /** No update is lost: whatever the schedule, what the object has counted
      plus what the threads still have to do is what there was to do. */
  lemma {:induction false} InterleaveConserves<P, E>(
    d: MultithreadingData<P, E>, threads: seq<seq<Op<P, E>>>, sched: seq<nat>)
    ensures var (e, rest) := Interleave(d, threads, sched);
      && |rest| == |threads|
      && Plus(Measure(e), ThreadsTally(rest)) == Plus(Measure(d), ThreadsTally(threads))
    decreases |sched|
  {
    if |sched| > 0 {
      var t := sched[0];
      if t < |threads| && |threads[t]| > 0 {
        var op := threads[t][0];
        var next := threads[t := threads[t][1..]];
        assert Interleave(d, threads, sched) == Interleave(Apply(d, op), next, sched[1..]);
        var e := Interleave(d, threads, sched).0;
        var rest := Interleave(d, threads, sched).1;
        ApplyTally(d, op);
        ThreadsTallyUpdate(threads, t, threads[t][1..]);
        assert OpsTally(threads[t]) == Plus(OpTally(op), OpsTally(threads[t][1..]));
        InterleaveConserves(Apply(d, op), next, sched[1..]);
        TallyShift(Measure(e), ThreadsTally(rest), Measure(Apply(d, op)), ThreadsTally(next),
                   Measure(d), OpTally(op), OpsTally(threads[t][1..]), ThreadsTally(threads));
      } else {
        InterleaveConserves(d, threads, sched[1..]);
      }
    }
  }

  /** Moving one call from the threads' remaining work to the object keeps the
      total: the arithmetic step of `InterleaveConserves`. */
  lemma TallyShift(now: Tally, left: Tally, applied: Tally, nextLeft: Tally,
                   before: Tally, op: Tally, restOfThread: Tally, allLeft: Tally)
    requires Plus(now, left) == Plus(applied, nextLeft)
    requires applied == Plus(before, op)
    requires Plus(nextLeft, Plus(op, restOfThread)) == Plus(allLeft, restOfThread)
    ensures Plus(now, left) == Plus(before, allLeft)
  {
  }

  predicate AllDone<P, E>(threads: seq<seq<Op<P, E>>>) {
    forall t :: 0 <= t < |threads| ==> |threads[t]| == 0
  }

  lemma {:induction false} DoneTallyZero<P, E>(threads: seq<seq<Op<P, E>>>)
    requires AllDone(threads)
    ensures ThreadsTally(threads) == Zero
    decreases |threads|
  {
    if |threads| > 0 {
      DoneTallyZero(threads[1..]);
    }
  }

  /** `ops` is `n` calls of `add_successful_request()` with the default. */
  predicate SingleIncrements<P, E>(ops: seq<Op<P, E>>, n: nat) {
    |ops| == n && forall i :: 0 <= i < |ops| ==> ops[i] == SuccessOp(1)
  }

  function Increments<P, E>(n: nat): (ops: seq<Op<P, E>>)
    ensures SingleIncrements(ops, n)
  {
    seq(n, _ => SuccessOp(1))
  }

  lemma {:induction false} IncrementsTally<P, E>(ops: seq<Op<P, E>>, n: nat)
    requires SingleIncrements(ops, n)
    ensures OpsTally(ops) == Tally(n, 0, 0, 0)
    decreases |ops|
  {
    if |ops| > 0 {
      IncrementsTally(ops[1..], n - 1);
    }
  }

  lemma MulSucc(k: nat, n: nat, total: nat)
    requires total == k + 1
    ensures n + k * n == total * n
  {
  }

  lemma {:induction false} UniformThreadsTally<P, E>(threads: seq<seq<Op<P, E>>>, n: nat)
    requires forall t :: 0 <= t < |threads| ==> SingleIncrements(threads[t], n)
    ensures ThreadsTally(threads) == Tally(|threads| * n, 0, 0, 0)
    decreases |threads|
  {
    if |threads| > 0 {
      IncrementsTally(threads[0], n);
      UniformThreadsTally(threads[1..], n);
      MulSucc(|threads[1..]|, n, |threads|);
    }
  }

  /** `t` threads each making `n` single increments on a fresh object: under
      any schedule that lets every thread finish, the counter ends at `t * n`
      and nothing else has moved. */
  lemma ConcurrentIncrements<P, E>(t: nat, n: nat, sched: seq<nat>)
    requires var threads := seq(t, _ => Increments<P, E>(n));
      AllDone(Interleave(New<P, E>(), threads, sched).1)
    ensures var threads := seq(t, _ => Increments<P, E>(n));
      var d := Interleave(New<P, E>(), threads, sched).0;
      && d.successfulRequests == t * n
      && d.failedRequests == 0
      && |d.products| == 0 && |d.errors| == 0
  {
    var threads := seq(t, _ => Increments<P, E>(n));
    InterleaveConserves(New<P, E>(), threads, sched);
    DoneTallyZero(Interleave(New<P, E>(), threads, sched).1);
    UniformThreadsTally(threads, n);
  }

  /** Two successes, three products and one error, as a single thread. */
  lemma SimpleUsage()
    ensures var d := ApplyAll(New<char, int>(),
                              [SuccessOp(1), SuccessOp(3), FailureOp(2), ProductsOp(['a', 'b']),
                               ProductsOp(['c']), ErrorOp(1)]);
      && d.successfulRequests == 4
      && d.failedRequests == 2
      && d.products == ['a', 'b', 'c']
      && d.errors == [1]
  {
    var ops: seq<Op<char, int>> := [SuccessOp(1), SuccessOp(3), FailureOp(2), ProductsOp(['a', 'b']),
                                   ProductsOp(['c']), ErrorOp(1)];
    var d0 := New<char, int>();
    var d1 := Apply(d0, ops[0]);
    var d2 := Apply(d1, ops[1]);
    var d3 := Apply(d2, ops[2]);
    var d4 := Apply(d3, ops[3]);
    var d5 := Apply(d4, ops[4]);
    var d6 := Apply(d5, ops[5]);
    assert ApplyAll(d6, ops[6..]) == d6;
    assert ApplyAll(d5, ops[5..]) == d6 by { assert ops[5..][1..] == ops[6..]; }
    assert ApplyAll(d4, ops[4..]) == d6 by { assert ops[4..][1..] == ops[5..]; }
    assert ApplyAll(d3, ops[3..]) == d6 by { assert ops[3..][1..] == ops[4..]; }
    assert ApplyAll(d2, ops[2..]) == d6 by { assert ops[2..][1..] == ops[3..]; }
    assert ApplyAll(d1, ops[1..]) == d6 by { assert ops[1..][1..] == ops[2..]; }
    assert d6.products == ['a', 'b', 'c'];
  }
}
