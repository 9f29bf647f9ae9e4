# Product fetcher: pagination, retry and threading bookkeeping in Dafny

This project models the core of a small product-aggregation script, and the
thread helpers the script comes with.

The script pages through a product endpoint 20 items at a time (`skip` = 0,
20, 40, …). It retries a failed request with a geometric backoff. It gives up on
failure `max(num_retries, 0) + 1` while no request has succeeded yet, and
after `max(num_retries, 1)` consecutive failures once one has (a success
resets the retry count to 1, not 0). It normalizes every product into a
record with a prefixed id, then writes a summary with the success rate of
its requests.

The helpers are a lock-protected accumulator (`MyMultithreadingData`) and a
bounded worker pool (`MyThreadingPool`).

The modules:

- `Values` covers the scalar values a product field holds, and Python's
  `str()` on them. It includes the decimal notation of integers and its
  round trip.
- `Products` covers `process_one_set`: one record per raw item, in order.
- `Driver` covers `get_data_source_d` as a pure function, `RunFrom`.
  - It runs over a finite script of fetch outcomes: a failed request, or a
    page of products.
  - It returns the data, both counters, the returned flag, the sleeps the
    loop would request, and the offset of every request.
- `DriverProperties` proves the loop's rules: one step at a time, then
  whole runs.
- `RetryProperties` covers the retry behaviour:
  - the give-up after a burst of failures;
  - the geometric backoff and its closed form;
  - the flag the function returns, and a corrected version of it.
- `Report` covers the success rate, the summary object of `write_output`,
  and `main` with the clock reading passed in as a parameter.
- `SharedData` covers the four accumulator methods as atomic transitions.
  Threads are modelled as an arbitrary interleaving of those transitions.
- `WorkerPool` covers the pool's three locked blocks as atomic transitions:
  - enqueue;
  - a worker's claim;
  - a worker's release.

  Arbitrary interleavings of these are replayed over the pool's state.

Integers are unbounded, as in Python. Configuration values, delays and the
success rate are exact reals.

## Model

| member | source | states |
|---|---|---|
| Values.DecimalRoundTrip | main.py:88 | reading back the decimal notation `str()` gives a natural number yields that number |
| Values.IntDecimalRoundTrip | main.py:88 | `str()` of any integer, minus sign included, reads back as that integer |
| Values.IntToDecimalInjective | main.py:88 | two integers with the same `str()` are equal |
| Values.PyStr | main.py:88 | `str()` of a string is the string itself; `str()` of an integer reads back as the integer |
| Products.ProcessOneSet | main.py:84-96 | the conversion yields exactly one record per input item |
| Products.ProcessOneSetFields | main.py:84-96 | record k has id = prefix + `str(id)` of item k, the given source, and the title, price and category of item k unchanged |
| Products.ProcessOneSetAppend | main.py:66-67 | converting pages one at a time and concatenating equals converting their concatenation, so accumulated data keeps input order |
| Products.DistinctIntIdsStayDistinct | main.py:88 | items with pairwise distinct integer ids get pairwise distinct prefixed ids |
| Products.PrefixedDecimalInjective | main.py:88 | one prefix before the `str()` of two integers gives equal ids only for equal integers |
| DriverProperties.StepFacts | main.py:44-74 | one iteration: the request goes to the current skip; exactly one counter grows; a failure keeps skip and either gives up (retry budget spent) or backs off `first * multiplier^retry_count` and increments retry_count; a page sets retry_count to 1; a non-empty page adds its records, advances skip by 20 and pauses; an empty page ends the loop |
| DriverProperties.StepOffsets | main.py:45-69 | one iteration requests the current offset, and only a non-empty page moves it, by 20 |
| DriverProperties.RunStops | main.py:41-74 | a run makes at least one request when it can; it ends normally exactly when the last outcome it used is an empty page; it gives up only on a failure |
| DriverProperties.AttemptsWithin | main.py:44-74 | a run uses between one outcome and the whole script |
| DriverProperties.RunFailures | main.py:47-48 | fail_count grows by exactly the failures received, and the returned flag never changes |
| DriverProperties.RunPages | main.py:61-74 | success_count grows by the non-empty pages plus the final empty one; skip grows by 20 per non-empty page and by nothing else |
| DriverProperties.RunAttempts | main.py:44-61 | every request increments exactly one of success_count and fail_count |
| DriverProperties.RunData | main.py:65-67 | data is the in-order conversion of the products of every page received |
| DriverProperties.RunOffsetsFollow | main.py:45-69 | the offsets requested are the reference sequence that starts at skip and moves 20 past each non-empty page |
| DriverProperties.ExpectedOffsetAt | main.py:45-69 | entry i of that reference sequence is skip + 20 × the non-empty pages among the first i outcomes |
| DriverProperties.RunOffsets | main.py:42-69 | from the start, request i asks for offset 20 × (non-empty pages received before it); a failure never moves the offset |
| RetryProperties.FailureBurst | main.py:47-58 | a burst of failures after retry count c gives up after `max(num_retries - c, 0) + 1` failures, all counted; success_count, skip and data do not change; the sleeps added are the backoffs for retry counts c, c+1, … |
| RetryProperties.BackoffsSnoc | main.py:55-57 | the backoffs of k+1 consecutive retries are those of k retries followed by one more |
| RetryProperties.TotalSnoc | main.py:58 | the total sleep grows by the seconds of each sleep appended |
| RetryProperties.ClosedFormStep | main.py:55-57 | the geometric closed form for n backoffs extends to n+1 |
| RetryProperties.BackoffsTotal | main.py:55-58 | the first n backoffs sum to a total S with `S * (m - 1) = first * (m^n - 1)` |
| RetryProperties.AlwaysFailingSource | main.py:47-58 | against a source that always fails, the loop gives up after `num_retries + 1` requests (one when `num_retries` is negative), all counted as failures, with success_count 0 and no data; its sleeps are the backoffs for exponents `0 .. num_retries - 1`, with the geometric closed-form total |
| RetryProperties.RetryBackoffExample | test_main.py:67-68 | with first delay 0.2, multiplier 2 and 3 retries, four failed requests are made and the backoffs total 1.4 seconds |
| RetryProperties.FailuresAfterPage | main.py:50-62 | a page sets retry_count to 1, so a following run of failures gives up after `num_retries` failures (one failure if `num_retries <= 1`), and its first backoff uses exponent 1 |
| RetryProperties.IsFailureNeverSet | main.py:38-76 | the returned is_failure is False for every configuration and every script |
| RetryProperties.GiveUpNotReported | main.py:51 | a concrete run that gives up and still returns is_failure = False |
| RetryProperties.GiveUpNeedsFailures | main.py:50-52 | retry_count never exceeds the failures (plus one after a success); a give-up follows at least num_retries failures, or num_retries + 1 if nothing succeeded |
| RetryProperties.GetDataSourceDFixed | main.py:50-52 | with line 51 setting the returned flag, the flag is True exactly when the loop gave up, which takes at least num_retries failed requests; every other result equals the original's |
| Report.SuccessRate | main.py:24 | the rate lies in [0, 1], times the request count it gives the successes, and it is 1 exactly when nothing failed and 0 exactly when nothing succeeded |
| Report.WriteOutput | main.py:105-114 | total_products is the number of records; the records, processing time, rate and sources are the ones given |
| Report.AtLeastOneAttempt | main.py:24 | a run with any outcome to give makes between one request and the script's length, so the rate's denominator is positive |
| Report.RunPipeline | main.py:8-27 | `main`: the summary counts the fetched records; its rate times the run's request count is the run's successful requests, and lies in [0, 1]; its processing time is the given duration; the only source is "endpoint_d" |
| Report.NormalEnd | main.py:61-74 | a run that ends on an empty page made non-empty pages + 1 successful requests, counted every failure, holds the in-order conversion of all products received, and stands at skip 20 × the non-empty pages |
| Report.SinglePageExample | main.py:84-96 | one page holding a product with id 1, then an empty page: one record with id "d.1" and rate 1 |
| SharedData.New | threading_helpers.py:8-13 | a fresh object has no products, no errors and both counters at zero |
| SharedData.AddProducts | threading_helpers.py:17-19 | the batch is appended, in order, at the end of products; nothing else changes |
| SharedData.AddError | threading_helpers.py:21-23 | exactly one record is appended at the end of errors; nothing else changes |
| SharedData.AddSuccessfulRequest | threading_helpers.py:25-27 | the successful counter grows by num (1 by default); nothing else changes |
| SharedData.AddFailedRequest | threading_helpers.py:29-31 | the failed counter grows by num (1 by default); nothing else changes |
| SharedData.ApplyAllTally | threading_helpers.py:17-31 | a sequence of calls adds exactly the sum of their amounts to the counters and list lengths |
| SharedData.CountersCommute | threading_helpers.py:25-31 | two counter calls give the same object in either order |
| SharedData.ThreadsTallyUpdate | threading_helpers.py:17-31 | replacing one thread's remaining calls changes the threads' total by the difference |
| SharedData.InterleaveConserves | threading_helpers.py:17-31 | under any schedule of the threads' calls, what the object counted plus what the threads still have to do equals what there was to do: no update is lost |
| SharedData.ConcurrentIncrements | threading_helpers.py:25-27 | t threads of n single increments on a fresh object end, under any schedule that lets them finish, with the counter at t × n and nothing else changed |
| SharedData.SimpleUsage | test_threading.py:6-24 | the calls of the accumulator's coverage test leave 4 successes, 2 failures, products a, b, c and one error |
| WorkerPool.NewPool | threading_helpers.py:40-47 | a new pool has no tasks, no busy workers and the given cap (4 by default) |
| WorkerPool.Apply | threading_helpers.py:53-55 | a submitted task joins the back of the queue; nothing else changes |
| WorkerPool.StartWorkers | threading_helpers.py:65-72 | the spawn loop starts one thread per free slot, and none when the queue is empty |
| WorkerPool.ClaimTask | threading_helpers.py:77-83 | a worker declines exactly when the pool is full or the queue empty; otherwise it takes the head task and occupies one slot |
| WorkerPool.ReleaseWorker | threading_helpers.py:91-92 | the release frees exactly one slot and changes nothing else |
| WorkerPool.ClaimKeepsValid | threading_helpers.py:77-83 | a claim keeps the busy count between zero and the cap |
| WorkerPool.WorkerThread | threading_helpers.py:76-92 | a worker that claimed gives its slot back whether its task returned or raised; the head task has left the queue; a worker that declined changes nothing |
| WorkerPool.TransitionInvariants | threading_helpers.py:53-92 | every locked block keeps the busy count equal to the workers holding a slot and within the cap, keeps the cap, and moves tasks only from the queue's head to the claims |
| WorkerPool.ReplayInvariants | threading_helpers.py:53-92 | under any interleaving the busy count stays consistent and within the cap, and claims followed by the queue equal the old queue followed by the submissions: FIFO order, each task at most once |
| WorkerPool.FifoFromNewPool | threading_helpers.py:40-83 | from a new pool, the tasks claimed are a prefix of the submissions in order, and the busy count stays within a non-negative cap |
| WorkerPool.StartClaims | threading_helpers.py:80-83 | a start with a claimable task moves the head task to the claims and uses one free slot |
| WorkerPool.StartsClaim | threading_helpers.py:65-83 | k workers starting in a row claim the first min(k, tasks, free slots) tasks of the queue, in order |
| WorkerPool.SpawnedWorkersSaturate | threading_helpers.py:65-83 | when the workers `_start_workers` spawned claim one after another with no other locked block in between, the queue is then empty or the pool full |

## Left out

- HTTP I/O is not modelled: the aiohttp session, URL formatting, status codes, `response.json()`, and exceptions raised by the request. A script of outcomes (`Fail`, `Page(products)`) stands in for the responses.
- `Driver.RunFrom` stops with `ScriptEnded` when the script runs out. The original would keep requesting; the model has nothing more to give it.
- An empty script makes no request. So `Report.RunPipeline` requires a non-empty script, which is what makes the rate's denominator positive.
- `asyncio.sleep` is not modelled. The requested durations are recorded as `Sleep` values instead.
- Clock reads are not modelled: `datetime.now`, the duration computation and `processed_at`. The duration is a parameter of `Report.RunPipeline`, and records carry no timestamp.
- Loading `config.json` and writing `results.json` are not modelled. The configuration is a `Config` value, and the output is the `Output` value that would be dumped.
- `asyncio.gather` and `asyncio.run` are not modelled: there is a single source and no logic there.
- Floats are not modelled. Configuration values and delays are exact reals, and `pow` and `/` are exact.
- Products.ProcessOneSet: requires every item to have `id`, `title`, `price` and `category`. The source raises `KeyError` otherwise, and that exception is not modelled.
- Values.Value: holds only JSON scalars (null, booleans, integers, floats, strings). Array- or object-valued fields are not representable, so `str()` of a list id and the copying of a list-valued title are not modelled; nothing the loop reads depends on them.
- Driver.ScriptProcessable: is required of every page of the script, including pages after the point where the loop stops. The source only reads the pages it consumes. No run is lost, because a run depends only on the outcomes it consumes.
- Values.PyStr: does not model `str()` of a float, because Python's float formatting is out of scope. Items with float ids are therefore excluded.
- Thread creation, `start` and `join_all` are not modelled. The wall-clock parallelism tests are not modelled either. Threads are represented only by the interleaving of their locked blocks.
- `thread_handles` is not modelled: the handles are never read except by `join_all`.
- The effects of a worker's task are not modelled. Only its outcome (returned or raised) enters the model, and it is swallowed.
- The pluggable `get_data(config, fetcher, source, prefix, pool)` API that test_main.py calls is not modelled: main.py does not define it. That test's first mock item also lacks `price`, on which main.py's `process_one_set` would raise `KeyError`.

## Findings

| source | as written | input that shows it | evidently intended | confidence | as-written member | corrected member |
|---|---|---|---|---|---|---|
| main.py:51 | the give-up branch assigns `failure = True`, a name nothing reads, so the returned `is_failure` is always False | num_retries 3 and four failed requests: the loop gives up, and the function returns is_failure = False | `is_failure = True`, so the flag reports that the loop gave up | high (not executed) | RetryProperties.GiveUpNotReported | RetryProperties.GetDataSourceDFixed |
