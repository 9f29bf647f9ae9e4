/**
  The pagination and retry loop of `get_data_source_d` (main.py), with the
  HTTP request replaced by a finite script of fetch outcomes and the waits
  replaced by a record of the sleeps the loop would request.
 */
module Driver {
  import opened Values
  import opened Products

  /** The configuration entries the loop reads. Delays are seconds. */
  datatype Config = Config(
    numRetries: int,
    firstRetryDelaySeconds: real,
    retryBackoffMultiplier: real,
    endpointDelayBetweenRequestsSeconds: real)

  /** What one request returned: a non-200 status, or a 200 response whose
      `products` list is given. */
  datatype FetchOutcome = Fail | Page(products: seq<RawItem>)

  /** A wait the loop asks for: a retry backoff, or the pause between pages. */
  datatype Sleep = Backoff(seconds: real) | Pause(seconds: real)

  /** Why the loop stopped: an empty page (the normal end), the retry budget
      ran out (the `break`), or the script has no further outcome to give. */
  datatype Stop = EmptyPage | GaveUp | ScriptEnded

  /** The loop's local variables, plus the sleeps requested and the `skip`
      of every request made so far. */
  datatype LoopState = LoopState(
    skip: nat,
    retryCount: nat,
    successCount: nat,
    failCount: nat,
    data: seq<Product>,
    isFailure: bool,
    sleeps: seq<Sleep>,
    offsets: seq<nat>)

  datatype StepResult = Continue(next: LoopState) | Halt(last: LoopState, why: Stop)

  /** The final state, why the loop stopped, and how many outcomes it used. */
  datatype Run = Run(final: LoopState, stop: Stop, attempts: nat)

  /** What the model of `get_data_source_d` hands back: the four values the
      source returns, and the sleeps, offsets and stop reason. */
  datatype Fetched = Fetched(
    data: seq<Product>,
    successCount: nat,
    failCount: nat,
    isFailure: bool,
    sleeps: seq<Sleep>,
    offsets: seq<nat>,
    stop: Stop)

  const PageSize: nat := 20
  const SourceName: string := "jsonplaceholder.typicode.com"
  const IdPrefix: string := "d."

  const Initial: LoopState := LoopState(0, 0, 0, 0, [], false, [], [])

  function Pow(b: real, n: nat): real
    decreases n
  {
    if n == 0 then 1.0 else b * Pow(b, n - 1)
  }

  /** The backoff before the retry made at `retryCount`. */
  function RetryDelay(cfg: Config, retryCount: nat): real {
    cfg.firstRetryDelaySeconds * Pow(cfg.retryBackoffMultiplier, retryCount)
  }

  /** Every page in the script can be normalized (no `KeyError`). */
  predicate ScriptProcessable(script: seq<FetchOutcome>) {
    forall k :: 0 <= k < |script| ==> script[k].Page? ==> AllProcessable(script[k].products)
  }

  /** One iteration of the `while is_more_data` loop on one fetch outcome. */
  function Step(cfg: Config, st: LoopState, outcome: FetchOutcome): StepResult
    requires outcome.Page? ==> AllProcessable(outcome.products)
  {
    var st := st.(offsets := st.offsets + [st.skip]);
    match outcome
    case Fail =>
      var st := st.(failCount := st.failCount + 1);
      if st.retryCount >= cfg.numRetries then
        Halt(st, GaveUp)
      else
        Continue(st.(retryCount := st.retryCount + 1, sleeps := st.sleeps + [Backoff(RetryDelay(cfg, st.retryCount))]))
    case Page(products) =>
      var st := st.(successCount := st.successCount + 1, retryCount := 1);
      if |products| > 0 then
        Continue(st.(
          data := st.data + ProcessOneSet(products, SourceName, IdPrefix),
          skip := st.skip + PageSize,
          sleeps := st.sleeps + [Pause(cfg.endpointDelayBetweenRequestsSeconds)]))
      else
        Halt(st, EmptyPage)
  }

  function StateOf(r: StepResult): LoopState {
    if r.Continue? then r.next else r.last
  }

  /** Runs the loop from `st` over the scripted outcomes until it stops. */
  function RunFrom(cfg: Config, st: LoopState, script: seq<FetchOutcome>): (r: Run)
    requires ScriptProcessable(script)
    decreases |script|
  {
    if |script| == 0 then Run(st, ScriptEnded, 0)
    else
      match Step(cfg, st, script[0])
      case Halt(last, why) => Run(last, why, 1)
      case Continue(next) =>
        var r := RunFrom(cfg, next, script[1..]);
        r.(attempts := r.attempts + 1)
  }

  /** `get_data_source_d` as written: the flag it returns is the one set at
      the start of the function. */
  function GetDataSourceD(cfg: Config, script: seq<FetchOutcome>): Fetched
    requires ScriptProcessable(script)
  {
    var r := RunFrom(cfg, Initial, script);
    Fetched(r.final.data, r.final.successCount, r.final.failCount, r.final.isFailure,
            r.final.sleeps, r.final.offsets, r.stop)
  }

  // ---------------------------------------------------------------------
  // Functions over the consumed part of a script.

  function Failures(s: seq<FetchOutcome>): nat
    decreases |s|
  {
    if |s| == 0 then 0 else (if s[0].Fail? then 1 else 0) + Failures(s[1..])
  }

  predicate NonEmptyPage(o: FetchOutcome) {
    o.Page? && |o.products| > 0
  }

  function NonEmptyPages(s: seq<FetchOutcome>): nat
    decreases |s|
  {
    if |s| == 0 then 0 else (if NonEmptyPage(s[0]) then 1 else 0) + NonEmptyPages(s[1..])
  }

  /** The products an outcome carries. */
  function ItemsOf(o: FetchOutcome): seq<RawItem> {
    if o.Page? then o.products else []
  }

  /** All products of the pages of `s`, in order. */
  function Items(s: seq<FetchOutcome>): (items: seq<RawItem>)
    ensures ScriptProcessable(s) ==> AllProcessable(items)
    decreases |s|
  {
    if |s| == 0 then []
    else ItemsOf(s[0]) + Items(s[1..])
  }

  function TotalSeconds(sleeps: seq<Sleep>): real
    decreases |sleeps|
  {
    if |sleeps| == 0 then 0.0 else sleeps[0].seconds + TotalSeconds(sleeps[1..])
  }

  /** The backoffs of `k` consecutive retries starting at retry count `c`. */
  function Backoffs(cfg: Config, c: nat, k: nat): seq<Sleep>
    decreases k
  {
    if k == 0 then []
    else [Backoff(RetryDelay(cfg, c))] + Backoffs(cfg, c + 1, k - 1)
  }

  /** How many more failures the loop absorbs, at retry count `c`, before the
      next one makes it give up. */
  function RetriesLeft(cfg: Config, c: nat): nat {
    if cfg.numRetries > c then cfg.numRetries - c else 0
  }
}
