/**
  The retry policy of the loop: how many failures it absorbs, the geometric
  backoff it requests, the reset of the retry count after a success, and the
  failure flag it hands back.
 */
module RetryProperties {
  import opened Values
  import opened Products
  import opened Driver
  import opened DriverProperties

  predicate AllFail(script: seq<FetchOutcome>) {
    forall i :: 0 <= i < |script| ==> script[i] == Fail
  }

  /** From retry count `c`, consecutive failures are absorbed until the count
      reaches `num_retries`; the next failure ends the loop. Each absorbed
      failure requests a backoff of `first_retry_delay_seconds *
      retry_backoff_multiplier ^ retry_count` and then increments the count;
      nothing but the failure counter, the retry count and the sleeps moves. */
  lemma {:induction false} FailureBurst(cfg: Config, st: LoopState, script: seq<FetchOutcome>)
    requires ScriptProcessable(script)
    requires |script| > RetriesLeft(cfg, st.retryCount)
    requires forall i :: 0 <= i <= RetriesLeft(cfg, st.retryCount) ==> script[i] == Fail
    ensures var r := RunFrom(cfg, st, script);
      var k := RetriesLeft(cfg, st.retryCount);
      && r.stop == GaveUp
      && r.attempts == k + 1
      && r.final.failCount == st.failCount + k + 1
      && r.final.successCount == st.successCount
      && r.final.skip == st.skip
      && r.final.data == st.data
      && r.final.sleeps == st.sleeps + Backoffs(cfg, st.retryCount, k)
    decreases |script|
  {
    RunUnfold(cfg, st, script);
    StepFacts(cfg, st, script[0]);
    var k := RetriesLeft(cfg, st.retryCount);
    var sr := Step(cfg, st, script[0]);
    assert ProcessOneSet([], SourceName, IdPrefix) == [];
    if k == 0 {
      assert sr.Halt?;
      assert Backoffs(cfg, st.retryCount, 0) == [];
    } else {
      assert sr.Continue?;
      var next := sr.next;
      assert RetriesLeft(cfg, next.retryCount) == k - 1;
      forall i | 0 <= i <= k - 1
        ensures script[1..][i] == Fail
      {
        assert script[1..][i] == script[i + 1];
      }
      FailureBurst(cfg, next, script[1..]);
      var b := Backoff(RetryDelay(cfg, st.retryCount));
      assert Backoffs(cfg, st.retryCount, k) == [b] + Backoffs(cfg, st.retryCount + 1, k - 1);
      assert next.sleeps == st.sleeps + [b];
      assert (st.sleeps + [b]) + Backoffs(cfg, st.retryCount + 1, k - 1)
          == st.sleeps + ([b] + Backoffs(cfg, st.retryCount + 1, k - 1));
    }
  }

  /** The backoffs of `k + 1` retries are those of `k` retries and one more. */
  lemma {:induction false} BackoffsSnoc(cfg: Config, c: nat, k: nat)
    ensures Backoffs(cfg, c, k + 1) == Backoffs(cfg, c, k) + [Backoff(RetryDelay(cfg, c + k))]
    decreases k
  {
    if k > 0 {
      BackoffsSnoc(cfg, c + 1, k - 1);
      assert c + 1 + (k - 1) == c + k;
    }
  }

  lemma {:induction false} TotalSnoc(sleeps: seq<Sleep>, last: Sleep)
    ensures TotalSeconds(sleeps + [last]) == TotalSeconds(sleeps) + last.seconds
    decreases |sleeps|
  {
    if |sleeps| > 0 {
      assert (sleeps + [last])[1..] == sleeps[1..] + [last];
      TotalSnoc(sleeps[1..], last);
    }
  }

  /** The closed form of the backoffs of the first `n` retries. */
  predicate ClosedForm(cfg: Config, n: nat) {
    var m := cfg.retryBackoffMultiplier;
    TotalSeconds(Backoffs(cfg, 0, n)) * (m - 1.0) == cfg.firstRetryDelaySeconds * (Pow(m, n) - 1.0)
  }

  /** One more term of the geometric series, as plain arithmetic. */
  lemma GeometricStep(total: real, before: real, f: real, m: real, p: real, q: real)
    requires total == before + f * p
    requires before * (m - 1.0) == f * (p - 1.0)
    requires q == m * p
    ensures total * (m - 1.0) == f * (q - 1.0)
  {
    calc {
      total * (m - 1.0);
      before * (m - 1.0) + f * p * (m - 1.0);
      f * (p - 1.0) + f * p * m - f * p;
      f * (m * p - 1.0);
    }
  }

  lemma ClosedFormStep(cfg: Config, n: nat)
    requires ClosedForm(cfg, n)
    ensures ClosedForm(cfg, n + 1)
  {
    var m := cfg.retryBackoffMultiplier;
    var f := cfg.firstRetryDelaySeconds;
    BackoffsSnoc(cfg, 0, n);
    TotalSnoc(Backoffs(cfg, 0, n), Backoff(RetryDelay(cfg, n)));
    GeometricStep(TotalSeconds(Backoffs(cfg, 0, n + 1)), TotalSeconds(Backoffs(cfg, 0, n)),
                  f, m, Pow(m, n), Pow(m, n + 1));
  }

  /** The backoffs of the first `n` retries sum to the geometric series
      `first_retry_delay_seconds * (1 + m + ... + m^(n-1))`, whose closed form
      is `first_retry_delay_seconds * (m^n - 1) / (m - 1)`. */
  lemma {:induction false} BackoffsTotal(cfg: Config, n: nat)
    ensures ClosedForm(cfg, n)
    decreases n
  {
    if n == 0 {
      assert TotalSeconds(Backoffs(cfg, 0, 0)) == 0.0;
    } else {
      BackoffsTotal(cfg, n - 1);
      ClosedFormStep(cfg, n - 1);
    }
  }

  /** A source whose every request fails: the loop makes `num_retries + 1`
      attempts (one when `num_retries` is negative), all counted as failures,
      receives no data, and sleeps through the backoffs for retry counts
      `0 .. num_retries - 1`, whose total is the geometric sum. */
  lemma AlwaysFailingSource(cfg: Config, script: seq<FetchOutcome>)
    requires AllFail(script)
    requires |script| > RetriesLeft(cfg, 0)
    ensures ScriptProcessable(script)
    ensures var f := GetDataSourceD(cfg, script);
      var n := RetriesLeft(cfg, 0);
      && f.stop == GaveUp
      && f.failCount == n + 1
      && (cfg.numRetries >= 0 ==> f.failCount == cfg.numRetries + 1)
      && f.successCount == 0
      && f.data == []
      && f.sleeps == Backoffs(cfg, 0, n)
      && TotalSeconds(f.sleeps) * (cfg.retryBackoffMultiplier - 1.0)
         == cfg.firstRetryDelaySeconds * (Pow(cfg.retryBackoffMultiplier, n) - 1.0)
  {
    FailureBurst(cfg, Initial, script);
    BackoffsTotal(cfg, RetriesLeft(cfg, 0));
  }

  /** The retry test's configuration (0.2 s first delay, multiplier 2, three
      retries) against an always-failing source: four failed requests and
      1.4 seconds of backoff in all. */
  lemma RetryBackoffExample()
    ensures var cfg := Config(3, 0.2, 2.0, 0.2);
      var f := GetDataSourceD(cfg, [Fail, Fail, Fail, Fail]);
      && f.failCount == 4
      && f.successCount == 0
      && TotalSeconds(f.sleeps) == 1.4
  {
    var cfg := Config(3, 0.2, 2.0, 0.2);
    var script := [Fail, Fail, Fail, Fail];
    AlwaysFailingSource(cfg, script);
    assert Pow(2.0, 3) == 8.0 by {
      assert Pow(2.0, 1) == 2.0;
      assert Pow(2.0, 2) == 4.0;
    }
  }

  /** After a page the retry count is 1, not 0: a following run of failures
      is given up after `max(num_retries, 1)` failures instead of
      `num_retries + 1`, and its first backoff already uses exponent 1. */
  lemma FailuresAfterPage(cfg: Config, st: LoopState, items: seq<RawItem>, fails: seq<FetchOutcome>)
    requires |items| > 0 && AllProcessable(items)
    requires AllFail(fails)
    requires |fails| > RetriesLeft(cfg, 1)
    ensures ScriptProcessable([Page(items)] + fails)
    ensures var r := RunFrom(cfg, st, [Page(items)] + fails);
      var k := RetriesLeft(cfg, 1);
      && r.stop == GaveUp
      && r.final.failCount == st.failCount + k + 1
      && (cfg.numRetries >= 1 ==> r.final.failCount == st.failCount + cfg.numRetries)
      && (cfg.numRetries <= 1 ==> r.final.failCount == st.failCount + 1)
      && r.final.sleeps
         == st.sleeps + [Pause(cfg.endpointDelayBetweenRequestsSeconds)] + Backoffs(cfg, 1, k)
  {
    var script := [Page(items)] + fails;
    assert script[0] == Page(items);
    assert script[1..] == fails;
    assert ScriptProcessable(script) by {
      forall i | 0 <= i < |script|
        ensures script[i].Page? ==> AllProcessable(script[i].products)
      {
        if i > 0 {
          assert script[i] == fails[i - 1];
        }
      }
    }
    RunUnfold(cfg, st, script);
    StepFacts(cfg, st, script[0]);
    var next := Step(cfg, st, script[0]).next;
    FailureBurst(cfg, next, fails);
  }

  // ---------------------------------------------------------------------
  // The flag `get_data_source_d` returns.

  /** The flag returned as written is always False: it is set once at the
      start and the give-up branch assigns a different name. */
  lemma IsFailureNeverSet(cfg: Config, script: seq<FetchOutcome>)
    requires ScriptProcessable(script)
    ensures !GetDataSourceD(cfg, script).isFailure
  {
    RunFailures(cfg, Initial, script);
  }

  /** A concrete give-up that the returned flag does not report. */
  lemma GiveUpNotReported()
    ensures var f := GetDataSourceD(Config(3, 0.2, 2.0, 0.2), [Fail, Fail, Fail, Fail]);
      f.stop == GaveUp && !f.isFailure
  {
    var cfg := Config(3, 0.2, 2.0, 0.2);
    AlwaysFailingSource(cfg, [Fail, Fail, Fail, Fail]);
    IsFailureNeverSet(cfg, [Fail, Fail, Fail, Fail]);
  }

  /** The failures behind the current retry count: without any success the
      count equals the failures so far; after one it is at most one more. */
  predicate RetryBudgetUsed(st: LoopState) {
    st.retryCount <= st.failCount + (if st.successCount > 0 then 1 else 0)
  }

  /** The loop gives up only after `num_retries` failures, or `num_retries + 1`
      when no request has succeeded yet, and never before the first failure. */
  lemma {:induction false} GiveUpNeedsFailures(cfg: Config, st: LoopState, script: seq<FetchOutcome>)
    requires ScriptProcessable(script)
    requires RetryBudgetUsed(st)
    ensures var r := RunFrom(cfg, st, script);
      && RetryBudgetUsed(r.final)
      && r.final.successCount >= st.successCount
      && (r.stop == GaveUp ==>
            && r.final.failCount >= 1
            && r.final.failCount >= cfg.numRetries + (if r.final.successCount == 0 then 1 else 0))
    decreases |script|
  {
    if |script| > 0 {
      RunUnfold(cfg, st, script);
      StepFacts(cfg, st, script[0]);
      var sr := Step(cfg, st, script[0]);
      if sr.Continue? {
        GiveUpNeedsFailures(cfg, sr.next, script[1..]);
      }
    }
  }

  /** `get_data_source_d` with line 51 assigning the flag it returns: the
      flag is True exactly when the loop gave up, which takes at least
      `num_retries` failed requests (`num_retries + 1` when none succeeded). */
  function GetDataSourceDFixed(cfg: Config, script: seq<FetchOutcome>): (f: Fetched)
    requires ScriptProcessable(script)
    ensures f.isFailure <==> f.stop == GaveUp
    ensures f.isFailure ==>
      && f.failCount >= 1
      && f.failCount >= cfg.numRetries + (if f.successCount == 0 then 1 else 0)
    ensures f.(isFailure := false) == GetDataSourceD(cfg, script)
  {
    IsFailureNeverSet(cfg, script);
    GiveUpNeedsFailures(cfg, Initial, script);
    var f := GetDataSourceD(cfg, script);
    f.(isFailure := f.stop == GaveUp)
  }
}
