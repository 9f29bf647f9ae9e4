/**
  What the pagination and retry loop guarantees, proved of the model in
  module Driver.
 */
module DriverProperties {
  import opened Values
  import opened Products
  import opened Driver

  // ---------------------------------------------------------------------
  // One iteration.

  /** The rules of one iteration: the request goes to the current `skip`;
      exactly one of the two counters grows; only a non-empty page moves
      `skip` (by 20) and `data`; the loop stops on a failure with the retry
      budget spent or on an empty page, and never touches the returned flag. */
  lemma StepFacts(cfg: Config, st: LoopState, outcome: FetchOutcome)
    requires outcome.Page? ==> AllProcessable(outcome.products)
    ensures var sr := Step(cfg, st, outcome);
      var s := StateOf(sr);
      && AllProcessable(ItemsOf(outcome))
      && s.offsets == st.offsets + [st.skip]
      && s.failCount == st.failCount + (if outcome.Fail? then 1 else 0)
      && s.successCount == st.successCount + (if outcome.Page? then 1 else 0)
      && s.skip == st.skip + (if NonEmptyPage(outcome) then PageSize else 0)
      && s.data == st.data + ProcessOneSet(ItemsOf(outcome), SourceName, IdPrefix)
      && s.isFailure == st.isFailure
      && (outcome.Page? ==> s.retryCount == 1)
      && (sr.Halt? <==> (outcome.Fail? && st.retryCount >= cfg.numRetries) || outcome == Page([]))
      && (sr.Halt? ==> sr.why == if outcome.Fail? then GaveUp else EmptyPage)
      && (sr.Halt? ==> s.sleeps == st.sleeps)
      && (outcome.Fail? && sr.Halt? ==> s.retryCount == st.retryCount)
      && (outcome.Fail? && sr.Continue? ==>
            && s.retryCount == st.retryCount + 1
            && s.sleeps == st.sleeps + [Backoff(RetryDelay(cfg, st.retryCount))])
      && (outcome.Page? && sr.Continue? ==>
            s.sleeps == st.sleeps + [Pause(cfg.endpointDelayBetweenRequestsSeconds)])
  {
    if !NonEmptyPage(outcome) {
      assert ItemsOf(outcome) == [];
      assert ProcessOneSet([], SourceName, IdPrefix) == [];
    }
  }

  /** One unfolding of the run. */
  lemma RunUnfold(cfg: Config, st: LoopState, script: seq<FetchOutcome>)
    requires ScriptProcessable(script)
    requires |script| > 0
    ensures script[0].Page? ==> AllProcessable(script[0].products)
    ensures ScriptProcessable(script[1..])
    ensures var sr := Step(cfg, st, script[0]);
      && (sr.Halt? ==> RunFrom(cfg, st, script) == Run(sr.last, sr.why, 1))
      && (sr.Continue? ==>
            RunFrom(cfg, st, script)
            == RunFrom(cfg, sr.next, script[1..]).(attempts := RunFrom(cfg, sr.next, script[1..]).attempts + 1))
  {
    assert RunFrom(cfg, st, script)
        == match Step(cfg, st, script[0])
           case Halt(last, why) => Run(last, why, 1)
           case Continue(next) =>
             RunFrom(cfg, next, script[1..]).(attempts := RunFrom(cfg, next, script[1..]).attempts + 1);
  }

  /** The consumed prefix of a script splits into its first outcome and the
      prefix the rest of the run consumed. */
  lemma ConsumedSplit(script: seq<FetchOutcome>, k: nat)
    requires 1 <= k <= |script|
    ensures Failures(script[..k]) == (if script[0].Fail? then 1 else 0) + Failures(script[1..][..k - 1])
    ensures NonEmptyPages(script[..k]) == (if NonEmptyPage(script[0]) then 1 else 0) + NonEmptyPages(script[1..][..k - 1])
    ensures Items(script[..k]) == ItemsOf(script[0]) + Items(script[1..][..k - 1])
  {
    var u := script[..k];
    assert u[0] == script[0];
    assert u[1..] == script[1..][..k - 1];
  }

  // ---------------------------------------------------------------------
  // Whole runs.

  /** How a run stops: it uses at least one outcome when there is one, never
      more than the script holds, ends normally exactly when the last outcome
      it used is an empty page, and gives up only on a failure. */
  lemma {:induction false} RunStops(cfg: Config, st: LoopState, script: seq<FetchOutcome>)
    requires ScriptProcessable(script)
    ensures var r := RunFrom(cfg, st, script);
      && r.attempts <= |script|
      && (r.attempts == 0 <==> |script| == 0)
      && (r.stop == ScriptEnded ==> r.attempts == |script|)
      && (r.stop == EmptyPage <==> r.attempts > 0 && script[r.attempts - 1] == Page([]))
      && (r.stop == GaveUp ==> r.attempts > 0 && script[r.attempts - 1] == Fail)
    decreases |script|
  {
    if |script| > 0 {
      RunUnfold(cfg, st, script);
      StepFacts(cfg, st, script[0]);
      var sr := Step(cfg, st, script[0]);
      if sr.Continue? {
        RunStops(cfg, sr.next, script[1..]);
      }
    }
  }

  /** Every failed attempt is counted in `failCount`, and the returned flag is
      never touched. */
  lemma {:induction false} RunFailures(cfg: Config, st: LoopState, script: seq<FetchOutcome>)
    requires ScriptProcessable(script)
    ensures var r := RunFrom(cfg, st, script);
      && r.attempts <= |script|
      && r.final.failCount == st.failCount + Failures(script[..r.attempts])
      && r.final.isFailure == st.isFailure
    decreases |script|
  {
    RunStops(cfg, st, script);
    if |script| == 0 {
      assert Failures(script[..0]) == 0;
    } else {
      RunUnfold(cfg, st, script);
      StepFacts(cfg, st, script[0]);
      var r := RunFrom(cfg, st, script);
      ConsumedSplit(script, r.attempts);
      var sr := Step(cfg, st, script[0]);
      if sr.Halt? {
        assert r.attempts == 1;
        assert Failures(script[1..][..0]) == 0;
        assert r.final == sr.last;
      } else {
        var rest := RunFrom(cfg, sr.next, script[1..]);
        RunFailures(cfg, sr.next, script[1..]);
        assert r.final == rest.final;
        assert r.attempts - 1 == rest.attempts;
      }
    }
  }

  /** Every page is counted in `successCount`; the only page that adds no data
      is the empty one that ends the loop. Each non-empty page advances `skip`
      by 20 and nothing else moves it. */
  lemma {:induction false} RunPages(cfg: Config, st: LoopState, script: seq<FetchOutcome>)
    requires ScriptProcessable(script)
    ensures var r := RunFrom(cfg, st, script);
      && r.attempts <= |script|
      && r.final.successCount
         == st.successCount + NonEmptyPages(script[..r.attempts]) + (if r.stop == EmptyPage then 1 else 0)
      && r.final.skip == st.skip + PageSize * NonEmptyPages(script[..r.attempts])
    decreases |script|
  {
    RunStops(cfg, st, script);
    if |script| == 0 {
      assert NonEmptyPages(script[..0]) == 0;
    } else {
      RunUnfold(cfg, st, script);
      StepFacts(cfg, st, script[0]);
      var r := RunFrom(cfg, st, script);
      ConsumedSplit(script, r.attempts);
      var sr := Step(cfg, st, script[0]);
      if sr.Halt? {
        assert r.attempts == 1;
        assert NonEmptyPages(script[1..][..0]) == 0;
        assert r.final == sr.last;
      } else {
        var rest := RunFrom(cfg, sr.next, script[1..]);
        RunPages(cfg, sr.next, script[1..]);
        RunStops(cfg, sr.next, script[1..]);
        assert r.final == rest.final && r.stop == rest.stop;
        assert r.attempts - 1 == rest.attempts;
      }
    }
  }

  /** Each attempt increments exactly one of the two counters. */
  lemma {:induction false} RunAttempts(cfg: Config, st: LoopState, script: seq<FetchOutcome>)
    requires ScriptProcessable(script)
    ensures var r := RunFrom(cfg, st, script);
      r.final.successCount + r.final.failCount == st.successCount + st.failCount + r.attempts
    decreases |script|
  {
    if |script| > 0 {
      RunUnfold(cfg, st, script);
      StepFacts(cfg, st, script[0]);
      var sr := Step(cfg, st, script[0]);
      if sr.Continue? {
        RunAttempts(cfg, sr.next, script[1..]);
      }
    }
  }

  /** Appending the conversions of two batches converts their concatenation. */
  lemma AppendConverted(d: seq<Product>, head: seq<RawItem>, tail: seq<RawItem>)
    requires AllProcessable(head) && AllProcessable(tail)
    ensures AllProcessable(head + tail)
    ensures d + ProcessOneSet(head, SourceName, IdPrefix) + ProcessOneSet(tail, SourceName, IdPrefix)
         == d + ProcessOneSet(head + tail, SourceName, IdPrefix)
  {
    ProcessOneSetAppend(head, tail, SourceName, IdPrefix);
  }

  /** `data` is the in-order conversion of the products of every page the
      run received. */
  lemma {:induction false} RunData(cfg: Config, st: LoopState, script: seq<FetchOutcome>)
    requires ScriptProcessable(script)
    ensures var r := RunFrom(cfg, st, script);
      && r.attempts <= |script|
      && r.final.data == st.data + ProcessOneSet(Items(script[..r.attempts]), SourceName, IdPrefix)
    decreases |script|
  {
    RunStops(cfg, st, script);
    if |script| == 0 {
      assert ProcessOneSet([], SourceName, IdPrefix) == [];
    } else {
      RunUnfold(cfg, st, script);
      StepFacts(cfg, st, script[0]);
      var r := RunFrom(cfg, st, script);
      var sr := Step(cfg, st, script[0]);
      ConsumedSplit(script, r.attempts);
      if sr.Halt? {
        assert Items(script[1..][..0]) == [];
        assert Items(script[..r.attempts]) == ItemsOf(script[0]);
      } else {
        var rest := RunFrom(cfg, sr.next, script[1..]);
        RunData(cfg, sr.next, script[1..]);
        var tail := Items(script[1..][..rest.attempts]);
        AppendConverted(st.data, ItemsOf(script[0]), tail);
      }
    }
  }

  /** The offsets a run requests, from `skip` on, for the outcomes `s`. */
  function ExpectedOffsets(skip: nat, s: seq<FetchOutcome>): seq<nat>
    decreases |s|
  {
    if |s| == 0 then []
    else [skip] + ExpectedOffsets(skip + (if NonEmptyPage(s[0]) then PageSize else 0), s[1..])
  }

  /** The expected offsets of a consumed prefix start with its first request. */
  lemma ExpectedOffsetsSplit(skip: nat, script: seq<FetchOutcome>, k: nat)
    requires 1 <= k <= |script|
    ensures ExpectedOffsets(skip, script[..k])
         == [skip] + ExpectedOffsets(skip + (if NonEmptyPage(script[0]) then PageSize else 0), script[1..][..k - 1])
  {
    var u := script[..k];
    assert u[0] == script[0];
    assert u[1..] == script[1..][..k - 1];
  }

  /** The request of one iteration goes to the current offset, and only a
      non-empty page moves the offset, by one page. */
  lemma StepOffsets(cfg: Config, st: LoopState, outcome: FetchOutcome)
    requires outcome.Page? ==> AllProcessable(outcome.products)
    ensures var s := StateOf(Step(cfg, st, outcome));
      && s.offsets == st.offsets + [st.skip]
      && s.skip == st.skip + (if NonEmptyPage(outcome) then PageSize else 0)
  {
  }

  /** A run uses at least one outcome when there is one, and never more than
      the script holds. */
  lemma AttemptsWithin(cfg: Config, st: LoopState, script: seq<FetchOutcome>)
    requires ScriptProcessable(script)
    ensures var r := RunFrom(cfg, st, script);
      r.attempts <= |script| && (|script| > 0 ==> r.attempts > 0)
  {
    RunStops(cfg, st, script);
  }

  /** The requests of a run follow `ExpectedOffsets`. */
  lemma {:induction false} RunOffsetsFollow(cfg: Config, st: LoopState, script: seq<FetchOutcome>)
    requires ScriptProcessable(script)
    ensures var r := RunFrom(cfg, st, script);
      && r.attempts <= |script|
      && r.final.offsets == st.offsets + ExpectedOffsets(st.skip, script[..r.attempts])
    decreases |script|
  {
    AttemptsWithin(cfg, st, script);
    if |script| == 0 {
      assert ExpectedOffsets(st.skip, script[..0]) == [];
    } else {
      RunUnfold(cfg, st, script);
      StepOffsets(cfg, st, script[0]);
      var r := RunFrom(cfg, st, script);
      var sr := Step(cfg, st, script[0]);
      ExpectedOffsetsSplit(st.skip, script, r.attempts);
      var nextSkip := st.skip + (if NonEmptyPage(script[0]) then PageSize else 0);
      var tail := ExpectedOffsets(nextSkip, script[1..][..r.attempts - 1]);
      if sr.Halt? {
        assert r.attempts == 1;
        assert tail == [];
        assert r.final.offsets == sr.last.offsets;
      } else {
        var rest := RunFrom(cfg, sr.next, script[1..]);
        RunOffsetsFollow(cfg, sr.next, script[1..]);
        assert r.final.offsets == rest.final.offsets;
        assert r.attempts - 1 == rest.attempts;
        assert (st.offsets + [st.skip]) + tail == st.offsets + ([st.skip] + tail);
      }
    }
  }

  lemma {:induction false} ExpectedOffsetsLength(skip: nat, s: seq<FetchOutcome>)
    ensures |ExpectedOffsets(skip, s)| == |s|
    decreases |s|
  {
    if |s| > 0 {
      ExpectedOffsetsLength(skip + (if NonEmptyPage(s[0]) then PageSize else 0), s[1..]);
    }
  }

  /** The `i`-th expected offset is 20 times the non-empty pages before it. */
  lemma {:induction false} ExpectedOffsetAt(skip: nat, s: seq<FetchOutcome>, i: nat)
    requires i < |s|
    ensures |ExpectedOffsets(skip, s)| == |s|
    ensures ExpectedOffsets(skip, s)[i] == skip + PageSize * NonEmptyPages(s[..i])
    decreases |s|
  {
    ExpectedOffsetsLength(skip, s);
    if i > 0 {
      var skip' := skip + (if NonEmptyPage(s[0]) then PageSize else 0);
      assert ExpectedOffsets(skip, s)[i] == ExpectedOffsets(skip', s[1..])[i - 1];
      ExpectedOffsetAt(skip', s[1..], i - 1);
      ConsumedSplit(s, i);
    } else {
      assert s[..0] == [];
    }
  }

  /** Every request of a run asks for offset 20 times the number of non-empty
      pages received before it; a failure never moves the offset. */
  lemma RunOffsets(cfg: Config, script: seq<FetchOutcome>)
    requires ScriptProcessable(script)
    ensures var r := RunFrom(cfg, Initial, script);
      && r.attempts <= |script|
      && |r.final.offsets| == r.attempts
      && forall i :: 0 <= i < r.attempts ==> r.final.offsets[i] == PageSize * NonEmptyPages(script[..i])
  {
    var r := RunFrom(cfg, Initial, script);
    RunOffsetsFollow(cfg, Initial, script);
    ExpectedOffsetsLength(0, script[..r.attempts]);
    forall i | 0 <= i < r.attempts
      ensures r.final.offsets[i] == PageSize * NonEmptyPages(script[..i])
    {
      ExpectedOffsetAt(0, script[..r.attempts], i);
      assert script[..r.attempts][..i] == script[..i];
    }
  }
}
