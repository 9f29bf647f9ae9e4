/**
  What `main` does with the results of the loop: the success rate of the
  requests and the summary record `write_output` serializes.
 */
module Report {
  import opened Values
  import opened Products
  import opened Driver
  import opened DriverProperties

  /** The share of requests that succeeded (`successful / (successful + failed)`),
      as an exact quotient. */
  function SuccessRate(successful: nat, failed: nat): (r: real)
    requires successful + failed > 0
    ensures 0.0 <= r <= 1.0
    ensures r * (successful + failed) as real == successful as real
    ensures r == 1.0 <==> failed == 0
    ensures r == 0.0 <==> successful == 0
  {
    var total := (successful + failed) as real;
    var r := successful as real / total;
    assert r * total == successful as real;
    assert r == 1.0 ==> successful as real == total;
    r
  }

  /** The `summary` object of the output file. */
  datatype Summary = Summary(
    totalProducts: nat,
    processingTimeSeconds: real,
    successRate: real,
    sources: seq<string>)

  /** The whole output object: the summary and the product records. */
  datatype Output = Output(summary: Summary, products: seq<Product>)

  /** The object `write_output` dumps to the results file. */
  function WriteOutput(data: seq<Product>, processingTime: real, successRate: real, sources: seq<string>)
    : (o: Output)
    ensures o.summary.totalProducts == |o.products|
    ensures o.products == data
    ensures o.summary.processingTimeSeconds == processingTime
    ensures o.summary.successRate == successRate
    ensures o.summary.sources == sources
  {
    Output(Summary(|data|, processingTime, successRate, sources), data)
  }

  /** The label `main` gives its only source. */
  const EndpointD: string := "endpoint_d"

  /** A run with at least one scripted outcome makes at least one request and
      no more than the script holds, so the success rate is defined. */
  lemma AtLeastOneAttempt(cfg: Config, script: seq<FetchOutcome>)
    requires ScriptProcessable(script)
    requires |script| > 0
    ensures var f := GetDataSourceD(cfg, script);
      1 <= f.successCount + f.failCount <= |script|
  {
    RunStops(cfg, Initial, script);
    RunAttempts(cfg, Initial, script);
  }

  /** `main` with the elapsed time given: fetches, computes the rate and
      builds the output object. */
  function RunPipeline(cfg: Config, script: seq<FetchOutcome>, duration: real): (o: Output)
    requires ScriptProcessable(script)
    requires |script| > 0
    ensures o.summary.totalProducts == |o.products|
    ensures 0.0 <= o.summary.successRate <= 1.0
    ensures o.summary.sources == [EndpointD]
    ensures o.products == GetDataSourceD(cfg, script).data
    ensures var f := GetDataSourceD(cfg, script);
      o.summary.successRate * (f.successCount + f.failCount) as real == f.successCount as real
    ensures o.summary.processingTimeSeconds == duration
  {
    AtLeastOneAttempt(cfg, script);
    var f := GetDataSourceD(cfg, script);
    WriteOutput(f.data, duration, SuccessRate(f.successCount, f.failCount), [EndpointD])
  }

  /** When the loop ends normally, on an empty page, every page before it
      was counted and converted in order, every failure was counted, and the
      offset stands at 20 times the non-empty pages received. */
  lemma NormalEnd(cfg: Config, script: seq<FetchOutcome>)
    requires ScriptProcessable(script)
    ensures var r := RunFrom(cfg, Initial, script);
      && r.attempts <= |script|
      && var used := script[..r.attempts];
      r.stop == EmptyPage ==>
        && r.attempts > 0
        && script[r.attempts - 1] == Page([])
        && r.final.successCount == NonEmptyPages(used) + 1
        && r.final.failCount == Failures(used)
        && r.final.data == ProcessOneSet(Items(used), SourceName, IdPrefix)
        && r.final.skip == PageSize * NonEmptyPages(used)
        && |r.final.offsets| == r.attempts
  {
    RunStops(cfg, Initial, script);
    RunFailures(cfg, Initial, script);
    RunPages(cfg, Initial, script);
    RunData(cfg, Initial, script);
    RunOffsets(cfg, script);
  }

  /** One page holding one complete product, then the empty page. */
  lemma SinglePageExample()
    ensures var item := map["id" := VInt(1), "title" := VStr("Phone"), "price" := VInt(549),
                            "category" := VStr("smartphones")];
      var o := RunPipeline(Config(3, 0.2, 2.0, 0.2), [Page([item]), Page([])], 1.5);
      && o.summary.totalProducts == 1
      && o.summary.successRate == 1.0
      && o.products == [Product("d.1", VStr("Phone"), SourceName, VInt(549), VStr("smartphones"))]
  {
    var item := map["id" := VInt(1), "title" := VStr("Phone"), "price" := VInt(549),
                    "category" := VStr("smartphones")];
    assert Processable(item);
    var script := [Page([item]), Page([])];
    assert script[1..] == [Page([])];
    assert PyStr(VInt(1)) == "1" by {
      assert NatToDecimal(1) == [DigitChar(1)];
    }
    assert IdPrefix + PyStr(item["id"]) == "d.1";
    assert Normalize(item, SourceName, IdPrefix)
        == Product("d.1", VStr("Phone"), SourceName, VInt(549), VStr("smartphones"));
    assert ProcessOneSet([item], SourceName, IdPrefix)
        == [Product("d.1", VStr("Phone"), SourceName, VInt(549), VStr("smartphones"))];
  }
}
