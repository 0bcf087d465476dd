/**
 * The worker loop, simulateTraces: every iteration starts a root span
 * "lets-go" with the global tracer, runs every chain of the worker under
 * it (or under the context extracted from it), and finishes the root span
 * at the iteration's start plus the accumulated chain and slept latencies;
 * a positive trace target ends the loop after that many iterations.
 */
module Worker {
  import opened Wrappers
  import opened GoStrings
  import opened FakeData
  import opened Tracers
  import opened Spans
  import opened Chain

  /** The worker's configuration; pause and duration are not read by the loop. */
  datatype Worker = Worker(
    serviceApis: seq<string>,
    chainedServices: seq<string>,  // each a comma-separated chain of service names
    id: int,
    traces: int,
    marshal: bool,
    debug: bool,
    firehose: bool,
    duration: Duration,
    pause: Duration)

  /** The inputs one call of fakeTraces consumes: its clock reading and its hops' draws. */
  datatype ChainDraws = ChainDraws(rootIssuedAt: Instant, hops: seq<HopDraws>)

  /** The inputs one iteration of the worker loop consumes. */
  datatype IterationDraws = IterationDraws(
    rootStart: Instant,     // the clock reading of StartSpan("lets-go")
    rootIP: IPv4,           // fake.IPv4() behind fakeIP
    injectOk: bool,         // whether Inject into the text map succeeded
    extracted: Context,     // what Extract returned (NilContext when it failed)
    issuedAt: Instant,      // time.Now() before the chains
    chains: seq<ChainDraws>)

  /** strings.Split(chainedService, ",") of chain k. */
  function Services(w: Worker, k: nat): (r: seq<string>)
    requires k < |w.chainedServices|
    ensures |r| >= 1
  {
    Split(w.chainedServices[k], ',')
  }

  /** What the loop relies on: see ApisOk, and no chain starting with a database hop. */
  predicate WorkerOk(w: Worker) {
    && ApisOk(w.serviceApis)
    && forall k :: 0 <= k < |w.chainedServices| ==> !IsDBName(Services(w, k)[0])
  }

  /** One record of draws per chain, one per hop of that chain. */
  predicate ChainsFit(w: Worker, chains: seq<ChainDraws>) {
    && |chains| == |w.chainedServices|
    && forall k :: 0 <= k < |chains| ==> HopsFit(w, chains, k)
  }

  /** Chain k has one record of draws per service. */
  predicate HopsFit(w: Worker, chains: seq<ChainDraws>, k: nat)
    requires k < |chains| && k < |w.chainedServices|
  {
    |chains[k].hops| == |Services(w, k)|
  }

  /** The root span of an iteration with all its tags, not finished yet. */
  function RootSpan(w: Worker, d: IterationDraws): SpanRecord {
    StartSpan(GlobalTracer, "lets-go", NilContext, d.rootStart).(
      kind := Some(RPCClient),
      peerService := Some("tracegen-service"),
      peerIPv4 := Some(FakeIP(d.rootIP)),
      samplingPriority := if w.debug then Some(100) else None,
      firehose := w.firehose)
  }

  /** The context the chains hang off: the root's, or the one extracted after a successful inject. */
  function ParentContext(w: Worker, d: IterationDraws, rootId: nat): Context {
    if w.marshal && d.injectOk then d.extracted else SpanContext(rootId)
  }

  /** The plans of the worker's chains: what each chain's hops compute from its draws. */
  function ChainPlans(w: Worker, chains: seq<ChainDraws>): (r: seq<Plan>)
    requires WorkerOk(w) && ChainsFit(w, chains)
    ensures |r| == |chains| && PlansFit(w, r)
  {
    seq(|chains|, j requires 0 <= j < |chains| =>
          assert HopsFit(w, chains, j); ChainPlan(Services(w, j), w.serviceApis, chains[j].hops))
  }

  /** Plans the chains loop can run: each has a first hop that is not a database hop. */
  predicate AllRunnable(plans: seq<Plan>) {
    forall k :: 0 <= k < |plans| ==> Runnable(plans[k])
  }

  /** Plans the worker's chains loop can follow: one per chain, each runnable. */
  predicate PlansFit(w: Worker, plans: seq<Plan>) {
    AllRunnable(plans) && |plans| == |w.chainedServices|
  }

  /** plans[k] is the plan chain k's services and draws determine. */
  predicate PlanAt(w: Worker, chains: seq<ChainDraws>, plans: seq<Plan>, k: nat)
    requires k < |chains| && k < |plans| && k < |w.chainedServices|
  {
    && ChainOk(Services(w, k), w.serviceApis, chains[k].hops)
    && plans[k] == ChainPlan(Services(w, k), w.serviceApis, chains[k].hops)
  }

  /** Every plan has a hop per draw record and is the plan its chain's services and draws determine. */
  predicate PlansMatch(w: Worker, chains: seq<ChainDraws>, plans: seq<Plan>)
    requires |chains| == |plans| == |w.chainedServices|
  {
    && (forall k :: 0 <= k < |plans| ==> |plans[k].hops| == |chains[k].hops|)
    && (forall k :: 0 <= k < |chains| ==> PlanAt(w, chains, plans, k))
  }

  /** `plans` are the plans of the worker's chains under these draws. */
  predicate PlansOf(w: Worker, chains: seq<ChainDraws>, plans: seq<Plan>) {
    ChainsFit(w, chains) && PlansFit(w, plans) && PlansMatch(w, chains, plans)
  }

  /** The worker's chain plans are the plans of its chains. */
  lemma ChainPlansOf(w: Worker, chains: seq<ChainDraws>)
    requires WorkerOk(w) && ChainsFit(w, chains)
    ensures PlansOf(w, chains, ChainPlans(w, chains))
  {
    var plans := ChainPlans(w, chains);
    forall k | 0 <= k < |chains|
      ensures PlanAt(w, chains, plans, k) && |plans[k].hops| == |chains[k].hops|
    {
      assert HopsFit(w, chains, k);
      assert plans[k] == ChainPlan(Services(w, k), w.serviceApis, chains[k].hops);
    }
  }

  /** The draws determine the plans: only the worker's chain plans are the plans of its chains. */
  lemma PlansOfUnique(w: Worker, chains: seq<ChainDraws>, plans: seq<Plan>)
    requires WorkerOk(w) && PlansOf(w, chains, plans)
    ensures plans == ChainPlans(w, chains)
  {
    forall k | 0 <= k < |chains|
      ensures plans[k] == ChainPlans(w, chains)[k]
    {
      assert PlanAt(w, chains, plans, k);
    }
  }

  /** Entry j of `results` is what fakeTraces returns for chain j on the log the entries before it left. */
  predicate ChainedAt(plans: seq<Plan>, chains: seq<ChainDraws>, parentCtx: Context, log0: seq<SpanRecord>,
                      results: seq<ChainResult>, j: nat)
    requires AllRunnable(plans) && |plans| == |chains| && j < |results| <= |chains|
  {
    results[j] == FakeTracesSpec(LogAfter(log0, results[..j]), parentCtx, plans[j], chains[j].rootIssuedAt)
  }

  /** Every entry of `results` is what fakeTraces returns for its chain. */
  predicate Chained(plans: seq<Plan>, chains: seq<ChainDraws>, parentCtx: Context, log0: seq<SpanRecord>,
                    results: seq<ChainResult>)
    requires AllRunnable(plans) && |plans| == |chains| && |results| <= |chains|
  {
    forall j :: 0 <= j < |results| ==> ChainedAt(plans, chains, parentCtx, log0, results, j)
  }

  /** What fakeTraces returned for each of the chains 0..k-1. */
  function Outcomes(plans: seq<Plan>, chains: seq<ChainDraws>, parentCtx: Context, log0: seq<SpanRecord>, k: nat)
    : (r: seq<ChainResult>)
    requires AllRunnable(plans) && |plans| == |chains| && k <= |chains|
    ensures |r| == k && Chained(plans, chains, parentCtx, log0, r)
  {
    if k == 0 then []
    else
      var prev := Outcomes(plans, chains, parentCtx, log0, k - 1);
      var r := prev + [FakeTracesSpec(LogAfter(log0, prev), parentCtx, plans[k - 1], chains[k - 1].rootIssuedAt)];
      assert r[..k - 1] == prev;
      assert ChainedAt(plans, chains, parentCtx, log0, r, k - 1);
      assert forall j :: 0 <= j < k - 1 ==> ChainedAt(plans, chains, parentCtx, log0, r, j) by {
        forall j | 0 <= j < k - 1
          ensures ChainedAt(plans, chains, parentCtx, log0, r, j)
        {
          assert ChainedAt(plans, chains, parentCtx, log0, prev, j);
          assert r[..j] == prev[..j] && r[j] == prev[j];
        }
      }
      r
  }

  /** The log after the chains with these results. */
  function LogAfter(log0: seq<SpanRecord>, results: seq<ChainResult>): seq<SpanRecord> {
    if results == [] then log0 else results[|results| - 1].log
  }

  /** The latency variables of the chains loop. */
  datatype ChainsTotals = ChainsTotals(
    total: Duration,            // totalLatency
    chained: Duration,          // chainedLatency
    slept: Duration,            // sleptLatency
    incoming: seq<Duration>)    // the chainedLatency handed to each fakeTraces call

  /** The latency variables after the chains with these results. */
  function Accumulate(results: seq<ChainResult>): ChainsTotals {
    if results == [] then ChainsTotals(0, 0, 0, [])
    else
      var prev := Accumulate(results[..|results| - 1]);
      var r := results[|results| - 1];
      ChainsTotals(prev.total + r.totalLatency + r.sleptLatency, r.totalLatency, r.sleptLatency,
                   prev.incoming + [prev.chained])
  }

  /** The sum over chains of their total and slept latencies. */
  function TotalOf(results: seq<ChainResult>): Duration {
    if results == [] then 0
    else TotalOf(results[..|results| - 1]) + results[|results| - 1].totalLatency
         + results[|results| - 1].sleptLatency
  }

  /** The number of spans the plans 0..k-1 emit. */
  function HopCount(plans: seq<Plan>, k: nat): nat
    requires k <= |plans|
  {
    if k == 0 then 0 else HopCount(plans, k - 1) + |plans[k - 1].hops|
  }

  /** The first service of each of the chains 0..k-1: the services whose tracer the chains look up. */
  function FirstServices(w: Worker, k: nat): (r: seq<string>)
    requires k <= |w.chainedServices|
    ensures |r| == k
  {
    if k == 0 then [] else FirstServices(w, k - 1) + [Services(w, k - 1)[0]]
  }

  /**
   * The chains loop hands each chain the previous chain's total latency (0
   * to the first), and accumulates every chain's total and slept latency.
   */
  lemma {:induction false} AccumulateHistory(results: seq<ChainResult>)
    ensures var t := Accumulate(results);
            && |t.incoming| == |results|
            && t.total == TotalOf(results)
            && t.chained == (if results == [] then 0 else results[|results| - 1].totalLatency)
            && t.slept == (if results == [] then 0 else results[|results| - 1].sleptLatency)
            && (0 < |results| ==> t.incoming[0] == 0)
            && (forall j :: 0 < j < |results| ==> t.incoming[j] == results[j - 1].totalLatency)
  {
    if results != [] {
      var n := |results| - 1;
      AccumulateHistory(results[..n]);
      assert forall j :: 0 <= j < n ==> results[..n][j] == results[j];
    }
  }

  /** Chain k appends its spans to the log the chains before it left and changes none before them. */
  lemma ResultsStep(plans: seq<Plan>, chains: seq<ChainDraws>, parentCtx: Context, log0: seq<SpanRecord>,
                    results: seq<ChainResult>, k: nat)
    requires AllRunnable(plans) && |plans| == |chains| && k < |results| <= |chains|
    requires Chained(plans, chains, parentCtx, log0, results)
    ensures var prev := LogAfter(log0, results[..k]);
            var next := LogAfter(log0, results[..k + 1]);
            |next| == |prev| + |plans[k].hops| && next[..|prev|] == prev
  {
    assert ChainedAt(plans, chains, parentCtx, log0, results, k);
    assert results[..k + 1][k] == results[k];
    ChainSpanCount(LogAfter(log0, results[..k]), parentCtx, plans[k], chains[k].rootIssuedAt);
  }

  /** The chains 0..k-1 append exactly their spans to the log. */
  lemma {:induction false} ResultsLength(plans: seq<Plan>, chains: seq<ChainDraws>, parentCtx: Context,
                                         log0: seq<SpanRecord>, results: seq<ChainResult>, k: nat)
    requires AllRunnable(plans) && |plans| == |chains| && k <= |results| <= |chains|
    requires Chained(plans, chains, parentCtx, log0, results)
    ensures |LogAfter(log0, results[..k])| == |log0| + HopCount(plans, k)
  {
    if k > 0 {
      ResultsLength(plans, chains, parentCtx, log0, results, k - 1);
      ResultsStep(plans, chains, parentCtx, log0, results, k - 1);
    } else {
      assert results[..0] == [];
    }
  }

  /** The log after j chains is a prefix of the log after k >= j chains. */
  lemma {:induction false} ResultsLog(plans: seq<Plan>, chains: seq<ChainDraws>, parentCtx: Context,
                                      log0: seq<SpanRecord>, results: seq<ChainResult>, j: nat, k: nat)
    requires AllRunnable(plans) && |plans| == |chains| && j <= k <= |results| <= |chains|
    requires Chained(plans, chains, parentCtx, log0, results)
    ensures var a := LogAfter(log0, results[..j]);
            var b := LogAfter(log0, results[..k]);
            |a| <= |b| && b[..|a|] == a
  {
    if j < k {
      var a := LogAfter(log0, results[..j]);
      ResultsLog(plans, chains, parentCtx, log0, results, j, k - 1);
      ResultsStep(plans, chains, parentCtx, log0, results, k - 1);
      PrefixOfPrefix(LogAfter(log0, results[..k - 1]), LogAfter(log0, results[..k]), |a|);
    }
  }

  /**
   * Chain j's first span, at the end of the log the chains before it left,
   * hangs off the context the chains were given and is finished exactly once,
   * at the chain's start plus its total and slept latency.
   */
  lemma ResultsFirstSpan(plans: seq<Plan>, chains: seq<ChainDraws>, parentCtx: Context,
                         log0: seq<SpanRecord>, results: seq<ChainResult>, j: nat)
    requires AllRunnable(plans) && |plans| == |chains| && j < |results| <= |chains|
    requires Chained(plans, chains, parentCtx, log0, results)
    ensures var at := |LogAfter(log0, results[..j])|;
            var b := LogAfter(log0, results);
            && at < |b|
            && b[at] == FinishedUnder(plans[j].spans[0], parentCtx,
                                      chains[j].rootIssuedAt + results[j].totalLatency + results[j].sleptLatency)
  {
    var a := LogAfter(log0, results[..j]);
    assert ChainedAt(plans, chains, parentCtx, log0, results, j);
    ChainRootSpan(a, parentCtx, plans[j], chains[j].rootIssuedAt);
    assert results[..j + 1][j] == results[j];
    assert results[..|results|] == results;
    ResultsLog(plans, chains, parentCtx, log0, results, j + 1, |results|);
    var c := LogAfter(log0, results[..j + 1]);
    var b := LogAfter(log0, results);
    assert b[|a|] == b[..|c|][|a|];
  }

  /** The number of spans the chains 0..k-1 of the worker emit: one per service. */
  function WorkerHops(w: Worker, k: nat): nat
    requires k <= |w.chainedServices|
  {
    if k == 0 then 0 else WorkerHops(w, k - 1) + |Services(w, k - 1)|
  }

  /** The number of hop draws of the chains 0..k-1. */
  function DrawCount(chains: seq<ChainDraws>, k: nat): nat
    requires k <= |chains|
  {
    if k == 0 then 0 else DrawCount(chains, k - 1) + |chains[k - 1].hops|
  }

  /** Draws that fit the worker's chains number one per service. */
  lemma {:induction false} DrawCountIsWorkerHops(w: Worker, chains: seq<ChainDraws>, k: nat)
    requires ChainsFit(w, chains) && k <= |chains|
    ensures DrawCount(chains, k) == WorkerHops(w, k)
  {
    if k > 0 {
      DrawCountIsWorkerHops(w, chains, k - 1);
      assert HopsFit(w, chains, k - 1);
    }
  }

  /** Plans with one hop per draw record emit one span per draw record. */
  lemma {:induction false} HopCountIsDrawCount(plans: seq<Plan>, chains: seq<ChainDraws>, k: nat)
    requires |plans| == |chains| && k <= |plans|
    requires forall j :: 0 <= j < |plans| ==> |plans[j].hops| == |chains[j].hops|
    ensures HopCount(plans, k) == DrawCount(chains, k)
  {
    if k > 0 {
      HopCountIsDrawCount(plans, chains, k - 1);
    }
  }

  /** The plans of the worker's chains emit one span per service of each chain. */
  lemma PlansOfHops(w: Worker, chains: seq<ChainDraws>, plans: seq<Plan>, k: nat)
    requires PlansOf(w, chains, plans) && k <= |plans|
    ensures HopCount(plans, k) == WorkerHops(w, k)
  {
    HopCountIsDrawCount(plans, chains, k);
    DrawCountIsWorkerHops(w, chains, k);
  }

  /** What one iteration leaves: its latency, the latencies handed to the chains, and the log. */
  datatype IterationResult = IterationResult(totalLatency: Duration, sleeps: seq<Duration>, log: seq<SpanRecord>)

  /** The log once the root span of an iteration is started. */
  function WithRoot(w: Worker, log: seq<SpanRecord>, d: IterationDraws): seq<SpanRecord> {
    log + [RootSpan(w, d)]
  }

  /** What the fakeTraces calls of an iteration return, chain k following plans[k]. */
  function IterationOutcomes(w: Worker, log: seq<SpanRecord>, d: IterationDraws, plans: seq<Plan>)
    : (r: seq<ChainResult>)
    requires PlansFit(w, plans) && |d.chains| == |plans|
    ensures |r| == |d.chains|
    ensures Chained(plans, d.chains, ParentContext(w, d, |log|), WithRoot(w, log, d), r)
  {
    Outcomes(plans, d.chains, ParentContext(w, d, |log|), WithRoot(w, log, d), |d.chains|)
  }

  /**
   * The log once the chains returned `results` and the span just before the
   * chains' spans, the root, is finished at `at`.
   */
  function Rooted(plans: seq<Plan>, chains: seq<ChainDraws>, parentCtx: Context, log0: seq<SpanRecord>,
                  results: seq<ChainResult>, at: Instant): (r: seq<SpanRecord>)
    requires AllRunnable(plans) && |plans| == |chains| == |results| && |log0| > 0
    requires Chained(plans, chains, parentCtx, log0, results)
    ensures var n := |log0| - 1;
            && |r| == |log0| + HopCount(plans, |results|)
            && r[..n] == log0[..n]
            && r[n] == log0[n].(finishes := log0[n].finishes + [at])
    ensures |r| == |LogAfter(log0, results)|
    ensures forall i :: |log0| <= i < |r| ==> r[i] == LogAfter(log0, results)[i]
  {
    ResultsLength(plans, chains, parentCtx, log0, results, |results|);
    ResultsLog(plans, chains, parentCtx, log0, results, 0, |results|);
    assert results[..0] == [] && results[..|results|] == results;
    var b := LogAfter(log0, results);
    var n := |log0| - 1;
    assert b[..|log0|] == log0;
    assert b[n] == log0[n];
    assert b[..n] == log0[..n];
    Finish(b, n, at)
  }

  /** Rooted finishes the span just before the chains' spans in the log the chains leave. */
  lemma RootedIsFinish(plans: seq<Plan>, chains: seq<ChainDraws>, parentCtx: Context, log0: seq<SpanRecord>,
                       results: seq<ChainResult>, at: Instant)
    requires AllRunnable(plans) && |plans| == |chains| == |results| && |log0| > 0
    requires Chained(plans, chains, parentCtx, log0, results)
    requires |log0| <= |LogAfter(log0, results)|
    ensures Rooted(plans, chains, parentCtx, log0, results, at) == Finish(LogAfter(log0, results), |log0| - 1, at)
  {
  }

  /** Once the root is finished, chain j's first span still follows the chains before it. */
  lemma RootedChainSpan(plans: seq<Plan>, chains: seq<ChainDraws>, parentCtx: Context, log0: seq<SpanRecord>,
                        results: seq<ChainResult>, at: Instant, j: nat, k: nat)
    requires AllRunnable(plans) && |plans| == |chains| == |results| && |log0| > 0 && j < |results|
    requires Chained(plans, chains, parentCtx, log0, results)
    requires k == |log0| + HopCount(plans, j)
    ensures var r := Rooted(plans, chains, parentCtx, log0, results, at);
            && k < |r|
            && r[k] == FinishedUnder(plans[j].spans[0], parentCtx,
                                     chains[j].rootIssuedAt + results[j].totalLatency + results[j].sleptLatency)
  {
    ResultsLength(plans, chains, parentCtx, log0, results, j);
    ResultsFirstSpan(plans, chains, parentCtx, log0, results, j);
  }

  /** The chains append exactly their spans to the log. */
  lemma ChainsLength(plans: seq<Plan>, chains: seq<ChainDraws>, parentCtx: Context, log0: seq<SpanRecord>,
                     results: seq<ChainResult>)
    requires AllRunnable(plans) && |plans| == |chains| == |results|
    requires Chained(plans, chains, parentCtx, log0, results)
    ensures |LogAfter(log0, results)| == |log0| + HopCount(plans, |results|)
  {
    ResultsLength(plans, chains, parentCtx, log0, results, |results|);
    assert results[..|results|] == results;
  }

  /**
   * One iteration of the worker loop, chain k following plans[k]: the
   * chains run under the parent context on the log holding the root, and
   * the root is finished at the clock reading before the chains plus the
   * accumulated latency.
   */
  function Iteration(w: Worker, log: seq<SpanRecord>, d: IterationDraws, plans: seq<Plan>): IterationResult
    requires PlansFit(w, plans) && |d.chains| == |plans|
  {
    var results := IterationOutcomes(w, log, d, plans);
    var t := Accumulate(results);
    ChainsLength(plans, d.chains, ParentContext(w, d, |log|), WithRoot(w, log, d), results);
    IterationResult(t.total, t.incoming,
                    Finish(LogAfter(WithRoot(w, log, d), results), |log|, d.issuedAt + t.total))
  }

  /**
   * The iteration assembled from its parts: the root span, the parent
   * context and what the chains return on the log holding the root.
   */
  lemma IterationOfParts(w: Worker, log: seq<SpanRecord>, d: IterationDraws, plans: seq<Plan>,
                         root: SpanRecord, parentCtx: Context, total: Duration, sleeps: seq<Duration>,
                         chained: seq<SpanRecord>)
    requires PlansFit(w, plans) && |d.chains| == |plans|
    requires root == RootSpan(w, d) && parentCtx == ParentContext(w, d, |log|)
    requires var results := Outcomes(plans, d.chains, parentCtx, log + [root], |d.chains|);
             var t := Accumulate(results);
             && total == t.total && sleeps == t.incoming && chained == LogAfter(log + [root], results)
    ensures |log| < |chained|
    ensures Iteration(w, log, d, plans) == IterationResult(total, sleeps, Finish(chained, |log|, d.issuedAt + total))
  {
    var results := IterationOutcomes(w, log, d, plans);
    ChainsLength(plans, d.chains, parentCtx, WithRoot(w, log, d), results);
  }

  /** The iteration's log is the chains' log with the root finished. */
  lemma IterationRooted(w: Worker, log: seq<SpanRecord>, d: IterationDraws, plans: seq<Plan>)
    requires PlansFit(w, plans) && |d.chains| == |plans|
    ensures var it := Iteration(w, log, d, plans);
            it.log == Rooted(plans, d.chains, ParentContext(w, d, |log|), WithRoot(w, log, d),
                             IterationOutcomes(w, log, d, plans), d.issuedAt + it.totalLatency)
  {
    var results := IterationOutcomes(w, log, d, plans);
    ChainsLength(plans, d.chains, ParentContext(w, d, |log|), WithRoot(w, log, d), results);
    RootedIsFinish(plans, d.chains, ParentContext(w, d, |log|), WithRoot(w, log, d), results,
                   d.issuedAt + Accumulate(results).total);
  }

  /**
   * An iteration appends its root span and then the spans of every chain;
   * the root is finished exactly once, at the iteration's start plus the
   * accumulated latency, and the log before it is untouched.
   */
  lemma IterationRoot(w: Worker, log: seq<SpanRecord>, d: IterationDraws, plans: seq<Plan>)
    requires PlansFit(w, plans) && |d.chains| == |plans|
    ensures var it := Iteration(w, log, d, plans);
            && |it.log| == |log| + 1 + HopCount(plans, |plans|)
            && it.log[..|log|] == log
            && it.log[|log|] == RootSpan(w, d).(finishes := [d.issuedAt + it.totalLatency])
  {
    IterationRooted(w, log, d, plans);
    var log1 := WithRoot(w, log, d);
    assert log1[..|log|] == log && log1[|log|] == RootSpan(w, d);
  }

  /**
   * Chain j's first span sits right after the root and the spans of the
   * chains before it; it hangs off the iteration's parent context and is
   * finished exactly once, at its chain's start plus that chain's total and
   * slept latency.
   */
  lemma IterationChainSpan(w: Worker, log: seq<SpanRecord>, d: IterationDraws, plans: seq<Plan>, j: nat)
    requires PlansFit(w, plans) && |d.chains| == |plans| && j < |plans|
    ensures var it := Iteration(w, log, d, plans);
            var r := IterationOutcomes(w, log, d, plans)[j];
            var at := |log| + 1 + HopCount(plans, j);
            && at < |it.log|
            && it.log[at] == FinishedUnder(plans[j].spans[0], ParentContext(w, d, |log|),
                                           d.chains[j].rootIssuedAt + r.totalLatency + r.sleptLatency)
  {
    IterationRooted(w, log, d, plans);
    var results := IterationOutcomes(w, log, d, plans);
    var log1 := WithRoot(w, log, d);
    RootedChainSpan(plans, d.chains, ParentContext(w, d, |log|), log1, results,
                    d.issuedAt + Accumulate(results).total, j, |log| + 1 + HopCount(plans, j));
  }

  /** One more chain extends the outcomes by what fakeTraces returns for it. */
  lemma OutcomesStep(plans: seq<Plan>, chains: seq<ChainDraws>, parentCtx: Context, log0: seq<SpanRecord>, k: nat)
    requires AllRunnable(plans) && |plans| == |chains| && k < |chains|
    ensures var prev := Outcomes(plans, chains, parentCtx, log0, k);
            Outcomes(plans, chains, parentCtx, log0, k + 1)
            == prev + [FakeTracesSpec(LogAfter(log0, prev), parentCtx, plans[k], chains[k].rootIssuedAt)]
  {
  }

  /** One more chain adds its total and slept latency, and records the latency handed to it. */
  lemma AccumulateStep(results: seq<ChainResult>, r: ChainResult)
    ensures var t := Accumulate(results);
            Accumulate(results + [r])
            == ChainsTotals(t.total + r.totalLatency + r.sleptLatency, r.totalLatency, r.sleptLatency,
                            t.incoming + [t.chained])
  {
    assert (results + [r])[..|results|] == results;
  }

  /** One more chain looks up the tracer of its first service. */
  lemma CachedStep(w: Worker, store: map<string, Tracer>, k: nat)
    requires k < |w.chainedServices|
    ensures var s := Services(w, k)[0];
            Cached(store, FirstServices(w, k + 1)) == Cached(store, FirstServices(w, k))[s := TracerFor(s)]
  {
    assert FirstServices(w, k + 1)[..k] == FirstServices(w, k);
  }

  /** Chain k of the loop: split its services and call fakeTraces on them. */
  method RunChain(registry: TracerRegistry, w: Worker, k: nat, parentCtx: Context, log: seq<SpanRecord>,
                  chains: seq<ChainDraws>, ghost plans: seq<Plan>, chainedLatency: Duration)
    returns (r: ChainResult)
    requires registry.Valid() && PlansOf(w, chains, plans) && k < |chains|
    modifies registry
    ensures registry.Valid()
    ensures var s := Services(w, k)[0];
            registry.store == old(registry.store)[s := TracerFor(s)]
    ensures r == FakeTracesSpec(log, parentCtx, plans[k], chains[k].rootIssuedAt)
  {
    assert PlanAt(w, chains, plans, k);
    var services := Split(w.chainedServices[k], ',');
    assert services == Services(w, k);
    var totalLatency, sleptLatency, spans :=
      FakeTraces(registry, log, parentCtx, services, w.serviceApis, chainedLatency,
                 chains[k].rootIssuedAt, chains[k].hops);
    r := ChainResult(totalLatency, sleptLatency, spans);
  }

  /**
   * The body of the chains loop for chain k: hand it the previous chain's
   * latency, run it, and add its total and slept latency to the total.
   */
  method ChainsLoopBody(registry: TracerRegistry, w: Worker, parentCtx: Context, log0: seq<SpanRecord>,
                        chains: seq<ChainDraws>, ghost plans: seq<Plan>, k: nat, ghost results: seq<ChainResult>,
                        totalLatency: Duration, chainedLatency: Duration, sleptLatency: Duration,
                        sleeps: seq<Duration>, spans: seq<SpanRecord>)
    returns (ghost results': seq<ChainResult>, totalLatency': Duration, chainedLatency': Duration,
             sleptLatency': Duration, sleeps': seq<Duration>, spans': seq<SpanRecord>)
    requires registry.Valid() && PlansOf(w, chains, plans) && k < |chains|
    requires results == Outcomes(plans, chains, parentCtx, log0, k)
    requires Accumulate(results) == ChainsTotals(totalLatency, chainedLatency, sleptLatency, sleeps)
    requires spans == LogAfter(log0, results)
    modifies registry
    ensures registry.Valid()
    ensures var s := Services(w, k)[0];
            registry.store == old(registry.store)[s := TracerFor(s)]
    ensures results' == Outcomes(plans, chains, parentCtx, log0, k + 1)
    ensures Accumulate(results') == ChainsTotals(totalLatency', chainedLatency', sleptLatency', sleeps')
    ensures spans' == LogAfter(log0, results')
  {
    sleeps' := sleeps + [chainedLatency];
    var r := RunChain(registry, w, k, parentCtx, spans, chains, plans, chainedLatency);
    OutcomesStep(plans, chains, parentCtx, log0, k);
    AccumulateStep(results, r);
    chainedLatency', sleptLatency' := r.totalLatency, r.sleptLatency;
    totalLatency' := totalLatency + chainedLatency' + sleptLatency';
    results' := results + [r];
    spans' := r.log;
  }

  /**
   * The chains loop of one iteration: chain k sleeps the latency chain k-1
   * returned, then emits its spans under parentCtx; the loop totals each
   * chain's total and slept latency.
   */
  method RunChains(registry: TracerRegistry, w: Worker, parentCtx: Context, log0: seq<SpanRecord>,
                   chains: seq<ChainDraws>, ghost plans: seq<Plan>)
    returns (totalLatency: Duration, sleeps: seq<Duration>, spans: seq<SpanRecord>)
    requires registry.Valid() && PlansOf(w, chains, plans)
    modifies registry
    ensures registry.Valid()
    ensures registry.store == Cached(old(registry.store), FirstServices(w, |chains|))
    ensures var results := Outcomes(plans, chains, parentCtx, log0, |chains|);
            var t := Accumulate(results);
            && totalLatency == t.total && sleeps == t.incoming && spans == LogAfter(log0, results)
  {
    ghost var results: seq<ChainResult> := [];
    var chainedLatency, sleptLatency := 0, 0;
    totalLatency, sleeps, spans := 0, [], log0;
    var k := 0;
    while k < |w.chainedServices|
      invariant k <= |chains|
      invariant registry.Valid()
      invariant registry.store == Cached(old(registry.store), FirstServices(w, k))
      invariant results == Outcomes(plans, chains, parentCtx, log0, k)
      invariant Accumulate(results) == ChainsTotals(totalLatency, chainedLatency, sleptLatency, sleeps)
      invariant spans == LogAfter(log0, results)
    {
      CachedStep(w, old(registry.store), k);
      results, totalLatency, chainedLatency, sleptLatency, sleeps, spans :=
        ChainsLoopBody(registry, w, parentCtx, log0, chains, plans, k, results,
                       totalLatency, chainedLatency, sleptLatency, sleeps, spans);
      k := k + 1;
    }
  }
}
