/**
 * The outer loop of simulateTraces: iterations run while the running flag
 * reads 1, and a non-zero trace target ends the loop once that many
 * iterations are done. The flag is modelled by `stopCheck`, the number of
 * loop checks that read it as 1 before the first that does not.
 */
module Simulate {
  import opened Wrappers
  import opened GoStrings
  import opened FakeData
  import opened Tracers
  import opened Spans
  import opened Chain
  import opened Worker

  /** The loop stops after i iterations: the flag check reads "stopped", or the target is reached. */
  predicate Stops(traces: int, stopCheck: nat, i: nat) {
    i == stopCheck || (traces != 0 && 1 <= i && traces <= i)
  }

  /** The number of iterations the loop runs: the first count at which it stops. */
  function Iterations(traces: int, stopCheck: nat): (n: nat)
    ensures Stops(traces, stopCheck, n)
    ensures forall i :: 0 <= i < n ==> !Stops(traces, stopCheck, i)
    ensures n <= stopCheck
    ensures traces > 0 ==> n <= traces
    ensures traces == 0 ==> n == stopCheck
    ensures 0 < traces <= stopCheck ==> n == traces
  {
    if traces == 0 || stopCheck == 0 then stopCheck
    else if traces < 1 then 1
    else if traces < stopCheck then traces
    else stopCheck
  }

  /** Every iteration has one record of draws per chain and per hop. */
  predicate DrawsFit(w: Worker, draws: seq<IterationDraws>) {
    forall m :: 0 <= m < |draws| ==> ChainsFit(w, draws[m].chains)
  }

  /** The plans of every iteration's chains under its draws. */
  function AllPlans(w: Worker, draws: seq<IterationDraws>): (r: seq<seq<Plan>>)
    requires WorkerOk(w) && DrawsFit(w, draws)
    ensures |r| == |draws|
  {
    seq(|draws|, m requires 0 <= m < |draws| => ChainPlans(w, draws[m].chains))
  }

  /** allPlans[m] is a plan per chain of iteration m, each runnable. */
  predicate FitAt(w: Worker, draws: seq<IterationDraws>, allPlans: seq<seq<Plan>>, m: nat)
    requires m < |draws| && m < |allPlans|
  {
    PlansFit(w, allPlans[m]) && |draws[m].chains| == |allPlans[m]|
  }

  /** One runnable plan per chain of every iteration. */
  predicate AllFit(w: Worker, draws: seq<IterationDraws>, allPlans: seq<seq<Plan>>) {
    && |allPlans| == |draws|
    && forall m :: 0 <= m < |draws| ==> FitAt(w, draws, allPlans, m)
  }

  /** allPlans[m] are the plans iteration m's draws determine. */
  predicate PlansOfAt(w: Worker, draws: seq<IterationDraws>, allPlans: seq<seq<Plan>>, m: nat)
    requires m < |draws| && m < |allPlans|
  {
    PlansOf(w, draws[m].chains, allPlans[m])
  }

  /** `allPlans` are the plans of every iteration under its draws. */
  predicate AllPlansOf(w: Worker, draws: seq<IterationDraws>, allPlans: seq<seq<Plan>>) {
    && AllFit(w, draws, allPlans)
    && forall m :: 0 <= m < |draws| ==> PlansOfAt(w, draws, allPlans, m)
  }

  /** The plans each iteration's draws determine are the plans of its chains. */
  lemma AllPlansAreOf(w: Worker, draws: seq<IterationDraws>)
    requires WorkerOk(w) && DrawsFit(w, draws)
    ensures AllPlansOf(w, draws, AllPlans(w, draws))
  {
    var allPlans := AllPlans(w, draws);
    forall m | 0 <= m < |draws|
      ensures FitAt(w, draws, allPlans, m) && PlansOfAt(w, draws, allPlans, m)
    {
      ChainPlansOf(w, draws[m].chains);
    }
  }

  /** The draws determine the plans of every iteration. */
  lemma AllPlansOfUnique(w: Worker, draws: seq<IterationDraws>, allPlans: seq<seq<Plan>>)
    requires WorkerOk(w) && DrawsFit(w, draws) && AllPlansOf(w, draws, allPlans)
    ensures allPlans == AllPlans(w, draws)
  {
    forall m | 0 <= m < |draws|
      ensures allPlans[m] == AllPlans(w, draws)[m]
    {
      assert PlansOfAt(w, draws, allPlans, m);
      PlansOfUnique(w, draws[m].chains, allPlans[m]);
    }
  }

  /** logs[m+1] is what iteration m leaves when it runs on logs[m]. */
  predicate StepAt(w: Worker, draws: seq<IterationDraws>, allPlans: seq<seq<Plan>>, logs: seq<seq<SpanRecord>>,
                   m: nat)
    requires AllFit(w, draws, allPlans) && m < |draws| && |logs| == |draws| + 1
  {
    assert FitAt(w, draws, allPlans, m);
    logs[m + 1] == Iteration(w, logs[m], draws[m], allPlans[m]).log
  }

  /** Every logs[m+1] is what iteration m leaves on logs[m]. */
  predicate AllSteps(w: Worker, draws: seq<IterationDraws>, allPlans: seq<seq<Plan>>, logs: seq<seq<SpanRecord>>)
    requires AllFit(w, draws, allPlans) && |logs| == |draws| + 1
  {
    forall m :: 0 <= m < |draws| ==> StepAt(w, draws, allPlans, logs, m)
  }

  /** logs[n] is the log after the first n iterations, starting from `log`. */
  predicate Runs(w: Worker, log: seq<SpanRecord>, draws: seq<IterationDraws>, allPlans: seq<seq<Plan>>,
                 logs: seq<seq<SpanRecord>>) {
    && AllFit(w, draws, allPlans)
    && |logs| == |draws| + 1
    && logs[0] == log
    && AllSteps(w, draws, allPlans, logs)
  }

  /** Iteration m, run on the log the iterations before it left. */
  function IterationAt(w: Worker, log: seq<SpanRecord>, draws: seq<IterationDraws>, allPlans: seq<seq<Plan>>,
                       m: nat): IterationResult
    requires AllFit(w, draws, allPlans) && m < |draws|
    decreases m, 1
  {
    assert FitAt(w, draws, allPlans, m);
    Iteration(w, SimulateRun(w, log, draws, allPlans, m), draws[m], allPlans[m])
  }

  /** The log after the first n iterations. */
  function SimulateRun(w: Worker, log: seq<SpanRecord>, draws: seq<IterationDraws>, allPlans: seq<seq<Plan>>,
                       n: nat): seq<SpanRecord>
    requires AllFit(w, draws, allPlans) && n <= |draws|
    decreases n, 0
  {
    if n == 0 then log else IterationAt(w, log, draws, allPlans, n - 1).log
  }

  /** The logs after 0, 1, ..., |draws| iterations. */
  function SimulateLogs(w: Worker, log: seq<SpanRecord>, draws: seq<IterationDraws>, allPlans: seq<seq<Plan>>)
    : (r: seq<seq<SpanRecord>>)
    requires AllFit(w, draws, allPlans)
    ensures |r| == |draws| + 1
  {
    seq(|draws| + 1, n requires 0 <= n <= |draws| => SimulateRun(w, log, draws, allPlans, n))
  }

  /** The logs of SimulateRun are a run. */
  lemma SimulateLogsRun(w: Worker, log: seq<SpanRecord>, draws: seq<IterationDraws>, allPlans: seq<seq<Plan>>)
    requires AllFit(w, draws, allPlans)
    ensures Runs(w, log, draws, allPlans, SimulateLogs(w, log, draws, allPlans))
  {
    var logs := SimulateLogs(w, log, draws, allPlans);
    forall m | 0 <= m < |draws|
      ensures StepAt(w, draws, allPlans, logs, m)
    {
      SimulateStep(w, log, draws, allPlans, m);
      StepDetermined(w, SimulateRun(w, log, draws, allPlans, m), logs[m], draws[m], allPlans[m],
                     SimulateRun(w, log, draws, allPlans, m + 1), Iteration(w, logs[m], draws[m], allPlans[m]).log);
      assert logs[m + 1] == SimulateRun(w, log, draws, allPlans, m + 1);
    }
  }

  /** Iteration m turns the log after m iterations into the log after m + 1. */
  lemma SimulateStep(w: Worker, log: seq<SpanRecord>, draws: seq<IterationDraws>, allPlans: seq<seq<Plan>>, m: nat)
    requires AllFit(w, draws, allPlans) && m < |draws|
    ensures FitAt(w, draws, allPlans, m)
    ensures SimulateRun(w, log, draws, allPlans, m + 1)
            == Iteration(w, SimulateRun(w, log, draws, allPlans, m), draws[m], allPlans[m]).log
  {
  }

  /** A run is determined by its start and the draws: it is the logs of SimulateRun. */
  lemma {:induction false} RunsUnique(w: Worker, log: seq<SpanRecord>, draws: seq<IterationDraws>,
                                      allPlans: seq<seq<Plan>>, logs: seq<seq<SpanRecord>>, n: nat)
    requires Runs(w, log, draws, allPlans, logs) && n <= |draws|
    ensures logs[n] == SimulateRun(w, log, draws, allPlans, n)
  {
    if n > 0 {
      var m := n - 1;
      RunsUnique(w, log, draws, allPlans, logs, m);
      SimulateStep(w, log, draws, allPlans, m);
      assert StepAt(w, draws, allPlans, logs, m);
      StepDetermined(w, logs[m], SimulateRun(w, log, draws, allPlans, m), draws[m], allPlans[m],
                     logs[m + 1], SimulateRun(w, log, draws, allPlans, m + 1));
    }
  }

  /** An iteration's log is determined by the log it starts from. */
  lemma StepDetermined(w: Worker, a: seq<SpanRecord>, b: seq<SpanRecord>, d: IterationDraws, plans: seq<Plan>,
                       a': seq<SpanRecord>, b': seq<SpanRecord>)
    requires PlansFit(w, plans) && |d.chains| == |plans|
    requires a' == Iteration(w, a, d, plans).log && b' == Iteration(w, b, d, plans).log
    requires a == b
    ensures a' == b'
  {
  }

  /** An iteration only appends to the log. */
  lemma RunsGrows(w: Worker, log: seq<SpanRecord>, draws: seq<IterationDraws>, allPlans: seq<seq<Plan>>,
                  logs: seq<seq<SpanRecord>>, m: nat)
    requires Runs(w, log, draws, allPlans, logs) && m < |draws|
    ensures |logs[m]| < |logs[m + 1]| && logs[m + 1][..|logs[m]|] == logs[m]
  {
    assert StepAt(w, draws, allPlans, logs, m) && FitAt(w, draws, allPlans, m);
    IterationRoot(w, logs[m], draws[m], allPlans[m]);
  }

  /** The spans of one iteration: its root and one per service of every chain. */
  function IterationSpans(w: Worker): nat {
    1 + WorkerHops(w, |w.chainedServices|)
  }

  /** Iteration m appends one iteration's spans. */
  lemma RunsGrowsBy(w: Worker, log: seq<SpanRecord>, draws: seq<IterationDraws>, allPlans: seq<seq<Plan>>,
                    logs: seq<seq<SpanRecord>>, m: nat)
    requires Runs(w, log, draws, allPlans, logs) && AllPlansOf(w, draws, allPlans) && m < |draws|
    ensures |logs[m + 1]| == |logs[m]| + IterationSpans(w)
  {
    var plans := allPlans[m];
    assert PlansOfAt(w, draws, allPlans, m);
    PlansOfHops(w, draws[m].chains, plans, |plans|);
    assert StepAt(w, draws, allPlans, logs, m) && FitAt(w, draws, allPlans, m);
    IterationRoot(w, logs[m], draws[m], plans);
  }

  /** Every iteration appends the same number of spans. */
  lemma {:induction false} RunsLength(w: Worker, log: seq<SpanRecord>, draws: seq<IterationDraws>,
                                      allPlans: seq<seq<Plan>>, logs: seq<seq<SpanRecord>>, n: nat)
    requires Runs(w, log, draws, allPlans, logs) && AllPlansOf(w, draws, allPlans) && n <= |draws|
    ensures |logs[n]| == |log| + n * IterationSpans(w)
  {
    if n > 0 {
      RunsLength(w, log, draws, allPlans, logs, n - 1);
      RunsGrowsBy(w, log, draws, allPlans, logs, n - 1);
      var h := IterationSpans(w);
      assert n * h == (n - 1) * h + h;
    }
  }

  /** Later iterations only append: the log after m iterations is a prefix of the log after n. */
  lemma {:induction false} RunsPrefix(w: Worker, log: seq<SpanRecord>, draws: seq<IterationDraws>,
                                      allPlans: seq<seq<Plan>>, logs: seq<seq<SpanRecord>>, m: nat, n: nat)
    requires Runs(w, log, draws, allPlans, logs) && m <= n <= |draws|
    ensures |logs[m]| <= |logs[n]| && logs[n][..|logs[m]|] == logs[m]
    decreases n
  {
    if m < n {
      RunsPrefix(w, log, draws, allPlans, logs, m, n - 1);
      RunsGrows(w, log, draws, allPlans, logs, n - 1);
      PrefixTrans(logs[m], logs[n - 1], logs[n]);
    }
  }

  /** A prefix of a prefix is a prefix. */
  lemma PrefixTrans(a: seq<SpanRecord>, c: seq<SpanRecord>, b: seq<SpanRecord>)
    requires |a| <= |c| <= |b| && c[..|a|] == a && b[..|c|] == c
    ensures b[..|a|] == a
  {
    assert b[..|a|] == b[..|c|][..|a|];
  }

  /** An index inside a prefix reads the same in the longer log. */
  lemma PrefixIndex(c: seq<SpanRecord>, b: seq<SpanRecord>, i: nat)
    requires i < |c| <= |b| && b[..|c|] == c
    ensures b[i] == c[i]
  {
    assert b[i] == b[..|c|][i];
  }

  /** Iteration m's total latency, as it runs on the log the iterations before it left. */
  function LatencyAt(w: Worker, draws: seq<IterationDraws>, allPlans: seq<seq<Plan>>, logs: seq<seq<SpanRecord>>,
                     m: nat): Duration
    requires AllFit(w, draws, allPlans) && m < |draws| && |logs| == |draws| + 1
  {
    assert FitAt(w, draws, allPlans, m);
    Iteration(w, logs[m], draws[m], allPlans[m]).totalLatency
  }

  /** Iteration m leaves its root span, finished once, right after the log it ran on. */
  lemma RunsRootStep(w: Worker, log: seq<SpanRecord>, draws: seq<IterationDraws>, allPlans: seq<seq<Plan>>,
                     logs: seq<seq<SpanRecord>>, m: nat)
    requires Runs(w, log, draws, allPlans, logs) && m < |draws|
    ensures |logs[m]| < |logs[m + 1]|
    ensures logs[m + 1][|logs[m]|]
            == RootSpan(w, draws[m]).(finishes := [draws[m].issuedAt + LatencyAt(w, draws, allPlans, logs, m)])
  {
    assert StepAt(w, draws, allPlans, logs, m) && FitAt(w, draws, allPlans, m);
    IterationRoot(w, logs[m], draws[m], allPlans[m]);
  }

  /**
   * Iteration m's root span sits at m times the iteration's span count past
   * the initial log, and stays finished exactly once, at the iteration's
   * start plus its total latency, whatever later iterations do.
   */
  lemma RunsRoot(w: Worker, log: seq<SpanRecord>, draws: seq<IterationDraws>, allPlans: seq<seq<Plan>>,
                 logs: seq<seq<SpanRecord>>, m: nat, n: nat)
    requires Runs(w, log, draws, allPlans, logs) && AllPlansOf(w, draws, allPlans) && m < n <= |draws|
    ensures var at := |log| + m * IterationSpans(w);
            && at < |logs[n]|
            && logs[n][at]
               == RootSpan(w, draws[m]).(finishes := [draws[m].issuedAt + LatencyAt(w, draws, allPlans, logs, m)])
  {
    RunsLength(w, log, draws, allPlans, logs, m);
    RunsRootStep(w, log, draws, allPlans, logs, m);
    RunsPrefix(w, log, draws, allPlans, logs, m + 1, n);
    PrefixIndex(logs[m + 1], logs[n], |logs[m]|);
  }

  /**
   * One iteration of the worker loop: start and tag the root span, pick the
   * context the chains hang off, run the chains, and finish the root span
   * at the clock reading before the chains plus the accumulated latency.
   */
  method SimulateIteration(registry: TracerRegistry, w: Worker, log: seq<SpanRecord>, d: IterationDraws,
                           ghost plans: seq<Plan>)
    returns (totalLatency: Duration, sleeps: seq<Duration>, spans: seq<SpanRecord>)
    requires registry.Valid() && PlansOf(w, d.chains, plans)
    modifies registry
    ensures registry.Valid()
    ensures registry.store == Cached(old(registry.store), FirstServices(w, |w.chainedServices|))
    ensures IterationResult(totalLatency, sleeps, spans) == Iteration(w, log, d, plans)
  {
    var root := StartRootSpan(w, d);
    var rootId := |log|;
    spans := log + [root];
    var parentCtx := SpanContext(rootId);
    if w.marshal {
      if d.injectOk {
        parentCtx := d.extracted;
      }
    }
    assert parentCtx == ParentContext(w, d, |log|);
    var issuedAt := d.issuedAt;
    totalLatency, sleeps, spans := RunChains(registry, w, parentCtx, spans, d.chains, plans);
    IterationOfParts(w, log, d, plans, root, parentCtx, totalLatency, sleeps, spans);
    spans := Finish(spans, rootId, issuedAt + totalLatency);
  }

  /** The root span "lets-go" of an iteration, tagged one tag at a time. */
  method StartRootSpan(w: Worker, d: IterationDraws) returns (root: SpanRecord)
    ensures root == RootSpan(w, d)
  {
    root := StartSpan(GlobalTracer, "lets-go", NilContext, d.rootStart);
    root := root.(kind := Some(RPCClient));
    root := root.(peerService := Some("tracegen-service"));
    root := root.(peerIPv4 := Some(FakeIP(d.rootIP)));
    if w.debug {
      root := root.(samplingPriority := Some(100));
    }
    if w.firehose {
      root := root.(firehose := true);
    }
  }

  /**
   * The loop: while the flag reads 1, run an iteration on the next draws;
   * after it, stop once a non-zero target is reached. The count is what
   * the worker reports; the tracer of every chain's first service is
   * cached after the first iteration and later iterations add no more.
   * The ghost `allPlans` and `logs` are those the draws determine
   * (AllPlansAreOf, AllPlansOfUnique, SimulateLogsRun, RunsUnique).
   */
  method SimulateTraces(registry: TracerRegistry, w: Worker, log: seq<SpanRecord>, draws: seq<IterationDraws>,
                        ghost allPlans: seq<seq<Plan>>, ghost logs: seq<seq<SpanRecord>>, stopCheck: nat)
    returns (i: nat, spans: seq<SpanRecord>)
    requires registry.Valid() && AllPlansOf(w, draws, allPlans) && Runs(w, log, draws, allPlans, logs)
    requires Iterations(w.traces, stopCheck) <= |draws|
    modifies registry
    ensures registry.Valid()
    ensures i == Iterations(w.traces, stopCheck)
    ensures spans == logs[i]
    ensures registry.store == if i == 0 then old(registry.store)
                              else Cached(old(registry.store), FirstServices(w, |w.chainedServices|))
  {
    ghost var cached := Cached(old(registry.store), FirstServices(w, |w.chainedServices|));
    i, spans := 0, log;
    while i < stopCheck
      invariant i <= stopCheck && (i == 0 || w.traces == 0 || i < w.traces)
      invariant i <= |draws|
      invariant spans == logs[i]
      invariant registry.Valid()
      invariant registry.store == if i == 0 then old(registry.store) else cached
    {
      spans := IterationStep(registry, w, log, draws, allPlans, logs, i, spans, old(registry.store));
      i := i + 1;
      if w.traces != 0 {
        if i >= w.traces {
          break;
        }
      }
    }
  }

  /**
   * One pass of the loop body: iteration i on the log the iterations before
   * it left. The first one caches the tracers of the chains' first
   * services; once they are cached, a later one changes nothing.
   */
  method IterationStep(registry: TracerRegistry, w: Worker, ghost log: seq<SpanRecord>, draws: seq<IterationDraws>,
                       ghost allPlans: seq<seq<Plan>>, ghost logs: seq<seq<SpanRecord>>, i: nat,
                       spans: seq<SpanRecord>, ghost store0: map<string, Tracer>)
    returns (spans': seq<SpanRecord>)
    requires registry.Valid() && AllPlansOf(w, draws, allPlans) && i < |draws|
    requires Runs(w, log, draws, allPlans, logs) && spans == logs[i]
    requires registry.store == store0 || registry.store == Cached(store0, FirstServices(w, |w.chainedServices|))
    modifies registry
    ensures registry.Valid()
    ensures spans' == logs[i + 1]
    ensures registry.store == Cached(store0, FirstServices(w, |w.chainedServices|))
  {
    assert PlansOfAt(w, draws, allPlans, i) && StepAt(w, draws, allPlans, logs, i);
    CachedIdempotent(store0, FirstServices(w, |w.chainedServices|));
    var totalLatency, sleeps;
    totalLatency, sleeps, spans' := SimulateIteration(registry, w, spans, draws[i], allPlans[i]);
  }
}
