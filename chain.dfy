/**
 * The chain simulator, fakeTraces: one span per service of a chain, the
 * first one the server-side span of the chain, each later one a client call;
 * database-flavoured services (prefix "redis-" or "mysql-") get database
 * tags, the others HTTP tags; the latencies of the hops are composed into the
 * chain's total and slept latency, which also fix the synthesized finish
 * time of the chain's first span.
 */
module Chain {
  import opened Wrappers
  import opened GoStrings
  import opened FakeData
  import opened Tracers
  import opened Spans

  /** The random values and clock readings that one hop of the loop consumes. */
  datatype HopDraws = HopDraws(
    api: nat,            // rand.Intn(len(serviceApis))
    latencyLow: nat,     // rand.Intn(10) in fakeSpanDuration
    latencyHigh: nat,    // rand.Intn(100) in fakeSpanDuration
    dbApi: nat,          // rand.Intn(len(redisApis)) or rand.Intn(len(mysqlApis))
    pause: nat,          // rand.Intn(...) in fakePausedDuration
    issuedAt: Instant,   // time.Now() just before the span is started
    peerIP: IPv4,        // fake.IPv4() behind fakeIP
    dbInstance: string,  // fake.IPv4() for the db.instance tag
    rn: nat,             // rand.Intn(100) of the error predicate
    status: nat,         // rand.Intn(4) of the error status code
    errorWords: string)  // fake.WordsN(rn)

  /** What a service name of a chain resolves to: the tagged name, the operation, the flavour. */
  datatype Hop = Hop(service: string, operation: string, isDB: bool)

  /** A database-flavoured service name. */
  predicate IsDBName(name: string) {
    HasPrefix(name, "redis-") || HasPrefix(name, "mysql-")
  }

  /** What the loop relies on: an API to draw, and a ':' in every API for SplitN(api, ":", 2)[1]. */
  predicate ApisOk(serviceApis: seq<string>) {
    |serviceApis| > 0 && forall a :: a in serviceApis ==> ':' in a
  }

  /**
   * The switch on the prefix: "redis-" or "mysql-" replaces the whole name
   * by the flavour and the operation by one of the flavour's table; any other
   * name keeps its name and its serviceApis operation.
   */
  function Classify(name: string, serviceApis: seq<string>, d: HopDraws): (h: Hop)
    requires |serviceApis| > 0
    ensures h.isDB == IsDBName(name)
    ensures HasPrefix(name, "redis-") ==> h.service == "redis" && h.operation in RedisApis
    ensures HasPrefix(name, "mysql-") ==> h.service == "mysql" && h.operation in MysqlApis
    ensures !h.isDB ==> h.service == name && h.operation in serviceApis
  {
    var fakeApi := serviceApis[Intn(d.api, |serviceApis|)];
    if HasPrefix(name, "redis-") then
      assert !HasPrefix(name, "mysql-") by { assert name[0] == 'r'; }
      Hop("redis", RedisApis[Intn(d.dbApi, |RedisApis|)], true)
    else if HasPrefix(name, "mysql-") then
      Hop("mysql", MysqlApis[Intn(d.dbApi, |MysqlApis|)], true)
    else
      Hop(name, fakeApi, false)
  }

  /** The db.statement tag. */
  function DBStatement(operation: string, service: string): string {
    ToUpper(operation) + " * FROM `services` WHERE service=`" + service + "`"
  }

  /** The error predicate on the draw rn = rand.Intn(100). */
  predicate IsErrorDraw(rn: int) {
    rn % 11 == 0 || rn % 13 == 0 || rn % 17 == 0
  }

  /** The draws in [0, 100) that mark a hop as failed, in increasing order. */
  const ErrorDrawList: seq<nat> := [0, 11, 13, 17, 22, 26, 33, 34, 39, 44, 51,
                                    52, 55, 65, 66, 68, 77, 78, 85, 88, 91, 99]

  predicate Increasing(s: seq<int>) {
    forall i :: 0 < i < |s| ==> s[i - 1] < s[i]
  }

  function Elements(s: seq<int>): set<int> {
    set x | x in s
  }

  lemma {:induction false} IncreasingBelow(s: seq<int>, i: nat, j: nat)
    requires Increasing(s) && i < j < |s|
    ensures s[i] < s[j]
    decreases j - i
  {
    if i + 1 < j {
      IncreasingBelow(s, i, j - 1);
    }
  }

  /** An increasing sequence has as many distinct elements as positions. */
  lemma {:induction false} IncreasingCard(s: seq<int>)
    requires Increasing(s)
    ensures |Elements(s)| == |s|
  {
    if s != [] {
      var n := |s| - 1;
      IncreasingCard(s[..n]);
      assert Elements(s) == Elements(s[..n]) + {s[n]};
      forall i | 0 <= i < n
        ensures s[..n][i] < s[n]
      {
        IncreasingBelow(s, i, n);
      }
      assert s[n] !in Elements(s[..n]);
    }
  }

  lemma MultiplesOf11(rn: int)
    requires 0 <= rn < 100
    ensures rn % 11 == 0 <==> rn in {0, 11, 22, 33, 44, 55, 66, 77, 88, 99}
  {
    var q := rn / 11;
    assert rn == 11 * q + rn % 11;
    assert 0 <= q < 10;
  }

  lemma MultiplesOf13(rn: int)
    requires 0 <= rn < 100
    ensures rn % 13 == 0 <==> rn in {0, 13, 26, 39, 52, 65, 78, 91}
  {
    var q := rn / 13;
    assert rn == 13 * q + rn % 13;
    assert 0 <= q < 8;
  }

  lemma MultiplesOf17(rn: int)
    requires 0 <= rn < 100
    ensures rn % 17 == 0 <==> rn in {0, 17, 34, 51, 68, 85}
  {
    var q := rn / 17;
    assert rn == 17 * q + rn % 17;
    assert 0 <= q < 6;
  }

  /** Draw rn marks an error exactly when it is listed in ErrorDrawList. */
  lemma ErrorDrawListed(rn: int)
    requires 0 <= rn < 100
    ensures IsErrorDraw(rn) <==> rn in ErrorDrawList
  {
    MultiplesOf11(rn);
    MultiplesOf13(rn);
    MultiplesOf17(rn);
  }

  /** The error predicate holds for exactly 22 of the 100 possible draws, 0 among them. */
  lemma ErrorDrawCount()
    ensures (set rn | 0 <= rn < 100 && IsErrorDraw(rn)) == Elements(ErrorDrawList)
    ensures |set rn | 0 <= rn < 100 && IsErrorDraw(rn)| == 22
    ensures IsErrorDraw(0)
  {
    forall rn | 0 <= rn < 100
      ensures IsErrorDraw(rn) <==> rn in ErrorDrawList
    {
      ErrorDrawListed(rn);
    }
    assert Increasing(ErrorDrawList);
    IncreasingCard(ErrorDrawList);
  }

  /** The error message of ext.LogError. */
  function ErrorMessage(service: string): string {
    "invoke service " + service + " with error"
  }

  /**
   * Hop i's span as StartSpan and the tag setters leave it before its
   * outcome is known: a server span for the first hop of the chain when that
   * is not a database hop, a client span otherwise; database tags or the
   * HTTP method and path; the peer tags. Its parent is left as NilContext
   * (see HopSpan).
   */
  function TaggedSpan(tracer: Tracer, hop: Hop, i: nat, d: HopDraws): SpanRecord
    requires !hop.isDB ==> ':' in hop.operation
  {
    var kind := if i == 0 && !hop.isDB then RPCServer else RPCClient;
    var started := StartSpan(tracer, hop.operation, NilContext, d.issuedAt).(kind := Some(kind));
    var tagged :=
      if hop.isDB then
        started.(dbType := Some(hop.service), dbInstance := Some(d.dbInstance),
                 dbStatement := Some(DBStatement(hop.operation, hop.service)))
      else
        var methodToPath := SplitN2(hop.operation, ':');
        started.(httpMethod := Some(methodToPath[0]), httpUrl := Some(methodToPath[1]));
    tagged.(peerService := Some(hop.service), peerIPv4 := Some(FakeIP(d.peerIP)))
  }

  /**
   * The switch on rn = rand.Intn(100): a failed hop gets a 5xx status
   * (HTTP hops only) and an error log, a successful HTTP hop status 200.
   */
  function MarkedSpan(s: SpanRecord, hop: Hop, d: HopDraws): SpanRecord {
    if IsErrorDraw(Intn(d.rn, 100)) then
      var status := if hop.isDB then s else s.(httpStatus := Some(500 + Intn(d.status, 4)));
      status.(errorLog := Some(ErrorLog(ErrorMessage(hop.service), d.errorWords)))
    else if hop.isDB then s
    else s.(httpStatus := Some(200))
  }

  /** MarkedSpan sets only the status and the error log. */
  lemma MarkedSpanFields(s: SpanRecord, hop: Hop, d: HopDraws, ctx: Context)
    ensures MarkedSpan(s.(parent := ctx), hop, d) == MarkedSpan(s, hop, d).(parent := ctx)
    ensures MarkedSpan(s, hop, d).finishes == s.finishes
  {
  }

  /**
   * The span of hop `i`: tagged, marked failed or successful, and, when
   * i > 0, finished at its start plus its latency. Its parent, which depends
   * on the hops before it, is left as NilContext and set by the chain.
   */
  function HopSpan(tracer: Tracer, hop: Hop, i: nat, d: HopDraws, latency: Duration): SpanRecord
    requires !hop.isDB ==> ':' in hop.operation
  {
    MarkedSpan(TaggedSpan(tracer, hop, i, d), hop, d).(finishes := if i > 0 then [d.issuedAt + latency] else [])
  }

  /**
   * What hop i's span carries: the tracer, operation and start; the span
   * kind; the database or HTTP tags; the peer tags; an HTTP status of 200
   * exactly when the error draw misses, else one in [500, 503]; an error log
   * exactly when the error draw hits; one finishing instant when i > 0.
   */
  lemma HopSpanTags(tracer: Tracer, hop: Hop, i: nat, d: HopDraws, latency: Duration)
    requires !hop.isDB ==> ':' in hop.operation
    ensures var s := HopSpan(tracer, hop, i, d, latency);
      && s.tracer == tracer && s.operation == hop.operation && s.start == d.issuedAt
      && s.kind == Some(if i == 0 && !hop.isDB then RPCServer else RPCClient)
      && s.peerService == Some(hop.service) && s.peerIPv4 == Some(FakeIP(d.peerIP))
      && s.samplingPriority == None && !s.firehose
      && (hop.isDB ==> && s.dbType == Some(hop.service) && s.dbInstance == Some(d.dbInstance)
                       && s.dbStatement == Some(DBStatement(hop.operation, hop.service))
                       && s.httpMethod == None && s.httpUrl == None && s.httpStatus == None)
      && (!hop.isDB ==> && s.dbType == None && s.dbInstance == None && s.dbStatement == None
                        && s.httpMethod.Some? && s.httpUrl.Some? && ':' !in s.httpMethod.value
                        && s.httpMethod.value + ":" + s.httpUrl.value == hop.operation
                        && s.httpStatus.Some?
                        && (s.httpStatus == Some(200) <==> !IsErrorDraw(Intn(d.rn, 100)))
                        && 200 <= s.httpStatus.value <= 503
                        && (IsErrorDraw(Intn(d.rn, 100)) ==> 500 <= s.httpStatus.value))
      && (s.errorLog.Some? <==> IsErrorDraw(Intn(d.rn, 100)))
      && (s.errorLog.Some? ==> s.errorLog.value == ErrorLog(ErrorMessage(hop.service), d.errorWords))
      && s.finishes == if i > 0 then [d.issuedAt + latency] else []
  {
  }

  /**
   * The latency update at the end of every hop: the total is the hop's
   * latency plus the larger of the previous total and the hop's pause; the
   * pause is added to the slept latency, twice when it exceeded the total.
   */
  function Compose(total: Duration, slept: Duration, fake: Duration, paused: Duration): (r: (Duration, Duration))
    ensures r.0 == fake + (if total < paused then paused else total)
    ensures r.1 == slept + paused + (if total < paused then paused else 0)
  {
    var total' := total + fake;
    var slept' := slept + paused;
    if total' < fake + paused then (fake + paused, slept' + paused) else (total', slept')
  }

  function Sum(s: seq<int>): int
    decreases |s|
  {
    if s == [] then 0 else Sum(s[..|s| - 1]) + s[|s| - 1]
  }

  /** (totalLatency, sleptLatency) after composing the hops with these latencies and pauses. */
  function Fold(lats: seq<Duration>, pauses: seq<Duration>): (Duration, Duration)
    requires |lats| == |pauses|
    decreases |lats|
  {
    if lats == [] then (0, 0)
    else
      var n := |lats| - 1;
      var prev := Fold(lats[..n], pauses[..n]);
      Compose(prev.0, prev.1, lats[n], pauses[n])
  }

  predicate NonNegative(s: seq<int>) {
    forall j :: 0 <= j < |s| ==> 0 <= s[j]
  }

  /**
   * The total is at least the sum of the latencies and at most that plus
   * the sum of the pauses; the slept latency is between the sum of the
   * pauses and twice that.
   */
  lemma {:induction false} FoldBounds(lats: seq<Duration>, pauses: seq<Duration>)
    requires |lats| == |pauses| && NonNegative(lats) && NonNegative(pauses)
    ensures Sum(lats) <= Fold(lats, pauses).0 <= Sum(lats) + Sum(pauses)
    ensures Sum(pauses) <= Fold(lats, pauses).1 <= 2 * Sum(pauses)
    ensures 0 <= Fold(lats, pauses).0 && 0 <= Fold(lats, pauses).1
  {
    if lats != [] {
      var n := |lats| - 1;
      assert NonNegative(lats[..n]) && NonNegative(pauses[..n]) by {
        forall j | 0 <= j < n ensures lats[..n][j] == lats[j] && pauses[..n][j] == pauses[j] { }
      }
      FoldBounds(lats[..n], pauses[..n]);
    }
  }

  /** The total never decreases: composing more hops gives at least the total of fewer. */
  lemma {:induction false} FoldMonotone(lats: seq<Duration>, pauses: seq<Duration>, k: nat)
    requires |lats| == |pauses| && NonNegative(lats) && k <= |lats|
    ensures Fold(lats[..k], pauses[..k]).0 <= Fold(lats, pauses).0
    ensures Fold(lats[..k], pauses[..k]).1 <= Fold(lats, pauses).1 || !NonNegative(pauses)
    decreases |lats|
  {
    if k < |lats| {
      var n := |lats| - 1;
      assert NonNegative(lats[..n]) by {
        forall j | 0 <= j < n ensures lats[..n][j] == lats[j] { }
      }
      assert lats[..n][..k] == lats[..k] && pauses[..n][..k] == pauses[..k];
      if NonNegative(pauses) {
        assert NonNegative(pauses[..n]) by {
          forall j | 0 <= j < n ensures pauses[..n][j] == pauses[j] { }
        }
      }
      FoldMonotone(lats[..n], pauses[..n], k);
    } else {
      assert lats[..k] == lats && pauses[..k] == pauses;
    }
  }

  /**
   * Hop j's latency plus the pauses up to and including hop j never exceed
   * the final total plus slept latency.
   */
  lemma {:induction false} FoldCoversHop(lats: seq<Duration>, pauses: seq<Duration>, j: nat)
    requires |lats| == |pauses| && NonNegative(lats) && NonNegative(pauses) && j < |lats|
    ensures lats[j] + Sum(pauses[..j + 1]) <= Fold(lats, pauses).0 + Fold(lats, pauses).1
    decreases |lats|
  {
    var n := |lats| - 1;
    assert NonNegative(lats[..n]) && NonNegative(pauses[..n]) by {
      forall i | 0 <= i < n ensures lats[..n][i] == lats[i] && pauses[..n][i] == pauses[i] { }
    }
    FoldBounds(lats[..n], pauses[..n]);
    if j == n {
      assert pauses[..j + 1] == pauses && pauses[..j + 1][..j] == pauses[..n];
    } else {
      assert lats[..n][j] == lats[j] && pauses[..n][..j + 1] == pauses[..j + 1];
      FoldCoversHop(lats[..n], pauses[..n], j);
    }
  }

  /** fakeSpanDuration of the hop. */
  function Latency(d: HopDraws): (l: Duration)
    ensures 0 <= l <= 108 * Millisecond
  {
    FakeSpanDuration(d.latencyLow, d.latencyHigh)
  }

  /** The pause of hop i: none for the first hop, fakePausedDuration of the latency after it. */
  function Pause(d: HopDraws, i: nat): (p: Duration)
    ensures 0 <= p <= Latency(d) + 2 * Millisecond
    ensures i == 0 ==> p == 0
  {
    if i > 0 then FakePausedDuration(Latency(d), d.pause) else 0
  }

  /** The latency of every hop. */
  function Latencies(draws: seq<HopDraws>): (r: seq<Duration>)
    ensures |r| == |draws|
    decreases |draws|
  {
    if draws == [] then [] else Latencies(draws[..|draws| - 1]) + [Latency(draws[|draws| - 1])]
  }

  lemma {:induction false} LatenciesAt(draws: seq<HopDraws>, j: nat)
    requires j < |draws|
    ensures Latencies(draws)[j] == Latency(draws[j])
    decreases |draws|
  {
    var n := |draws| - 1;
    if j < n {
      LatenciesAt(draws[..n], j);
    }
  }

  /** The pause of every hop. */
  function Pauses(draws: seq<HopDraws>): (r: seq<Duration>)
    ensures |r| == |draws|
    decreases |draws|
  {
    if draws == [] then [] else Pauses(draws[..|draws| - 1]) + [Pause(draws[|draws| - 1], |draws| - 1)]
  }

  lemma {:induction false} PausesAt(draws: seq<HopDraws>, j: nat)
    requires j < |draws|
    ensures Pauses(draws)[j] == Pause(draws[j], j)
    decreases |draws|
  {
    var n := |draws| - 1;
    if j < n {
      PausesAt(draws[..n], j);
    }
  }

  /** No hop has a negative latency or pause. */
  lemma TimesNonNegative(draws: seq<HopDraws>)
    ensures NonNegative(Latencies(draws)) && NonNegative(Pauses(draws))
  {
    forall j | 0 <= j < |draws|
      ensures 0 <= Latencies(draws)[j] && 0 <= Pauses(draws)[j]
    {
      LatenciesAt(draws, j);
      PausesAt(draws, j);
    }
  }

  /** The loop variables of fakeTraces. */
  datatype ChainState = ChainState(
    total: Duration,        // totalLatency
    slept: Duration,        // sleptLatency
    parent: Context,        // parentCtx
    root: Option<nat>,      // rootSpan
    log: seq<SpanRecord>)   // the spans started so far

  /**
   * What the loop of one chain works through, computed from the draws up
   * front: each hop's classification, its span (all but the parent, which
   * depends on the hops before), its latency and its pause.
   */
  datatype Plan = Plan(hops: seq<Hop>, spans: seq<SpanRecord>, lats: seq<Duration>, pauses: seq<Duration>)

  predicate PlanOk(p: Plan) {
    |p.spans| == |p.hops| && |p.lats| == |p.hops| && |p.pauses| == |p.hops|
  }

  /** One pass of the loop body, for hop i. */
  function Step(st: ChainState, p: Plan, i: nat): ChainState
    requires PlanOk(p) && i < |p.hops|
  {
    var hop := p.hops[i];
    var id := |st.log|;
    var times := Compose(st.total, st.slept, p.lats[i], p.pauses[i]);
    ChainState(times.0, times.1,
               if hop.isDB then st.parent else SpanContext(id),
               if !hop.isDB && i == 0 then Some(id) else st.root,
               st.log + [p.spans[i].(parent := st.parent)])
  }

  /** The loop variables after the first k hops. */
  function Run(s0: ChainState, p: Plan, k: nat): ChainState
    requires PlanOk(p) && k <= |p.hops|
    decreases k
  {
    if k == 0 then s0 else Step(Run(s0, p, k - 1), p, k - 1)
  }

  /** A step appends exactly one span to the log. */
  lemma StepAppends(st: ChainState, p: Plan, i: nat)
    requires PlanOk(p) && i < |p.hops|
    ensures var next := Step(st, p, i).log;
            |next| == |st.log| + 1 && next[..|st.log|] == st.log
  {
  }

  lemma PrefixOfPrefix(a: seq<SpanRecord>, b: seq<SpanRecord>, n: nat)
    requires n <= |a| <= |b| && b[..|a|] == a
    ensures b[..n] == a[..n]
  {
    assert b[..n] == b[..|a|][..n];
  }

  /** Every hop appends one span and changes none before it. */
  lemma {:induction false} RunLog(s0: ChainState, p: Plan, m: nat, k: nat)
    requires PlanOk(p) && m <= k <= |p.hops|
    ensures |Run(s0, p, k).log| == |s0.log| + k
    ensures Run(s0, p, k).log[..|s0.log| + m] == Run(s0, p, m).log
    decreases k
  {
    if k > 0 {
      var prev := Run(s0, p, k - 1);
      StepAppends(prev, p, k - 1);
      if m < k {
        RunLog(s0, p, m, k - 1);
        PrefixOfPrefix(prev.log, Run(s0, p, k).log, |s0.log| + m);
      } else {
        RunLog(s0, p, m - 1, k - 1);
      }
    }
  }

  /** The span of hop j is the one built from hop j's classification, draws and parent. */
  lemma {:induction false} RunSpan(s0: ChainState, p: Plan, k: nat, j: nat)
    requires PlanOk(p) && j < k <= |p.hops|
    ensures |s0.log| + j < |Run(s0, p, k).log|
    ensures Run(s0, p, k).log[|s0.log| + j] == p.spans[j].(parent := Run(s0, p, j).parent)
  {
    RunLog(s0, p, k, k);
    if k == j + 1 {
      RunLog(s0, p, j, j);
    } else {
      RunSpan(s0, p, k - 1, j);
      RunLog(s0, p, k - 1, k - 1);
      StepKeeps(Run(s0, p, k - 1), p, k - 1, |s0.log| + j);
    }
  }

  lemma StepKeeps(st: ChainState, p: Plan, i: nat, n: nat)
    requires PlanOk(p) && i < |p.hops| && n < |st.log|
    ensures Step(st, p, i).log[n] == st.log[n]
  {
  }

  /** The last hop before k that is not a database hop, if any. */
  function LastPlain(hops: seq<Hop>, k: nat): (r: Option<nat>)
    requires k <= |hops|
    ensures r.None? ==> forall m :: 0 <= m < k ==> hops[m].isDB
    ensures r.Some? ==> r.value < k && !hops[r.value].isDB && forall q :: r.value < q < k ==> hops[q].isDB
  {
    if k == 0 then None else if !hops[k - 1].isDB then Some(k - 1) else LastPlain(hops, k - 1)
  }

  /**
   * parentCtx after k hops: the context of the last non-database hop among
   * them, or the incoming context when all of them are database hops.
   */
  lemma {:induction false} RunParent(s0: ChainState, p: Plan, k: nat)
    requires PlanOk(p) && k <= |p.hops|
    ensures Run(s0, p, k).parent == match LastPlain(p.hops, k)
                                    case None => s0.parent
                                    case Some(m) => SpanContext(|s0.log| + m)
  {
    if k > 0 {
      RunParent(s0, p, k - 1);
      RunLog(s0, p, k - 1, k - 1);
    }
  }

  /** With no root yet, the first hop, when it is not a database hop, becomes rootSpan for good. */
  lemma {:induction false} RunRoot(s0: ChainState, p: Plan, k: nat)
    requires PlanOk(p) && 0 < k <= |p.hops|
    requires s0.root == None && !p.hops[0].isDB
    ensures Run(s0, p, k).root == Some(|s0.log|)
  {
    if k > 1 {
      RunRoot(s0, p, k - 1);
    }
  }

  /** From zero latencies, the latencies after k hops are the fold of the first k hops. */
  lemma {:induction false} RunTimes(s0: ChainState, p: Plan, k: nat)
    requires PlanOk(p) && k <= |p.hops|
    requires s0.total == 0 && s0.slept == 0
    ensures (Run(s0, p, k).total, Run(s0, p, k).slept) == Fold(p.lats[..k], p.pauses[..k])
  {
    if k > 0 {
      RunTimes(s0, p, k - 1);
      assert p.lats[..k][..k - 1] == p.lats[..k - 1];
      assert p.pauses[..k][..k - 1] == p.pauses[..k - 1];
    }
  }

  /** The loop variables before the first hop. */
  function InitialState(parentCtx: Context, log: seq<SpanRecord>): ChainState {
    ChainState(0, 0, parentCtx, None, log)
  }

  /** What fakeTraces relies on: see ApisOk; one draw record per hop; a first service that is not a database hop. */
  predicate ChainOk(services: seq<string>, serviceApis: seq<string>, draws: seq<HopDraws>) {
    ApisOk(serviceApis) && |draws| == |services| && |services| > 0 && !IsDBName(services[0])
  }

  /** The tracer of a chain: fakeTracer of its first (unstripped) service name. */
  function ChainTracer(services: seq<string>): Tracer
    requires |services| > 0
  {
    TracerFor(services[0])
  }

  /** The classification of every hop of a chain. */
  function Hops(services: seq<string>, serviceApis: seq<string>, draws: seq<HopDraws>): (r: seq<Hop>)
    requires |serviceApis| > 0 && |draws| == |services|
    ensures |r| == |services|
    decreases |services|
  {
    if services == [] then []
    else
      var n := |services| - 1;
      Hops(services[..n], serviceApis, draws[..n]) + [Classify(services[n], serviceApis, draws[n])]
  }

  lemma {:induction false} HopsAt(services: seq<string>, serviceApis: seq<string>, draws: seq<HopDraws>, j: nat)
    requires |serviceApis| > 0 && |draws| == |services| && j < |services|
    ensures Hops(services, serviceApis, draws)[j] == Classify(services[j], serviceApis, draws[j])
    decreases |services|
  {
    var n := |services| - 1;
    if j < n {
      HopsAt(services[..n], serviceApis, draws[..n], j);
    }
  }

  /** Every non-database hop has an API of the form method:path. */
  predicate OperationsOk(hops: seq<Hop>) {
    forall j :: 0 <= j < |hops| && !hops[j].isDB ==> ':' in hops[j].operation
  }

  lemma HopsOperationsOk(services: seq<string>, serviceApis: seq<string>, draws: seq<HopDraws>)
    requires ApisOk(serviceApis) && |draws| == |services|
    ensures OperationsOk(Hops(services, serviceApis, draws))
  {
    forall j | 0 <= j < |services|
      ensures var h := Hops(services, serviceApis, draws)[j]; !h.isDB ==> ':' in h.operation
    {
      HopsAt(services, serviceApis, draws, j);
    }
  }

  /** HopSpan of every hop of a chain. */
  function HopSpans(tracer: Tracer, hops: seq<Hop>, draws: seq<HopDraws>): (r: seq<SpanRecord>)
    requires |draws| == |hops| && OperationsOk(hops)
    ensures |r| == |hops|
    decreases |hops|
  {
    if hops == [] then []
    else
      var n := |hops| - 1;
      assert OperationsOk(hops[..n]) by {
        forall j | 0 <= j < n ensures hops[..n][j] == hops[j] { }
      }
      HopSpans(tracer, hops[..n], draws[..n]) + [HopSpan(tracer, hops[n], n, draws[n], Latency(draws[n]))]
  }

  lemma {:induction false} HopSpansAt(tracer: Tracer, hops: seq<Hop>, draws: seq<HopDraws>, j: nat)
    requires |draws| == |hops| && OperationsOk(hops) && j < |hops|
    ensures HopSpans(tracer, hops, draws)[j] == HopSpan(tracer, hops[j], j, draws[j], Latency(draws[j]))
    decreases |hops|
  {
    var n := |hops| - 1;
    if j == n {
      HopSpansLast(tracer, hops, draws);
    } else {
      HopSpansPrefix(tracer, hops, draws);
      HopSpansAt(tracer, hops[..n], draws[..n], j);
      assert hops[..n][j] == hops[j] && draws[..n][j] == draws[j];
    }
  }

  lemma HopSpansLast(tracer: Tracer, hops: seq<Hop>, draws: seq<HopDraws>)
    requires |draws| == |hops| && OperationsOk(hops) && 0 < |hops|
    ensures var n := |hops| - 1;
            HopSpans(tracer, hops, draws)[n] == HopSpan(tracer, hops[n], n, draws[n], Latency(draws[n]))
  {
  }

  lemma HopSpansPrefix(tracer: Tracer, hops: seq<Hop>, draws: seq<HopDraws>)
    requires |draws| == |hops| && OperationsOk(hops) && 0 < |hops|
    ensures var n := |hops| - 1;
            OperationsOk(hops[..n]) &&
            HopSpans(tracer, hops, draws)[..n] == HopSpans(tracer, hops[..n], draws[..n])
  {
    var n := |hops| - 1;
    assert OperationsOk(hops[..n]) by {
      forall i | 0 <= i < n ensures hops[..n][i] == hops[i] { }
    }
  }

  /** What the loop of a chain works through: see Plan. */
  function ChainPlan(services: seq<string>, serviceApis: seq<string>, draws: seq<HopDraws>): (p: Plan)
    requires ChainOk(services, serviceApis, draws)
    ensures |p.hops| == |services| && PlanOk(p) && !p.hops[0].isDB
  {
    var hops := Hops(services, serviceApis, draws);
    HopsOperationsOk(services, serviceApis, draws);
    HopsAt(services, serviceApis, draws, 0);
    Plan(hops, HopSpans(ChainTracer(services), hops, draws), Latencies(draws), Pauses(draws))
  }

  /** What fakeTraces returns: the two latencies, and the span log with the chain's spans appended. */
  datatype ChainResult = ChainResult(totalLatency: Duration, sleptLatency: Duration, log: seq<SpanRecord>)

  /** A plan the loop can run: at least one hop, the first not a database hop. */
  predicate Runnable(p: Plan) {
    PlanOk(p) && 0 < |p.hops| && !p.hops[0].isDB
  }

  /**
   * fakeTraces as a function of its plan: run the loop over all hops from
   * zero latencies and the incoming context, then finish rootSpan at the
   * chain's start plus totalLatency plus sleptLatency.
   */
  function FakeTracesSpec(log: seq<SpanRecord>, parentCtx: Context, p: Plan, rootIssuedAt: Instant): ChainResult
    requires Runnable(p)
  {
    var s0 := InitialState(parentCtx, log);
    var st := Run(s0, p, |p.hops|);
    RunRoot(s0, p, |p.hops|);
    RunLog(s0, p, 0, |p.hops|);
    ChainResult(st.total, st.slept, Finish(st.log, st.root.value, rootIssuedAt + st.total + st.slept))
  }

  /** Exactly one span per hop is appended; the spans before are untouched. */
  lemma ChainSpanCount(log: seq<SpanRecord>, parentCtx: Context, p: Plan, rootIssuedAt: Instant)
    requires Runnable(p)
    ensures var r := FakeTracesSpec(log, parentCtx, p, rootIssuedAt);
            |r.log| == |log| + |p.hops| && r.log[..|log|] == log
  {
    var s0 := InitialState(parentCtx, log);
    RunLog(s0, p, |p.hops|, |p.hops|);
    RunLog(s0, p, 0, |p.hops|);
    RunRoot(s0, p, |p.hops|);
    var r := FakeTracesSpec(log, parentCtx, p, rootIssuedAt);
    assert r.log[..|log|] == Run(s0, p, |p.hops|).log[..|log|];
  }

  /**
   * The chain's first span is the planned span of the first hop, a child of
   * the incoming context, with one more finish: at the chain start plus
   * total plus slept latency.
   */
  lemma ChainRootSpan(log: seq<SpanRecord>, parentCtx: Context, p: Plan, rootIssuedAt: Instant)
    requires Runnable(p)
    ensures var r := FakeTracesSpec(log, parentCtx, p, rootIssuedAt);
            && |log| < |r.log|
            && r.log[|log|] == p.spans[0].(parent := parentCtx,
                                           finishes := p.spans[0].finishes + [rootIssuedAt + r.totalLatency + r.sleptLatency])
  {
    var s0 := InitialState(parentCtx, log);
    RunLog(s0, p, |p.hops|, |p.hops|);
    RunRoot(s0, p, |p.hops|);
    RunSpan(s0, p, |p.hops|, 0);
  }

  /**
   * The parent of hop j's span: the span of the last non-database hop
   * before it, or the incoming context when there is none.
   */
  function HopParent(log: seq<SpanRecord>, parentCtx: Context, hops: seq<Hop>, j: nat): Context
    requires j <= |hops|
  {
    match LastPlain(hops, j)
    case None => parentCtx
    case Some(m) => SpanContext(|log| + m)
  }

  /** The span of hop j > 0 is its planned span, made a child of HopParent and not finished again. */
  lemma ChainHopSpan(log: seq<SpanRecord>, parentCtx: Context, p: Plan, rootIssuedAt: Instant, j: nat)
    requires Runnable(p) && 0 < j < |p.hops|
    ensures var r := FakeTracesSpec(log, parentCtx, p, rootIssuedAt);
            && |log| + j < |r.log|
            && r.log[|log| + j] == p.spans[j].(parent := HopParent(log, parentCtx, p.hops, j))
  {
    var s0 := InitialState(parentCtx, log);
    RunLog(s0, p, |p.hops|, |p.hops|);
    RunRoot(s0, p, |p.hops|);
    RunSpan(s0, p, |p.hops|, j);
    RunParent(s0, p, j);
  }

  /** HopParent is the last non-database hop before j, or the incoming context. */
  lemma HopParentIsLastPlain(log: seq<SpanRecord>, parentCtx: Context, hops: seq<Hop>, j: nat)
    requires j <= |hops|
    ensures (forall m :: 0 <= m < j ==> hops[m].isDB) ==> HopParent(log, parentCtx, hops, j) == parentCtx
    ensures forall m :: 0 <= m < j && !hops[m].isDB && (forall q :: m < q < j ==> hops[q].isDB) ==>
              HopParent(log, parentCtx, hops, j) == SpanContext(|log| + m)
  {
  }

  /**
   * Each hop's span is a child of the last non-database hop before it, or
   * of the incoming context when there is none; hop 0's is the incoming one.
   */
  lemma ChainParents(log: seq<SpanRecord>, parentCtx: Context, p: Plan, rootIssuedAt: Instant, j: nat)
    requires Runnable(p) && j < |p.hops|
    ensures var r := FakeTracesSpec(log, parentCtx, p, rootIssuedAt);
            && |log| + j < |r.log|
            && ((forall m :: 0 <= m < j ==> p.hops[m].isDB) ==> r.log[|log| + j].parent == parentCtx)
            && (forall m :: 0 <= m < j && !p.hops[m].isDB && (forall q :: m < q < j ==> p.hops[q].isDB) ==>
                  r.log[|log| + j].parent == SpanContext(|log| + m))
  {
    if j == 0 {
      ChainRootSpan(log, parentCtx, p, rootIssuedAt);
    } else {
      ChainHopSpan(log, parentCtx, p, rootIssuedAt, j);
      HopParentIsLastPlain(log, parentCtx, p.hops, j);
    }
  }

  /** The returned latencies are the composition fold over the planned latencies and pauses. */
  lemma ChainLatency(log: seq<SpanRecord>, parentCtx: Context, p: Plan, rootIssuedAt: Instant)
    requires Runnable(p)
    ensures var r := FakeTracesSpec(log, parentCtx, p, rootIssuedAt);
            (r.totalLatency, r.sleptLatency) == Fold(p.lats, p.pauses)
  {
    RunTimes(InitialState(parentCtx, log), p, |p.hops|);
    assert p.lats[..|p.hops|] == p.lats;
    assert p.pauses[..|p.hops|] == p.pauses;
  }

  /** The hop of position j of a chain's plan is the classification of its service. */
  lemma ChainPlanHop(services: seq<string>, serviceApis: seq<string>, draws: seq<HopDraws>, j: nat)
    requires ChainOk(services, serviceApis, draws) && j < |services|
    ensures ChainPlan(services, serviceApis, draws).hops[j] == Classify(services[j], serviceApis, draws[j])
  {
    HopsAt(services, serviceApis, draws, j);
  }

  /** The planned span of hop j is HopSpan of its classification, draws and latency, under the chain's tracer. */
  lemma ChainPlanSpan(services: seq<string>, serviceApis: seq<string>, draws: seq<HopDraws>, j: nat)
    requires ChainOk(services, serviceApis, draws) && j < |services|
    ensures ChainPlan(services, serviceApis, draws).spans[j]
            == HopSpan(ChainTracer(services), Classify(services[j], serviceApis, draws[j]), j, draws[j], Latency(draws[j]))
  {
    HopsOperationsOk(services, serviceApis, draws);
    HopsAt(services, serviceApis, draws, j);
    HopSpansAt(ChainTracer(services), Hops(services, serviceApis, draws), draws, j);
  }

  /** The planned span of hop j > 0 is finished at its start plus its latency; hop 0's is not finished yet. */
  lemma ChainPlanFinishes(services: seq<string>, serviceApis: seq<string>, draws: seq<HopDraws>, j: nat)
    requires ChainOk(services, serviceApis, draws) && j < |services|
    ensures ChainPlan(services, serviceApis, draws).spans[j].finishes
            == if j > 0 then [draws[j].issuedAt + Latency(draws[j])] else []
  {
    ChainPlanSpan(services, serviceApis, draws, j);
  }

  /** The planned latency and pause of hop j are fakeSpanDuration and fakePausedDuration of its draws. */
  lemma ChainPlanTimes(services: seq<string>, serviceApis: seq<string>, draws: seq<HopDraws>, j: nat)
    requires ChainOk(services, serviceApis, draws) && j < |services|
    ensures var p := ChainPlan(services, serviceApis, draws);
            p.lats[j] == Latency(draws[j]) && p.pauses[j] == Pause(draws[j], j)
  {
    LatenciesAt(draws, j);
    PausesAt(draws, j);
  }

  /** Only hop 0's span is finished after the loop, at the chain start plus total plus slept latency. */
  lemma ChainSpanFinishes(log: seq<SpanRecord>, parentCtx: Context, p: Plan, rootIssuedAt: Instant, j: nat)
    requires Runnable(p) && j < |p.hops|
    requires p.spans[0].finishes == []
    ensures var r := FakeTracesSpec(log, parentCtx, p, rootIssuedAt);
            && |log| + j < |r.log|
            && r.log[|log| + j].finishes
               == if j == 0 then [rootIssuedAt + r.totalLatency + r.sleptLatency] else p.spans[j].finishes
  {
    if j == 0 {
      ChainRootSpan(log, parentCtx, p, rootIssuedAt);
    } else {
      ChainHopSpan(log, parentCtx, p, rootIssuedAt, j);
    }
  }

  /**
   * The latencies a chain returns: the total is at least the sum of the hop
   * latencies and at most that plus the sum of the pauses, the slept latency
   * between the sum of the pauses and twice that; a one-hop chain returns
   * its latency and no slept time.
   */
  lemma ChainLatencyBounds(log: seq<SpanRecord>, parentCtx: Context, services: seq<string>,
                           serviceApis: seq<string>, draws: seq<HopDraws>, rootIssuedAt: Instant)
    requires ChainOk(services, serviceApis, draws)
    ensures var r := FakeTracesSpec(log, parentCtx, ChainPlan(services, serviceApis, draws), rootIssuedAt);
            && Sum(Latencies(draws)) <= r.totalLatency <= Sum(Latencies(draws)) + Sum(Pauses(draws))
            && Sum(Pauses(draws)) <= r.sleptLatency <= 2 * Sum(Pauses(draws))
            && 0 <= r.totalLatency && 0 <= r.sleptLatency
            && (|services| == 1 ==> r.totalLatency == Latency(draws[0]) && r.sleptLatency == 0)
  {
    var p := ChainPlan(services, serviceApis, draws);
    ChainLatency(log, parentCtx, p, rootIssuedAt);
    TimesNonNegative(draws);
    FoldBounds(p.lats, p.pauses);
    if |services| == 1 {
      ChainPlanTimes(services, serviceApis, draws, 0);
      FoldFirst(p.lats, p.pauses);
      assert p.lats[..1] == p.lats && p.pauses[..1] == p.pauses;
    }
  }

  /** After the first hop, whose pause is zero, the total is that hop's latency and nothing was slept. */
  lemma FoldFirst(lats: seq<Duration>, pauses: seq<Duration>)
    requires |lats| == |pauses| && 0 < |lats| && 0 <= lats[0] && pauses[0] == 0
    ensures Fold(lats[..1], pauses[..1]) == (lats[0], 0)
  {
    assert lats[..1][..0] == [] && pauses[..1][..0] == [];
  }

  /**
   * Timestamps are consistent under an ideal clock: when hop j is issued
   * no later than the chain start plus the pauses slept up to it, it does
   * not finish after the chain's first span.
   */
  lemma ChainRootFinishesLast(log: seq<SpanRecord>, parentCtx: Context, services: seq<string>,
                              serviceApis: seq<string>, draws: seq<HopDraws>, rootIssuedAt: Instant, j: nat)
    requires ChainOk(services, serviceApis, draws) && 0 < j < |services|
    requires draws[j].issuedAt <= rootIssuedAt + Sum(Pauses(draws)[..j + 1])
    ensures var r := FakeTracesSpec(log, parentCtx, ChainPlan(services, serviceApis, draws), rootIssuedAt);
            && |log| + j < |r.log|
            && |r.log[|log| + j].finishes| == 1 && |r.log[|log|].finishes| == 1
            && r.log[|log| + j].finishes[0] <= r.log[|log|].finishes[0]
  {
    var p := ChainPlan(services, serviceApis, draws);
    ChainPlanFinishes(services, serviceApis, draws, 0);
    ChainSpanFinishes(log, parentCtx, p, rootIssuedAt, 0);
    ChainPlanFinishes(services, serviceApis, draws, j);
    ChainSpanFinishes(log, parentCtx, p, rootIssuedAt, j);
    ChainLatency(log, parentCtx, p, rootIssuedAt);
    TimesNonNegative(draws);
    FoldCoversHop(p.lats, p.pauses, j);
    LatenciesAt(draws, j);
  }

  /**
   * The switch on the service name at the top of the loop body: the API is
   * drawn from serviceApis and, for a database flavour, replaced by one of
   * its table's operations, the name by the flavour.
   */
  method ResolveService(name: string, serviceApis: seq<string>, d: HopDraws)
    returns (chainedService: string, fakeApi: string, isFakeDB: bool)
    requires |serviceApis| > 0
    ensures Hop(chainedService, fakeApi, isFakeDB) == Classify(name, serviceApis, d)
  {
    chainedService := name;
    fakeApi := serviceApis[Intn(d.api, |serviceApis|)];
    isFakeDB := false;
    if HasPrefix(chainedService, "redis-") {
      isFakeDB := true;
      chainedService := "redis";
      fakeApi := RedisApis[Intn(d.dbApi, |RedisApis|)];
    } else if HasPrefix(chainedService, "mysql-") {
      isFakeDB := true;
      chainedService := "mysql";
      fakeApi := MysqlApis[Intn(d.dbApi, |MysqlApis|)];
    }
  }

  /**
   * The if on isFakeDB of the loop body and the peer tags: draw the pause
   * (hops after the first), start hop i's span under ctx and tag it.
   */
  method StartHop(tracer: Tracer, hop: Hop, i: nat, ctx: Context, d: HopDraws, fakeLatency: Duration)
    returns (childSpan: SpanRecord, pausedLatency: Duration)
    requires (!hop.isDB ==> ':' in hop.operation) && fakeLatency == Latency(d)
    ensures childSpan == TaggedSpan(tracer, hop, i, d).(parent := ctx)
    ensures pausedLatency == Pause(d, i)
  {
    pausedLatency := 0;
    if !hop.isDB {
      if i > 0 {
        pausedLatency := pausedLatency + FakePausedDuration(fakeLatency, d.pause);
        childSpan := StartSpan(tracer, hop.operation, ctx, d.issuedAt).(kind := Some(RPCClient));
      } else {
        childSpan := StartSpan(tracer, hop.operation, ctx, d.issuedAt).(kind := Some(RPCServer));
      }
      var methodToPath := SplitN2(hop.operation, ':');
      childSpan := childSpan.(httpMethod := Some(methodToPath[0]), httpUrl := Some(methodToPath[1]));
    } else {
      if i > 0 {
        pausedLatency := pausedLatency + FakePausedDuration(fakeLatency, d.pause);
      }
      childSpan := StartSpan(tracer, hop.operation, ctx, d.issuedAt).(kind := Some(RPCClient));
      childSpan := childSpan.(dbType := Some(hop.service), dbInstance := Some(d.dbInstance),
                              dbStatement := Some(DBStatement(hop.operation, hop.service)));
    }
    childSpan := childSpan.(peerService := Some(hop.service), peerIPv4 := Some(FakeIP(d.peerIP)));
  }

  /** The switch on rn = rand.Intn(100) of the loop body. */
  method MarkHop(childSpan: SpanRecord, hop: Hop, d: HopDraws) returns (marked: SpanRecord)
    ensures marked == MarkedSpan(childSpan, hop, d)
  {
    marked := childSpan;
    var rn := Intn(d.rn, 100);
    if IsErrorDraw(rn) {
      if !hop.isDB {
        marked := marked.(httpStatus := Some(500 + Intn(d.status, 4)));
      }
      marked := marked.(errorLog := Some(ErrorLog(ErrorMessage(hop.service), d.errorWords)));
    } else if !hop.isDB {
      marked := marked.(httpStatus := Some(200));
    }
  }

  /**
   * Append the child span to the log and, for a hop after the first,
   * finish it at once at the given instant.
   */
  method AppendChild(spans: seq<SpanRecord>, childSpan: SpanRecord, i: nat, at: Instant)
    returns (spans': seq<SpanRecord>)
    ensures spans' == spans + [childSpan.(finishes := childSpan.finishes + if i > 0 then [at] else [])]
  {
    var childId := |spans|;
    spans' := spans + [childSpan];
    if i > 0 {
      spans' := Finish(spans', childId, at);
      assert spans'[childId] == childSpan.(finishes := childSpan.finishes + [at]);
      assert spans'[..childId] == spans;
    } else {
      assert childSpan.finishes + [] == childSpan.finishes;
    }
  }

  /** The latency update at the end of the loop body. */
  method AddLatency(totalLatency: Duration, sleptLatency: Duration, fakeLatency: Duration, pausedLatency: Duration)
    returns (totalLatency': Duration, sleptLatency': Duration)
    ensures (totalLatency', sleptLatency') == Compose(totalLatency, sleptLatency, fakeLatency, pausedLatency)
  {
    totalLatency', sleptLatency' := totalLatency + fakeLatency, sleptLatency + pausedLatency;
    if totalLatency' < fakeLatency + pausedLatency {
      totalLatency' := fakeLatency + pausedLatency;
      sleptLatency' := sleptLatency' + pausedLatency;
    }
  }

  /**
   * Marking a span that has no finishing instant yet, then setting its
   * finishing instants and its parent, is marking it under the parent and
   * then finishing it.
   */
  lemma ReparentMarked(t: SpanRecord, hop: Hop, d: HopDraws, ctx: Context, f: seq<Instant>)
    requires t.finishes == []
    ensures var m := MarkedSpan(t.(parent := ctx), hop, d);
            MarkedSpan(t, hop, d).(finishes := f).(parent := ctx) == m.(finishes := m.finishes + f)
  {
    MarkedSpanFields(t, hop, d, ctx);
    MarkedSpanFields(t.(parent := ctx), hop, d, ctx);
    assert [] + f == f;
  }

  /** The span the loop body appends for hop i is HopSpan under the current context. */
  lemma HopSpanReparented(tracer: Tracer, hop: Hop, i: nat, d: HopDraws, ctx: Context, marked: SpanRecord)
    requires !hop.isDB ==> ':' in hop.operation
    requires marked == MarkedSpan(TaggedSpan(tracer, hop, i, d).(parent := ctx), hop, d)
    ensures HopSpan(tracer, hop, i, d, Latency(d)).(parent := ctx)
            == marked.(finishes := marked.finishes + if i > 0 then [d.issuedAt + Latency(d)] else [])
  {
    var t := TaggedSpan(tracer, hop, i, d);
    var f := if i > 0 then [d.issuedAt + Latency(d)] else [];
    assert HopSpan(tracer, hop, i, d, Latency(d)) == MarkedSpan(t, hop, d).(finishes := f);
    assert t.finishes == [];
    ReparentMarked(t, hop, d, ctx, f);
  }

  /**
   * One pass of the loop body of fakeTraces, for hop i with the draws d:
   * the hop's span, tagged and marked, is appended under the current
   * context (and finished when i > 0); a non-database hop becomes the
   * context of the hops after it, and rootSpan when it is the first one;
   * the latencies are composed with the hop's latency and pause.
   */
  method ChainStep(tracer: Tracer, chainedService: string, serviceApis: seq<string>, i: nat, d: HopDraws,
                   totalLatency: Duration, sleptLatency: Duration, ctx: Context,
                   rootSpan: Option<nat>, spans: seq<SpanRecord>)
    returns (totalLatency': Duration, sleptLatency': Duration, ctx': Context,
             rootSpan': Option<nat>, spans': seq<SpanRecord>)
    requires ApisOk(serviceApis)
    ensures var h := Classify(chainedService, serviceApis, d);
            && ctx' == (if h.isDB then ctx else SpanContext(|spans|))
            && rootSpan' == (if !h.isDB && i == 0 then Some(|spans|) else rootSpan)
            && spans' == spans + [HopSpan(tracer, h, i, d, Latency(d)).(parent := ctx)]
            && (totalLatency', sleptLatency') == Compose(totalLatency, sleptLatency, Latency(d), Pause(d, i))
  {
    var name, fakeApi, isFakeDB := ResolveService(chainedService, serviceApis, d);
    var hop := Hop(name, fakeApi, isFakeDB);
    var fakeLatency := FakeSpanDuration(d.latencyLow, d.latencyHigh);
    var childSpan, pausedLatency := StartHop(tracer, hop, i, ctx, d, fakeLatency);
    childSpan := MarkHop(childSpan, hop, d);
    HopSpanReparented(tracer, hop, i, d, ctx, childSpan);

    var childId := |spans|;
    rootSpan', ctx' := rootSpan, ctx;
    if !isFakeDB {
      if i == 0 {
        rootSpan' := Some(childId);
      }
      ctx' := SpanContext(childId);
    }
    spans' := AppendChild(spans, childSpan, i, d.issuedAt + fakeLatency);
    totalLatency', sleptLatency' := AddLatency(totalLatency, sleptLatency, fakeLatency, pausedLatency);
  }

  /** Step in terms of the plan's entries for hop i. */
  lemma StepOf(st: ChainState, p: Plan, i: nat, h: Hop, span: SpanRecord, lat: Duration, pause: Duration)
    requires PlanOk(p) && i < |p.hops|
    requires p.hops[i] == h && p.spans[i] == span && p.lats[i] == lat && p.pauses[i] == pause
    ensures var times := Compose(st.total, st.slept, lat, pause);
            Step(st, p, i) == ChainState(times.0, times.1,
                                         if h.isDB then st.parent else SpanContext(|st.log|),
                                         if !h.isDB && i == 0 then Some(|st.log|) else st.root,
                                         st.log + [span.(parent := st.parent)])
  {
  }

  /** Entry j of a plan is what hop j of the chain computes. */
  predicate PlanEntry(p: Plan, j: nat, tracer: Tracer, services: seq<string>, serviceApis: seq<string>,
                      draws: seq<HopDraws>)
    requires ApisOk(serviceApis) && j < |services| == |draws| && PlanOk(p) && |p.hops| == |services|
  {
    var h := Classify(services[j], serviceApis, draws[j]);
    && p.hops[j] == h
    && p.spans[j] == HopSpan(tracer, h, j, draws[j], Latency(draws[j]))
    && p.lats[j] == Latency(draws[j])
    && p.pauses[j] == Pause(draws[j], j)
  }

  /** The plan the loop follows: one entry per hop, each what that hop computes. */
  predicate PlanOf(p: Plan, tracer: Tracer, services: seq<string>, serviceApis: seq<string>, draws: seq<HopDraws>)
    requires ApisOk(serviceApis) && |services| == |draws|
  {
    && PlanOk(p) && |p.hops| == |services|
    && forall j :: 0 <= j < |services| ==> PlanEntry(p, j, tracer, services, serviceApis, draws)
  }

  /** ChainPlan is the plan a chain's loop follows under the chain's tracer. */
  lemma ChainPlanIsPlanOf(services: seq<string>, serviceApis: seq<string>, draws: seq<HopDraws>)
    requires ChainOk(services, serviceApis, draws)
    ensures PlanOf(ChainPlan(services, serviceApis, draws), ChainTracer(services), services, serviceApis, draws)
  {
    var p := ChainPlan(services, serviceApis, draws);
    forall j | 0 <= j < |services|
      ensures PlanEntry(p, j, ChainTracer(services), services, serviceApis, draws)
    {
      ChainPlanHop(services, serviceApis, draws, j);
      ChainPlanSpan(services, serviceApis, draws, j);
      ChainPlanTimes(services, serviceApis, draws, j);
    }
  }

  /** The loop of fakeTraces: it leaves the loop variables as Run over the whole plan. */
  method RunHops(tracer: Tracer, log: seq<SpanRecord>, parentCtx: Context, chainedServices: seq<string>,
                 serviceApis: seq<string>, draws: seq<HopDraws>, ghost p: Plan)
    returns (totalLatency: Duration, sleptLatency: Duration, ctx: Context, rootSpan: Option<nat>,
             spans: seq<SpanRecord>)
    requires ApisOk(serviceApis) && |chainedServices| == |draws|
    requires PlanOf(p, tracer, chainedServices, serviceApis, draws)
    ensures ChainState(totalLatency, sleptLatency, ctx, rootSpan, spans)
            == Run(InitialState(parentCtx, log), p, |chainedServices|)
  {
    ghost var s0 := InitialState(parentCtx, log);
    rootSpan := None;
    ctx := parentCtx;
    totalLatency, sleptLatency, spans := 0, 0, log;
    var i := 0;
    while i < |chainedServices|
      invariant 0 <= i <= |chainedServices|
      invariant ChainState(totalLatency, sleptLatency, ctx, rootSpan, spans) == Run(s0, p, i)
    {
      assert PlanEntry(p, i, tracer, chainedServices, serviceApis, draws);
      var h := Classify(chainedServices[i], serviceApis, draws[i]);
      StepOf(Run(s0, p, i), p, i, h, HopSpan(tracer, h, i, draws[i], Latency(draws[i])),
             Latency(draws[i]), Pause(draws[i], i));
      totalLatency, sleptLatency, ctx, rootSpan, spans :=
        ChainStep(tracer, chainedServices[i], serviceApis, i, draws[i],
                  totalLatency, sleptLatency, ctx, rootSpan, spans);
      i := i + 1;
    }
  }

  /** After the loop: finish rootSpan, which is the chain's first span, at the chain's end. */
  method FinishChain(log: seq<SpanRecord>, parentCtx: Context, ghost p: Plan, rootIssuedAt: Instant,
                     totalLatency: Duration, sleptLatency: Duration, ctx: Context, rootSpan: Option<nat>,
                     spans: seq<SpanRecord>)
    returns (finished: seq<SpanRecord>)
    requires Runnable(p)
    requires ChainState(totalLatency, sleptLatency, ctx, rootSpan, spans)
             == Run(InitialState(parentCtx, log), p, |p.hops|)
    ensures ChainResult(totalLatency, sleptLatency, finished) == FakeTracesSpec(log, parentCtx, p, rootIssuedAt)
  {
    RunRoot(InitialState(parentCtx, log), p, |p.hops|);
    RunLog(InitialState(parentCtx, log), p, 0, |p.hops|);
    finished := Finish(spans, rootSpan.value, rootIssuedAt + totalLatency + sleptLatency);
  }

  /**
   * fakeTraces: obtain the tracer of the first service, run the loop over
   * the hops, then finish rootSpan at the chain's start plus totalLatency
   * plus sleptLatency. The sleeps (for the incoming chainedLatency and for
   * each pause) are not modelled.
   */
  method FakeTraces(registry: TracerRegistry, log: seq<SpanRecord>, parentCtx: Context,
                    chainedServices: seq<string>, serviceApis: seq<string>, chainedLatency: Duration,
                    rootIssuedAt: Instant, draws: seq<HopDraws>)
    returns (totalLatency: Duration, sleptLatency: Duration, spans: seq<SpanRecord>)
    requires registry.Valid()
    requires ChainOk(chainedServices, serviceApis, draws)
    modifies registry
    ensures registry.Valid()
    ensures registry.store == old(registry.store)[chainedServices[0] := ChainTracer(chainedServices)]
    ensures registry.created == if chainedServices[0] in old(registry.store) then old(registry.created)
                                else old(registry.created) + [chainedServices[0]]
    ensures ChainResult(totalLatency, sleptLatency, spans)
            == FakeTracesSpec(log, parentCtx, ChainPlan(chainedServices, serviceApis, draws), rootIssuedAt)
  {
    var tracer := registry.Get(chainedServices[0]);
    ghost var p := ChainPlan(chainedServices, serviceApis, draws);
    ChainPlanIsPlanOf(chainedServices, serviceApis, draws);
    var ctx, rootSpan;
    totalLatency, sleptLatency, ctx, rootSpan, spans :=
      RunHops(tracer, log, parentCtx, chainedServices, serviceApis, draws, p);
    spans := FinishChain(log, parentCtx, p, rootIssuedAt, totalLatency, sleptLatency, ctx, rootSpan, spans);
  }
}
