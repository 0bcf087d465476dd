# Jaeger trace generator and ClickHouse namespace options, in Dafny

This project models two parts of Jaeger and proves properties of the models.

**The synthetic trace generator** (`internal/tracegen/worker.go`). A worker
runs in a loop. Each iteration starts a root span "lets-go" with the global
tracer, tags it, and then calls `fakeTraces` once for every comma-separated
chain of services the worker is configured with. Finally it finishes the
root span at the iteration's clock reading plus the accumulated latency.
`fakeTraces` emits one span per service of its chain:
- The first service gives the chain's server span. Every later service gives a client span.
- `redis-*` and `mysql-*` names become database hops, with the flavour's operation table and database tags.
- Other names become HTTP hops, with a `method:path` API from the worker's list.
- A draw `rn` in [0, 100) decides whether the hop failed.
- Every hop draws a latency. Every hop after the first also draws a pause.
- The two are composed into the chain's `(totalLatency, sleptLatency)`. These fix the finish instant of the chain's first span.

Randomness, the clock and the tracing library are inputs. Every `rand.Intn`
is a raw draw reduced into its range (`FakeData.Intn`). `fake.IPv4`,
`fake.WordsN` and `time.Now` are fields of the per-hop and per-iteration draw
records (`Chain.HopDraws`, `Worker.IterationDraws`). Spans are
`Spans.SpanRecord` values appended to a log, identified by their position in
it. Every `FinishWithOptions` call appends an instant to the record's
`finishes`, so "finished exactly once" reads `|finishes| == 1`.

The code is modelled in the form it has:
- `fakeIP`, `fakeSpanDuration` and the tag computations are functions.
- The loop of `fakeTraces` is a method (`Chain.RunHops`) proved equal to `Chain.Run`, a function over a precomputed plan of the hops.
- The chains loop (`Worker.RunChains`) is proved equal to `Worker.Outcomes`/`Worker.Accumulate`.
- The worker loop (`Simulate.SimulateTraces`) is proved equal to a run of `Worker.Iteration`.
- The tracer cache behind `fakeTracer` is a class, `Tracers.TracerRegistry`, with a `store` map that `Get` updates in place.

**The ClickHouse storage namespace options**
(`plugin/storage/clickhouse/options.go`). `NewOptions` builds:
- a primary `NamespaceConfig` with defaults;
- one config per other namespace, where the archive namespace gets archive defaults and any other namespace a zero config.

`AddFlags` registers a namespace-dependent set of flags whose defaults are the
current fields. `InitFromViper` overwrites every field but the namespace from
the key `namespace + suffix`.

Classes `NamespaceConfig`, `Options` and `FlagSet` hold what the source
mutates. A `FlagSet` is the list of flags registered on it. A viper is a
datatype of four total lookup functions. `ViperOf(flags)` is the viper bound
to a flag list with nothing overridden: a registered name reads its default,
any other name the zero value of its type.

Where the documented behaviour and the code disagree, the model follows the code:
- **Chain latency.** The latency update is `total' = fake + max(total, paused)`. The slept latency gains the pause once, and a second time when `total < paused`. It is not `max(previous, latency + pause)` (`Chain.Compose`).
- **Database statement.** The statement of a database hop uses the replaced name (`redis`, `mysql`), not the original service name.
- **Unused fields.** `worker.pause` and `worker.duration` are never read by `simulateTraces`.
- **Primary `enabled`.** `.enabled` is registered only for the archive namespace, yet `initFromViper` reads it for every namespace. A viper holding only the registered flags therefore turns the primary namespace's `Enabled` to false (`ClickhouseOptions.PrimaryDefaultsRoundTrip`).

## Model

| member | source | states |
|---|---|---|
| FakeData.Intn | internal/tracegen/worker.go:62 | `rand.Intn(n)` on a raw draw: a value below n, the draw itself when it is already below n |
| FakeData.IntnIsRemainder | internal/tracegen/worker.go:62 | the reduction of a raw draw into [0, n) is its remainder modulo n, so `rand.Intn(n)` is below n and reaches every value there |
| FakeData.WholeMilliseconds | internal/tracegen/worker.go:66 | `int(d / time.Millisecond)` truncates toward zero: q·ms ≤ d < (q + 1)·ms for d ≥ 0, and d ≤ q·ms < d + ms with q ≤ 0 for d < 0, which fixes q as the quotient rounded toward zero on both sides |
| FakeData.FakeIP | internal/tracegen/worker.go:55-59 | the packed address is b0·2^24 + b1·2^16 + b2·2^8 + b3 and fits a uint32 |
| FakeData.Widen | internal/tracegen/worker.go:58 | `uint32(ipv4[k])`: a byte zero-extended to 32 bits |
| FakeData.ShiftOr | internal/tracegen/worker.go:58 | the source's packing expression: the widened bytes ipv4[3], ipv4[2]<<8, ipv4[1]<<16 and ipv4[0]<<24, or-ed together |
| FakeData.ShiftOrValue | internal/tracegen/worker.go:58 | for any four 8-bit bytes, the source's shift-or read as an unsigned number is b0·2^24 + b1·2^16 + b2·2^8 + b3 |
| FakeData.FakeIPIsShiftOr | internal/tracegen/worker.go:55-59 | for 8-bit words holding the address's bytes, the packed address is exactly the source's shift-or of them, read as an unsigned number |
| FakeData.ShiftOrIsWeightedSum | internal/tracegen/worker.go:58 | or-ing the bytes shifted by 24, 16, 8 and 0 bits on 32-bit words equals that weighted sum |
| FakeData.FakeIPRoundTrip | internal/tracegen/worker.go:58 | unpacking the packed address recovers each of its four bytes |
| FakeData.FakeIPOnto | internal/tracegen/worker.go:58 | every uint32 is the packing of its own bytes, so the packing is a bijection |
| FakeData.FakeSpanDuration | internal/tracegen/worker.go:61-63 | a span duration is a whole number of milliseconds in [0, 108] ms |
| FakeData.FakeSpanDurationOnto | internal/tracegen/worker.go:62 | every whole number of milliseconds in [0, 108] is reachable by some pair of draws |
| FakeData.FakePausedDuration | internal/tracegen/worker.go:65-70 | the pause is a whole number of milliseconds below (3 + d/ms) ms, so at most d + 2 ms for a non-negative span duration d |
| FakeData.ApiTablesDisjoint | internal/tracegen/worker.go:166-174 | the redis and mysql operation tables share no operation |
| GoStrings.SplitN2 | internal/tracegen/worker.go:227-229 | `SplitN(api, ":", 2)` gives two parts joined by the first ':' when there is one, else the api alone |
| GoStrings.HasPrefix | internal/tracegen/worker.go:193-198 | `strings.HasPrefix`: the prefix is no longer than the text and equals its first characters |
| GoStrings.Split | internal/tracegen/worker.go:147 | `strings.Split(chainedService, ",")`: the text cut at every separator, always at least one part |
| GoStrings.UpperChar | internal/tracegen/worker.go:241 | the upper-casing of one character: a lower-case ASCII letter moves 32 code points down, anything else is kept |
| GoStrings.SplitParts | internal/tracegen/worker.go:147 | the parts of `strings.Split` hold no separator and join back to the input |
| GoStrings.SplitJoin | internal/tracegen/worker.go:147 | splitting the join of separator-free parts gives the parts back |
| GoStrings.ToUpper | internal/tracegen/worker.go:241 | upper-casing keeps the length, maps each character, and leaves no lower-case ASCII letter |
| Spans.Finish | internal/tracegen/worker.go:153 | finishing span `id` appends the instant to that span's finishes and leaves every other span of the log as it was |
| Tracers.NewTracerConfig | internal/tracegen/worker.go:83-90 | the configuration built for a service: its name, a "const" sampler with parameter 100, RPC metrics on |
| Tracers.TracerFor | internal/tracegen/worker.go:92-94 | the tracer constructed from that configuration |
| Tracers.Cached | internal/tracegen/worker.go:75-105 | the store after `fakeTracer` was called for each name in turn: every name mapped to its tracer |
| Tracers.CachedKeys | internal/tracegen/worker.go:75-105 | looking up a list of services adds exactly those services to the store, each with its configured tracer, and keeps every other entry |
| Tracers.CachedHit | internal/tracegen/worker.go:77-80 | a store that already holds the configured tracer of every service is left unchanged |
| Tracers.CachedIdempotent | internal/tracegen/worker.go:75-105 | looking up the same services a second time changes nothing |
| Tracers.TracerRegistry.constructor | internal/tracegen/worker.go:72-73 | the tracer store starts empty and consistent |
| Tracers.TracerRegistry.Get | internal/tracegen/worker.go:75-105 | `fakeTracer` returns the tracer configured for the service (service name, "const" sampler with 100, RPC metrics); it returns the cached one on a hit; the store afterwards maps the service to it; a tracer is constructed only on a miss, so at most once per service |
| Chain.IsDBName | internal/tracegen/worker.go:192-203 | a service is a database hop when its name starts with `redis-` or `mysql-` |
| Chain.DBStatement | internal/tracegen/worker.go:241 | the statement tag: the upper-cased operation followed by the fixed text selecting from the services table where service equals the replaced name (`redis`, `mysql`) |
| Chain.IsErrorDraw | internal/tracegen/worker.go:247-248 | a draw marks the hop failed when it is a multiple of 11, 13 or 17 |
| Chain.ErrorMessage | internal/tracegen/worker.go:253 | the error logged for a failed hop: `invoke service <name> with error` |
| Chain.TaggedSpan | internal/tracegen/worker.go:205-245 | the span a hop starts: its operation and issue instant, server kind only for a non-database first hop, the database tags or the HTTP method and path split at the first ':', then peer service and address |
| Chain.MarkedSpan | internal/tracegen/worker.go:247-258 | the outcome of the rn switch: on an error draw status 500 + Intn(4) (HTTP hops only) and the error log, otherwise status 200 (HTTP hops only) |
| Chain.HopSpan | internal/tracegen/worker.go:205-262 | the hop's complete span: tagged, marked, and finished at its issue instant plus its latency when i > 0 |
| Chain.Hops | internal/tracegen/worker.go:187-203 | the classification of every service of the chain with its own draws |
| Chain.ChainTracer | internal/tracegen/worker.go:181 | the chain's tracer is the one of its first service |
| Chain.ChainPlan | internal/tracegen/worker.go:187-262 | the plan of a chain: every hop's classification, span, latency and pause, computed from the services and their draws |
| Chain.Fold | internal/tracegen/worker.go:264-269 | the latency pair after all hops: Compose applied hop by hop from (0, 0) |
| Chain.Step | internal/tracegen/worker.go:187-270 | one pass of the loop body on the state (total, slept, parentCtx, rootSpan, log): the hop's span is appended under parentCtx, a non-database hop becomes parentCtx (and rootSpan when it is first), the latencies are composed |
| Chain.Run | internal/tracegen/worker.go:187-270 | the state after the first k passes of the loop |
| Chain.FakeTracesSpec | internal/tracegen/worker.go:176-275 | the result of fakeTraces: the loop run over every hop, then rootSpan finished at rootIssuedAt plus total plus slept latency; the returned pair is (total, slept) |
| Chain.Classify | internal/tracegen/worker.go:187-203 | a `redis-` name becomes "redis" with an operation from redisApis, a `mysql-` name "mysql" with one from mysqlApis, both database hops; any other name keeps its name and a serviceApis operation |
| Chain.ResolveService | internal/tracegen/worker.go:188-203 | the switch statement computes exactly that classification |
| Chain.ErrorDrawListed | internal/tracegen/worker.go:247-248 | for rn in [0, 100), `rn%11==0 \|\| rn%13==0 \|\| rn%17==0` holds exactly for the 22 listed values |
| Chain.ErrorDrawCount | internal/tracegen/worker.go:247-248 | the error predicate holds for exactly 22 of the 100 draws, 0 among them |
| Chain.HopSpanTags | internal/tracegen/worker.go:205-262 | a hop's span has the kind (server only for a non-database first hop), the database tags with type = the replaced name and statement `UPPER(op) * FROM ...`, or the HTTP method and path split at ':'; the peer tags; status 200 exactly when the error draw misses, 500..503 when it hits, no status for database hops; an error log exactly when the draw hits; one finish when i > 0 |
| Chain.MarkedSpanFields | internal/tracegen/worker.go:247-258 | marking a hop failed or successful touches neither its parent nor its finishes |
| Chain.StartHop | internal/tracegen/worker.go:205-245 | the if on isFakeDB starts the hop's span under the current context with its tags, and draws a pause only for hops after the first |
| Chain.MarkHop | internal/tracegen/worker.go:247-258 | the switch on rn sets the status and the error log as MarkedSpan says |
| Chain.AppendChild | internal/tracegen/worker.go:260-262 | the hop's span is appended, and a span after the first is finished at once at its start plus its latency |
| Chain.Compose | internal/tracegen/worker.go:264-269 | the update gives total' = fake + max(total, paused) and slept' = slept + paused, plus paused again when total < paused |
| Chain.AddLatency | internal/tracegen/worker.go:264-269 | the statements at the end of the loop body compute that composition |
| Chain.FoldBounds | internal/tracegen/worker.go:264-269 | over a chain, the total lies between the sum of the latencies and that plus the sum of the pauses; the slept latency lies between the sum of the pauses and twice that |
| Chain.FoldMonotone | internal/tracegen/worker.go:264-269 | the total after any prefix of the hops never exceeds the chain's total; the same holds for the slept latency when the pauses are non-negative |
| Chain.FoldCoversHop | internal/tracegen/worker.go:260-272 | a hop's latency plus the pauses up to it never exceed the chain's total plus slept latency |
| Chain.FoldFirst | internal/tracegen/worker.go:211-212 | after the first hop, which has no pause, the total is that hop's latency and nothing was slept |
| Chain.Latency | internal/tracegen/worker.go:189 | a hop's latency lies in [0, 108] ms |
| Chain.Pause | internal/tracegen/worker.go:210-233 | the first hop has no pause; a later hop's pause is at most its latency plus 2 ms |
| Chain.RunLog | internal/tracegen/worker.go:187-270 | after k hops the log has grown by exactly k spans, and later hops never change the spans of earlier ones |
| Chain.RunSpan | internal/tracegen/worker.go:205-262 | hop j's span in the log is its planned span under the parent context current at hop j |
| Chain.RunParent | internal/tracegen/worker.go:225 | after k hops, parentCtx is the span of the last non-database hop among them, or the incoming context when all were database hops |
| Chain.RunRoot | internal/tracegen/worker.go:218-222 | a non-database first hop becomes rootSpan, and no later hop replaces it |
| Chain.RunTimes | internal/tracegen/worker.go:264-269 | from zero latencies, the loop's latency variables after k hops are the fold of the first k hops |
| Chain.ChainSpanCount | internal/tracegen/worker.go:187-272 | a chain appends one span per service and leaves the log before it untouched |
| Chain.ChainRootSpan | internal/tracegen/worker.go:218-272 | the chain's first span hangs off the incoming context and gets one finish, at the chain start plus total plus slept latency |
| Chain.ChainHopSpan | internal/tracegen/worker.go:211-262 | the span of every later hop is its planned span, a child of the last non-database hop before it |
| Chain.ChainParents | internal/tracegen/worker.go:215-236 | every hop's span is a child of the last non-database hop before it, or of the incoming context when there is none; database hops never become parents |
| Chain.ChainLatency | internal/tracegen/worker.go:264-274 | the returned latencies are the composition fold over the hops' latencies and pauses |
| Chain.ChainSpanFinishes | internal/tracegen/worker.go:260-272 | only the first hop's span is finished after the loop, once, at the chain start plus total plus slept latency; the others keep their one finish |
| Chain.ChainLatencyBounds | internal/tracegen/worker.go:264-274 | a chain's returned total and slept latencies are bounded by the sums of latencies and pauses; a one-service chain returns its latency and no slept time |
| Chain.ChainRootFinishesLast | internal/tracegen/worker.go:260-272 | when hop j is issued no later than the chain start plus the pauses up to it, hop j finishes no later than the chain's first span |
| Chain.ChainStep | internal/tracegen/worker.go:187-270 | one pass of the loop body appends the hop's tagged and marked span under the current context; a non-database hop becomes the next context, and the root when it is first; the latencies are composed |
| Chain.RunHops | internal/tracegen/worker.go:187-270 | the loop over the services leaves the loop variables as the run over all of the chain's hops |
| Chain.FinishChain | internal/tracegen/worker.go:272 | after the loop, rootSpan is finished at the chain start plus total plus slept latency |
| Chain.FakeTraces | internal/tracegen/worker.go:176-275 | fakeTraces caches the tracer of the chain's first service and returns what the chain specification gives for its services and draws |
| Worker.Services | internal/tracegen/worker.go:147 | chain k's services are its configured text split at ',', at least one |
| Worker.RootSpan | internal/tracegen/worker.go:113-123 | the root span: operation "lets-go" on the global tracer, client kind, peer service "tracegen-service", the packed peer address, priority 100 when debugging, firehose when configured |
| Worker.ParentContext | internal/tracegen/worker.go:125-138 | the chains' parent context: the extracted one when marshalling and the inject succeeded, otherwise the root's own context |
| Worker.WithRoot | internal/tracegen/worker.go:113 | the log with the iteration's root span appended |
| Worker.IterationOutcomes | internal/tracegen/worker.go:146-151 | the results of the iteration's chains, run in order under the parent context after the root |
| Worker.Accumulate | internal/tracegen/worker.go:140-151 | the variables of the chains loop after the given chains: total += chained + slept per chain, chainedLatency and sleptLatency of the last chain, and the chainedLatency each chain was handed |
| Worker.TotalOf | internal/tracegen/worker.go:149-150 | the sum of every chain's total and slept latency |
| Worker.Iteration | internal/tracegen/worker.go:113-153 | one iteration: the root appended, the chains run, the root finished at issuedAt plus the accumulated total |
| Worker.Outcomes | internal/tracegen/worker.go:146-151 | chain k's result is what fakeTraces returns on the log the chains before it left |
| Worker.AccumulateHistory | internal/tracegen/worker.go:140-151 | the first chain is handed latency 0 and each later chain the previous chain's totalLatency; the accumulated total is the sum of every chain's total and slept latency |
| Worker.ResultsFirstSpan | internal/tracegen/worker.go:146-151 | each chain's first span hangs off the iteration's parent context and is finished once, at its chain's own clock plus its latencies |
| Worker.PlansOfHops | internal/tracegen/worker.go:146-147 | the chains of one iteration emit one span per comma-separated service of each chain |
| Worker.IterationRoot | internal/tracegen/worker.go:113-153 | an iteration appends its root span and then the spans of every chain; the root is finished exactly once, at issuedAt + Σ(chained + slept), and the log before it is untouched |
| Worker.IterationChainSpan | internal/tracegen/worker.go:125-153 | chain j's first span sits right after the root and the earlier chains' spans, under the root's context or the extracted one |
| Worker.RunChain | internal/tracegen/worker.go:147 | chain k's call of fakeTraces returns the chain specification for its plan and adds the tracer of its first service to the cache |
| Worker.ChainsLoopBody | internal/tracegen/worker.go:146-151 | the loop body hands the chain the previous chain's latency and adds the chain's total and slept latency to the total |
| Worker.RunChains | internal/tracegen/worker.go:140-151 | the chains loop leaves the accumulated latency, the latencies handed to the chains, and the log of all chains; the tracer of every chain's first service is cached |
| Simulate.Stops | internal/tracegen/worker.go:112-160 | the loop ends after i iterations when the flag reads stopped at that check, or when a non-zero target is met after at least one iteration |
| Simulate.SimulateRun | internal/tracegen/worker.go:112-161 | the log after n iterations, each run on the log the previous left |
| Simulate.Iterations | internal/tracegen/worker.go:112-160 | the loop stops at the first count where the flag reads stopped or a non-zero target is reached; with target N > 0 and the flag staying 1 for N checks it runs exactly N iterations; a negative target still runs one |
| Simulate.StartRootSpan | internal/tracegen/worker.go:113-123 | the root span is a client span "lets-go" with peer service "tracegen-service", the packed peer address, priority 100 when debugging, and firehose when asked |
| Simulate.SimulateIteration | internal/tracegen/worker.go:113-153 | one iteration leaves exactly what the iteration specification gives: the root, the chains under the root's context (or the extracted one after a successful inject), the root finished at issuedAt plus the total |
| Simulate.AllPlansOfUnique | internal/tracegen/worker.go:146-147 | the draws determine the plan of every chain of every iteration |
| Simulate.SimulateLogsRun | internal/tracegen/worker.go:112-161 | running the iterations one after the other from the initial log is a run |
| Simulate.RunsUnique | internal/tracegen/worker.go:112-161 | a run is determined by its initial log and its draws |
| Simulate.RunsGrows | internal/tracegen/worker.go:112-161 | an iteration only appends to the log |
| Simulate.RunsLength | internal/tracegen/worker.go:112-161 | after n iterations the log has grown by n times the spans of one iteration: one root plus one per service |
| Simulate.RunsPrefix | internal/tracegen/worker.go:112-161 | the log after m iterations is a prefix of the log after any later number |
| Simulate.RunsRoot | internal/tracegen/worker.go:113-153 | iteration m's root span sits at m times the iteration's span count past the initial log, finished exactly once at its issuedAt plus its total, whatever later iterations do |
| Simulate.IterationStep | internal/tracegen/worker.go:112-153 | a pass of the loop body turns the log after i iterations into the log after i + 1; whether the cache was still the initial one or already held the chains' tracers, afterwards it is the initial cache plus the tracers of the chains' first services |
| Simulate.SimulateTraces | internal/tracegen/worker.go:108-164 | the loop runs and reports Iterations(traces, flag) iterations, leaves the log of that many iterations, and caches the tracers of the chains' first services once it has run at least once |
| ClickhouseOptions.PrimaryDefaults | plugin/storage/clickhouse/options.go:59-70 | the primary config: enabled, tcp://localhost:9000, jaeger_operations_v2, jaeger_index_v2, jaeger_spans_v2, 5 s, 10000, protobuf and the default connector |
| ClickhouseOptions.ArchiveDefaults | plugin/storage/clickhouse/options.go:76-86 | the archive config: disabled, the default datasource, no operations or index table, jaeger_archive_spans_v2, and the default delay, size, encoding and connector |
| ClickhouseOptions.ZeroConfig | plugin/storage/clickhouse/options.go:88 | any other namespace: only its name, every other field the zero value |
| ClickhouseOptions.OtherDefaults | plugin/storage/clickhouse/options.go:74-90 | the config built for another namespace: archive defaults for the archive namespace, the zero config otherwise |
| ClickhouseOptions.Suffix | plugin/storage/clickhouse/options.go:24-33 | the flag suffix of each setting |
| ClickhouseOptions.FieldValue | plugin/storage/clickhouse/options.go:103-154 | the current field each setting's flag takes as its default |
| ClickhouseOptions.FlagOf | plugin/storage/clickhouse/options.go:103-154 | the flag of a setting: name namespace + suffix, the field as default, and the setting's usage text |
| ClickhouseOptions.RegisteredKeys | plugin/storage/clickhouse/options.go:103-154 | the settings addFlags registers, in order: `.enabled` for the archive namespace, the datasource, the operations and index tables for any other namespace, then spans table, delay, size and encoding |
| ClickhouseOptions.Registered | plugin/storage/clickhouse/options.go:104-129 | whether addFlags registers a setting for an archive or another namespace |
| ClickhouseOptions.NamespaceFlags | plugin/storage/clickhouse/options.go:103-154 | the flags addFlags registers for one config |
| ClickhouseOptions.AllFlags | plugin/storage/clickhouse/options.go:96-101 | the flags registered for a sequence of configs, one config after the other |
| ClickhouseOptions.FromViper | plugin/storage/clickhouse/options.go:164-173 | initFromViper on values: every data field read from namespace + suffix with the matching getter, the namespace and connector kept |
| ClickhouseOptions.NamespaceConfig.constructor | plugin/storage/clickhouse/options.go:36-47 | a config holds the fields it is built with |
| ClickhouseOptions.Options.constructor | plugin/storage/clickhouse/options.go:57-93 | NewOptions: the primary config has the defaults (enabled, tcp://localhost:9000, jaeger_operations_v2, jaeger_index_v2, jaeger_spans_v2, 5 s, 10000, protobuf); the keys of others are exactly the other namespaces given; the archive entry has the archive defaults (jaeger_archive_spans_v2, no operations or index table, disabled); any other entry only its namespace; every config is fresh and filed under its own namespace |
| ClickhouseOptions.SuffixRoundTrip | plugin/storage/clickhouse/options.go:24-33 | every setting's suffix reads back as that setting |
| ClickhouseOptions.SuffixInjective | plugin/storage/clickhouse/options.go:24-33 | distinct settings have distinct suffixes |
| ClickhouseOptions.NameInjective | plugin/storage/clickhouse/options.go:103-154 | within one namespace, distinct settings get distinct flag names |
| ClickhouseOptions.AddNamespaceFlags | plugin/storage/clickhouse/options.go:103-154 | addFlags appends exactly the namespace's flags, in order: `.enabled` for the archive namespace only, `.operations-table` and `.index-table` for other namespaces only, the rest always, each defaulting to the matching current field |
| ClickhouseOptions.RegisteredKeysAre | plugin/storage/clickhouse/options.go:104-129 | the archive namespace registers six settings, including `.enabled` but no table names; any other namespace registers seven |
| ClickhouseOptions.LookupKeyFlags | plugin/storage/clickhouse/options.go:103-154 | among the flags of some settings, a setting's name finds that setting's field iff it was registered |
| ClickhouseOptions.NamespaceFlagLookup | plugin/storage/clickhouse/options.go:103-154 | the flag registered under `namespace + suffix` defaults to the matching field, and the name of a setting not registered is absent |
| ClickhouseOptions.LookupFirst | plugin/storage/clickhouse/options.go:103-154 | a name is found among the registered flags iff some flag carries it, and then the default of the first such flag is returned |
| ClickhouseOptions.AddMoreFlags | plugin/storage/clickhouse/options.go:98-100 | registering one more namespace appends its flags after those of the namespaces before it |
| ClickhouseOptions.AllFlagsContents | plugin/storage/clickhouse/options.go:96-101 | the flags registered for several namespaces are exactly the flags of each of them |
| ClickhouseOptions.Options.AddFlags | plugin/storage/clickhouse/options.go:96-101 | AddFlags registers the primary's flags, then those of every other config exactly once, in the map's iteration order |
| ClickhouseOptions.InitNamespaceFromViper | plugin/storage/clickhouse/options.go:164-173 | initFromViper sets the eight data fields from `namespace + suffix` and keeps the namespace and the connector |
| ClickhouseOptions.FromViperForgets | plugin/storage/clickhouse/options.go:164-173 | the result depends only on the namespace, the connector and the viper, never on the previous field values |
| ClickhouseOptions.FromViperIdempotent | plugin/storage/clickhouse/options.go:164-173 | reading from the same viper twice is reading once |
| ClickhouseOptions.InitFromOwnFlags | plugin/storage/clickhouse/options.go:103-173 | reading a namespace back from a viper holding only its own flags restores every field, except that the archive namespace loses its table names and any other namespace ends up disabled |
| ClickhouseOptions.ArchiveDefaultsRoundTrip | plugin/storage/clickhouse/options.go:75-86 | the archive defaults survive registering their flags and reading them back |
| ClickhouseOptions.PrimaryDefaultsRoundTrip | plugin/storage/clickhouse/options.go:58-70 | the primary defaults survive the same round trip, except `Enabled`, which becomes false because `.enabled` is not registered for it |
| ClickhouseOptions.Options.InitFromViper | plugin/storage/clickhouse/options.go:157-162 | InitFromViper applies initFromViper to the primary config and to every config of others |
| ClickhouseOptions.Options.GetPrimary | plugin/storage/clickhouse/options.go:176-178 | getPrimary returns the primary config, which is none of the other namespaces' configs |

## Left out

- Concurrency: the `singleflight.Group` and the `sync.Map` store behind `fakeTracer`, the atomic read of the shared running flag, and `wg.Done`. The tracer cache has only its sequential lookup-or-insert meaning.
- The running flag is write-once-to-stop. It is the input `stopCheck`: the number of loop checks that read it as 1 before the first that does not.
- `time.Sleep` for the incoming chained latency and for each pause is not performed. The pauses and the latencies handed to the chains are returned as values.
- `time.Now`, `math/rand`, `fake.IPv4` and `fake.WordsN` are inputs (the draw records).
- `Inject` and `Extract` are inputs: whether the inject succeeded, and what was extracted. Their round trip is the tracing library's.
- The `EnableFirehose` type assertion and the library's span objects: spans are records, and tags are their fields.
- Tracer construction failure is fatal in the source (`logger.Fatal`). It is not modelled, nor is any zap logging, including the worker's final count message.
- Durations are unbounded integers of nanoseconds: int64 overflow of `time.Duration` is not modelled.
- The ghost plans and logs that `Simulate.SimulateTraces` and `Worker.RunChains` are proved against are the ones the draws determine. That is proved by `Simulate.AllPlansOfUnique` and `Simulate.RunsUnique`.
- Chains whose first service is a database name, an empty `serviceApis`, and an API without ':' are excluded by preconditions (`Chain.ChainOk`, `Worker.WorkerOk`). For the first two the source panics (a nil `rootSpan`, `rand.Intn(0)`). For the third the precondition is stronger than the panic: the source fails on `method2path[1]` only when such an API is drawn for an HTTP hop.
- The `flag` package panics when a name is registered twice, for instance when the primary namespace is also among the others. `ClickhouseOptions.FlagSet` only records registrations and does not model that panic.
- Viper's internals: `ClickhouseOptions.ViperOf` is a viper bound to the registered flags with nothing overridden, returning zero values for unknown keys. Viper is otherwise any four lookup functions.
- `spanstore.EncodingProto` is not part of this model. Its value is taken as "protobuf".
- The package-level `archiveNamespace` is a parameter. `defaultConnector` and `WithConnector` (plugin/storage/clickhouse/connector.go) are reduced to a connector identity passed to NewOptions. Opening and pinging a database is I/O and is not modelled.
- The iteration order of a Go map is unspecified. `Options.AddFlags` returns one possible order as a ghost value. `Options.InitFromViper` visits each config object once; visiting an aliased config twice would give the same result (`ClickhouseOptions.FromViperIdempotent`).
- plugin/storage/clickhouse/spanstore/writer_test.go, a benchmark fixture, is not part of this model.
- GoStrings.ToUpper: upper-cases ASCII letters only, while Go's `strings.ToUpper` maps every Unicode letter. The operations it is applied to (the redis and mysql tables) are ASCII, so the statement tags agree.
