/**
 * What the generator hands to the tracing library, recorded as values: each
 * started span becomes a record in a log, identified by its position there;
 * tags become fields; every FinishWithOptions call appends its finish
 * instant to the record, so a span finished exactly once has one instant.
 */
module Spans {
  import opened Wrappers
  import opened Tracers
  import opened FakeData

  /** A wall-clock instant in nanoseconds. */
  type Instant = int

  /** opentracing.SpanContext: nil, or the context of the span with that log position. */
  datatype Context = NilContext | SpanContext(span: nat)

  /** The span.kind tag. */
  datatype SpanKind = RPCClient | RPCServer

  /** ext.LogError: the error and the "trace-error" log field. */
  datatype ErrorLog = ErrorLog(message: string, traceError: string)

  datatype SpanRecord = SpanRecord(
    tracer: Tracer,
    operation: string,
    parent: Context,              // the ChildOf reference of StartSpan
    start: Instant,
    kind: Option<SpanKind>,
    peerService: Option<string>,
    peerIPv4: Option<Uint32>,
    samplingPriority: Option<nat>,
    firehose: bool,
    httpMethod: Option<string>,
    httpUrl: Option<string>,
    httpStatus: Option<nat>,
    dbType: Option<string>,
    dbInstance: Option<string>,
    dbStatement: Option<string>,
    errorLog: Option<ErrorLog>,
    finishes: seq<Instant>)

  /** tracer.StartSpan(operation, ...): a span with no tags yet and not finished. */
  function StartSpan(tracer: Tracer, operation: string, parent: Context, start: Instant): SpanRecord {
    SpanRecord(tracer, operation, parent, start, None, None, None, None, false,
               None, None, None, None, None, None, None, [])
  }

  /** Span s once it hangs off ctx and is finished at `at`. */
  function FinishedUnder(s: SpanRecord, ctx: Context, at: Instant): SpanRecord {
    s.(parent := ctx, finishes := s.finishes + [at])
  }

  /** span.FinishWithOptions(FinishTime: at) on the span at position `id` of the log. */
  function Finish(log: seq<SpanRecord>, id: nat, at: Instant): (r: seq<SpanRecord>)
    requires id < |log|
    ensures |r| == |log|
    ensures r[id] == log[id].(finishes := log[id].finishes + [at])
    ensures forall j :: 0 <= j < |log| && j != id ==> r[j] == log[j]
  {
    log[id := log[id].(finishes := log[id].finishes + [at])]
  }
}
