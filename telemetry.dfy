/** The slice of the tracing API the interceptors call: starting a span,
    setting its attributes and status, recording an exception, making it
    current (which yields a scope to close) and ending it.

    A `Tracer` keeps every span it started, as a record, and every scope it
    opened; the interceptors refer to them by index, the way the Java code
    holds `Span` and `Scope` references. The span's own context (the ids the
    SDK generates) is an input of `StartSpan`. Ending is counted rather than
    guarded: `endCalls` says how many times `end()` was called, so that a
    second call is visible instead of hidden. */
module Telemetry {
  import opened Lang
  import opened TraceContext

  datatype SpanKind = Server | Client | Producer | Consumer

  datatype StatusCode = Unset | Ok | Error

  /** An attribute value: `AttributeKey.stringKey` or `AttributeKey.longKey`. */
  datatype AttributeValue = StringValue(text: string) | LongValue(number: int)

  /** The parent given to the span builder: `Context.current()` (whatever the
      calling thread holds) or a context wrapping a remote span context. */
  datatype Parent = CurrentContext | RemoteParent(context: SpanContext)

  datatype SpanRecord = SpanRecord(
    name: string,
    kind: SpanKind,
    parent: Parent,
    context: SpanContext,
    attributes: map<string, AttributeValue>,
    status: StatusCode,
    statusDescription: Option<string>,
    exceptions: seq<Throwable>,
    endCalls: nat)
  {
    predicate Ended() { endCalls > 0 }
  }

  /** What `startSpan()` returns: no attributes, status UNSET, not ended. */
  function Started(name: string, kind: SpanKind, parent: Parent, context: SpanContext): SpanRecord {
    SpanRecord(name, kind, parent, context, map[], Unset, None, [], 0)
  }

  /** A scope made by `makeCurrent()`, with the number of times it was closed. */
  datatype ScopeRecord = ScopeRecord(span: nat, closeCalls: nat)

  class Tracer {
    var spans: seq<SpanRecord>
    var scopes: seq<ScopeRecord>

    constructor ()
      ensures spans == [] && scopes == []
    {
      spans, scopes := [], [];
    }

    method StartSpan(name: string, kind: SpanKind, parent: Parent, context: SpanContext) returns (h: nat)
      modifies this
      ensures h == |old(spans)|
      ensures spans == old(spans) + [Started(name, kind, parent, context)]
      ensures scopes == old(scopes)
    {
      h := |spans|;
      spans := spans + [Started(name, kind, parent, context)];
    }

    method SetAttribute(h: nat, key: string, value: AttributeValue)
      requires h < |spans|
      modifies this
      ensures spans == old(spans[h := spans[h].(attributes := spans[h].attributes[key := value])])
      ensures scopes == old(scopes)
    {
      spans := spans[h := spans[h].(attributes := spans[h].attributes[key := value])];
    }

    method SetStatus(h: nat, code: StatusCode, description: Option<string>)
      requires h < |spans|
      modifies this
      ensures spans == old(spans[h := spans[h].(status := code, statusDescription := description)])
      ensures scopes == old(scopes)
    {
      spans := spans[h := spans[h].(status := code, statusDescription := description)];
    }

    method RecordException(h: nat, exception: Throwable)
      requires h < |spans|
      modifies this
      ensures spans == old(spans[h := spans[h].(exceptions := spans[h].exceptions + [exception])])
      ensures scopes == old(scopes)
    {
      spans := spans[h := spans[h].(exceptions := spans[h].exceptions + [exception])];
    }

    method End(h: nat)
      requires h < |spans|
      modifies this
      ensures spans == old(spans[h := spans[h].(endCalls := spans[h].endCalls + 1)])
      ensures scopes == old(scopes)
    {
      spans := spans[h := spans[h].(endCalls := spans[h].endCalls + 1)];
    }

    method MakeCurrent(h: nat) returns (scope: nat)
      requires h < |spans|
      modifies this
      ensures scope == |old(scopes)|
      ensures scopes == old(scopes) + [ScopeRecord(h, 0)]
      ensures spans == old(spans)
    {
      scope := |scopes|;
      scopes := scopes + [ScopeRecord(h, 0)];
    }

    method CloseScope(scope: nat)
      requires scope < |scopes|
      modifies this
      ensures scopes == old(scopes[scope := scopes[scope].(closeCalls := scopes[scope].closeCalls + 1)])
      ensures spans == old(spans)
    {
      scopes := scopes[scope := scopes[scope].(closeCalls := scopes[scope].closeCalls + 1)];
    }
  }
}
