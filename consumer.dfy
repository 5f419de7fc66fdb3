/** The consumer-side Kafka interceptor: for every record of a consumed batch
    it recovers the producer's span context from the record headers and starts
    and immediately ends one CONSUMER span under it.

    The parent is found by a three-step fallback: a `traceparent` header in
    the W3C layout `version-traceId-spanId-flags`; otherwise separate
    `traceId` and `spanId` headers; otherwise no remote parent at all. The
    `traceparent` parser is the interceptor's own and keeps its quirks: the
    version field is never looked at, fields beyond the fourth are accepted,
    the split drops trailing empty fields, and the flags go through
    `Byte.parseByte(…, 16)`, which rejects every value from 0x80 up. */
module KafkaConsumerTracing {
  import opened Lang
  import opened JavaText
  import opened TraceContext
  import opened Telemetry
  import opened Kafka

  const TraceparentHeader := "traceparent"
  const TraceIdHeader := "traceId"
  const SpanIdHeader := "spanId"

  /** `getHeaderValue`: the value of the last header with this key; a header
      whose value is null counts as absent, even if an earlier header with
      the same key has a value. */
  function GetHeaderValue(headers: seq<Header>, key: string): (r: Option<string>)
    ensures r.Some? ==> exists i :: 0 <= i < |headers| && headers[i] == Header(key, r)
                                    && forall j :: i < j < |headers| ==> headers[j].key != key
    ensures r.None? ==> forall i :: 0 <= i < |headers| && headers[i].key == key && headers[i].value.Some? ==>
                          exists j :: i < j < |headers| && headers[j].key == key
  {
    match LastHeader(headers, key)
    case Some(h) => h.value
    case None => None
  }

  /** Appending a header decides the lookup of its key and no other. */
  lemma GetHeaderValueAppend(headers: seq<Header>, h: Header, key: string)
    ensures GetHeaderValue(headers + [h], key) ==
              if h.key == key then h.value else GetHeaderValue(headers, key)
  {
    assert (headers + [h])[..|headers|] == headers;
  }

  /** The parse of fields 1, 2 and 3 (trace id, span id, flags). */
  function ParseFields(traceId: string, spanId: string, flagsHex: string): (r: Option<SpanContext>)
    ensures r.Some? <==> ParseByte(flagsHex, 16).Some?
    ensures r.Some? ==> r.value.remote && (IsValid(r.value) <==> IsValidTraceId(traceId) && IsValidSpanId(spanId))
  {
    match ParseByte(flagsHex, 16)
    case None => None
    case Some(b) => Some(CreateFromRemoteParent(traceId, spanId, FlagsFromByte(b)))
  }

  /** `parseTraceparent`: none when the split yields fewer than four parts or
      the flags are not a signed hex byte (the NumberFormatException that the
      catch block turns into null). */
  function ParseTraceparent(traceparent: string): (r: Option<SpanContext>)
    ensures r.Some? ==> r.value.remote
  {
    var parts := JavaSplit(traceparent, '-');
    if |parts| < 4 then None else ParseFields(parts[1], parts[2], parts[3])
  }

  /** The same parse over every field, trailing empty ones included: dropping
      trailing empty fields never changes the outcome, because a dropped
      fourth field is empty and an empty flags field never parses. */
  lemma {:induction false} ParseTraceparentAllFields(traceparent: string)
    ensures ParseTraceparent(traceparent) ==
              var fields := SplitAll(traceparent, '-');
              if |fields| < 4 then None else ParseFields(fields[1], fields[2], fields[3])
  {
    var parts := JavaSplit(traceparent, '-');
    var fields := SplitAll(traceparent, '-');
    if |parts| < 4 && |fields| >= 4 {
      assert fields[3] == "";
      assert ParseByte(fields[3], 16) == None;
    }
  }

  /** A header built from dash-free fields parses fields 1 to 3 whatever the
      version field holds and however many fields follow the fourth. */
  lemma ParseTraceparentJoin(fields: seq<string>)
    requires |fields| >= 1
    requires forall i :: 0 <= i < |fields| ==> '-' !in fields[i]
    ensures ParseTraceparent(Join(fields, '-')) ==
              if |fields| < 4 then None else ParseFields(fields[1], fields[2], fields[3])
  {
    SplitJoin(fields, '-');
    ParseTraceparentAllFields(Join(fields, '-'));
  }

  /** The context carried by a `traceparent` header, when there is a header
      and it parses to a valid context. */
  function TraceparentContext(headers: seq<Header>): (r: Option<SpanContext>)
    ensures r.Some? ==> IsValid(r.value) && r.value.remote
    ensures r.Some? ==> GetHeaderValue(headers, TraceparentHeader).Some?
  {
    match GetHeaderValue(headers, TraceparentHeader)
    case None => None
    case Some(tp) =>
      match ParseTraceparent(tp)
      case Some(c) => if IsValid(c) then Some(c) else None
      case None => None
  }

  /** The context carried by separate `traceId` and `spanId` headers, with the
      default flags, when both are there and form a valid context. */
  function SeparateHeadersContext(headers: seq<Header>): (r: Option<SpanContext>)
    ensures r.Some? ==> IsValid(r.value) && r.value.remote && r.value.flags == DefaultFlags
    ensures r.Some? ==> GetHeaderValue(headers, TraceIdHeader) == Some(r.value.traceId)
                        && GetHeaderValue(headers, SpanIdHeader) == Some(r.value.spanId)
  {
    match (GetHeaderValue(headers, TraceIdHeader), GetHeaderValue(headers, SpanIdHeader))
    case (Some(t), Some(s)) =>
      var c := CreateFromRemoteParent(t, s, DefaultFlags);
      if IsValid(c) then Some(c) else None
    case _ => None
  }

  /** `extractParentContext`: a remote parent is always a valid remote
      context, and it comes from the `traceparent` header whenever that header
      yields one. */
  function ExtractParentContext(headers: seq<Header>): (p: Parent)
    ensures p.RemoteParent? ==> IsValid(p.context) && p.context.remote
    ensures TraceparentContext(headers).Some? ==> p == RemoteParent(TraceparentContext(headers).value)
    ensures TraceparentContext(headers).None? && SeparateHeadersContext(headers).Some? ==>
              p == RemoteParent(SeparateHeadersContext(headers).value) && p.context.flags == DefaultFlags
    ensures p == CurrentContext <==>
              TraceparentContext(headers).None? && SeparateHeadersContext(headers).None?
  {
    var tp := GetHeaderValue(headers, TraceparentHeader);
    if tp.Some? && ParseTraceparent(tp.value).Some? && IsValid(ParseTraceparent(tp.value).value) then
      RemoteParent(ParseTraceparent(tp.value).value)
    else
      var traceId := GetHeaderValue(headers, TraceIdHeader);
      var spanId := GetHeaderValue(headers, SpanIdHeader);
      if traceId.Some? && spanId.Some? && IsValid(CreateFromRemoteParent(traceId.value, spanId.value, DefaultFlags)) then
        RemoteParent(CreateFromRemoteParent(traceId.value, spanId.value, DefaultFlags))
      else
        CurrentContext
  }

  /** The attributes `processRecord` sets. */
  function ConsumerAttributes(record: ConsumerRecord): (attrs: map<string, AttributeValue>)
    ensures "messaging.kafka.message_key" in attrs <==> record.key.Some?
    ensures record.key.Some? ==> attrs["messaging.kafka.message_key"] == StringValue(record.key.value)
    ensures "messaging.destination" in attrs && attrs["messaging.destination"] == StringValue(record.topic)
    ensures "messaging.kafka.offset" in attrs && attrs["messaging.kafka.offset"] == LongValue(record.offset)
  {
    var common := map[
      "messaging.system" := StringValue("kafka"),
      "messaging.destination" := StringValue(record.topic),
      "messaging.operation" := StringValue("consume"),
      "messaging.kafka.partition" := LongValue(record.partition),
      "messaging.kafka.offset" := LongValue(record.offset)];
    if record.key.Some? then common["messaging.kafka.message_key" := StringValue(record.key.value)]
    else common
  }

  /** The span `processRecord` leaves behind for `record`, `context` being the
      ids the tracer generated for it. */
  function ConsumerSpan(record: ConsumerRecord, context: SpanContext): (s: SpanRecord)
    ensures s.kind == Consumer && s.endCalls == 1 && s.status == Unset
    ensures s.parent == ExtractParentContext(record.headers)
    ensures "messaging.kafka.message_key" in s.attributes <==> record.key.Some?
    ensures record.key.Some? ==> s.attributes["messaging.kafka.message_key"] == StringValue(record.key.value)
  {
    Started("kafka consume " + record.topic, Consumer, ExtractParentContext(record.headers), context)
      .(attributes := ConsumerAttributes(record), endCalls := 1)
  }

  function ConsumerSpans(records: seq<ConsumerRecord>, contexts: seq<SpanContext>): (r: seq<SpanRecord>)
    requires |contexts| == |records|
    ensures |r| == |records|
  {
    seq(|records|, i requires 0 <= i < |records| => ConsumerSpan(records[i], contexts[i]))
  }

  class TracingKafkaConsumerInterceptor {
    const tracer: Tracer

    constructor (tracer: Tracer)
      ensures this.tracer == tracer
    {
      this.tracer := tracer;
    }

    /** `onConsume`: the batch is returned as it came, and exactly one ended
        CONSUMER span is added per record, in record order. `contexts` are the
        ids the tracer generates, one per record. */
    method OnConsume(records: seq<ConsumerRecord>, contexts: seq<SpanContext>) returns (r: seq<ConsumerRecord>)
      requires |contexts| == |records|
      modifies tracer
      ensures r == records
      ensures tracer.spans == old(tracer.spans) + ConsumerSpans(records, contexts)
      ensures tracer.scopes == old(tracer.scopes)
    {
      var i := 0;
      while i < |records|
        invariant 0 <= i <= |records|
        invariant tracer.spans == old(tracer.spans) + ConsumerSpans(records[..i], contexts[..i])
        invariant tracer.scopes == old(tracer.scopes)
      {
        ProcessRecord(records[i], contexts[i]);
        assert ConsumerSpans(records[..i + 1], contexts[..i + 1])
            == ConsumerSpans(records[..i], contexts[..i]) + [ConsumerSpan(records[i], contexts[i])];
        i := i + 1;
      }
      assert records[..i] == records && contexts[..i] == contexts;
      r := records;
    }

    /** `processRecord`: start the span under the extracted parent, tag it,
        and end it in the `finally` block. */
    method ProcessRecord(record: ConsumerRecord, context: SpanContext)
      modifies tracer
      ensures tracer.spans == old(tracer.spans) + [ConsumerSpan(record, context)]
      ensures tracer.scopes == old(tracer.scopes)
    {
      var parent := ExtractParentContext(record.headers);
      var span := tracer.StartSpan("kafka consume " + record.topic, Consumer, parent, context);
      tracer.SetAttribute(span, "messaging.system", StringValue("kafka"));
      tracer.SetAttribute(span, "messaging.destination", StringValue(record.topic));
      tracer.SetAttribute(span, "messaging.operation", StringValue("consume"));
      tracer.SetAttribute(span, "messaging.kafka.partition", LongValue(record.partition));
      tracer.SetAttribute(span, "messaging.kafka.offset", LongValue(record.offset));
      if record.key.Some? {
        tracer.SetAttribute(span, "messaging.kafka.message_key", StringValue(record.key.value));
      }
      tracer.End(span);
    }
  }
}
