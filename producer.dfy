/** The producer-side Kafka interceptor: for every record about to be sent it
    starts a PRODUCER span, writes that span's context into the record headers
    (`traceId`, `spanId` and a W3C-style `traceparent`), and ends the span at
    once, because the send itself happens later on another thread.

    The lemmas at the end pair this encoder with the consumer's decoder. */
module KafkaProducerTracing {
  import opened Lang
  import opened JavaText
  import opened TraceContext
  import opened Telemetry
  import opened Kafka
  import opened KafkaConsumerTracing

  /** The `traceparent` value: version `00`, trace id, span id and the flags
      in hex, joined by dashes. */
  function EncodeTraceparent(context: SpanContext): (s: string)
    ensures IsValid(context) ==> |s| == 55 && s[..3] == "00-"
  {
    "00-" + context.traceId + "-" + context.spanId + "-" + FlagsHex(context.flags)
  }

  /** The three headers `onSend` appends, in order. */
  function InjectedHeaders(context: SpanContext): seq<Header> {
    [ Header(TraceIdHeader, Some(context.traceId)),
      Header(SpanIdHeader, Some(context.spanId)),
      Header(TraceparentHeader, Some(EncodeTraceparent(context))) ]
  }

  /** The attributes `onSend` sets on its span. */
  function ProducerAttributes(topic: string, partition: Option<int>): (attrs: map<string, AttributeValue>)
    ensures "messaging.kafka.partition" in attrs <==> partition.Some?
    ensures partition.Some? ==> attrs["messaging.kafka.partition"] == LongValue(partition.value)
    ensures "messaging.destination" in attrs && attrs["messaging.destination"] == StringValue(topic)
  {
    var common := map[
      "messaging.system" := StringValue("kafka"),
      "messaging.destination" := StringValue(topic),
      "messaging.operation" := StringValue("publish")];
    if partition.Some? then common["messaging.kafka.partition" := LongValue(partition.value)] else common
  }

  /** The span `onSend` leaves behind, `context` being the ids the tracer
      generated for it. */
  function ProducerSpan(topic: string, partition: Option<int>, context: SpanContext): (s: SpanRecord)
    ensures s.name == "kafka publish " + topic && s.kind == Producer && s.endCalls == 1
    ensures s.parent == CurrentContext && s.context == context
    ensures "messaging.kafka.partition" in s.attributes <==> partition.Some?
  {
    Started("kafka publish " + topic, Producer, CurrentContext, context)
      .(attributes := ProducerAttributes(topic, partition), endCalls := 1)
  }

  class TracingKafkaProducerInterceptor {
    const tracer: Tracer

    constructor (tracer: Tracer)
      ensures this.tracer == tracer
    {
      this.tracer := tracer;
    }

    /** `onSend`: the same record comes back with the three headers appended
        after the ones it had; the span is ended exactly once, also when the
        headers are read-only and the first `add` throws, in which case the
        exception leaves `onSend` and no header is added. */
    method OnSend(record: ProducerRecord, context: SpanContext) returns (result: Outcome<ProducerRecord>)
      modifies tracer, record
      ensures tracer.spans == old(tracer.spans) + [ProducerSpan(record.topic, record.partition, context)]
      ensures tracer.scopes == old(tracer.scopes)
      ensures !record.headersReadOnly ==>
                result == Returned(record) && record.headers == old(record.headers) + InjectedHeaders(context)
      ensures record.headersReadOnly ==>
                result == Threw(Throwable("IllegalStateException", Some(HeadersClosedMessage)))
                && record.headers == old(record.headers)
    {
      var span := tracer.StartSpan("kafka publish " + record.topic, Producer, CurrentContext, context);
      tracer.SetAttribute(span, "messaging.system", StringValue("kafka"));
      tracer.SetAttribute(span, "messaging.destination", StringValue(record.topic));
      tracer.SetAttribute(span, "messaging.operation", StringValue("publish"));
      if record.partition.Some? {
        tracer.SetAttribute(span, "messaging.kafka.partition", LongValue(record.partition.value));
      }
      var added := record.AddHeader(TraceIdHeader, context.traceId);
      if added.Normal? {
        added := record.AddHeader(SpanIdHeader, context.spanId);
      }
      if added.Normal? {
        added := record.AddHeader(TraceparentHeader, EncodeTraceparent(context));
      }
      tracer.End(span);
      if added.Abrupt? {
        return Threw(added.exception);
      }
      result := Returned(record);
    }

    /** `onAcknowledgement` does nothing: the span was already ended. */
    method OnAcknowledgement(metadata: RecordMetadata, exception: Option<Throwable>)
      ensures unchanged(tracer)
    {
    }
  }

  /** Lowercase hex never holds the field separator. */
  lemma NoDashInHex(s: string)
    requires IsLowerHex(s)
    ensures '-' !in s
  {
  }

  /** Round trip: the consumer's parser reads back the producer's
      `traceparent` for every valid context whose flags are below 0x80, and
      returns none for every flags byte from 0x80 up. */
  lemma TraceparentRoundTrip(context: SpanContext)
    requires IsValid(context)
    ensures context.flags < 0x80 ==>
              ParseTraceparent(EncodeTraceparent(context)) == Some(context.(remote := true))
    ensures context.flags >= 0x80 ==> ParseTraceparent(EncodeTraceparent(context)) == None
  {
    var fields := ["00", context.traceId, context.spanId, FlagsHex(context.flags)];
    NoDashInHex(FlagsHex(context.flags));
    var flags := FlagsHex(context.flags);
    assert fields[1..][1..] == fields[2..] && fields[2..][1..] == fields[3..];
    assert Join(fields[3..], '-') == flags;
    assert Join(fields[2..], '-') == context.spanId + "-" + flags;
    assert Join(fields[1..], '-') == context.traceId + "-" + context.spanId + "-" + flags;
    assert EncodeTraceparent(context) == Join(fields, '-');
    ParseTraceparentJoin(fields);
    FlagsHexParse(context.flags);
  }

  /** The consumer's last-header lookup finds the values just injected,
      whatever `traceId`, `spanId` or `traceparent` headers the record
      carried before. */
  lemma InjectedHeadersWin(headers: seq<Header>, context: SpanContext)
    ensures GetHeaderValue(headers + InjectedHeaders(context), TraceIdHeader) == Some(context.traceId)
    ensures GetHeaderValue(headers + InjectedHeaders(context), SpanIdHeader) == Some(context.spanId)
    ensures GetHeaderValue(headers + InjectedHeaders(context), TraceparentHeader) == Some(EncodeTraceparent(context))
  {
    var inj := InjectedHeaders(context);
    var h1 := headers + [inj[0]];
    var h2 := h1 + [inj[1]];
    assert headers + inj == h2 + [inj[2]];
    GetHeaderValueAppend(headers, inj[0], TraceIdHeader);
    GetHeaderValueAppend(h1, inj[1], TraceIdHeader);
    GetHeaderValueAppend(h2, inj[2], TraceIdHeader);
    GetHeaderValueAppend(h1, inj[1], SpanIdHeader);
    GetHeaderValueAppend(h2, inj[2], SpanIdHeader);
    GetHeaderValueAppend(h2, inj[2], TraceparentHeader);
  }

  /** End to end: a consumer of a record produced with a valid span context
      takes that context as its remote parent. Flags from 0x80 up do not
      survive: the `traceparent` is rejected and the separate-header fallback
      supplies the ids with the default flags. */
  lemma PropagationRoundTrip(headers: seq<Header>, context: SpanContext)
    requires IsValid(context)
    ensures ExtractParentContext(headers + InjectedHeaders(context)) ==
              RemoteParent(if context.flags < 0x80 then context.(remote := true)
                           else context.(remote := true, flags := DefaultFlags))
  {
    InjectedHeadersWin(headers, context);
    TraceparentRoundTrip(context);
  }
}
