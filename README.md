# Trace-context propagation in the observability starter

A Dafny model of the request- and message-level tracing core of the Spring
Boot observability starter:

- **RequestContextFilter** (logging) fills the SLF4J MDC for one HTTP
  request and clears it again afterwards. It adds a fresh request id, the
  trace and span ids, the method and URI, selected request headers under
  `header.` and fixed custom fields.
- **TracingKafkaProducerInterceptor** starts and ends a PRODUCER span for
  every record sent. It appends `traceId`, `spanId` and a W3C-style
  `traceparent` header to the record.
- **TracingKafkaConsumerInterceptor** reads those headers back. It picks a
  remote parent by a three-step fallback, and starts and ends one CONSUMER
  span per consumed record.
- **TracingInterceptor** (Spring MVC) opens a SERVER span in `preHandle`.
  It parks the span and its scope in request attributes. In
  `afterCompletion` it maps the outcome to a span status, closes the scope
  and ends the span.

Files:

- `lang.dfy`: Option, Throwable, and normal or abrupt completion.
- `java_text.dfy`: the java.lang string and number behaviour the code
  relies on, quirks included.
- `trace_context.dfy`: span contexts, trace flags and the id validity
  rule.
- `telemetry.dfy`: a tracer that records every span and scope, and counts
  calls to `end()` and `close()`.
- `servlet.dfy`: the servlet request and response.
- `kafka.dfy`: Kafka headers and records.
- `logging.dfy`: the MDC filter.
- `consumer.dfy`: the consumer interceptor.
- `producer.dfy`: the producer interceptor, with the producer-to-consumer
  round-trip lemmas.
- `http_tracing.dfy`: the MVC interceptor.

Stateful code is modelled with classes:

- the MDC, the filter chain and the response;
- a producer record's header list;
- the servlet request's attributes;
- the tracer's spans and scopes.

Header parsing, the parent-extraction fallback and the status mapping are
functions. The values the code draws from outside are inputs:

- the random UUIDs;
- the ids the tracing SDK generates for a new span.

Two observations come out of the proofs. Both are modelled exactly as the
code behaves:

- A producer span whose flags byte is 0x80 or above does not survive the
  `traceparent` path. `Byte.parseByte(…, 16)` rejects it, and the consumer
  falls back to the separate `traceId`/`spanId` headers. The consumer
  therefore sees the right ids but the default flags 00
  (`PropagationRoundTrip`).
- Java's `split` drops trailing empty fields, but this never changes the
  parser's result (`ParseTraceparentAllFields`).

The id validity rule follows sections 3.2.2.3 and 3.2.2.4 of the W3C Trace
Context recommendation. It is the tracing library's `SpanContext.isValid`,
which the code calls but does not define, so it is an assumption of this
model: 32 lowercase hex characters for a trace id, 16 for a span id, and
neither all zeros.

## Model

| member | source | states |
|---|---|---|
| JavaText.JavaSplit | starter-autoconfigure/src/main/java/com/ayushwing/observability/autoconfigure/tracing/TracingKafkaConsumerInterceptor.java:120 | `String.split`: a string without the delimiter comes back whole; otherwise the parts are a prefix of all delimiter-separated fields, every field dropped is empty, and the last part kept is not empty |
| JavaText.SplitJoin | starter-autoconfigure/src/main/java/com/ayushwing/observability/autoconfigure/tracing/TracingKafkaConsumerInterceptor.java:120 | splitting dash-free fields joined by dashes gives back exactly those fields |
| JavaText.ParseByte | starter-autoconfigure/src/main/java/com/ayushwing/observability/autoconfigure/tracing/TracingKafkaConsumerInterceptor.java:126 | `Byte.parseByte` only ever yields a value in -128..127 |
| JavaText.IsBlank | starter-autoconfigure/src/main/java/com/ayushwing/observability/autoconfigure/logging/RequestContextFilter.java:84 | `String.isBlank`: every character is Java white space (so the empty string is blank) |
| JavaText.IsNullOrBlank | starter-autoconfigure/src/main/java/com/ayushwing/observability/autoconfigure/logging/RequestContextFilter.java:84 | the null-or-blank guard on the `X-Trace-Id` and `X-Span-Id` headers: absent, or every character white space |
| JavaText.Lower | starter-autoconfigure/src/main/java/com/ayushwing/observability/autoconfigure/logging/RequestContextFilter.java:133-134 | `toLowerCase` on ASCII: same length, no upper-case ASCII letter left, every other character kept |
| JavaText.Trim | starter-autoconfigure/src/main/java/com/ayushwing/observability/autoconfigure/logging/RequestContextFilter.java:154 | `String.trim`: the result is empty or starts and ends above U+0020 |
| JavaText.TrimCutsBlankEnds | starter-autoconfigure/src/main/java/com/ayushwing/observability/autoconfigure/logging/RequestContextFilter.java:154 | the trimmed string is a slice of the input, and only characters at or below U+0020 are cut off either end |
| JavaText.ParseInt | starter-autoconfigure/src/main/java/com/ayushwing/observability/autoconfigure/tracing/TracingKafkaConsumerInterceptor.java:126 | `Integer.parseInt` in a radix: a result lies in the 32-bit range |
| JavaText.ParseLong | starter-autoconfigure/src/main/java/com/ayushwing/observability/autoconfigure/tracing/TracingInterceptor.java:73-74 | `Long.parseLong`: a result lies in the 64-bit range |
| JavaText.IntToString | starter-autoconfigure/src/main/java/com/ayushwing/observability/autoconfigure/tracing/TracingInterceptor.java:108 | `Integer.toString`: non-empty, a leading minus exactly for negative numbers, decimal digits after it |
| JavaText.ParseLongIntToString | starter-autoconfigure/src/main/java/com/ayushwing/observability/autoconfigure/tracing/TracingInterceptor.java:73-74 | `Long.parseLong` reads back the decimal text of every long |
| TraceContext.IsValidTraceId | starter-autoconfigure/src/main/java/com/ayushwing/observability/autoconfigure/tracing/TracingKafkaConsumerInterceptor.java:95 | 32 lowercase hex characters, not all zero; hence never the invalid id and free of dashes |
| TraceContext.IsValidSpanId | starter-autoconfigure/src/main/java/com/ayushwing/observability/autoconfigure/tracing/TracingKafkaConsumerInterceptor.java:95 | 16 lowercase hex characters, not all zero; hence never the invalid id and free of dashes |
| TraceContext.IsValid | starter-autoconfigure/src/main/java/com/ayushwing/observability/autoconfigure/tracing/TracingKafkaConsumerInterceptor.java:107 | `isValid`: both ids valid; a valid context never carries the all-zero ids |
| TraceContext.CreateFromRemoteParent | starter-autoconfigure/src/main/java/com/ayushwing/observability/autoconfigure/tracing/TracingKafkaConsumerInterceptor.java:128-129 | the context is remote and keeps the flags; it is valid iff both ids are valid, and then it keeps them |
| TraceContext.FlagsHex | starter-autoconfigure/src/main/java/com/ayushwing/observability/autoconfigure/tracing/TracingKafkaProducerInterceptor.java:64 | `asHex` gives exactly two lowercase hex digits |
| TraceContext.FlagsHexParse | starter-autoconfigure/src/main/java/com/ayushwing/observability/autoconfigure/tracing/TracingKafkaConsumerInterceptor.java:126 | the hex form of flags below 0x80 parses back to the flags; from 0x80 up `parseByte` fails |
| Telemetry.Tracer.StartSpan | starter-autoconfigure/src/main/java/com/ayushwing/observability/autoconfigure/tracing/TracingKafkaConsumerInterceptor.java:62-65 | a new unended span with no attributes, status UNSET, appended under a fresh handle; scopes unchanged |
| Telemetry.Tracer.SetAttribute | starter-autoconfigure/src/main/java/com/ayushwing/observability/autoconfigure/tracing/TracingKafkaConsumerInterceptor.java:68-72 | only that span's attribute under that key changes |
| Telemetry.Tracer.SetStatus | starter-autoconfigure/src/main/java/com/ayushwing/observability/autoconfigure/tracing/TracingInterceptor.java:105 | only that span's status and description change |
| Telemetry.Tracer.RecordException | starter-autoconfigure/src/main/java/com/ayushwing/observability/autoconfigure/tracing/TracingInterceptor.java:106 | the exception is appended to that span's exceptions, nothing else changes |
| Telemetry.Tracer.End | starter-autoconfigure/src/main/java/com/ayushwing/observability/autoconfigure/tracing/TracingKafkaConsumerInterceptor.java:81 | that span's end count grows by one, with no guard; nothing else changes |
| Telemetry.Tracer.MakeCurrent | starter-autoconfigure/src/main/java/com/ayushwing/observability/autoconfigure/tracing/TracingInterceptor.java:81 | a new open scope for the span is appended; spans unchanged |
| Telemetry.Tracer.CloseScope | starter-autoconfigure/src/main/java/com/ayushwing/observability/autoconfigure/tracing/TracingInterceptor.java:118 | that scope's close count grows by one; spans unchanged |
| Kafka.LastHeader | starter-autoconfigure/src/main/java/com/ayushwing/observability/autoconfigure/tracing/TracingKafkaConsumerInterceptor.java:137 | the header found has the key and no later header has it; none means no header has the key |
| Kafka.ProducerRecord.AddHeader | starter-autoconfigure/src/main/java/com/ayushwing/observability/autoconfigure/tracing/TracingKafkaProducerInterceptor.java:66 | the header is appended, or, on read-only headers, IllegalStateException and nothing changes |
| KafkaConsumerTracing.GetHeaderValue | starter-autoconfigure/src/main/java/com/ayushwing/observability/autoconfigure/tracing/TracingKafkaConsumerInterceptor.java:136-142 | a value comes from the last header with the key; none means every valued header with the key is followed by one with the same key (null value counts as absent) |
| KafkaConsumerTracing.GetHeaderValueAppend | starter-autoconfigure/src/main/java/com/ayushwing/observability/autoconfigure/tracing/TracingKafkaConsumerInterceptor.java:137 | an appended header decides the lookup of its own key and leaves every other key's lookup alone |
| KafkaConsumerTracing.ParseTraceparent | starter-autoconfigure/src/main/java/com/ayushwing/observability/autoconfigure/tracing/TracingKafkaConsumerInterceptor.java:118-134 | a parsed context is marked remote |
| KafkaConsumerTracing.ParseTraceparentAllFields | starter-autoconfigure/src/main/java/com/ayushwing/observability/autoconfigure/tracing/TracingKafkaConsumerInterceptor.java:120-123 | the parse equals the same parse over all fields with trailing empty ones kept, so the dropping by `split` is unobservable |
| KafkaConsumerTracing.ParseTraceparentJoin | starter-autoconfigure/src/main/java/com/ayushwing/observability/autoconfigure/tracing/TracingKafkaConsumerInterceptor.java:120-129 | for dash-free fields: none below four fields, otherwise fields 1, 2 and 3 decide, whatever the version field and however many fields follow |
| KafkaConsumerTracing.ParseFields | starter-autoconfigure/src/main/java/com/ayushwing/observability/autoconfigure/tracing/TracingKafkaConsumerInterceptor.java:126-129 | a context iff the flags parse as a signed hex byte; it is remote and valid iff both ids are |
| KafkaConsumerTracing.TraceparentContext | starter-autoconfigure/src/main/java/com/ayushwing/observability/autoconfigure/tracing/TracingKafkaConsumerInterceptor.java:91-98 | a context only when a `traceparent` header is present, and then a valid remote one |
| KafkaConsumerTracing.SeparateHeadersContext | starter-autoconfigure/src/main/java/com/ayushwing/observability/autoconfigure/tracing/TracingKafkaConsumerInterceptor.java:101-110 | a context only when both `traceId` and `spanId` headers are present, holding their values, valid, remote, default flags |
| KafkaConsumerTracing.ExtractParentContext | starter-autoconfigure/src/main/java/com/ayushwing/observability/autoconfigure/tracing/TracingKafkaConsumerInterceptor.java:90-113 | a remote parent is valid; a usable traceparent wins; otherwise separate headers with default flags; no remote parent iff both fail (an invalid traceparent falls through) |
| KafkaConsumerTracing.ConsumerAttributes | starter-autoconfigure/src/main/java/com/ayushwing/observability/autoconfigure/tracing/TracingKafkaConsumerInterceptor.java:68-76 | the message key attribute iff the record has a key, with its text; destination is the topic, offset the record's offset |
| KafkaConsumerTracing.ConsumerSpan | starter-autoconfigure/src/main/java/com/ayushwing/observability/autoconfigure/tracing/TracingKafkaConsumerInterceptor.java:58-83 | CONSUMER kind, ended once, under the extracted parent, status untouched; the message key attribute iff the key is non-null, with its text |
| KafkaConsumerTracing.ConsumerSpans | starter-autoconfigure/src/main/java/com/ayushwing/observability/autoconfigure/tracing/TracingKafkaConsumerInterceptor.java:52-54 | one span per record |
| KafkaConsumerTracing.TracingKafkaConsumerInterceptor.OnConsume | starter-autoconfigure/src/main/java/com/ayushwing/observability/autoconfigure/tracing/TracingKafkaConsumerInterceptor.java:50-56 | the batch is returned unchanged; exactly one ended CONSUMER span per record is added, in record order |
| KafkaConsumerTracing.TracingKafkaConsumerInterceptor.ProcessRecord | starter-autoconfigure/src/main/java/com/ayushwing/observability/autoconfigure/tracing/TracingKafkaConsumerInterceptor.java:58-83 | exactly the record's consumer span is added; scopes unchanged |
| KafkaProducerTracing.EncodeTraceparent | starter-autoconfigure/src/main/java/com/ayushwing/observability/autoconfigure/tracing/TracingKafkaProducerInterceptor.java:70 | for a valid context, 55 characters starting with version `00-` |
| KafkaProducerTracing.InjectedHeaders | starter-autoconfigure/src/main/java/com/ayushwing/observability/autoconfigure/tracing/TracingKafkaProducerInterceptor.java:66-71 | the `traceId`, `spanId` and `traceparent` headers added, in that order (see `InjectedHeadersWin`) |
| KafkaProducerTracing.ProducerAttributes | starter-autoconfigure/src/main/java/com/ayushwing/observability/autoconfigure/tracing/TracingKafkaProducerInterceptor.java:53-59 | the partition attribute iff the record names a partition; destination is the topic |
| KafkaProducerTracing.ProducerSpan | starter-autoconfigure/src/main/java/com/ayushwing/observability/autoconfigure/tracing/TracingKafkaProducerInterceptor.java:46-59 | named `kafka publish <topic>`, PRODUCER kind, under the current context, ended once; partition attribute iff the partition is non-null |
| KafkaProducerTracing.TracingKafkaProducerInterceptor.OnSend | starter-autoconfigure/src/main/java/com/ayushwing/observability/autoconfigure/tracing/TracingKafkaProducerInterceptor.java:43-79 | the same record comes back with exactly the three headers appended in order after the old ones; the span is ended exactly once, also when the headers are read-only and the exception propagates with no header added |
| KafkaProducerTracing.TracingKafkaProducerInterceptor.OnAcknowledgement | starter-autoconfigure/src/main/java/com/ayushwing/observability/autoconfigure/tracing/TracingKafkaProducerInterceptor.java:82-84 | nothing changes |
| KafkaProducerTracing.TraceparentRoundTrip | starter-autoconfigure/src/main/java/com/ayushwing/observability/autoconfigure/tracing/TracingKafkaProducerInterceptor.java:70 | the consumer's parser reads back the producer's traceparent for every valid context with flags below 0x80, and rejects it from 0x80 up |
| KafkaProducerTracing.InjectedHeadersWin | starter-autoconfigure/src/main/java/com/ayushwing/observability/autoconfigure/tracing/TracingKafkaProducerInterceptor.java:66-71 | after injection the consumer's lookups find the injected values, whatever older headers the record carried |
| KafkaProducerTracing.PropagationRoundTrip | starter-autoconfigure/src/main/java/com/ayushwing/observability/autoconfigure/tracing/TracingKafkaProducerInterceptor.java:66-71 | a consumer of a produced record takes the producer's span context as its remote parent; from flags 0x80 up only the flags are lost (default 00) |
| Servlet.GetHeader | starter-autoconfigure/src/main/java/com/ayushwing/observability/autoconfigure/logging/RequestContextFilter.java:83 | `getHeader`: the first value whose name matches ignoring case (see `GetHeaderFirstMatch`) |
| Servlet.GetHeaderFirstMatch | starter-autoconfigure/src/main/java/com/ayushwing/observability/autoconfigure/logging/RequestContextFilter.java:83 | `getHeader` is empty exactly when no header has that name ignoring case, and otherwise the value of the first such header |
| Servlet.HeaderNames | starter-autoconfigure/src/main/java/com/ayushwing/observability/autoconfigure/logging/RequestContextFilter.java:128 | one name per request header |
| Servlet.GetHeaderOfListedName | starter-autoconfigure/src/main/java/com/ayushwing/observability/autoconfigure/logging/RequestContextFilter.java:132-134 | every listed header name has a value under `getHeader` |
| Servlet.HttpResponse.SetHeader | starter-autoconfigure/src/main/java/com/ayushwing/observability/autoconfigure/logging/RequestContextFilter.java:97 | the header is set to the value, replacing an earlier one; the status code is untouched |
| Logging.HeaderKey | starter-autoconfigure/src/main/java/com/ayushwing/observability/autoconfigure/logging/RequestContextFilter.java:134 | the MDC key of a header: `header.` plus the name in lower case (see `HeaderKeyNotFixed`, `HeaderKeyInjective`) |
| Logging.ParseHeaderFilter | starter-autoconfigure/src/main/java/com/ayushwing/observability/autoconfigure/logging/RequestContextFilter.java:149-158 | null or blank gives the empty set; every member is non-empty, trimmed and lowercase |
| Logging.ParseHeaderFilterJoin | starter-autoconfigure/src/main/java/com/ayushwing/observability/autoconfigure/logging/RequestContextFilter.java:153-157 | a comma-separated filter stands for exactly its non-blank entries, trimmed and lowercased |
| Logging.ResolveIds | starter-autoconfigure/src/main/java/com/ayushwing/observability/autoconfigure/logging/RequestContextFilter.java:79-94 | the request id is the fresh UUID; the trace id is the header when non-null and non-blank, else the request id; the span id is the header when usable, else the first 8 lowercase hex characters of a fresh UUID; no id is blank |
| Logging.HeaderKeys | starter-autoconfigure/src/main/java/com/ayushwing/observability/autoconfigure/logging/RequestContextFilter.java:144-145 | a key is in the set iff it is `header.` plus the lowercase form of one of the names |
| Logging.HeaderKeyInjective | starter-autoconfigure/src/main/java/com/ayushwing/observability/autoconfigure/logging/RequestContextFilter.java:134 | two header names get the same MDC key only if they are equal ignoring case |
| Logging.HeaderKeyNotFixed | starter-autoconfigure/src/main/java/com/ayushwing/observability/autoconfigure/logging/RequestContextFilter.java:43-45 | no header key coincides with one of the five fixed keys |
| Logging.Mdc.Put | starter-autoconfigure/src/main/java/com/ayushwing/observability/autoconfigure/logging/RequestContextFilter.java:80 | the key maps to the value, nothing else changes |
| Logging.Mdc.Remove | starter-autoconfigure/src/main/java/com/ayushwing/observability/autoconfigure/logging/RequestContextFilter.java:115 | the key is gone, nothing else changes |
| Logging.FilterChain.DoFilter | starter-autoconfigure/src/main/java/com/ayushwing/observability/autoconfigure/logging/RequestContextFilter.java:113 | the chain runs with the current MDC and response headers, and completes normally or with its failure |
| Logging.RequestContextFilter.constructor | starter-autoconfigure/src/main/java/com/ayushwing/observability/autoconfigure/logging/RequestContextFilter.java:52-54 | defaults: no headers, empty filter, request info on, no custom fields |
| Logging.RequestContextFilter.FromProperties | starter-autoconfigure/src/main/java/com/ayushwing/observability/autoconfigure/logging/RequestContextFilter.java:56-62 | the settings come from the properties, with the filter parsed and missing custom fields meaning none |
| Logging.RequestContextFilter.Admits | starter-autoconfigure/src/main/java/com/ayushwing/observability/autoconfigure/logging/RequestContextFilter.java:133 | an empty filter admits every header, otherwise the lower-cased name must be in it |
| Logging.RequestContextFilter.ContextDuring | starter-autoconfigure/src/main/java/com/ayushwing/observability/autoconfigure/logging/RequestContextFilter.java:79-111 | the context the chain runs with; every custom field is there with its configured value (more in the `ContextDuring*` lemmas) |
| Logging.RequestContextFilter.ManagedKeys | starter-autoconfigure/src/main/java/com/ayushwing/observability/autoconfigure/logging/RequestContextFilter.java:114-124 | the keys the `finally` block removes: the five fixed keys, every custom key and, with headers on, the key of every listed header |
| Logging.RequestContextFilter.DoFilterInternal | starter-autoconfigure/src/main/java/com/ayushwing/observability/autoconfigure/logging/RequestContextFilter.java:72-125 | the chain runs with the context `ContextDuring` describes and sees `X-Trace-Id` already on the response; its failure is propagated unchanged; on both exit paths the MDC ends as before minus exactly the managed keys; the response status is untouched |
| Logging.RequestContextFilter.PopulateContext | starter-autoconfigure/src/main/java/com/ayushwing/observability/autoconfigure/logging/RequestContextFilter.java:78-111 | the MDC becomes `ContextDuring` of the old MDC; the response gets `X-Trace-Id` = the resolved trace id and keeps its status |
| Logging.RequestContextFilter.ClearContext | starter-autoconfigure/src/main/java/com/ayushwing/observability/autoconfigure/logging/RequestContextFilter.java:114-124 | the MDC loses exactly the managed keys |
| Logging.RequestContextFilter.AddHeadersToMdc | starter-autoconfigure/src/main/java/com/ayushwing/observability/autoconfigure/logging/RequestContextFilter.java:127-137 | every admitted header is copied in order; no header names means no change |
| Logging.RequestContextFilter.RemoveHeadersFromMdc | starter-autoconfigure/src/main/java/com/ayushwing/observability/autoconfigure/logging/RequestContextFilter.java:139-147 | the key of every header, admitted or not, is removed; no header names means no change |
| Logging.RequestContextFilter.PutCustomFields | starter-autoconfigure/src/main/java/com/ayushwing/observability/autoconfigure/logging/RequestContextFilter.java:111 | the MDC is overridden with every custom field |
| Logging.RequestContextFilter.RemoveCustomFields | starter-autoconfigure/src/main/java/com/ayushwing/observability/autoconfigure/logging/RequestContextFilter.java:123 | every custom key is removed |
| Logging.RequestContextFilter.PutHeadersFrame | starter-autoconfigure/src/main/java/com/ayushwing/observability/autoconfigure/logging/RequestContextFilter.java:132-136 | copying headers touches header keys only |
| Logging.RequestContextFilter.PutHeadersValue | starter-autoconfigure/src/main/java/com/ayushwing/observability/autoconfigure/logging/RequestContextFilter.java:133-134 | an admitted header's key holds the value `getHeader` gives for it |
| Logging.RequestContextFilter.PutHeadersSkips | starter-autoconfigure/src/main/java/com/ayushwing/observability/autoconfigure/logging/RequestContextFilter.java:133 | a key no admitted name maps to keeps its old presence and value |
| Logging.RequestContextFilter.CleanupRestores | starter-autoconfigure/src/main/java/com/ayushwing/observability/autoconfigure/logging/RequestContextFilter.java:114-124 | removing the managed keys from the context during the chain leaves what removing them from the pre-call MDC leaves |
| Logging.RequestContextFilter.ContextDuringIds | starter-autoconfigure/src/main/java/com/ayushwing/observability/autoconfigure/logging/RequestContextFilter.java:79-111 | during the chain every custom field holds its value; otherwise the request, trace and span ids hold the resolved ids |
| Logging.RequestContextFilter.ContextDuringRequestInfo | starter-autoconfigure/src/main/java/com/ayushwing/observability/autoconfigure/logging/RequestContextFilter.java:100-103 | method and URI are present with the request's values when request info is on; otherwise present only if already there |
| Logging.RequestContextFilter.InfoUntouchedByHeaders | starter-autoconfigure/src/main/java/com/ayushwing/observability/autoconfigure/logging/RequestContextFilter.java:106-108 | copying headers leaves the five fixed keys as they were |
| Logging.RequestContextFilter.ContextDuringHeaders | starter-autoconfigure/src/main/java/com/ayushwing/observability/autoconfigure/logging/RequestContextFilter.java:106-108 | with headers on, an admitted header is present under `header.<lowercase name>` with its value; a header not admitted adds nothing |
| Logging.RequestContextFilter.ContextDuringKeys | starter-autoconfigure/src/main/java/com/ayushwing/observability/autoconfigure/logging/RequestContextFilter.java:78-111 | every key present during the chain was there before or is managed; without headers on, no header key is added |
| HttpServerTracing.AttributeNamesDiffer | starter-autoconfigure/src/main/java/com/ayushwing/observability/autoconfigure/tracing/TracingInterceptor.java:37-38 | the span and scope attribute keys differ |
| HttpServerTracing.ServletRequest.GetAttribute | starter-autoconfigure/src/main/java/com/ayushwing/observability/autoconfigure/tracing/TracingInterceptor.java:92-93 | `getAttribute`: the stored object, or none for null |
| HttpServerTracing.ServletRequest.SetAttribute | starter-autoconfigure/src/main/java/com/ayushwing/observability/autoconfigure/tracing/TracingInterceptor.java:82-83 | the attribute is set, nothing else changes |
| HttpServerTracing.CastToSpan | starter-autoconfigure/src/main/java/com/ayushwing/observability/autoconfigure/tracing/TracingInterceptor.java:92 | null stays null, a span is returned, anything else throws ClassCastException |
| HttpServerTracing.CastToScope | starter-autoconfigure/src/main/java/com/ayushwing/observability/autoconfigure/tracing/TracingInterceptor.java:93 | null stays null, a scope is returned, anything else throws ClassCastException |
| HttpServerTracing.ServerAttributes | starter-autoconfigure/src/main/java/com/ayushwing/observability/autoconfigure/tracing/TracingInterceptor.java:58-78 | user agent iff the header is present, with its value; content length iff the header parses as a long, and then within the long range |
| HttpServerTracing.ServerSpan | starter-autoconfigure/src/main/java/com/ayushwing/observability/autoconfigure/tracing/TracingInterceptor.java:50-55 | named `<method> <URI>`, SERVER kind, under the current context, not ended, status UNSET |
| HttpServerTracing.StatusFor | starter-autoconfigure/src/main/java/com/ayushwing/observability/autoconfigure/tracing/TracingInterceptor.java:104-115 | ERROR iff an exception or a code of 500 or more; UNSET iff no exception and a 4xx code; OK iff no exception and a code below 400; the exception message, or `HTTP <code>` for 5xx, as description |
| HttpServerTracing.Completed | starter-autoconfigure/src/main/java/com/ayushwing/observability/autoconfigure/tracing/TracingInterceptor.java:101-120 | the span gains exactly the `http.status_code` attribute, takes the status and description `StatusFor` gives, records the exception iff there is one, is ended once more; name, kind, parent and context unchanged |
| HttpServerTracing.TracingInterceptor.PreHandle | starter-autoconfigure/src/main/java/com/ayushwing/observability/autoconfigure/tracing/TracingInterceptor.java:46-86 | always returns true; appends the server span and its scope; stores both handles under the two fixed attribute keys |
| HttpServerTracing.TracingInterceptor.AfterCompletion | starter-autoconfigure/src/main/java/com/ayushwing/observability/autoconfigure/tracing/TracingInterceptor.java:88-122 | a foreign object under either key throws ClassCastException and changes nothing; no span changes nothing; otherwise the span is completed and ended once more, and the scope (if any) closed once |
| HttpServerTracing.TracingInterceptor.ServeRequest | starter-autoconfigure/src/main/java/com/ayushwing/observability/autoconfigure/tracing/TracingInterceptor.java:46-122 | one request through both callbacks leaves one server span ended exactly once and its scope closed exactly once |
| HttpServerTracing.TracingInterceptor.ServeRequestCompletingTwice | starter-autoconfigure/src/main/java/com/ayushwing/observability/autoconfigure/tracing/TracingInterceptor.java:116-121 | a second `afterCompletion` ends the span a second time and closes the scope a second time: nothing guards against it |
| HttpServerTracing.ServerErrorDescription | starter-autoconfigure/src/main/java/com/ayushwing/observability/autoconfigure/tracing/TracingInterceptor.java:108 | the 5xx description is `HTTP ` followed by the code's digits, which read back as the code |
| HttpServerTracing.ContentLengthAttribute | starter-autoconfigure/src/main/java/com/ayushwing/observability/autoconfigure/tracing/TracingInterceptor.java:70-78 | a well-formed Content-Length reaches the span as the number it spells |

## Left out

- Character encoding: Kafka header values are modelled as text. The UTF-8 `getBytes`/`new String` pair is taken to be lossless.
- Non-ASCII text: Unicode digits (which `Character.digit` accepts) and non-ASCII case mapping in `toLowerCase` are not modelled; digits and lower-casing are ASCII only.
- Randomness: UUIDs and the tracing SDK's trace and span ids are inputs. Their randomness and uniqueness are not modelled.
- Tracing-library internals are not modelled: `Context.current()`, `Span.wrap`, trace state, sampling and export. A parent is either "the current context" or a remote span context. The SDK's own guards are not modelled either: ignoring a second `end()` and ignoring attributes on an ended span. The model counts calls instead.
- Logging: `log.debug` and `log.warn` calls have no effect on the modelled state and are left out.
- Threads: the thread-local nature of the MDC and of the current span, `OncePerRequestFilter`'s dispatch handling, and Kafka's acknowledgement threads are not modelled. One request or record is processed at a time.
- The rest of the filter chain is opaque. It is modelled as recording what it saw and then completing normally or with a given failure; it changes neither the MDC nor the response itself, so the response status the filter leaves alone stays as it was.
- Logging.RequestContextFilter.DoFilterInternal: only failures of the chain are modelled. An exception thrown by the MDC or the response before the chain runs is not.
- HttpServerTracing.CastToSpan: the message text of ClassCastException is not modelled.
- Configuration wiring: bean registration, the property classes and sampler selection are outside this model. The filter takes its settings as a `LoggingProperties` value.
- Consumer and producer lifecycle no-ops: `onCommit`, `close` and `configure` do nothing and are not modelled.
