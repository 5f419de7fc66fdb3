/** The servlet filter that fills the logging context (the SLF4J MDC) for the
    duration of one HTTP request: a fresh request id, the trace and span ids
    (taken from the `X-Trace-Id` and `X-Span-Id` headers when present), the
    method and URI, chosen request headers under a `header.` prefix, and fixed
    custom fields. Whatever happens in the rest of the chain, every key the
    filter manages is removed again afterwards, so that nothing carries over to
    the next request served on the same thread. */
module Logging {
  import opened Lang
  import opened JavaText
  import opened Servlet

  const RequestIdKey := "requestId"
  const TraceIdKey := "traceId"
  const SpanIdKey := "spanId"
  const HttpMethodKey := "httpMethod"
  const RequestUriKey := "requestUri"
  const HeaderPrefix := "header."

  const TraceIdHttpHeader := "X-Trace-Id"
  const SpanIdHttpHeader := "X-Span-Id"

  /** The five keys the filter always removes. */
  const FixedKeys := {RequestIdKey, TraceIdKey, SpanIdKey, HttpMethodKey, RequestUriKey}

  /** The text of a random UUID: 8-4-4-4-12 lowercase hex digits. */
  predicate IsUuidText(s: string) {
    |s| == 36 &&
    forall i :: 0 <= i < 36 ==> if i in {8, 13, 18, 23} then s[i] == '-' else IsLowerHexDigit(s[i])
  }

  type Uuid = s: string | IsUuidText(s) witness "00000000-0000-0000-0000-000000000000"

  /** The MDC key a request header is stored under. */
  function HeaderKey(name: string): string {
    HeaderPrefix + Lower(name)
  }

  /** `logging.*` configuration properties. */
  datatype LoggingProperties = LoggingProperties(
    includeHeaders: bool,
    headerFilter: Option<string>,
    includeRequestInfo: bool,
    customFields: Option<map<string, string>>)

  /** An entry of a parsed header filter: not empty, no leading or trailing
      white space or control characters, in lower case. */
  predicate IsNormalizedEntry(x: string) {
    |x| > 0 && x[0] > ' ' && x[|x| - 1] > ' ' && Lower(x) == x
  }

  /** `parseHeaderFilter`: the comma-separated entries, trimmed, without the
      empty ones, in lower case. A null or blank filter is the empty set. */
  function ParseHeaderFilter(filter: Option<string>): (r: set<string>)
    ensures IsNullOrBlank(filter) ==> r == {}
    ensures forall x :: x in r ==> IsNormalizedEntry(x)
  {
    if IsNullOrBlank(filter) then {} else NormalizedEntries(JavaSplit(filter.value, ','))
  }

  /** The non-blank parts, trimmed and in lower case. */
  function NormalizedEntries(parts: seq<string>): (r: set<string>)
    ensures forall x :: x in r ==> IsNormalizedEntry(x)
  {
    var entries := set p | p in parts && Trim(p) != "";
    EntriesNormalized(entries);
    set p | p in entries :: Lower(Trim(p))
  }

  lemma LowerIdempotent(s: string)
    ensures Lower(Lower(s)) == Lower(s)
  {
  }

  lemma EntriesNormalized(entries: set<string>)
    requires forall p :: p in entries ==> Trim(p) != ""
    ensures forall p :: p in entries ==> IsNormalizedEntry(Lower(Trim(p)))
  {
    forall p | p in entries
      ensures IsNormalizedEntry(Lower(Trim(p)))
    {
      NormalizedLowerTrim(Trim(p));
    }
  }

  lemma NormalizedLowerTrim(t: string)
    requires t != [] && t[0] > ' ' && t[|t| - 1] > ' '
    ensures IsNormalizedEntry(Lower(t))
  {
    var x := Lower(t);
    assert x[0] == LowerChar(t[0]) && x[|x| - 1] == LowerChar(t[|t| - 1]);
    LowerIdempotent(t);
  }

  /** A filter written as comma-separated entries stands for exactly those
      entries that are not blank, trimmed and in lower case: the trailing
      empty fields the split drops make no difference. */
  lemma ParseHeaderFilterJoin(entries: seq<string>)
    requires |entries| >= 1
    requires forall i :: 0 <= i < |entries| ==> ',' !in entries[i]
    requires !IsBlank(Join(entries, ','))
    ensures ParseHeaderFilter(Some(Join(entries, ','))) ==
              set p | p in entries && Trim(p) != "" :: Lower(Trim(p))
  {
    var filter := Join(entries, ',');
    SplitJoin(entries, ',');
    var parts := JavaSplit(filter, ',');
    assert forall p :: p in parts ==> p in entries;
    forall p | p in entries && Trim(p) != ""
      ensures p in parts
    {
      var i :| 0 <= i < |entries| && entries[i] == p;
    }
  }

  /** The trace, span and request ids one request is logged under. */
  datatype CorrelationIds = CorrelationIds(requestId: string, traceId: string, spanId: string)

  /** The ids `doFilterInternal` settles on, `requestUuid` and `spanUuid`
      being the two random UUIDs it may draw. Ids arriving in headers are used
      as they are; a missing or blank one is replaced by a generated one, so
      no id is ever blank. */
  function ResolveIds(request: HttpRequest, requestUuid: Uuid, spanUuid: Uuid): (ids: CorrelationIds)
    ensures ids.requestId == requestUuid
    ensures var h := GetHeader(request, TraceIdHttpHeader);
            ids.traceId == if IsNullOrBlank(h) then requestUuid else h.value
    ensures var h := GetHeader(request, SpanIdHttpHeader);
            if IsNullOrBlank(h) then |ids.spanId| == 8 && IsLowerHex(ids.spanId) && ids.spanId == spanUuid[..8]
            else ids.spanId == h.value
    ensures !IsBlank(ids.requestId) && !IsBlank(ids.traceId) && !IsBlank(ids.spanId)
  {
    assert !IsJavaWhitespace(requestUuid[0]) && !IsJavaWhitespace(spanUuid[0]);
    var traceHeader := GetHeader(request, TraceIdHttpHeader);
    var spanHeader := GetHeader(request, SpanIdHttpHeader);
    CorrelationIds(
      requestUuid,
      if IsNullOrBlank(traceHeader) then requestUuid else traceHeader.value,
      if IsNullOrBlank(spanHeader) then spanUuid[..8] else spanHeader.value)
  }

  /** The MDC keys of a list of header names. */
  function HeaderKeys(names: seq<string>): (keys: set<string>)
    ensures forall k :: k in keys <==> exists i :: 0 <= i < |names| && k == HeaderKey(names[i])
  {
    if |names| == 0 then {}
    else
      var keys := HeaderKeys(names[..|names| - 1]) + {HeaderKey(names[|names| - 1])};
      assert forall i :: 0 <= i < |names| - 1 ==> names[..|names| - 1][i] == names[i];
      keys
  }

  /** No header key is one of the fixed keys: they do not start with `header.`. */
  lemma HeaderKeyNotFixed(name: string)
    ensures HeaderKey(name) !in FixedKeys
  {
    var k := HeaderKey(name);
    assert k[0] == 'h' && k[1] == 'e';
  }

  lemma HeaderKeyInjective(a: string, b: string)
    requires HeaderKey(a) == HeaderKey(b)
    ensures Lower(a) == Lower(b)
  {
    assert HeaderKey(a)[7..] == Lower(a) && HeaderKey(b)[7..] == Lower(b);
  }

  lemma RemoveTwice(m: map<string, string>, a: set<string>, b: set<string>)
    ensures m - a - b == m - (a + b)
  {
  }

  /** The MDC, as a map from key to value. */
  class Mdc {
    var entries: map<string, string>

    constructor (entries: map<string, string>)
      ensures this.entries == entries
    {
      this.entries := entries;
    }

    method Put(key: string, value: string)
      modifies this
      ensures entries == old(entries)[key := value]
    {
      entries := entries[key := value];
    }

    method Remove(key: string)
      modifies this
      ensures entries == old(entries) - {key}
    {
      entries := entries - {key};
    }
  }

  /** The rest of the filter chain. It records the MDC and the response
      headers it ran with, and fails with `failure` when that is given. */
  class FilterChain {
    const failure: Option<Throwable>
    var invoked: bool
    var seenMdc: map<string, string>
    var seenResponseHeaders: map<string, string>

    constructor (failure: Option<Throwable>)
      ensures this.failure == failure && !invoked
    {
      this.failure := failure;
      invoked := false;
      seenMdc := map[];
      seenResponseHeaders := map[];
    }

    method DoFilter(mdc: Mdc, response: HttpResponse) returns (result: Completion)
      modifies this
      ensures invoked && seenMdc == mdc.entries && seenResponseHeaders == response.headers
      ensures result == if failure.Some? then Abrupt(failure.value) else Normal
    {
      invoked := true;
      seenMdc := mdc.entries;
      seenResponseHeaders := response.headers;
      result := if failure.Some? then Abrupt(failure.value) else Normal;
    }
  }

  class RequestContextFilter {
    const includeHeaders: bool
    const headerFilter: set<string>
    const includeRequestInfo: bool
    const customFields: map<string, string>

    /** The no-argument constructor: no headers, no filter, request info on,
        no custom fields. */
    constructor ()
      ensures !includeHeaders && headerFilter == {} && includeRequestInfo && customFields == map[]
    {
      includeHeaders, headerFilter, includeRequestInfo, customFields := false, {}, true, map[];
    }

    /** The constructor from configuration; missing custom fields mean none. */
    constructor FromProperties(props: LoggingProperties)
      ensures includeHeaders == props.includeHeaders && includeRequestInfo == props.includeRequestInfo
      ensures headerFilter == ParseHeaderFilter(props.headerFilter)
      ensures customFields == if props.customFields.Some? then props.customFields.value else map[]
    {
      includeHeaders := props.includeHeaders;
      headerFilter := ParseHeaderFilter(props.headerFilter);
      includeRequestInfo := props.includeRequestInfo;
      customFields := props.customFields.GetOr(map[]);
    }

    /** Whether a header is copied: an empty filter admits every header. */
    predicate Admits(name: string) {
      headerFilter == {} || Lower(name) in headerFilter
    }

    /** `m` after copying the admitted headers among `names`, in order. */
    function PutHeaders(m: map<string, string>, request: HttpRequest, names: seq<string>): map<string, string> {
      if |names| == 0 then m
      else
        var before := PutHeaders(m, request, names[..|names| - 1]);
        var name := names[|names| - 1];
        if Admits(name) && GetHeader(request, name).Some? then before[HeaderKey(name) := GetHeader(request, name).value]
        else before
    }

    /** `m` after `addHeadersToMdc`. */
    function WithHeaders(m: map<string, string>, request: HttpRequest): map<string, string> {
      if request.headerNamesAvailable then PutHeaders(m, request, HeaderNames(request)) else m
    }

    /** `base` after the three ids and, when switched on, the method and URI
        are put. */
    function WithRequestInfo(base: map<string, string>, request: HttpRequest, ids: CorrelationIds): map<string, string> {
      var withIds := base[RequestIdKey := ids.requestId][TraceIdKey := ids.traceId][SpanIdKey := ids.spanId];
      if includeRequestInfo then withIds[HttpMethodKey := request.httpMethod][RequestUriKey := request.requestUri]
      else withIds
    }

    /** The MDC the rest of the chain runs with, given the MDC before the
        filter and the ids it settled on. */
    function ContextDuring(base: map<string, string>, request: HttpRequest, ids: CorrelationIds): (ctx: map<string, string>)
      ensures forall k :: k in customFields ==> k in ctx && ctx[k] == customFields[k]
    {
      var withInfo := WithRequestInfo(base, request, ids);
      var withHeaders := if includeHeaders then WithHeaders(withInfo, request) else withInfo;
      withHeaders + customFields
    }

    /** Every key the `finally` block removes. */
    function ManagedKeys(request: HttpRequest): (keys: set<string>)
      ensures FixedKeys + customFields.Keys <= keys
      ensures includeHeaders && request.headerNamesAvailable ==>
                forall i :: 0 <= i < |request.headers| ==> HeaderKey(HeaderNames(request)[i]) in keys
    {
      FixedKeys
      + (if includeHeaders && request.headerNamesAvailable then HeaderKeys(HeaderNames(request)) else {})
      + customFields.Keys
    }

    /** `doFilterInternal`. The chain runs with the context `ContextDuring`
        describes and sees the `X-Trace-Id` response header already set; its
        outcome is the filter's outcome; and afterwards the MDC is what it was
        before, minus every key the filter manages. */
    method DoFilterInternal(request: HttpRequest, response: HttpResponse, chain: FilterChain, mdc: Mdc,
                            requestUuid: Uuid, spanUuid: Uuid) returns (result: Completion)
      modifies mdc, response, chain
      ensures var ids := ResolveIds(request, requestUuid, spanUuid);
              && chain.invoked
              && chain.seenMdc == ContextDuring(old(mdc.entries), request, ids)
              && chain.seenResponseHeaders == old(response.headers)[TraceIdHttpHeader := ids.traceId]
              && response.headers == old(response.headers)[TraceIdHttpHeader := ids.traceId]
      ensures response.status == old(response.status)
      ensures mdc.entries == old(mdc.entries) - ManagedKeys(request)
      ensures result == if chain.failure.Some? then Abrupt(chain.failure.value) else Normal
    {
      PopulateContext(request, response, mdc, requestUuid, spanUuid);
      result := chain.DoFilter(mdc, response);
      ClearContext(request, mdc);
      CleanupRestores(old(mdc.entries), request, ResolveIds(request, requestUuid, spanUuid));
    }

    /** The `try` block of `doFilterInternal` up to the call of the chain. */
    method PopulateContext(request: HttpRequest, response: HttpResponse, mdc: Mdc, requestUuid: Uuid, spanUuid: Uuid)
      modifies mdc, response
      ensures var ids := ResolveIds(request, requestUuid, spanUuid);
              && mdc.entries == ContextDuring(old(mdc.entries), request, ids)
              && response.headers == old(response.headers)[TraceIdHttpHeader := ids.traceId]
      ensures response.status == old(response.status)
    {
      var requestId: string := requestUuid;
      mdc.Put(RequestIdKey, requestId);

      var traceHeader := GetHeader(request, TraceIdHttpHeader);
      var traceId := if IsNullOrBlank(traceHeader) then requestId else traceHeader.value;
      mdc.Put(TraceIdKey, traceId);

      var spanHeader := GetHeader(request, SpanIdHttpHeader);
      var spanId := if IsNullOrBlank(spanHeader) then spanUuid[..8] else spanHeader.value;
      mdc.Put(SpanIdKey, spanId);

      response.SetHeader(TraceIdHttpHeader, traceId);

      if includeRequestInfo {
        mdc.Put(HttpMethodKey, request.httpMethod);
        mdc.Put(RequestUriKey, request.requestUri);
      }
      if includeHeaders {
        AddHeadersToMdc(request, mdc);
      }
      PutCustomFields(mdc);
    }

    /** The `finally` block of `doFilterInternal`. */
    method ClearContext(request: HttpRequest, mdc: Mdc)
      modifies mdc
      ensures mdc.entries == old(mdc.entries) - ManagedKeys(request)
    {
      ghost var during := mdc.entries;
      mdc.Remove(RequestIdKey);
      mdc.Remove(TraceIdKey);
      mdc.Remove(SpanIdKey);
      mdc.Remove(HttpMethodKey);
      mdc.Remove(RequestUriKey);
      assert mdc.entries == during - FixedKeys;
      if includeHeaders {
        RemoveHeadersFromMdc(request, mdc);
      }
      ghost var headerKeys := if includeHeaders && request.headerNamesAvailable then HeaderKeys(HeaderNames(request)) else {};
      RemoveTwice(during, FixedKeys, headerKeys);
      RemoveCustomFields(mdc);
      RemoveTwice(during, FixedKeys + headerKeys, customFields.Keys);
    }

    /** `addHeadersToMdc`. */
    method AddHeadersToMdc(request: HttpRequest, mdc: Mdc)
      modifies mdc
      ensures mdc.entries == WithHeaders(old(mdc.entries), request)
    {
      if !request.headerNamesAvailable {
        return;
      }
      var names := HeaderNames(request);
      var i := 0;
      while i < |names|
        invariant 0 <= i <= |names|
        invariant mdc.entries == PutHeaders(old(mdc.entries), request, names[..i])
      {
        var name := names[i];
        assert names[..i + 1][..i] == names[..i];
        if headerFilter == {} || Lower(name) in headerFilter {
          GetHeaderOfListedName(request, i);
          mdc.Put(HeaderPrefix + Lower(name), GetHeader(request, name).value);
        }
        i := i + 1;
      }
      assert names[..i] == names;
    }

    /** `removeHeadersFromMdc`: the key of every header, admitted or not. */
    method RemoveHeadersFromMdc(request: HttpRequest, mdc: Mdc)
      modifies mdc
      ensures mdc.entries ==
                if request.headerNamesAvailable then old(mdc.entries) - HeaderKeys(HeaderNames(request))
                else old(mdc.entries)
    {
      if !request.headerNamesAvailable {
        return;
      }
      var names := HeaderNames(request);
      var i := 0;
      while i < |names|
        invariant 0 <= i <= |names|
        invariant mdc.entries == old(mdc.entries) - HeaderKeys(names[..i])
      {
        assert names[..i + 1][..i] == names[..i];
        mdc.Remove(HeaderPrefix + Lower(names[i]));
        i := i + 1;
      }
      assert names[..i] == names;
    }

    /** `customFields.forEach(MDC::put)`. */
    method PutCustomFields(mdc: Mdc)
      modifies mdc
      ensures mdc.entries == old(mdc.entries) + customFields
    {
      var pending := customFields.Keys;
      while pending != {}
        invariant pending <= customFields.Keys
        invariant mdc.entries == old(mdc.entries) + (customFields - pending)
        decreases pending
      {
        var key :| key in pending;
        mdc.Put(key, customFields[key]);
        pending := pending - {key};
      }
    }

    /** `customFields.keySet().forEach(MDC::remove)`. */
    method RemoveCustomFields(mdc: Mdc)
      modifies mdc
      ensures mdc.entries == old(mdc.entries) - customFields.Keys
    {
      var pending := customFields.Keys;
      while pending != {}
        invariant pending <= customFields.Keys
        invariant mdc.entries == old(mdc.entries) - (customFields.Keys - pending)
        decreases pending
      {
        var key :| key in pending;
        mdc.Remove(key);
        pending := pending - {key};
      }
    }

    /** Copying headers touches header keys only. */
    lemma {:induction false} PutHeadersFrame(m: map<string, string>, request: HttpRequest, names: seq<string>)
      ensures var r := PutHeaders(m, request, names);
              forall k :: k !in HeaderKeys(names) ==> (k in r <==> k in m) && (k in m ==> r[k] == m[k])
    {
      if |names| > 0 {
        PutHeadersFrame(m, request, names[..|names| - 1]);
      }
    }

    /** Cleanup: removing the managed keys from the context the chain ran
        with leaves exactly what removing them from the context before the
        filter leaves. Any value the keys held before the request is lost. */
    lemma CleanupRestores(base: map<string, string>, request: HttpRequest, ids: CorrelationIds)
      ensures ContextDuring(base, request, ids) - ManagedKeys(request) == base - ManagedKeys(request)
    {
      if includeHeaders && request.headerNamesAvailable {
        PutHeadersFrame(WithRequestInfo(base, request, ids), request, HeaderNames(request));
      }
    }

    /** The value copied for an admitted header is the one `getHeader`
        returns for it: among names equal ignoring case the last one copied
        wins, and they all have that same value. */
    lemma {:induction false} PutHeadersValue(m: map<string, string>, request: HttpRequest, names: seq<string>, i: nat)
      requires i < |names| && Admits(names[i]) && GetHeader(request, names[i]).Some?
      ensures var r := PutHeaders(m, request, names);
              HeaderKey(names[i]) in r && r[HeaderKey(names[i])] == GetHeader(request, names[i]).value
    {
      var n := |names| - 1;
      if HeaderKey(names[n]) == HeaderKey(names[i]) {
        HeaderKeyInjective(names[n], names[i]);
      } else {
        assert names[..n][i] == names[i];
        PutHeadersValue(m, request, names[..n], i);
      }
    }

    /** A key no admitted name maps to is left as it was. */
    lemma {:induction false} PutHeadersSkips(m: map<string, string>, request: HttpRequest, names: seq<string>, key: string)
      requires forall j :: 0 <= j < |names| && HeaderKey(names[j]) == key ==> !Admits(names[j])
      ensures var r := PutHeaders(m, request, names);
              (key in r <==> key in m) && (key in m ==> r[key] == m[key])
    {
      if |names| > 0 {
        var n := |names| - 1;
        assert forall j :: 0 <= j < n ==> names[..n][j] == names[j];
        PutHeadersSkips(m, request, names[..n], key);
      }
    }

    /** The ids and the custom fields in the context the chain runs with: a
        custom field always wins, and otherwise the three ids are the ones the
        filter settled on. */
    lemma ContextDuringIds(base: map<string, string>, request: HttpRequest, ids: CorrelationIds)
      ensures var ctx := ContextDuring(base, request, ids);
              && (forall k :: k in customFields ==> k in ctx && ctx[k] == customFields[k])
              && (RequestIdKey !in customFields ==> RequestIdKey in ctx && ctx[RequestIdKey] == ids.requestId)
              && (TraceIdKey !in customFields ==> TraceIdKey in ctx && ctx[TraceIdKey] == ids.traceId)
              && (SpanIdKey !in customFields ==> SpanIdKey in ctx && ctx[SpanIdKey] == ids.spanId)
    {
      InfoUntouchedByHeaders(base, request, ids);
    }

    /** The method and URI are in the context exactly when request info is
        switched on (or a custom field or the caller's MDC supplies them). */
    lemma ContextDuringRequestInfo(base: map<string, string>, request: HttpRequest, ids: CorrelationIds)
      ensures var ctx := ContextDuring(base, request, ids);
              && (includeRequestInfo && HttpMethodKey !in customFields ==>
                    HttpMethodKey in ctx && ctx[HttpMethodKey] == request.httpMethod)
              && (includeRequestInfo && RequestUriKey !in customFields ==>
                    RequestUriKey in ctx && ctx[RequestUriKey] == request.requestUri)
              && (!includeRequestInfo && HttpMethodKey !in customFields ==>
                    (HttpMethodKey in ctx <==> HttpMethodKey in base))
              && (!includeRequestInfo && RequestUriKey !in customFields ==>
                    (RequestUriKey in ctx <==> RequestUriKey in base))
    {
      InfoUntouchedByHeaders(base, request, ids);
    }

    /** Header copying leaves the five fixed keys alone. */
    lemma InfoUntouchedByHeaders(base: map<string, string>, request: HttpRequest, ids: CorrelationIds)
      ensures var withInfo := WithRequestInfo(base, request, ids);
              forall k :: k in FixedKeys ==>
                (k in WithHeaders(withInfo, request) <==> k in withInfo)
                && (k in withInfo ==> WithHeaders(withInfo, request)[k] == withInfo[k])
    {
      var withInfo := WithRequestInfo(base, request, ids);
      if request.headerNamesAvailable {
        var names := HeaderNames(request);
        forall i | 0 <= i < |names|
          ensures HeaderKey(names[i]) !in FixedKeys
        {
          HeaderKeyNotFixed(names[i]);
        }
        PutHeadersFrame(withInfo, request, names);
      }
    }

    /** Headers in the context the chain runs with: with headers switched on,
        an admitted header is there under `header.<name in lower case>` with
        the value `getHeader` gives, and a header the filter does not admit
        adds nothing. */
    lemma ContextDuringHeaders(base: map<string, string>, request: HttpRequest, ids: CorrelationIds, i: nat)
      requires includeHeaders && request.headerNamesAvailable && i < |HeaderNames(request)|
      requires HeaderKey(HeaderNames(request)[i]) !in customFields
      ensures var ctx := ContextDuring(base, request, ids);
              var name := HeaderNames(request)[i];
              && (Admits(name) ==> HeaderKey(name) in ctx && Some(ctx[HeaderKey(name)]) == GetHeader(request, name))
              && (!Admits(name) ==> (HeaderKey(name) in ctx <==> HeaderKey(name) in base))
    {
      var names := HeaderNames(request);
      var name := names[i];
      var withInfo := WithRequestInfo(base, request, ids);
      HeaderKeyNotFixed(name);
      if Admits(name) {
        GetHeaderOfListedName(request, i);
        PutHeadersValue(withInfo, request, names, i);
      } else {
        forall j | 0 <= j < |names| && HeaderKey(names[j]) == HeaderKey(name)
          ensures !Admits(names[j])
        {
          HeaderKeyInjective(names[j], name);
        }
        PutHeadersSkips(withInfo, request, names, HeaderKey(name));
      }
    }

    /** The filter adds no key it does not also remove: every key of the
        context the chain runs with was already there or is managed. */
    lemma ContextDuringKeys(base: map<string, string>, request: HttpRequest, ids: CorrelationIds)
      ensures ContextDuring(base, request, ids).Keys <= base.Keys + ManagedKeys(request)
      ensures !includeHeaders ==> ContextDuring(base, request, ids).Keys <= base.Keys + FixedKeys + customFields.Keys
    {
      if includeHeaders && request.headerNamesAvailable {
        PutHeadersFrame(WithRequestInfo(base, request, ids), request, HeaderNames(request));
      }
    }
  }
}
