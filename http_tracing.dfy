/** The Spring MVC interceptor that traces incoming HTTP requests: before the
    handler runs it starts a SERVER span, tags it with the request's method,
    URL, route, scheme, host and port, makes it current and parks span and
    scope in request attributes; after completion it tags the response status,
    sets the span status, closes the scope and ends the span.

    Request attributes hold objects of any class. Here they are span handles,
    scope handles or some other object; the casts in `afterCompletion` throw
    ClassCastException on another object. */
module HttpServerTracing {
  import opened Lang
  import opened JavaText
  import opened TraceContext
  import opened Telemetry
  import opened Servlet

  const InterceptorClassName := "com.ayushwing.observability.autoconfigure.tracing.TracingInterceptor"
  const SpanAttribute := InterceptorClassName + ".span"
  const ScopeAttribute := InterceptorClassName + ".scope"

  const ClassCastException := Throwable("ClassCastException", None)

  /** An object stored as a request attribute. */
  datatype AttributeObject = SpanObject(span: nat) | ScopeObject(scope: nat) | OtherObject(className: string)

  /** An `HttpServletRequest`: what it carries, and its attributes, which
      `setAttribute` changes. */
  class ServletRequest {
    const data: HttpRequest
    var attributes: map<string, AttributeObject>

    constructor (data: HttpRequest, attributes: map<string, AttributeObject>)
      ensures this.data == data && this.attributes == attributes
    {
      this.data := data;
      this.attributes := attributes;
    }

    /** `getAttribute(name)`: none stands for null. */
    function GetAttribute(name: string): Option<AttributeObject>
      reads this
    {
      if name in attributes then Some(attributes[name]) else None
    }

    method SetAttribute(name: string, value: AttributeObject)
      modifies this
      ensures attributes == old(attributes)[name := value]
    {
      attributes := attributes[name := value];
    }
  }

  lemma AttributeNamesDiffer()
    ensures SpanAttribute != ScopeAttribute
  {
    var n := |InterceptorClassName|;
    assert SpanAttribute[n + 2] == 'p' && ScopeAttribute[n + 2] == 'c';
  }

  /** `(Span) value`: null stays null, and anything but a span throws. */
  function CastToSpan(value: Option<AttributeObject>): (r: Outcome<Option<nat>>)
    ensures r.Threw? <==> value.Some? && !value.value.SpanObject?
    ensures r.Returned? && r.value.Some? ==> value == Some(SpanObject(r.value.value))
  {
    match value
    case None => Returned(None)
    case Some(SpanObject(h)) => Returned(Some(h))
    case Some(_) => Threw(ClassCastException)
  }

  /** `(Scope) value`: null stays null, and anything but a scope throws. */
  function CastToScope(value: Option<AttributeObject>): (r: Outcome<Option<nat>>)
    ensures r.Threw? <==> value.Some? && !value.value.ScopeObject?
    ensures r.Returned? && r.value.Some? ==> value == Some(ScopeObject(r.value.value))
  {
    match value
    case None => Returned(None)
    case Some(ScopeObject(h)) => Returned(Some(h))
    case Some(_) => Threw(ClassCastException)
  }

  /** Every span or scope parked in the attributes is one the tracer made. */
  predicate HandlesFit(attributes: map<string, AttributeObject>, spanCount: nat, scopeCount: nat) {
    forall name :: name in attributes ==>
      (attributes[name].SpanObject? ==> attributes[name].span < spanCount)
      && (attributes[name].ScopeObject? ==> attributes[name].scope < scopeCount)
  }

  /** The attributes `preHandle` sets. The user agent is there exactly when
      the request has that header, and the content length exactly when the
      header is there and `Long.parseLong` accepts it. */
  function ServerAttributes(request: HttpRequest): (attrs: map<string, AttributeValue>)
    ensures "http.user_agent" in attrs <==> GetHeader(request, "User-Agent").Some?
    ensures "http.user_agent" in attrs ==>
              attrs["http.user_agent"] == StringValue(GetHeader(request, "User-Agent").value)
    ensures "http.request_content_length" in attrs <==>
              GetHeader(request, "Content-Length").Some? && ParseLong(GetHeader(request, "Content-Length").value).Some?
    ensures "http.request_content_length" in attrs ==>
              && attrs["http.request_content_length"].LongValue?
              && MinLong <= attrs["http.request_content_length"].number <= MaxLong
  {
    var common := map[
      "http.method" := StringValue(request.httpMethod),
      "http.url" := StringValue(request.requestUrl),
      "http.route" := StringValue(request.requestUri),
      "http.scheme" := StringValue(request.scheme),
      "net.host.name" := StringValue(request.serverName),
      "net.host.port" := LongValue(request.serverPort)];
    var userAgent := GetHeader(request, "User-Agent");
    var withAgent := if userAgent.Some? then common["http.user_agent" := StringValue(userAgent.value)] else common;
    var contentLength := GetHeader(request, "Content-Length");
    if contentLength.Some? && ParseLong(contentLength.value).Some? then
      withAgent["http.request_content_length" := LongValue(ParseLong(contentLength.value).value)]
    else withAgent
  }

  /** The span `preHandle` starts, `context` being the ids the tracer
      generated for it: named after method and URI, of kind SERVER, under the
      current context. */
  function ServerSpan(request: HttpRequest, context: SpanContext): (s: SpanRecord)
    ensures s.name == request.httpMethod + " " + request.requestUri
    ensures s.kind == Server && s.parent == CurrentContext && s.context == context
    ensures !s.Ended() && s.status == Unset
  {
    Started(request.httpMethod + " " + request.requestUri, Server, CurrentContext, context)
      .(attributes := ServerAttributes(request))
  }

  datatype SpanStatus = SpanStatus(code: StatusCode, description: Option<string>)

  /** The status `afterCompletion` gives the span. An exception decides first,
      then a 5xx code (ERROR), then a 4xx code (UNSET); anything else is OK.
      `setStatus(code)` without a description passes the empty one. */
  function StatusFor(statusCode: int, ex: Option<Throwable>): (s: SpanStatus)
    ensures s.code == Error <==> ex.Some? || statusCode >= 500
    ensures s.code == Unset <==> ex.None? && 400 <= statusCode < 500
    ensures s.code == Ok <==> ex.None? && statusCode < 400
    ensures ex.Some? ==> s.description == ex.value.message
    ensures ex.None? && statusCode >= 500 ==> s.description == Some("HTTP " + IntToString(statusCode))
    ensures ex.None? && statusCode < 500 ==> s.description == Some("")
  {
    if ex.Some? then SpanStatus(Error, ex.value.message)
    else if statusCode >= 500 then SpanStatus(Error, Some("HTTP " + IntToString(statusCode)))
    else if statusCode >= 400 then SpanStatus(Unset, Some(""))
    else SpanStatus(Ok, Some(""))
  }

  /** A span after `afterCompletion` has run on it once: the status code
      attribute, the status, the exception recorded, one more `end()`. */
  function Completed(span: SpanRecord, statusCode: int, ex: Option<Throwable>): (s: SpanRecord)
    ensures s.endCalls == span.endCalls + 1
    ensures s.attributes == span.attributes["http.status_code" := LongValue(statusCode)]
    ensures s.status == StatusFor(statusCode, ex).code
    ensures s.statusDescription == StatusFor(statusCode, ex).description
    ensures ex.Some? ==> s.exceptions == span.exceptions + [ex.value]
    ensures ex.None? ==> s.exceptions == span.exceptions
    ensures s.name == span.name && s.kind == span.kind
    ensures s.parent == span.parent && s.context == span.context
  {
    var status := StatusFor(statusCode, ex);
    span.(attributes := span.attributes["http.status_code" := LongValue(statusCode)],
          status := status.code,
          statusDescription := status.description,
          exceptions := if ex.Some? then span.exceptions + [ex.value] else span.exceptions,
          endCalls := span.endCalls + 1)
  }

  class TracingInterceptor {
    const tracer: Tracer

    constructor (tracer: Tracer)
      ensures this.tracer == tracer
    {
      this.tracer := tracer;
    }

    /** `preHandle`: always lets the request through, having started the
        server span, made it current and parked span and scope in the request
        attributes. */
    method PreHandle(request: ServletRequest, response: HttpResponse, context: SpanContext) returns (proceed: bool)
      modifies tracer, request
      ensures proceed
      ensures tracer.spans == old(tracer.spans) + [ServerSpan(request.data, context)]
      ensures tracer.scopes == old(tracer.scopes) + [ScopeRecord(|old(tracer.spans)|, 0)]
      ensures request.attributes == old(request.attributes)
                [SpanAttribute := SpanObject(|old(tracer.spans)|)]
                [ScopeAttribute := ScopeObject(|old(tracer.scopes)|)]
    {
      var data := request.data;
      var span := tracer.StartSpan(data.httpMethod + " " + data.requestUri, Server, CurrentContext, context);
      tracer.SetAttribute(span, "http.method", StringValue(data.httpMethod));
      tracer.SetAttribute(span, "http.url", StringValue(data.requestUrl));
      tracer.SetAttribute(span, "http.route", StringValue(data.requestUri));
      tracer.SetAttribute(span, "http.scheme", StringValue(data.scheme));
      tracer.SetAttribute(span, "net.host.name", StringValue(data.serverName));
      tracer.SetAttribute(span, "net.host.port", LongValue(data.serverPort));

      var userAgent := GetHeader(data, "User-Agent");
      if userAgent.Some? {
        tracer.SetAttribute(span, "http.user_agent", StringValue(userAgent.value));
      }

      var contentLength := GetHeader(data, "Content-Length");
      if contentLength.Some? {
        var parsed := ParseLong(contentLength.value);
        if parsed.Some? {
          tracer.SetAttribute(span, "http.request_content_length", LongValue(parsed.value));
        }
        // otherwise NumberFormatException, caught and ignored
      }

      var scope := tracer.MakeCurrent(span);
      request.SetAttribute(SpanAttribute, SpanObject(span));
      request.SetAttribute(ScopeAttribute, ScopeObject(scope));
      proceed := true;
    }

    /** `afterCompletion`. Both casts come before anything else, so a foreign
        object under either attribute throws and changes nothing. Without a
        span nothing happens. Otherwise the span is completed, the scope (if
        any) closed once, and the span ended once more, with no guard against
        a span that was already ended. */
    method AfterCompletion(request: ServletRequest, response: HttpResponse, ex: Option<Throwable>)
      returns (result: Completion)
      requires HandlesFit(request.attributes, |tracer.spans|, |tracer.scopes|)
      modifies tracer
      ensures var span := CastToSpan(request.GetAttribute(SpanAttribute));
              var scope := CastToScope(request.GetAttribute(ScopeAttribute));
              if span.Threw? || scope.Threw? then
                result == Abrupt(ClassCastException) && unchanged(tracer)
              else if span.value.None? then
                result == Normal && unchanged(tracer)
              else
                var h := span.value.value;
                && result == Normal
                && tracer.spans == old(tracer.spans)[h := Completed(old(tracer.spans[h]), response.status, ex)]
                && tracer.scopes ==
                     if scope.value.None? then old(tracer.scopes)
                     else old(tracer.scopes)[scope.value.value := old(tracer.scopes[scope.value.value])
                                               .(closeCalls := old(tracer.scopes[scope.value.value]).closeCalls + 1)]
    {
      var spanObject := CastToSpan(request.GetAttribute(SpanAttribute));
      if spanObject.Threw? {
        return Abrupt(spanObject.exception);
      }
      var scopeObject := CastToScope(request.GetAttribute(ScopeAttribute));
      if scopeObject.Threw? {
        return Abrupt(scopeObject.exception);
      }
      if spanObject.value.None? {
        return Normal;
      }
      var span := spanObject.value.value;

      // try
      var statusCode := response.status;
      tracer.SetAttribute(span, "http.status_code", LongValue(statusCode));
      if ex.Some? {
        tracer.SetStatus(span, Error, ex.value.message);
        tracer.RecordException(span, ex.value);
      } else if statusCode >= 500 {
        tracer.SetStatus(span, Error, Some("HTTP " + IntToString(statusCode)));
      } else if statusCode >= 400 {
        tracer.SetStatus(span, Unset, Some(""));
      } else {
        tracer.SetStatus(span, Ok, Some(""));
      }

      // finally
      if scopeObject.value.Some? {
        tracer.CloseScope(scopeObject.value.value);
      }
      tracer.End(span);
      result := Normal;
    }

    /** One request through both callbacks: exactly one server span, ended
        exactly once, with the status `StatusFor` gives, and its scope closed
        exactly once. */
    method ServeRequest(request: ServletRequest, response: HttpResponse, context: SpanContext, ex: Option<Throwable>)
      returns (result: Completion)
      requires HandlesFit(request.attributes, |tracer.spans|, |tracer.scopes|)
      modifies tracer, request
      ensures result == Normal
      ensures tracer.spans == old(tracer.spans) + [Completed(ServerSpan(request.data, context), response.status, ex)]
      ensures tracer.scopes == old(tracer.scopes) + [ScopeRecord(|old(tracer.spans)|, 1)]
      ensures tracer.spans[|old(tracer.spans)|].endCalls == 1
      ensures request.attributes == old(request.attributes)
                [SpanAttribute := SpanObject(|old(tracer.spans)|)]
                [ScopeAttribute := ScopeObject(|old(tracer.scopes)|)]
    {
      var proceed := PreHandle(request, response, context);
      AttributeNamesDiffer();
      assert request.GetAttribute(SpanAttribute) == Some(SpanObject(|old(tracer.spans)|));
      assert request.GetAttribute(ScopeAttribute) == Some(ScopeObject(|old(tracer.scopes)|));
      result := AfterCompletion(request, response, ex);
    }

    /** A second `afterCompletion` for the same request is not absorbed: the
        span is ended a second time and the scope closed a second time. */
    method ServeRequestCompletingTwice(request: ServletRequest, response: HttpResponse, context: SpanContext)
      requires HandlesFit(request.attributes, |tracer.spans|, |tracer.scopes|)
      modifies tracer, request
      ensures |tracer.spans| == |old(tracer.spans)| + 1
      ensures tracer.spans[|old(tracer.spans)|].endCalls == 2
      ensures tracer.scopes == old(tracer.scopes) + [ScopeRecord(|old(tracer.spans)|, 2)]
    {
      var first := ServeRequest(request, response, context, None);
      AttributeNamesDiffer();
      assert request.GetAttribute(SpanAttribute) == Some(SpanObject(|old(tracer.spans)|));
      assert request.GetAttribute(ScopeAttribute) == Some(ScopeObject(|old(tracer.scopes)|));
      var second := AfterCompletion(request, response, None);
    }
  }

  /** A 5xx description names the code: the digits after "HTTP " read back
      as the status code. */
  lemma ServerErrorDescription(statusCode: int)
    requires 500 <= statusCode <= MaxInt
    ensures var d := StatusFor(statusCode, None).description.value;
            d[..5] == "HTTP " && ParseLong(d[5..]) == Some(statusCode)
  {
    var d := StatusFor(statusCode, None).description.value;
    assert d[5..] == IntToString(statusCode);
    ParseLongIntToString(statusCode);
  }

  /** A well-formed Content-Length reaches the span as the number it spells. */
  lemma ContentLengthAttribute(request: HttpRequest, n: int)
    requires MinLong <= n <= MaxLong
    requires GetHeader(request, "Content-Length") == Some(IntToString(n))
    ensures "http.request_content_length" in ServerAttributes(request)
    ensures ServerAttributes(request)["http.request_content_length"] == LongValue(n)
  {
    ParseLongIntToString(n);
  }
}
