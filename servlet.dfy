/** What the filter and the MVC interceptor read from a servlet request and
    write to a servlet response. */
module Servlet {
  import opened Lang
  import opened JavaText

  datatype HttpHeader = HttpHeader(name: string, value: string)

  /** An `HttpServletRequest` as the interceptors see it. `headerNamesAvailable`
      is false for a container that answers `getHeaderNames()` with null. */
  datatype HttpRequest = HttpRequest(
    httpMethod: string,
    requestUri: string,
    requestUrl: string,
    scheme: string,
    serverName: string,
    serverPort: int,
    headers: seq<HttpHeader>,
    headerNamesAvailable: bool)

  /** The value of the first header whose lower-cased name is `lowerName`. */
  function FirstHeaderValue(headers: seq<HttpHeader>, lowerName: string): Option<string> {
    if |headers| == 0 then None
    else if Lower(headers[0].name) == lowerName then Some(headers[0].value)
    else FirstHeaderValue(headers[1..], lowerName)
  }

  /** `getHeader(name)`: header names are matched ignoring case, and the first
      of several values is returned. */
  function GetHeader(request: HttpRequest, name: string): Option<string> {
    FirstHeaderValue(request.headers, Lower(name))
  }

  /** `FirstHeaderValue` finds nothing exactly when no name matches, and
      otherwise the value of the first header that matches. */
  lemma {:induction false} FirstHeaderValueFirstMatch(headers: seq<HttpHeader>, lowerName: string)
    ensures var v := FirstHeaderValue(headers, lowerName);
            && (v.None? <==> forall i :: 0 <= i < |headers| ==> Lower(headers[i].name) != lowerName)
            && (v.Some? ==> exists i ::
                  && 0 <= i < |headers| && Lower(headers[i].name) == lowerName
                  && headers[i].value == v.value
                  && (forall j :: 0 <= j < i ==> Lower(headers[j].name) != lowerName))
  {
    if |headers| > 0 && Lower(headers[0].name) != lowerName {
      FirstHeaderValueFirstMatch(headers[1..], lowerName);
      var v := FirstHeaderValue(headers, lowerName);
      if v.Some? {
        var k :| 0 <= k < |headers[1..]| && Lower(headers[1..][k].name) == lowerName
                 && headers[1..][k].value == v.value
                 && (forall j :: 0 <= j < k ==> Lower(headers[1..][j].name) != lowerName);
        assert Lower(headers[k + 1].name) == lowerName && headers[k + 1].value == v.value;
        assert forall j :: 0 <= j < k + 1 ==> Lower(headers[j].name) != lowerName by {
          forall j | 0 <= j < k + 1 ensures Lower(headers[j].name) != lowerName {
            if j > 0 { assert headers[j] == headers[1..][j - 1]; }
          }
        }
      } else {
        forall i | 0 <= i < |headers| ensures Lower(headers[i].name) != lowerName {
          if i > 0 { assert headers[i] == headers[1..][i - 1]; }
        }
      }
    }
  }

  /** `getHeader(name)` is empty exactly when no header has that name,
      ignoring case; otherwise it is the value of the first such header. */
  lemma GetHeaderFirstMatch(request: HttpRequest, name: string)
    ensures var v := GetHeader(request, name);
            && (v.None? <==> forall i :: 0 <= i < |request.headers| ==>
                  Lower(request.headers[i].name) != Lower(name))
            && (v.Some? ==> exists i ::
                  && 0 <= i < |request.headers|
                  && Lower(request.headers[i].name) == Lower(name)
                  && request.headers[i].value == v.value
                  && (forall j :: 0 <= j < i ==> Lower(request.headers[j].name) != Lower(name)))
  {
    FirstHeaderValueFirstMatch(request.headers, Lower(name));
  }

  /** `getHeaderNames()`, when available. */
  function HeaderNames(request: HttpRequest): (names: seq<string>)
    ensures |names| == |request.headers|
  {
    seq(|request.headers|, i requires 0 <= i < |request.headers| => request.headers[i].name)
  }

  lemma {:induction false} FirstHeaderValueFound(headers: seq<HttpHeader>, i: nat)
    requires i < |headers|
    ensures FirstHeaderValue(headers, Lower(headers[i].name)).Some?
  {
    if i > 0 && Lower(headers[0].name) != Lower(headers[i].name) {
      FirstHeaderValueFound(headers[1..], i - 1);
    }
  }

  /** Every name `getHeaderNames()` lists has a value under `getHeader`. */
  lemma GetHeaderOfListedName(request: HttpRequest, i: nat)
    requires i < |HeaderNames(request)|
    ensures GetHeader(request, HeaderNames(request)[i]).Some?
  {
    FirstHeaderValueFound(request.headers, i);
  }

  /** An `HttpServletResponse`, reduced to its status code and headers. */
  class HttpResponse {
    var status: int
    var headers: map<string, string>

    constructor (status: int, headers: map<string, string>)
      ensures this.status == status && this.headers == headers
    {
      this.status := status;
      this.headers := headers;
    }

    /** `setHeader(name, value)`: replaces any earlier value. */
    method SetHeader(name: string, value: string)
      modifies this
      ensures headers == old(headers)[name := value]
      ensures status == old(status)
    {
      headers := headers[name := value];
    }
  }
}
