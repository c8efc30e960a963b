/**
 * config/TracingInterceptor.java: before a request is handled, pick its
 * trace id (the X-Trace-Id request header, or a fresh one), put it and an
 * operation name into the MDC and echo the id in the response; after the
 * request, remove both MDC entries again. The source calls the instance
 * methods of service/TraceContext.java as if they were static; here they
 * are called on a TraceContext instance.
 */
module TracingInterceptor {
  import opened Wrappers
  import opened Mdc
  import opened Uuid
  import opened Exceptions
  import Text
  import TraceContextService

  /** What the interceptor reads of an HttpServletRequest: its headers as received, in order. */
  datatype HttpRequest = HttpRequest(httpMethod: string, requestUri: string, headers: seq<(string, string)>)

  /** Header names are compared ignoring case (ASCII letters), as the servlet containers do. */
  predicate SameHeaderName(a: string, b: string) {
    Text.Lower(a) == Text.Lower(b)
  }

  /** HttpServletRequest.getHeader: the value of the first header whose name matches, or null. */
  function GetHeader(headers: seq<(string, string)>, name: string): (r: Option<string>)
    ensures r.None? <==> forall i :: 0 <= i < |headers| ==> !SameHeaderName(headers[i].0, name)
  {
    if headers == [] then None
    else if SameHeaderName(headers[0].0, name) then Some(headers[0].1)
    else GetHeader(headers[1..], name)
  }

  /** The value found belongs to the first header of that name; later ones of the same name are not seen. */
  lemma {:induction false} GetHeaderFindsFirst(headers: seq<(string, string)>, name: string)
    requires GetHeader(headers, name).Some?
    ensures exists i :: 0 <= i < |headers| && SameHeaderName(headers[i].0, name) && GetHeader(headers, name) == Some(headers[i].1) &&
                        (forall j :: 0 <= j < i ==> !SameHeaderName(headers[j].0, name))
  {
    if !SameHeaderName(headers[0].0, name) {
      var rest := headers[1..];
      GetHeaderFindsFirst(rest, name);
      var k :| 0 <= k < |rest| && SameHeaderName(rest[k].0, name) && GetHeader(rest, name) == Some(rest[k].1) &&
               (forall j :: 0 <= j < k ==> !SameHeaderName(rest[j].0, name));
      assert headers[k + 1] == rest[k];
      assert forall j :: 0 <= j < k + 1 ==> !SameHeaderName(headers[j].0, name) by {
        forall j | 0 <= j < k + 1 ensures !SameHeaderName(headers[j].0, name) {
          if j > 0 { assert headers[j] == rest[j - 1]; }
        }
      }
    }
  }

  /** A header sent as "x-trace-id" or "X-TRACE-ID" is found under X-Trace-Id. */
  lemma {:induction false} GetHeaderIgnoresCase(headers: seq<(string, string)>, name: string)
    ensures GetHeader(headers, Text.Upper(name)) == GetHeader(headers, name)
    ensures GetHeader(headers, Text.Lower(name)) == GetHeader(headers, name)
  {
    Text.LowerOfUpper(name);
    Text.LowerOfLower(name);
    if headers != [] {
      GetHeaderIgnoresCase(headers[1..], name);
    }
  }

  /** The response headers (HttpServletResponse.setHeader replaces a header's value). */
  class HttpResponse {
    var headers: map<string, string>

    constructor ()
      ensures headers == map[]
    {
      headers := map[];
    }
  }

  /** The header value if present and not blank, else a generated id. */
  function ChosenTraceId(header: Option<string>, uuid: Uuid): (id: string)
    ensures Text.Usable(header) ==> id == header.value
    ensures !Text.Usable(header) ==> id == GenerateTraceId(uuid)
    ensures !Text.Blank(id)
  {
    if header.None? || Text.Blank(header.value) then GenerateTraceId(uuid) else header.value
  }

  /** `String.format("%s_%s", method, uri.replaceAll("/", "_").toUpperCase())`. */
  function OperationName(httpMethod: string, uri: string): (op: string)
    ensures |op| == |httpMethod| + 1 + |uri| && op[..|httpMethod| + 1] == httpMethod + "_"
    ensures forall i :: 0 <= i < |uri| ==> op[|httpMethod| + 1 + i] == Text.UpperChar(if uri[i] == '/' then '_' else uri[i])
  {
    httpMethod + "_" + Text.Upper(Text.ReplaceChar(uri, '/', '_'))
  }

  /** The part taken from the URI holds no '/'; so the whole name holds none when the method holds none. */
  lemma OperationNameHasNoSlash(httpMethod: string, uri: string)
    ensures '/' in OperationName(httpMethod, uri) <==> '/' in httpMethod
  {
    var tail := Text.Upper(Text.ReplaceChar(uri, '/', '_'));
    Text.UpperKeepsPunctuation(Text.ReplaceChar(uri, '/', '_'), '/');
    assert OperationName(httpMethod, uri) == httpMethod + "_" + tail;
    assert '/' !in tail;
  }

  /** The operation name is never blank: it contains '_'. */
  lemma OperationNameNotBlank(httpMethod: string, uri: string)
    ensures !Text.Blank(OperationName(httpMethod, uri))
  {
    Text.NotBlankWitness(OperationName(httpMethod, uri), |httpMethod|);
  }

  class TracingInterceptor {
    const traceContext: TraceContextService.TraceContext

    constructor (traceContext: TraceContextService.TraceContext)
      ensures this.traceContext == traceContext
    {
      this.traceContext := traceContext;
    }

    /** preHandle; `uuid` is the UUID a generated id would come from. */
    method PreHandle(request: HttpRequest, response: HttpResponse, uuid: Uuid) returns (proceed: bool)
      modifies traceContext.mdc, response
      ensures proceed
      ensures var id := ChosenTraceId(GetHeader(request.headers, TraceIdHeader), uuid);
        traceContext.mdc.entries ==
          old(traceContext.mdc.entries)[TraceIdKey := id][OperationKey := OperationName(request.httpMethod, request.requestUri)] &&
        response.headers == old(response.headers)[TraceIdHeader := id] &&
        traceContext.mdc.Get(TraceIdKey) == Lookup(response.headers, TraceIdHeader) == Some(id)
    {
      var traceId := GetHeader(request.headers, TraceIdHeader);
      var chosen: string;
      if traceId.None? || Text.Blank(traceId.value) {
        chosen := GenerateTraceId(uuid);
      } else {
        chosen := traceId.value;
      }
      traceContext.SetTraceId(Some(chosen));
      var operation := OperationName(request.httpMethod, request.requestUri);
      OperationNameNotBlank(request.httpMethod, request.requestUri);
      traceContext.SetOperation(Some(operation));
      response.headers := response.headers[TraceIdHeader := chosen];
      proceed := true;
    }

    /** afterCompletion: whatever `ex` is, the trace entries are removed and nothing else. */
    method AfterCompletion(request: HttpRequest, response: HttpResponse, ex: Option<Exn>, uuid: Uuid)
      modifies traceContext.mdc
      ensures traceContext.mdc.entries == WithoutTrace(old(traceContext.mdc.entries))
    {
      var traceId := traceContext.GetCurrentTraceId(uuid);
      traceContext.ClearTrace();
      ClearForgetsLookup(old(traceContext.mdc.entries), GenerateTraceId(uuid));
    }
  }
}
