/** The configuration every service shares: base URL, default headers (the API
    key), timeout, and the request chain built from the timeout. */
module BaseServices {

  import opened Common

  const DEFAULT_TIMEOUT_MS: int := 60000
  const DEFAULT_API_KEY_HEADER: string := "Salad-Api-Key"
  const CONTENT_TYPE: string := "Content-Type"

  /** The handlers a request chain can hold; their behaviour (retries, the HTTP
      exchange) is outside this model, only their order and configuration are in it. */
  datatype Handler = RetryHandler | HttpHandler(timeout: int)

  /** `RequestChain`: the handlers in the order they were added, the first one
      outermost. */
  datatype RequestChain = RequestChain(handlers: seq<Handler>) {
    /** `add_handler`: the new handler goes last, after those already chained. */
    function AddHandler(h: Handler): (r: RequestChain)
      ensures |r.handlers| == |handlers| + 1
      ensures r.handlers[..|handlers|] == handlers && r.handlers[|handlers|] == h
    {
      RequestChain(handlers + [h])
    }
  }

  /** `_get_request_handler`: a retry handler wrapping an HTTP handler that uses
      the given timeout. */
  function RequestHandlerFor(timeout: int): (c: RequestChain)
    ensures c.handlers == [RetryHandler, HttpHandler(timeout)]
  {
    RequestChain([]).AddHandler(RetryHandler).AddHandler(HttpHandler(timeout))
  }

  /** The keys of the default-header set. */
  datatype HeaderKey = ApiKeyAuthKey

  /** `ApiKeyAuth(api_key, api_key_header)`: the API key and the header carrying it. */
  datatype ApiKeyAuth = ApiKeyAuth(apiKey: string, header: string)

  datatype FormField = FilePart(content: Bytes) | ValuePart(value: Value)
  datatype Body = NoBody | JsonBody(json: Value) | MultipartForm(form: map<string, FormField>)

  /** A serialized request: method, URL template with its path parameters, the
      API-key header list, and the body. */
  datatype Request = Request(
    httpMethod: string,
    urlTemplate: string,
    pathParams: map<string, string>,
    auth: Option<ApiKeyAuth>,
    body: Body)

  /** Response headers as a case-insensitive mapping: no two names differ only
      in ASCII case, so a name finds at most one entry. */
  type Headers = h: map<string, string>
    | forall k1, k2 :: k1 in h && k2 in h && LowerAscii(k1) == LowerAscii(k2) ==> k1 == k2
    witness map[]

  datatype Response = Response(body: Value, status: int, headers: Headers)

  /** `headers.get(name)` on a case-insensitive mapping: the value of the one
      entry whose name equals `name` up to ASCII case, if there is one. */
  function HeaderValue(headers: Headers, name: string): (r: Option<string>)
    ensures r.None? <==> forall k :: k in headers ==> LowerAscii(k) != LowerAscii(name)
    ensures forall k :: k in headers && LowerAscii(k) == LowerAscii(name) ==> r == Some(headers[k])
  {
    if exists k :: k in headers && LowerAscii(k) == LowerAscii(name) then
      var k :| k in headers && LowerAscii(k) == LowerAscii(name);
      Some(headers[k])
    else
      None
  }

  /** The tuple `send_request` and `stream_request` hand back for one response:
      body, status, and the Content-Type, found whatever the case of its name,
      lower-cased, or empty when absent. */
  function ResponseTuple(response: Response): (t: (Value, int, string))
    ensures t.0 == response.body && t.1 == response.status
    ensures HeaderValue(response.headers, CONTENT_TYPE).Some? ==>
              t.2 == LowerAscii(HeaderValue(response.headers, CONTENT_TYPE).value)
    ensures HeaderValue(response.headers, CONTENT_TYPE).None? ==> t.2 == ""
    ensures NoUpperAscii(t.2)
  {
    (response.body, response.status,
     match HeaderValue(response.headers, CONTENT_TYPE)
     case Some(v) => LowerAscii(v)
     case None => "")
  }

  /** The content type is compared without regard to ASCII case: two responses
      whose Content-Type values differ only in case give the same tuple. */
  lemma ResponseTupleIgnoresCase(r1: Response, r2: Response)
    requires r1.body == r2.body && r1.status == r2.status
    requires HeaderValue(r1.headers, CONTENT_TYPE).Some? <==> HeaderValue(r2.headers, CONTENT_TYPE).Some?
    requires HeaderValue(r1.headers, CONTENT_TYPE).Some? ==>
               LowerAscii(HeaderValue(r1.headers, CONTENT_TYPE).value)
               == LowerAscii(HeaderValue(r2.headers, CONTENT_TYPE).value)
    ensures ResponseTuple(r1) == ResponseTuple(r2)
  {
  }

  /** The case of the header name does not matter either: a response carrying
      `content-type` gives the same tuple as one carrying `Content-Type`. */
  lemma ResponseTupleIgnoresNameCase(body: Value, status: int, name: string, value: string)
    requires LowerAscii(name) == LowerAscii(CONTENT_TYPE)
    ensures ResponseTuple(Response(body, status, map[name := value]))
            == ResponseTuple(Response(body, status, map[CONTENT_TYPE := value]))
            == (body, status, LowerAscii(value))
  {
  }

  /** A lower-case `content-type`, as HTTP/2 peers send it, is found. */
  lemma ResponseTupleLowerCaseName(body: Value, status: int)
    ensures ResponseTuple(Response(body, status, map["content-type" := "application/json"]))
            == (body, status, "application/json")
  {
    assert LowerAscii("content-type") == LowerAscii(CONTENT_TYPE) by {
      assert NoUpperAscii("content-type");
      assert LowerChar('C') == 'c' && LowerChar('T') == 't';
    }
    assert NoUpperAscii("application/json");
    ResponseTupleIgnoresNameCase(body, status, "content-type", "application/json");
  }

  /** The remote side of a request sent through a chain: one response, or the
      sequence of partial responses of a streamed request. Network I/O is not
      part of this model, so callers pass it in. */
  type Send = (RequestChain, Request) -> Response
  type Stream = (RequestChain, Request) -> seq<Response>

  class BaseService {
    var baseUrl: string
    var defaultHeaders: map<HeaderKey, ApiKeyAuth>
    var timeout: int
    var requestHandler: RequestChain

    /** The chain in use is always the one built from the current timeout. */
    ghost predicate Valid()
      reads this
    {
      requestHandler == RequestHandlerFor(timeout)
    }

    constructor(baseUrl: string)
      ensures Valid()
      ensures this.baseUrl == baseUrl && defaultHeaders == map[] && timeout == DEFAULT_TIMEOUT_MS
      ensures requestHandler.handlers == [RetryHandler, HttpHandler(DEFAULT_TIMEOUT_MS)]
    {
      this.baseUrl := baseUrl;
      defaultHeaders := map[];
      timeout := DEFAULT_TIMEOUT_MS;
      requestHandler := RequestHandlerFor(DEFAULT_TIMEOUT_MS);
    }

    /** `get_api_key`: the API-key header, if one was set. */
    function GetApiKey(): (h: Option<ApiKeyAuth>)
      reads this
      ensures h.Some? <==> ApiKeyAuthKey in defaultHeaders
      ensures h.Some? ==> h.value == defaultHeaders[ApiKeyAuthKey]
    {
      if ApiKeyAuthKey in defaultHeaders then Some(defaultHeaders[ApiKeyAuthKey]) else None
    }

    method SetApiKey(apiKey: string, apiKeyHeader: string := DEFAULT_API_KEY_HEADER) returns (self: BaseService)
      requires Valid()
      modifies this
      ensures self == this && Valid()
      ensures GetApiKey() == Some(ApiKeyAuth(apiKey, apiKeyHeader))
      ensures defaultHeaders == old(defaultHeaders)[ApiKeyAuthKey := ApiKeyAuth(apiKey, apiKeyHeader)]
      ensures baseUrl == old(baseUrl) && timeout == old(timeout) && requestHandler == old(requestHandler)
    {
      defaultHeaders := defaultHeaders[ApiKeyAuthKey := ApiKeyAuth(apiKey, apiKeyHeader)];
      self := this;
    }

    method SetTimeout(newTimeout: int) returns (self: BaseService)
      requires Valid()
      modifies this
      ensures self == this && Valid()
      ensures timeout == newTimeout
      ensures requestHandler.handlers == [RetryHandler, HttpHandler(newTimeout)]
      ensures baseUrl == old(baseUrl) && defaultHeaders == old(defaultHeaders)
    {
      timeout := newTimeout;
      requestHandler := RequestHandlerFor(timeout);
      self := this;
    }

    method SetBaseUrl(newBaseUrl: string) returns (self: BaseService)
      requires Valid()
      modifies this
      ensures self == this && Valid()
      ensures baseUrl == newBaseUrl
      ensures defaultHeaders == old(defaultHeaders) && timeout == old(timeout) && requestHandler == old(requestHandler)
    {
      baseUrl := newBaseUrl;
      self := this;
    }

    /** `send_request`: the request goes through the retry-then-HTTP chain built
        from the current timeout, and the response is reduced to its tuple. */
    method SendRequest(request: Request, send: Send) returns (t: (Value, int, string))
      requires Valid()
      ensures t == ResponseTuple(send(RequestHandlerFor(timeout), request))
    {
      var response := send(requestHandler, request);
      t := ResponseTuple(response);
    }

    /** `stream_request`: one tuple per partial response, in the order received. */
    method StreamRequest(request: Request, stream: Stream) returns (tuples: seq<(Value, int, string)>)
      requires Valid()
      ensures var responses := stream(RequestHandlerFor(timeout), request);
              |tuples| == |responses|
              && forall i :: 0 <= i < |responses| ==> tuples[i] == ResponseTuple(responses[i])
    {
      var responses := stream(requestHandler, request);
      tuples := [];
      for i := 0 to |responses|
        invariant |tuples| == i
        invariant forall j :: 0 <= j < i ==> tuples[j] == ResponseTuple(responses[j])
      {
        tuples := tuples + [ResponseTuple(responses[i])];
      }
    }
  }
}
