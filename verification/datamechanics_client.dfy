/**
  The HTTP client for the Data Mechanics API: the handler stack it builds
  (retry, then default headers, then logging), the header rewriting every
  outgoing request goes through, and how a response or a transport failure
  becomes the value `sendRequest` returns or the error it raises.
 */
module DataMechanicsClient {
  import opened Wrappers
  import opened Php
  import Retry

  const DEFAULT_USER_AGENT := "Internal DataMechanics API PHP Client"
  const DEFAULT_BACKOFF_RETRIES := 1
  const LOG_FORMAT := "[datamechanics-api] {method} {uri} : {code} {res_header_Content-Length}"

  /** A header as last set, under the name it was set with. */
  datatype Header = Header(name: string, value: string)

  /** A request's headers, keyed by the lower-cased name: header names match case-insensitively. */
  type Headers = map<string, Header>

  function LowerChar(c: char): char {
    if 'A' <= c <= 'Z' then (c as int + 32) as char else c
  }

  function Lower(s: string): string {
    seq(|s|, i requires 0 <= i < |s| => LowerChar(s[i]))
  }

  /** PSR-7 `withHeader`: the new value replaces whatever a header of the same name held. */
  function WithHeader(headers: Headers, name: string, value: string): Headers {
    headers[Lower(name) := Header(name, value)]
  }

  /** `withHeader` applied for each pair in turn. */
  function WithHeaders(headers: Headers, pairs: seq<(string, string)>): Headers {
    if pairs == [] then headers
    else WithHeader(WithHeaders(headers, pairs[..|pairs| - 1]), pairs[|pairs| - 1].0, pairs[|pairs| - 1].1)
  }

  /** Pair `i` is the last one whose name matches `key`. */
  predicate LastNamed(pairs: seq<(string, string)>, i: int, key: string) {
    && 0 <= i < |pairs| && Lower(pairs[i].0) == key
    && forall j :: i < j < |pairs| ==> Lower(pairs[j].0) != key
  }

  /** After the updates, a header holds what the last pair of its name set. */
  lemma {:induction false} WithHeadersLast(headers: Headers, pairs: seq<(string, string)>, i: int, key: string)
    requires LastNamed(pairs, i, key)
    ensures key in WithHeaders(headers, pairs)
    ensures WithHeaders(headers, pairs)[key] == Header(pairs[i].0, pairs[i].1)
  {
    var n := |pairs|;
    if i < n - 1 {
      assert LastNamed(pairs[..n - 1], i, key);
      WithHeadersLast(headers, pairs[..n - 1], i, key);
    }
  }

  /** A header that no pair names keeps what it held before, and stays absent if it was. */
  lemma {:induction false} WithHeadersUntouched(headers: Headers, pairs: seq<(string, string)>, key: string)
    requires forall i :: 0 <= i < |pairs| ==> Lower(pairs[i].0) != key
    ensures key in WithHeaders(headers, pairs) <==> key in headers
    ensures key in headers ==> WithHeaders(headers, pairs)[key] == headers[key]
  {
    if pairs != [] {
      var n := |pairs|;
      assert Lower(pairs[n - 1].0) != key;
      WithHeadersUntouched(headers, pairs[..n - 1], key);
    }
  }

  /** The headers every request gets from the client's mapRequest middleware: the user agent,
      the JSON content type, then each configured header in order. */
  function Mapped(headers: Headers, userAgent: string, pairs: seq<(string, string)>): Headers {
    WithHeaders(WithHeader(WithHeader(headers, "User-Agent", userAgent), "Content-type", "application/json"), pairs)
  }

  /** The closure given to `Middleware::mapRequest`. */
  method MapRequest(headers: Headers, userAgent: string, pairs: seq<(string, string)>) returns (updated: Headers)
    ensures updated == Mapped(headers, userAgent, pairs)
  {
    var defaults := WithHeader(WithHeader(headers, "User-Agent", userAgent), "Content-type", "application/json");
    updated := defaults;
    for i := 0 to |pairs|
      invariant updated == WithHeaders(defaults, pairs[..i])
    {
      assert pairs[..i + 1][..i] == pairs[..i];
      updated := WithHeader(updated, pairs[i].0, pairs[i].1);
    }
    assert pairs[..|pairs|] == pairs;
  }

  /** A middleware on the client's handler stack. */
  datatype Middleware =
    | RetryMiddleware(maxRetries: int)
    | MapRequestMiddleware(userAgent: string, headers: seq<(string, string)>)
    | LogMiddleware(format: string)

  /** Guzzle's handler stack: middleware are pushed one after another. */
  class HandlerStack {
    var middleware: seq<Middleware>

    constructor Create()
      ensures middleware == []
    {
      middleware := [];
    }

    method Push(m: Middleware)
      modifies this
      ensures middleware == old(middleware) + [m]
    {
      middleware := middleware + [m];
    }
  }

  /** The options `initClient` reads. */
  datatype ClientOptions = ClientOptions(
    apiUrl: string,
    hasLogger: bool,
    backoffMaxTries: int,
    userAgent: string,
    headers: seq<(string, string)>)

  /** A Guzzle client: its base URI and its handler stack, outermost middleware first. */
  datatype Client = Client(baseUri: string, handlers: seq<Middleware>)

  /** `initClient`: pushes the retry middleware, then the header mapping, then, only when a
      logger is supplied, the logging middleware. */
  method InitClient(options: ClientOptions, logFormat: string) returns (client: Client)
    ensures client.baseUri == options.apiUrl
    ensures |client.handlers| == if options.hasLogger then 3 else 2
    ensures client.handlers[0] == RetryMiddleware(options.backoffMaxTries)
    ensures client.handlers[1] == MapRequestMiddleware(options.userAgent, options.headers)
    ensures options.hasLogger ==> client.handlers[2] == LogMiddleware(logFormat)
  {
    var stack := new HandlerStack.Create();
    stack.Push(RetryMiddleware(options.backoffMaxTries));
    stack.Push(MapRequestMiddleware(options.userAgent, options.headers));
    if options.hasLogger {
      stack.Push(LogMiddleware(logFormat));
    }
    client := Client(options.apiUrl, stack.middleware);
  }

  /** A request: method, target relative to the base URI, headers and the (not yet encoded) JSON body. */
  datatype Request = Request(httpMethod: string, target: string, headers: Headers, body: Value)

  /** The request as it reaches the transport: each mapRequest middleware, outermost first,
      rewrites its headers; the other middleware leave it as it is. */
  function Prepare(handlers: seq<Middleware>, request: Request): Request {
    if handlers == [] then request
    else
      var next := match handlers[0]
        case MapRequestMiddleware(ua, pairs) => request.(headers := Mapped(request.headers, ua, pairs))
        case _ => request;
      Prepare(handlers[1..], next)
  }

  /** Through a stack of retry, header mapping and logging, a request leaves with its headers mapped
      and everything else as it was. */
  lemma PrepareThroughStack(maxRetries: int, userAgent: string, pairs: seq<(string, string)>, format: string, request: Request)
    ensures Prepare([RetryMiddleware(maxRetries), MapRequestMiddleware(userAgent, pairs), LogMiddleware(format)], request)
            == request.(headers := Mapped(request.headers, userAgent, pairs))
  {
    var stack := [RetryMiddleware(maxRetries), MapRequestMiddleware(userAgent, pairs), LogMiddleware(format)];
    var mapped := request.(headers := Mapped(request.headers, userAgent, pairs));
    assert Prepare(stack, request) == Prepare(stack[1..], request);
    assert Prepare(stack[1..], request) == Prepare(stack[2..], mapped) by {
      assert stack[1..][1..] == stack[2..];
    }
    assert Prepare(stack[2..], mapped) == Prepare([], mapped) by {
      assert stack[2..][1..] == [];
    }
  }

  /** The handler stack of a DataMechanicsClient holding API token `token`. */
  function ClientStack(token: string): seq<Middleware> {
    [RetryMiddleware(DEFAULT_BACKOFF_RETRIES),
     MapRequestMiddleware(DEFAULT_USER_AGENT, [("X-API-Key", token)]),
     LogMiddleware(LOG_FORMAT)]
  }

  /** Every request the client sends carries the default user agent, the JSON content type and
      the API key, replacing any earlier value of those headers; its other headers, its method,
      target and body are left as they were. */
  lemma ClientRequestHeaders(token: string, request: Request)
    ensures var sent := Prepare(ClientStack(token), request);
            && sent.httpMethod == request.httpMethod && sent.target == request.target && sent.body == request.body
            && "user-agent" in sent.headers && sent.headers["user-agent"] == Header("User-Agent", DEFAULT_USER_AGENT)
            && "content-type" in sent.headers && sent.headers["content-type"] == Header("Content-type", "application/json")
            && "x-api-key" in sent.headers && sent.headers["x-api-key"] == Header("X-API-Key", token)
            && forall k :: k != "user-agent" && k != "content-type" && k != "x-api-key" ==>
                 (k in sent.headers <==> k in request.headers) &&
                 (k in request.headers ==> sent.headers[k] == request.headers[k])
  {
    assert Lower("User-Agent") == "user-agent";
    assert Lower("Content-type") == "content-type";
    assert Lower("X-API-Key") == "x-api-key";
    var pairs := [("X-API-Key", token)];
    var mapped := request.(headers := Mapped(request.headers, DEFAULT_USER_AGENT, pairs));
    PrepareThroughStack(DEFAULT_BACKOFF_RETRIES, DEFAULT_USER_AGENT, pairs, LOG_FORMAT, request);
    var defaults := WithHeader(WithHeader(request.headers, "User-Agent", DEFAULT_USER_AGENT), "Content-type", "application/json");
    assert WithHeaders(defaults, pairs[..0]) == defaults;
    assert mapped.headers == WithHeader(defaults, "X-API-Key", token);
  }

  /** The client retries a request at most once: it is sent at most twice, and once when the first
      response has a status below 500. */
  lemma ClientSendsAtMostTwice(token: string, outcome: nat -> Retry.Outcome)
    ensures ClientStack(token)[0].RetryMiddleware?
    ensures Retry.Sends(ClientStack(token)[0].maxRetries, outcome, 0) <= 2
    ensures !Retry.Retriable(outcome(0)) ==> Retry.Sends(ClientStack(token)[0].maxRetries, outcome, 0) == 1
  {
    Retry.SendsBounded(DEFAULT_BACKOFF_RETRIES, outcome);
  }

  /** The decoded body of a response, or a body `json_decode` rejects. */
  datatype Decoded = Decoded(value: Value) | Malformed

  /** What `$this->client->send($request)` produced: a response body, or a Guzzle exception
      with its message and code. */
  datatype Delivery = Delivered(body: Decoded) | Raised(message: string, code: int)

  /** `sendRequest`: a falsy decoded body becomes the empty array, any other array is returned
      as decoded, and a Guzzle exception becomes a user error with the same message and code. */
  function SendRequest(delivery: Delivery): (r: Result<Value, Failure>)
    ensures r.Ok? ==> IsArray(r.value)
    ensures r.Ok? && Falsy(r.value) ==> r.value == List([])
    ensures delivery.Raised? <==> r.Err? && r.error.UserException?
    ensures delivery.Raised? ==> r.error == UserException(delivery.message, delivery.code)
    ensures delivery == Delivered(Malformed) ==> r == Err(JsonException)
    ensures delivery.Delivered? && delivery.body.Decoded? ==>
              (r.Ok? <==> IsArray(delivery.body.value) || Falsy(delivery.body.value))
    ensures delivery.Delivered? && delivery.body.Decoded? && IsArray(delivery.body.value) && !Falsy(delivery.body.value) ==>
              r == Ok(delivery.body.value)
    ensures delivery.Delivered? && delivery.body.Decoded? && Falsy(delivery.body.value) ==> r == Ok(List([]))
    ensures delivery.Delivered? && delivery.body.Decoded? && !Falsy(delivery.body.value) && !IsArray(delivery.body.value) ==>
              r.Err? && r.error.TypeError?
  {
    match delivery
    case Raised(message, code) => Err(UserException(message, code))
    case Delivered(Malformed) => Err(JsonException)
    case Delivered(Decoded(v)) =>
      var data := if Falsy(v) then List([]) else v;
      if IsArray(data) then Ok(data) else Err(TypeError("sendRequest return value"))
  }

  /** The request `createApp` hands to the client. */
  function CreateAppRequest(jobData: Value): Request {
    Request("POST", "apps", map[], jobData)
  }

  class DataMechanicsClient {
    const client: Client
    /** The API token the client was created with. */
    ghost const apiToken: string

    /** The client's handler stack is the one its constructor built for its token. */
    ghost predicate Valid() {
      client.handlers == ClientStack(apiToken)
    }

    constructor(dataMechanicsUrl: string, dataMechanicsToken: string)
      ensures client == Client(dataMechanicsUrl + "/api/", ClientStack(dataMechanicsToken))
      ensures apiToken == dataMechanicsToken && Valid()
    {
      var options := ClientOptions(
        dataMechanicsUrl + "/api/", true, DEFAULT_BACKOFF_RETRIES, DEFAULT_USER_AGENT,
        [("X-API-Key", dataMechanicsToken)]);
      var c := InitClient(options, LOG_FORMAT);
      client := c;
      apiToken := dataMechanicsToken;
    }

    /** `createApp`: sends the job data with POST to `apps` and returns what sendRequest makes of
        the delivery. `sent` is the request as it leaves the handler stack. */
    method CreateApp(jobData: Value, delivery: Delivery) returns (sent: Request, r: Result<Value, Failure>)
      requires Valid() && IsArray(jobData)
      ensures sent.httpMethod == "POST" && sent.target == "apps" && sent.body == jobData
      ensures forall k :: k in sent.headers ==> k == "user-agent" || k == "content-type" || k == "x-api-key"
      ensures "x-api-key" in sent.headers && sent.headers["x-api-key"] == Header("X-API-Key", apiToken)
      ensures "user-agent" in sent.headers && sent.headers["user-agent"] == Header("User-Agent", DEFAULT_USER_AGENT)
      ensures "content-type" in sent.headers && sent.headers["content-type"] == Header("Content-type", "application/json")
      ensures r == SendRequest(delivery)
    {
      sent := Prepare(client.handlers, CreateAppRequest(jobData));
      ClientRequestHeaders(apiToken, CreateAppRequest(jobData));
      r := SendRequest(delivery);
    }
  }
}
