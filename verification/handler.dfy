/** The Lambda entry point (`exports.handler`): resolve the endpoint, await the token,
    issue the one upstream GET, shape its `data`, and wrap it in the fixed envelope. The
    two awaited network results and the JSON library calls are parameters. */
module Handler {
  import opened Wrappers
  import opened Js
  import opened Errors
  import opened Endpoint
  import opened Shaping
  import opened Upstream
  import opened Credentials

  /** The parts of the API Gateway proxy event the handler reads. */
  datatype Event = Event(path: string, queryStringParameters: JsValue)

  /** The proxy-integration response. */
  datatype Response = Response(statusCode: int, headers: map<string, string>, body: string)

  /** The upstream GET the invocation issued: its URL and bearer credential. */
  datatype UpstreamRequest = UpstreamRequest(url: string, bearer: JsValue)

  /** One invocation: how it settled, what it logged, and which upstream requests it sent. */
  datatype Invocation = Invocation(outcome: Result<Response, Fault>, log: seq<string>, requests: seq<UpstreamRequest>)

  const CorsHeaders: map<string, string> := map["Access-Control-Allow-Origin" := "*"]

  /** The upstream body has a `data` array of records the selected projection can read. */
  predicate WellFormedBody(body: JsValue, dest: JsValue) {
    && body.Obj?
    && Prop(body, "data").Arr?
    && AllShapeable(Prop(body, "data").elems, dest)
  }

  /** The invocation, given the settled Secrets Manager promise (`secret`), the settled
      upstream GET (`upstream`: the decoded body or the rejection reason), and the library
      functions `JSON.parse`, base64/ASCII decoding and `JSON.stringify`. */
  function Handle(event: Event, secret: Result<SecretValue, AwsError>,
                  parse: string -> Option<JsValue>, decode: JsValue -> Option<string>,
                  upstream: Result<JsValue, JsValue>, stringify: JsValue -> string): (inv: Invocation)
    requires upstream.Success? ==> WellFormedBody(upstream.value, GetEndpoint(event.path))
    // a response is always the fixed 200 envelope around the shaped upstream data
    ensures inv.outcome.Success? ==>
      && upstream.Success?
      && inv.outcome.value.statusCode == 200
      && inv.outcome.value.headers == CorsHeaders
      && inv.outcome.value.body
         == stringify(Arr(RequestedData(Prop(upstream.value, "data").elems, GetEndpoint(event.path))))
    // exactly one upstream request is sent after a token was obtained, at most one in all
    ensures |inv.requests| <= 1
    ensures inv.outcome.Success? ==> |inv.requests| == 1
    ensures |inv.requests| == 1 ==>
      && GetToken(secret, parse, decode).token.Success?
      && inv.requests[0].bearer == GetToken(secret, parse, decode).token.value
      && UpstreamUrl(GetEndpoint(event.path), event.queryStringParameters) == Success(inv.requests[0].url)
    // a Secrets Manager rejection is logged with its diagnosis and re-thrown, and nothing is sent
    ensures secret.Failure? ==>
      && inv.outcome == Failure(SecretsFault(secret.error))
      && inv.log == Diagnostic(Classify(secret.error.code))
      && inv.requests == []
    ensures secret.Success? ==> inv.log == []
    // an upstream rejection propagates unchanged
    ensures |inv.requests| == 1 && upstream.Failure? ==> inv.outcome == Failure(RequestFault(upstream.error))
    // a token, query parameters and a resolved upstream body always give the response
    ensures
      (&& GetToken(secret, parse, decode).token.Success?
       && !event.queryStringParameters.IsNullish()
       && upstream.Success?)
      ==> inv.outcome.Success?
    // any fault of getToken propagates unchanged, and nothing is sent
    ensures GetToken(secret, parse, decode).token.Failure? ==>
      && inv.outcome == Failure(GetToken(secret, parse, decode).token.error)
      && inv.requests == []
    // missing query parameters throw after the token is read and before any request
    ensures GetToken(secret, parse, decode).token.Success? && event.queryStringParameters.IsNullish() ==>
      && inv.outcome == Failure(TypeFault)
      && inv.requests == []
    // with a token and query parameters, the one request is sent whatever the upstream answers
    ensures GetToken(secret, parse, decode).token.Success? && !event.queryStringParameters.IsNullish() ==>
      |inv.requests| == 1
  {
    var dest := GetEndpoint(event.path);
    var token := GetToken(secret, parse, decode);
    if token.token.Failure? then
      Invocation(Failure(token.token.error), token.log, [])
    else
      match UpstreamUrl(dest, event.queryStringParameters)
      case Failure(f) => Invocation(Failure(f), token.log, [])
      case Success(url) =>
        var request := UpstreamRequest(url, token.token.value);
        match upstream
        case Failure(reason) => Invocation(Failure(RequestFault(reason)), token.log, [request])
        case Success(body) =>
          var results := RequestedData(Prop(body, "data").elems, dest);
          Invocation(Success(Response(200, CorsHeaders, stringify(Arr(results)))), token.log, [request])
  }

  /** An event for an unknown path is answered with the upstream data unchanged, fetched
      from the resource segment "null". */
  lemma UnknownPathPassesThrough(event: Event, secret: Result<SecretValue, AwsError>,
                                 parse: string -> Option<JsValue>, decode: JsValue -> Option<string>,
                                 upstream: Result<JsValue, JsValue>, stringify: JsValue -> string)
    requires event.path != LocationsPath && event.path != PeoplePath
    requires upstream.Success? ==> WellFormedBody(upstream.value, GetEndpoint(event.path))
    ensures var inv := Handle(event, secret, parse, decode, upstream, stringify);
      && (inv.outcome.Success? ==> inv.outcome.value.body == stringify(Arr(Prop(upstream.value, "data").elems)))
      && (|inv.requests| == 1 ==>
            ParseUrl(inv.requests[0].url) == Some(("null", ToText(Prop(event.queryStringParameters, "q")))))
  {
    var inv := Handle(event, secret, parse, decode, upstream, stringify);
    if inv.outcome.Success? {
      UnknownDestIsIdentity(Prop(upstream.value, "data").elems, GetEndpoint(event.path));
    }
    if |inv.requests| == 1 {
      UpstreamUrlRoundTrip(event.path, event.queryStringParameters);
    }
  }
}
