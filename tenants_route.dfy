/** The `/api/tenants` proxy route (app/api/tenants/route.ts): `GET` lists
    tenants and `POST` creates one by forwarding the request to the tenant
    API. Each handler maps the upstream outcome to exactly one response.
    The upstream is an input: `fetch` is not performed, its outcome is given. */
module TenantsRoute {
  import opened Http

  const DefaultApiBaseUrl := "http://localhost:8080"
  const TenantsPath := "/rest/v1/tenants"
  const ListFailure := "Failed to fetch tenants"
  const CreateFailure := "Failed to create tenant"
  const Unavailable := ". The API server may be unavailable."

  datatype Method = GET | POST

  /** The request the handler sends upstream. */
  datatype UpstreamCall<P> = UpstreamCall(verb: Method, url: string, body: Option<P>)

  /** The JSON body of a route response: the upstream payload relayed
      unchanged, or an error envelope `{ error, status? }`. */
  datatype ResponseBody<P> = Relayed(value: P) | ErrorEnvelope(error: string, status: Option<int>)

  datatype Response<P> = Response(status: int, body: ResponseBody<P>)

  /** One handler invocation: the upstream call it made (if any) and the
      response it returned. */
  datatype Exchange<P> = Exchange(call: Option<UpstreamCall<P>>, response: Response<P>)

  /** `NEXT_PUBLIC_API_BASE_URL || API_BASE_URL || 'http://localhost:8080'`:
      the first non-empty setting wins, and the base is never empty. */
  function ApiBaseUrl(nextPublic: Option<string>, apiBase: Option<string>): (url: string)
    ensures url != ""
    ensures Truthy(nextPublic) ==> url == nextPublic.value
    ensures !Truthy(nextPublic) && Truthy(apiBase) ==> url == apiBase.value
    ensures !Truthy(nextPublic) && !Truthy(apiBase) ==> url == DefaultApiBaseUrl
  {
    Or(OrElse(nextPublic, apiBase), DefaultApiBaseUrl)
  }

  /** The 503 envelope of the `catch` clause. */
  function UnavailableResponse<P>(what: string): (r: Response<P>)
    ensures r.status == 503 && r.body.ErrorEnvelope? && r.body.status == None
    ensures EndsWith(r.body.error, " may be unavailable.")
  {
    var msg := what + Unavailable;
    assert msg[|msg| - |" may be unavailable."|..] == " may be unavailable.";
    Response(503, ErrorEnvelope(msg, None))
  }

  /** `GET /api/tenants`. */
  function ListTenants<P>(base: string, upstream: HttpOutcome<P>): (x: Exchange<P>)
    ensures x.call == Some(UpstreamCall(GET, base + TenantsPath, None))
    ensures upstream.NetworkError? ==> x.response == UnavailableResponse(ListFailure)
    ensures upstream.Reply? && !IsOk(upstream.status) ==>
              x.response == Response(upstream.status, ErrorEnvelope(ListFailure, Some(upstream.status)))
    ensures upstream.Reply? && IsOk(upstream.status) && upstream.body.Parsed? ==>
              x.response == Response(200, Relayed(upstream.body.value))
    ensures upstream.Reply? && IsOk(upstream.status) && upstream.body.Unparsable? ==>
              x.response == UnavailableResponse(ListFailure)
  {
    var call := Some(UpstreamCall(GET, base + TenantsPath, None));
    match upstream
    case NetworkError(_) => Exchange(call, UnavailableResponse(ListFailure))
    case Reply(status, _, body) =>
      if !IsOk(status) then
        Exchange(call, Response(status, ErrorEnvelope(ListFailure, Some(status))))
      else
        match body
        case Parsed(data, _) => Exchange(call, Response(200, Relayed(data)))
        // `await response.json()` rejects inside the `try`
        case Unparsable(_) => Exchange(call, UnavailableResponse(ListFailure))
  }

  /** The `error` of a failed create: the upstream's `message` when the body
      parses and carries a non-empty one, otherwise the canned text. */
  function CreateFailureMessage<P>(body: Body<P>): (msg: string)
    ensures msg != ""
    ensures body.Parsed? && Truthy(Get(body.fields, "message")) ==> msg == body.fields["message"]
    ensures body.Parsed? && !Truthy(Get(body.fields, "message")) ==> msg == CreateFailure
    ensures body.Unparsable? ==> msg == CreateFailure
  {
    var errorData := ParseOr(body, map["message" := CreateFailure]);
    Or(Get(errorData, "message"), CreateFailure)
  }

  /** `POST /api/tenants`: `request` is the incoming body, which is parsed
      before anything is sent upstream. */
  function CreateTenant<P>(base: string, request: Body<P>, upstream: HttpOutcome<P>): (x: Exchange<P>)
    ensures request.Unparsable? ==> x == Exchange(None, UnavailableResponse(CreateFailure))
    ensures request.Parsed? ==> x.call == Some(UpstreamCall(POST, base + TenantsPath, Some(request.value)))
    ensures request.Parsed? && upstream.NetworkError? ==> x.response == UnavailableResponse(CreateFailure)
    ensures request.Parsed? && upstream.Reply? && !IsOk(upstream.status) ==>
              x.response == Response(upstream.status,
                                     ErrorEnvelope(CreateFailureMessage(upstream.body), Some(upstream.status)))
    ensures request.Parsed? && upstream.Reply? && IsOk(upstream.status) && upstream.body.Parsed? ==>
              x.response == Response(201, Relayed(upstream.body.value))
    ensures request.Parsed? && upstream.Reply? && IsOk(upstream.status) && upstream.body.Unparsable? ==>
              x.response == UnavailableResponse(CreateFailure)
  {
    match request
    case Unparsable(_) => Exchange(None, UnavailableResponse(CreateFailure))
    case Parsed(payload, _) =>
      var call := Some(UpstreamCall(POST, base + TenantsPath, Some(payload)));
      match upstream
      case NetworkError(_) => Exchange(call, UnavailableResponse(CreateFailure))
      case Reply(status, _, body) =>
        if !IsOk(status) then
          Exchange(call, Response(status, ErrorEnvelope(CreateFailureMessage(body), Some(status))))
        else
          match body
          case Parsed(data, _) => Exchange(call, Response(201, Relayed(data)))
          case Unparsable(_) => Exchange(call, UnavailableResponse(CreateFailure))
  }

  /** The statuses a handler can answer with: 200 (list), 201 (create), 503,
      or the upstream's own non-ok status passed through. */
  predicate StatusAccountedFor<P>(status: int, upstream: HttpOutcome<P>) {
    status == 200 || status == 201 || status == 503 ||
    (upstream.Reply? && !IsOk(upstream.status) && status == upstream.status)
  }

  lemma ListStatusAccountedFor<P>(base: string, upstream: HttpOutcome<P>)
    ensures StatusAccountedFor(ListTenants(base, upstream).response.status, upstream)
    ensures ListTenants(base, upstream).response.status != 201
  {
  }

  lemma CreateStatusAccountedFor<P>(base: string, request: Body<P>, upstream: HttpOutcome<P>)
    ensures StatusAccountedFor(CreateTenant(base, request, upstream).response.status, upstream)
    ensures CreateTenant(base, request, upstream).response.status != 200
  {
  }

  /** A handler relays a payload exactly when the upstream answered ok with
      a parsable body, and then relays that body unchanged; every other
      outcome is an error envelope whose status is not ok. */
  lemma RelayExactlyOnSuccess<P>(base: string, request: Body<P>, upstream: HttpOutcome<P>)
    ensures var r := ListTenants(base, upstream).response;
            r.body.Relayed? <==> (upstream.Reply? && IsOk(upstream.status) && upstream.body.Parsed?)
    ensures var r := CreateTenant(base, request, upstream).response;
            r.body.Relayed? <==>
              (request.Parsed? && upstream.Reply? && IsOk(upstream.status) && upstream.body.Parsed?)
    ensures var r := ListTenants(base, upstream).response;
            r.body.Relayed? ==> r.body.value == upstream.body.value
    ensures var r := CreateTenant(base, request, upstream).response;
            r.body.Relayed? ==> r.body.value == upstream.body.value
    ensures var r := ListTenants(base, upstream).response;
            r.body.ErrorEnvelope? ==> !IsOk(r.status)
    ensures var r := CreateTenant(base, request, upstream).response;
            r.body.ErrorEnvelope? ==> !IsOk(r.status)
  {
  }

  /** An upstream 404 whose body says `{"message": "not found"}` reaches the
      browser as a 404 with error "not found". */
  lemma CreateNotFoundExample<P>(base: string, request: P, reply: P)
    ensures var x := CreateTenant(base, Parsed(request, map[]),
                                  Reply(404, "Not Found", Parsed(reply, map["message" := "not found"])));
            x.response == Response(404, ErrorEnvelope("not found", Some(404)))
  {
  }
}
