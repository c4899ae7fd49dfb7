/** The tenant-creation form (components/CreateTenantForm.tsx): two
    controlled fields, and a submit handler that POSTs them to the
    `/api/tenants` proxy and shows the failure message it settles on. */
module CreateTenantForm {
  import opened Http
  import TenantsRoute

  const ProxyPath := "/api/tenants"
  const CreateFailure := "Failed to create tenant"
  const GenericFailure := "An error occurred"

  datatype TenantFormData = TenantFormData(name: string, description: string)

  /** The `name` attribute of the input that changed. */
  datatype TenantField = NameField | DescriptionField

  /** A request the form sent: always a POST of the form data to the proxy. */
  datatype Post = Post(path: string, body: TenantFormData)

  /** `handleChange`: the named field takes the new value, the other keeps
      its own. */
  function WithField(data: TenantFormData, field: TenantField, value: string): (d: TenantFormData)
    ensures field == NameField ==> d.name == value && d.description == data.description
    ensures field == DescriptionField ==> d.description == value && d.name == data.name
  {
    match field
    case NameField => data.(name := value)
    case DescriptionField => data.(description := value)
  }

  /** The error the submit leaves, or `None` when the tenant was created.
      A non-ok reply reads the body's `error`, then its `message`, then the
      canned text; an unparsable body stands for `{ error: <canned text> }`.
      A transport failure, or an ok reply that does not parse, shows the
      runtime error's own message. */
  function SubmitError<P>(outcome: HttpOutcome<P>): (e: Option<string>)
    ensures outcome.NetworkError? ==> e == Some(outcome.reason)
    ensures outcome.Reply? && IsOk(outcome.status) ==>
              e == (if outcome.body.Parsed? then None else Some(outcome.body.reason))
    ensures outcome.Reply? && !IsOk(outcome.status) ==> e.Some? && e.value != ""
    ensures outcome.Reply? && !IsOk(outcome.status) && outcome.body.Unparsable? ==>
              e == Some(CreateFailure)
    ensures outcome.Reply? && !IsOk(outcome.status) && outcome.body.Parsed? ==>
              var f := outcome.body.fields;
              e == Some(if Truthy(Get(f, "error")) then f["error"]
                        else if Truthy(Get(f, "message")) then f["message"]
                        else CreateFailure)
  {
    match outcome
    case NetworkError(reason) => Some(CaughtMessage(ErrorInstance(reason), GenericFailure))
    case Reply(status, _, body) =>
      if !IsOk(status) then
        var errorData := ParseOr(body, map["error" := CreateFailure]);
        Some(Or(OrElse(Get(errorData, "error"), Get(errorData, "message")), CreateFailure))
      else
        match body
        case Parsed(_, _) => None
        case Unparsable(reason) => Some(CaughtMessage(ErrorInstance(reason), GenericFailure))
  }

  /** The response of the proxy route as the browser's `fetch` sees it: the
      envelope's `error` is the only string property the form can read. */
  function AsSeenByBrowser<P>(r: TenantsRoute.Response<P>, statusText: string)
    : (o: HttpOutcome<TenantsRoute.ResponseBody<P>>)
    ensures o.Reply? && o.status == r.status && o.body.Parsed? && o.body.value == r.body
  {
    var fields := match r.body
      case ErrorEnvelope(e, _) => map["error" := e]
      case Relayed(_) => map[];
    Reply(r.status, statusText, Parsed(r.body, fields))
  }

  /** End to end through the proxy: the form reports success exactly when
      the upstream created the tenant; an upstream rejection shows the
      upstream's own message (or the canned text); an unreachable upstream
      shows the proxy's "may be unavailable" message. */
  lemma ThroughProxy<P>(base: string, request: P, requestFields: map<string, string>,
                        upstream: HttpOutcome<P>, statusText: string)
    ensures var x := TenantsRoute.CreateTenant(base, Parsed(request, requestFields), upstream);
            var e := SubmitError(AsSeenByBrowser(x.response, statusText));
            (e.None? <==> upstream.Reply? && IsOk(upstream.status) && upstream.body.Parsed?) &&
            (upstream.Reply? && !IsOk(upstream.status) ==>
               e == Some(TenantsRoute.CreateFailureMessage(upstream.body))) &&
            (upstream.NetworkError? ==>
               e == Some(TenantsRoute.CreateFailure + TenantsRoute.Unavailable))
  {
    var x := TenantsRoute.CreateTenant(base, Parsed(request, requestFields), upstream);
    var seen := AsSeenByBrowser(x.response, statusText);
    if x.response.body.ErrorEnvelope? {
      assert seen.body.fields == map["error" := x.response.body.error];
      TenantsRoute.RelayExactlyOnSuccess(base, Parsed(request, requestFields), upstream);
    }
  }

  class Form {
    var formData: TenantFormData
    var loading: bool
    var error: Option<string>
    var posts: seq<Post>
    var successes: nat  // calls made to `onSuccess`

    constructor ()
      ensures formData == TenantFormData("", "") && !loading && error == None
      ensures posts == [] && successes == 0
    {
      formData := TenantFormData("", "");
      loading := false;
      error := None;
      posts := [];
      successes := 0;
    }

    method HandleChange(field: TenantField, value: string)
      modifies this`formData
      ensures formData == WithField(old(formData), field, value)
    {
      match field {
        case NameField => formData := formData.(name := value);
        case DescriptionField => formData := formData.(description := value);
      }
    }

    /** The synchronous start of `handleSubmit`: spinner on, error cleared,
        the current form data POSTed to the proxy. */
    method BeginSubmit()
      modifies this`loading, this`error, this`posts
      ensures loading && error == None
      ensures posts == old(posts) + [Post(ProxyPath, formData)]
    {
      loading := true;
      error := None;
      posts := posts + [Post(ProxyPath, formData)];
    }

    /** The rest of `handleSubmit` once the request settles: record the
        error or call `onSuccess`; the spinner is off on every path. */
    method FinishSubmit<P>(outcome: HttpOutcome<P>)
      modifies this`loading, this`error, this`successes
      ensures !loading
      ensures var e := SubmitError(outcome);
              (e.None? ==> successes == old(successes) + 1 && error == old(error)) &&
              (e.Some? ==> successes == old(successes) && error == e)
    {
      var e := SubmitError(outcome);
      if e.None? {
        successes := successes + 1;
      } else {
        error := e;
      }
      loading := false;
    }

    method HandleSubmit<P>(outcome: HttpOutcome<P>)
      modifies this`loading, this`error, this`posts, this`successes
      ensures !loading && error == SubmitError(outcome)
      ensures posts == old(posts) + [Post(ProxyPath, formData)]
      ensures successes == old(successes) + (if error.None? then 1 else 0)
    {
      BeginSubmit();
      FinishSubmit(outcome);
    }
  }
}
