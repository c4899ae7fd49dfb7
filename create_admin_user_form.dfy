/** The admin-user form (components/CreateAdminUserForm.tsx): three
    controlled fields and a submit handler that POSTs them straight to the
    tenant API, not through the console's proxy. Unlike the tenant form, a
    failed reply's body is parsed with no fallback, so a body that is not
    JSON surfaces its parse error. */
module CreateAdminUserForm {
  import opened Http

  const DefaultApiBaseUrl := "http://localhost:8080"
  const AdminFailure := "Failed to create admin user"
  const GenericFailure := "An error occurred"

  datatype AdminFormData = AdminFormData(email: string, password: string, displayName: string)

  datatype AdminField = EmailField | PasswordField | DisplayNameField

  datatype Post = Post(url: string, body: AdminFormData)

  /** `NEXT_PUBLIC_API_BASE_URL || 'http://localhost:8080'`. */
  function ApiBaseUrl(nextPublic: Option<string>): (url: string)
    ensures url != ""
    ensures Truthy(nextPublic) ==> url == nextPublic.value
    ensures !Truthy(nextPublic) ==> url == DefaultApiBaseUrl
  {
    Or(nextPublic, DefaultApiBaseUrl)
  }

  /** The target of the POST: the tenant API's admin endpoint for the
      tenant, with the identifier inserted verbatim. */
  function AdminUrl(base: string, tenantId: string): (url: string)
    ensures StartsWith(url, base + "/rest/v1/tenants/" + tenantId)
    ensures EndsWith(url, "/admin")
    ensures |url| == |base| + |"/rest/v1/tenants/"| + |tenantId| + |"/admin"|
  {
    EndsWithAppend(base + "/rest/v1/tenants/" + tenantId, "/admin");
    base + "/rest/v1/tenants/" + tenantId + "/admin"
  }

  /** With the default base the request goes to the tenant API itself,
      never to a relative `/api/...` proxy path. */
  lemma BypassesProxy(tenantId: string)
    ensures StartsWith(AdminUrl(ApiBaseUrl(None), tenantId), "http://localhost:8080/rest/v1/tenants/")
    ensures !StartsWith(AdminUrl(ApiBaseUrl(None), tenantId), "/api/")
  {
    var url := AdminUrl(ApiBaseUrl(None), tenantId);
    assert url[0] == 'h';
  }

  /** `handleChange`: only the named field changes. */
  function WithField(data: AdminFormData, field: AdminField, value: string): (d: AdminFormData)
    ensures field == EmailField ==> d == AdminFormData(value, data.password, data.displayName)
    ensures field == PasswordField ==> d == AdminFormData(data.email, value, data.displayName)
    ensures field == DisplayNameField ==> d == AdminFormData(data.email, data.password, value)
  {
    match field
    case EmailField => data.(email := value)
    case PasswordField => data.(password := value)
    case DisplayNameField => data.(displayName := value)
  }

  /** The error the submit leaves, or `None` when the admin was created. A
      non-ok reply that parses shows its non-empty `message` or the canned
      text; one that does not parse shows the parse error itself, as does an
      ok reply that does not parse; a transport failure shows its own
      message. */
  function SubmitError<P>(outcome: HttpOutcome<P>): (e: Option<string>)
    ensures outcome.NetworkError? ==> e == Some(outcome.reason)
    ensures outcome.Reply? && outcome.body.Unparsable? ==> e == Some(outcome.body.reason)
    ensures outcome.Reply? && outcome.body.Parsed? ==>
              (IsOk(outcome.status) <==> e.None?)
    ensures outcome.Reply? && !IsOk(outcome.status) && outcome.body.Parsed? ==>
              e == Some(if Truthy(Get(outcome.body.fields, "message")) then outcome.body.fields["message"]
                        else AdminFailure)
  {
    match outcome
    case NetworkError(reason) => Some(CaughtMessage(ErrorInstance(reason), GenericFailure))
    case Reply(status, _, body) =>
      match body
      // `await response.json()` rejects before the status matters
      case Unparsable(reason) => Some(CaughtMessage(ErrorInstance(reason), GenericFailure))
      case Parsed(_, fields) =>
        if !IsOk(status) then Some(Or(Get(fields, "message"), AdminFailure)) else None
  }

  /** The canned text appears only for a parsed failure without a message:
      an unparsable failure body never falls back to it (unless its parse
      error happens to read the same). */
  lemma NoFallbackForUnparsable<P>(status: int, statusText: string, reason: string)
    requires !IsOk(status) && reason != AdminFailure
    ensures SubmitError<P>(Reply(status, statusText, Unparsable(reason))) != Some(AdminFailure)
  {
  }

  class Form {
    const tenantId: string
    const base: string
    var formData: AdminFormData
    var loading: bool
    var error: Option<string>
    var posts: seq<Post>
    var successes: nat  // calls made to `onSuccess`

    constructor (tenantId: string, base: string)
      ensures this.tenantId == tenantId && this.base == base
      ensures formData == AdminFormData("", "", "") && !loading && error == None
      ensures posts == [] && successes == 0
    {
      this.tenantId := tenantId;
      this.base := base;
      formData := AdminFormData("", "", "");
      loading := false;
      error := None;
      posts := [];
      successes := 0;
    }

    method HandleChange(field: AdminField, value: string)
      modifies this`formData
      ensures formData == WithField(old(formData), field, value)
    {
      match field {
        case EmailField => formData := formData.(email := value);
        case PasswordField => formData := formData.(password := value);
        case DisplayNameField => formData := formData.(displayName := value);
      }
    }

    method BeginSubmit()
      modifies this`loading, this`error, this`posts
      ensures loading && error == None
      ensures posts == old(posts) + [Post(AdminUrl(base, tenantId), formData)]
    {
      loading := true;
      error := None;
      posts := posts + [Post(AdminUrl(base, tenantId), formData)];
    }

    method FinishSubmit<P>(outcome: HttpOutcome<P>)
      modifies this`loading, this`error, this`successes
      ensures !loading
      ensures var e := SubmitError(outcome);
              (e.None? ==> successes == old(successes) + 1 && error == old(error)) &&
              (e.Some? ==> successes == old(successes) && error == e)
    {
      var e := SubmitError(outcome);
      if e.None? {
        successes := successes + 1;
      } else {
        error := e;
      }
      loading := false;
    }

    method HandleSubmit<P>(outcome: HttpOutcome<P>)
      modifies this`loading, this`error, this`posts, this`successes
      ensures !loading && error == SubmitError(outcome)
      ensures posts == old(posts) + [Post(AdminUrl(base, tenantId), formData)]
      ensures successes == old(successes) + (if error.None? then 1 else 0)
    {
      BeginSubmit();
      FinishSubmit(outcome);
    }
  }
}
