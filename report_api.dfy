/** The typed client of the reporting proxy (lib/reportApi.ts): one getter
    per resource, each building a request path under `/api/reports/tenant/`,
    and each turning a non-ok reply into a thrown `Error` whose message is
    chosen by the same fall-back chain. */
module ReportApi {
  import opened Http

  const DefaultDays := 30
  const ReportPrefix := "/api/reports/tenant/"
  const DaysQuery := "?days="

  /** The six getters: getTenantReport, getUserMetrics, getTripMetrics,
      getMediaMetrics, getSocialMetrics, getPricing. */
  datatype Resource = TenantReport | UserMetrics | TripMetrics | MediaMetrics | SocialMetrics | Pricing

  /** The path segment after the tenant identifier. */
  function Segment(r: Resource): string {
    match r
    case TenantReport => ""
    case UserMetrics => "/users"
    case TripMetrics => "/trips"
    case MediaMetrics => "/media"
    case SocialMetrics => "/social"
    case Pricing => "/pricing"
  }

  /** The resource's name in its messages: "Failed to fetch <noun>". */
  function Noun(r: Resource): string {
    match r
    case TenantReport => "tenant report"
    case UserMetrics => "user metrics"
    case TripMetrics => "trip metrics"
    case MediaMetrics => "media metrics"
    case SocialMetrics => "social metrics"
    case Pricing => "pricing"
  }

  function FetchFailure(r: Resource): string {
    "Failed to fetch " + Noun(r)
  }

  // ---- decimal rendering of `${days}` ----

  function DigitChar(d: nat): (c: char)
    requires d < 10
    ensures '0' <= c <= '9' && c as int - '0' as int == d
  {
    "0123456789"[d]
  }

  predicate AllDigits(s: string) {
    forall i :: 0 <= i < |s| ==> '0' <= s[i] <= '9'
  }

  /** The decimal numeral of a natural number, most significant digit first. */
  function NatToDecimal(n: nat): (s: string)
    ensures |s| >= 1 && AllDigits(s)
    ensures |s| > 1 ==> s[0] != '0'
    decreases n
  {
    if n < 10 then [DigitChar(n)] else NatToDecimal(n / 10) + [DigitChar(n % 10)]
  }

  /** The plain decimal numeral of an integer window: how a template literal
      renders an integer-valued number of magnitude below 10^21 that a
      double holds exactly. Larger magnitudes, which JavaScript renders in
      exponent form or cannot hold exactly, are not distinguished. */
  function IntToDecimal(n: int): (s: string)
    ensures n >= 0 ==> s == NatToDecimal(n)
    ensures n < 0 ==> s == "-" + NatToDecimal(-n)
  {
    if n < 0 then "-" + NatToDecimal(-n) else NatToDecimal(n)
  }

  /** The value a string of digits denotes. */
  function DecimalValue(s: string): nat
    requires AllDigits(s)
  {
    if s == [] then 0 else DecimalValue(s[..|s| - 1]) * 10 + (s[|s| - 1] as int - '0' as int)
  }

  /** The rendered `days` denotes exactly the number that was passed. */
  lemma {:induction false} DecimalRoundTrip(n: nat)
    ensures DecimalValue(NatToDecimal(n)) == n
  {
    if n >= 10 {
      var s := NatToDecimal(n);
      DecimalRoundTrip(n / 10);
      assert s[..|s| - 1] == NatToDecimal(n / 10);
    }
  }

  /** Two different day counts render differently, so the query always
      carries the requested window. */
  lemma DecimalInjective(m: nat, n: nat)
    requires NatToDecimal(m) == NatToDecimal(n)
    ensures m == n
  {
    DecimalRoundTrip(m);
    DecimalRoundTrip(n);
  }

  // ---- paths ----

  /** The path a getter fetches. Every getter but `getPricing` appends
      `?days=` and the window; an omitted window (`None`) takes the default
      of 30. `getPricing` takes no window at all. */
  function RequestPath(r: Resource, tenantId: string, days: Option<int>): (path: string)
    ensures StartsWith(path, ReportPrefix + tenantId + Segment(r))
    ensures r != Pricing && days.Some? ==>
              path == ReportPrefix + tenantId + Segment(r) + DaysQuery + IntToDecimal(days.value)
    ensures r != Pricing && days.None? ==>
              path == ReportPrefix + tenantId + Segment(r) + DaysQuery + "30"
    ensures r == Pricing ==> path == ReportPrefix + tenantId + "/pricing"
  {
    var base := ReportPrefix + tenantId + Segment(r);
    if r == Pricing then base
    else base + DaysQuery + IntToDecimal(if days.Some? then days.value else DefaultDays)
  }

  /** Omitting the window is the same request as asking for 30 days. */
  lemma OmittedWindowIsDefault(r: Resource, tenantId: string)
    ensures RequestPath(r, tenantId, None) == RequestPath(r, tenantId, Some(DefaultDays))
  {
    assert NatToDecimal(3) == "3";
    assert NatToDecimal(30) == NatToDecimal(3) + "0";
  }

  /** The pricing path does not depend on the window. */
  lemma PricingIgnoresDays(tenantId: string, d1: Option<int>, d2: Option<int>)
    ensures RequestPath(Pricing, tenantId, d1) == RequestPath(Pricing, tenantId, d2)
    ensures EndsWith(RequestPath(Pricing, tenantId, d1), "/pricing")
  {
    EndsWithAppend(ReportPrefix + tenantId, "/pricing");
  }

  /** For a windowed getter, the path ends in `?days=` followed by the
      window's numeral, and from a non-negative window the numeral gives
      the window back. */
  lemma WindowedPathCarriesDays(r: Resource, tenantId: string, days: nat)
    requires r != Pricing
    ensures var p := RequestPath(r, tenantId, Some(days));
            var numeral := NatToDecimal(days);
            EndsWith(p, DaysQuery + numeral) && DecimalValue(numeral) == days
  {
    var tail := DaysQuery + NatToDecimal(days);
    assert RequestPath(r, tenantId, Some(days)) == (ReportPrefix + tenantId + Segment(r)) + tail;
    EndsWithAppend(ReportPrefix + tenantId + Segment(r), tail);
    DecimalRoundTrip(days);
  }

  // ---- outcomes ----

  /** The message of the `Error` thrown for a non-ok reply: the body's own
      non-empty `error`; the per-resource fallback when the body does not
      parse (the fallback object carries it as its `error`); and
      "Failed to fetch <noun>: <statusText>" when the body parses without one. */
  function FailureMessage<P>(r: Resource, statusText: string, body: Body<P>): (msg: string)
    ensures msg != ""
    ensures body.Parsed? && Truthy(Get(body.fields, "error")) ==> msg == body.fields["error"]
    ensures body.Parsed? && !Truthy(Get(body.fields, "error")) ==>
              msg == FetchFailure(r) + ": " + statusText
    ensures body.Unparsable? ==> msg == FetchFailure(r)
  {
    var errorData := ParseOr(body, map["error" := FetchFailure(r)]);
    Or(Get(errorData, "error"), FetchFailure(r) + ": " + statusText)
  }

  /** What a getter's promise settles to, given the outcome of its `fetch`.
      A transport failure or an unparsable ok body rejects with the
      runtime's own error; a non-ok reply rejects with `FailureMessage`; an
      ok reply resolves to the parsed payload, unvalidated. */
  function Fetch<P>(r: Resource, outcome: HttpOutcome<P>): (res: Result<P>)
    ensures outcome.NetworkError? ==> res == Err(outcome.reason)
    ensures outcome.Reply? && !IsOk(outcome.status) ==>
              res == Err(FailureMessage(r, outcome.statusText, outcome.body))
    ensures outcome.Reply? && IsOk(outcome.status) ==>
              res == (match outcome.body
                      case Parsed(v, _) => Ok(v)
                      case Unparsable(reason) => Err(reason))
  {
    match outcome
    case NetworkError(reason) => Err(reason)
    case Reply(status, statusText, body) =>
      if !IsOk(status) then Err(FailureMessage(r, statusText, body))
      else
        match body
        case Parsed(v, _) => Ok(v)
        case Unparsable(reason) => Err(reason)
  }

  /** A getter resolves exactly when the reply is ok and parses, and then to
      the parsed payload itself: no field of it is checked. */
  lemma FetchOkExactly<P>(r: Resource, outcome: HttpOutcome<P>)
    ensures Fetch(r, outcome).Ok? <==>
              outcome.Reply? && IsOk(outcome.status) && outcome.body.Parsed?
    ensures Fetch(r, outcome).Ok? ==> Fetch(r, outcome).value == outcome.body.value
  {
  }
}
