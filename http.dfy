/**
 * One HTTP exchange as the client sees it, with the network abstracted
 * away: the server's reply is a plain value, and the status checks of
 * `get_request`, `post_request` and `delete_request` are functions of it.
 */
module Http {
  import opened Wrappers
  import opened PyValues
  import opened RateLimit
  import opened OrderedDict

  /** A reply: status code, the headers read as integers, the body after `json.loads`. */
  datatype HttpResponse = HttpResponse(status: int, headers: Headers, body: Value)

  datatype Verb = Get | Post | Delete

  /** What the client puts on the wire: method, URL, headers and, for POST, the form body. */
  datatype Request = Request(verb: Verb, url: string, headers: map<string, string>, form: Option<Dict<Value>>)

  /** What a client call can fail with. */
  datatype ApiError =
      /** `ImgurAPIError(message)`, raised by the client itself */
    | ImgurApiError(message: string)
      /** `RateLimitExceeded`, a kind of `ImgurAPIError`, with its `reset_time` */
    | RateLimitExceeded(resetTime: int)
      /** what `raise_for_status()` raises for a 4xx or 5xx status */
    | HttpStatusError(status: int)
      /** a body without the member the call reads, or of the wrong kind */
    | DataShapeError(what: string)

  const OAuthRequired := ImgurApiError("OAuth authentication required for this endpoint")

  /** `int(resp.headers.get("X-RateLimit-ClientReset", 0))` */
  function ResetTime(headers: Headers): int {
    if ClientResetHeader in headers then headers[ClientResetHeader] else 0
  }

  /** `raise_for_status()` lets 1xx-3xx through. */
  predicate StatusOk(status: int) {
    status < 400
  }

  /** The checks `get_request` makes once the rate limits are updated. */
  function GetOutcome(resp: HttpResponse): (r: Result<Value, ApiError>)
    ensures resp.status == 429 ==> r == Failure(RateLimitExceeded(ResetTime(resp.headers)))
    ensures resp.status != 429 && !StatusOk(resp.status) ==> r == Failure(HttpStatusError(resp.status))
    ensures r.Success? <==> StatusOk(resp.status)
    ensures r.Success? ==> r.value == resp.body
  {
    if resp.status == 429 then Failure(RateLimitExceeded(ResetTime(resp.headers)))
    else if !StatusOk(resp.status) then Failure(HttpStatusError(resp.status))
    else Success(resp.body)
  }

  /** The checks `post_request` and `delete_request` make: there is no 429 branch. */
  function PlainOutcome(resp: HttpResponse): (r: Result<Value, ApiError>)
    ensures r.Success? <==> StatusOk(resp.status)
    ensures r.Success? ==> r.value == resp.body
    ensures r.Failure? ==> r.error == HttpStatusError(resp.status)
  {
    if !StatusOk(resp.status) then Failure(HttpStatusError(resp.status)) else Success(resp.body)
  }

  /**
   * A GET and a POST or DELETE that get the same reply end the same way,
   * except on 429, which only a GET reports as `RateLimitExceeded`.
   */
  lemma OnlyGetReportsRateLimit(resp: HttpResponse)
    ensures GetOutcome(resp) == PlainOutcome(resp) <==> resp.status != 429
    ensures PlainOutcome(resp).Failure? ==> !PlainOutcome(resp).error.RateLimitExceeded?
  {
  }

  /**
   * The reset time a 429 carries is the tracker's `client_reset` after the
   * update when the header is present, and 0, not the tracker's old value,
   * when it is absent.
   */
  lemma ResetTimeVersusTracker(r: RateLimits, resp: HttpResponse)
    requires resp.status == 429
    ensures ClientResetHeader in resp.headers ==>
              GetOutcome(resp) == Failure(RateLimitExceeded(Merge(r, resp.headers).clientReset))
    ensures ClientResetHeader !in resp.headers ==>
              GetOutcome(resp) == Failure(RateLimitExceeded(0)) && Merge(r, resp.headers).clientReset == r.clientReset
  {
  }

  /** `response["data"]` */
  function Data(body: Value): (r: Result<Value, ApiError>)
    ensures r.Success? <==> body.VDict? && Lookup(body.entries, "data").Some?
    ensures r.Success? ==> Lookup(body.entries, "data") == Some(r.value)
  {
    if body.VDict? then
      match Lookup(body.entries, "data")
      case Some(d) => Success(d)
      case None => Failure(DataShapeError("no data member"))
    else Failure(DataShapeError("body is not an object"))
  }

  /** `for x in response["data"]`: the data member must be a list. */
  function DataItems(body: Value): (r: Result<seq<Value>, ApiError>)
    ensures r.Success? <==> Data(body).Success? && Data(body).value.VList?
    ensures r.Success? ==> r.value == Data(body).value.items
  {
    match Data(body)
    case Success(VList(items)) => Success(items)
    case Success(_) => Failure(DataShapeError("data is not a list"))
    case Failure(e) => Failure(e)
  }

  /** `response.get("success", False)` */
  function SuccessFlag(body: Value): (r: Result<Value, ApiError>)
    ensures r.Success? <==> body.VDict?
    ensures body.VDict? && Lookup(body.entries, "success").None? ==> r == Success(VBool(false))
    ensures body.VDict? && Lookup(body.entries, "success").Some? ==> r == Success(Lookup(body.entries, "success").value)
  {
    if body.VDict? then
      match Lookup(body.entries, "success")
      case Some(v) => Success(v)
      case None => Success(VBool(false))
    else Failure(DataShapeError("body is not an object"))
  }
}
