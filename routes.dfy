/**
 * backend/src/routes/mpesa.js: the Express router of the alternate back end. Its
 * STK-Push route checks only that amount and phone are present and hands them to
 * the Daraja client with a derived account reference; its callback route
 * acknowledges whatever it is sent and keeps no state.
 */
module Routes {
  import opened Wrappers
  import opened JsText
  import opened IsoDate
  import opened Gateway
  import opened Daraja
  import Json

  /** The route's JSON body; None is an absent property. */
  datatype RouteRequest = RouteRequest(
    amount: Option<int>, phoneNumber: Option<string>, donorName: Option<string>, donorEmail: Option<string>)

  /** What the client receives: 400, the client's result as it was returned, or nothing when the promise rejects. */
  datatype RouteResponse =
    | MissingFields(message: string)
    | Forwarded(result: StkResult)
    | NoResponse
  {
    function HttpStatus(): Option<int> {
      match this
      case MissingFields(_) => Some(400)
      case Forwarded(_) => Some(200)
      case NoResponse => None
    }
  }

  const MsgRequired := "Amount and phone required"
  const Prefix := "DONATION-"
  const RouteDesc := "Donation to Kabeba 2027"

  /** `` `DONATION-${donorName.slice(0, 10)}` ``: the prefix and at most ten characters of the name. */
  function AccountReference(donorName: string): (r: string)
    ensures |r| <= 19 && |r| == 9 + (if |donorName| < 10 then |donorName| else 10)
    ensures r[..9] == Prefix && StartsWith(donorName, r[9..])
  {
    Prefix + Take(donorName, 10)
  }

  /** `donorName = 'Anonymous'`: the default applies only when the property is absent. */
  function DonorName(req: RouteRequest): string {
    req.donorName.GetOr("Anonymous")
  }

  /** `POST /stkpush` (lines 5-20). */
  function StkPushRoute(env: DarajaEnv, req: RouteRequest, token: TokenOutcome, stampClock: DateTime,
                        passwordClock: DateTime, post: PostOutcome): (r: (RouteResponse, seq<GatewayCall>))
    requires IsoDate.Valid(stampClock) && IsoDate.Valid(passwordClock)
    ensures r.0.MissingFields? <==> !(req.amount.Some? && req.amount.value != 0) || !(req.phoneNumber.Some? && req.phoneNumber.value != "")
    ensures r.0.MissingFields? ==> r.0.message == MsgRequired && r.1 == []
  {
    if !(req.amount.Some? && req.amount.value != 0) || !(req.phoneNumber.Some? && req.phoneNumber.value != "") then
      (MissingFields(MsgRequired), [])
    else
      var (completion, calls) := InitiateStkPush(env, req.phoneNumber.value, req.amount.value,
                                                 Some(AccountReference(DonorName(req))), Some(RouteDesc),
                                                 token, stampClock, passwordClock, post);
      match completion
      case Rejected(_) => (NoResponse, calls)
      case Resolved(result) => (Forwarded(result), calls)
  }

  /**
   * Any truthy amount and phone, however out of range or malformed, reach the client,
   * and the client's result is returned as it is. A failed token request leaves the
   * client without a response.
   */
  lemma StkPushRouteForwards(env: DarajaEnv, req: RouteRequest, token: TokenOutcome, stampClock: DateTime,
                             passwordClock: DateTime, post: PostOutcome)
    requires IsoDate.Valid(stampClock) && IsoDate.Valid(passwordClock)
    requires req.amount.Some? && req.amount.value != 0 && req.phoneNumber.Some? && req.phoneNumber.value != ""
    ensures var r := StkPushRoute(env, req, token, stampClock, passwordClock, post);
      var c := InitiateStkPush(env, req.phoneNumber.value, req.amount.value, Some(AccountReference(DonorName(req))),
                               Some(RouteDesc), token, stampClock, passwordClock, post);
      && r.1 == c.1
      && (token.TokenFailed? <==> r.0 == NoResponse)
      && (token.TokenIssued? ==> r.0 == Forwarded(c.0.result))
  {
    var c := InitiateStkPush(env, req.phoneNumber.value, req.amount.value, Some(AccountReference(DonorName(req))),
                             Some(RouteDesc), token, stampClock, passwordClock, post);
    assert StkPushRoute(env, req, token, stampClock, passwordClock, post)
           == (if c.0.Rejected? then NoResponse else Forwarded(c.0.result), c.1);
  }

  /**
   * The body the route forwards carries the fixed description and the account
   * reference derived from the donor name, which is `DONATION-Anonymous` when the
   * request names no donor.
   */
  lemma StkPushRouteBody(env: DarajaEnv, req: RouteRequest, accessToken: string, stampClock: DateTime,
                         passwordClock: DateTime, post: PostOutcome)
    requires IsoDate.Valid(stampClock) && IsoDate.Valid(passwordClock)
    requires req.amount.Some? && req.amount.value != 0 && req.phoneNumber.Some? && req.phoneNumber.value != ""
    ensures var calls := StkPushRoute(env, req, TokenIssued(accessToken), stampClock, passwordClock, post).1;
      && |calls| == 2 && calls[1].StkPushCall?
      && calls[1].payload.transactionDesc == RouteDesc
      && calls[1].payload.accountReference == AccountReference(DonorName(req))
      && (req.donorName.None? ==> calls[1].payload.accountReference == "DONATION-Anonymous")
  {
    var reference := AccountReference(DonorName(req));
    StkPushRouteForwards(env, req, TokenIssued(accessToken), stampClock, passwordClock, post);
    InitiateStkPushPayload(env, req.phoneNumber.value, req.amount.value, Some(reference), Some(RouteDesc),
                           accessToken, stampClock, passwordClock, post);
    if req.donorName.None? {
      AnonymousReference();
    }
  }

  /** With no donor name the reference is `DONATION-Anonymous`. */
  lemma AnonymousReference()
    ensures AccountReference("Anonymous") == "DONATION-Anonymous"
  {
    assert Take("Anonymous", 10) == "Anonymous";
  }

  /** The route's reply to the gateway's callback, `{ResultCode: 0, ResultDesc: 'Accepted'}`. */
  datatype Acknowledgement = Acknowledgement(resultCode: int, resultDesc: string)

  /** `POST /callback` (lines 23-39): the reply does not depend on the body, and the route holds no state to change. */
  function CallbackRoute(body: Json.Json): (r: Acknowledgement)
    ensures r.resultCode == 0 && r.resultDesc == "Accepted"
  {
    Acknowledgement(0, "Accepted")
  }
}
