/**
 * What both back ends send to the M-Pesa (Daraja) gateway: the Basic credential for the
 * OAuth token request, the STK-Push password, and the request bodies. Each outbound
 * request is recorded as a `GatewayCall`, so that "no gateway contact" is a statement
 * about the list of calls a handler makes.
 */
module Gateway {
  import opened Wrappers
  import opened JsText
  import Utf8
  import Base64
  import Json

  /** The STK-Push request body (`/mpesa/stkpush/v1/processrequest`). */
  datatype StkPushPayload = StkPushPayload(
    businessShortCode: string,
    password: string,
    timestamp: string,
    transactionType: string,
    amount: int,
    partyA: string,
    partyB: string,
    phoneNumber: string,
    callBackUrl: string,
    accountReference: string,
    transactionDesc: string)

  /** The STK-Push status query body (`/mpesa/stkpushquery/v1/query`). */
  datatype QueryPayload = QueryPayload(businessShortCode: string, password: string, timestamp: string, checkoutRequestId: Json.Json)

  /** One HTTP request to the gateway, with its Authorization header. */
  datatype GatewayCall =
    | TokenRequest(authorization: string)
    | StkPushCall(authorization: string, payload: StkPushPayload)
    | StkQueryCall(authorization: string, query: QueryPayload)

  /** What the token endpoint does with a credential: grants a token or fails (rejection or transport error). */
  datatype TokenOutcome = TokenIssued(accessToken: string) | TokenFailed

  const TransactionType := "CustomerPayBillOnline"

  /**
   * The STK-Push password: base64 (section 4 of RFC 4648) of the UTF-8 bytes of
   * shortcode, passkey and timestamp run together; decoding it recovers that string.
   */
  function Password(shortcode: string, passkey: string, timestamp: string): string {
    Base64.EncodeString(shortcode + passkey + timestamp)
  }

  /** The password decodes to shortcode, passkey and timestamp. */
  lemma PasswordDecodes(shortcode: string, passkey: string, timestamp: string)
    ensures Base64.Decode(Password(shortcode, passkey, timestamp)) == Some(Utf8.Encode(shortcode + passkey + timestamp))
    ensures Utf8.Decode(Base64.Decode(Password(shortcode, passkey, timestamp)).value) == Some(shortcode + passkey + timestamp)
  {
    Base64.EncodeStringRoundTrip(shortcode + passkey + timestamp);
  }

  /**
   * The Basic credential of section 2 of RFC 7617: base64 of the user-id, a colon and
   * the password (here the consumer key and secret).
   */
  function BasicCredential(key: string, secret: string): string {
    Base64.EncodeString(key + ":" + secret)
  }

  /** The credential decodes to the UTF-8 bytes of `key:secret`. */
  lemma BasicCredentialDecodes(key: string, secret: string)
    ensures Base64.Decode(BasicCredential(key, secret)) == Some(Utf8.Encode(key + ":" + secret))
  {
    Base64.EncodeStringRoundTrip(key + ":" + secret);
  }

  /** The `Authorization` header of the token request. */
  function BasicAuthorization(key: string, secret: string): string {
    "Basic " + BasicCredential(key, secret)
  }

  /** The `Authorization` header of a request made with an access token. */
  function BearerAuthorization(token: string): string {
    "Bearer " + token
  }

  /** How a receiver of a Basic credential splits it: at the first colon (RFC 7617, section 2). */
  function SplitCredential(s: string): (r: Option<(string, string)>)
    ensures r.Some? ==> ':' !in r.value.0 && s == r.value.0 + ":" + r.value.1
    ensures r.None? <==> ':' !in s
  {
    if s == [] then None
    else if s[0] == ':' then Some(("", s[1..]))
    else match SplitCredential(s[1..])
      case None => None
      case Some((u, p)) => Some(([s[0]] + u, p))
  }

  /** A consumer key without a colon is recovered, with the secret, from the credential. */
  lemma {:induction false} CredentialRecoversKeyAndSecret(key: string, secret: string)
    requires ':' !in key
    ensures var bytes := Base64.Decode(BasicCredential(key, secret));
      bytes.Some? && var decoded := Utf8.Decode(bytes.value);
      decoded.Some? && SplitCredential(decoded.value) == Some((key, secret))
  {
    Base64.EncodeStringRoundTrip(key + ":" + secret);
    SplitAtFirstColon(key, secret);
  }

  lemma {:induction false} SplitAtFirstColon(u: string, p: string)
    requires ':' !in u
    ensures SplitCredential(u + ":" + p) == Some((u, p))
  {
    if u == [] {
      assert u + ":" + p == [':'] + p;
    } else {
      assert (u + ":" + p)[1..] == u[1..] + ":" + p;
      SplitAtFirstColon(u[1..], p);
      assert [u[0]] + u[1..] == u;
    }
  }
}
