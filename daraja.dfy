/**
 * backend/src/utils/daraja.js: the alternate gateway client used by the Express
 * back end under backend/. It asks for a token, then builds and posts the STK-Push
 * body. The clock is read twice, once for the body's Timestamp (line 39) and once
 * inside `generatePassword` (line 28), so the model takes two readings.
 */
module Daraja {
  import opened Wrappers
  import opened JsText
  import opened IsoDate
  import opened Gateway
  import opened KenyanPhone
  import Utf8
  import Base64
  import Server

  /** The `DARAJA_*` and `CALLBACK_BASE_URL` environment values. */
  datatype DarajaEnv = DarajaEnv(
    consumerKey: string, consumerSecret: string, shortcode: string, passkey: string,
    callbackBaseUrl: Option<string>)

  const DefaultCallbackBase := "https://your-domain.com"
  const CallbackPath := "/api/mpesa/callback"
  const DefaultAccountRef := "KabebaDonation"
  const DefaultDesc := "Donation"
  const MsgSent := "STK Push sent"
  const MsgFailed := "STK Push failed"
  const MsgTokenFailed := "Failed to get Daraja token"

  /** `CALLBACK_BASE_URL || 'https://your-domain.com'` followed by the callback path. */
  function CallbackUrl(env: DarajaEnv): (r: string)
    ensures |r| >= |CallbackPath| && r[|r| - |CallbackPath|..] == CallbackPath
    ensures !TextOrNone(env.callbackBaseUrl) ==> r == DefaultCallbackBase + CallbackPath
    ensures TextOrNone(env.callbackBaseUrl) ==> r[..|r| - |CallbackPath|] == env.callbackBaseUrl.value
  {
    OrElse(env.callbackBaseUrl, DefaultCallbackBase) + CallbackPath
  }

  predicate TextOrNone(v: Option<string>) { v.Some? && v.value != "" }

  /** The ISO string with `-`, `:` and `T` removed, cut to 14 characters. */
  function Timestamp(clock: DateTime): (r: string)
    requires IsoDate.Valid(clock)
    ensures 0 <= clock.year <= 9999 ==> r == Compact(clock) && |r| == 14 && AllDigits(r)
  {
    var r := DarajaTimestamp(IsoString(clock));
    if 0 <= clock.year <= 9999 then DarajaTimestampIsCompact(clock); r else r
  }

  /** `generatePassword` at its own clock reading: base64 of SHORTCODE, PASSKEY and the timestamp. */
  function GeneratePassword(env: DarajaEnv, clock: DateTime): string
    requires IsoDate.Valid(clock)
  {
    Password(env.shortcode, env.passkey, Timestamp(clock))
  }

  /** The password decodes to SHORTCODE, PASSKEY and the timestamp of its own clock reading. */
  lemma GeneratePasswordDecodes(env: DarajaEnv, clock: DateTime)
    requires IsoDate.Valid(clock)
    ensures Base64.Decode(GeneratePassword(env, clock)) == Some(Utf8.Encode(env.shortcode + env.passkey + Timestamp(clock)))
    ensures Utf8.Decode(Base64.Decode(GeneratePassword(env, clock)).value) == Some(env.shortcode + env.passkey + Timestamp(clock))
  {
    PasswordDecodes(env.shortcode, env.passkey, Timestamp(clock));
  }

  /** `phone.startsWith('0') ? '254' + phone.slice(1) : phone`, with no validation. */
  function RewritePhone(phone: string): (r: string)
    ensures StartsWith(phone, "0") ==> |r| == |phone| + 2 && r[..3] == "254" && r[3..] == phone[1..]
    ensures !StartsWith(phone, "0") ==> r == phone
  {
    if StartsWith(phone, "0") then "254" + phone[1..] else phone
  }

  /**
   * On every number server.js accepts except the bare nine digits, the rewrite gives
   * the same `254…` number server.js sends; a bare number is sent unprefixed.
   */
  lemma RewriteAgreesWithServer(phone: string)
    requires IsKenyanMobile(phone)
    ensures !IsSubscriber(phone) && !StartsWith(phone, "+") ==> Some(RewritePhone(phone)) == Server.FormatPhone(phone)
    ensures IsSubscriber(phone) ==> RewritePhone(phone) == phone && |phone| == 9
  {
    var f := Server.FormatPhone(phone).value;
    if |phone| == 10 && phone[0] == '0' {
      assert StartsWith(phone, "0");
      assert RewritePhone(phone) == f;
    } else if |phone| == 12 && phone[..3] == "254" {
      assert !StartsWith(phone, "0") by { assert phone[0] == phone[..3][0]; }
      assert phone == f by { assert phone[..3] + phone[3..] == phone; }
    } else if IsSubscriber(phone) {
      assert !StartsWith(phone, "0") by { assert phone[0] != '0'; }
    }
  }

  /** The gateway's reply: `res.data.CheckoutRequestID` and `res.data.CustomerMessage`. */
  datatype StkReply = StkReply(checkoutRequestId: Option<string>, customerMessage: Option<string>)

  /** The STK-Push POST: a reply, or an exception carrying `response.data.errorMessage` if any. */
  datatype PostOutcome = PostReplied(reply: StkReply) | PostFailed(errorMessage: Option<string>)

  /** The object `initiateSTKPush` resolves to. */
  datatype StkResult =
    | StkSent(checkoutRequestId: Option<string>, message: string)
    | StkFailed(error: string)

  /** Whether the returned promise resolves or rejects. */
  datatype Completion = Resolved(result: StkResult) | Rejected(error: string)

  /** The body of lines 46-58. `accountRef` and `desc` are None when the caller omits them. */
  function Payload(env: DarajaEnv, phone: string, amount: int, accountRef: Option<string>, desc: Option<string>,
                   stampClock: DateTime, passwordClock: DateTime): StkPushPayload
    requires IsoDate.Valid(stampClock) && IsoDate.Valid(passwordClock)
  {
    StkPushPayload(
      businessShortCode := env.shortcode,
      password := GeneratePassword(env, passwordClock),
      timestamp := Timestamp(stampClock),
      transactionType := TransactionType,
      amount := amount,
      partyA := RewritePhone(phone),
      partyB := env.shortcode,
      phoneNumber := RewritePhone(phone),
      callBackUrl := CallbackUrl(env),
      accountReference := accountRef.GetOr(DefaultAccountRef),
      transactionDesc := desc.GetOr(DefaultDesc))
  }

  /**
   * `initiateSTKPush`: a failed token request rejects the promise (it happens outside
   * the `try`); a failed POST resolves to `{success:false, error}`; a reply resolves to
   * `{success:true, checkoutRequestId, message}`.
   */
  function InitiateStkPush(env: DarajaEnv, phone: string, amount: int, accountRef: Option<string>, desc: Option<string>,
                           token: TokenOutcome, stampClock: DateTime, passwordClock: DateTime, post: PostOutcome)
    : (r: (Completion, seq<GatewayCall>))
    requires IsoDate.Valid(stampClock) && IsoDate.Valid(passwordClock)
    ensures r.0.Rejected? <==> token.TokenFailed?
    ensures token.TokenFailed? ==> r.0.error == MsgTokenFailed && |r.1| == 1 && r.1[0].TokenRequest?
    ensures token.TokenIssued? ==> |r.1| == 2 && r.1[0].TokenRequest? && r.1[1].StkPushCall?
    ensures token.TokenIssued? && post.PostFailed? ==>
              && r.0.Resolved? && r.0.result.StkFailed?
              && (TextOrNone(post.errorMessage) ==> r.0.result.error == post.errorMessage.value)
              && (!TextOrNone(post.errorMessage) ==> r.0.result.error == MsgFailed)
    ensures token.TokenIssued? && post.PostReplied? ==>
              && r.0.Resolved? && r.0.result.StkSent?
              && r.0.result.checkoutRequestId == post.reply.checkoutRequestId
              && (TextOrNone(post.reply.customerMessage) ==> r.0.result.message == post.reply.customerMessage.value)
              && (!TextOrNone(post.reply.customerMessage) ==> r.0.result.message == MsgSent)
  {
    var tokenCall := TokenRequest(BasicAuthorization(env.consumerKey, env.consumerSecret));
    match token
    case TokenFailed => (Rejected(MsgTokenFailed), [tokenCall])
    case TokenIssued(accessToken) =>
      var payload := Payload(env, phone, amount, accountRef, desc, stampClock, passwordClock);
      var calls := [tokenCall, StkPushCall(BearerAuthorization(accessToken), payload)];
      match post
      case PostFailed(errorMessage) => (Resolved(StkFailed(OrElse(errorMessage, MsgFailed))), calls)
      case PostReplied(reply) => (Resolved(StkSent(reply.checkoutRequestId, OrElse(reply.customerMessage, MsgSent))), calls)
  }

  /**
   * With a token, the POST carries the Bearer token and a body whose payer and
   * phone are the same rewritten number, whose receiving party is the shortcode,
   * whose callback URL ends in the callback path, and whose omitted reference and
   * description take their defaults; the token request carries the Basic credential,
   * which decodes to `key:secret`.
   */
  lemma InitiateStkPushPayload(env: DarajaEnv, phone: string, amount: int, accountRef: Option<string>, desc: Option<string>,
                               accessToken: string, stampClock: DateTime, passwordClock: DateTime, post: PostOutcome)
    requires IsoDate.Valid(stampClock) && IsoDate.Valid(passwordClock)
    ensures var r := InitiateStkPush(env, phone, amount, accountRef, desc, TokenIssued(accessToken), stampClock, passwordClock, post);
      && r.1[0].TokenRequest?
      && Base64.Decode(r.1[0].authorization[|"Basic "|..]) == Some(Utf8.Encode(env.consumerKey + ":" + env.consumerSecret))
      && r.1[1].authorization == "Bearer " + accessToken
      && var p := r.1[1].payload;
         && p.partyA == p.phoneNumber == RewritePhone(phone)
         && p.partyB == p.businessShortCode == env.shortcode
         && p.amount == amount
         && p.callBackUrl == CallbackUrl(env)
         && (accountRef.None? ==> p.accountReference == DefaultAccountRef)
         && (accountRef.Some? ==> p.accountReference == accountRef.value)
         && (desc.None? ==> p.transactionDesc == DefaultDesc)
         && (desc.Some? ==> p.transactionDesc == desc.value)
         && p.transactionType == "CustomerPayBillOnline"
         && (0 <= stampClock.year <= 9999 ==> p.timestamp == Compact(stampClock))
  {
    var r := InitiateStkPush(env, phone, amount, accountRef, desc, TokenIssued(accessToken), stampClock, passwordClock, post);
    var auth := BasicAuthorization(env.consumerKey, env.consumerSecret);
    assert r.1[0] == TokenRequest(auth);
    assert auth[|"Basic "|..] == BasicCredential(env.consumerKey, env.consumerSecret);
    BasicCredentialDecodes(env.consumerKey, env.consumerSecret);
  }

  /** The same seconds field-for-field. */
  predicate SameSecond(a: DateTime, b: DateTime) {
    a.year == b.year && a.month == b.month && a.day == b.day && a.hour == b.hour && a.minute == b.minute
    && a.second == b.second
  }

  /**
   * The password decodes to SHORTCODE, PASSKEY and the body's own Timestamp exactly
   * when the two clock readings fall in the same second.
   */
  lemma PasswordMatchesTimestampIffSameSecond(env: DarajaEnv, phone: string, amount: int, accountRef: Option<string>,
                                              desc: Option<string>, stampClock: DateTime, passwordClock: DateTime)
    requires IsoDate.Valid(stampClock) && IsoDate.Valid(passwordClock)
    requires 0 <= stampClock.year <= 9999 && 0 <= passwordClock.year <= 9999
    ensures var p := Payload(env, phone, amount, accountRef, desc, stampClock, passwordClock);
      (Base64.Decode(p.password).Some?
       && Utf8.Decode(Base64.Decode(p.password).value) == Some(env.shortcode + env.passkey + p.timestamp))
      <==> SameSecond(stampClock, passwordClock)
  {
    var p := Payload(env, phone, amount, accountRef, desc, stampClock, passwordClock);
    var prefix := env.shortcode + env.passkey;
    var a, b := Compact(passwordClock), Compact(stampClock);
    GeneratePasswordDecodes(env, passwordClock);
    assert Utf8.Decode(Base64.Decode(p.password).value) == Some(prefix + a);
    if prefix + a == prefix + b {
      assert a == (prefix + a)[|prefix|..];
      assert b == (prefix + b)[|prefix|..];
      CompactRoundTrip(stampClock);
      CompactRoundTrip(passwordClock);
    }
  }

  /**
   * For one and the same clock reading both back ends put the same 14-digit timestamp
   * in the body, and, given the same shortcode and passkey, the same password.
   */
  lemma AgreesWithServerPassword(env: DarajaEnv, cfg: Server.MpesaConfig, clock: DateTime)
    requires IsoDate.Valid(clock) && 0 <= clock.year <= 9999
    requires cfg.shortcode == env.shortcode && cfg.passkey == env.passkey
    ensures Server.GeneratePassword(cfg, clock) == (GeneratePassword(env, clock), Timestamp(clock))
  {
    TimestampsAgree(clock);
  }
}
