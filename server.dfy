/**
 * server.js: the STK-Push donation back end. A request is validated and its phone
 * number normalised; the gateway is asked for a token and then for the push; an
 * accepted push is recorded as a pending transaction under its CheckoutRequestID
 * and scheduled for deletion 15 minutes later; the gateway's callback marks the
 * record completed or failed; a status endpoint reports it.
 *
 * The registry's operations are first given as functions on a `Registry` value
 * (so that lemmas can relate several of them) and then as the methods of
 * `TransactionStore`, the class holding the map that the handlers update in place.
 * Network replies and clock readings are parameters.
 */
module Server {
  import opened Wrappers
  import opened JsText
  import opened Json
  import opened IsoDate
  import opened KenyanPhone
  import opened Gateway
  import Utf8
  import Base64

  // ---------------------------------------------------------------------------
  // Configuration and request

  /** `MPESA_CONFIG`; `callbackUrl` is the raw environment value. */
  datatype MpesaConfig = MpesaConfig(
    consumerKey: string, consumerSecret: string, shortcode: string, passkey: string,
    callbackUrl: Option<string>)

  const DefaultCallbackUrl := "https://yourdomain.com/api/mpesa/callback"

  function CallbackUrl(cfg: MpesaConfig): string {
    OrElse(cfg.callbackUrl, DefaultCallbackUrl)
  }

  /** The JSON body of `POST /api/mpesa/stkpush`; None is an absent property. */
  datatype StkPushRequest = StkPushRequest(
    amount: Option<int>, phoneNumber: Option<string>, accountReference: Option<string>,
    donorName: Option<string>, donorEmail: Option<string>)

  const MinAmount := 1
  const MaxAmount := 150000

  const MsgRequired := "Amount and phone number are required"
  const MsgAmountRange := "Amount must be between KSh 1 and KSh 150,000"
  const MsgPhoneFormat := "Invalid Kenyan phone number format"

  predicate AmountTruthy(a: Option<int>) { a.Some? && a.value != 0 }
  predicate TextTruthy(s: Option<string>) { s.Some? && s.value != "" }

  /** `254` followed by the nine captured subscriber digits, or None when the pattern does not match. */
  function FormatPhone(phone: string): (r: Option<string>)
    ensures r.Some? <==> IsKenyanMobile(phone)
    ensures r.Some? ==>
              && |r.value| == 12 && AllDigits(r.value) && r.value[..3] == "254"
              && r.value[3..] == phone[|phone| - 9..] && IsSubscriber(r.value[3..])
  {
    PatternShapes(phone);
    match MatchPattern(ServerPrefixes, phone)
    case None => None
    case Some(d) => Some("254" + d)
  }

  /** Normalising an already-normalised number leaves it unchanged. */
  lemma FormatPhoneIdempotent(phone: string)
    requires FormatPhone(phone).Some?
    ensures FormatPhone(FormatPhone(phone).value) == FormatPhone(phone)
  {
    var f := FormatPhone(phone).value;
    NormalisedShape(f);
    var g := FormatPhone(f).value;
    SameHalves(f, g);
  }

  /** A normalised number is itself one of the shapes the pattern accepts. */
  lemma NormalisedShape(f: string)
    requires |f| == 12 && f[..3] == "254" && IsSubscriber(f[3..])
    ensures IsKenyanMobile(f)
  {
  }

  lemma SameHalves(f: string, g: string)
    requires |f| == |g| == 12 && f[..3] == g[..3] && f[3..] == g[3..]
    ensures f == g
  {
    assert f == f[..3] + f[3..] && g == g[..3] + g[3..];
  }

  /**
   * The checks of server.js:61-85 in order: presence, amount range, phone pattern.
   * On success, the amount and the normalised phone.
   */
  function ValidateRequest(req: StkPushRequest): (r: Result<(int, string), string>)
    ensures r == Err(MsgRequired) <==> !AmountTruthy(req.amount) || !TextTruthy(req.phoneNumber)
    ensures r == Err(MsgAmountRange) <==>
      AmountTruthy(req.amount) && TextTruthy(req.phoneNumber) && !(MinAmount <= req.amount.value <= MaxAmount)
    ensures r == Err(MsgPhoneFormat) <==>
      AmountTruthy(req.amount) && TextTruthy(req.phoneNumber) && MinAmount <= req.amount.value <= MaxAmount
      && !IsKenyanMobile(req.phoneNumber.value)
    ensures r.Ok? ==>
              && r.value.0 == req.amount.value && MinAmount <= r.value.0 <= MaxAmount
              && IsKenyanMobile(req.phoneNumber.value) && Some(r.value.1) == FormatPhone(req.phoneNumber.value)
  {
    if !AmountTruthy(req.amount) || !TextTruthy(req.phoneNumber) then Err(MsgRequired)
    else if req.amount.value < MinAmount || req.amount.value > MaxAmount then Err(MsgAmountRange)
    else match FormatPhone(req.phoneNumber.value)
      case None => Err(MsgPhoneFormat)
      case Some(p) => Ok((req.amount.value, p))
  }

  /**
   * `generatePassword` (server.js:49-53) at clock reading `clock`: the timestamp is the
   * digits of the ISO string without the milliseconds, and the password is base64 of
   * shortcode, passkey and that timestamp.
   */
  function GeneratePassword(cfg: MpesaConfig, clock: DateTime): (r: (string, string))
    requires IsoDate.Valid(clock)
    ensures 0 <= clock.year <= 9999 ==> r.1 == Compact(clock) && |r.1| == 14 && AllDigits(r.1)
  {
    var timestamp := ServerTimestamp(IsoString(clock));
    var r := (Password(cfg.shortcode, cfg.passkey, timestamp), timestamp);
    if 0 <= clock.year <= 9999 then ServerTimestampIsCompact(clock); r else r
  }

  /** The password Base64- and UTF-8-decodes to shortcode, passkey and the timestamp sent with it. */
  lemma GeneratePasswordDecodes(cfg: MpesaConfig, clock: DateTime)
    requires IsoDate.Valid(clock)
    ensures var r := GeneratePassword(cfg, clock);
      && Base64.Decode(r.0) == Some(Utf8.Encode(cfg.shortcode + cfg.passkey + r.1))
      && Utf8.Decode(Base64.Decode(r.0).value) == Some(cfg.shortcode + cfg.passkey + r.1)
  {
    var r := GeneratePassword(cfg, clock);
    PasswordDecodes(cfg.shortcode, cfg.passkey, r.1);
  }

  /** The STK-Push body of server.js:90-102. */
  function StkPushData(cfg: MpesaConfig, password: string, timestamp: string, amount: int, phone: string,
                       req: StkPushRequest): StkPushPayload
  {
    StkPushPayload(
      businessShortCode := cfg.shortcode,
      password := password,
      timestamp := timestamp,
      transactionType := TransactionType,
      amount := amount,
      partyA := phone,
      partyB := cfg.shortcode,
      phoneNumber := phone,
      callBackUrl := CallbackUrl(cfg),
      accountReference := OrElse(req.accountReference, "Kabeba Campaign"),
      transactionDesc := "Donation - " + OrElse(req.donorName, "Anonymous"))
  }

  // ---------------------------------------------------------------------------
  // The transaction registry

  datatype Status = Pending | Completed | Failed

  /** A record of `activeTransactions`. Times are milliseconds. */
  datatype Transaction = Transaction(
    checkoutRequestId: string,
    phoneNumber: string,
    amount: int,
    donorName: Option<string>,
    donorEmail: Option<string>,
    accountReference: string,
    timestamp: int,
    status: Status,
    mpesaReceiptNumber: Option<Json>,
    completedAt: Option<int>,
    failureReason: Option<Json>,
    failedAt: Option<int>)

  /** A pending `setTimeout` that deletes `checkoutRequestId` at time `due`. */
  datatype Timer = Timer(checkoutRequestId: string, due: int)

  /** The map of transactions together with the deletion timers still to fire. */
  datatype Registry = Registry(transactions: map<string, Transaction>, timers: set<Timer>)

  /** 15 minutes, in milliseconds. */
  const RetentionMs := 15 * 60 * 1000

  predicate RecordValid(id: string, t: Transaction) {
    && t.checkoutRequestId == id
    && MinAmount <= t.amount <= MaxAmount
    && |t.phoneNumber| == 12 && AllDigits(t.phoneNumber) && t.phoneNumber[..3] == "254"
    && (t.status == Completed ==> t.completedAt.Some?)
    && (t.status == Failed ==> t.failedAt.Some?)
  }

  /**
   * The registry's invariant: each record is stored under its own CheckoutRequestID,
   * holds a validated amount and a normalised phone, has the time stamp of its
   * terminal state, and still has the deletion timer set when it was inserted.
   */
  ghost predicate RegistryValid(reg: Registry) {
    forall id :: id in reg.transactions ==>
      RecordValid(id, reg.transactions[id])
      && Timer(id, reg.transactions[id].timestamp + RetentionMs) in reg.timers
  }

  /** The gateway's reply to the STK-Push request (its `response.data`). */
  datatype StkReply = StkReply(checkoutRequestId: string, responseCode: string, responseDescription: Option<string>)

  /** The STK-Push POST: a reply, or an exception (transport error or non-2xx status). */
  datatype StkOutcome =
    | StkReplied(reply: StkReply)
    | StkPostFailed(errorMessage: Option<string>, message: string)

  /** The response of `POST /api/mpesa/stkpush`. */
  datatype InitiateResponse =
    | InvalidRequest(message: string)
    | PushAccepted(checkoutRequestId: string, message: string, responseCode: string, responseDescription: Option<string>)
    | PushDeclined(message: string)
    | PushError(message: string, error: string)
  {
    function HttpStatus(): int {
      match this
      case InvalidRequest(_) => 400
      case PushAccepted(_, _, _, _) => 200
      case PushDeclined(_) => 400
      case PushError(_, _) => 500
    }
  }

  const MsgPushSent := "STK Push sent successfully. Check your phone for the payment prompt."
  const MsgPushFailedDefault := "Failed to initiate STK Push"
  const MsgPushError := "Failed to process payment request"
  const MsgAuthFailed := "Failed to authenticate with M-Pesa"

  datatype InitiateOutcome = InitiateOutcome(registry: Registry, response: InitiateResponse, calls: seq<GatewayCall>)

  /** The record inserted for an accepted push. */
  function PendingRecord(id: string, req: StkPushRequest, amount: int, phone: string, now: int): Transaction {
    Transaction(id, phone, amount, req.donorName, req.donorEmail, OrElse(req.accountReference, "Kabeba Campaign"),
                now, Pending, None, None, None, None)
  }

  /** `activeTransactions.set(id, t)` followed by `setTimeout(delete id, 15 minutes)`. */
  function Store(reg: Registry, id: string, t: Transaction): (r: Registry)
    ensures r.transactions.Keys == reg.transactions.Keys + {id}
    ensures forall k :: k in reg.transactions && k != id ==> r.transactions[k] == reg.transactions[k]
    ensures r.transactions[id] == t
    ensures r.timers == reg.timers + {Timer(id, t.timestamp + RetentionMs)}
  {
    Registry(reg.transactions[id := t], reg.timers + {Timer(id, t.timestamp + RetentionMs)})
  }

  /**
   * The handler of server.js:56-167. `clock` is the reading taken by `generatePassword`,
   * `now` the one taken when the record is stored (after the gateway has replied).
   */
  function Initiate(reg: Registry, req: StkPushRequest, cfg: MpesaConfig, clock: DateTime,
                    token: TokenOutcome, post: StkOutcome, now: int): InitiateOutcome
    requires IsoDate.Valid(clock)
  {
    match ValidateRequest(req)
    case Err(msg) => InitiateOutcome(reg, InvalidRequest(msg), [])
    case Ok((amount, phone)) =>
      var tokenCall := TokenRequest(BasicAuthorization(cfg.consumerKey, cfg.consumerSecret));
      match token
      case TokenFailed => InitiateOutcome(reg, PushError(MsgPushError, MsgAuthFailed), [tokenCall])
      case TokenIssued(accessToken) =>
        var (password, timestamp) := GeneratePassword(cfg, clock);
        var payload := StkPushData(cfg, password, timestamp, amount, phone, req);
        var calls := [tokenCall, StkPushCall(BearerAuthorization(accessToken), payload)];
        match post
        case StkPostFailed(errorMessage, message) =>
          InitiateOutcome(reg, PushError(MsgPushError, OrElse(errorMessage, message)), calls)
        case StkReplied(reply) =>
          if reply.responseCode == "0" then
            var id := reply.checkoutRequestId;
            var reg' := Store(reg, id, PendingRecord(id, req, amount, phone, now));
            InitiateOutcome(reg', PushAccepted(id, MsgPushSent, reply.responseCode, reply.responseDescription), calls)
          else
            InitiateOutcome(reg, PushDeclined(OrElse(reply.responseDescription, MsgPushFailedDefault)), calls)
  }

  /** Invalid input is answered with 400 before any request to the gateway, and the registry is unchanged. */
  lemma InitiateRejectsInvalid(reg: Registry, req: StkPushRequest, cfg: MpesaConfig, clock: DateTime,
                               token: TokenOutcome, post: StkOutcome, now: int)
    requires IsoDate.Valid(clock) && ValidateRequest(req).Err?
    ensures var o := Initiate(reg, req, cfg, clock, token, post, now);
      && o.registry == reg && o.calls == [] && o.response.HttpStatus() == 400
      && o.response == InvalidRequest(ValidateRequest(req).error)
      && (!AmountTruthy(req.amount) || !TextTruthy(req.phoneNumber) ==> o.response.message == MsgRequired)
  {
  }

  /**
   * An accepted push (ResponseCode `'0'`) inserts one pending record under the
   * CheckoutRequestID, holding the validated amount and normalised phone, and one
   * deletion timer for 15 minutes later; every other record is untouched.
   */
  lemma InitiateRegistersPending(reg: Registry, req: StkPushRequest, cfg: MpesaConfig, clock: DateTime,
                                 accessToken: string, reply: StkReply, now: int)
    requires IsoDate.Valid(clock)
    requires ValidateRequest(req).Ok? && reply.responseCode == "0"
    ensures Initiate(reg, req, cfg, clock, TokenIssued(accessToken), StkReplied(reply), now).response
            == PushAccepted(reply.checkoutRequestId, MsgPushSent, "0", reply.responseDescription)
    ensures Initiate(reg, req, cfg, clock, TokenIssued(accessToken), StkReplied(reply), now).registry
            == Store(reg, reply.checkoutRequestId, PendingRecord(reply.checkoutRequestId, req, req.amount.value,
                                                                 ValidateRequest(req).value.1, now))
  {
    InitiateShape(reg, req, cfg, clock, TokenIssued(accessToken), StkReplied(reply), now);
    var v, id := ValidateRequest(req).value, reply.checkoutRequestId;
    var r := Store(reg, id, PendingRecord(id, req, v.0, v.1, now));
    assert Initiate(reg, req, cfg, clock, TokenIssued(accessToken), StkReplied(reply), now).registry == r;
  }

  /**
   * Once the request is valid the gateway is sent a token request with the Basic
   * credential, and, when a token is issued, the push with the Bearer token, whose
   * payer and recipient are the normalised phone, whose receiving party is the
   * shortcode, and whose password decodes to shortcode, passkey and timestamp.
   */
  lemma InitiateCallsGateway(reg: Registry, req: StkPushRequest, cfg: MpesaConfig, clock: DateTime,
                             accessToken: string, post: StkOutcome, now: int)
    requires IsoDate.Valid(clock) && 0 <= clock.year <= 9999
    requires ValidateRequest(req).Ok?
    ensures var o := Initiate(reg, req, cfg, clock, TokenIssued(accessToken), post, now);
      var phone := ValidateRequest(req).value.1;
      && |o.calls| == 2
      && o.calls[0] == TokenRequest("Basic " + BasicCredential(cfg.consumerKey, cfg.consumerSecret))
      && o.calls[1].StkPushCall? && o.calls[1].authorization == "Bearer " + accessToken
      && var p := o.calls[1].payload;
         && p.partyA == phone && p.phoneNumber == phone && p.partyB == p.businessShortCode == cfg.shortcode
         && p.timestamp == Compact(clock) && p.amount == req.amount.value
         && Base64.Decode(p.password) == Some(Utf8.Encode(cfg.shortcode + cfg.passkey + p.timestamp))
         && Utf8.Decode(Base64.Decode(p.password).value) == Some(cfg.shortcode + cfg.passkey + p.timestamp)
  {
    var v := ValidateRequest(req).value;
    var pw := GeneratePassword(cfg, clock);
    GeneratePasswordDecodes(cfg, clock);
    var p := StkPushData(cfg, pw.0, pw.1, v.0, v.1, req);
    var o := Initiate(reg, req, cfg, clock, TokenIssued(accessToken), post, now);
    assert o.calls == [TokenRequest(BasicAuthorization(cfg.consumerKey, cfg.consumerSecret)),
                       StkPushCall(BearerAuthorization(accessToken), p)];
  }

  /** A reply with any other ResponseCode is answered with 400 and leaves the registry unchanged. */
  lemma InitiateDeclinedLeavesRegistry(reg: Registry, req: StkPushRequest, cfg: MpesaConfig, clock: DateTime,
                                       accessToken: string, reply: StkReply, now: int)
    requires IsoDate.Valid(clock) && ValidateRequest(req).Ok? && reply.responseCode != "0"
    ensures var o := Initiate(reg, req, cfg, clock, TokenIssued(accessToken), StkReplied(reply), now);
      && o.registry == reg && o.response.HttpStatus() == 400
      && o.response == PushDeclined(OrElse(reply.responseDescription, MsgPushFailedDefault))
  {
  }

  /** A failed token request is answered with 500 before any push is sent, and the registry is unchanged. */
  lemma InitiateTokenFailure(reg: Registry, req: StkPushRequest, cfg: MpesaConfig, clock: DateTime,
                             post: StkOutcome, now: int)
    requires IsoDate.Valid(clock) && ValidateRequest(req).Ok?
    ensures var o := Initiate(reg, req, cfg, clock, TokenFailed, post, now);
      && o.registry == reg && o.response.HttpStatus() == 500
      && o.response == PushError(MsgPushError, MsgAuthFailed)
      && o.calls == [TokenRequest(BasicAuthorization(cfg.consumerKey, cfg.consumerSecret))]
  {
  }

  /** A failed push is answered with 500 carrying the gateway's error, and the registry is unchanged. */
  lemma InitiatePostFailure(reg: Registry, req: StkPushRequest, cfg: MpesaConfig, clock: DateTime,
                            accessToken: string, errorMessage: Option<string>, message: string, now: int)
    requires IsoDate.Valid(clock) && ValidateRequest(req).Ok?
    ensures var o := Initiate(reg, req, cfg, clock, TokenIssued(accessToken), StkPostFailed(errorMessage, message), now);
      && o.registry == reg && o.response.HttpStatus() == 500
      && o.response == PushError(MsgPushError, OrElse(errorMessage, message))
      && |o.calls| == 2
  {
  }

  /** Initiation keeps the registry's invariant. */
  lemma InitiatePreservesValid(reg: Registry, req: StkPushRequest, cfg: MpesaConfig, clock: DateTime,
                               token: TokenOutcome, post: StkOutcome, now: int)
    requires IsoDate.Valid(clock) && RegistryValid(reg)
    ensures RegistryValid(Initiate(reg, req, cfg, clock, token, post, now).registry)
  {
    InitiateShape(reg, req, cfg, clock, token, post, now);
    if ValidateRequest(req).Ok? && token.TokenIssued? && post.StkReplied? && post.reply.responseCode == "0" {
      var v := ValidateRequest(req).value;
      var id := post.reply.checkoutRequestId;
      StorePreservesValid(reg, id, PendingRecord(id, req, v.0, v.1, now));
    }
  }

  /** Initiation either leaves the registry alone or stores the accepted push's pending record. */
  lemma InitiateShape(reg: Registry, req: StkPushRequest, cfg: MpesaConfig, clock: DateTime,
                      token: TokenOutcome, post: StkOutcome, now: int)
    requires IsoDate.Valid(clock)
    ensures var o := Initiate(reg, req, cfg, clock, token, post, now);
      if ValidateRequest(req).Ok? && token.TokenIssued? && post.StkReplied? && post.reply.responseCode == "0" then
        var v, id := ValidateRequest(req).value, post.reply.checkoutRequestId;
        o.registry == Store(reg, id, PendingRecord(id, req, v.0, v.1, now))
      else o.registry == reg
  {
  }

  /** Storing a valid record together with its own deletion timer keeps the invariant. */
  lemma StorePreservesValid(reg: Registry, id: string, t: Transaction)
    requires RegistryValid(reg) && RecordValid(id, t)
    ensures RegistryValid(Store(reg, id, t))
  {
  }

  // ---------------------------------------------------------------------------
  // Callback

  /** `items.find(item => item.Name === name)`: reading `.Name` of a null item throws a TypeError. */
  predicate Named(item: Json, name: string) { Get(item, "Name") == Some(JStr(name)) }

  /** No item of the metadata is null. */
  predicate NoNullItems(items: seq<Json>) { forall i :: 0 <= i < |items| ==> items[i] != JNull }

  function FindByName(items: seq<Json>, name: string): (r: Result<Option<Json>, string>)
    ensures NoNullItems(items) ==> r.Ok?
    ensures r.Ok? && r.value.Some? ==> r.value.value in items && Named(r.value.value, name)
  {
    if items == [] then Ok(None)
    else if items[0] == JNull then Err("TypeError: Cannot read properties of null (reading 'Name')")
    else if Named(items[0], name) then Ok(Some(items[0]))
    else
      var r := FindByName(items[1..], name);
      assert NoNullItems(items) ==> NoNullItems(items[1..]);
      r
  }

  /** The first `n` items are neither null nor carry the Name: `find` passes over them. */
  predicate PassedOver(items: seq<Json>, name: string, n: nat)
    requires n <= |items|
  {
    forall j :: 0 <= j < n ==> items[j] != JNull && !Named(items[j], name)
  }

  /**
   * `find` stops at the first item that is null (reading its Name throws) or carries the
   * Name: with `k` that position (or the length when there is none), the result is
   * none, the TypeError, or the item at `k`.
   */
  lemma {:induction false} FindByNameFirst(items: seq<Json>, name: string, k: nat)
    requires k <= |items| && PassedOver(items, name, k)
    requires k == |items| || items[k] == JNull || Named(items[k], name)
    ensures FindByName(items, name) ==
              if k == |items| then Ok(None)
              else if items[k] == JNull then Err("TypeError: Cannot read properties of null (reading 'Name')")
              else Ok(Some(items[k]))
  {
    if k > 0 {
      var tail := items[1..];
      assert PassedOver(tail, name, k - 1) by {
        forall j | 0 <= j < k - 1 ensures tail[j] != JNull && !Named(tail[j], name) {
          assert tail[j] == items[j + 1];
        }
      }
      FindByNameFirst(tail, name, k - 1);
    }
  }

  /** The five named values server.js:196-200 reads out of `CallbackMetadata.Item`. */
  datatype Metadata = Metadata(
    amount: Option<Json>, mpesaReceiptNumber: Option<Json>, balance: Option<Json>,
    transactionDate: Option<Json>, phoneNumber: Option<Json>)

  /** `items.find(...)?.Value`. */
  function FindValue(items: seq<Json>, name: string): Result<Option<Json>, string> {
    match FindByName(items, name)
    case Err(e) => Err(e)
    case Ok(None) => Ok(None)
    case Ok(Some(item)) => Ok(Get(item, "Value"))
  }

  /**
   * server.js:190-201: the five lookups in order; a non-array `Item` has no `find` and
   * throws, and so does any lookup that meets a null item first.
   */
  function ExtractMetadata(item: Json): Result<Metadata, string> {
    if !item.JArr? then Err("TypeError: metadata.find is not a function")
    else
      var items := item.items;
      var amount, receipt := FindValue(items, "Amount"), FindValue(items, "MpesaReceiptNumber");
      var balance, date := FindValue(items, "Balance"), FindValue(items, "TransactionDate");
      var phone := FindValue(items, "PhoneNumber");
      if amount.Err? || receipt.Err? || balance.Err? || date.Err? || phone.Err? then
        Err("TypeError: Cannot read properties of null (reading 'Name')")
      else Ok(Metadata(amount.value, receipt.value, balance.value, date.value, phone.value))
  }

  /** The response to the gateway's callback: `{success:true}`, or 500 when processing threw. */
  datatype CallbackResponse = CallbackAcknowledged | CallbackFailed
  {
    function HttpStatus(): int { if CallbackAcknowledged? then 200 else 500 }
  }

  datatype CallbackOutcome = CallbackOutcome(registry: Registry, response: CallbackResponse)

  /** `body.Body.stkCallback` when both are truthy (server.js:176). */
  function StkCallback(body: Json): Option<Json> {
    var b := Get(body, "Body");
    if Truthy(b) && Truthy(GetOpt(b, "stkCallback")) then GetOpt(b, "stkCallback") else None
  }

  /** `activeTransactions.get(CheckoutRequestID)`: only a string equal to a key finds a record. */
  function LookupKey(reg: Registry, id: Option<Json>): (r: Option<string>)
    ensures r.Some? <==> id.Some? && id.value.JStr? && id.value.s in reg.transactions
    ensures r.Some? ==> r.value == id.value.s
  {
    if id.Some? && id.value.JStr? && id.value.s in reg.transactions then Some(id.value.s) else None
  }

  /** `ResultCode === 0` */
  predicate IsSuccessCode(code: Option<Json>) { code == Some(JNum(0)) }

  /** The metadata items, when `CallbackMetadata && CallbackMetadata.Item` is truthy. */
  function MetadataItem(cb: Json): Option<Json> {
    var md := Get(cb, "CallbackMetadata");
    if Truthy(md) && Truthy(GetOpt(md, "Item")) then GetOpt(md, "Item") else None
  }

  function MarkCompleted(t: Transaction, receipt: Option<Json>, now: int): Transaction {
    t.(status := Completed, mpesaReceiptNumber := receipt, completedAt := Some(now))
  }

  function MarkFailed(t: Transaction, reason: Option<Json>, now: int): Transaction {
    t.(status := Failed, failureReason := reason, failedAt := Some(now))
  }

  /** The handler of server.js:170-242 at time `now`. */
  function Callback(reg: Registry, body: Json, now: int): CallbackOutcome {
    match StkCallback(body)
    case None => CallbackOutcome(reg, CallbackAcknowledged)
    case Some(cb) =>
      var key := LookupKey(reg, Get(cb, "CheckoutRequestID"));
      if IsSuccessCode(Get(cb, "ResultCode")) then
        match MetadataItem(cb)
        case None => CallbackOutcome(reg, CallbackAcknowledged)
        case Some(item) =>
          match ExtractMetadata(item)
          case Err(_) => CallbackOutcome(reg, CallbackFailed)
          case Ok(meta) =>
            if key.Some? then
              var t := reg.transactions[key.value];
              CallbackOutcome(reg.(transactions := reg.transactions[key.value := MarkCompleted(t, meta.mpesaReceiptNumber, now)]),
                              CallbackAcknowledged)
            else CallbackOutcome(reg, CallbackAcknowledged)
      else if key.Some? then
        var t := reg.transactions[key.value];
        CallbackOutcome(reg.(transactions := reg.transactions[key.value := MarkFailed(t, Get(cb, "ResultDesc"), now)]),
                        CallbackAcknowledged)
      else CallbackOutcome(reg, CallbackAcknowledged)
  }

  /** The receipt number server.js records: the Value of the first item named MpesaReceiptNumber. */
  function ReceiptOf(item: Json): Option<Json>
    requires ExtractMetadata(item).Ok?
  {
    ExtractMetadata(item).value.mpesaReceiptNumber
  }

  /**
   * Metadata items none of which is null are read without throwing, and the receipt
   * is the Value of the first item named MpesaReceiptNumber.
   */
  lemma ExtractMetadataWithoutNulls(items: seq<Json>)
    requires NoNullItems(items)
    ensures ExtractMetadata(JArr(items)).Ok?
    ensures ReceiptOf(JArr(items)) == FindValue(items, "MpesaReceiptNumber").value
  {
  }

  /**
   * A successful callback (ResultCode 0) with metadata completes the record it names,
   * with the receipt taken from the first MpesaReceiptNumber item; no other record and
   * no timer changes.
   */
  lemma CallbackCompletes(reg: Registry, body: Json, now: int)
    requires StkCallback(body).Some?
    requires var cb := StkCallback(body).value;
      && IsSuccessCode(Get(cb, "ResultCode")) && MetadataItem(cb).Some? && ExtractMetadata(MetadataItem(cb).value).Ok?
      && LookupKey(reg, Get(cb, "CheckoutRequestID")).Some?
    ensures var cb := StkCallback(body).value;
      var id := Get(cb, "CheckoutRequestID").value.s;
      var o := Callback(reg, body, now);
      && o.response == CallbackAcknowledged
      && o.registry.timers == reg.timers
      && o.registry.transactions.Keys == reg.transactions.Keys
      && (forall k :: k in reg.transactions && k != id ==> o.registry.transactions[k] == reg.transactions[k])
      && o.registry.transactions[id].status == Completed
      && o.registry.transactions[id].mpesaReceiptNumber == ReceiptOf(MetadataItem(cb).value)
      && o.registry.transactions[id].completedAt == Some(now)
  {
  }

  /** A successful callback without metadata changes nothing and is acknowledged. */
  lemma CallbackWithoutMetadataIgnored(reg: Registry, body: Json, now: int)
    requires StkCallback(body).Some?
    requires IsSuccessCode(Get(StkCallback(body).value, "ResultCode")) && MetadataItem(StkCallback(body).value).None?
    ensures Callback(reg, body, now) == CallbackOutcome(reg, CallbackAcknowledged)
  {
  }

  /** A callback with any other ResultCode fails the record it names, with ResultDesc as the reason. */
  lemma CallbackFails(reg: Registry, body: Json, now: int)
    requires StkCallback(body).Some?
    requires var cb := StkCallback(body).value;
      !IsSuccessCode(Get(cb, "ResultCode")) && LookupKey(reg, Get(cb, "CheckoutRequestID")).Some?
    ensures var cb := StkCallback(body).value;
      var id := Get(cb, "CheckoutRequestID").value.s;
      var o := Callback(reg, body, now);
      && o.response == CallbackAcknowledged
      && o.registry.timers == reg.timers
      && o.registry.transactions.Keys == reg.transactions.Keys
      && (forall k :: k in reg.transactions && k != id ==> o.registry.transactions[k] == reg.transactions[k])
      && o.registry.transactions[id].status == Failed
      && o.registry.transactions[id].failureReason == Get(cb, "ResultDesc")
      && o.registry.transactions[id].failedAt == Some(now)
  {
  }

  /**
   * A body without `Body.stkCallback`, or one naming no stored record, changes nothing;
   * the callback is acknowledged unless reading the metadata threw.
   */
  lemma CallbackUnknownChangesNothing(reg: Registry, body: Json, now: int)
    requires StkCallback(body).None? || LookupKey(reg, Get(StkCallback(body).value, "CheckoutRequestID")).None?
    ensures Callback(reg, body, now).registry == reg
  {
  }

  /**
   * The callback answers 500 exactly when the metadata lookups threw, and then
   * changes nothing; every other callback is acknowledged.
   */
  lemma CallbackFailsOnlyWhenExtractionThrows(reg: Registry, body: Json, now: int)
    ensures var o := Callback(reg, body, now);
      o.response == CallbackFailed <==>
        StkCallback(body).Some? && IsSuccessCode(Get(StkCallback(body).value, "ResultCode"))
        && MetadataItem(StkCallback(body).value).Some?
        && ExtractMetadata(MetadataItem(StkCallback(body).value).value).Err?
    ensures Callback(reg, body, now).response == CallbackFailed ==> Callback(reg, body, now).registry == reg
  {
  }

  /** The callback keeps the registry's invariant. */
  lemma CallbackPreservesValid(reg: Registry, body: Json, now: int)
    requires RegistryValid(reg)
    ensures RegistryValid(Callback(reg, body, now).registry)
  {
  }

  // ---------------------------------------------------------------------------
  // Status

  /** The fields the status response adds for a terminal record. */
  datatype Outcome =
    | NoOutcome
    | Receipt(mpesaReceiptNumber: Option<Json>, completedAt: Option<int>)
    | Failure(failureReason: Option<Json>, failedAt: Option<int>)

  datatype StatusResponse =
    | NotFound
    | Found(status: Status, checkoutRequestId: string, amount: int, phoneNumber: string, timestamp: int, outcome: Outcome)
  {
    function HttpStatus(): int { if NotFound? then 404 else 200 }
  }

  /** The handler of server.js:245-281. */
  function StatusOf(reg: Registry, id: string): (r: StatusResponse)
    ensures r.NotFound? <==> id !in reg.transactions
    ensures r.Found? ==> var t := reg.transactions[id];
      && r.status == t.status && r.checkoutRequestId == id
      && r.amount == t.amount && r.phoneNumber == t.phoneNumber && r.timestamp == t.timestamp
      && (r.outcome.Receipt? <==> t.status == Completed)
      && (r.outcome.Failure? <==> t.status == Failed)
      && (r.outcome.Receipt? ==> r.outcome.mpesaReceiptNumber == t.mpesaReceiptNumber && r.outcome.completedAt == t.completedAt)
      && (r.outcome.Failure? ==> r.outcome.failureReason == t.failureReason && r.outcome.failedAt == t.failedAt)
  {
    if id !in reg.transactions then NotFound
    else
      var t := reg.transactions[id];
      var outcome :=
        match t.status
        case Completed => Receipt(t.mpesaReceiptNumber, t.completedAt)
        case Failed => Failure(t.failureReason, t.failedAt)
        case Pending => NoOutcome;
      Found(t.status, id, t.amount, t.phoneNumber, t.timestamp, outcome)
  }

  // ---------------------------------------------------------------------------
  // Expiry

  /** The keys whose deletion timers have fired by `now`. */
  function DueKeys(reg: Registry, now: int): set<string> {
    set t | t in reg.timers && t.due <= now :: t.checkoutRequestId
  }

  /** Every timer due by `now` fires: its key is deleted (if present) and the timer is gone. */
  function Expire(reg: Registry, now: int): (r: Registry)
    ensures r.transactions.Keys == reg.transactions.Keys - DueKeys(reg, now)
    ensures forall k :: k in r.transactions ==> r.transactions[k] == reg.transactions[k]
    ensures forall t :: t in r.timers <==> t in reg.timers && t.due > now
  {
    Registry(reg.transactions - DueKeys(reg, now), set t | t in reg.timers && t.due > now)
  }

  /** After the timers due by `now` have fired, no record older than the retention window remains. */
  lemma ExpireRemovesStale(reg: Registry, now: int)
    requires RegistryValid(reg)
    ensures RegistryValid(Expire(reg, now))
    ensures forall id :: id in Expire(reg, now).transactions ==>
      now < Expire(reg, now).transactions[id].timestamp + RetentionMs
  {
    var r := Expire(reg, now);
    forall id | id in r.transactions
      ensures now < r.transactions[id].timestamp + RetentionMs
      ensures Timer(id, r.transactions[id].timestamp + RetentionMs) in r.timers
    {
      var t := Timer(id, reg.transactions[id].timestamp + RetentionMs);
      assert t in reg.timers && id !in DueKeys(reg, now);
    }
  }

  /** Fifteen minutes after a record was stored, its status query reports 404, never a stale record. */
  lemma StatusAfterRetentionNotFound(reg: Registry, id: string, now: int)
    requires RegistryValid(reg) && id in reg.transactions
    requires now >= reg.transactions[id].timestamp + RetentionMs
    ensures StatusOf(Expire(reg, now), id) == NotFound
  {
    var t := Timer(id, reg.transactions[id].timestamp + RetentionMs);
    assert t in reg.timers && t.due <= now;
    assert id in DueKeys(reg, now);
  }

  // ---------------------------------------------------------------------------
  // How callbacks combine with earlier states

  /**
   * The code does not guard terminal states: a failure callback for a record that a
   * previous callback completed turns it into a failed record, and the status endpoint
   * then reports it as failed with no receipt.
   */
  lemma CallbackOverwritesTerminal(reg: Registry, body: Json, now: int)
    requires StkCallback(body).Some?
    requires var cb := StkCallback(body).value;
      !IsSuccessCode(Get(cb, "ResultCode")) && LookupKey(reg, Get(cb, "CheckoutRequestID")).Some?
    requires reg.transactions[Get(StkCallback(body).value, "CheckoutRequestID").value.s].status == Completed
    ensures var id := Get(StkCallback(body).value, "CheckoutRequestID").value.s;
      && StatusOf(reg, id).status == Completed
      && StatusOf(Callback(reg, body, now).registry, id).status == Failed
      && StatusOf(Callback(reg, body, now).registry, id).outcome.Failure?
  {
    CallbackFails(reg, body, now);
  }

  // ---------------------------------------------------------------------------
  // The lifecycle of one donation

  const ScenarioId := "ws_CO_1234"

  /** A donation of 500 from 0712345678 that the gateway accepts as ws_CO_1234. */
  function ScenarioRequest(): StkPushRequest {
    StkPushRequest(Some(500), Some("0712345678"), None, None, None)
  }

  /** The metadata items of that donation's callback: the amount and receipt QGR7XXXX. */
  function ScenarioItems(): seq<Json> {
    [JObj(map["Name" := JStr("Amount"), "Value" := JNum(500)]),
     JObj(map["Name" := JStr("MpesaReceiptNumber"), "Value" := JStr("QGR7XXXX")])]
  }

  /** Its `Body.stkCallback`: ws_CO_1234, ResultCode 0, and those items. */
  function ScenarioStkCallback(): Json {
    JObj(map["CheckoutRequestID" := JStr(ScenarioId), "ResultCode" := JNum(0),
             "CallbackMetadata" := JObj(map["Item" := JArr(ScenarioItems())])])
  }

  /** A successful callback for ws_CO_1234 carrying receipt QGR7XXXX. */
  function ScenarioCallback(): Json {
    JObj(map["Body" := JObj(map["stkCallback" := ScenarioStkCallback()])])
  }

  /** The registry holding only the pending record of that donation, stored at `t0`. */
  function ScenarioPending(t0: int): Registry {
    Store(Registry(map[], {}), ScenarioId, PendingRecord(ScenarioId, ScenarioRequest(), 500, "254712345678", t0))
  }

  /** The donation's phone normalises to 254712345678. */
  lemma ScenarioPhone()
    ensures FormatPhone("0712345678") == Some("254712345678")
  {
    var d := "712345678";
    assert IsSubscriber(d) by {
      assert forall i :: 0 <= i < 9 ==> IsDigit(d[i]);
    }
    LeadingZeroReplaced(d);
    assert "0" + d == "0712345678";
    assert "254" + d == "254712345678";
  }

  /** A leading 0 is replaced by 254. */
  lemma LeadingZeroReplaced(d: string)
    requires IsSubscriber(d)
    ensures FormatPhone("0" + d) == Some("254" + d)
  {
    var s := "0" + d;
    assert s[1..] == d && s[|s| - 9..] == d;
    var v, t := FormatPhone(s).value, "254" + d;
    assert t[..3] == "254" && t[3..] == d;
    SameHalves(v, t);
  }

  /** The donation's request passes validation, with its phone normalised to 254712345678. */
  lemma ScenarioValidates()
    ensures ValidateRequest(ScenarioRequest()) == Ok((500, "254712345678"))
  {
    ScenarioPhone();
  }

  /**
   * Initiating 500 from 0712345678 on an empty registry, with the gateway accepting it
   * as ws_CO_1234, stores one pending record with amount 500 and phone 254712345678.
   */
  lemma ScenarioInitiate(cfg: MpesaConfig, clock: DateTime, accessToken: string, t0: int)
    requires IsoDate.Valid(clock)
    ensures var reply := StkReply(ScenarioId, "0", None);
      var o := Initiate(Registry(map[], {}), ScenarioRequest(), cfg, clock, TokenIssued(accessToken), StkReplied(reply), t0);
      && o.response.PushAccepted?
      && o.registry == ScenarioPending(t0)
      && StatusOf(o.registry, ScenarioId) == Found(Pending, ScenarioId, 500, "254712345678", t0, NoOutcome)
  {
    ScenarioValidates();
    InitiateRegistersPending(Registry(map[], {}), ScenarioRequest(), cfg, clock, accessToken,
                             StkReply(ScenarioId, "0", None), t0);
  }

  /** The callback's metadata reads without throwing, and its receipt is QGR7XXXX. */
  lemma ScenarioMetadata()
    ensures ExtractMetadata(JArr(ScenarioItems())).Ok?
    ensures ReceiptOf(JArr(ScenarioItems())) == Some(JStr("QGR7XXXX"))
  {
    var items := ScenarioItems();
    ExtractMetadataWithoutNulls(items);
    assert !Named(items[0], "MpesaReceiptNumber") by {
      assert Get(items[0], "Name") == Some(JStr("Amount"));
      assert "Amount" != "MpesaReceiptNumber" by { assert |"Amount"| != |"MpesaReceiptNumber"|; }
    }
    assert Named(items[1], "MpesaReceiptNumber");
    assert FindByName(items, "MpesaReceiptNumber") == Ok(Some(items[1]));
  }

  /** The callback carrying receipt QGR7XXXX completes that record with that receipt. */
  lemma ScenarioCallbackCompletes(t0: int, t1: int)
    ensures StatusOf(Callback(ScenarioPending(t0), ScenarioCallback(), t1).registry, ScenarioId)
            == Found(Completed, ScenarioId, 500, "254712345678", t0, Receipt(Some(JStr("QGR7XXXX")), Some(t1)))
  {
    var body, cb := ScenarioCallback(), ScenarioStkCallback();
    assert StkCallback(body) == Some(cb);
    assert MetadataItem(cb) == Some(JArr(ScenarioItems()));
    assert Get(cb, "ResultCode") == Some(JNum(0));
    assert Get(cb, "CheckoutRequestID") == Some(JStr(ScenarioId));
    ScenarioMetadata();
    CallbackCompletes(ScenarioPending(t0), body, t1);
  }

  /** A callback naming the unknown ws_CO_9999 is acknowledged and changes nothing. */
  lemma ScenarioUnknownCallback(t0: int, t1: int)
    ensures var body := JObj(map["Body" := JObj(map["stkCallback" := JObj(map[
                           "CheckoutRequestID" := JStr("ws_CO_9999"), "ResultCode" := JNum(1032)])])]);
      Callback(ScenarioPending(t0), body, t1) == CallbackOutcome(ScenarioPending(t0), CallbackAcknowledged)
  {
    assert "ws_CO_9999" != ScenarioId by { assert "ws_CO_9999"[6] != ScenarioId[6]; }
  }

  /** Sixteen minutes after initiation, with no callback, the status endpoint reports 404. */
  lemma ScenarioExpires(t0: int)
    ensures StatusOf(Expire(ScenarioPending(t0), t0 + 16 * 60 * 1000), ScenarioId) == NotFound
  {
    StorePreservesValid(Registry(map[], {}), ScenarioId,
                        PendingRecord(ScenarioId, ScenarioRequest(), 500, "254712345678", t0));
    StatusAfterRetentionNotFound(ScenarioPending(t0), ScenarioId, t0 + 16 * 60 * 1000);
  }

  // ---------------------------------------------------------------------------
  // Query

  /** The status-query POST: the gateway's reply data, or an exception with the error response's data if any. */
  datatype QueryOutcome = QueryReplied(data: Json) | QueryPostFailed(responseData: Option<Json>, message: string)

  datatype QueryResponse =
    | QueryMissingId
    | QueryData(data: Json)
    | QueryError(error: Json)
  {
    function HttpStatus(): int {
      match this
      case QueryMissingId => 400
      case QueryData(_) => 200
      case QueryError(_) => 500
    }
  }

  /** The handler of server.js:284-329: a falsy checkoutRequestId is refused before any gateway request. */
  function Query(body: Json, cfg: MpesaConfig, clock: DateTime, token: TokenOutcome, post: QueryOutcome)
    : (r: (QueryResponse, seq<GatewayCall>))
    requires IsoDate.Valid(clock)
    ensures r.0 == QueryMissingId <==> !Truthy(Get(body, "checkoutRequestId"))
    ensures r.0 == QueryMissingId ==> r.1 == []
    ensures r.0.QueryData? ==>
              && post == QueryReplied(r.0.data) && |r.1| == 2
              && r.1[1].StkQueryCall? && Some(r.1[1].query.checkoutRequestId) == Get(body, "checkoutRequestId")
    ensures Truthy(Get(body, "checkoutRequestId")) && token.TokenFailed? ==>
              r.0 == QueryError(JStr(MsgAuthFailed)) && |r.1| == 1 && r.1[0].TokenRequest?
    ensures Truthy(Get(body, "checkoutRequestId")) && token.TokenIssued? ==>
              && |r.1| == 2 && r.1[0] == TokenRequest(BasicAuthorization(cfg.consumerKey, cfg.consumerSecret))
              && r.1[1].StkQueryCall? && r.1[1].authorization == BearerAuthorization(token.accessToken)
              && r.1[1].query.businessShortCode == cfg.shortcode
              && (r.1[1].query.password, r.1[1].query.timestamp) == GeneratePassword(cfg, clock)
              && Some(r.1[1].query.checkoutRequestId) == Get(body, "checkoutRequestId")
              && (post.QueryReplied? ==> r.0 == QueryData(post.data))
    ensures Truthy(Get(body, "checkoutRequestId")) && token.TokenIssued? && post.QueryPostFailed? ==>
              && r.0.QueryError? && |r.1| == 2
              && (Truthy(post.responseData) ==> r.0.error == post.responseData.value)
              && (!Truthy(post.responseData) ==> r.0.error == JStr(post.message))
  {
    var id := Get(body, "checkoutRequestId");
    if !Truthy(id) then (QueryMissingId, [])
    else
      var tokenCall := TokenRequest(BasicAuthorization(cfg.consumerKey, cfg.consumerSecret));
      match token
      case TokenFailed => (QueryError(JStr(MsgAuthFailed)), [tokenCall])
      case TokenIssued(accessToken) =>
        var (password, timestamp) := GeneratePassword(cfg, clock);
        var query := QueryPayload(cfg.shortcode, password, timestamp, id.value);
        var calls := [tokenCall, StkQueryCall(BearerAuthorization(accessToken), query)];
        match post
        case QueryReplied(data) => (QueryData(data), calls)
        case QueryPostFailed(responseData, message) =>
          (QueryError(if Truthy(responseData) then responseData.value else JStr(message)), calls)
  }

  // ---------------------------------------------------------------------------
  // The registry as the server holds it

  /** `activeTransactions` together with the deletion timers it has scheduled. */
  class TransactionStore {
    var transactions: map<string, Transaction>
    var timers: set<Timer>

    function State(): Registry
      reads this
    {
      Registry(transactions, timers)
    }

    ghost predicate Valid()
      reads this
    {
      RegistryValid(State())
    }

    /** An empty map when the server starts. */
    constructor ()
      ensures State() == Registry(map[], {}) && Valid()
    {
      transactions := map[];
      timers := {};
    }

    /** `POST /api/mpesa/stkpush` */
    method HandleStkPush(req: StkPushRequest, cfg: MpesaConfig, clock: DateTime, token: TokenOutcome,
                         post: StkOutcome, now: int)
        returns (response: InitiateResponse, calls: seq<GatewayCall>)
      requires IsoDate.Valid(clock) && Valid()
      modifies this
      ensures Valid()
      ensures State() == Initiate(old(State()), req, cfg, clock, token, post, now).registry
      ensures response == Initiate(old(State()), req, cfg, clock, token, post, now).response
      ensures calls == Initiate(old(State()), req, cfg, clock, token, post, now).calls
    {
      ghost var start := State();
      InitiatePreservesValid(start, req, cfg, clock, token, post, now);
      InitiateShape(start, req, cfg, clock, token, post, now);
      var checked := ValidateRequest(req);
      if checked.Err? {
        return InvalidRequest(checked.error), [];
      }
      var amount, phone := checked.value.0, checked.value.1;
      var tokenCall := TokenRequest(BasicAuthorization(cfg.consumerKey, cfg.consumerSecret));
      if token.TokenFailed? {
        return PushError(MsgPushError, MsgAuthFailed), [tokenCall];
      }
      var credentials := GeneratePassword(cfg, clock);
      var payload := StkPushData(cfg, credentials.0, credentials.1, amount, phone, req);
      calls := [tokenCall, StkPushCall(BearerAuthorization(token.accessToken), payload)];
      if post.StkPostFailed? {
        return PushError(MsgPushError, OrElse(post.errorMessage, post.message)), calls;
      }
      var reply := post.reply;
      if reply.responseCode == "0" {
        var id := reply.checkoutRequestId;
        var record := PendingRecord(id, req, amount, phone, now);
        var stored := Store(State(), id, record);
        transactions, timers := stored.transactions, stored.timers;
        response := PushAccepted(id, MsgPushSent, reply.responseCode, reply.responseDescription);
      } else {
        response := PushDeclined(OrElse(reply.responseDescription, MsgPushFailedDefault));
      }
    }

    /** `POST /api/mpesa/callback` */
    method HandleCallback(body: Json, now: int) returns (response: CallbackResponse)
      requires Valid()
      modifies this
      ensures Valid()
      ensures State() == Callback(old(State()), body, now).registry
      ensures response == Callback(old(State()), body, now).response
    {
      CallbackPreservesValid(State(), body, now);
      var stk := StkCallback(body);
      if stk.None? {
        return CallbackAcknowledged;
      }
      var cb := stk.value;
      var key := LookupKey(State(), Get(cb, "CheckoutRequestID"));
      if IsSuccessCode(Get(cb, "ResultCode")) {
        var item := MetadataItem(cb);
        if item.Some? {
          var metadata := ExtractMetadata(item.value);
          if metadata.Err? {
            return CallbackFailed;
          }
          if key.Some? {
            var t := transactions[key.value];
            transactions := transactions[key.value := MarkCompleted(t, metadata.value.mpesaReceiptNumber, now)];
          }
        }
      } else if key.Some? {
        var t := transactions[key.value];
        transactions := transactions[key.value := MarkFailed(t, Get(cb, "ResultDesc"), now)];
      }
      response := CallbackAcknowledged;
    }

    /** `GET /api/mpesa/status/:checkoutRequestId` */
    method HandleStatus(id: string) returns (r: StatusResponse)
      ensures r == StatusOf(State(), id)
      ensures r.NotFound? <==> id !in transactions
    {
      r := StatusOf(State(), id);
    }

    /** The deletion timers due by `now` fire, each deleting its key. */
    method FireTimers(now: int)
      requires Valid()
      modifies this
      ensures Valid()
      ensures State() == Expire(old(State()), now)
    {
      ExpireRemovesStale(State(), now);
      var fired := DueKeys(State(), now);
      transactions := transactions - fired;
      timers := set t | t in timers && t.due > now;
    }
  }
}
