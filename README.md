# Kabeba campaign donations and contact forms, in Dafny

This project models the working core of the Kabeba 2027 campaign site. The site is a
React front end plus two Node back ends, and it takes M-Pesa donations through the
Safaricom Daraja STK-Push API.

- `server.js` is the main back end. It validates a donation request and normalises
  the phone to `254…`. It obtains an OAuth token with HTTP Basic credentials
  (section 2 of RFC 7617), builds the STK-Push body with its Base64 password
  (section 4 of RFC 4648) and keeps the accepted push as a pending transaction in an
  in-memory map. The gateway's callback marks the transaction completed or failed. A
  status endpoint reports it, a query endpoint forwards a status query, and a timer
  deletes the record 15 minutes after it was stored.
- `backend/src/utils/daraja.js` and `backend/src/routes/mpesa.js` are an alternate
  Express back end. Its route checks only that amount and phone are present, derives
  an account reference `DONATION-` plus the first ten characters of the donor's name,
  and forwards the push through a second gateway client. Its callback route
  acknowledges anything.
- `src/pages/Donate.js` is the donation form: preset and custom amounts, a minimum of
  KSh 10, a trimmed-phone pattern check, the phone rewrite and the request it sends.
- `src/pages/Contact.js` is the contact form. Its field rules include an e-mail
  pattern; before they run, the browser checks the `type="email"` field against the
  "valid e-mail address" grammar of the WHATWG HTML standard and refuses to submit a
  non-empty value outside it. A valid submission becomes a `mailto:` link (section 2 of RFC 6068) with a
  percent-encoded subject and body (`encodeURIComponent`, section 2.1 of RFC 3986, over
  UTF-8 as in RFC 3629). The form is then reset and flagged as submitted.
- `src/pages/Home.js` contains the hero typewriter, which types, pauses, deletes and
  moves to the next of three slogans, and the testimonial star strings. Its steps are
  stated for any non-empty list of slogans; the component runs them on its three.

Modules:

| module | file | role |
|---|---|---|
| `Wrappers` | `wrappers.dfy` | Option and Result |
| `JsText` | `jstext.dfy` | JS string operations: `substring`, `slice`, `trim`, `\|\|` defaults, digits |
| `Utf8` | `utf8.dfy` | UTF-8 encoding and decoding, with a round trip |
| `Base64` | `base64.dfy` | Base64, with a round trip |
| `Json` | `json.dfy` | JSON values, truthiness and property lookup, for request and callback bodies |
| `IsoDate` | `isodate.dfy` | `Date.prototype.toISOString` and the two 14-digit timestamp derivations |
| `KenyanPhone` | `phone.dfy` | The Kenyan mobile pattern `^(?:\+254\|254\|0)?([17]\d{8})$` and its variants |
| `Gateway` | `gateway.dfy` | Gateway calls (token request, STK push, STK query), the password and the Basic/Bearer headers |
| `Server` | `server.dfy` | `server.js` |
| `Daraja`, `Routes` | `daraja.dfy`, `routes.dfy` | The alternate back end |
| `Donate`, `UriComponent`, `Contact`, `Home` | `donate.dfy`, `uri.dfy`, `contact.dfy`, `home.dfy` | The front-end pages |

How state is modelled:

- Network replies and clock readings are parameters. Outbound requests are returned as a list of `GatewayCall`s.
- `server.js` keeps its transactions in a mutable `Map`, with a `setTimeout` per record.
  - The `Registry` value and the functions on it (`Initiate`, `Callback`, `StatusOf`, `Expire`) define each handler.
  - The class `Server.TransactionStore` holds the map and the pending timers as fields. Its handler methods update them in place and are proved equal to those functions.
  - The registry invariant `RegistryValid` is proved to be preserved.
- The two pages whose state the handlers change in steps are classes:
  - `Donate.DonateForm`, for the React state of the donation form;
  - `Home.Typewriter`, for the typewriter.
- `Contact`'s submission is a function from the form to the opened link and the reset form.

Behaviour of the code worth noting:

- A callback for a record already in a terminal state overwrites it: a completed record can be failed by a later callback (`Server.CallbackOverwritesTerminal`).
- The deletion timer deletes a record after 15 minutes whatever its status, not only pending ones.
- `server.js` answers the gateway's callback with `{success: true}`. The `{ResultCode: 0, ResultDesc: 'Accepted'}` acknowledgement is sent only by the alternate back end's route.

## Model

| member | source | states |
|---|---|---|
| `KenyanPhone.MatchPattern` | server.js:77-78 | the pattern matches exactly the strings of its language (an optional prefix then a 1 or 7 and eight digits); the capture is the last nine characters |
| `KenyanPhone.PrefixOrderIrrelevant` | src/pages/Donate.js:49 | the form's pattern, with its prefixes in another order, accepts and captures exactly as the server's pattern |
| `KenyanPhone.PatternShapes` | server.js:77-78 | the pattern matches iff the phone is one of the four shapes: `07…`/`01…` with ten digits, `254…`, `+254…` or the bare nine digits |
| `Server.FormatPhone` | server.js:77-85 | normalisation succeeds iff the phone is a Kenyan mobile; the result is 12 digits, starts with `254`, and its tail is the last nine characters of the input, a subscriber number |
| `Server.FormatPhoneIdempotent` | server.js:77-85 | normalising a normalised number leaves it unchanged |
| `Server.LeadingZeroReplaced` | server.js:77-85 | `0` followed by a subscriber number normalises to `254` followed by the same nine digits |
| `Server.ValidateRequest` | server.js:61-85 | the three 400 errors in order, each as an iff: missing amount or phone, amount outside 1..150000, phone not matching; success carries the amount and the normalised phone |
| `Server.GeneratePassword` | server.js:49-53 | the timestamp is the 14-digit `YYYYMMDDHHmmss` of the clock (years 0-9999) |
| `Server.GeneratePasswordDecodes` | server.js:49-53 | the password Base64- and UTF-8-decodes to shortcode, passkey and the timestamp returned with it |
| `Server.Store` | server.js:125-139 | storing a record changes only its key and adds its own 15-minute deletion timer |
| `Server.InitiateRejectsInvalid` | server.js:61-85 | an invalid request gets a 400 with its validation message, makes no gateway call and leaves the registry unchanged |
| `Server.InitiateRegistersPending` | server.js:123-149 | an accepted push (ResponseCode `'0'`) is answered with its CheckoutRequestID and stores one pending record with the validated amount and normalised phone |
| `Server.InitiateCallsGateway` | server.js:86-119 | the token request carries the Basic credential; the push carries the Bearer token, the normalised phone as PartyA and PhoneNumber, the shortcode as PartyB, the 14-digit timestamp and a password that decodes to shortcode, passkey and timestamp |
| `Server.InitiateDeclinedLeavesRegistry` | server.js:150-156 | any other ResponseCode gets a 400 with the gateway's description (or the default message) and stores nothing |
| `Server.InitiateTokenFailure` | server.js:31-46 | a failed token request gets a 500 with `Failed to authenticate with M-Pesa`, stops before the push and stores nothing |
| `Server.InitiatePostFailure` | server.js:158-166 | a failed push gets a 500 carrying the gateway's errorMessage (or the error's message) and stores nothing |
| `Server.InitiateShape` | server.js:56-167 | initiation either leaves the registry alone or stores exactly the accepted push's pending record |
| `Server.StorePreservesValid` | server.js:125-139 | storing a valid record with its own timer keeps the registry invariant |
| `Server.InitiatePreservesValid` | server.js:56-167 | the stkpush handler keeps the registry invariant |
| `Server.FindByName` | server.js:196-200 | without null items the lookup does not throw; an item it finds is one of the items and carries that Name |
| `Server.FindByNameFirst` | server.js:196-200 | with `k` the first item that is null or carries the Name, `find` gives none when there is no such item, throws when it is null, and otherwise gives that item |
| `Server.ExtractMetadataWithoutNulls` | server.js:190-200 | metadata without null items is read without throwing, and the receipt is the first MpesaReceiptNumber value |
| `Server.LookupKey` | server.js:185 | a record is found iff CheckoutRequestID is a string that is a stored key |
| `Server.CallbackCompletes` | server.js:187-208 | a ResultCode 0 callback with metadata completes the named record with the first MpesaReceiptNumber value and the callback's time; no other record and no timer changes |
| `Server.CallbackWithoutMetadataIgnored` | server.js:187-189 | a ResultCode 0 callback without metadata changes nothing and is acknowledged |
| `Server.CallbackFails` | server.js:219-231 | any other ResultCode fails the named record with ResultDesc as the reason; no other record changes |
| `Server.CallbackUnknownChangesNothing` | server.js:176-186 | a body without `Body.stkCallback`, or one naming no stored record, leaves the registry unchanged |
| `Server.CallbackFailsOnlyWhenExtractionThrows` | server.js:170-242 | the callback answers 500 exactly when reading the metadata throws, and then changes nothing |
| `Server.CallbackPreservesValid` | server.js:170-242 | the callback handler keeps the registry invariant |
| `Server.CallbackOverwritesTerminal` | server.js:227-231 | a failure callback turns a completed record into a failed one |
| `Server.StatusOf` | server.js:245-281 | 404 iff the id is unknown; otherwise the record's status, amount, phone and time, plus the receipt fields only when completed and the failure fields only when failed |
| `Server.Expire` | server.js:137-139 | the timers due by `now` fire: their keys are deleted, other records are untouched, and only the later timers remain |
| `Server.ExpireRemovesStale` | server.js:137-139 | after the due timers fire the invariant holds and no remaining record is older than 15 minutes |
| `Server.StatusAfterRetentionNotFound` | server.js:137-139 | 15 minutes after a record was stored, its status query reports 404 |
| `Server.ScenarioPhone` | server.js:77-85 | `0712345678` normalises to `254712345678` |
| `Server.ScenarioValidates` | server.js:61-85 | the donation of 500 from `0712345678` passes validation with phone `254712345678` |
| `Server.ScenarioInitiate` | server.js:56-149 | 500 from `0712345678`, accepted as `ws_CO_1234`, is stored as pending with phone `254712345678` |
| `Server.ScenarioMetadata` | server.js:190-200 | that donation's callback metadata is read without throwing and gives receipt `QGR7XXXX` |
| `Server.ScenarioCallbackCompletes` | server.js:187-208 | that donation's successful callback reports it completed with receipt `QGR7XXXX` |
| `Server.ScenarioUnknownCallback` | server.js:185-231 | a callback for the unknown `ws_CO_9999` is acknowledged and changes nothing |
| `Server.ScenarioExpires` | server.js:137-139 | sixteen minutes later, with no callback, the donation's status is 404 |
| `Server.Query` | server.js:284-329 | a falsy checkoutRequestId gets a 400 and no gateway call; with a truthy id, a token request with the Basic credential is followed by a query with the bearer token, the shortcode, the id and the password and timestamp of `GeneratePassword`, and the gateway's reply is answered as the data; a failed token request gives the authentication error, and a failed query gives the error response's data if truthy, else the error message |
| `Server.TransactionStore.constructor` | server.js:28 | the map starts empty |
| `Server.TransactionStore.HandleStkPush` | server.js:56-167 | the handler updates the map and timers as `Initiate` says, returns its response and calls, and keeps the invariant |
| `Server.TransactionStore.HandleCallback` | server.js:170-242 | the handler updates the map as `Callback` says and keeps the invariant |
| `Server.TransactionStore.HandleStatus` | server.js:245-281 | the response is `StatusOf` the current map; 404 iff the id is unknown |
| `Server.TransactionStore.FireTimers` | server.js:137-139 | the due timers fire as `Expire` says and the invariant is kept |
| `IsoDate.CompactRoundTrip` | server.js:50 | the 14-digit timestamp gives back the clock's year, month, day, hour, minute and second |
| `IsoDate.ServerTimestampIsCompact` | server.js:50 | dropping all non-digits of the ISO string and the last three gives `YYYYMMDDHHmmss` |
| `IsoDate.DarajaTimestampIsCompact` | backend/src/utils/daraja.js:28-31 | removing `-`, `:` and `T` and keeping 14 characters gives `YYYYMMDDHHmmss` |
| `IsoDate.TimestampsAgree` | backend/src/utils/daraja.js:39-42 | both back ends derive the same timestamp from the same clock reading |
| `IsoDate.ServerTimestampExtendedYear` | server.js:50 | past year 9999 the server's timestamp is 16 digits, not 14 |
| `IsoDate.DarajaTimestampExtendedYear` | backend/src/utils/daraja.js:28-31 | past year 9999 the alternate timestamp starts with `+` |
| `Gateway.PasswordDecodes` | server.js:51 | the password decodes to shortcode, passkey and timestamp |
| `Gateway.BasicCredentialDecodes` | server.js:33 | the credential decodes to the UTF-8 of `key:secret` |
| `Gateway.CredentialRecoversKeyAndSecret` | server.js:33 | for a key without `:`, the decoded credential splits back into key and secret |
| `Base64.GroupRoundTrip` | server.js:51 | the four characters made from three bytes decode back to those bytes, ahead of whatever the rest decodes to |
| `Base64.RoundTrip` | server.js:51 | Base64 decoding inverts encoding |
| `Base64.EncodeStringInjective` | server.js:51 | different strings give different Base64 text |
| `Utf8.RoundTrip` | server.js:51 | UTF-8 decoding inverts encoding |
| `Utf8.EncodeInjective` | server.js:51 | different strings give different UTF-8 bytes |
| `JsText.Trim` | src/pages/Donate.js:50 | `trim` leaves no white space at either end |
| `JsText.TrimKeepsContent` | src/pages/Donate.js:50 | the trimmed string is a contiguous piece of the input with only white space before and after it |
| `JsText.PadRoundTrip` | server.js:50 | a zero-padded number reads back as the number |
| `Daraja.CallbackUrl` | backend/src/utils/daraja.js:55 | the URL ends in `/api/mpesa/callback` and starts with the configured base, or with `https://your-domain.com` when that is empty or absent |
| `Daraja.Timestamp` | backend/src/utils/daraja.js:39-42 | the body's timestamp is the clock's `YYYYMMDDHHmmss` (years 0-9999) |
| `Daraja.GeneratePasswordDecodes` | backend/src/utils/daraja.js:27-35 | the password decodes to SHORTCODE, PASSKEY and the timestamp of its own clock reading |
| `Daraja.RewritePhone` | backend/src/utils/daraja.js:52 | a leading `0` becomes `254` and anything else is sent as it is |
| `Daraja.RewriteAgreesWithServer` | backend/src/utils/daraja.js:52-54 | on numbers `server.js` accepts, the rewrite agrees with its normalisation except for `+254…` and the bare nine digits |
| `Daraja.InitiateStkPush` | backend/src/utils/daraja.js:37-81 | a failed token request rejects; a failed POST resolves to the gateway's errorMessage or `STK Push failed`; a reply resolves to its CheckoutRequestID and CustomerMessage or `STK Push sent` |
| `Daraja.InitiateStkPushPayload` | backend/src/utils/daraja.js:46-67 | the body carries the rewritten phone twice, the shortcode, the callback URL, the defaults `KabebaDonation`/`Donation` for omitted arguments, and the Bearer and Basic headers |
| `Daraja.PasswordMatchesTimestampIffSameSecond` | backend/src/utils/daraja.js:39-49 | the password matches the body's own Timestamp iff the two clock readings fall in the same second |
| `Daraja.AgreesWithServerPassword` | backend/src/utils/daraja.js:27-35 | for one clock reading and the same shortcode and passkey, both back ends produce the same password and timestamp |
| `Routes.AccountReference` | backend/src/routes/mpesa.js:15 | `DONATION-` followed by at most the first ten characters of the name, so at most 19 characters |
| `Routes.StkPushRoute` | backend/src/routes/mpesa.js:5-20 | 400 iff amount or phone is falsy, before any gateway call |
| `Routes.StkPushRouteForwards` | backend/src/routes/mpesa.js:6-19 | with a truthy amount and phone, the client's result is returned as it is, and a rejected token leaves the request unanswered |
| `Routes.StkPushRouteBody` | backend/src/routes/mpesa.js:6-17 | the forwarded push carries the derived reference (`DONATION-Anonymous` when no name is given) and the fixed description `Donation to Kabeba 2027` |
| `Routes.AnonymousReference` | backend/src/routes/mpesa.js:6-15 | the default donor name gives the reference `DONATION-Anonymous` |
| `Routes.CallbackRoute` | backend/src/routes/mpesa.js:38 | the callback is acknowledged with ResultCode 0 and `Accepted` whatever its body |
| `Donate.NormalizedPhoneAgreesWithServer` | src/pages/Donate.js:49-62 | every phone the form accepts, once rewritten, is accepted by `server.js` and normalised to the same number as the phone the donor typed |
| `Donate.AcceptedPhoneIsTrimmed` | src/pages/Donate.js:49-52 | a phone the pattern accepts has nothing to trim |
| `Donate.FormRequestAcceptedByServer` | src/pages/Donate.js:43-77 | a request the form sends passes the server's validation iff its amount is at most 150000, and the server then charges the number the donor typed |
| `Donate.DonateForm.constructor` | src/pages/Donate.js:7-16 | preset 100, no custom amount, M-Pesa, not processing, empty details |
| `Donate.DonateForm.AmountSelect` | src/pages/Donate.js:26-29 | choosing a preset clears the custom amount, so the preset is donated; nothing else changes |
| `Donate.DonateForm.CustomChange` | src/pages/Donate.js:31-35 | a non-empty custom amount becomes both the custom and the selected amount; clearing it keeps the last selected amount (the last non-empty custom value, if any) |
| `Donate.DonateForm.BeginMpesaPayment` | src/pages/Donate.js:41-77 | below 10 the minimum alert (never when the button was enabled); otherwise an unaccepted trimmed phone gets the phone alert; otherwise the request with the final amount and rewritten phone is sent and the processing flag set, which disables the button |
| `Donate.DonateForm.FinishMpesaPayment` | src/pages/Donate.js:80-97 | the alert for success (the server's message), failure (its error, else its message) or a network error, whose `Text` is the string shown, and the processing flag cleared, so the button is disabled again only by the amount or a missing M-Pesa phone |
| `Donate.DonateForm.EnabledButtonSends` | src/pages/Donate.js:333-337 | when the Donate button is enabled for M-Pesa and the phone field shows no error, nothing is in flight, the amount is at least 10 and the trimmed phone passes the handler's pattern, so the request is sent |
| `Donate.DonateForm.FlaggedPhoneCanBeSent` | src/pages/Donate.js:216 | the field flags the untrimmed value while the handler tests the trimmed one, so ` 0712345678` is flagged and still accepted |
| `UriComponent.Encode` | src/pages/Contact.js:26-27 | every character of the encoding is unreserved or `%`, so none of `&`, `=`, `?`, `#` appears |
| `UriComponent.ToBytesEscapes` | src/pages/Contact.js:26-27 | percent-escapes of any bytes read back as those bytes, ahead of the bytes of what follows |
| `UriComponent.RoundTrip` | src/pages/Contact.js:26-27 | percent-decoding inverts `encodeURIComponent` |
| `UriComponent.EncodeInjective` | src/pages/Contact.js:26-27 | different strings encode differently |
| `Contact.HtmlValidEmailMatchesGrammar` | src/pages/Contact.js:157 | the browser's test of the `type="email"` field accepts exactly the WHATWG HTML "valid e-mail address" grammar: a local part of its characters, `@`, and dot-separated labels of 1 to 63 letters, digits and inner hyphens |
| `Contact.HostnameHasNoEmptyLabel` | src/pages/Contact.js:157 | a host name the browser accepts neither starts nor ends with a dot and has no two dots in a row |
| `Contact.DoubleDotPassesPatternOnly` | src/pages/Contact.js:161 | `a@b..cd` matches the form's pattern but not the browser's grammar |
| `Contact.LeadingHyphenPassesPatternOnly` | src/pages/Contact.js:161 | `a@-b.cd` matches the form's pattern but not the browser's grammar |
| `Contact.IsValidEmailMatchesPattern` | src/pages/Contact.js:161 | the e-mail test accepts exactly the language of `^[A-Z0-9._%+-]+@[A-Z0-9.-]+\.[A-Z]{2,}$` (case-insensitive) |
| `Contact.NameError` | src/pages/Contact.js:139-142 | no name error iff the name has at least 2 characters |
| `Contact.EmailError` | src/pages/Contact.js:158-164 | no e-mail error iff the e-mail is non-empty and matches the pattern |
| `Contact.MessageError` | src/pages/Contact.js:182-185 | no message error iff the message has at least 10 characters |
| `Contact.Subject` | src/pages/Contact.js:15 | the subject is the fixed prefix followed by the name |
| `Contact.MailtoLink` | src/pages/Contact.js:30 | the link starts with `mailto:info@kabebajush.co.ke?subject=` |
| `Contact.ParseLinkParts` | src/pages/Contact.js:30 | a link built from an encoded subject without `&` and any encoded body is read back as the decodings of the two |
| `Contact.MailtoRoundTrip` | src/pages/Contact.js:26-30 | the link's query gives back exactly the subject and the body |
| `Contact.Submit` | src/pages/Contact.js:13-157 | the browser blocks the submission, changing nothing, iff the e-mail is non-empty and outside its grammar; otherwise the errors are shown iff some field rule fails; otherwise both e-mail checks hold, the link carries the subject and body of the data, and the form is cleared with `submitted` set |
| `Home.Next` | src/pages/Home.js:19-44 | for any list of slogans, a step keeps the index in range and the text a prefix of its slogan; typing adds one character and deleting removes one; a full slogan starts the deletion; an emptied one moves to the next slogan |
| `Home.Run` | src/pages/Home.js:19-44 | any number of steps keeps the invariant |
| `Home.RunAdd` | src/pages/Home.js:19-44 | running `a + b` steps is running `a` then `b` |
| `Home.TypingPhase` | src/pages/Home.js:20-26 | from any typed prefix, typing reaches the whole slogan |
| `Home.DeletingPhase` | src/pages/Home.js:20-26 | from any prefix, deleting reaches the empty text |
| `Home.FullCycle` | src/pages/Home.js:19-44 | from an empty start, `2·|slogan| + 2` steps reach the next slogan's empty start |
| `Home.Typewriter.constructor` | src/pages/Home.js:6-8 | the first slogan, nothing shown, typing |
| `Home.Typewriter.Step` | src/pages/Home.js:19-44 | the state after a step is `Next` of the state before, and the invariant holds |
| `Home.Stars` | src/pages/Home.js:226 | `n` stars and nothing else |

## Left out

- Network, timers and clocks: the gateway's replies, `fetch` results and clock readings are parameters; request URLs, headers other than `Authorization`, and `baseUrl` selection are not modelled.
- Console logging and the `health` endpoint of `server.js` (no state, no logic).
- The logged-only callback fields (MerchantRequestID, Amount, Balance, TransactionDate, PhoneNumber) are read so that their lookups can throw; their values are not kept.
- String lengths: JS counts UTF-16 code units; the model counts Unicode scalar values, so `slice(0, 10)` in the account reference and the `minLength` rules differ for characters outside the Basic Multilingual Plane.
- Lone surrogates: `encodeURIComponent` throws on them; Dafny strings cannot hold them.
- JSON inputs of the wrong type: amounts are integers or absent, phones and names strings or absent. Non-integer amounts, numeric strings and objects in those fields are not modelled.
- Routes.DonorName: a `null` donorName would make `slice` throw; the model has only present strings or an absent value.
- Server.InitiateRegistersPending: an accepted reply whose CheckoutRequestID is missing would be stored under `undefined`; the model's reply always carries a string.
- Server.InitiateDeclinedLeavesRegistry: the declined response also echoes the gateway's raw `response.data`; the model keeps only the message.
- Undefined environment values: a missing consumer key or secret would be sent as `undefined`; the model takes strings.
- Donate.DonateForm.CustomChange: `Number(val) || 0` for a non-numeric input is not modelled; the custom amount is an integer or empty.
- The card, PayPal and bank paths of the donation page, `handleDonateClick`'s timer, and `handleDonorChange`, which only copies an input value into a field.
- `window.open` of the mailto link: the link is returned.
- Contact.Submit: the browser's value sanitisation of the e-mail input (dropping line breaks and surrounding white space) is not modelled; the field value is taken as the browser holds it.
- Routes.StkPushRoute: the gateway call at `mpesa.js:12` is awaited without `try`/`catch`, so a rejected promise goes unhandled; what the process then does (Express 4 leaves the request hanging and Node may exit; Express 5 answers 500) is not modelled, and the model leaves the request unanswered.
- Home.Stars: `Array(n)` with a negative or fractional rating throws; ratings are natural numbers here.
- The typewriter's `typingSpeed` and the 2000 ms pause decide only when a step fires; the model counts steps.
- Concurrency between handlers: each handler runs to completion on one state.
