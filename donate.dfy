/**
 * src/pages/Donate.js: the donation form. Its state (the chosen preset, the custom
 * amount, the payment method, the processing flag and the donor's details) is
 * changed by the page's handlers; the M-Pesa handler checks the amount and the
 * phone, rewrites the phone and posts the donation to the back end of server.js.
 */
module Donate {
  import opened Wrappers
  import opened JsText
  import opened KenyanPhone
  import Server

  datatype PaymentMethod = Mpesa | Card | Paypal | Bank

  const MinDonation := 10

  /** The alerts `handleMpesaPayment` shows; `Text` is the exact message. */
  datatype Alert =
    | BelowMinimum
    | InvalidPhone
    | PromptSent(message: Option<string>)
    | InitiationFailed(error: Option<string>, message: Option<string>)
    | NetworkError
  {
    function Text(): string {
      match this
      case BelowMinimum => "Minimum donation is KSh 10"
      case InvalidPhone => "Please enter a valid Kenyan phone number (e.g. 07XXXXXXXX or 254XXXXXXXXX)"
      case PromptSent(message) =>
        OrElse(message, "STK Push sent!") + "\n\nCheck your phone for the M-Pesa prompt.\nEnter your PIN to complete the donation."
      case InitiationFailed(error, message) =>
        "Payment initiation failed: " + OrElse(error, OrElse(message, "Unknown error"))
      case NetworkError => "Failed to connect to payment service. Please check your internet and try again."
    }
  }

  /** The JSON body posted to `/api/mpesa/stkpush`. */
  datatype DonationRequest = DonationRequest(amount: int, phoneNumber: string, donorName: string, donorEmail: string)

  /** The first half of the M-Pesa handler: an alert that stops it, or the request it sends. */
  datatype Submission = Alerted(alert: Alert) | Sent(request: DonationRequest)

  /** What `fetch` and `response.json()` gave: the reply's `success`, `message` and `error`, or a thrown error. */
  datatype FetchOutcome = Replied(success: bool, message: Option<string>, error: Option<string>) | FetchFailed

  /** `phoneRegex.test(phone)` at Donate.js:49. */
  predicate PhonePatternAccepts(phone: string) {
    MatchPattern(DonatePrefixes, phone).Some?
  }

  /**
   * The rewrite of lines 58-62: a leading `0` becomes `254`, a leading `+` is dropped,
   * anything else is kept.
   */
  function NormalizePhone(phone: string): string {
    if StartsWith(phone, "0") then "254" + phone[1..]
    else if StartsWith(phone, "+") then phone[1..]
    else phone
  }

  /**
   * Every phone the form accepts, once rewritten, is accepted by server.js and
   * normalised there to the same `254…` number as the phone before the rewrite;
   * prefixed phones are already in that form, and the bare nine digits are left as they are.
   */
  lemma NormalizedPhoneAgreesWithServer(phone: string)
    requires PhonePatternAccepts(phone)
    ensures Server.FormatPhone(phone).Some?
    ensures Server.FormatPhone(NormalizePhone(phone)) == Server.FormatPhone(phone)
    ensures !IsSubscriber(phone) ==> NormalizePhone(phone) == Server.FormatPhone(phone).value
    ensures IsSubscriber(phone) ==> NormalizePhone(phone) == phone
  {
    PrefixOrderIrrelevant(phone);
    PatternShapes(phone);
    var f := Server.FormatPhone(phone).value;
    var n := NormalizePhone(phone);
    if |phone| == 10 && phone[0] == '0' && IsSubscriber(phone[1..]) {
      assert StartsWith(phone, "0");
      assert n == f;
    } else if |phone| == 13 && phone[..4] == "+254" && IsSubscriber(phone[4..]) {
      assert !StartsWith(phone, "0") && StartsWith(phone, "+") by { assert phone[0] == phone[..4][0]; }
      assert n == f;
    } else if |phone| == 12 && phone[..3] == "254" && IsSubscriber(phone[3..]) {
      assert !StartsWith(phone, "0") && !StartsWith(phone, "+") by { assert phone[0] == phone[..3][0]; }
      assert n == f by { assert phone[..3] + phone[3..] == phone; }
    } else {
      assert IsSubscriber(phone);
      assert !StartsWith(phone, "0") && !StartsWith(phone, "+");
    }
    if !IsSubscriber(phone) {
      Server.FormatPhoneIdempotent(phone);
    }
  }

  /** A phone the pattern accepts has no surrounding whitespace, so trimming leaves it as it is. */
  lemma AcceptedPhoneIsTrimmed(phone: string)
    requires PhonePatternAccepts(phone)
    ensures Trim(phone) == phone
  {
    PrefixOrderIrrelevant(phone);
    PatternShapes(phone);
    assert !IsJsSpace(phone[0]) && !IsJsSpace(phone[|phone| - 1]);
    assert TrimStart(phone) == phone;
  }

  /** server.js's pattern rejects a mobile number typed after a space. */
  lemma SpacedPhoneRejected(phone: string)
    requires phone == " 0712345678"
    ensures MatchPattern(ServerPrefixes, phone).None?
  {
    if MatchPattern(ServerPrefixes, phone).Some? {
      assert false;
    }
  }

  /** Trimmed, the same number matches the form's pattern. */
  lemma SpacedPhoneTrimmed(phone: string)
    requires phone == " 0712345678"
    ensures PhonePatternAccepts(Trim(phone))
  {
    var t := phone[1..];
    assert PhonePatternAccepts(t) by { assert StartsWith(t, "0") && IsSubscriber(t[1..]); }
    AcceptedPhoneIsTrimmed(t);
    assert TrimStart(phone) == TrimStart(t) by { assert IsJsSpace(phone[0]); }
  }

  /** The donation form's state. */
  class DonateForm {
    var selectedAmount: int
    /** The custom-amount input: None while it is empty. */
    var customAmount: Option<int>
    var activeMethod: PaymentMethod
    var isProcessing: bool
    var name: string
    var email: string
    var phone: string
    var message: string

    /** The initial `useState` values. */
    constructor ()
      ensures selectedAmount == 100 && customAmount == None && activeMethod == Mpesa && !isProcessing
      ensures name == "" && email == "" && phone == "" && message == ""
      ensures FinalAmount() == 100
    {
      selectedAmount := 100;
      customAmount := None;
      activeMethod := Mpesa;
      isProcessing := false;
      name, email, phone, message := "", "", "", "";
    }

    /** `finalAmount`: the custom amount while the input holds one, otherwise the chosen preset. */
    function FinalAmount(): int
      reads this
    {
      if customAmount.Some? then customAmount.value else selectedAmount
    }

    /** `handleAmountSelect`: choosing a preset clears the custom input, so the preset is donated. */
    method AmountSelect(amount: int)
      modifies this
      ensures selectedAmount == amount && customAmount == None
      ensures FinalAmount() == amount
      ensures activeMethod == old(activeMethod) && isProcessing == old(isProcessing)
      ensures name == old(name) && email == old(email) && phone == old(phone) && message == old(message)
    {
      selectedAmount := amount;
      customAmount := None;
    }

    /**
     * `handleCustomChange`: the input's value becomes the custom amount and, when it is
     * not empty, the selected amount too; clearing it leaves the selected amount alone.
     */
    method CustomChange(value: Option<int>)
      modifies this
      ensures customAmount == value
      ensures value.Some? ==> selectedAmount == value.value && FinalAmount() == value.value
      ensures value.None? ==> selectedAmount == old(selectedAmount) && FinalAmount() == old(selectedAmount)
      ensures activeMethod == old(activeMethod) && isProcessing == old(isProcessing)
      ensures name == old(name) && email == old(email) && phone == old(phone) && message == old(message)
    {
      customAmount := value;
      if value.Some? {
        selectedAmount := value.value;
      }
    }

    /** The `disabled` expression of the Donate button. */
    predicate DonateDisabled()
      reads this
    {
      isProcessing || FinalAmount() < MinDonation || (activeMethod == Mpesa && phone == "")
    }

    /** The `isInvalid` flag of the phone field: a non-empty, untrimmed value the pattern of server.js rejects. */
    predicate PhoneFieldInvalid()
      reads this
    {
      phone != "" && MatchPattern(KenyanPhone.ServerPrefixes, phone).None?
    }

    /**
     * The button and the phone field guard the handler: while the button can be pressed
     * with M-Pesa chosen and the field shows no error, the amount is at least KSh 10 and
     * the trimmed phone matches the handler's pattern, so the request is sent.
     */
    lemma EnabledButtonSends()
      requires !DonateDisabled() && activeMethod == Mpesa && !PhoneFieldInvalid()
      ensures !isProcessing && FinalAmount() >= MinDonation
      ensures PhonePatternAccepts(Trim(phone))
    {
      PrefixOrderIrrelevant(phone);
      AcceptedPhoneIsTrimmed(phone);
    }

    /**
     * The converse does not hold: the field tests the untrimmed value and the handler the
     * trimmed one, so a number typed after a space is flagged and still sent.
     */
    lemma FlaggedPhoneCanBeSent()
      requires phone == " 0712345678"
      ensures PhoneFieldInvalid()
      ensures PhonePatternAccepts(Trim(phone))
    {
      SpacedPhoneRejected(phone);
      SpacedPhoneTrimmed(phone);
    }

    /**
     * The checks of `handleMpesaPayment` (lines 43-64): an amount below 10 is refused
     * before the phone is looked at; the trimmed phone must match the pattern; the
     * local phone is then rewritten and the request goes out with the processing flag set.
     */
    method BeginMpesaPayment() returns (s: Submission)
      modifies this
      ensures FinalAmount() < MinDonation ==> s == Alerted(BelowMinimum)
      ensures FinalAmount() >= MinDonation && !PhonePatternAccepts(Trim(phone)) ==> s == Alerted(InvalidPhone)
      ensures s.Sent? <==> FinalAmount() >= MinDonation && PhonePatternAccepts(Trim(phone))
      ensures s.Sent? ==> s.request == DonationRequest(FinalAmount(), NormalizePhone(Trim(phone)),
                                                       OrElse(Some(name), "Anonymous"), email)
      ensures isProcessing == (s.Sent? || old(isProcessing))
      ensures !old(DonateDisabled()) ==> s != Alerted(BelowMinimum)
      ensures s.Sent? ==> DonateDisabled()
      ensures selectedAmount == old(selectedAmount) && customAmount == old(customAmount)
      ensures activeMethod == old(activeMethod)
      ensures name == old(name) && email == old(email) && phone == old(phone) && message == old(message)
    {
      if FinalAmount() < MinDonation {
        return Alerted(BelowMinimum);
      }
      var p := Trim(phone);
      if p == "" || !PhonePatternAccepts(p) {
        return Alerted(InvalidPhone);
      }
      if StartsWith(p, "0") {
        p := "254" + p[1..];
      } else if StartsWith(p, "+") {
        p := p[1..];
      }
      var donorEmail := OrElse(Some(email), "");
      assert donorEmail == email;
      isProcessing := true;
      s := Sent(DonationRequest(FinalAmount(), p, OrElse(Some(name), "Anonymous"), donorEmail));
    }

    /**
     * The second half: the alert for the back end's reply (its `message` on success,
     * its `error` or else `message` on failure) or for a failed request, and the
     * processing flag cleared in `finally`.
     */
    method FinishMpesaPayment(outcome: FetchOutcome) returns (alert: Alert)
      modifies this
      ensures !isProcessing
      ensures DonateDisabled() <==> FinalAmount() < MinDonation || (activeMethod == Mpesa && phone == "")
      ensures outcome.FetchFailed? ==> alert == NetworkError
      ensures outcome.Replied? && outcome.success ==> alert == PromptSent(outcome.message)
      ensures outcome.Replied? && !outcome.success ==> alert == InitiationFailed(outcome.error, outcome.message)
      ensures selectedAmount == old(selectedAmount) && customAmount == old(customAmount)
      ensures activeMethod == old(activeMethod)
      ensures name == old(name) && email == old(email) && phone == old(phone) && message == old(message)
    {
      isProcessing := false;
      match outcome
      case FetchFailed =>
        alert := NetworkError;
      case Replied(success, msg, err) =>
        if success {
          alert := PromptSent(msg);
        } else {
          alert := InitiationFailed(err, msg);
        }
    }
  }

  /** The body server.js receives from the form. */
  function AsServerRequest(r: DonationRequest): Server.StkPushRequest {
    Server.StkPushRequest(Some(r.amount), Some(r.phoneNumber), None, Some(r.donorName), Some(r.donorEmail))
  }

  /**
   * A request the form sends (an amount of at least 10 and an accepted, rewritten
   * phone) passes server.js's validation exactly when the amount is at most 150000,
   * and server.js then charges the number the donor typed.
   */
  lemma FormRequestAcceptedByServer(amount: int, typed: string, donorName: string, donorEmail: string)
    requires amount >= MinDonation && PhonePatternAccepts(typed)
    ensures var req := AsServerRequest(DonationRequest(amount, NormalizePhone(typed), donorName, donorEmail));
      && (Server.ValidateRequest(req).Ok? <==> amount <= Server.MaxAmount)
      && (Server.ValidateRequest(req).Ok? ==> Some(Server.ValidateRequest(req).value.1) == Server.FormatPhone(typed))
  {
    NormalizedPhoneAgreesWithServer(typed);
    var n := NormalizePhone(typed);
    var req := AsServerRequest(DonationRequest(amount, n, donorName, donorEmail));
    assert IsKenyanMobile(n);
    assert n != "";
    assert Server.AmountTruthy(req.amount) && Server.TextTruthy(req.phoneNumber);
    if amount <= Server.MaxAmount {
      assert Server.ValidateRequest(req) == Ok((amount, Server.FormatPhone(n).value));
    } else {
      assert Server.ValidateRequest(req) == Err(Server.MsgAmountRange);
    }
  }
}
