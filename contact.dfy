/**
 * src/pages/Contact.js: the contact form. Its three fields are validated by the
 * rules registered with react-hook-form; a valid submission is turned into a
 * `mailto:` URI (section 2 of RFC 6068) addressed to the campaign, whose subject and
 * body are percent-encoded, and the form is then reset with its success flag set.
 */
module Contact {
  import opened Wrappers
  import opened JsText
  import UriComponent

  const ContactEmail := "info@kabebajush.co.ke"

  // ---------------------------------------------------------------------------
  // The e-mail pattern `^[A-Z0-9._%+-]+@[A-Z0-9.-]+\.[A-Z]{2,}$` with the `i` flag

  predicate IsLocalChar(c: char) {
    IsAsciiLetter(c) || IsDigit(c) || c == '.' || c == '_' || c == '%' || c == '+' || c == '-'
  }

  predicate IsDomainChar(c: char) { IsAsciiLetter(c) || IsDigit(c) || c == '.' || c == '-' }

  predicate AllLocal(s: string) { forall i :: 0 <= i < |s| ==> IsLocalChar(s[i]) }
  predicate AllDomain(s: string) { forall i :: 0 <= i < |s| ==> IsDomainChar(s[i]) }
  predicate AllLetters(s: string) { forall i :: 0 <= i < |s| ==> IsAsciiLetter(s[i]) }

  /** `s` splits at `at` (the `@`) and `dot` (the last `.`) into the pattern's four parts. */
  predicate EmailSplit(s: string, at: int, dot: int) {
    && 0 < at < dot < |s|
    && s[at] == '@' && s[dot] == '.'
    && AllLocal(s[..at])
    && at + 1 < dot && AllDomain(s[at + 1..dot])
    && |s| - (dot + 1) >= 2 && AllLetters(s[dot + 1..])
  }

  /** The language of the pattern: some choice of `@` and `.` splits the string as the pattern says. */
  ghost predicate MatchesEmailPattern(s: string) {
    exists at, dot :: EmailSplit(s, at, dot)
  }

  function FirstIndexOf(s: string, c: char): (r: Option<nat>)
    ensures r.Some? ==> r.value < |s| && s[r.value] == c && forall i :: 0 <= i < r.value ==> s[i] != c
    ensures r.None? ==> forall i :: 0 <= i < |s| ==> s[i] != c
  {
    if s == [] then None
    else if s[0] == c then Some(0)
    else match FirstIndexOf(s[1..], c)
      case None => None
      case Some(i) => Some(i + 1)
  }

  function LastIndexOf(s: string, c: char): (r: Option<nat>)
    ensures r.Some? ==> r.value < |s| && s[r.value] == c && forall i :: r.value < i < |s| ==> s[i] != c
    ensures r.None? ==> forall i :: 0 <= i < |s| ==> s[i] != c
  {
    if s == [] then None
    else if s[|s| - 1] == c then Some(|s| - 1)
    else LastIndexOf(s[..|s| - 1], c)
  }

  /**
   * The test the form runs: the local part ends at the only possible `@` (local
   * characters exclude it), and the top-level domain starts after the last `.`
   * (it is letters only).
   */
  predicate IsValidEmail(s: string) {
    var at, dot := FirstIndexOf(s, '@'), LastIndexOf(s, '.');
    at.Some? && dot.Some? && EmailSplit(s, at.value, dot.value)
  }

  /** The test accepts exactly the strings of the pattern's language. */
  lemma IsValidEmailMatchesPattern(s: string)
    ensures IsValidEmail(s) <==> MatchesEmailPattern(s)
  {
    if MatchesEmailPattern(s) {
      var a, d :| EmailSplit(s, a, d);
      assert FirstIndexOf(s, '@') == Some(a) by {
        assert forall i :: 0 <= i < a ==> s[i] == s[..a][i];
      }
      assert LastIndexOf(s, '.') == Some(d) by {
        assert forall i :: d < i < |s| ==> s[i] == s[d + 1..][i - d - 1];
      }
    }
  }

  // ---------------------------------------------------------------------------
  // The browser's own check of an `<input type="email">`: the "valid e-mail address"
  // of the WHATWG HTML standard (section 4.10.5.1.5), a local part of the characters
  // below, an `@`, and a host name of dot-separated labels

  predicate IsHtmlLocalChar(c: char) {
    IsAsciiLetter(c) || IsDigit(c) || c in ".!#$%&'*+/=?^_`{|}~-"
  }

  predicate AllHtmlLocal(s: string) { forall i :: 0 <= i < |s| ==> IsHtmlLocalChar(s[i]) }

  predicate IsLabelChar(c: char) { IsAsciiLetter(c) || IsDigit(c) || c == '-' }

  /** One label: 1 to 63 letters, digits and hyphens, neither starting nor ending with a hyphen. */
  predicate IsLabel(s: string) {
    && 1 <= |s| <= 63
    && (forall i :: 0 <= i < |s| ==> IsLabelChar(s[i]))
    && s[0] != '-' && s[|s| - 1] != '-'
  }

  /** Labels separated by single dots. */
  predicate IsHostname(s: string)
    decreases |s|
  {
    match FirstIndexOf(s, '.')
    case None => IsLabel(s)
    case Some(k) => IsLabel(s[..k]) && IsHostname(s[k + 1..])
  }

  /** The address splits at position `a` into a local part, the `@` and a host name. */
  predicate HtmlEmailAt(s: string, a: int) {
    0 < a < |s| && s[a] == '@' && AllHtmlLocal(s[..a]) && IsHostname(s[a + 1..])
  }

  /** The browser's test, splitting at the first `@` (the local part cannot hold one). */
  predicate HtmlValidEmail(s: string) {
    match FirstIndexOf(s, '@')
    case None => false
    case Some(a) => HtmlEmailAt(s, a)
  }

  /** The standard's grammar: some `@` splits the address into a local part and a host name. */
  ghost predicate MatchesHtmlEmail(s: string) {
    exists a :: HtmlEmailAt(s, a)
  }

  /** The browser's test accepts exactly the addresses of the grammar. */
  lemma HtmlValidEmailMatchesGrammar(s: string)
    ensures HtmlValidEmail(s) <==> MatchesHtmlEmail(s)
  {
    if MatchesHtmlEmail(s) {
      var a :| HtmlEmailAt(s, a);
      assert FirstIndexOf(s, '@') == Some(a) by {
        assert forall i :: 0 <= i < a ==> s[i] == s[..a][i];
      }
    }
  }

  /** A host name neither starts nor ends with a dot and never holds two dots in a row. */
  lemma {:induction false} HostnameHasNoEmptyLabel(s: string)
    requires IsHostname(s)
    ensures s != [] && s[0] != '.' && s[|s| - 1] != '.'
    ensures forall i :: 0 <= i < |s| - 1 ==> !(s[i] == '.' && s[i + 1] == '.')
    decreases |s|
  {
    match FirstIndexOf(s, '.')
    case None =>
    case Some(k) =>
      var t := s[k + 1..];
      HostnameHasNoEmptyLabel(t);
      forall i | 0 <= i < |s| - 1
        ensures !(s[i] == '.' && s[i + 1] == '.')
      {
        if i > k { assert s[i] == t[i - k - 1] && s[i + 1] == t[i - k]; }
        else if i == k { assert s[i + 1] == t[0]; }
      }
      assert s[|s| - 1] == t[|t| - 1];
  }

  /** The form's pattern lets a host name with two dots in a row through; the browser does not. */
  lemma DoubleDotPassesPatternOnly()
    ensures IsValidEmail("a@b..cd")
    ensures !HtmlValidEmail("a@b..cd")
  {
    var s := "a@b..cd";
    assert EmailSplit(s, 1, 4);
    var h := s[2..];
    assert FirstIndexOf(s, '@') == Some(1);
    assert FirstIndexOf(h, '.') == Some(1);
    assert FirstIndexOf(h[2..], '.') == Some(0);
    assert !IsLabel(h[2..][..0]);
  }

  /** Likewise a label starting with a hyphen. */
  lemma LeadingHyphenPassesPatternOnly()
    ensures IsValidEmail("a@-b.cd")
    ensures !HtmlValidEmail("a@-b.cd")
  {
    var s := "a@-b.cd";
    assert EmailSplit(s, 1, 4);
    assert FirstIndexOf(s, '@') == Some(1);
    assert FirstIndexOf(s[2..], '.') == Some(2);
    assert !IsLabel(s[2..][..2]);
  }

  // ---------------------------------------------------------------------------
  // Field rules, checked in the order required, minLength, pattern

  datatype ContactData = ContactData(name: string, email: string, message: string)

  /** The first failing rule of each field, as react-hook-form reports it in `errors`. */
  datatype FieldErrors = FieldErrors(name: Option<string>, email: Option<string>, message: Option<string>)

  function NameError(name: string): (r: Option<string>)
    ensures r.None? <==> |name| >= 2
  {
    if name == "" then Some("Name is required")
    else if |name| < 2 then Some("Name must be at least 2 characters")
    else None
  }

  function EmailError(email: string): (r: Option<string>)
    ensures r.None? <==> email != "" && MatchesEmailPattern(email)
  {
    IsValidEmailMatchesPattern(email);
    if email == "" then Some("Email is required")
    else if !IsValidEmail(email) then Some("Please enter a valid email address")
    else None
  }

  function MessageError(message: string): (r: Option<string>)
    ensures r.None? <==> |message| >= 10
  {
    if message == "" then Some("Message is required")
    else if |message| < 10 then Some("Message must be at least 10 characters")
    else None
  }

  function Validate(d: ContactData): FieldErrors {
    FieldErrors(NameError(d.name), EmailError(d.email), MessageError(d.message))
  }

  predicate NoErrors(e: FieldErrors) { e.name.None? && e.email.None? && e.message.None? }

  // ---------------------------------------------------------------------------
  // The message and the link

  const SubjectPrefix := "Contact Form Message from "
  const Footer := "\n\n---\nThis message was sent from the Kabeba Campaign website contact form."

  function Subject(d: ContactData): (r: string)
    ensures |r| == |SubjectPrefix| + |d.name| && r[|SubjectPrefix|..] == d.name
  {
    SubjectPrefix + d.name
  }

  /** The body template: name, e-mail and message in that order, then the footer. */
  function Body(d: ContactData): string {
    "Name: " + d.name + "\nEmail: " + d.email + "\n\nMessage:\n" + d.message + Footer
  }

  const LinkHead := "mailto:" + ContactEmail + "?subject="
  const BodyField := "&body="

  function MailtoLink(subject: string, body: string): (r: string)
    ensures StartsWith(r, LinkHead)
  {
    LinkHead + UriComponent.Encode(subject) + BodyField + UriComponent.Encode(body)
  }

  /**
   * Reading a link back: the subject runs to the first `&`, the body follows `&body=`,
   * and both are percent-decoded. None for anything else.
   */
  function ParseMailto(link: string): Option<(string, string)> {
    if !StartsWith(link, LinkHead) then None
    else
      var rest := link[|LinkHead|..];
      match FirstIndexOf(rest, '&')
      case None => None
      case Some(i) =>
        var tail := rest[i..];
        if !StartsWith(tail, BodyField) then None
        else
          var subject, body := UriComponent.Decode(rest[..i]), UriComponent.Decode(tail[|BodyField|..]);
          if subject.Some? && body.Some? then Some((subject.value, body.value)) else None
  }

  /** In `a + b`, where `a` has no `c` and `b` starts with it, the first `c` is where `b` starts. */
  lemma FirstIndexAtJoin(a: string, b: string, c: char)
    requires forall i :: 0 <= i < |a| ==> a[i] != c
    requires |b| > 0 && b[0] == c
    ensures FirstIndexOf(a + b, c) == Some(|a|)
  {
    var s := a + b;
    assert s[|a|] == c;
    var r := FirstIndexOf(s, c);
    assert forall i :: 0 <= i < |a| ==> s[i] == a[i];
  }

  /**
   * A link built from a subject part without `&` and any body part is read back as
   * the decodings of the two parts.
   */
  lemma ParseLinkParts(es: string, eb: string)
    requires forall i :: 0 <= i < |es| ==> es[i] != '&'
    ensures var s, b := UriComponent.Decode(es), UriComponent.Decode(eb);
      ParseMailto(LinkHead + es + BodyField + eb) == if s.Some? && b.Some? then Some((s.value, b.value)) else None
  {
    var link := LinkHead + es + BodyField + eb;
    var tail := BodyField + eb;
    var rest := es + tail;
    assert link == LinkHead + rest;
    assert StartsWith(link, LinkHead) && link[|LinkHead|..] == rest;
    FirstIndexAtJoin(es, tail, '&');
    assert rest[..|es|] == es && rest[|es|..] == tail;
    assert StartsWith(tail, BodyField) && tail[|BodyField|..] == eb;
  }

  /** The link's query gives back exactly the subject and the body, whatever characters they hold. */
  lemma MailtoRoundTrip(subject: string, body: string)
    ensures ParseMailto(MailtoLink(subject, body)) == Some((subject, body))
  {
    ParseLinkParts(UriComponent.Encode(subject), UriComponent.Encode(body));
    UriComponent.RoundTrip(subject);
    UriComponent.RoundTrip(body);
  }

  // ---------------------------------------------------------------------------
  // Submission

  /** The form's values and its `submitted` flag. */
  datatype ContactForm = ContactForm(data: ContactData, submitted: bool)

  /**
   * What a submission produces: nothing, when the browser refuses the e-mail field
   * before the form's handler runs; the field errors shown; or the link opened and
   * the reset form.
   */
  datatype SubmitResult = Blocked | Invalid(errors: FieldErrors) | Opened(link: string, form: ContactForm)

  /**
   * Submitting the form: the browser first checks the non-empty e-mail field against
   * its own grammar (the form does not opt out of that check) and on failure fires no
   * submit event; then `handleSubmit(onSubmit)` runs the field rules and, with no
   * errors, the link is opened for the subject and body of the data, the fields are
   * cleared and `submitted` is set.
   */
  function Submit(form: ContactForm): (r: SubmitResult)
    ensures r.Blocked? <==> form.data.email != "" && !MatchesHtmlEmail(form.data.email)
    ensures r.Invalid? <==> !r.Blocked? &&
                            !(|form.data.name| >= 2 && form.data.email != "" && MatchesEmailPattern(form.data.email)
                              && |form.data.message| >= 10)
    ensures r.Invalid? ==> r.errors == Validate(form.data)
    ensures r.Opened? ==>
              && MatchesHtmlEmail(form.data.email) && MatchesEmailPattern(form.data.email)
              && r.form == ContactForm(ContactData("", "", ""), true)
              && ParseMailto(r.link) == Some((SubjectPrefix + form.data.name, Body(form.data)))
  {
    HtmlValidEmailMatchesGrammar(form.data.email);
    var errors := Validate(form.data);
    if form.data.email != "" && !HtmlValidEmail(form.data.email) then Blocked
    else if !NoErrors(errors) then Invalid(errors)
    else
      var link := MailtoLink(Subject(form.data), Body(form.data));
      MailtoRoundTrip(Subject(form.data), Body(form.data));
      Opened(link, ContactForm(ContactData("", "", ""), true))
  }
}
