/**
 * The contact section's submission dispatcher (`ContactUs`, `onSubmit`).
 *
 * A submit with data the schema rejects only shows the field messages. A
 * submit with accepted data either opens a prefilled messaging link (when
 * the component's channel toggle says `whatsapp`) and succeeds at once, or
 * hands a template-parameter record to the email relay and waits for its
 * outcome. Success clears the form; an error keeps it. Every outcome
 * schedules a timer after which the status banner returns to idle.
 */
module ContactUs {
  import opened Wrappers
  import opened JsString
  import opened Validation
  import opened UriComponent
  import opened SiteContent

  // ----- what the dispatcher builds -----

  /** The plain-text message prefilled in the messaging link. */
  function WhatsAppText(d: ContactFormData): string
  {
    "Name: " + d.firstName + " " + d.lastName
    + "\nEmail: " + d.email
    + "\nPhone: " + d.mobileNumber
    + "\n\nMessage: " + d.message
  }

  /** What the link puts between the base URL and the encoded text. */
  const TextMarker: string := "&text="

  /** The messaging link as the component builds it: base URL, `&text=`, then the encoded text. */
  function WhatsAppLink(d: ContactFormData): string
  {
    WHATSAPP_URL + TextMarker + Encode(WhatsAppText(d))
  }

  /** The record handed to the email relay. */
  datatype TemplateParams = TemplateParams(
    toEmail: string,
    fromName: string,
    fromEmail: string,
    phone: string,
    message: string)

  /** The relay parameters for accepted data: the company address and the sender's fields as typed. */
  function TemplateParamsFor(d: ContactFormData): (p: TemplateParams)
    ensures p.toEmail == COMPANY_EMAIL
    ensures p.fromName == d.firstName + " " + d.lastName
    ensures p.fromEmail == d.email && p.phone == d.mobileNumber && p.message == d.message
  {
    TemplateParams(COMPANY_EMAIL, d.firstName + " " + d.lastName, d.email, d.mobileNumber, d.message)
  }

  /** Both channels carry the same content: the messaging text is laid out from the relay's parameters. */
  lemma ChannelsCarrySameContent(d: ContactFormData)
    ensures var p := TemplateParamsFor(d);
      WhatsAppText(d) == "Name: " + p.fromName + "\nEmail: " + p.fromEmail
        + "\nPhone: " + p.phone + "\n\nMessage: " + p.message
  {
  }

  /** The text parameter of the link decodes to the message text exactly. */
  lemma WhatsAppLinkRoundTrip(d: ContactFormData)
    ensures var n := |WHATSAPP_URL + TextMarker|;
      && |WhatsAppLink(d)| >= n
      && WhatsAppLink(d)[..n] == WHATSAPP_URL + TextMarker
      && Decode(WhatsAppLink(d)[n..]) == Some(WhatsAppText(d))
  {
    var n := |WHATSAPP_URL + TextMarker|;
    assert WhatsAppLink(d)[n..] == Encode(WhatsAppText(d));
    DecodeEncode(WhatsAppText(d));
  }

  /** Different messages give different links, so the link determines the text. */
  lemma WhatsAppLinkDeterminesText(d1: ContactFormData, d2: ContactFormData)
    requires WhatsAppLink(d1) == WhatsAppLink(d2)
    ensures WhatsAppText(d1) == WhatsAppText(d2)
  {
    WhatsAppLinkRoundTrip(d1);
    WhatsAppLinkRoundTrip(d2);
  }

  // ----- reading a link's query the way a URL parser does -----

  /** The position of the first `c` in `s`. */
  function IndexOf(s: string, c: char): (r: Option<nat>)
    ensures r.None? <==> c !in s
    ensures r.Some? ==> r.value < |s| && s[r.value] == c && c !in s[..r.value]
  {
    if s == [] then None
    else if s[0] == c then Some(0)
    else match IndexOf(s[1..], c)
      case None => None
      case Some(i) =>
        assert s[..i + 1] == [s[0]] + s[1..][..i];
        Some(i + 1)
  }

  /** The query part of a URL: whatever follows the first `?`, if there is one. */
  function QueryOf(url: string): Option<string>
  {
    match IndexOf(url, '?')
    case None => None
    case Some(i) => Some(url[i + 1..])
  }

  /** The raw value of the first `key=value` pair of a query. */
  function ParamOf(query: string, key: string): Option<string>
  {
    FirstValue(Split(query, '&'), key + "=")
  }

  function FirstValue(pairs: seq<string>, prefix: string): Option<string>
  {
    if pairs == [] then None
    else if prefix <= pairs[0] then Some(pairs[0][|prefix|..])
    else FirstValue(pairs[1..], prefix)
  }

  /** The raw value of parameter `key` in the query of `url`. */
  function QueryParam(url: string, key: string): Option<string>
  {
    match QueryOf(url)
    case None => None
    case Some(q) => ParamOf(q, key)
  }

  /** The messaging base URL contains neither `?` nor `&`. */
  lemma BaseUrlPlain()
    ensures '?' !in WHATSAPP_URL && '&' !in WHATSAPP_URL
  {
    assert forall i :: 0 <= i < |WHATSAPP_URL| ==> WHATSAPP_URL[i] != '?' && WHATSAPP_URL[i] != '&';
  }

  /** An encoding holds no character outside the unreserved set and `%`, hence no `?`, `&` or `=`. */
  lemma EncodeHasNoDelimiters(s: string)
    ensures '?' !in Encode(s) && '&' !in Encode(s) && '=' !in Encode(s)
  {
    EncodeAlphabet(s);
    var e := Encode(s);
    forall i | 0 <= i < |e| ensures e[i] != '?' && e[i] != '&' && e[i] != '=' {
      NotADelimiter(e[i]);
    }
  }

  /** Neither an unreserved character nor `%` is `?`, `&` or `=`. */
  lemma NotADelimiter(c: char)
    requires Unreserved(c) || c == '%'
    ensures c != '?' && c != '&' && c != '='
  {
  }

  /**
   * As written, the link has no query part at all: the base URL has no `?`,
   * so `&text=` and the text end up in the path and a URL parser finds no
   * `text` parameter.
   */
  lemma WhatsAppLinkHasNoQuery(d: ContactFormData)
    ensures '?' !in WhatsAppLink(d)
    ensures QueryOf(WhatsAppLink(d)) == None
    ensures QueryParam(WhatsAppLink(d), "text") == None
  {
    BaseUrlPlain();
    EncodeHasNoDelimiters(WhatsAppText(d));
    var link := WhatsAppLink(d);
    assert link == WHATSAPP_URL + (TextMarker + Encode(WhatsAppText(d)));
    assert '?' !in TextMarker;
  }

  /** The link with the query separator the messaging service expects. */
  function CorrectedWhatsAppLink(d: ContactFormData): string
  {
    WHATSAPP_URL + "?text=" + Encode(WhatsAppText(d))
  }

  /** A base without `?` followed by `?text=` and a value free of `?`, `&` and `=` has that value as its `text` parameter. */
  lemma TextParamOf(base: string, e: string)
    requires '?' !in base
    requires '?' !in e && '&' !in e && '=' !in e
    ensures QueryOf(base + "?text=" + e) == Some("text=" + e)
    ensures QueryParam(base + "?text=" + e, "text") == Some(e)
  {
    assert base + "?text=" + e == base + "?" + ("text=" + e);
    QueryAfterBase(base, "text=" + e);
    SingleTextPair(e);
  }

  /** The query of `base + "?" + q` is `q` when `base` has no `?`. */
  lemma QueryAfterBase(base: string, q: string)
    requires '?' !in base
    ensures QueryOf(base + "?" + q) == Some(q)
  {
    var link := base + "?" + q;
    assert link[|base|] == '?';
    assert link[..|base|] == base;
    assert IndexOf(link, '?') == Some(|base|);
    assert link[|base| + 1..] == q;
  }

  /** A query made of the one pair `text=e`, with no `&` in `e`, has `e` as its `text` value. */
  lemma SingleTextPair(e: string)
    requires '&' !in e
    ensures ParamOf("text=" + e, "text") == Some(e)
  {
    var q := "text=" + e;
    assert '&' !in q by {
      forall i | 0 <= i < |q| ensures q[i] != '&' {
        if i >= 5 { assert q[i] == e[i - 5]; }
      }
    }
    assert Split(q, '&') == [q];
    assert "text=" <= q;
    assert q[5..] == e;
  }

  /** With `?text=`, the link's `text` query parameter exists and decodes to the message text. */
  lemma CorrectedLinkCarriesText(d: ContactFormData)
    ensures QueryOf(CorrectedWhatsAppLink(d)) == Some("text=" + Encode(WhatsAppText(d)))
    ensures QueryParam(CorrectedWhatsAppLink(d), "text") == Some(Encode(WhatsAppText(d)))
    ensures Decode(QueryParam(CorrectedWhatsAppLink(d), "text").value) == Some(WhatsAppText(d))
  {
    BaseUrlPlain();
    EncodeHasNoDelimiters(WhatsAppText(d));
    TextParamOf(WHATSAPP_URL, Encode(WhatsAppText(d)));
    DecodeEncode(WhatsAppText(d));
  }

  // ----- the component's state -----

  /** The status banner. */
  datatype SubmitStatus = Idle | Succeeded | Failed

  /** The form's values after `reset()`: empty inputs and the default contact method. */
  const DefaultValues: FormValues := FormValues("", "", "", "", "", "email")

  /** The contact section: the channel toggle, the status banner, the submitting flag and the form. */
  class ContactForm {
    /** The channel toggle (component state, initially email). */
    var channel: ContactMethod
    var status: SubmitStatus
    var isSubmitting: bool
    /** The registered inputs and the form's own `contactMethod` default. */
    var values: FormValues
    /** The message shown under each failing field. */
    var errors: map<Field, string>
    /** The relay request awaiting its outcome, if any. */
    var inFlight: Option<TemplateParams>
    /** Status-reset timers scheduled and not yet fired. */
    var pendingResets: nat
    /** The links opened in a new browsing context, in order. */
    var openedLinks: seq<string>
    /**
     * The form has completed a submit attempt (react-hook-form's
     * `isSubmitted`). From then on, each change re-checks the changed field.
     */
    var submitted: bool

    /**
     * A dispatch is in flight exactly while the form is submitting, and the
     * form never edits its `contactMethod` value, so it stays `email`.
     */
    ghost predicate Valid()
      reads this
    {
      && (isSubmitting <==> inFlight.Some?)
      && values.contactMethod == "email"
    }

    /** The submit button is disabled while a submission is in progress. */
    predicate SubmitDisabled()
      reads this
    {
      isSubmitting
    }

    constructor ()
      ensures Valid()
      ensures channel == Email && status == Idle && !isSubmitting
      ensures values == DefaultValues && errors == map[] && inFlight == None
      ensures pendingResets == 0 && openedLinks == [] && !submitted
    {
      channel := Email;
      status := Idle;
      isSubmitting := false;
      values := DefaultValues;
      errors := map[];
      inFlight := None;
      pendingResets := 0;
      openedLinks := [];
      submitted := false;
    }

    /** One of the two channel buttons. */
    method SelectChannel(m: ContactMethod)
      requires Valid()
      modifies this
      ensures Valid()
      ensures channel == m
      ensures status == old(status) && isSubmitting == old(isSubmitting) && values == old(values)
      ensures errors == old(errors) && inFlight == old(inFlight)
      ensures pendingResets == old(pendingResets) && openedLinks == old(openedLinks)
      ensures submitted == old(submitted)
    {
      channel := m;
    }

    /**
     * Typing into one of the five inputs. Before any submit attempt the field
     * messages stay as they are; after one, the changed field is checked
     * again and its message is replaced by its first failure, or removed.
     */
    method Edit(f: Field, v: string, isEmail: string -> bool)
      requires Valid()
      requires f != ContactMethodField
      modifies this
      ensures Valid()
      ensures ValueOf(f, values) == v
      ensures forall g :: g != f ==> ValueOf(g, values) == ValueOf(g, old(values))
      ensures !old(submitted) ==> errors == old(errors)
      ensures old(submitted) ==>
        && (f in errors <==> Issues(f, values, isEmail) != [])
        && (f in errors ==> errors[f] == Issues(f, values, isEmail)[0])
      ensures forall g :: g != f ==> (g in errors <==> g in old(errors))
      ensures forall g :: g != f && g in errors ==> errors[g] == old(errors)[g]
      ensures channel == old(channel) && status == old(status) && isSubmitting == old(isSubmitting)
      ensures inFlight == old(inFlight) && submitted == old(submitted)
      ensures pendingResets == old(pendingResets) && openedLinks == old(openedLinks)
    {
      match f {
        case FirstNameField => values := values.(firstName := v);
        case LastNameField => values := values.(lastName := v);
        case EmailField => values := values.(email := v);
        case MobileNumberField => values := values.(mobileNumber := v);
        case MessageField => values := values.(message := v);
      }
      if submitted {
        var recheck := FieldErrors(values, isEmail);
        if f in recheck {
          errors := errors[f := recheck[f]];
        } else {
          errors := errors - {f};
        }
      }
    }

    /**
     * Submitting the form. A disabled button does nothing; rejected data
     * only updates the field messages; accepted data is dispatched on the
     * toggle's channel (not on the form's `contactMethod` field). The
     * attempt counts as completed once `onSubmit` has returned: at once for
     * rejected data and the messaging channel, at the relay's outcome for
     * the email channel.
     */
    method Submit(isEmail: string -> bool)
      requires Valid()
      modifies this
      ensures Valid()
      ensures channel == old(channel)
      ensures old(isSubmitting) ==>
        && status == old(status) && isSubmitting && values == old(values) && errors == old(errors)
        && inFlight == old(inFlight) && pendingResets == old(pendingResets) && openedLinks == old(openedLinks)
        && submitted == old(submitted)
      ensures !old(isSubmitting) && Validate(old(values), isEmail).Failure? ==>
        && errors == Validate(old(values), isEmail).error
        && status == old(status) && !isSubmitting && values == old(values) && inFlight == None
        && pendingResets == old(pendingResets) && openedLinks == old(openedLinks) && submitted
      ensures !old(isSubmitting) && Validate(old(values), isEmail).Success? && old(channel) == WhatsApp ==>
        && errors == map[] && status == Succeeded && !isSubmitting && values == DefaultValues
        && inFlight == None && pendingResets == old(pendingResets) + 1
        && openedLinks == old(openedLinks) + [WhatsAppLink(Validate(old(values), isEmail).value)]
        && submitted
      ensures !old(isSubmitting) && Validate(old(values), isEmail).Success? && old(channel) == Email ==>
        && errors == map[] && status == Idle && isSubmitting && values == old(values)
        && inFlight == Some(TemplateParamsFor(Validate(old(values), isEmail).value))
        && pendingResets == old(pendingResets) && openedLinks == old(openedLinks)
        && submitted == old(submitted)
    {
      if isSubmitting {
        return;
      }
      match Validate(values, isEmail)
      case Failure(errs) =>
        errors := errs;
        submitted := true;
      case Success(data) =>
        errors := map[];
        isSubmitting := true;
        status := Idle;
        if channel == WhatsApp {
          openedLinks := openedLinks + [WhatsAppLink(data)];
          status := Succeeded;
          values := DefaultValues;
          pendingResets := pendingResets + 1;
          isSubmitting := false;
          submitted := true;
        } else {
          inFlight := Some(TemplateParamsFor(data));
        }
    }

    /**
     * The relay's outcome for the request in flight: success resets the form
     * (values and messages), failure keeps it; the submit attempt completes.
     */
    method RelayOutcome(delivered: bool)
      requires Valid()
      requires inFlight.Some?
      modifies this
      ensures Valid()
      ensures status == (if delivered then Succeeded else Failed)
      ensures values == (if delivered then DefaultValues else old(values))
      ensures errors == (if delivered then map[] else old(errors))
      ensures !isSubmitting && inFlight == None && pendingResets == old(pendingResets) + 1 && submitted
      ensures channel == old(channel) && openedLinks == old(openedLinks)
    {
      if delivered {
        status := Succeeded;
        values := DefaultValues;
        errors := map[];
      } else {
        status := Failed;
      }
      pendingResets := pendingResets + 1;
      isSubmitting := false;
      inFlight := None;
      submitted := true;
    }

    /** A scheduled status reset fires: the banner returns to idle. */
    method ResetTimerFires()
      requires Valid()
      requires pendingResets > 0
      modifies this
      ensures Valid()
      ensures status == Idle && pendingResets == old(pendingResets) - 1
      ensures channel == old(channel) && isSubmitting == old(isSubmitting) && values == old(values)
      ensures errors == old(errors) && inFlight == old(inFlight) && openedLinks == old(openedLinks)
      ensures submitted == old(submitted)
    {
      status := Idle;
      pendingResets := pendingResets - 1;
    }
  }

  /** An email address check for the walkthroughs below. */
  function SomeEmailCheck(s: string): bool
  {
    s == "john@example.com"
  }

  /** A complete, valid set of inputs. */
  const Sample: FormValues := FormValues("John", "Doe", "john@example.com", "9876543210", "Hello, I need training info.", "email")

  /** The sample is accepted and parsed into the record the dispatcher sends. */
  lemma SampleAccepted()
    ensures Validate(Sample, SomeEmailCheck) == Success(ContactFormData("John", "Doe", "john@example.com", "9876543210", "Hello, I need training info.", Email))
  {
    SampleNamesOk();
    SampleContactOk();
    SampleMessageOk();
    ValidateAcceptsIffEveryFieldOk(Sample, SomeEmailCheck);
  }

  lemma SampleNamesOk()
    ensures NameOk("John") && NameOk("Doe")
  {
    assert forall i :: 0 <= i < 4 ==> IsAsciiLetter("John"[i]);
    assert forall i :: 0 <= i < 3 ==> IsAsciiLetter("Doe"[i]);
  }

  lemma SampleContactOk()
    ensures EmailOk("john@example.com", SomeEmailCheck) && MobileOk("9876543210")
  {
    SampleEmailLength();
    SampleMobileDigits();
  }

  lemma SampleEmailLength()
    ensures Utf16Length("john@example.com") <= EmailMaxLength
  {
    Utf16LengthBounds("john@example.com");
  }

  lemma SampleMobileDigits()
    ensures AllDigits("9876543210")
  {
    assert forall i :: 0 <= i < 10 ==> IsAsciiDigit("9876543210"[i]);
  }

  lemma SampleMessageOk()
    ensures MessageOk("Hello, I need training info.")
  {
    var m := "Hello, I need training info.";
    assert forall i :: 0 <= i < |m| ==> IsAsciiLetter(m[i]) || m[i] == ' ' || m[i] == ',' || m[i] == '.';
  }

  /** The relay record of the sample. */
  const SampleParams: TemplateParams :=
    TemplateParams(COMPANY_EMAIL, "John Doe", "john@example.com", "9876543210", "Hello, I need training info.")

  /** Submitting the sample on the email channel puts its relay record in flight. */
  method SubmitSampleByEmail(form: ContactForm)
    requires form.Valid() && form.values == Sample && !form.isSubmitting && form.channel == Email
    modifies form
    ensures form.Valid() && form.isSubmitting && form.inFlight == Some(SampleParams)
    ensures form.status == Idle && form.values == Sample && form.errors == map[] && form.channel == Email
    ensures form.pendingResets == old(form.pendingResets) && form.openedLinks == old(form.openedLinks)
  {
    SampleAccepted();
    form.Submit(SomeEmailCheck);
    assert "John" + " " + "Doe" == "John Doe";
  }

  /** The walkthrough of a valid email submission whose relay succeeds, then fails on a second try. */
  method EmailWalkthrough()
  {
    var form := new ContactForm();
    FillSample(form);
    SubmitSampleByEmail(form);
    assert form.SubmitDisabled();
    form.Submit(SomeEmailCheck);
    assert form.inFlight == Some(SampleParams);
    form.RelayOutcome(true);
    assert form.status == Succeeded && form.values == DefaultValues && !form.isSubmitting;
    form.ResetTimerFires();
    assert form.status == Idle;

    FillSample(form);
    SubmitSampleByEmail(form);
    form.RelayOutcome(false);
    assert form.status == Failed && form.values == Sample && !form.isSubmitting;
    form.ResetTimerFires();
    assert form.status == Idle && form.values == Sample;
  }

  /** The walkthrough of a valid submission on the messaging channel: one link opened, form cleared. */
  method WhatsAppWalkthrough()
  {
    var form := new ContactForm();
    form.SelectChannel(WhatsApp);
    FillSample(form);
    SampleAccepted();
    form.Submit(SomeEmailCheck);
    assert form.openedLinks == [WhatsAppLink(ContactFormData("John", "Doe", "john@example.com", "9876543210", "Hello, I need training info.", Email))];
    assert form.status == Succeeded && form.values == DefaultValues && form.inFlight == None;
  }

  /** Types the sample into the five inputs of a form whose values are at their defaults. */
  method FillSample(form: ContactForm)
    requires form.Valid()
    requires form.values.contactMethod == "email"
    modifies form
    ensures form.Valid() && form.values == Sample
    ensures form.channel == old(form.channel) && form.status == old(form.status)
    ensures form.isSubmitting == old(form.isSubmitting) && form.inFlight == old(form.inFlight)
    ensures !old(form.submitted) ==> form.errors == old(form.errors)
    ensures form.pendingResets == old(form.pendingResets) && form.submitted == old(form.submitted)
    ensures form.openedLinks == old(form.openedLinks)
  {
    form.Edit(FirstNameField, "John", SomeEmailCheck);
    form.Edit(LastNameField, "Doe", SomeEmailCheck);
    form.Edit(EmailField, "john@example.com", SomeEmailCheck);
    form.Edit(MobileNumberField, "9876543210", SomeEmailCheck);
    form.Edit(MessageField, "Hello, I need training info.", SomeEmailCheck);
    assert ValueOf(ContactMethodField, form.values) == "email";
  }

  /**
   * A one-letter first name is rejected with the too-short message and
   * nothing is dispatched; correcting it to two letters clears the message
   * at once, and shortening it again brings the message back.
   */
  method RejectedWalkthrough()
  {
    var form := new ContactForm();
    form.Edit(FirstNameField, "J", SomeEmailCheck);
    assert form.errors == map[];
    OneCharacterFirstName(form.values, SomeEmailCheck);
    form.Submit(SomeEmailCheck);
    assert form.errors[FirstNameField] == FirstNameTooShort;
    assert form.inFlight == None && form.openedLinks == [] && form.status == Idle;

    form.Edit(FirstNameField, "Jo", SomeEmailCheck);
    TwoLetterNameOk();
    FieldRules(form.values, SomeEmailCheck);
    assert FirstNameField !in form.errors;

    form.Edit(FirstNameField, "J", SomeEmailCheck);
    OneCharacterFirstName(form.values, SomeEmailCheck);
    assert form.errors[FirstNameField] == FirstNameTooShort;
  }

  lemma TwoLetterNameOk()
    ensures NameOk("Jo")
  {
    assert IsAsciiLetter("Jo"[0]) && IsAsciiLetter("Jo"[1]);
  }
}
