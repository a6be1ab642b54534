/**
 * The contact form's validation schema (`contactFormSchema`).
 *
 * Each field is checked on its own; a zod string field runs every check in
 * the order written and reports every failure, and the form resolver shows
 * the FIRST reported message of each failing field. Lengths are JavaScript
 * `.length` values (UTF-16 code units). The email syntax check is a library
 * regular expression that is not part of this model, so it is a parameter
 * `isEmail` of every member that needs it.
 */
module Validation {
  import opened JsString
  import opened Wrappers

  /** The fields of the form, keyed as in `ContactFormData`. */
  datatype Field =
    | FirstNameField
    | LastNameField
    | EmailField
    | MobileNumberField
    | MessageField
    | ContactMethodField

  /** The two accepted values of `contactMethod`. */
  datatype ContactMethod = Email | WhatsApp

  /** The raw string values the form holds. */
  datatype FormValues = FormValues(
    firstName: string,
    lastName: string,
    email: string,
    mobileNumber: string,
    message: string,
    contactMethod: string)

  /** A record that passed the schema (`ContactFormData`). */
  datatype ContactFormData = ContactFormData(
    firstName: string,
    lastName: string,
    email: string,
    mobileNumber: string,
    message: string,
    contactMethod: ContactMethod)

  const AllFields: set<Field> :=
    {FirstNameField, LastNameField, EmailField, MobileNumberField, MessageField, ContactMethodField}

  lemma AllFieldsComplete(f: Field)
    ensures f in AllFields
  {
  }

  // ----- the schema's constants and messages -----

  const NameMinLength := 2
  const NameMaxLength := 50
  const EmailMaxLength := 100
  const MessageMinLength := 10
  const MessageMaxLength := 1000

  const FirstNameTooShort := "First name must be at least 2 characters"
  const FirstNameTooLong := "First name must be less than 50 characters"
  const FirstNameBadChars := "First name can only contain letters, spaces, hyphens, and apostrophes"
  const LastNameTooShort := "Last name must be at least 2 characters"
  const LastNameTooLong := "Last name must be less than 50 characters"
  const LastNameBadChars := "Last name can only contain letters, spaces, hyphens, and apostrophes"
  const EmailInvalid := "Please enter a valid email address"
  const EmailTooLong := "Email must be less than 100 characters"
  const MobileNotTenDigits := "Mobile number must be exactly 10 digits"
  /** The `+91` alternative's message; the union never reports it (see `MobileIssues`). */
  const MobileNotIndian := "Mobile number must be valid Indian format"
  const MessageTooShort := "Message must be at least 10 characters"
  const MessageTooLong := "Message must be less than 1000 characters"
  const MessageBadChars := "Message contains invalid characters"

  /** zod's default message for a value outside an enum. */
  function InvalidEnum(received: string): string
  {
    "Invalid enum value. Expected 'email' | 'whatsapp', received '" + received + "'"
  }

  // ----- character classes of the regular expressions -----

  /** A character of `[a-zA-Z\s'-]`. */
  predicate NameChar(c: char)
  {
    IsAsciiLetter(c) || IsWhitespace(c) || c == '\'' || c == '-'
  }

  /** A character of `[a-zA-Z0-9\s.,!?'-]`. */
  predicate MessageChar(c: char)
  {
    IsAsciiLetter(c) || IsAsciiDigit(c) || IsWhitespace(c) || c in ".,!?'-"
  }

  /** `/^[a-zA-Z\s'-]*$/.test(s)` */
  predicate MatchesNamePattern(s: string)
  {
    forall i :: 0 <= i < |s| ==> NameChar(s[i])
  }

  /** `/^[a-zA-Z0-9\s.,!?'-]*$/.test(s)` */
  predicate MatchesMessagePattern(s: string)
  {
    forall i :: 0 <= i < |s| ==> MessageChar(s[i])
  }

  /** True when every character of `s` is an ASCII digit. */
  predicate AllDigits(s: string)
  {
    forall i :: 0 <= i < |s| ==> IsAsciiDigit(s[i])
  }

  /** `/^[0-9]{10}$/.test(s)` */
  predicate MatchesTenDigits(s: string)
  {
    |s| == 10 && AllDigits(s)
  }

  /** `/^\+91[0-9]{10}$/.test(s)` */
  predicate MatchesIndianFormat(s: string)
  {
    |s| == 13 && s[..3] == "+91" && AllDigits(s[3..])
  }

  // ----- the failures each field reports, in the order the schema lists its checks -----

  /** The checks `.min(2).max(50).regex(name)` that `s` fails, as their messages. */
  function NameIssues(s: string, tooShort: string, tooLong: string, badChars: string): seq<string>
  {
    (if Utf16Length(s) < NameMinLength then [tooShort] else [])
    + (if Utf16Length(s) > NameMaxLength then [tooLong] else [])
    + (if !MatchesNamePattern(s) then [badChars] else [])
  }

  /** The checks `.email().max(100)` that `s` fails. */
  function EmailIssues(s: string, isEmail: string -> bool): seq<string>
  {
    (if !isEmail(s) then [EmailInvalid] else [])
    + (if Utf16Length(s) > EmailMaxLength then [EmailTooLong] else [])
  }

  /**
   * The union `tenDigits.or(indianFormat)`: nothing when either alternative
   * matches. Otherwise zod reports the failures of the first alternative
   * only (a failed regex check leaves that alternative "dirty", and a union
   * with no valid alternative returns its first dirty one), so the
   * `+91` alternative's message is never reported.
   */
  function MobileIssues(s: string): seq<string>
  {
    if MatchesTenDigits(s) || MatchesIndianFormat(s) then []
    else [MobileNotTenDigits]
  }

  /** The checks `.min(10).max(1000).regex(message)` that `s` fails. */
  function MessageIssues(s: string): seq<string>
  {
    (if Utf16Length(s) < MessageMinLength then [MessageTooShort] else [])
    + (if Utf16Length(s) > MessageMaxLength then [MessageTooLong] else [])
    + (if !MatchesMessagePattern(s) then [MessageBadChars] else [])
  }

  /** `z.enum(['email', 'whatsapp'])` */
  function ParseContactMethod(s: string): (r: Result<ContactMethod, string>)
    ensures r == Success(Email) <==> s == "email"
    ensures r == Success(WhatsApp) <==> s == "whatsapp"
    ensures r.Failure? ==> r.error == InvalidEnum(s)
  {
    if s == "email" then Success(Email)
    else if s == "whatsapp" then Success(WhatsApp)
    else Failure(InvalidEnum(s))
  }

  /** The raw value of field `f`; `contactMethod` is the only non-string field. */
  function Issues(f: Field, raw: FormValues, isEmail: string -> bool): seq<string>
  {
    match f
    case FirstNameField => NameIssues(raw.firstName, FirstNameTooShort, FirstNameTooLong, FirstNameBadChars)
    case LastNameField => NameIssues(raw.lastName, LastNameTooShort, LastNameTooLong, LastNameBadChars)
    case EmailField => EmailIssues(raw.email, isEmail)
    case MobileNumberField => MobileIssues(raw.mobileNumber)
    case MessageField => MessageIssues(raw.message)
    case ContactMethodField =>
      match ParseContactMethod(raw.contactMethod)
      case Success(_) => []
      case Failure(e) => [e]
  }

  /** The value that field `f` holds in `raw`, as the user typed it. */
  function ValueOf(f: Field, raw: FormValues): string
  {
    match f
    case FirstNameField => raw.firstName
    case LastNameField => raw.lastName
    case EmailField => raw.email
    case MobileNumberField => raw.mobileNumber
    case MessageField => raw.message
    case ContactMethodField => raw.contactMethod
  }

  /** The failures of a field depend on that field's value alone. */
  lemma IssuesDependOnOwnField(f: Field, raw1: FormValues, raw2: FormValues, isEmail: string -> bool)
    requires ValueOf(f, raw1) == ValueOf(f, raw2)
    ensures Issues(f, raw1, isEmail) == Issues(f, raw2, isEmail)
  {
  }

  /** The resolver's error map: the first message of every failing field. */
  function FieldErrors(raw: FormValues, isEmail: string -> bool): (errors: map<Field, string>)
    ensures forall f :: f in errors <==> Issues(f, raw, isEmail) != []
    ensures forall f :: f in errors ==> errors[f] == Issues(f, raw, isEmail)[0]
  {
    var errors := map f | f in AllFields && Issues(f, raw, isEmail) != [] :: Issues(f, raw, isEmail)[0];
    assert forall f :: f in errors <==> Issues(f, raw, isEmail) != [] by {
      forall f ensures f in errors <==> Issues(f, raw, isEmail) != [] { AllFieldsComplete(f); }
    }
    errors
  }

  /**
   * `contactFormSchema` through the form resolver: the typed record when no
   * field fails, otherwise the first message of every failing field.
   */
  function Validate(raw: FormValues, isEmail: string -> bool): (r: Result<ContactFormData, map<Field, string>>)
    ensures r.Success? <==> forall f :: Issues(f, raw, isEmail) == []
    ensures r.Success? ==>
      && r.value.firstName == raw.firstName && r.value.lastName == raw.lastName
      && r.value.email == raw.email && r.value.mobileNumber == raw.mobileNumber
      && r.value.message == raw.message
      && ParseContactMethod(raw.contactMethod) == Success(r.value.contactMethod)
    ensures r.Failure? ==> forall f ::
      && (f in r.error <==> Issues(f, raw, isEmail) != [])
      && (f in r.error ==> r.error[f] == Issues(f, raw, isEmail)[0])
  {
    var errors := FieldErrors(raw, isEmail);
    match ParseContactMethod(raw.contactMethod)
    case Success(m) =>
      if errors == map[] then
        Success(ContactFormData(raw.firstName, raw.lastName, raw.email, raw.mobileNumber, raw.message, m))
      else
        Failure(errors)
    case Failure(_) =>
      assert ContactMethodField in errors;
      Failure(errors)
  }

  /** None of the six fields fails a check. */
  predicate NoIssues(raw: FormValues, isEmail: string -> bool)
  {
    && Issues(FirstNameField, raw, isEmail) == []
    && Issues(LastNameField, raw, isEmail) == []
    && Issues(EmailField, raw, isEmail) == []
    && Issues(MobileNumberField, raw, isEmail) == []
    && Issues(MessageField, raw, isEmail) == []
    && Issues(ContactMethodField, raw, isEmail) == []
  }

  /** The message shown next to field `f`, if any. */
  function ErrorOf(r: Result<ContactFormData, map<Field, string>>, f: Field): Option<string>
  {
    match r
    case Success(_) => None
    case Failure(errors) => if f in errors then Some(errors[f]) else None
  }

  // ----- the rules in the words of the schema -----

  /** A name: 2 to 50 characters, each an ASCII letter, whitespace, `'` or `-`. */
  predicate NameOk(s: string)
  {
    NameMinLength <= |s| <= NameMaxLength && MatchesNamePattern(s)
  }

  /** An email: accepted by the email syntax check and at most 100 characters long. */
  predicate EmailOk(s: string, isEmail: string -> bool)
  {
    isEmail(s) && Utf16Length(s) <= EmailMaxLength
  }

  /** A mobile number: ten ASCII digits, or `+91` followed by ten ASCII digits. */
  predicate MobileOk(s: string)
  {
    || (|s| == 10 && AllDigits(s))
    || (|s| == 13 && s[0] == '+' && s[1] == '9' && s[2] == '1' && AllDigits(s[3..]))
  }

  /** A message: 10 to 1000 characters from letters, digits, whitespace and `. , ! ? ' -`. */
  predicate MessageOk(s: string)
  {
    MessageMinLength <= |s| <= MessageMaxLength && MatchesMessagePattern(s)
  }

  /** A contact method: exactly `email` or `whatsapp`. */
  predicate ContactMethodOk(s: string)
  {
    s == "email" || s == "whatsapp"
  }

  /** Every character of the name and message classes is one UTF-16 code unit, so `.length` is the character count. */
  lemma PatternLength(s: string)
    requires MatchesNamePattern(s) || MatchesMessagePattern(s)
    ensures Utf16Length(s) == |s|
  {
    forall i | 0 <= i < |s| ensures InBmp(s[i]) {
      if MatchesNamePattern(s) { NameCharInBmp(s[i]); } else { MessageCharInBmp(s[i]); }
    }
    Utf16LengthBounds(s);
  }

  lemma NameCharInBmp(c: char)
    requires NameChar(c)
    ensures InBmp(c)
  {
    if IsWhitespace(c) { WhitespaceInBmp(c); }
  }

  lemma MessageCharInBmp(c: char)
    requires MessageChar(c)
    ensures InBmp(c)
  {
    if IsWhitespace(c) { WhitespaceInBmp(c); }
  }

  /** A name field fails no check exactly when the name is acceptable. */
  lemma NameRule(s: string, tooShort: string, tooLong: string, badChars: string)
    ensures NameIssues(s, tooShort, tooLong, badChars) == [] <==> NameOk(s)
  {
    if MatchesNamePattern(s) { PatternLength(s); }
  }

  /** The message field fails no check exactly when the message is acceptable. */
  lemma MessageRule(s: string)
    ensures MessageIssues(s) == [] <==> MessageOk(s)
  {
    if MatchesMessagePattern(s) { PatternLength(s); }
  }

  /** The mobile field fails no check exactly when the number is acceptable. */
  lemma MobileRule(s: string)
    ensures MobileIssues(s) == [] <==> MobileOk(s)
  {
    if |s| == 13 {
      assert (s[..3] == "+91") <==> (s[0] == '+' && s[1] == '9' && s[2] == '1') by {
        if s[0] == '+' && s[1] == '9' && s[2] == '1' { assert s[..3] == [s[0], s[1], s[2]]; }
      }
    }
  }

  /**
   * The record is accepted exactly when every field is acceptable on its own
   * (lengths counted as JavaScript does, which for accepted names and
   * messages is the number of characters).
   */
  lemma ValidateAcceptsIffEveryFieldOk(raw: FormValues, isEmail: string -> bool)
    ensures Validate(raw, isEmail).Success? <==>
      && NameOk(raw.firstName) && NameOk(raw.lastName)
      && EmailOk(raw.email, isEmail) && MobileOk(raw.mobileNumber)
      && MessageOk(raw.message) && ContactMethodOk(raw.contactMethod)
  {
    NoIssuesIffEachFieldClean(raw, isEmail);
    FieldRules(raw, isEmail);
  }

  /** Each field fails nothing exactly when its value satisfies its rule. */
  lemma FieldRules(raw: FormValues, isEmail: string -> bool)
    ensures (Issues(FirstNameField, raw, isEmail) == []) == NameOk(raw.firstName)
    ensures (Issues(LastNameField, raw, isEmail) == []) == NameOk(raw.lastName)
    ensures (Issues(EmailField, raw, isEmail) == []) == EmailOk(raw.email, isEmail)
    ensures (Issues(MobileNumberField, raw, isEmail) == []) == MobileOk(raw.mobileNumber)
    ensures (Issues(MessageField, raw, isEmail) == []) == MessageOk(raw.message)
    ensures (Issues(ContactMethodField, raw, isEmail) == []) == ContactMethodOk(raw.contactMethod)
  {
    NameRule(raw.firstName, FirstNameTooShort, FirstNameTooLong, FirstNameBadChars);
    NameRule(raw.lastName, LastNameTooShort, LastNameTooLong, LastNameBadChars);
    MobileRule(raw.mobileNumber);
    MessageRule(raw.message);
  }

  /** No field fails exactly when each of the six fails nothing. */
  lemma NoIssuesIffEachFieldClean(raw: FormValues, isEmail: string -> bool)
    ensures (forall f :: Issues(f, raw, isEmail) == []) <==> NoIssues(raw, isEmail)
  {
    if NoIssues(raw, isEmail) {
      forall f ensures Issues(f, raw, isEmail) == [] {
        match f
        case FirstNameField =>
        case LastNameField =>
        case EmailField =>
        case MobileNumberField =>
        case MessageField =>
        case ContactMethodField =>
      }
    }
  }

  /** Whether a field is flagged, and with which message, depends on that field's own value only. */
  lemma FieldIndependence(f: Field, raw1: FormValues, raw2: FormValues, isEmail: string -> bool)
    requires ValueOf(f, raw1) == ValueOf(f, raw2)
    ensures ErrorOf(Validate(raw1, isEmail), f) == ErrorOf(Validate(raw2, isEmail), f)
  {
    IssuesDependOnOwnField(f, raw1, raw2, isEmail);
  }

  /** The first of a field's failures, if it has any. */
  function FirstIssue(issues: seq<string>): Option<string>
  {
    if issues == [] then None else Some(issues[0])
  }

  /** The message shown for a field is the first of its failures. */
  lemma ErrorIsFirstIssue(raw: FormValues, isEmail: string -> bool, f: Field)
    ensures ErrorOf(Validate(raw, isEmail), f) == FirstIssue(Issues(f, raw, isEmail))
  {
  }

  /** `ErrorIsFirstIssue` for the first name, with its checks spelled out. */
  lemma FirstNameError(raw: FormValues, isEmail: string -> bool)
    ensures ErrorOf(Validate(raw, isEmail), FirstNameField)
      == FirstIssue(NameIssues(raw.firstName, FirstNameTooShort, FirstNameTooLong, FirstNameBadChars))
  {
    ErrorIsFirstIssue(raw, isEmail, FirstNameField);
  }

  /** `ErrorIsFirstIssue` for the last name. */
  lemma LastNameError(raw: FormValues, isEmail: string -> bool)
    ensures ErrorOf(Validate(raw, isEmail), LastNameField)
      == FirstIssue(NameIssues(raw.lastName, LastNameTooShort, LastNameTooLong, LastNameBadChars))
  {
    ErrorIsFirstIssue(raw, isEmail, LastNameField);
  }

  /** `ErrorIsFirstIssue` for the email. */
  lemma EmailError(raw: FormValues, isEmail: string -> bool)
    ensures ErrorOf(Validate(raw, isEmail), EmailField) == FirstIssue(EmailIssues(raw.email, isEmail))
  {
    ErrorIsFirstIssue(raw, isEmail, EmailField);
  }

  /** `ErrorIsFirstIssue` for the mobile number. */
  lemma MobileError(raw: FormValues, isEmail: string -> bool)
    ensures ErrorOf(Validate(raw, isEmail), MobileNumberField) == FirstIssue(MobileIssues(raw.mobileNumber))
  {
    ErrorIsFirstIssue(raw, isEmail, MobileNumberField);
  }

  /** `ErrorIsFirstIssue` for the message. */
  lemma MessageError(raw: FormValues, isEmail: string -> bool)
    ensures ErrorOf(Validate(raw, isEmail), MessageField) == FirstIssue(MessageIssues(raw.message))
  {
    ErrorIsFirstIssue(raw, isEmail, MessageField);
  }

  /** The first failure of a name, in the order min, max, regex. */
  lemma NameIssuesOrder(s: string, tooShort: string, tooLong: string, badChars: string)
    ensures Utf16Length(s) < NameMinLength ==> FirstIssue(NameIssues(s, tooShort, tooLong, badChars)) == Some(tooShort)
    ensures Utf16Length(s) > NameMaxLength ==> FirstIssue(NameIssues(s, tooShort, tooLong, badChars)) == Some(tooLong)
    ensures NameMinLength <= Utf16Length(s) <= NameMaxLength && !MatchesNamePattern(s) ==>
      FirstIssue(NameIssues(s, tooShort, tooLong, badChars)) == Some(badChars)
    ensures NameOk(s) ==> FirstIssue(NameIssues(s, tooShort, tooLong, badChars)) == None
  {
    NameRule(s, tooShort, tooLong, badChars);
    var rest := if !MatchesNamePattern(s) then [badChars] else [];
    if Utf16Length(s) < NameMinLength {
      assert NameIssues(s, tooShort, tooLong, badChars) == [tooShort] + rest;
    } else if Utf16Length(s) > NameMaxLength {
      assert NameIssues(s, tooShort, tooLong, badChars) == [tooLong] + rest;
    }
  }

  /** The first failure of a message text, in the order min, max, regex. */
  lemma MessageIssuesOrder(s: string)
    ensures Utf16Length(s) < MessageMinLength ==> FirstIssue(MessageIssues(s)) == Some(MessageTooShort)
    ensures Utf16Length(s) > MessageMaxLength ==> FirstIssue(MessageIssues(s)) == Some(MessageTooLong)
    ensures MessageMinLength <= Utf16Length(s) <= MessageMaxLength && !MatchesMessagePattern(s) ==>
      FirstIssue(MessageIssues(s)) == Some(MessageBadChars)
    ensures MessageOk(s) ==> FirstIssue(MessageIssues(s)) == None
  {
    MessageRule(s);
    var rest := if !MatchesMessagePattern(s) then [MessageBadChars] else [];
    if Utf16Length(s) < MessageMinLength {
      assert MessageIssues(s) == [MessageTooShort] + rest;
    } else if Utf16Length(s) > MessageMaxLength {
      assert MessageIssues(s) == [MessageTooLong] + rest;
    }
  }

  /**
   * The message shown for a failing name is that of the first failing check
   * in the order min, max, regex.
   */
  lemma NameFirstFailingCheck(raw: FormValues, isEmail: string -> bool)
    ensures Utf16Length(raw.firstName) < NameMinLength ==>
      ErrorOf(Validate(raw, isEmail), FirstNameField) == Some(FirstNameTooShort)
    ensures Utf16Length(raw.firstName) > NameMaxLength ==>
      ErrorOf(Validate(raw, isEmail), FirstNameField) == Some(FirstNameTooLong)
    ensures NameMinLength <= Utf16Length(raw.firstName) <= NameMaxLength && !MatchesNamePattern(raw.firstName) ==>
      ErrorOf(Validate(raw, isEmail), FirstNameField) == Some(FirstNameBadChars)
    ensures NameOk(raw.firstName) ==> ErrorOf(Validate(raw, isEmail), FirstNameField) == None
  {
    FirstNameError(raw, isEmail);
    NameIssuesOrder(raw.firstName, FirstNameTooShort, FirstNameTooLong, FirstNameBadChars);
  }

  /** The same order for the last name. */
  lemma LastNameFirstFailingCheck(raw: FormValues, isEmail: string -> bool)
    ensures Utf16Length(raw.lastName) < NameMinLength ==>
      ErrorOf(Validate(raw, isEmail), LastNameField) == Some(LastNameTooShort)
    ensures Utf16Length(raw.lastName) > NameMaxLength ==>
      ErrorOf(Validate(raw, isEmail), LastNameField) == Some(LastNameTooLong)
    ensures NameMinLength <= Utf16Length(raw.lastName) <= NameMaxLength && !MatchesNamePattern(raw.lastName) ==>
      ErrorOf(Validate(raw, isEmail), LastNameField) == Some(LastNameBadChars)
    ensures NameOk(raw.lastName) ==> ErrorOf(Validate(raw, isEmail), LastNameField) == None
  {
    LastNameError(raw, isEmail);
    NameIssuesOrder(raw.lastName, LastNameTooShort, LastNameTooLong, LastNameBadChars);
  }

  /** The message shown for a failing message text follows the order min, max, regex. */
  lemma MessageFirstFailingCheck(raw: FormValues, isEmail: string -> bool)
    ensures Utf16Length(raw.message) < MessageMinLength ==>
      ErrorOf(Validate(raw, isEmail), MessageField) == Some(MessageTooShort)
    ensures Utf16Length(raw.message) > MessageMaxLength ==>
      ErrorOf(Validate(raw, isEmail), MessageField) == Some(MessageTooLong)
    ensures MessageMinLength <= Utf16Length(raw.message) <= MessageMaxLength && !MatchesMessagePattern(raw.message) ==>
      ErrorOf(Validate(raw, isEmail), MessageField) == Some(MessageBadChars)
    ensures MessageOk(raw.message) ==> ErrorOf(Validate(raw, isEmail), MessageField) == None
  {
    MessageError(raw, isEmail);
    MessageIssuesOrder(raw.message);
  }

  /** A failing email shows the syntax message first, the length message only for well-formed addresses. */
  lemma EmailFirstFailingCheck(raw: FormValues, isEmail: string -> bool)
    ensures !isEmail(raw.email) ==> ErrorOf(Validate(raw, isEmail), EmailField) == Some(EmailInvalid)
    ensures isEmail(raw.email) && Utf16Length(raw.email) > EmailMaxLength ==>
      ErrorOf(Validate(raw, isEmail), EmailField) == Some(EmailTooLong)
    ensures EmailOk(raw.email, isEmail) <==> ErrorOf(Validate(raw, isEmail), EmailField) == None
  {
    EmailError(raw, isEmail);
    if !isEmail(raw.email) {
      assert EmailIssues(raw.email, isEmail)[0] == EmailInvalid;
    } else if Utf16Length(raw.email) > EmailMaxLength {
      assert EmailIssues(raw.email, isEmail) == [EmailTooLong];
    }
  }

  /** A failing mobile number shows the first alternative's message. */
  lemma MobileReportedMessage(raw: FormValues, isEmail: string -> bool)
    ensures MobileOk(raw.mobileNumber) ==> ErrorOf(Validate(raw, isEmail), MobileNumberField) == None
    ensures !MobileOk(raw.mobileNumber) ==>
      ErrorOf(Validate(raw, isEmail), MobileNumberField) == Some(MobileNotTenDigits)
  {
    MobileRule(raw.mobileNumber);
    MobileError(raw, isEmail);
  }

  /**
   * The length bounds are inclusive: with acceptable characters, 2 and 50
   * characters pass and 1 and 51 fail, although the message of the upper
   * bound says "less than 50".
   */
  lemma NameLengthBoundaries(s: string)
    requires MatchesNamePattern(s)
    ensures |s| == 2 || |s| == 50 ==> NameOk(s)
    ensures |s| == 1 || |s| == 51 ==> !NameOk(s)
  {
  }

  /** With acceptable characters, 10 and 1000 characters pass, 9 and 1001 fail. */
  lemma MessageLengthBoundaries(s: string)
    requires MatchesMessagePattern(s)
    ensures |s| == 10 || |s| == 1000 ==> MessageOk(s)
    ensures |s| == 9 || |s| == 1001 ==> !MessageOk(s)
  {
  }

  /** Nine or eleven digits fail, as does `91` without the plus sign and any number with a space in it. */
  lemma MobileRejections(s: string)
    ensures AllDigits(s) && (|s| == 9 || |s| == 11) ==> !MobileOk(s)
    ensures |s| == 12 && s[..2] == "91" ==> !MobileOk(s)
    ensures ' ' in s ==> !MobileOk(s)
  {
    if ' ' in s {
      var i :| 0 <= i < |s| && s[i] == ' ';
      if |s| == 13 && i >= 3 { assert s[3..][i - 3] == s[i]; }
    }
  }

  /** `"J"` and `"1"` as first names are reported as too short. */
  lemma OneCharacterFirstName(raw: FormValues, isEmail: string -> bool)
    requires raw.firstName == "J" || raw.firstName == "1"
    ensures ErrorOf(Validate(raw, isEmail), FirstNameField) == Some(FirstNameTooShort)
  {
    assert Utf16Length(raw.firstName) == CodeUnits(raw.firstName[0]) + Utf16Length(raw.firstName[1..]);
    NameFirstFailingCheck(raw, isEmail);
  }
}
