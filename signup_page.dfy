/**
 * The sign-up page (`SignupPage`): the terms step with its "agree to all"
 * box, the four field validators, and the submit handler with its in-flight
 * guard and its mapping of backend statuses to errors.
 */
module SignupPage {
  import opened Wrappers
  import opened JsString

  /** The errors the sign-up form shows (their Korean messages are display text). */
  datatype SignupError =
    | EmailRequired | EmailInvalid | EmailTaken
    | PasswordRequired | PasswordLength | PasswordComposition
    | ConfirmRequired | ConfirmMismatch
    | NameRequired | NameLength | NameCharacters

  predicate IsAsciiLetter(c: char)
  {
    'A' <= c <= 'Z' || 'a' <= c <= 'z'
  }

  predicate IsHangulSyllable(c: char)
  {
    '가' <= c <= '힣'
  }

  /** No line break from index `i` to the end. */
  predicate OneLineFrom(s: string, i: nat)
  {
    forall k :: i <= k < |s| ==> !IsLineTerminator(s[k])
  }

  /**
   * `/.+@.+\..+$/i.test(v)`: some suffix of `v` made of non-line-break
   * characters is one or more characters, "@", one or more, ".", one or more.
   */
  predicate LooseEmailMatch(v: string)
  {
    exists i, p, q :: 0 <= i < p && p + 1 < q < |v| - 1 && v[p] == '@' && v[q] == '.' && OneLineFrom(v, i)
  }

  /** On one line the match is just: an "@" after the first character, and a "." at least two places later but not last. */
  lemma LooseEmailOnOneLine(v: string)
    requires OneLineFrom(v, 0)
    ensures LooseEmailMatch(v) <==> exists p, q :: 0 < p && p + 1 < q < |v| - 1 && v[p] == '@' && v[q] == '.'
  {
    if p, q :| 0 < p && p + 1 < q < |v| - 1 && v[p] == '@' && v[q] == '.' {
      assert 0 <= 0 < p && p + 1 < q < |v| - 1 && v[p] == '@' && v[q] == '.' && OneLineFrom(v, 0);
    }
  }

  /** `validateEmail`: blank first, then the pattern. */
  function ValidateEmail(v: string): (r: Option<SignupError>)
    ensures r.None? <==> !IsBlank(v) && LooseEmailMatch(v)
    ensures r.Some? ==> r.value == (if IsBlank(v) then EmailRequired else EmailInvalid)
  {
    if IsBlank(v) then Some(EmailRequired)
    else if !LooseEmailMatch(v) then Some(EmailInvalid)
    else None
  }

  predicate HasLetter(v: string)
  {
    exists k :: 0 <= k < |v| && IsAsciiLetter(v[k])
  }

  predicate HasDigit(v: string)
  {
    exists k :: 0 <= k < |v| && IsDigit(v[k])
  }

  predicate HasSpecial(v: string)
  {
    exists k :: 0 <= k < |v| && !IsAsciiLetter(v[k]) && !IsDigit(v[k])
  }

  /** The password rule: 8 to 20 UTF-16 units, with an ASCII letter, a digit and a character that is neither. */
  predicate PasswordRule(v: string)
  {
    8 <= Utf16Length(v) <= 20 && HasLetter(v) && HasDigit(v) && HasSpecial(v)
  }

  /** `validatePassword`: empty, then length, then composition. */
  function ValidatePassword(v: string): (r: Option<SignupError>)
    ensures r.None? <==> PasswordRule(v)
    ensures v == "" ==> r == Some(PasswordRequired)
    ensures v != "" && !(8 <= Utf16Length(v) <= 20) ==> r == Some(PasswordLength)
    ensures 8 <= Utf16Length(v) <= 20 && !PasswordRule(v) ==> r == Some(PasswordComposition)
  {
    if v == "" then Some(PasswordRequired)
    else if Utf16Length(v) < 8 || Utf16Length(v) > 20 then Some(PasswordLength)
    else if !(HasLetter(v) && HasDigit(v) && HasSpecial(v)) then Some(PasswordComposition)
    else None
  }

  /** An accepted password has at least four characters and at most twenty. */
  lemma PasswordRuleBounds(v: string)
    requires PasswordRule(v)
    ensures 4 <= |v| <= 20
  {
  }

  /** `validateConfirm(c, p)`: present, then equal. */
  function ValidateConfirm(c: string, p: string): (r: Option<SignupError>)
    ensures r.None? <==> c != "" && c == p
    ensures c == "" ==> r == Some(ConfirmRequired)
    ensures c != "" && c != p ==> r == Some(ConfirmMismatch)
  {
    if c == "" then Some(ConfirmRequired)
    else if c != p then Some(ConfirmMismatch)
    else None
  }

  /** `[A-Za-z가-힣\s]`. */
  predicate NameChar(c: char)
  {
    IsAsciiLetter(c) || IsHangulSyllable(c) || IsWhitespace(c)
  }

  /** `validateName`: the trimmed name is present, 2 to 20 UTF-16 units long, and made of letters, Hangul and spaces. */
  function ValidateName(v: string): (r: Option<SignupError>)
    ensures r.None? <==> var t := Trim(v);
      t != "" && 2 <= Utf16Length(t) <= 20 && forall k :: 0 <= k < |t| ==> NameChar(t[k])
    ensures IsBlank(v) ==> r == Some(NameRequired)
    ensures !IsBlank(v) && !(2 <= Utf16Length(Trim(v)) <= 20) ==> r == Some(NameLength)
  {
    var t := Trim(v);
    if t == "" then Some(NameRequired)
    else if Utf16Length(t) < 2 || Utf16Length(t) > 20 then Some(NameLength)
    else if exists k :: 0 <= k < |t| && !NameChar(t[k]) then Some(NameCharacters)
    else None
  }

  /** An accepted name begins and ends with a letter or a Hangul syllable, since the check runs on the trimmed text. */
  lemma AcceptedNameEnds(v: string)
    requires ValidateName(v).None?
    ensures var t := Trim(v);
      |t| >= 1 && (IsAsciiLetter(t[0]) || IsHangulSyllable(t[0]))
      && (IsAsciiLetter(t[|t| - 1]) || IsHangulSyllable(t[|t| - 1]))
  {
    var t := Trim(v);
    assert NameChar(t[0]) && NameChar(t[|t| - 1]);
  }

  /** The two steps of the page. */
  datatype SignupStep = TermsStep | FormStep

  /** The terms step: four agreements (three required, the backup one optional) and "agree to all". */
  class Terms {
    var agreeAll: bool
    var agreeSensitive: bool
    var agreeDisclaimer: bool
    var agreeAccuracy: bool
    var agreeBackup: bool
    var step: SignupStep

    /** "Agree to all" is checked exactly when every item is. */
    predicate Valid()
      reads this
    {
      agreeAll == (agreeSensitive && agreeDisclaimer && agreeAccuracy && agreeBackup)
    }

    /** `canProceed`: the three required agreements. */
    predicate CanProceed()
      reads this
    {
      agreeSensitive && agreeDisclaimer && agreeAccuracy
    }

    constructor()
      ensures Valid() && !agreeAll && !CanProceed() && !agreeBackup && step == TermsStep
    {
      agreeAll, agreeSensitive, agreeDisclaimer, agreeAccuracy, agreeBackup := false, false, false, false, false;
      step := TermsStep;
    }

    /** `toggleAll(checked)`: every box, "agree to all" included, takes the value. */
    method ToggleAll(checked: bool)
      modifies this
      ensures Valid() && step == old(step)
      ensures agreeAll == checked && agreeSensitive == checked && agreeDisclaimer == checked
      ensures agreeAccuracy == checked && agreeBackup == checked
    {
      agreeAll := checked;
      agreeSensitive := checked;
      agreeDisclaimer := checked;
      agreeAccuracy := checked;
      agreeBackup := checked;
    }

    method SetSensitive(v: bool)
      modifies this
      ensures Valid() && step == old(step) && agreeSensitive == v
      ensures agreeDisclaimer == old(agreeDisclaimer) && agreeAccuracy == old(agreeAccuracy) && agreeBackup == old(agreeBackup)
    {
      agreeSensitive := v;
      agreeAll := v && agreeDisclaimer && agreeAccuracy && agreeBackup;
    }

    method SetDisclaimer(v: bool)
      modifies this
      ensures Valid() && step == old(step) && agreeDisclaimer == v
      ensures agreeSensitive == old(agreeSensitive) && agreeAccuracy == old(agreeAccuracy) && agreeBackup == old(agreeBackup)
    {
      agreeDisclaimer := v;
      agreeAll := v && agreeSensitive && agreeAccuracy && agreeBackup;
    }

    method SetAccuracy(v: bool)
      modifies this
      ensures Valid() && step == old(step) && agreeAccuracy == v
      ensures agreeSensitive == old(agreeSensitive) && agreeDisclaimer == old(agreeDisclaimer) && agreeBackup == old(agreeBackup)
    {
      agreeAccuracy := v;
      agreeAll := v && agreeSensitive && agreeDisclaimer && agreeBackup;
    }

    /** The optional item: it moves "agree to all" but never `canProceed`. */
    method SetBackup(v: bool)
      modifies this
      ensures Valid() && step == old(step) && agreeBackup == v
      ensures agreeSensitive == old(agreeSensitive) && agreeDisclaimer == old(agreeDisclaimer) && agreeAccuracy == old(agreeAccuracy)
      ensures CanProceed() == old(CanProceed())
    {
      agreeBackup := v;
      agreeAll := v && agreeSensitive && agreeDisclaimer && agreeAccuracy;
    }

    /** The form's `onBack`: the terms step shows again with its boxes as they were. */
    method Back()
      modifies this
      ensures step == TermsStep && Valid() == old(Valid()) && CanProceed() == old(CanProceed())
      ensures agreeAll == old(agreeAll) && agreeSensitive == old(agreeSensitive) && agreeDisclaimer == old(agreeDisclaimer)
      ensures agreeAccuracy == old(agreeAccuracy) && agreeBackup == old(agreeBackup)
    {
      step := TermsStep;
    }

    /** The "agree and continue" button, disabled unless the required agreements are checked. */
    method Proceed()
      modifies this
      ensures step == (if old(CanProceed()) then FormStep else old(step))
      ensures agreeAll == old(agreeAll) && agreeSensitive == old(agreeSensitive) && agreeDisclaimer == old(agreeDisclaimer)
      ensures agreeAccuracy == old(agreeAccuracy) && agreeBackup == old(agreeBackup)
    {
      if CanProceed() {
        step := FormStep;
      }
    }
  }

  /** How a finished sign-up request ended. */
  datatype SignupOutcome = Registered | Duplicate | Rejected | ServerError

  /** The status a failed request maps to: 409 means the email is taken, 400 a rejected form, anything else a server error. */
  function OutcomeOf(reply: ApiReply<()>): (o: SignupOutcome)
    ensures o == Registered <==> reply.Ok?
    ensures o == Duplicate <==> reply.Failed? && reply.status == Some(409)
    ensures o == Rejected <==> reply.Failed? && reply.status == Some(400)
  {
    match reply
    case Ok(_) => Registered
    case Failed(status) =>
      if status == Some(409) then Duplicate
      else if status == Some(400) then Rejected
      else ServerError
  }

  /** The four field errors the form shows. */
  datatype FieldErrors = FieldErrors(email: Option<SignupError>, password: Option<SignupError>,
                                     confirm: Option<SignupError>, name: Option<SignupError>)

  predicate NoErrors(errors: FieldErrors)
  {
    errors.email.None? && errors.password.None? && errors.confirm.None? && errors.name.None?
  }

  /** `nextErrors` in `onSubmit`: every validator run on its field. */
  function ValidateAll(email: string, password: string, confirm: string, name: string): (errors: FieldErrors)
    ensures NoErrors(errors) <==>
      (!IsBlank(email) && LooseEmailMatch(email) && PasswordRule(password)
       && confirm != "" && confirm == password && ValidateName(name).None?)
  {
    FieldErrors(ValidateEmail(email), ValidatePassword(password), ValidateConfirm(confirm, password), ValidateName(name))
  }

  /** Which fields have been left at least once (`touched`). */
  datatype TouchedFields = TouchedFields(email: bool, password: bool, confirm: bool, name: bool)

  const NoneTouched := TouchedFields(false, false, false, false)
  const AllTouched := TouchedFields(true, true, true, true)

  datatype SignupField = EmailField | PasswordField | ConfirmField | NameField

  /** The form step of the page. */
  class SignupForm {
    var email: string
    var password: string
    var confirm: string
    var name: string
    var errors: FieldErrors
    var touched: TouchedFields
    var submitting: bool

    /** Every touched field shows its validator's verdict on what the form holds now. */
    predicate ErrorsCurrent()
      reads this
    {
      (touched.email ==> errors.email == ValidateEmail(email))
      && (touched.password ==> errors.password == ValidatePassword(password))
      && (touched.confirm ==> errors.confirm == ValidateConfirm(confirm, password))
      && (touched.name ==> errors.name == ValidateName(name))
    }

    constructor()
      ensures email == "" && password == "" && confirm == "" && name == ""
      ensures NoErrors(errors) && touched == NoneTouched && !submitting
      ensures ErrorsCurrent()
    {
      email, password, confirm, name := "", "", "", "";
      errors := FieldErrors(None, None, None, None);
      touched, submitting := NoneTouched, false;
    }

    /** `handleBlur(key)`: the field becomes touched and shows its validator's verdict; the others keep theirs. */
    method Blur(field: SignupField)
      modifies this`touched, this`errors
      ensures field == EmailField ==>
        touched == old(touched).(email := true) && errors == old(errors).(email := ValidateEmail(email))
      ensures field == PasswordField ==>
        touched == old(touched).(password := true) && errors == old(errors).(password := ValidatePassword(password))
      ensures field == ConfirmField ==>
        touched == old(touched).(confirm := true) && errors == old(errors).(confirm := ValidateConfirm(confirm, password))
      ensures field == NameField ==>
        touched == old(touched).(name := true) && errors == old(errors).(name := ValidateName(name))
      ensures old(ErrorsCurrent()) ==> ErrorsCurrent()
    {
      match field
      case EmailField =>
        touched, errors := touched.(email := true), errors.(email := ValidateEmail(email));
      case PasswordField =>
        touched, errors := touched.(password := true), errors.(password := ValidatePassword(password));
      case ConfirmField =>
        touched, errors := touched.(confirm := true), errors.(confirm := ValidateConfirm(confirm, password));
      case NameField =>
        touched, errors := touched.(name := true), errors.(name := ValidateName(name));
    }

    /** `onEmailChange`: a touched email is revalidated as it is typed. */
    method ChangeEmail(v: string)
      modifies this`email, this`errors
      ensures email == v
      ensures errors == old(errors).(email := if touched.email then ValidateEmail(v) else old(errors).email)
      ensures old(ErrorsCurrent()) ==> ErrorsCurrent()
    {
      email := v;
      if touched.email {
        errors := errors.(email := ValidateEmail(v));
      }
    }

    /** `onPasswordChange`: the password and, when touched, the confirmation are revalidated against the new password. */
    method ChangePassword(v: string)
      modifies this`password, this`errors
      ensures password == v
      ensures errors.email == old(errors).email && errors.name == old(errors).name
      ensures errors.password == if touched.password then ValidatePassword(v) else old(errors).password
      ensures errors.confirm == if touched.confirm then ValidateConfirm(confirm, v) else old(errors).confirm
      ensures old(ErrorsCurrent()) ==> ErrorsCurrent()
    {
      password := v;
      if touched.password {
        errors := errors.(password := ValidatePassword(v));
      }
      if touched.confirm {
        errors := errors.(confirm := ValidateConfirm(confirm, v));
      }
    }

    /** `onConfirmChange`. */
    method ChangeConfirm(v: string)
      modifies this`confirm, this`errors
      ensures confirm == v
      ensures errors == old(errors).(confirm := if touched.confirm then ValidateConfirm(v, password) else old(errors).confirm)
      ensures old(ErrorsCurrent()) ==> ErrorsCurrent()
    {
      confirm := v;
      if touched.confirm {
        errors := errors.(confirm := ValidateConfirm(v, password));
      }
    }

    /** `onNameChange`. */
    method ChangeName(v: string)
      modifies this`name, this`errors
      ensures name == v
      ensures errors == old(errors).(name := if touched.name then ValidateName(v) else old(errors).name)
      ensures old(ErrorsCurrent()) ==> ErrorsCurrent()
    {
      name := v;
      if touched.name {
        errors := errors.(name := ValidateName(v));
      }
    }

    /**
     * The synchronous part of `onSubmit`: ignored while a request is in
     * flight; otherwise every field is validated and marked touched, and the
     * request is sent only when all four validators pass.
     */
    method BeginSubmit() returns (send: bool)
      modifies this`errors, this`touched, this`submitting
      ensures old(submitting) ==> !send && submitting && errors == old(errors) && touched == old(touched)
      ensures !old(submitting) ==> touched == AllTouched && errors == ValidateAll(email, password, confirm, name)
      ensures !old(submitting) ==> ErrorsCurrent()
      ensures send <==> !old(submitting) && NoErrors(errors)
      ensures submitting == (old(submitting) || send)
    {
      if submitting {
        return false;
      }
      errors := ValidateAll(email, password, confirm, name);
      touched := AllTouched;
      send := NoErrors(errors);
      submitting := send;
    }

    /** The continuation of `onSubmit` once the request settles: a 409 marks the email as taken; the guard is always released. */
    method FinishSubmit(reply: ApiReply<()>) returns (outcome: SignupOutcome)
      modifies this`errors, this`submitting
      ensures outcome == OutcomeOf(reply)
      ensures !submitting
      ensures errors == (if outcome == Duplicate then old(errors).(email := Some(EmailTaken)) else old(errors))
    {
      outcome := OutcomeOf(reply);
      if outcome == Duplicate {
        errors := errors.(email := Some(EmailTaken));
      }
      submitting := false;
    }
  }
}
