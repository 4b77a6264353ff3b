/**
 * The profile edit modal (`ProfileEditModal`): a verify step that only asks
 * for a non-empty current password, then an edit step whose submit is
 * blocked by an invalid name or, when a new password is typed, by a password
 * that breaks the sign-up rule or a confirmation that differs. The name check
 * and the password rule are the sign-up page's.
 */
module ProfileEditModal {
  import opened Wrappers
  import SignupPage

  type FieldError = SignupPage.SignupError

  /** `validatePasswordRule`: an empty password means "keep the old one" and passes; otherwise the sign-up length and composition rule. */
  function ValidatePasswordRule(v: string): (r: Option<FieldError>)
    ensures r.None? <==> v == "" || SignupPage.PasswordRule(v)
    ensures v != "" ==> r == SignupPage.ValidatePassword(v)
  {
    if v == "" then None else SignupPage.ValidatePassword(v)
  }

  /** `validateConfirm(confirm, original)`: a missing confirmation, then a mismatch. */
  function ValidateConfirm(confirm: string, original: string): (r: Option<FieldError>)
    ensures r.None? <==> confirm == original
    ensures original != "" && confirm == "" ==> r == Some(SignupPage.ConfirmRequired)
  {
    if original != "" && confirm == "" then Some(SignupPage.ConfirmRequired)
    else if original != confirm then Some(SignupPage.ConfirmMismatch)
    else None
  }

  /** The rule `handleEditSubmit` applies: `nErr || (newPassword && (pErr || cErr))`. */
  predicate EditBlocked(name: string, newPassword: string, confirm: string)
  {
    SignupPage.ValidateName(name).Some?
    || (newPassword != "" && (ValidatePasswordRule(newPassword).Some? || ValidateConfirm(confirm, newPassword).Some?))
  }

  /** Saving is blocked exactly by a bad name, or by a typed new password that breaks the rule or is not repeated exactly. */
  lemma EditBlockedMeaning(name: string, newPassword: string, confirm: string)
    ensures EditBlocked(name, newPassword, confirm) <==>
      SignupPage.ValidateName(name).Some?
      || (newPassword != "" && (!SignupPage.PasswordRule(newPassword) || confirm != newPassword))
  {
  }

  /** With no new password a stale confirmation never blocks saving a valid name. */
  lemma EmptyPasswordIgnoresConfirm(name: string, confirm: string)
    requires SignupPage.ValidateName(name).None?
    ensures !EditBlocked(name, "", confirm)
  {
  }

  datatype Step = VerifyStep | EditStep

  /** What a successful save asks the store for: the edited name and the unchanged email. */
  datatype ProfileUpdate = ProfileUpdate(name: string, email: string)

  /** Which edit fields have been left at least once. */
  datatype TouchedFields = TouchedFields(name: bool, newPassword: bool, confirm: bool)

  datatype EditField = NameField | NewPasswordField | ConfirmField

  class ProfileEdit {
    const userEmail: string
    var step: Step
    var verifyPassword: string
    var editName: string
    var newPassword: string
    var confirmPassword: string
    var nameError: Option<FieldError>
    var passwordError: Option<FieldError>
    var confirmError: Option<FieldError>
    var touched: TouchedFields

    /** Every touched field shows its validator's verdict on what the form holds now. */
    predicate ErrorsCurrent()
      reads this
    {
      (touched.name ==> nameError == SignupPage.ValidateName(editName))
      && (touched.newPassword ==> passwordError == ValidatePasswordRule(newPassword))
      && (touched.confirm ==> confirmError == ValidateConfirm(confirmPassword, newPassword))
    }

    /** The modal opens on the verify step with the current name in the form. */
    constructor(userName: string, userEmail: string)
      ensures this.userEmail == userEmail && step == VerifyStep && editName == userName
      ensures verifyPassword == "" && newPassword == "" && confirmPassword == ""
      ensures nameError.None? && passwordError.None? && confirmError.None?
      ensures touched == TouchedFields(false, false, false) && ErrorsCurrent()
    {
      this.userEmail := userEmail;
      step := VerifyStep;
      verifyPassword, editName, newPassword, confirmPassword := "", userName, "", "";
      nameError, passwordError, confirmError := None, None, None;
      touched := TouchedFields(false, false, false);
    }

    /** `handleVerifySubmit`: any non-empty password moves to the edit step; nothing is checked against the account. */
    method VerifySubmit()
      modifies this`step
      ensures step == (if verifyPassword != "" then EditStep else old(step))
    {
      if verifyPassword != "" {
        step := EditStep;
      }
    }

    /** `handleBlur(field)`: the field becomes touched and shows its validator's verdict; the others keep theirs. */
    method Blur(field: EditField)
      modifies this`touched, this`nameError, this`passwordError, this`confirmError
      ensures field == NameField ==>
        (touched == old(touched).(name := true) && nameError == SignupPage.ValidateName(editName)
         && passwordError == old(passwordError) && confirmError == old(confirmError))
      ensures field == NewPasswordField ==>
        (touched == old(touched).(newPassword := true) && passwordError == ValidatePasswordRule(newPassword)
         && nameError == old(nameError) && confirmError == old(confirmError))
      ensures field == ConfirmField ==>
        (touched == old(touched).(confirm := true) && confirmError == ValidateConfirm(confirmPassword, newPassword)
         && nameError == old(nameError) && passwordError == old(passwordError))
      ensures old(ErrorsCurrent()) ==> ErrorsCurrent()
    {
      match field
      case NameField =>
        touched, nameError := touched.(name := true), SignupPage.ValidateName(editName);
      case NewPasswordField =>
        touched, passwordError := touched.(newPassword := true), ValidatePasswordRule(newPassword);
      case ConfirmField =>
        touched, confirmError := touched.(confirm := true), ValidateConfirm(confirmPassword, newPassword);
    }

    /** `handleChangeName`: a touched name is revalidated as it is typed. */
    method ChangeName(v: string)
      modifies this`editName, this`nameError
      ensures editName == v
      ensures nameError == if touched.name then SignupPage.ValidateName(v) else old(nameError)
      ensures old(ErrorsCurrent()) ==> ErrorsCurrent()
    {
      editName := v;
      if touched.name {
        nameError := SignupPage.ValidateName(v);
      }
    }

    /** `handleChangeNewPassword`: the new password and, when touched, the confirmation are revalidated. */
    method ChangeNewPassword(v: string)
      modifies this`newPassword, this`passwordError, this`confirmError
      ensures newPassword == v
      ensures passwordError == if touched.newPassword then ValidatePasswordRule(v) else old(passwordError)
      ensures confirmError == if touched.confirm then ValidateConfirm(confirmPassword, v) else old(confirmError)
      ensures old(ErrorsCurrent()) ==> ErrorsCurrent()
    {
      newPassword := v;
      if touched.newPassword {
        passwordError := ValidatePasswordRule(v);
      }
      if touched.confirm {
        confirmError := ValidateConfirm(confirmPassword, v);
      }
    }

    /** `handleChangeConfirm`. */
    method ChangeConfirm(v: string)
      modifies this`confirmPassword, this`confirmError
      ensures confirmPassword == v
      ensures confirmError == if touched.confirm then ValidateConfirm(v, newPassword) else old(confirmError)
      ensures old(ErrorsCurrent()) ==> ErrorsCurrent()
    {
      confirmPassword := v;
      if touched.confirm {
        confirmError := ValidateConfirm(v, newPassword);
      }
    }

    /**
     * `handleEditSubmit`: when blocked, all three errors are shown and every
     * field is marked touched; otherwise the profile update carries the
     * edited name and the same email.
     */
    method EditSubmit() returns (update: Option<ProfileUpdate>)
      modifies this`nameError, this`passwordError, this`confirmError, this`touched
      ensures update.None? <==> EditBlocked(editName, newPassword, confirmPassword)
      ensures update.Some? ==> update.value == ProfileUpdate(editName, userEmail)
      ensures update.None? ==> (touched == TouchedFields(true, true, true) && nameError == SignupPage.ValidateName(editName)
        && passwordError == ValidatePasswordRule(newPassword) && confirmError == ValidateConfirm(confirmPassword, newPassword))
      ensures update.None? ==> ErrorsCurrent()
      ensures update.Some? ==> (touched == old(touched) && nameError == old(nameError)
        && passwordError == old(passwordError) && confirmError == old(confirmError))
    {
      var n := SignupPage.ValidateName(editName);
      var p := ValidatePasswordRule(newPassword);
      var c := ValidateConfirm(confirmPassword, newPassword);
      if n.Some? || (newPassword != "" && (p.Some? || c.Some?)) {
        nameError, passwordError, confirmError := n, p, c;
        touched := TouchedFields(true, true, true);
        return None;
      }
      update := Some(ProfileUpdate(editName, userEmail));
    }
  }
}
