/**
 * The password reset modal (`FindPasswordModal`): a verify step that looks
 * the email up in a fixed account list and checks the name, a waiting step,
 * and a reset step that applies the sign-up password and confirmation rules.
 */
module FindPasswordModal {
  import opened Wrappers
  import opened Seqs
  import opened JsString
  import SignupPage

  datatype Account = Account(email: string, name: string)

  /** The two accounts the modal knows. */
  const MockDb: seq<Account> := [Account("admin@test.com", "관리자"), Account("user@test.com", "홍길동")]

  datatype Step = VerifyStep | WaitingStep | ResetStep

  datatype VerifyOutcome = EmailBlank | NameBlank | UnknownEmail | NameMismatch | MailSent

  function HasEmail(email: string): Account -> bool
  {
    (a: Account) => a.email == email
  }

  /** The checks of `handleVerifySubmit`, in order: blank email, blank name, the first account with exactly this email, its name compared exactly. */
  function VerifyResult(email: string, name: string): (o: VerifyOutcome)
    ensures o == EmailBlank <==> IsBlank(email)
    ensures o == NameBlank <==> !IsBlank(email) && IsBlank(name)
  {
    if IsBlank(email) then EmailBlank
    else if IsBlank(name) then NameBlank
    else match Find(MockDb, HasEmail(email))
      case None => UnknownEmail
      case Some(account) => if account.name != name then NameMismatch else MailSent
  }

  /** The fixed accounts have distinct emails. */
  lemma MockDbEmailsDistinct()
    ensures forall i, j :: 0 <= i < j < |MockDb| ==> MockDb[i].email != MockDb[j].email
  {
    assert MockDb[0].email[0] == 'a' && MockDb[1].email[0] == 'u';
  }

  /** Verification succeeds exactly for a non-blank email and name that form one of the accounts, compared without trimming or case folding. */
  lemma VerifySucceedsExactly(email: string, name: string)
    ensures VerifyResult(email, name) == MailSent <==>
      !IsBlank(email) && !IsBlank(name) && exists i :: 0 <= i < |MockDb| && MockDb[i] == Account(email, name)
  {
    MockDbEmailsDistinct();
    if !IsBlank(email) && !IsBlank(name) && exists i :: 0 <= i < |MockDb| && MockDb[i] == Account(email, name) {
      var i :| 0 <= i < |MockDb| && MockDb[i] == Account(email, name);
      var found := Find(MockDb, HasEmail(email));
      assert HasEmail(email)(MockDb[i]);
      assert found.Some?;
      assert found.value.email == email;
    }
  }

  class FindPassword {
    var step: Step
    var email: string
    var name: string
    var newPassword: string
    var confirmPassword: string
    var emailError: bool
    var passwordError: Option<SignupPage.SignupError>
    var confirmError: Option<SignupPage.SignupError>

    constructor()
      ensures step == VerifyStep && email == "" && name == "" && newPassword == "" && confirmPassword == ""
      ensures !emailError && passwordError.None? && confirmError.None?
    {
      step := VerifyStep;
      email, name, newPassword, confirmPassword := "", "", "", "";
      emailError, passwordError, confirmError := false, None, None;
    }

    /**
     * `handleVerifySubmit`: the email error is cleared first, then set again
     * for a blank or unknown email; only a successful check moves to the
     * waiting step.
     */
    method VerifySubmit() returns (outcome: VerifyOutcome)
      modifies this`emailError, this`step
      ensures outcome == VerifyResult(email, name)
      ensures emailError <==> outcome == EmailBlank || outcome == UnknownEmail
      ensures step == (if outcome == MailSent then WaitingStep else old(step))
    {
      outcome := VerifyResult(email, name);
      emailError := outcome == EmailBlank || outcome == UnknownEmail;
      if outcome == MailSent {
        step := WaitingStep;
      }
    }

    /** `handleWaitComplete`: the mail link is taken as followed. */
    method WaitComplete()
      modifies this`step
      ensures step == ResetStep
    {
      step := ResetStep;
    }

    /** "Enter the email again" on the waiting step. */
    method BackToVerify()
      modifies this`step
      ensures step == VerifyStep
    {
      step := VerifyStep;
    }

    /** Typing an email: only the text changes; its error stays until the next check. */
    method ChangeEmail(v: string)
      modifies this`email
      ensures email == v
    {
      email := v;
    }

    /** Typing a name: only the text changes. */
    method ChangeName(v: string)
      modifies this`name
      ensures name == v
    {
      name := v;
    }

    /** Typing a new password clears its error, and only its error. */
    method ChangeNewPassword(v: string)
      modifies this`newPassword, this`passwordError
      ensures newPassword == v && passwordError.None?
    {
      newPassword := v;
      if passwordError.Some? {
        passwordError := None;
      }
    }

    /** Typing the confirmation clears its error, and only its error. */
    method ChangeConfirm(v: string)
      modifies this`confirmPassword, this`confirmError
      ensures confirmPassword == v && confirmError.None?
    {
      confirmPassword := v;
      if confirmError.Some? {
        confirmError := None;
      }
    }

    /** `handleResetSubmit`: both errors are refreshed; the modal closes exactly when the sign-up password and confirmation rules pass. */
    method ResetSubmit() returns (closed: bool)
      modifies this`passwordError, this`confirmError
      ensures passwordError == SignupPage.ValidatePassword(newPassword)
      ensures confirmError == SignupPage.ValidateConfirm(confirmPassword, newPassword)
      ensures closed <==> SignupPage.PasswordRule(newPassword) && confirmPassword == newPassword
    {
      passwordError := SignupPage.ValidatePassword(newPassword);
      confirmError := SignupPage.ValidateConfirm(confirmPassword, newPassword);
      closed := passwordError.None? && confirmError.None?;
    }
  }
}
