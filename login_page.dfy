/**
 * The login page (`LoginPage`): its stricter email check, the submit handler
 * with its in-flight guard, the session it stores on success, the
 * destination chosen by role, and the mapping of backend statuses to field
 * errors.
 */
module LoginPage {
  import opened Wrappers
  import opened JsString
  import opened UserStore
  import SignupPage

  datatype LoginError = EmailRequired | EmailInvalid | EmailNotFound | PasswordRequired | WrongPassword

  /** `[^\s@]+` without the length: no whitespace and no "@". */
  predicate NoSpaceOrAt(t: string)
  {
    forall k :: 0 <= k < |t| ==> t[k] != '@' && !IsWhitespace(t[k])
  }

  /** `[^\s@]+\.[^\s@]{2,}`: no whitespace or "@", and a "." with at least one character before it and two after. */
  predicate DomainPart(d: string)
  {
    NoSpaceOrAt(d) && exists q :: 1 <= q <= |d| - 3 && d[q] == '.'
  }

  /** `/^[^\s@]+@[^\s@]+\.[^\s@]{2,}$/.test(v)`: a non-empty local part, "@", and a domain part. */
  predicate StrictEmail(v: string)
  {
    exists p :: 0 < p < |v| && v[p] == '@' && NoSpaceOrAt(v[..p]) && DomainPart(v[p + 1..])
  }

  /** An accepted address has exactly one "@" and no whitespace at all. */
  lemma StrictEmailShape(v: string)
    requires StrictEmail(v)
    ensures forall k :: 0 <= k < |v| ==> !IsWhitespace(v[k])
    ensures exists p :: 0 < p < |v| && v[p] == '@' && forall k :: 0 <= k < |v| && v[k] == '@' ==> k == p
  {
    var p :| 0 < p < |v| && v[p] == '@' && NoSpaceOrAt(v[..p]) && DomainPart(v[p + 1..]);
    forall k | 0 <= k < |v| ensures !IsWhitespace(v[k]) && (v[k] == '@' ==> k == p) {
      if k < p {
        assert v[..p][k] == v[k];
      } else if k > p {
        assert v[p + 1..][k - p - 1] == v[k];
      }
    }
  }

  /** Every address the login form accepts is also accepted by the sign-up form. */
  lemma StrictEmailIsLoose(v: string)
    requires StrictEmail(v)
    ensures SignupPage.ValidateEmail(v).None?
  {
    var p :| 0 < p < |v| && v[p] == '@' && NoSpaceOrAt(v[..p]) && DomainPart(v[p + 1..]);
    var d := v[p + 1..];
    var q :| 1 <= q <= |d| - 3 && d[q] == '.';
    StrictEmailShape(v);
    assert v[p + 1 + q] == '.';
    assert SignupPage.OneLineFrom(v, 0);
    assert 0 <= 0 < p && p + 1 < p + 1 + q < |v| - 1 && v[p] == '@' && v[p + 1 + q] == '.' && SignupPage.OneLineFrom(v, 0);
    assert SignupPage.LooseEmailMatch(v);
    assert !AllWhitespace(v) by {
      assert !IsWhitespace(v[0]);
    }
  }

  /** `validateEmail`: empty (no trimming here), then the pattern. */
  function ValidateEmail(v: string): (r: Option<LoginError>)
    ensures r.None? <==> StrictEmail(v)
    ensures v == "" ==> r == Some(EmailRequired)
    ensures v != "" && !StrictEmail(v) ==> r == Some(EmailInvalid)
  {
    if v == "" then Some(EmailRequired)
    else if !StrictEmail(v) then Some(EmailInvalid)
    else None
  }

  /** `validatePassword`: only the empty password is rejected. */
  function ValidatePassword(v: string): (r: Option<LoginError>)
    ensures r.None? <==> v != ""
    ensures r.Some? ==> r.value == PasswordRequired
  {
    if v == "" then Some(PasswordRequired) else None
  }

  const AdminRoute: string := "/admin"
  const DashboardRoute: string := "/dashboard"

  /** Where a logged-in user is sent: the admin area for admins, the dashboard for everyone else. */
  function DestinationFor(role: UserRole): (route: string)
    ensures route == AdminRoute <==> role == Admin
    ensures route == DashboardRoute <==> role == User
  {
    assert AdminRoute != DashboardRoute by { assert AdminRoute[1] == 'a' && DashboardRoute[1] == 'd'; }
    match role
    case Admin => AdminRoute
    case User => DashboardRoute
  }

  /** The redirect on mount: only a logged-in session with a user moves away from the page. */
  function MountRedirect(isLoggedIn: bool, user: Option<AuthUser>): (r: Option<string>)
    ensures r.Some? <==> isLoggedIn && user.Some?
    ensures r.Some? ==> r.value == DestinationFor(user.value.role)
  {
    if isLoggedIn && user.Some? then Some(DestinationFor(user.value.role)) else None
  }

  /** What the login endpoint returns. */
  datatype LoginReply = LoginReply(user: AuthUser, tokens: AuthTokens)

  /** A reply the response interceptor answers with a token refresh. */
  predicate Unauthorized(reply: ApiReply<LoginReply>)
  {
    reply.Failed? && reply.status == Some(401)
  }

  datatype LoginOutcome = LoggedIn(destination: string) | UnknownEmail | BadPassword | BadRequest | ServerError

  function OutcomeOf(reply: ApiReply<LoginReply>): (o: LoginOutcome)
    ensures o.LoggedIn? <==> reply.Ok?
    ensures o.LoggedIn? ==> o.destination == DestinationFor(reply.body.user.role)
    ensures o == UnknownEmail <==> reply.Failed? && reply.status == Some(404)
    ensures o == BadPassword <==> reply.Failed? && reply.status == Some(401)
    ensures o == BadRequest <==> reply.Failed? && reply.status == Some(400)
  {
    match reply
    case Ok(body) => LoggedIn(DestinationFor(body.user.role))
    case Failed(status) =>
      if status == Some(404) then UnknownEmail
      else if status == Some(401) then BadPassword
      else if status == Some(400) then BadRequest
      else ServerError
  }

  datatype LoginField = EmailField | PasswordField

  class LoginForm {
    var emailInput: string
    var passwordInput: string
    var emailError: Option<LoginError>
    var passwordError: Option<LoginError>
    var touchedEmail: bool
    var touchedPassword: bool
    var isSubmitting: bool

    constructor()
      ensures emailInput == "" && passwordInput == "" && emailError.None? && passwordError.None?
      ensures !touchedEmail && !touchedPassword && !isSubmitting
      ensures ErrorsCurrent()
    {
      emailInput, passwordInput := "", "";
      emailError, passwordError := None, None;
      touchedEmail, touchedPassword, isSubmitting := false, false, false;
    }

    /** Every touched field shows its validator's verdict on what it holds now. */
    predicate ErrorsCurrent()
      reads this
    {
      (touchedEmail ==> emailError == ValidateEmail(emailInput))
      && (touchedPassword ==> passwordError == ValidatePassword(passwordInput))
    }

    /** `handleBlur`: the field left becomes touched and shows its validator's verdict; the other keeps its own. */
    method Blur(field: LoginField)
      modifies this`touchedEmail, this`touchedPassword, this`emailError, this`passwordError
      ensures field == EmailField ==>
        (touchedEmail && emailError == ValidateEmail(emailInput)
         && touchedPassword == old(touchedPassword) && passwordError == old(passwordError))
      ensures field == PasswordField ==>
        (touchedPassword && passwordError == ValidatePassword(passwordInput)
         && touchedEmail == old(touchedEmail) && emailError == old(emailError))
      ensures old(ErrorsCurrent()) ==> ErrorsCurrent()
    {
      if field == EmailField {
        touchedEmail, emailError := true, ValidateEmail(emailInput);
      } else {
        touchedPassword, passwordError := true, ValidatePassword(passwordInput);
      }
    }

    /** `handleChange`: the field takes the value and, once touched, is revalidated as it is typed. */
    method Change(field: LoginField, value: string)
      modifies this`emailInput, this`passwordInput, this`emailError, this`passwordError
      ensures field == EmailField ==>
        (emailInput == value && passwordInput == old(passwordInput) && passwordError == old(passwordError)
         && emailError == (if touchedEmail then ValidateEmail(value) else old(emailError)))
      ensures field == PasswordField ==>
        (passwordInput == value && emailInput == old(emailInput) && emailError == old(emailError)
         && passwordError == (if touchedPassword then ValidatePassword(value) else old(passwordError)))
      ensures old(ErrorsCurrent()) ==> ErrorsCurrent()
    {
      if field == EmailField {
        emailInput := value;
        if touchedEmail {
          emailError := ValidateEmail(value);
        }
      } else {
        passwordInput := value;
        if touchedPassword {
          passwordError := ValidatePassword(value);
        }
      }
    }

    /**
     * The synchronous part of `handleSubmit`: ignored while a request is in
     * flight; otherwise both fields are marked touched and validated, and the
     * request is sent (with the errors cleared) only when both pass.
     */
    method BeginSubmit() returns (send: bool)
      modifies this
      ensures send <==> !old(isSubmitting) && StrictEmail(emailInput) && passwordInput != ""
      ensures old(isSubmitting) ==> isSubmitting && emailError == old(emailError) && passwordError == old(passwordError)
      ensures old(isSubmitting) ==> touchedEmail == old(touchedEmail) && touchedPassword == old(touchedPassword)
      ensures !old(isSubmitting) ==> touchedEmail && touchedPassword && isSubmitting == send
      ensures !old(isSubmitting) ==> emailError == ValidateEmail(emailInput) && passwordError == ValidatePassword(passwordInput)
      ensures !old(isSubmitting) ==> ErrorsCurrent()
      ensures emailInput == old(emailInput) && passwordInput == old(passwordInput)
    {
      if isSubmitting {
        return false;
      }
      touchedEmail, touchedPassword := true, true;
      var e, p := ValidateEmail(emailInput), ValidatePassword(passwordInput);
      emailError, passwordError := e, p;
      send := e.None? && p.None?;
      isSubmitting := send;
    }

    /**
     * The login request settling through the shared client, then the page's
     * continuation. A first reply of 401 passes through the response
     * interceptor before the page sees it: the session refreshes its token
     * and, when that yields a token, the request is sent once more and the
     * page sees the second reply instead. On success the session stores
     * exactly the returned user and tokens; a 404 marks only the email, a 401
     * only the password, other failures no field. The guard is always
     * released.
     */
    method FinishSubmit(session: Session, first: ApiReply<LoginReply>, second: ApiReply<LoginReply>,
                        refreshReply: ApiReply<TokenRefresh>, now: int) returns (outcome: LoginOutcome)
      requires session.Valid()
      modifies this, session
      ensures session.Valid()
      ensures !Unauthorized(first) ==> outcome == OutcomeOf(first)
      ensures !Unauthorized(first) && first.Ok? ==>
        session.State() == AfterSetAuth(old(session.State()), first.body.user, first.body.tokens, now)
      ensures !Unauthorized(first) && first.Failed? ==> session.State() == old(session.State())
      ensures Unauthorized(first) ==>
        var (token, refreshed) := AfterRefresh(old(session.State()), refreshReply, now);
        var final := if Truthy(token) then second else first;
        && outcome == OutcomeOf(final)
        && (final.Ok? ==> session.State() == AfterSetAuth(refreshed, final.body.user, final.body.tokens, now))
        && (final.Failed? ==> session.State() == refreshed)
      ensures Unauthorized(first) && !old(session.State()).isRefreshing && !Truthy(old(session.State()).refreshToken) ==>
        outcome == BadPassword && session.State() == AfterClearAuth(old(session.State()))
      ensures !isSubmitting
      ensures outcome == UnknownEmail ==> emailError == Some(EmailNotFound) && passwordError.None?
      ensures outcome == BadPassword ==> passwordError == Some(WrongPassword) && emailError.None?
      ensures outcome != UnknownEmail && outcome != BadPassword ==> emailError == old(emailError) && passwordError == old(passwordError)
      ensures emailInput == old(emailInput) && passwordInput == old(passwordInput)
      ensures touchedEmail == old(touchedEmail) && touchedPassword == old(touchedPassword)
    {
      var reply := first;
      if Unauthorized(first) {
        var token := session.RefreshAccessToken(refreshReply, now);
        if Truthy(token) {
          reply := second;
        }
      }
      outcome := OutcomeOf(reply);
      if reply.Ok? {
        session.SetAuth(reply.body.user, reply.body.tokens, now);
      } else if outcome == UnknownEmail {
        emailError, passwordError := Some(EmailNotFound), None;
      } else if outcome == BadPassword {
        emailError, passwordError := None, Some(WrongPassword);
      }
      isSubmitting := false;
    }
  }

  /** A successful login leaves the session logged in as the returned user, so the mount redirect sends them to the same place. */
  lemma LoginThenMountAgree(st: SessionState, body: LoginReply, now: int)
    ensures var after := AfterSetAuth(st, body.user, body.tokens, now);
      MountRedirect(after.isLoggedIn, after.user) == Some(OutcomeOf(Ok(body)).destination)
  {
  }
}
