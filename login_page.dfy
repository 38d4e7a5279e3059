/** The login page: the guard that checks the email before the password, the
    submit step whose sign-in call is external (its outcome is a parameter),
    and the redirect of a user who is already signed in. */
module LoginPage {
  import opened Wrappers

  /** How the external sign-in call ended: with the signed-in user's id, or not. */
  datatype SignInOutcome = SignedIn(uid: string) | SignInFailed

  /** The current user as the authentication context supplies it. */
  datatype User = User(uid: string)

  const MissingEmailAlert := "Missing email!"
  const MissingPasswordAlert := "Missing password!"
  const LoginFailedAlert := "Login failed. Please try again."
  const DashboardPrefix := "/dashboard/"

  /** The dashboard route of a user. */
  function DashboardPath(uid: string): (path: string)
    ensures |path| == |DashboardPrefix| + |uid|
    ensures path[..|DashboardPrefix|] == DashboardPrefix && path[|DashboardPrefix|..] == uid
  {
    DashboardPrefix + uid
  }

  /** Different users get different dashboard routes. */
  lemma DashboardPathInjective(uid1: string, uid2: string)
    ensures DashboardPath(uid1) == DashboardPath(uid2) ==> uid1 == uid2
  {
  }

  /** The alert that stops a login before any sign-in attempt, if there is one. */
  function LoginGuard(email: string, password: string): (stop: Option<string>)
    ensures stop == None <==> email != "" && password != ""
    ensures stop.Some? ==> stop.value == MissingEmailAlert || stop.value == MissingPasswordAlert
  {
    if email == "" then Some(MissingEmailAlert)
    else if password == "" then Some(MissingPasswordAlert)
    else None
  }

  /** An empty email is reported, and only it, whatever the password holds. */
  lemma EmailIsCheckedFirst(password: string)
    ensures LoginGuard("", password) == Some(MissingEmailAlert)
  {
  }

  lemma MissingPasswordNeedsEmail(email: string, password: string)
    ensures LoginGuard(email, password) == Some(MissingPasswordAlert) <==> email != "" && password == ""
  {
  }

  /** Where a page showing the given user redirects at once, if anywhere. */
  function AlreadySignedInRedirect(user: Option<User>): (target: Option<string>)
    ensures target.Some? <==> user.Some?
    ensures user.Some? ==>
      && |DashboardPrefix| <= |target.value|
      && target.value[..|DashboardPrefix|] == DashboardPrefix
      && target.value[|DashboardPrefix|..] == user.value.uid
  {
    match user
    case None => None
    case Some(u) => Some(DashboardPath(u.uid))
  }

  class LoginForm {
    var email: string
    var password: string

    constructor ()
      ensures email == "" && password == ""
    {
      email, password := "", "";
    }

    method SetEmail(value: string)
      modifies this`email
      ensures email == value
    {
      email := value;
    }

    method SetPassword(value: string)
      modifies this`password
      ensures password == value
    {
      password := value;
    }

    /** Submitting the form: an empty field stops it with an alert; otherwise
        sign-in is attempted, and `outcome` is what that call returns. On
        success both fields are cleared and the user's dashboard is opened;
        on failure nothing changes but the alert. */
    method HandleLogin(outcome: SignInOutcome)
      returns (attempted: bool, alert: Option<string>, navigation: Option<string>)
      modifies this
      ensures attempted <==> old(email) != "" && old(password) != ""
      ensures !attempted ==>
        && email == old(email) && password == old(password)
        && navigation == None && alert == LoginGuard(old(email), old(password))
      ensures attempted && outcome.SignedIn? ==>
        && email == "" && password == ""
        && navigation == Some(DashboardPath(outcome.uid)) && alert == None
      ensures attempted && outcome == SignInFailed ==>
        && email == old(email) && password == old(password)
        && navigation == None && alert == Some(LoginFailedAlert)
    {
      if email == "" {
        return false, Some(MissingEmailAlert), None;
      }
      if password == "" {
        return false, Some(MissingPasswordAlert), None;
      }
      attempted := true;
      match outcome
      case SignedIn(uid) =>
        email := "";
        password := "";
        alert, navigation := None, Some(DashboardPath(uid));
      case SignInFailed =>
        alert, navigation := Some(LoginFailedAlert), None;
    }
  }
}
