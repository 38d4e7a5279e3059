/** The sign-up page's state: the three form fields and the shown error, the
    early-return check chain that writes the error, and the submit step. The
    account-creation call is external; its outcome is a parameter. */
module SignUpPage {
  import opened Wrappers
  import opened PasswordRules

  /** How the external account-creation call ended. */
  datatype CreateOutcome = Created | CreateFailed(message: string)

  /** Where a successful sign-up navigates, and the alerts the submit step can raise. */
  const LoginPath := "/auth/login"
  const SignUpSucceededAlert := "Sign up successful!"

  const SignUpFailedPrefix := "Sign up failed: "

  /** The alert for a failed creation: the fixed prefix, then the call's error message. */
  function SignUpFailedAlert(message: string): (alert: string)
    ensures |alert| == |SignUpFailedPrefix| + |message|
    ensures alert[..|SignUpFailedPrefix|] == SignUpFailedPrefix && alert[|SignUpFailedPrefix|..] == message
  {
    SignUpFailedPrefix + message
  }

  class SignUpForm {
    var email: string
    var password: string
    var confirmedPassword: string
    var error: string

    constructor ()
      ensures email == "" && password == "" && confirmedPassword == "" && error == ""
    {
      email, password, confirmedPassword, error := "", "", "", "";
    }

    /** The input handlers of the three fields. */
    method SetEmail(value: string)
      modifies this`email
      ensures email == value
    {
      email := value;
    }

    method SetPassword(value: string)
      modifies this`password
      ensures password == value
    {
      password := value;
    }

    method SetConfirmedPassword(value: string)
      modifies this`confirmedPassword
      ensures confirmedPassword == value
    {
      confirmedPassword := value;
    }

    /** Runs the checks in order, stops at the first that fails and shows its
        message; when all pass the shown error is cleared. The fields stay as
        they are. */
    method CheckError() returns (ok: bool)
      modifies this`error
      ensures ok <==> Validate(email, password, confirmedPassword) == Accept
      ensures error == ErrorText(Validate(email, password, confirmedPassword))
      ensures ok <==> error == ""
    {
      if !HasEmail(email) {
        error := ErrorMsg(MissingEmail);
        return false;
      }
      if !HasPwd(password) {
        error := ErrorMsg(MissingPwd);
        return false;
      }
      if !DoesPwdMatch(password, confirmedPassword) {
        error := ErrorMsg(PwdUnmatched);
        return false;
      }
      if !MeetsMinLength(password) {
        error := ErrorMsg(TooShortPwd);
        return false;
      }
      if !MeetsMaxLength(password) {
        error := ErrorMsg(TooLongPwd);
        return false;
      }
      if !ContainsNumber(password) {
        error := ErrorMsg(MissingNumber);
        return false;
      }
      if !ContainsLowercase(password) {
        error := ErrorMsg(MissingLowercase);
        return false;
      }
      if !ContainsUppercase(password) {
        error := ErrorMsg(MissingUppercase);
        return false;
      }
      if !ContainsSpecial(password) {
        error := ErrorMsg(MissingSpecial);
        return false;
      }
      error := "";
      return true;
    }

    /** Submitting the form: account creation is attempted only when the checks
        accept, and the fields are cleared only when it succeeds. `created` is
        what the external call would return if it were made. */
    method HandleSignUp(created: CreateOutcome)
      returns (attempted: bool, navigation: Option<string>, alert: Option<string>)
      modifies this
      ensures attempted <==> old(Validate(email, password, confirmedPassword)) == Accept
      ensures error == ErrorText(old(Validate(email, password, confirmedPassword)))
      ensures !attempted ==>
        && email == old(email) && password == old(password) && confirmedPassword == old(confirmedPassword)
        && navigation == None && alert == None
      ensures attempted && created == Created ==>
        && email == "" && password == "" && confirmedPassword == ""
        && navigation == Some(LoginPath) && alert == Some(SignUpSucceededAlert)
      ensures attempted && created.CreateFailed? ==>
        && email == old(email) && password == old(password) && confirmedPassword == old(confirmedPassword)
        && navigation == None && alert == Some(SignUpFailedAlert(created.message))
    {
      var ok := CheckError();
      if !ok {
        return false, None, None;
      }
      attempted := true;
      match created
      case Created =>
        email := "";
        password := "";
        confirmedPassword := "";
        navigation, alert := Some(LoginPath), Some(SignUpSucceededAlert);
      case CreateFailed(message) =>
        navigation, alert := None, Some(SignUpFailedAlert(message));
    }
  }
}
