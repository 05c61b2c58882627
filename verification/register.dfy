/** The registration form: its validation chain and the submit handler. */
module Register {
  import opened Wrappers

  const MinPasswordLength: nat := 6

  /** The outcome of the checks, in the order they run. */
  datatype Verdict = MissingInformation | PasswordMismatch | WeakPassword | Accepted

  /** Checks the form: every field filled in, then matching passwords, then
      a password of at least six characters. The first failing check decides. */
  function Validate(email: string, password: string, confirmPassword: string): (v: Verdict)
    ensures v == MissingInformation <==> email == "" || password == "" || confirmPassword == ""
    ensures v == PasswordMismatch <==>
      email != "" && password != "" && confirmPassword != "" && password != confirmPassword
    ensures v == WeakPassword <==>
      email != "" && password != "" && password == confirmPassword && |password| < MinPasswordLength
    ensures v == Accepted <==>
      email != "" && password == confirmPassword && |password| >= MinPasswordLength
  {
    if email == "" || password == "" || confirmPassword == "" then MissingInformation
    else if password != confirmPassword then PasswordMismatch
    else if |password| < MinPasswordLength then WeakPassword
    else Accepted
  }

  /** A mismatch is reported even when the password is also too short. */
  lemma MismatchBeforeLength(email: string, password: string, confirmPassword: string)
    requires email != "" && password != "" && confirmPassword != ""
    requires password != confirmPassword && |password| < MinPasswordLength
    ensures Validate(email, password, confirmPassword) == PasswordMismatch
  {
  }

  /** Six characters is long enough; five is not. */
  lemma LengthBoundary(email: string)
    requires email != ""
    ensures Validate(email, "secret", "secret") == Accepted
    ensures Validate(email, "short", "short") == WeakPassword
  {
  }

  /** A notification shown to the user. */
  datatype Toast = Toast(title: string, description: string, destructive: bool)

  /** The notification for a rejected form. */
  function RejectionToast(v: Verdict): (t: Toast)
    requires v != Accepted
    ensures t.destructive
    ensures t.title == match v
      case MissingInformation => "Missing Information"
      case PasswordMismatch => "Password Mismatch"
      case WeakPassword => "Weak Password"
  {
    match v
    case MissingInformation => Toast("Missing Information", "Please fill in all fields.", true)
    case PasswordMismatch => Toast("Password Mismatch", "Passwords do not match.", true)
    case WeakPassword => Toast("Weak Password", "Password must be at least 6 characters.", true)
  }

  /** What the authentication service did with the sign-up: accepted it,
      returned an error, or threw. */
  datatype SignUpOutcome = SignUpOk | SignUpError(message: string) | SignUpThrew

  datatype Credentials = Credentials(email: string, password: string)

  /** What one submit does: the sign-up call made (if any), the loading flag
      while that call runs, the notification and the navigation. */
  datatype SubmitResult = SubmitResult(
    signUpCall: Option<Credentials>,
    loadingDuringCall: bool,
    toast: Toast,
    navigateTo: Option<string>)

  const LoginRoute: string := "/login"

  datatype Field = Email | Password | ConfirmPassword

  class RegisterForm {
    var email: string
    var password: string
    var confirmPassword: string
    var loading: bool

    constructor ()
      ensures email == "" && password == "" && confirmPassword == "" && !loading
    {
      email, password, confirmPassword := "", "", "";
      loading := false;
    }

    /** Typing into one input replaces that field only. */
    method SetField(field: Field, value: string)
      modifies this
      ensures email == (if field == Email then value else old(email))
      ensures password == (if field == Password then value else old(password))
      ensures confirmPassword == (if field == ConfirmPassword then value else old(confirmPassword))
      ensures loading == old(loading)
    {
      match field
      case Email => email := value;
      case Password => password := value;
      case ConfirmPassword => confirmPassword := value;
    }

    /** Submitting the form, with the sign-up call's outcome as input. */
    method HandleSubmit(signUp: SignUpOutcome) returns (r: SubmitResult)
      modifies this`loading
      ensures var v := Validate(email, password, confirmPassword);
        && (r.signUpCall.Some? <==> v == Accepted)
        && (v != Accepted ==> r.toast == RejectionToast(v) && loading == old(loading))
      ensures r.signUpCall.Some? ==>
        && r.signUpCall.value == Credentials(email, password)
        && r.loadingDuringCall && !loading
      ensures r.navigateTo.Some? <==> r.signUpCall.Some? && signUp == SignUpOk
      ensures r.navigateTo.Some? ==> r.navigateTo.value == LoginRoute && !r.toast.destructive
      ensures r.signUpCall.Some? && signUp != SignUpOk ==>
        r.toast.title == "Registration Failed" && r.toast.destructive
    {
      var v := Validate(email, password, confirmPassword);
      if v != Accepted {
        return SubmitResult(None, false, RejectionToast(v), None);
      }
      loading := true;
      var during := loading;
      var toast: Toast;
      var target: Option<string> := None;
      match signUp {
        case SignUpOk =>
          toast := Toast("Account Created!", "You can now sign in.", false);
          target := Some(LoginRoute);
        case SignUpError(message) =>
          toast := Toast("Registration Failed", message, true);
        case SignUpThrew =>
          toast := Toast("Registration Failed", "An unexpected error occurred.", true);
      }
      loading := false;
      r := SubmitResult(Some(Credentials(email, password)), during, toast, target);
    }
  }
}
