/**
  The sign-in page: the sign-in and registration forms, the error shown
  under them and the busy flag of their buttons. A request's outcome is a
  parameter: the server's reply, or the `detail` of the error body when
  the server sent one.
*/
module LoginPage {
  import opened Wrappers
  import opened Json
  import opened Session

  datatype LoginData = LoginData(email: string, password: string)

  datatype RegisterData = RegisterData(
    email: string, name: string, phone: string, role: string, companyId: string, password: string)

  const BlankLogin := LoginData("", "")
  const BlankRegister := RegisterData("", "", "", "", "", "")

  /** The parts of the sign-in reply the page uses. */
  datatype LoginReply = LoginReply(user: Value, accessToken: string)

  const LoginFailed := "Login failed"
  const RegistrationFailed := "Registration failed"

  /** `err.response?.data?.detail || fallback`: the server's message when it sent a non-empty one. */
  function ErrorText(detail: Option<string>, fallback: string): (r: string)
    ensures detail.Some? && detail.value != "" ==> r == detail.value
    ensures detail.None? || detail.value == "" ==> r == fallback
  {
    match detail
    case Some(d) => if d != "" then d else fallback
    case None => fallback
  }

  /** The message shown is never empty, so the error banner appears after every failure. */
  lemma ErrorAlwaysShown(detail: Option<string>, fallback: string)
    requires fallback != ""
    ensures ErrorText(detail, fallback) != ""
  {
  }

  class LoginForm {
    var loading: bool
    var error: string
    var loginData: LoginData
    var registerData: RegisterData

    constructor ()
      ensures !loading && error == "" && loginData == BlankLogin && registerData == BlankRegister
    {
      loading := false;
      error := "";
      loginData := BlankLogin;
      registerData := BlankRegister;
    }

    /** What both handlers do before the request: busy, and no error shown. */
    method Submit()
      modifies this`loading, this`error
      ensures loading && error == ""
    {
      loading := true;
      error := "";
    }

    /** `handleLogin`: on success the reply's user and token go to the session, unchanged. */
    method HandleLogin(outcome: Result<LoginReply, Option<string>>, auth: AuthProvider)
      modifies this`loading, this`error, auth
      ensures !loading
      ensures outcome.Ok? ==> error == "" && auth.Current() == LoggedIn(old(auth.Current()), outcome.value.user, outcome.value.accessToken)
      ensures outcome.Err? ==> error == ErrorText(outcome.error, LoginFailed) && auth.Current() == old(auth.Current())
    {
      Submit();
      match outcome {
        case Ok(reply) =>
          auth.Login(reply.user, reply.accessToken);
        case Err(detail) =>
          error := ErrorText(detail, LoginFailed);
      }
      loading := false;
    }

    /** `handleRegister`: on success the registration form is emptied; the sign-in form is never touched. */
    method HandleRegister(outcome: Result<(), Option<string>>)
      modifies this`loading, this`error, this`registerData
      ensures !loading
      ensures outcome.Ok? ==> error == "" && registerData == BlankRegister
      ensures outcome.Err? ==> error == ErrorText(outcome.error, RegistrationFailed) && registerData == old(registerData)
    {
      Submit();
      if outcome.Ok? {
        registerData := BlankRegister;
      } else {
        error := ErrorText(outcome.error, RegistrationFailed);
      }
      loading := false;
    }
  }
}
