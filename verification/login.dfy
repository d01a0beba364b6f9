/** The sign-in form (compose/auth/Login.kt): its fields, their edit handlers,
    and the button's request and response handler. The handler runs in a
    coroutine that suspends at the request; `StartLogin` is the part before the
    suspension and `FinishLogin` the part after it. */
module Login {
  import opened Wrappers
  import opened ApiTypes
  import opened ApiRequest
  import opened Screens
  import R = Resources

  const LoginPath := "login"

  datatype LoginFields = LoginFields(
    email: string,
    password: string,
    emailError: Option<R.StringId>,
    passwordError: Option<R.StringId>,
    loading: bool)

  /** The empty form. */
  const InitialLoginFields := LoginFields("", "", None, None, false)

  class LoginForm {
    var email: string
    var password: string
    var emailError: Option<R.StringId>
    var passwordError: Option<R.StringId>
    var loading: bool

    ghost function Fields(): LoginFields
      reads this
    {
      LoginFields(email, password, emailError, passwordError, loading)
    }

    constructor ()
      ensures Fields() == InitialLoginFields
    {
      email, password := "", "";
      emailError, passwordError := None, None;
      loading := false;
    }

    /** Typing in the email field clears the email error and nothing else. */
    method EditEmail(text: string)
      modifies this
      ensures Fields() == old(Fields()).(email := text, emailError := None)
    {
      email := text;
      emailError := None;
    }

    /** Typing in the password field clears the password error and nothing else. */
    method EditPassword(text: string)
      modifies this
      ensures Fields() == old(Fields()).(password := text, passwordError := None)
    {
      password := text;
      passwordError := None;
    }

    /** The request the button sends: a JSON POST to "login" carrying the current email and password. */
    function LoginRequest(): (r: Request<LoginBody>)
      reads this
      ensures r.body == Some(LoginBody(email, password))
      ensures r.verb == Post && r.url == ApiUrl + LoginPath && r.contentType == Some(JsonContentType)
    {
      BodyRequest(LoginPath, Post, Some(LoginBody(email, password))).value
    }

    /** Pressing the button: show the spinner and send the request. */
    method StartLogin() returns (request: Request<LoginBody>)
      modifies this
      ensures request == old(LoginRequest())
      ensures Fields() == old(Fields()).(loading := true)
    {
      loading := true;
      request := LoginRequest();
    }

    /** The response handler. */
    method FinishLogin(res: HttpResponse) returns (effects: seq<Effect>)
      modifies this
      // 200: sign the user in and go home, unless the payload is missing.
      ensures res.status == StatusOK && res.payload.None? ==>
        effects == [Threw(NullPointer)] && Fields() == old(Fields())
      ensures res.status == StatusOK && res.payload.Some? ==>
        effects == [SetUser(res.payload.value), GoHome]
        && Fields() == old(Fields()).(loading := false)
      // 404: clear both fields and flag the email.
      ensures res.status == StatusNotFound ==>
        effects == []
        && Fields() == old(Fields()).(email := "", password := "", emailError := Some(R.UserNotFound), loading := false)
      // 406: a disabled account clears both fields; a wrong password clears only the password.
      ensures res.status == StatusNotAcceptable && res.message == AccountDisabledMessage ==>
        effects == []
        && Fields() == old(Fields()).(email := "", password := "", emailError := Some(R.AccountDisabled), loading := false)
      ensures res.status == StatusNotAcceptable && res.message == IncorrectPasswordMessage ==>
        effects == []
        && Fields() == old(Fields()).(password := "", passwordError := Some(R.IncorrectPassword), loading := false)
      ensures res.status == StatusNotAcceptable
              && res.message != AccountDisabledMessage && res.message != IncorrectPasswordMessage ==>
        effects == [] && Fields() == old(Fields()).(loading := false)
      // 500: only a toast.
      ensures res.status == StatusInternalServerError ==>
        effects == [Toast(R.LoginAgain)] && Fields() == old(Fields()).(loading := false)
      // Any other status: nothing but the spinner.
      ensures res.status !in {StatusOK, StatusNotFound, StatusNotAcceptable, StatusInternalServerError} ==>
        effects == [] && Fields() == old(Fields()).(loading := false)
      // Whatever the outcome, the spinner stops unless the handler threw.
      ensures effects != [Threw(NullPointer)] ==> !loading
      ensures email == old(email) || email == ""
      ensures password == old(password) || password == ""
    {
      if res.status == StatusOK {
        if res.payload.None? {
          effects := [Threw(NullPointer)];
          return;
        }
        effects := [SetUser(res.payload.value), GoHome];
      } else if res.status == StatusNotFound {
        email := "";
        password := "";
        emailError := Some(R.UserNotFound);
        effects := [];
      } else if res.status == StatusNotAcceptable {
        if res.message == AccountDisabledMessage {
          email := "";
          password := "";
          emailError := Some(R.AccountDisabled);
        } else if res.message == IncorrectPasswordMessage {
          password := "";
          passwordError := Some(R.IncorrectPassword);
        }
        effects := [];
      } else if res.status == StatusInternalServerError {
        effects := [Toast(R.LoginAgain)];
      } else {
        effects := [];
      }
      loading := false;
    }
  }
}
