/** The sign-up form (compose/auth/SignUp.kt): its fields, their edit handlers,
    and the button's request and response handler, split at the request as in
    the sign-in form. */
module SignUp {
  import opened Wrappers
  import opened ApiTypes
  import opened ApiRequest
  import opened Screens
  import R = Resources

  const SignUpPath := "sign-up"

  datatype SignUpFields = SignUpFields(
    displayName: string,
    email: string,
    password: string,
    displayNameError: Option<R.StringId>,
    emailError: Option<R.StringId>,
    passwordError: Option<R.StringId>,
    loading: bool)

  const InitialSignUpFields := SignUpFields("", "", "", None, None, None, false)

  class SignUpForm {
    var displayName: string
    var email: string
    var password: string
    var displayNameError: Option<R.StringId>
    var emailError: Option<R.StringId>
    var passwordError: Option<R.StringId>
    var loading: bool

    ghost function Fields(): SignUpFields
      reads this
    {
      SignUpFields(displayName, email, password, displayNameError, emailError, passwordError, loading)
    }

    constructor ()
      ensures Fields() == InitialSignUpFields
    {
      displayName, email, password := "", "", "";
      displayNameError, emailError, passwordError := None, None, None;
      loading := false;
    }

    /** Each edit handler sets its field and clears that field's error only. */
    method EditDisplayName(text: string)
      modifies this
      ensures Fields() == old(Fields()).(displayName := text, displayNameError := None)
    {
      displayName := text;
      displayNameError := None;
    }

    method EditEmail(text: string)
      modifies this
      ensures Fields() == old(Fields()).(email := text, emailError := None)
    {
      email := text;
      emailError := None;
    }

    method EditPassword(text: string)
      modifies this
      ensures Fields() == old(Fields()).(password := text, passwordError := None)
    {
      password := text;
      passwordError := None;
    }

    /** The request the button sends: a JSON POST to "sign-up" carrying the three inputs unchanged. */
    function SignUpRequest(): (r: Request<SignUpBody>)
      reads this
      ensures r.body == Some(SignUpBody(email, password, displayName))
      ensures r.verb == Post && r.url == ApiUrl + SignUpPath && r.contentType == Some(JsonContentType)
    {
      BodyRequest(SignUpPath, Post, Some(SignUpBody(email := email, password := password, displayName := displayName))).value
    }

    /** Pressing the button: show the spinner and send the request. */
    method StartSignUp() returns (request: Request<SignUpBody>)
      modifies this
      ensures request == old(SignUpRequest())
      ensures Fields() == old(Fields()).(loading := true)
    {
      loading := true;
      request := SignUpRequest();
    }

    /** The response handler. */
    method FinishSignUp(res: HttpResponse) returns (effects: seq<Effect>)
      modifies this
      // Only 201 is success: sign the user in and go home, unless the payload is missing.
      ensures res.status == StatusCreated && res.payload.None? ==>
        effects == [Threw(NullPointer)] && Fields() == old(Fields())
      ensures res.status == StatusCreated && res.payload.Some? ==>
        effects == [SetUser(res.payload.value), GoHome]
        && Fields() == old(Fields()).(loading := false)
      // 406: each known message flags one field; some also clear it.
      ensures res.status == StatusNotAcceptable && res.message == PasswordTooShortMessage ==>
        effects == [] && Fields() == old(Fields()).(passwordError := Some(R.PasswordLength), loading := false)
      ensures res.status == StatusNotAcceptable && res.message == DisplayNameTooLongMessage ==>
        effects == []
        && Fields() == old(Fields()).(displayName := "", displayNameError := Some(R.DisplayNameMaxLength), loading := false)
      ensures res.status == StatusNotAcceptable && res.message == DisplayNameEmptyMessage ==>
        effects == [] && Fields() == old(Fields()).(displayNameError := Some(R.DisplayNameEmpty), loading := false)
      ensures res.status == StatusNotAcceptable && res.message == EmailInvalidMessage ==>
        effects == []
        && Fields() == old(Fields()).(email := "", emailError := Some(R.EmailFormattedIncorrectly), loading := false)
      ensures res.status == StatusNotAcceptable
              && res.message !in {PasswordTooShortMessage, DisplayNameTooLongMessage, DisplayNameEmptyMessage, EmailInvalidMessage} ==>
        effects == [] && Fields() == old(Fields()).(loading := false)
      // 409: the email is taken.
      ensures res.status == StatusConflict ==>
        effects == [] && Fields() == old(Fields()).(email := "", emailError := Some(R.EmailInUse), loading := false)
      // 500: only a toast.
      ensures res.status == StatusInternalServerError ==>
        effects == [Toast(R.SignUpAgain)] && Fields() == old(Fields()).(loading := false)
      // Any other status, 200 included: nothing but the spinner.
      ensures res.status !in {StatusCreated, StatusNotAcceptable, StatusConflict, StatusInternalServerError} ==>
        effects == [] && Fields() == old(Fields()).(loading := false)
      // The spinner stops unless the handler threw; the password is never cleared.
      ensures effects != [Threw(NullPointer)] ==> !loading
      ensures password == old(password)
    {
      if res.status == StatusCreated {
        if res.payload.None? {
          effects := [Threw(NullPointer)];
          return;
        }
        effects := [SetUser(res.payload.value), GoHome];
      } else if res.status == StatusNotAcceptable {
        if res.message == PasswordTooShortMessage {
          passwordError := Some(R.PasswordLength);
        } else if res.message == DisplayNameTooLongMessage {
          displayName := "";
          displayNameError := Some(R.DisplayNameMaxLength);
        } else if res.message == DisplayNameEmptyMessage {
          displayNameError := Some(R.DisplayNameEmpty);
        } else if res.message == EmailInvalidMessage {
          email := "";
          emailError := Some(R.EmailFormattedIncorrectly);
        }
        effects := [];
      } else if res.status == StatusConflict {
        email := "";
        emailError := Some(R.EmailInUse);
        effects := [];
      } else if res.status == StatusInternalServerError {
        effects := [Toast(R.SignUpAgain)];
      } else {
        effects := [];
      }
      loading := false;
    }
  }
}
