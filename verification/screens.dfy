/** What the form screens' response handlers do outside their own fields, and the
    server messages they branch on. */
module Screens {
  import opened Users
  import R = Resources
  import MainActivity

  /** An exception a handler can raise; `payload!!` on a response without a user. */
  datatype Exception = NullPointer

  /** One step a handler takes outside its own fields, in order. `Threw` ends the handler:
      the exception is uncaught and ends the app. */
  datatype Effect =
    | SetUser(user: User)
    | Navigate(route: string, popUpToInclusive: string)
    | Toast(text: R.StringId)
    | Threw(error: Exception)

  /** What a successful sign-in or sign-up does after setting the user: open the home page and
      drop the sign-in page from the back stack. */
  const GoHome := Navigate(MainActivity.Page.Home.Route(), MainActivity.Page.Auth.Route())

  // Messages of 406 responses.
  const AccountDisabledMessage := "This account is disabled"
  const IncorrectPasswordMessage := "Incorrect password"
  const PasswordTooShortMessage := "Password is too short"
  const DisplayNameTooLongMessage := "Display name is too long"
  const DisplayNameEmptyMessage := "Display name cannot be empty"
  const EmailInvalidMessage := "Email is invalid"
  const StatusTooLongMessage := "Status is too long"
  const EmailIncorrectlyFormattedMessage := "Email is incorrectly formatted"
}
