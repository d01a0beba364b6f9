/** The user record the server sends back (schemas/Users.kt). */
module Users {

  /** A user. The record in schemas/Users.kt has no `status`, but the profile
      screen reads `user.status`, so the model carries one. */
  datatype User = User(
    uid: string,
    displayName: string,
    email: string,
    pic: string,
    status: string,
    disabled: bool)
}
