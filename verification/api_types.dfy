/** Request and response bodies exchanged with the server (api/APITypes.kt). */
module ApiTypes {
  import opened Wrappers

  datatype SignUpBody = SignUpBody(email: string, password: string, displayName: string)

  datatype LoginBody = LoginBody(email: string, password: string)

  /** The "info" part of a profile update; `None` fields are sent as null. */
  datatype ProfileUpdateBody = ProfileUpdateBody(
    uid: string,
    displayName: Option<string>,
    email: Option<string>,
    password: Option<string>,
    pic: Option<string>,
    status: Option<string>,
    hasPicFile: bool)
}
