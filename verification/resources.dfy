/** The string resources (`R.string.*`) that the modelled code refers to.
    Their text is platform data; the model only keeps which one is meant. */
module Resources {

  datatype StringId =
    // page names (Page.nameId)
    | Home
    | Auth
    | Settings
    | Profile
    // field errors and toasts
    | UserNotFound
    | AccountDisabled
    | IncorrectPassword
    | LoginAgain
    | PasswordLength
    | DisplayNameMaxLength
    | DisplayNameEmpty
    | EmailFormattedIncorrectly
    | EmailInUse
    | SignUpAgain
    | StatusLength
    | SaveChangesAgain
    | SavedChangesSuccessfully
    | PicTooLarge
}
