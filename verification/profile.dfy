/** The profile form (compose/profile/Profile.kt): picture sources, input
    truncation, the update body for each save branch, and the save handler,
    split at the request as in the sign-in form. Picking, cropping and
    compressing the picture are platform work: the compressed bytes are an
    input of `StartSave`. */
module Profile {
  import opened Wrappers
  import opened Users
  import opened ApiTypes
  import opened ApiRequest
  import opened Screens
  import R = Resources

  /** Where the new profile picture comes from. */
  datatype ProfilePicSource =
    | NoChange(source: string)
    | Url(source: string)
    | Initials(source: string)
    | Picture(source: string)
  {
    /** The entry's position in the source drop-down (`nameIndex`). */
    function NameIndex(): nat
    {
      match this
      case NoChange(_) => 0
      case Url(_) => 1
      case Initials(_) => 2
      case Picture(_) => 3
    }

    /** `type`: "file" for a picked picture, "url" for the others. */
    function Type(): string
    {
      match this
      case NoChange(_) => "url"
      case Url(_) => "url"
      case Initials(_) => "url"
      case Picture(_) => "file"
    }
  }

  /** The drop-down indices are 0 to 3, one per kind of source, and only a picked picture is a file. */
  lemma PicSourceKinds(a: ProfilePicSource, b: ProfilePicSource)
    ensures a.NameIndex() <= 3
    ensures a.Type() == "file" <==> a.Picture?
    ensures a.Type() == "url" <==> !a.Picture?
    ensures a.NameIndex() == b.NameIndex() <==>
      (a.NoChange? && b.NoChange?) || (a.Url? && b.Url?) || (a.Initials? && b.Initials?) || (a.Picture? && b.Picture?)
  {
  }

  const DisplayNameLimit := 20
  const StatusLimit := 50

  /** Kotlin's `take(n)`: the first n characters, or the whole text when it is shorter. */
  function Take(s: string, n: nat): (r: string)
    ensures |r| <= n && r <= s
    ensures |s| <= n ==> r == s
    ensures |s| > n ==> |r| == n
  {
    if |s| <= n then s else s[..n]
  }

  /** `ifEmpty { null }`. */
  function IfEmptyNull(s: string): (r: Option<string>)
    ensures r.None? <==> s == ""
    ensures r.Some? ==> r.value == s
  {
    if s == "" then None else Some(s)
  }

  /** `if (edited == current) null else edited`: only a change is sent. */
  function NullIfUnchanged(current: string, edited: string): (r: Option<string>)
    ensures r.None? <==> edited == current
    ensures r.Some? ==> r.value == edited
  {
    if edited == current then None else Some(edited)
  }

  /** The update body when the picture is given by URL: every field is sent, with the URL as `pic`. */
  function UrlBranchBody(user: User, displayName: string, status: string, email: string,
                         password: string, pic: string): (b: ProfileUpdateBody)
    ensures b.uid == user.uid && !b.hasPicFile && b.pic == Some(pic)
    ensures b.displayName == Some(displayName) && b.status == Some(status) && b.email == Some(email)
    ensures b.password.None? <==> password == ""
    ensures b.password.Some? ==> b.password.value == password
  {
    ProfileUpdateBody(
      uid := user.uid,
      displayName := Some(displayName),
      email := Some(email),
      password := IfEmptyNull(password),
      pic := Some(pic),
      status := Some(status),
      hasPicFile := false)
  }

  /** The update body when a picture file is uploaded: only changed texts are sent, and no `pic`. */
  function FileBranchBody(user: User, displayName: string, status: string, email: string,
                          password: string): (b: ProfileUpdateBody)
    ensures b.uid == user.uid && b.hasPicFile && b.pic == None
    ensures b.displayName.None? <==> displayName == user.displayName
    ensures b.status.None? <==> status == user.status
    ensures b.email.None? <==> email == user.email
    ensures b.password.None? <==> password == ""
    ensures b.displayName.Some? ==> b.displayName.value == displayName
    ensures b.status.Some? ==> b.status.value == status
    ensures b.email.Some? ==> b.email.value == email
    ensures b.password.Some? ==> b.password.value == password
  {
    ProfileUpdateBody(
      uid := user.uid,
      displayName := NullIfUnchanged(user.displayName, displayName),
      email := NullIfUnchanged(user.email, email),
      password := IfEmptyNull(password),
      pic := None,
      status := NullIfUnchanged(user.status, status),
      hasPicFile := true)
  }

  /** Saving an unedited form with a new picture file sends no text at all: only the uid and the
      file flag. */
  lemma UnchangedUploadSendsOnlyPicture(user: User)
    ensures FileBranchBody(user, user.displayName, user.status, user.email, "")
         == ProfileUpdateBody(user.uid, None, None, None, None, None, true)
  {
  }

  /** Both branches send the same password field: none when the input is empty. */
  lemma BranchesAgreeOnPassword(user: User, displayName: string, status: string, email: string,
                                password: string, pic: string)
    ensures UrlBranchBody(user, displayName, status, email, password, pic).password
         == FileBranchBody(user, displayName, status, email, password).password
         == IfEmptyNull(password)
  {
  }

  const UpdateProfilePath := "update-profile"
  const InfoPartHeaders := [(ContentTypeHeader, JsonContentType)]
  const FilePartHeaders := [
    (ContentTypeHeader, "image/jpeg"),
    ("Content-Disposition", "form-data; name=\"file\"; filename=\"profile-pic.jpg\"")
  ]

  /** The form parts of a save: the JSON "info" part, then the picture file when there is one. */
  function SaveParts(body: ProfileUpdateBody, file: Option<seq<bv8>>): (parts: seq<FormPart>)
    ensures |parts| >= 1 && parts[0] == FormPart("info", JsonInfo(body), InfoPartHeaders)
    ensures file.None? ==> |parts| == 1
    ensures file.Some? ==> |parts| == 2 && parts[1] == FormPart("file", FileBytes(file.value), FilePartHeaders)
  {
    var info := FormPart("info", JsonInfo(body), InfoPartHeaders);
    match file
    case None => [info]
    case Some(bytes) => [info, FormPart("file", FileBytes(bytes), FilePartHeaders)]
  }

  datatype SaveBranch = UrlBranch | FileBranch

  /** What the save coroutine holds across the request: its branch and the user it started with. */
  datatype PendingSave = PendingSave(branch: SaveBranch, user: User)

  /** The start of a save: the request sent, or `picSource!!` failing on a missing source. */
  datatype SaveStart =
    | Launched(pending: PendingSave, request: MultipartRequest)
    | Aborted(error: Exception)

  /** The field whose error a 406 message flags. */
  datatype ErrorSlot = DisplayNameSlot | StatusSlot | EmailSlot | PasswordSlot

  /** The error a 406 message selects, if the message is one the form knows. */
  function Rejection(message: string): (r: Option<(ErrorSlot, R.StringId)>)
    ensures r.None? <==> message !in {DisplayNameEmptyMessage, DisplayNameTooLongMessage,
                                      PasswordTooShortMessage, StatusTooLongMessage,
                                      EmailIncorrectlyFormattedMessage}
    ensures message == DisplayNameEmptyMessage ==> r == Some((DisplayNameSlot, R.DisplayNameEmpty))
    ensures message == DisplayNameTooLongMessage ==> r == Some((DisplayNameSlot, R.DisplayNameMaxLength))
    ensures message == PasswordTooShortMessage ==> r == Some((PasswordSlot, R.PasswordLength))
    ensures message == StatusTooLongMessage ==> r == Some((StatusSlot, R.StatusLength))
    ensures message == EmailIncorrectlyFormattedMessage ==> r == Some((EmailSlot, R.EmailFormattedIncorrectly))
  {
    if message == DisplayNameEmptyMessage then Some((DisplayNameSlot, R.DisplayNameEmpty))
    else if message == DisplayNameTooLongMessage then Some((DisplayNameSlot, R.DisplayNameMaxLength))
    else if message == PasswordTooShortMessage then Some((PasswordSlot, R.PasswordLength))
    else if message == StatusTooLongMessage then Some((StatusSlot, R.StatusLength))
    else if message == EmailIncorrectlyFormattedMessage then Some((EmailSlot, R.EmailFormattedIncorrectly))
    else None
  }

  /** Kotlin's `drop(n)`: the text without its first n characters, or "" when it is shorter. */
  function Drop(s: string, n: nat): (r: string)
    ensures |s| <= n ==> r == ""
    ensures |s| > n ==> |r| == |s| - n && s == s[..n] + r
  {
    if |s| <= n then "" else s[n..]
  }

  const InitialsService := "https://eu.ui-avatars.com/api/?name="
  const InitialsOptions := "&size=128&rounded=true&background="

  /** The avatar URL for the initials of a display name, over the picked colour without its
      two-digit alpha prefix. `encodedName` is the URL-path encoding of the display name. */
  function InitialsUrl(encodedName: string, colourHex: string): (url: string)
    ensures |url| == |InitialsService| + |encodedName| + |InitialsOptions| + |Drop(colourHex, 2)|
    ensures InitialsService <= url
    ensures url[|InitialsService|..|InitialsService| + |encodedName|] == encodedName
    ensures url[|InitialsService| + |encodedName|..][..|InitialsOptions|] == InitialsOptions
    ensures url[|InitialsService| + |encodedName| + |InitialsOptions|..] == Drop(colourHex, 2)
  {
    var url := InitialsService + encodedName + InitialsOptions + Drop(colourHex, 2);
    assert url[|InitialsService| + |encodedName|..] == InitialsOptions + Drop(colourHex, 2);
    url
  }

  datatype ProfileFields = ProfileFields(
    displayName: string,
    status: string,
    email: string,
    password: string,
    picSource: Option<ProfilePicSource>,
    displayNameError: Option<R.StringId>,
    statusError: Option<R.StringId>,
    emailError: Option<R.StringId>,
    passwordError: Option<R.StringId>,
    loading: bool)

  /** The fields with one error slot set. */
  function WithError(f: ProfileFields, slot: ErrorSlot, text: R.StringId): ProfileFields
  {
    match slot
    case DisplayNameSlot => f.(displayNameError := Some(text))
    case StatusSlot => f.(statusError := Some(text))
    case EmailSlot => f.(emailError := Some(text))
    case PasswordSlot => f.(passwordError := Some(text))
  }

  /** The error of one slot. */
  function ErrorOf(f: ProfileFields, slot: ErrorSlot): Option<R.StringId>
  {
    match slot
    case DisplayNameSlot => f.displayNameError
    case StatusSlot => f.statusError
    case EmailSlot => f.emailError
    case PasswordSlot => f.passwordError
  }

  /** Setting an error changes that slot and no other field: the inputs, the picture source and the
      other errors stay. */
  lemma WithErrorSetsOneSlot(f: ProfileFields, slot: ErrorSlot, text: R.StringId)
    ensures ErrorOf(WithError(f, slot, text), slot) == Some(text)
    ensures forall other: ErrorSlot :: other != slot ==> ErrorOf(WithError(f, slot, text), other) == ErrorOf(f, other)
    ensures var g := WithError(f, slot, text);
      g.displayName == f.displayName && g.status == f.status && g.email == f.email
      && g.password == f.password && g.picSource == f.picSource && g.loading == f.loading
  {
  }

  class ProfileForm {
    var displayName: string
    var status: string
    var email: string
    var password: string
    var picSource: Option<ProfilePicSource>
    var displayNameError: Option<R.StringId>
    var statusError: Option<R.StringId>
    var emailError: Option<R.StringId>
    var passwordError: Option<R.StringId>
    var loading: bool

    ghost function Fields(): ProfileFields
      reads this
    {
      ProfileFields(displayName, status, email, password, picSource,
                    displayNameError, statusError, emailError, passwordError, loading)
    }

    /** The form as first composed for `user` (no user: empty inputs and no picture source). */
    constructor (user: Option<User>)
      ensures user.Some? ==> Fields() == ProfileFields(
        user.value.displayName, user.value.status, user.value.email, "", Some(NoChange(user.value.pic)),
        None, None, None, None, false)
      ensures user.None? ==> Fields() == ProfileFields("", "", "", "", None, None, None, None, None, false)
    {
      displayName := if user.Some? then user.value.displayName else "";
      status := if user.Some? then user.value.status else "";
      email := if user.Some? then user.value.email else "";
      password := "";
      picSource := if user.Some? then Some(NoChange(user.value.pic)) else None;
      displayNameError, statusError, emailError, passwordError := None, None, None, None;
      loading := false;
    }

    /** Typing a display name keeps at most its first 20 characters and clears its error. */
    method EditDisplayName(text: string)
      modifies this
      ensures Fields() == old(Fields()).(displayName := Take(text, DisplayNameLimit), displayNameError := None)
      ensures |displayName| <= DisplayNameLimit
    {
      displayName := Take(text, DisplayNameLimit);
      displayNameError := None;
    }

    /** Typing a status keeps at most its first 50 characters and clears its error. */
    method EditStatus(text: string)
      modifies this
      ensures Fields() == old(Fields()).(status := Take(text, StatusLimit), statusError := None)
      ensures |status| <= StatusLimit
    {
      status := Take(text, StatusLimit);
      statusError := None;
    }

    method EditEmail(text: string)
      modifies this
      ensures Fields() == old(Fields()).(email := text, emailError := None)
    {
      email := text;
      emailError := None;
    }

    method EditPassword(text: string)
      modifies this
      ensures Fields() == old(Fields()).(password := text, passwordError := None)
    {
      password := text;
      passwordError := None;
    }

    /** Drop-down entry 0: keep the current picture. */
    method ChooseNoChange(user: User)
      modifies this
      ensures Fields() == old(Fields()).(picSource := Some(NoChange(user.pic)))
    {
      picSource := Some(NoChange(user.pic));
    }

    /** The URL dialog's confirm button, once `checkImageURL` has answered `isImage`. */
    method ConfirmPicUrl(picUrl: string, isImage: bool)
      modifies this
      ensures isImage ==> Fields() == old(Fields()).(picSource := Some(Url(picUrl)))
      ensures !isImage ==> Fields() == old(Fields())
    {
      if isImage {
        picSource := Some(Url(picUrl));
      }
    }

    /** The colour dialog's confirm button: the initials avatar of the current display name.
        `encodePath` stands for Ktor's `encodeURLPathPart`. */
    method ConfirmInitials(encodePath: string -> string, colourHex: string)
      modifies this
      ensures Fields() == old(Fields()).(picSource := Some(Initials(InitialsUrl(encodePath(displayName), colourHex))))
    {
      picSource := Some(Initials(InitialsUrl(encodePath(displayName), colourHex)));
    }

    /** A cropped picture was picked. */
    method PickPicture(image: string)
      modifies this
      ensures Fields() == old(Fields()).(picSource := Some(Picture(image)))
    {
      picSource := Some(Picture(image));
    }

    /** Pressing save: show the spinner, then send the update for the picture source's branch.
        `pictureBytes` is the compressed picture, used only in the file branch. */
    method StartSave(user: User, pictureBytes: seq<bv8>) returns (start: SaveStart)
      modifies this
      ensures Fields() == old(Fields()).(loading := true)
      ensures old(picSource).None? ==> start == Aborted(NullPointer)
      ensures old(picSource).Some? && old(picSource).value.Type() == "url" ==>
        start == Launched(
          PendingSave(UrlBranch, user),
          MultipartRequestFor(UpdateProfilePath, SaveParts(
            UrlBranchBody(user, displayName, status, email, password, old(picSource).value.source), None)))
      ensures old(picSource).Some? && old(picSource).value.Type() == "file" ==>
        start == Launched(
          PendingSave(FileBranch, user),
          MultipartRequestFor(UpdateProfilePath, SaveParts(
            FileBranchBody(user, displayName, status, email, password), Some(pictureBytes))))
    {
      loading := true;
      if picSource.None? {
        return Aborted(NullPointer);
      }
      var source := picSource.value;
      if source.Type() == "url" {
        var body := UrlBranchBody(user, displayName, status, email, password, source.source);
        start := Launched(PendingSave(UrlBranch, user),
                          MultipartRequestFor(UpdateProfilePath, SaveParts(body, None)));
      } else {
        var body := FileBranchBody(user, displayName, status, email, password);
        start := Launched(PendingSave(FileBranch, user),
                          MultipartRequestFor(UpdateProfilePath, SaveParts(body, Some(pictureBytes))));
      }
    }

    /** The save response handler of either branch. */
    method FinishSave(pending: PendingSave, res: HttpResponse) returns (effects: seq<Effect>)
      modifies this
      // 200: take the returned user and show its picture, unless the payload is missing.
      ensures res.status == StatusOK && res.payload.None? ==>
        effects == [Effect.Threw(NullPointer)] && Fields() == old(Fields())
      ensures res.status == StatusOK && res.payload.Some? ==>
        effects == [SetUser(res.payload.value), Toast(R.SavedChangesSuccessfully)]
        && Fields() == old(Fields()).(picSource := Some(NoChange(res.payload.value.pic)), loading := false)
      // 413 on an upload: go back to the picture the user had.
      ensures res.status == StatusPayloadTooLarge && pending.branch == FileBranch ==>
        effects == [Toast(R.PicTooLarge)]
        && Fields() == old(Fields()).(picSource := Some(NoChange(pending.user.pic)), loading := false)
      // 500: only a toast.
      ensures res.status == StatusInternalServerError ==>
        effects == [Toast(R.SaveChangesAgain)] && Fields() == old(Fields()).(loading := false)
      // 406: flag the one slot the message names, if any.
      ensures res.status == StatusNotAcceptable ==>
        effects == []
        && Fields() == match Rejection(res.message)
                       case None => old(Fields()).(loading := false)
                       case Some((slot, text)) => WithError(old(Fields()), slot, text).(loading := false)
      // Any other status, or 413 when no file was sent: nothing but the spinner.
      ensures res.status !in {StatusOK, StatusInternalServerError, StatusNotAcceptable}
              && !(res.status == StatusPayloadTooLarge && pending.branch == FileBranch) ==>
        effects == [] && Fields() == old(Fields()).(loading := false)
      // The handler never changes what the user typed, and the spinner stops unless it threw.
      ensures displayName == old(displayName) && status == old(status)
      ensures email == old(email) && password == old(password)
      ensures effects != [Effect.Threw(NullPointer)] ==> !loading
    {
      if res.status == StatusOK {
        if res.payload.None? {
          effects := [Effect.Threw(NullPointer)];
          return;
        }
        picSource := Some(NoChange(res.payload.value.pic));
        effects := [SetUser(res.payload.value), Toast(R.SavedChangesSuccessfully)];
      } else if res.status == StatusPayloadTooLarge && pending.branch == FileBranch {
        picSource := Some(NoChange(pending.user.pic));
        effects := [Toast(R.PicTooLarge)];
      } else if res.status == StatusInternalServerError {
        effects := [Toast(R.SaveChangesAgain)];
      } else if res.status == StatusNotAcceptable {
        var rejection := Rejection(res.message);
        if rejection.Some? {
          var (slot, text) := rejection.value;
          match slot {
            case DisplayNameSlot => displayNameError := Some(text);
            case StatusSlot => statusError := Some(text);
            case EmailSlot => emailError := Some(text);
            case PasswordSlot => passwordError := Some(text);
          }
        }
        effects := [];
      } else {
        effects := [];
      }
      loading := false;
    }
  }
}
