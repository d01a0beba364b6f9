# Commenter Android client — a Dafny model of its core

Commenter is a thin Android client for a commenting service: Compose screens over a REST API.
This project models the parts of the client that have data logic:

- **The persistent cookie jar** (`PersistentCookieStorage`). The HTTP client installs it. It holds
  a list of cookies and rewrites that list in place. `addCookie` drops the stored cookies it
  replaces and appends the new one, with the request host as its domain. `get` filters the list
  by URL. `close` empties it. After every change the whole list is written under the "cookies"
  preference key. Ktor's `Cookie.matches(Url)` is a relation the jar is given when it is created,
  so every property holds whatever that relation is, for cookies whose domain and path are set.
  On a cookie whose domain or path is null, Ktor's `matches` raises an error; the model returns
  that as `Failure(MissingDefault)` from `get` and `addCookie`. The stored value is the list
  itself, not JSON text.
- **Request dispatch** (`requestFromAPI` in both overloads, `requestMultipartFromAPI`,
  `checkImageURL`):
  - Each is a function that builds the request record, then hands it to a transport function
    given as a parameter.
  - A method other than GET or POST is an error result.
  - `Patterns.WEB_URL` is a predicate given as a parameter.
- **Global state**:
  - the user holder;
  - the UI-preferences holder, whose preferences file is a class with a string map and a float map;
  - the view model's setters.
- **The permission requester**: its pending-callback state machine. Invoking a callback and
  launching the platform dialog are returned as effects.
- **Pages and navigation**: page routes and names, the registered destinations, the start route,
  and the dark-theme decision.
- **The three forms** (sign-in, sign-up, profile):
  - Each is a class whose fields are the screen's remembered variables.
  - Each response handler runs in a coroutine that suspends at the request. It is split into a
    `Start…` method, which sets the spinner and builds the request, and a `Finish…` method, which
    takes the response.
  - What a handler does outside its own fields is returned as a list of effects: set the user,
    navigate, show a toast, or throw.
  - A `payload!!` on a response without a user throws a null-pointer exception before any field
    changes. Nothing catches it, so the app process ends. The model returns `Threw(NullPointer)`
    and leaves every field as it was. `picSource!!` in the profile's save button throws from the
    click handler itself, after `loading` was set, and ends the app the same way; the model returns
    `Aborted(NullPointer)`. Either one marks the end of the run, not a screen left with its spinner
    on.

Behaviour of the code a reader might not expect:

- `get` returns every stored cookie the URL matches. It is not an exact-domain lookup.
- `addCookie` keeps the cookie's own path. It does not force it to "/", and it does not fill in
  a missing path. So a Set-Cookie without a Path attribute stores a cookie with a null path.
  After that, every `get` fails, for every URL, and so does every `addCookie` of a cookie with
  the same name (`CookieStorage.PathlessCookieBreaksJar`). The broken list is also what was
  saved, so it is still broken after a restart (`CookieStorage.Restart`).
- Loading cookies decodes the stored text without any fallback. Only a missing value gives an
  empty list.
- The view model's `logout` clears the signed-in user only. It does not touch the cookie jar.
- `Users.kt` declares no `status` field, but the profile screen reads `user.status`. The model's
  `User` carries `status`.
- One cookie per (name, domain) is not an invariant of the code:
  - `CookieStorage.AddCanDuplicateKey` exhibits a duplicate.
  - `CookieStorage.AddKeepsUniqueKeys` proves that the rule is kept when every stored cookie of
    the request host matches the request URL.

## Model

Source paths are relative to the repository root. Every path below starts with
`app/src/main/java/com/chat/commenter/`.

| member | source | states |
|---|---|---|
| CookieStorage.Filter | app/src/main/java/com/chat/commenter/api/CookieStorage.kt:32 | `filter` keeps exactly the elements that satisfy the predicate, and the result is never longer than the input |
| CookieStorage.FilterAppend | app/src/main/java/com/chat/commenter/api/CookieStorage.kt:20 | filtering a concatenation filters each part, so kept elements stay in their relative order |
| CookieStorage.FilterComplementLength | app/src/main/java/com/chat/commenter/api/CookieStorage.kt:20 | the elements `removeIf` removes plus those it keeps make up the whole list |
| CookieStorage.WithRequestDomain | app/src/main/java/com/chat/commenter/api/CookieStorage.kt:21 | the stored copy has the request host as its domain and equals the argument in every other field |
| CookieStorage.Replaced | app/src/main/java/com/chat/commenter/api/CookieStorage.kt:20 | the `removeIf` condition (same name, and matches the request URL); no contract of its own, it is the predicate `AddRemovesReplaced` and `AddLength` are stated with |
| CookieStorage.Survives | app/src/main/java/com/chat/commenter/api/CookieStorage.kt:20 | keeps a cookie exactly when `Replaced` does not select it |
| CookieStorage.MatchesUrl | app/src/main/java/com/chat/commenter/api/CookieStorage.kt:32 | the `get` filter condition; no contract of its own, its meaning is stated by `PersistentCookieStorage.Get` |
| CookieStorage.AfterAdd | app/src/main/java/com/chat/commenter/api/CookieStorage.kt:20-21 | the list addCookie leaves behind; no contract of its own, its meaning is stated by `AddAppendsRewrittenCookie`, `AddRemovesReplaced`, `AddKeepsOthersInOrder`, `AddLength` and `AddKeepsUniqueKeys` |
| CookieStorage.AddAppendsRewrittenCookie | app/src/main/java/com/chat/commenter/api/CookieStorage.kt:21 | after addCookie the last cookie is the argument with its domain set to the request host |
| CookieStorage.AddRemovesReplaced | app/src/main/java/com/chat/commenter/api/CookieStorage.kt:20 | apart from the appended one, no cookie with the new name that matches the request URL remains |
| CookieStorage.AddKeepsOthersInOrder | app/src/main/java/com/chat/commenter/api/CookieStorage.kt:20-21 | every cookie that is not replaced stays, between the kept cookies that preceded and followed it |
| CookieStorage.AddLength | app/src/main/java/com/chat/commenter/api/CookieStorage.kt:20-21 | new length = old length − cookies removed + 1, so the list grows by at most one |
| CookieStorage.FilterKeepsUniqueKeys | app/src/main/java/com/chat/commenter/api/CookieStorage.kt:20 | removing cookies never creates two with the same name and domain |
| CookieStorage.AddKeepsUniqueKeys | app/src/main/java/com/chat/commenter/api/CookieStorage.kt:19-24 | addCookie keeps cookies unique by (name, domain) when every stored cookie of the request host matches the request URL |
| CookieStorage.AddCanDuplicateKey | app/src/main/java/com/chat/commenter/api/CookieStorage.kt:20-21 | under a relation that does not match a stored cookie of the request host, addCookie stores a second cookie with the same name and domain |
| CookieStorage.LoadCookies | app/src/main/java/com/chat/commenter/api/CookieStorage.kt:40-45 | nothing stored loads as an empty list; a stored list loads as itself |
| CookieStorage.Match | app/src/main/java/com/chat/commenter/api/CookieStorage.kt:6 | Ktor's `matches` raises an error exactly when the cookie lacks a domain or a path, and otherwise answers as the relation does |
| CookieStorage.FilterMatching | app/src/main/java/com/chat/commenter/api/CookieStorage.kt:32 | the `get` filter fails exactly when some stored cookie lacks a domain or path; otherwise it keeps exactly the cookies the URL matches, in order |
| CookieStorage.RemoveReplaced | app/src/main/java/com/chat/commenter/api/CookieStorage.kt:20 | the `removeIf` fails exactly when a stored cookie with the new name lacks a domain or path (the name is compared first); otherwise it keeps exactly the cookies `Survives` keeps |
| CookieStorage.PathlessCookieBreaksJar | app/src/main/java/com/chat/commenter/api/CookieStorage.kt:19-24 | after adding a cookie with no path, every lookup for every URL fails, and so does every later add of a cookie with the same name |
| CookieStorage.Restart | app/src/main/java/com/chat/commenter/api/CookieStorage.kt:17 | a jar built from what a consistent jar stored holds the same list and the same relation |
| CookieStorage.PersistentCookieStorage.constructor | app/src/main/java/com/chat/commenter/api/CookieStorage.kt:17 | the jar starts with the loaded list, consistent with storage |
| CookieStorage.PersistentCookieStorage.AddCookie | app/src/main/java/com/chat/commenter/api/CookieStorage.kt:19-24 | fails, changing neither the list nor the stored value, exactly when a stored cookie with the new name lacks a domain or path; otherwise the list becomes the kept cookies followed by the rewritten new one, and the stored value is the whole new list |
| CookieStorage.PersistentCookieStorage.Close | app/src/main/java/com/chat/commenter/api/CookieStorage.kt:26-29 | the list and the stored value are both empty |
| CookieStorage.PersistentCookieStorage.Get | app/src/main/java/com/chat/commenter/api/CookieStorage.kt:31-33 | fails exactly when some stored cookie lacks a domain or path; otherwise returns exactly the stored cookies the URL matches, in stored order; changes nothing |
| CookieStorage.PersistentCookieStorage.SaveCookies | app/src/main/java/com/chat/commenter/api/CookieStorage.kt:35-38 | the stored value becomes the full current list |
| ApiRequest.PlainRequest | app/src/main/java/com/chat/commenter/api/APIRequest.kt:37-55 | GET and POST give a JSON request to the API base followed by the path, with no body; any other method is an "invalid request method" error |
| ApiRequest.BodyRequest | app/src/main/java/com/chat/commenter/api/APIRequest.kt:57-81 | as above, carrying the body exactly when it is not null |
| ApiRequest.NullBodyIsPlainRequest | app/src/main/java/com/chat/commenter/api/APIRequest.kt:67-75 | a null body gives the same request, or the same error, as the body-less overload |
| ApiRequest.RequestTargetsApiUrl | app/src/main/java/com/chat/commenter/api/APIRequest.kt:62-81 | every accepted request's URL is the API base followed by exactly the path, so two different paths never reach the same URL |
| ApiRequest.RequestFromApi | app/src/main/java/com/chat/commenter/api/APIRequest.kt:37-55 | fails exactly for methods other than GET and POST; otherwise it is the transport's answer to the built request |
| ApiRequest.RequestFromApiWithBody | app/src/main/java/com/chat/commenter/api/APIRequest.kt:57-81 | the same, for the request carrying the body |
| ApiRequest.MultipartRequestFor | app/src/main/java/com/chat/commenter/api/APIRequest.kt:83-91 | a multipart POST of the given parts to the API base followed by the path |
| ApiRequest.RequestMultipartFromApi | app/src/main/java/com/chat/commenter/api/APIRequest.kt:83-91 | the transport's answer to that multipart POST |
| ApiRequest.ImageProbe | app/src/main/java/com/chat/commenter/api/APIRequest.kt:93-98 | a HEAD request to the URL is made exactly when the text is a web URL |
| ApiRequest.CheckImageUrl | app/src/main/java/com/chat/commenter/api/APIRequest.kt:93-100 | false for a non-web URL; otherwise true iff the HEAD response has a Content-Type header that starts with "image/" (a missing header gives false) |
| ApiRequest.DeclaresImage | app/src/main/java/com/chat/commenter/api/APIRequest.kt:99 | a Content-Type header is present and starts with "image/"; no contract of its own, it is the condition `CheckImageUrl` is stated with |
| ApiRequest.RejectedUrlIgnoresTransport | app/src/main/java/com/chat/commenter/api/APIRequest.kt:94 | a non-web URL is refused whatever any transport would answer, and no request is made |
| GlobalState.UserStateHolder.constructor | app/src/main/java/com/chat/commenter/state/GlobalStateImpls.kt:27-28 | a fresh holder has no user |
| GlobalState.UserStateHolder.UpdateUser | app/src/main/java/com/chat/commenter/state/GlobalStateImpls.kt:30-32 | the state becomes exactly the given user |
| GlobalState.UserStateHolder.Logout | app/src/main/java/com/chat/commenter/state/GlobalStateImpls.kt:34-36 | the state becomes "no user" |
| GlobalState.SharedPreferences.GetString | app/src/main/java/com/chat/commenter/state/GlobalStateImpls.kt:58 | the stored string for the key, or the default when it is absent |
| GlobalState.SharedPreferences.GetFloat | app/src/main/java/com/chat/commenter/state/GlobalStateImpls.kt:59 | the stored float for the key, or the default when it is absent |
| GlobalState.StoredUIState | app/src/main/java/com/chat/commenter/state/GlobalStateImpls.kt:54-62 | absent keys load as "system" and 1.0; present keys load as stored |
| GlobalState.LoadAfterSave | app/src/main/java/com/chat/commenter/state/GlobalStateImpls.kt:69-76 | loading what saveState wrote gives back the saved state, whatever else the file holds |
| GlobalState.UIStateHolder.constructor | app/src/main/java/com/chat/commenter/state/GlobalStateImpls.kt:39-52 | a fresh holder has mode "system" and text scale 1.0 |
| GlobalState.UIStateHolder.LoadState | app/src/main/java/com/chat/commenter/state/GlobalStateImpls.kt:54-62 | the state becomes what the preferences file holds, with the defaults for absent keys |
| GlobalState.UIStateHolder.UpdateState | app/src/main/java/com/chat/commenter/state/GlobalStateImpls.kt:64-67 | the state becomes the argument, the file gains exactly its two entries, and reloading the file gives it back |
| GlobalState.UIStateHolder.SaveState | app/src/main/java/com/chat/commenter/state/GlobalStateImpls.kt:69-76 | writes exactly "uiMode" and "tsf" from the current state and leaves every other entry |
| GlobalState.AppViewModel.LoadDefaults | app/src/main/java/com/chat/commenter/state/GlobalStateImpls.kt:104-108 | the UI state becomes what the context's preferences hold |
| GlobalState.AppViewModel.SetUIMode | app/src/main/java/com/chat/commenter/state/GlobalStateImpls.kt:114 | only the mode changes, the text scale is kept, the change is persisted, and the user is untouched |
| GlobalState.AppViewModel.SetTsf | app/src/main/java/com/chat/commenter/state/GlobalStateImpls.kt:115 | only the text scale changes, the mode is kept, the change is persisted, and the user is untouched |
| GlobalState.AppViewModel.SetUser | app/src/main/java/com/chat/commenter/state/GlobalStateImpls.kt:116 | delegates to the user holder: the user is set and the UI state is untouched |
| GlobalState.AppViewModel.Logout | app/src/main/java/com/chat/commenter/state/GlobalStateImpls.kt:117 | delegates to the user holder: no user afterwards, and the UI state is untouched |
| Permissions.PermissionRequester.constructor | app/src/main/java/com/chat/commenter/permissions/Permissions.kt:19-21 | the initial state is granted iff the platform check said so, and nothing is pending |
| Permissions.PermissionRequester.Request | app/src/main/java/com/chat/commenter/permissions/Permissions.kt:37-46 | both callbacks become pending; if the permission is held, onGranted runs at once, otherwise the dialog is launched and neither callback runs |
| Permissions.PermissionRequester.OnResult | app/src/main/java/com/chat/commenter/permissions/Permissions.kt:23-35 | the state becomes the answer, and the pending callback for that answer runs (if any) and is cleared; the other stays pending |
| Permissions.PendingCall | app/src/main/java/com/chat/commenter/permissions/Permissions.kt:29 | a pending callback is invoked exactly once, and a missing one not at all |
| Permissions.RequestThenGrant | app/src/main/java/com/chat/commenter/permissions/Permissions.kt:23-46 | a request without the permission, then a grant: the dialog is launched, then exactly onGranted runs, and onDenied stays pending |
| Permissions.GrantedRequestStaysPending | app/src/main/java/com/chat/commenter/permissions/Permissions.kt:37-46 | a request with the permission held, then a "granted" result from a dialog launched by an earlier request and still open (this request launches none): onGranted runs twice, because the immediate call leaves it pending |
| MainActivity.PageOfRoute | app/src/main/java/com/chat/commenter/MainActivity.kt:86-92 | the inverse of `route`: it finds the page with that route, or reports that no page has it |
| MainActivity.Page.Route | app/src/main/java/com/chat/commenter/MainActivity.kt:86-92 | the page's route; no contract of its own, `RouteRoundTrip` and `RouteInjective` state that it is one-to-one and inverted by `PageOfRoute` |
| MainActivity.Page.NameId | app/src/main/java/com/chat/commenter/MainActivity.kt:78-84 | the page's name resource; no contract of its own, `NameIdInjective` states it is defined and distinct for every page |
| MainActivity.Destinations | app/src/main/java/com/chat/commenter/MainActivity.kt:104-120 | a screen is registered under a route exactly when the graph (`NavGraph`, the four `composable` registrations) pairs that route with that screen |
| MainActivity.DarkTheme | app/src/main/java/com/chat/commenter/MainActivity.kt:63 | the `darkTheme` expression; no contract of its own, `DarkThemeByMode` states it per mode |
| MainActivity.RouteRoundTrip | app/src/main/java/com/chat/commenter/MainActivity.kt:86-92 | every page's route leads back to that page |
| MainActivity.RouteInjective | app/src/main/java/com/chat/commenter/MainActivity.kt:86-92 | two pages share a route iff they are the same page |
| MainActivity.NameIdInjective | app/src/main/java/com/chat/commenter/MainActivity.kt:78-84 | every page has a name, and no two pages share one |
| MainActivity.StartsAtAuth | app/src/main/java/com/chat/commenter/MainActivity.kt:106 | navigation starts at the sign-in page's route, which is registered once, to the sign-in screen |
| MainActivity.EachPageRegisteredOnce | app/src/main/java/com/chat/commenter/MainActivity.kt:108-119 | each page's route is registered exactly once, to that page's screen |
| MainActivity.DarkThemeByMode | app/src/main/java/com/chat/commenter/MainActivity.kt:63 | "dark" is always dark, "system" follows the system, and "light" or any other mode is never dark |
| Login.LoginForm.constructor | app/src/main/java/com/chat/commenter/compose/auth/Login.kt:78-92 | the form starts empty, with no errors and no spinner |
| Login.LoginForm.EditEmail | app/src/main/java/com/chat/commenter/compose/auth/Login.kt:131-134 | sets the email and clears its error; nothing else changes |
| Login.LoginForm.EditPassword | app/src/main/java/com/chat/commenter/compose/auth/Login.kt:204-207 | sets the password and clears its error; nothing else changes |
| Login.LoginForm.LoginRequest | app/src/main/java/com/chat/commenter/compose/auth/Login.kt:306 | a JSON POST to "login" carrying the current email and password |
| Login.LoginForm.StartLogin | app/src/main/java/com/chat/commenter/compose/auth/Login.kt:303-306 | the spinner shows, and that request is sent |
| Login.LoginForm.FinishLogin | app/src/main/java/com/chat/commenter/compose/auth/Login.kt:307-336 | per status: 200 sets the user and goes home; 404 clears both fields and flags the email; a 406 for a disabled account clears both fields, and a 406 for a wrong password clears only the password; 500 only toasts; anything else changes nothing; the spinner stops unless the handler threw |
| SignUp.SignUpForm.constructor | app/src/main/java/com/chat/commenter/compose/auth/SignUp.kt:75-93 | the form starts empty, with no errors and no spinner |
| SignUp.SignUpForm.EditDisplayName | app/src/main/java/com/chat/commenter/compose/auth/SignUp.kt:132-135 | sets the display name and clears only its error |
| SignUp.SignUpForm.EditEmail | app/src/main/java/com/chat/commenter/compose/auth/SignUp.kt:147-150 | sets the email and clears only its error |
| SignUp.SignUpForm.EditPassword | app/src/main/java/com/chat/commenter/compose/auth/SignUp.kt:165-168 | sets the password and clears only its error |
| SignUp.SignUpForm.SignUpRequest | app/src/main/java/com/chat/commenter/compose/auth/SignUp.kt:190-198 | a JSON POST to "sign-up" carrying the display name, email and password unchanged |
| SignUp.SignUpForm.StartSignUp | app/src/main/java/com/chat/commenter/compose/auth/SignUp.kt:188-198 | the spinner shows, and that request is sent |
| SignUp.SignUpForm.FinishSignUp | app/src/main/java/com/chat/commenter/compose/auth/SignUp.kt:200-240 | only 201 signs in and goes home; each known 406 message flags its field, and some also clear it; 409 clears the email and flags it as taken; 500 only toasts; anything else, 200 included, changes nothing; the password is never cleared |
| Profile.PicSourceKinds | app/src/main/java/com/chat/commenter/compose/profile/Profile.kt:106-111 | drop-down indices are 0 to 3, one per kind of source, and only a picked picture has type "file" |
| Profile.ProfilePicSource.NameIndex | app/src/main/java/com/chat/commenter/compose/profile/Profile.kt:106-111 | the drop-down index; no contract of its own, `PicSourceKinds` states it is 0 to 3 and one-to-one on kinds |
| Profile.ProfilePicSource.Type | app/src/main/java/com/chat/commenter/compose/profile/Profile.kt:106-111 | the upload kind; no contract of its own, `PicSourceKinds` states it is "file" exactly for a picked picture |
| Profile.Take | app/src/main/java/com/chat/commenter/compose/profile/Profile.kt:399 | `take(n)` is a prefix of at most n characters, and the whole text when it is short enough |
| Profile.IfEmptyNull | app/src/main/java/com/chat/commenter/compose/profile/Profile.kt:488 | null exactly for the empty text |
| Profile.NullIfUnchanged | app/src/main/java/com/chat/commenter/compose/profile/Profile.kt:565-568 | null exactly when the edited text equals the current value |
| Profile.UrlBranchBody | app/src/main/java/com/chat/commenter/compose/profile/Profile.kt:481-489 | URL branch: every text is sent, `pic` is the source, `hasPicFile` is false, and an empty password is sent as null |
| Profile.FileBranchBody | app/src/main/java/com/chat/commenter/compose/profile/Profile.kt:564-571 | file branch: each text is null iff it equals the user's current value, there is no `pic`, `hasPicFile` is true, and an empty password is sent as null |
| Profile.UnchangedUploadSendsOnlyPicture | app/src/main/java/com/chat/commenter/compose/profile/Profile.kt:564-571 | uploading a picture with unedited texts and no password sends only the uid and the file flag |
| Profile.BranchesAgreeOnPassword | app/src/main/java/com/chat/commenter/compose/profile/Profile.kt:570 | both branches send the same password field: null when the input is empty |
| Profile.SaveParts | app/src/main/java/com/chat/commenter/compose/profile/Profile.kt:560-590 | the JSON "info" part always comes first; with a picture, a "file" part with JPEG headers follows |
| Profile.Rejection | app/src/main/java/com/chat/commenter/compose/profile/Profile.kt:520-544 | each of the five known 406 messages selects one error slot and text; any other message selects none |
| Profile.Drop | app/src/main/java/com/chat/commenter/compose/profile/Profile.kt:244 | `drop(n)` is the text without its first n characters, or empty when it is shorter |
| Profile.InitialsUrl | app/src/main/java/com/chat/commenter/compose/profile/Profile.kt:244 | the avatar URL is the service prefix, the encoded name, the fixed options, then the colour without its first two characters |
| Profile.WithErrorSetsOneSlot | app/src/main/java/com/chat/commenter/compose/profile/Profile.kt:520-544 | setting an error changes that one slot, leaves the other slots, and never touches input text or the picture source |
| Profile.WithError | app/src/main/java/com/chat/commenter/compose/profile/Profile.kt:520-544 | the fields with one error slot set; no contract of its own, `WithErrorSetsOneSlot` states that only that slot changes |
| Profile.ProfileForm.constructor | app/src/main/java/com/chat/commenter/compose/profile/Profile.kt:125-139 | the inputs start as the user's values, the password starts empty, the source starts as "no change" to the user's picture, and there are no errors |
| Profile.ProfileForm.EditDisplayName | app/src/main/java/com/chat/commenter/compose/profile/Profile.kt:398-401 | keeps at most 20 characters and clears only its error |
| Profile.ProfileForm.EditStatus | app/src/main/java/com/chat/commenter/compose/profile/Profile.kt:413-416 | keeps at most 50 characters and clears only its error |
| Profile.ProfileForm.EditEmail | app/src/main/java/com/chat/commenter/compose/profile/Profile.kt:428-431 | sets the email and clears only its error |
| Profile.ProfileForm.EditPassword | app/src/main/java/com/chat/commenter/compose/profile/Profile.kt:446-449 | sets the password and clears only its error |
| Profile.ProfileForm.ChooseNoChange | app/src/main/java/com/chat/commenter/compose/profile/Profile.kt:362-364 | the source becomes "no change" to the user's picture |
| Profile.ProfileForm.ConfirmPicUrl | app/src/main/java/com/chat/commenter/compose/profile/Profile.kt:288-291 | the URL becomes the source only if it was found to be an image; otherwise nothing changes |
| Profile.ProfileForm.ConfirmInitials | app/src/main/java/com/chat/commenter/compose/profile/Profile.kt:243-245 | the source becomes the initials avatar of the current display name in the picked colour |
| Profile.ProfileForm.PickPicture | app/src/main/java/com/chat/commenter/compose/profile/Profile.kt:188-191 | the source becomes the picked picture |
| Profile.ProfileForm.StartSave | app/src/main/java/com/chat/commenter/compose/profile/Profile.kt:469-590 | the spinner shows; with no source it throws; a URL-type source sends the URL-branch body, and a picture sends the file-branch body and the picture bytes, to "update-profile" |
| Profile.ProfileForm.FinishSave | app/src/main/java/com/chat/commenter/compose/profile/Profile.kt:498-649 | 200 sets the user and shows the returned picture; 413 on an upload reverts to the user's picture; 500 only toasts; 406 flags exactly the slot its message names; input text never changes; the spinner stops unless the handler threw |

## Left out

- Profile.Take: the limit counts Unicode scalar values, while Kotlin's `take(n)` counts UTF-16 code
  units. A text with characters outside the Basic Multilingual Plane (emoji, say) is therefore cut
  later than in the source, and the source can split a surrogate pair, which a Dafny string cannot
  hold.
- Profile.ProfileForm.EditDisplayName: "at most 20 characters" counts Unicode scalar values, not
  UTF-16 code units (see `Profile.Take`).
- Profile.ProfileForm.EditStatus: "at most 50 characters" counts Unicode scalar values, not UTF-16
  code units (see `Profile.Take`).
- `httpClient!!` and `client!!` throw while the view model has no HTTP client yet. They run inside
  a `launch` on the screen's `rememberCoroutineScope()`, and nothing catches the exception, so it
  reaches the main thread's uncaught-exception handler and the app process ends. No screen state
  outlives it. In the model this is a `Start…` call (`Login.LoginForm.StartLogin`,
  `SignUp.SignUpForm.StartSignUp`, `Profile.ProfileForm.StartSave`) whose `Finish…` is never
  called: the end of the run, not a lasting state. The same holds for `client!!` in the URL
  dialog's confirm button: `Profile.ProfileForm.ConfirmPicUrl` is then never called.
- An exception from the transport on a GET, POST or multipart request (no connection, say) is
  uncaught in the same way and ends the app. In the model it is a `Start…` call whose `Finish…` is
  never called.
- The `println` logging in the cookie jar and in `loadDefaults` is console output with no effect
  on state, and is left out.
- JSON encoding and decoding (kotlinx serialisation) is left out. Stored cookies are the list itself.
  A request body is the record itself. Stored cookie text that is not valid JSON makes the source
  throw; that path is not modelled.
- The Ktor transport is left out: the CIO engine, HEAD, GET and POST execution, multipart
  encoding, and reading a response body. The transport is a function parameter, and a response
  is a status, headers, a message and an optional user.
- `CookieStorage.LoadCookies`: Android's `getString` and Kotlin's Elvis default are folded into
  one step. A stored value is the decoded list itself.
- `ApiRequest.CheckImageUrl`: the header lookup is by the exact name "Content-Type". Ktor's lookup
  ignores case. A HEAD request that fails throws in the source; that is not modelled.
- The `Mutex` in the cookie jar and all coroutine launches are concurrency; the model is
  sequential. Each screen handler is split at its suspension point into `Start…` and `Finish…`.
- The text scale factor is an opaque `real`. Float arithmetic, the font scaling it drives, and
  the settings slider are left out.
- Picture picking, cropping, bitmap compression and temporary files are platform I/O, and so is
  `imageBitmap!!`. The compressed bytes are an input of `Profile.ProfileForm.StartSave`. Ktor's
  `encodeURLPathPart` is a function parameter of `Profile.ProfileForm.ConfirmInitials`. The colour
  picker dialog itself is UI.
- `Profile.ProfileForm.ConfirmPicUrl`: the image check is the caller's input `isImage` (see
  `ApiRequest.CheckImageUrl`). The "invalid image URL" toast and the URL dialog's visibility are
  left out.
- Toast display, string-resource lookup and navigation-controller mechanics are left out. A toast
  or navigation is an effect in the returned list. Error slots hold the resource id, not the
  text.
- The platform permission API is left out: `checkSelfPermission` and the activity-result
  launcher. The initial answer is a constructor argument, and results arrive as `OnResult` calls.
- Creating the HTTP client in `loadDefaults` and the Koin module are configuration.
  `GlobalState.AppViewModel.LoadDefaults` loads only the UI state.
- Only string and float entries of a preferences file are modelled. A stored value of a
  different type under the same key makes Android throw; that is not modelled.
- The screens' rendering, the Settings, Home and AppBar screens, and the pager and re-auth logic
  of the Auth screen are UI with no data logic beyond the above.
