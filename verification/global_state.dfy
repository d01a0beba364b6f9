/** Application-wide state: the signed-in user, the UI preferences and the
    view model that exposes both (state/GlobalStateImpls.kt). */
module GlobalState {
  import opened Wrappers
  import opened Users

  datatype UserState = UserState(user: Option<User>)

  /** Holds the signed-in user, if any. */
  class UserStateHolder {
    var userState: UserState

    constructor ()
      ensures userState == UserState(None)
    {
      userState := UserState(None);
    }

    /** `updateUser(user)`. */
    method UpdateUser(user: User)
      modifies this
      ensures userState == UserState(Some(user))
    {
      userState := UserState(Some(user));
    }

    /** `logout()`: back to the signed-out state. */
    method Logout()
      modifies this
      ensures userState == UserState(None)
    {
      userState := UserState(None);
    }
  }

  /** UI preferences: the theme mode and the text scale factor (kept opaque). */
  datatype UIState = UIState(uiMode: string, tsf: real)

  const DefaultUiMode := "system"
  const DefaultTsf := 1.0
  const UiModeKey := "uiMode"
  const TsfKey := "tsf"

  /** The defaults of a fresh UIState. */
  const DefaultUIState := UIState(DefaultUiMode, DefaultTsf)

  /** An Android preferences file, with its string and float entries. */
  class SharedPreferences {
    var strings: map<string, string>
    var floats: map<string, real>

    constructor (strings: map<string, string>, floats: map<string, real>)
      ensures this.strings == strings && this.floats == floats
    {
      this.strings := strings;
      this.floats := floats;
    }

    /** `getString(key, default)`. */
    function GetString(key: string, default: string): (r: string)
      reads this
      ensures key in strings ==> r == strings[key]
      ensures key !in strings ==> r == default
    {
      if key in strings then strings[key] else default
    }

    /** `getFloat(key, default)`. */
    function GetFloat(key: string, default: real): (r: real)
      reads this
      ensures key in floats ==> r == floats[key]
      ensures key !in floats ==> r == default
    {
      if key in floats then floats[key] else default
    }
  }

  /** The UI state `loadState` reads from stored entries, with the defaults for absent keys. */
  function StoredUIState(strings: map<string, string>, floats: map<string, real>): (s: UIState)
    ensures UiModeKey !in strings ==> s.uiMode == DefaultUiMode
    ensures TsfKey !in floats ==> s.tsf == DefaultTsf
    ensures UiModeKey !in strings && TsfKey !in floats ==> s == DefaultUIState
    ensures UiModeKey in strings ==> s.uiMode == strings[UiModeKey]
    ensures TsfKey in floats ==> s.tsf == floats[TsfKey]
  {
    UIState(
      if UiModeKey in strings then strings[UiModeKey] else DefaultUiMode,
      if TsfKey in floats then floats[TsfKey] else DefaultTsf)
  }

  /** Loading what was saved gives back the saved state, whatever else the file holds. */
  lemma LoadAfterSave(strings: map<string, string>, floats: map<string, real>, state: UIState)
    ensures StoredUIState(strings[UiModeKey := state.uiMode], floats[TsfKey := state.tsf]) == state
  {
  }

  /** Holds the UI preferences and persists them to its own "ui" preferences file. */
  class UIStateHolder {
    const prefs: SharedPreferences
    var uiState: UIState

    constructor (prefs: SharedPreferences)
      ensures this.prefs == prefs && uiState == DefaultUIState
    {
      this.prefs := prefs;
      uiState := DefaultUIState;
    }

    /** `loadState(context)`: read the "ui" preferences of the given context. */
    method LoadState(from: SharedPreferences)
      modifies this
      ensures uiState == StoredUIState(from.strings, from.floats)
      ensures uiState == UIState(from.GetString(UiModeKey, DefaultUiMode), from.GetFloat(TsfKey, DefaultTsf))
    {
      uiState := UIState(from.GetString(UiModeKey, DefaultUiMode), from.GetFloat(TsfKey, DefaultTsf));
    }

    /** `updateState(state)`: take the new state, then persist it. */
    method UpdateState(state: UIState)
      modifies this, prefs
      ensures uiState == state
      ensures prefs.strings == old(prefs.strings)[UiModeKey := state.uiMode]
      ensures prefs.floats == old(prefs.floats)[TsfKey := state.tsf]
      ensures StoredUIState(prefs.strings, prefs.floats) == uiState
    {
      uiState := state;
      SaveState();
      LoadAfterSave(old(prefs.strings), old(prefs.floats), state);
    }

    /** `saveState()`: write exactly the two UI entries. */
    method SaveState()
      modifies prefs
      ensures prefs.strings == old(prefs.strings)[UiModeKey := uiState.uiMode]
      ensures prefs.floats == old(prefs.floats)[TsfKey := uiState.tsf]
    {
      prefs.strings := prefs.strings[UiModeKey := uiState.uiMode];
      prefs.floats := prefs.floats[TsfKey := uiState.tsf];
    }
  }

  /** The view model the screens talk to. Creating the HTTP client is not modelled. */
  class AppViewModel {
    const userHolder: UserStateHolder
    const uiHolder: UIStateHolder

    constructor (userHolder: UserStateHolder, uiHolder: UIStateHolder)
      ensures this.userHolder == userHolder && this.uiHolder == uiHolder
    {
      this.userHolder := userHolder;
      this.uiHolder := uiHolder;
    }

    /** `loadDefaults(context)`: load the UI preferences. */
    method LoadDefaults(context: SharedPreferences)
      modifies uiHolder
      ensures uiHolder.uiState == StoredUIState(context.strings, context.floats)
    {
      uiHolder.LoadState(context);
    }

    /** `setUIMode(uiMode)`: change the mode, keep the text scale, persist. */
    method SetUIMode(uiMode: string)
      modifies uiHolder, uiHolder.prefs
      ensures uiHolder.uiState == old(uiHolder.uiState).(uiMode := uiMode)
      ensures uiHolder.uiState.tsf == old(uiHolder.uiState.tsf)
      ensures StoredUIState(uiHolder.prefs.strings, uiHolder.prefs.floats) == uiHolder.uiState
      ensures userHolder.userState == old(userHolder.userState)
    {
      uiHolder.UpdateState(uiHolder.uiState.(uiMode := uiMode));
    }

    /** `setTSF(tsf)`: change the text scale, keep the mode, persist. */
    method SetTsf(tsf: real)
      modifies uiHolder, uiHolder.prefs
      ensures uiHolder.uiState == old(uiHolder.uiState).(tsf := tsf)
      ensures uiHolder.uiState.uiMode == old(uiHolder.uiState.uiMode)
      ensures StoredUIState(uiHolder.prefs.strings, uiHolder.prefs.floats) == uiHolder.uiState
      ensures userHolder.userState == old(userHolder.userState)
    {
      uiHolder.UpdateState(uiHolder.uiState.(tsf := tsf));
    }

    /** `setUser(user)`: delegate to the user holder. */
    method SetUser(user: User)
      modifies userHolder
      ensures userHolder.userState == UserState(Some(user))
      ensures uiHolder.uiState == old(uiHolder.uiState)
    {
      userHolder.UpdateUser(user);
    }

    /** `logout()`: delegate to the user holder. The cookie jar is not touched. */
    method Logout()
      modifies userHolder
      ensures userHolder.userState == UserState(None)
      ensures uiHolder.uiState == old(uiHolder.uiState)
    {
      userHolder.Logout();
    }
  }
}
