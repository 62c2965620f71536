// The settings screen: an editable copy of the user's name and settings,
// saving it back, the name sheet, and resetting the app.

module SettingsScreen {
  import opened Wrappers
  import opened Models
  import opened Storage
  import opened App

  /** The screen's editable copy of the user's profile and settings. */
  datatype SettingsForm = SettingsForm(
    userName: string,
    soundEnabled: bool,
    autoSaveEnabled: bool,
    backgroundMusicEnabled: bool,
    fontSize: FontSize)

  /** What loading a user into the form shows. */
  function FormOf(user: User): (f: SettingsForm)
    ensures f.userName == user.name && f.fontSize == user.settings.fontSize
    ensures f.soundEnabled == user.settings.soundEnabled && f.autoSaveEnabled == user.settings.autoSaveEnabled
    ensures f.backgroundMusicEnabled == user.settings.backgroundMusicEnabled
  {
    SettingsForm(user.name, user.settings.soundEnabled, user.settings.autoSaveEnabled,
                 user.settings.backgroundMusicEnabled, user.settings.fontSize)
  }

  /** The user after saving the form: the name and the four settings come from
      the form, every other field is kept. */
  function ApplyForm(user: User, f: SettingsForm): (u: User)
    ensures u.id == user.id && u.avatarName == user.avatarName
    ensures u.createdAt == user.createdAt && u.lastActiveAt == user.lastActiveAt
    ensures u.completedWorks == user.completedWorks && u.achievements == user.achievements
  {
    user.(name := f.userName,
          settings := UserSettings(f.soundEnabled, f.autoSaveEnabled, f.backgroundMusicEnabled, f.fontSize))
  }

  /** Saving the form and loading it back shows the same values. */
  lemma SaveThenLoadForm(user: User, f: SettingsForm)
    ensures FormOf(ApplyForm(user, f)) == f
  {
  }

  /** Saving the form that was just loaded changes nothing. */
  lemma LoadThenSaveUser(user: User)
    ensures ApplyForm(user, FormOf(user)) == user
  {
  }

  /** The user after a reset: settings back to their defaults, name and every
      other field kept. */
  function ResetUser(user: User): (u: User)
    ensures u.settings == DefaultUserSettings()
    ensures u.name == user.name && u.id == user.id && u.avatarName == user.avatarName
    ensures u.createdAt == user.createdAt && u.lastActiveAt == user.lastActiveAt
    ensures u.completedWorks == user.completedWorks && u.achievements == user.achievements
  {
    user.(settings := DefaultUserSettings())
  }

  class SettingsView {
    const appState: AppState
    const storage: StorageService
    var userName: string
    var soundEnabled: bool
    var autoSaveEnabled: bool
    var backgroundMusicEnabled: bool
    var selectedFontSize: FontSize
    var showingResetAlert: bool
    var showingEditNameSheet: bool
    var newUserName: string
    var showingSavedAlert: bool

    constructor (appState: AppState, storage: StorageService)
      ensures this.appState == appState && this.storage == storage
      ensures Form() == SettingsForm("", true, true, false, Medium)
      ensures !showingResetAlert && !showingEditNameSheet && newUserName == "" && !showingSavedAlert
    {
      this.appState := appState;
      this.storage := storage;
      userName := "";
      soundEnabled := true;
      autoSaveEnabled := true;
      backgroundMusicEnabled := false;
      selectedFontSize := Medium;
      showingResetAlert := false;
      showingEditNameSheet := false;
      newUserName := "";
      showingSavedAlert := false;
    }

    function Form(): SettingsForm
      reads this
    {
      SettingsForm(userName, soundEnabled, autoSaveEnabled, backgroundMusicEnabled, selectedFontSize)
    }

    /** Copies the current user, if any, into the form. */
    method LoadCurrentSettings()
      modifies this`userName, this`soundEnabled, this`autoSaveEnabled, this`backgroundMusicEnabled, this`selectedFontSize
      ensures appState.currentUser.Some? ==> Form() == FormOf(appState.currentUser.value)
      ensures appState.currentUser.None? ==> Form() == old(Form())
    {
      if appState.currentUser.Some? {
        var user := appState.currentUser.value;
        userName := user.name;
        soundEnabled := user.settings.soundEnabled;
        autoSaveEnabled := user.settings.autoSaveEnabled;
        backgroundMusicEnabled := user.settings.backgroundMusicEnabled;
        selectedFontSize := user.settings.fontSize;
      }
    }

    /** Copies the form into the current user, persists it and confirms; with
        no current user nothing happens. */
    method SaveSettings()
      modifies appState`currentUser, storage`defaults, this`showingSavedAlert
      ensures old(appState.currentUser).None? ==>
        appState.currentUser == old(appState.currentUser) && storage.defaults == old(storage.defaults)
        && showingSavedAlert == old(showingSavedAlert)
      ensures old(appState.currentUser).Some? ==>
        var user := ApplyForm(old(appState.currentUser).value, Form());
        && appState.currentUser == Some(user)
        && storage.defaults == old(storage.defaults)[UserDefaultsKey := UserData(user)]
        && storage.LoadUser() == Some(user)
        && showingSavedAlert
      ensures old(appState.currentUser).Some? ==> FormOf(appState.currentUser.value) == Form()
    {
      if appState.currentUser.None? {
        return;
      }
      var user := appState.currentUser.value;
      user := user.(name := userName);
      user := user.(settings := user.settings.(soundEnabled := soundEnabled));
      user := user.(settings := user.settings.(autoSaveEnabled := autoSaveEnabled));
      user := user.(settings := user.settings.(backgroundMusicEnabled := backgroundMusicEnabled));
      user := user.(settings := user.settings.(fontSize := selectedFontSize));
      appState.currentUser := Some(user);
      storage.SaveUser(user);
      SaveThenLoadForm(old(appState.currentUser).value, Form());
      showingSavedAlert := true;
    }

    /** The reset alert's confirmation: drops every artwork, stores the
        empty list, restores the user's default settings keeping the name,
        reloads the form from the user and clears the temp files
        (`tempListing` and `removeFails` as for `CleanupTempFiles`). */
    method ResetApp(tempListing: Option<seq<string>>, removeFails: string -> bool)
      requires tempListing.Some? ==> IsListingOf(tempListing.value, TempNames(storage.files))
      modifies appState`userWorks, appState`currentUser, storage`defaults, storage`files
      modifies this`userName, this`soundEnabled, this`autoSaveEnabled, this`backgroundMusicEnabled, this`selectedFontSize
      ensures appState.userWorks == [] && storage.LoadArtWorks() == []
      ensures old(appState.currentUser).None? ==>
        appState.currentUser == None && Form() == old(Form()) && storage.LoadUser() == old(storage.LoadUser())
        && storage.defaults == old(storage.defaults)[ArtworkDefaultsKey := ArtWorksData(EncodeAll([]))]
      ensures old(appState.currentUser).Some? ==>
        var user := ResetUser(old(appState.currentUser).value);
        && appState.currentUser == Some(user)
        && storage.defaults == old(storage.defaults)[ArtworkDefaultsKey := ArtWorksData(EncodeAll([]))]
                                                    [UserDefaultsKey := UserData(user)]
        && storage.LoadUser() == Some(user)
        && Form() == FormOf(user)
        && userName == old(appState.currentUser).value.name
      ensures forall k :: k in old(storage.files) && k.0 != DirectoryName(Temp) ==>
        k in storage.files && storage.files[k] == old(storage.files)[k]
      ensures tempListing.None? ==> storage.files == old(storage.files)
      ensures tempListing.Some? ==>
        storage.files == old(storage.files) - TempKeys(tempListing.value[..FirstFailure(tempListing.value, removeFails)])
    {
      appState.userWorks := [];
      storage.SaveArtWorks([]);
      if appState.currentUser.Some? {
        var user := appState.currentUser.value;
        user := user.(settings := DefaultUserSettings());
        appState.currentUser := Some(user);
        storage.SaveUser(user);
      }
      LoadCurrentSettings();
      storage.CleanupTempFiles(tempListing, removeFails);
    }

    /** The reset button only asks for confirmation. */
    method RequestReset()
      modifies this`showingResetAlert
      ensures showingResetAlert
    {
      showingResetAlert := true;
    }

    /** The edit-name button opens the sheet on a copy of the current name. */
    method BeginEditName()
      modifies this`newUserName, this`showingEditNameSheet
      ensures newUserName == userName && showingEditNameSheet
    {
      newUserName := userName;
      showingEditNameSheet := true;
    }

    /** Typing into the sheet's text field. */
    method EditNewUserName(text: string)
      modifies this`newUserName
      ensures newUserName == text
    {
      newUserName := text;
    }

    /** The sheet's cancel button: the form's name is untouched. */
    method CancelEditName()
      modifies this`showingEditNameSheet
      ensures !showingEditNameSheet
    {
      showingEditNameSheet := false;
    }

    /** The sheet's save button: the typed name goes into the form (not yet
        into the user). */
    method ConfirmEditName()
      modifies this`userName, this`showingEditNameSheet
      ensures userName == newUserName && !showingEditNameSheet
    {
      userName := newUserName;
      showingEditNameSheet := false;
    }
  }
}
