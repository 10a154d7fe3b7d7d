/** The application shell (App): which view is shown, the guest/authenticated
    navigation handlers, the onboarding hand-off and the device storage that
    remembers a guest between visits. `user` and `loading` are the values the
    shell's own authentication hook returns; `HookUpdate` delivers new ones. */
module App {
  import opened Model
  import opened AuthForm

  /** A stored value: text, or the JSON form of a user written by the shell. */
  datatype Stored = Text(text: string) | Json(user: User)

  const CompletedKey: string := "promptly_onboarding_completed"
  const TempUserKey: string := "promptly_temp_user"
  const TempFreeLimit: int := 10

  /** `localStorage.getItem(k)` is truthy: present and not the empty text. */
  predicate Present(storage: map<string, Stored>, k: string) {
    k in storage && storage[k] != Text("")
  }

  /** The startup restore: both keys present marks onboarding completed and reads
      the saved guest back; a guest stored as JSON is read back as it was. */
  function Restore(storage: map<string, Stored>): (r: (bool, Option<User>))
    ensures r.0 <==> Present(storage, CompletedKey) && Present(storage, TempUserKey)
    ensures r.1.Some? ==> r.0 && storage[TempUserKey] == Json(r.1.value)
    ensures r.0 && storage[TempUserKey].Json? ==> r.1 == Some(storage[TempUserKey].user)
  {
    if Present(storage, CompletedKey) && Present(storage, TempUserKey) then
      match storage[TempUserKey]
      case Json(u) => (true, Some(u))
      case Text(_) => (true, None)
    else (false, None)
  }

  /** The two writes `onContinue` makes. */
  function SaveOnboarding(storage: map<string, Stored>, guest: User): (s: map<string, Stored>)
    ensures s.Keys == storage.Keys + {CompletedKey, TempUserKey}
    ensures forall k :: k in storage && k != CompletedKey && k != TempUserKey ==> s[k] == storage[k]
  {
    storage[CompletedKey := Text("true")][TempUserKey := Json(guest)]
  }

  /** The two removals the user-change effect makes. */
  function Forget(storage: map<string, Stored>): (s: map<string, Stored>)
    ensures s.Keys == storage.Keys - {CompletedKey, TempUserKey}
    ensures forall k :: k in s ==> s[k] == storage[k]
  {
    storage - {CompletedKey, TempUserKey}
  }

  /** A guest saved by onboarding is restored on the next visit, exactly. */
  lemma RestoreSaved(storage: map<string, Stored>, guest: User)
    ensures Restore(SaveOnboarding(storage, guest)) == (true, Some(guest))
  {
    var s := SaveOnboarding(storage, guest);
    assert s[CompletedKey] == Text("true") && s[TempUserKey] == Json(guest);
  }

  /** Once a real user has signed in, the next visit restores nothing. */
  lemma RestoreForgotten(storage: map<string, Stored>)
    ensures Restore(Forget(storage)) == (false, None)
  {
    assert CompletedKey !in Forget(storage);
  }

  /** The screens the shell switches over. */
  datatype Screen = Home | Library | CreatePrompt | ExecutePrompt | MyPrompts | Community | Account | Chat

  function ScreenName(s: Screen): string {
    match s
    case Home => "home"
    case Library => "library"
    case CreatePrompt => "create-prompt"
    case ExecutePrompt => "execute-prompt"
    case MyPrompts => "my-prompts"
    case Community => "community"
    case Account => "account"
    case Chat => "chat"
  }

  /** The `switch` on `currentScreen`: a known name selects its screen, any other
      name the default branch, which renders home. */
  function ScreenOf(name: string): (s: Screen)
    ensures ScreenName(s) == name || (s == Home && forall t :: ScreenName(t) != name)
  {
    if name == "library" then Library
    else if name == "create-prompt" then CreatePrompt
    else if name == "execute-prompt" then ExecutePrompt
    else if name == "my-prompts" then MyPrompts
    else if name == "community" then Community
    else if name == "account" then Account
    else if name == "chat" then Chat
    else Home
  }

  lemma ScreenRoundTrip(s: Screen)
    ensures ScreenOf(ScreenName(s)) == s
  {
  }

  /** The screens a guest is asked to sign up for. */
  predicate Protected(name: string) {
    name == "create-prompt" || name == "my-prompts" || name == "account" || name == "chat"
  }

  /** The guest screens that are rendered together with the sign-in/sign-up modal. */
  predicate ModalMounted(s: Screen) {
    s == Home || s == Library || s == Community
  }

  /** The guest `onContinue` creates; `stamp` stands for its `Date.now()`. */
  function Guest(data: OnboardingData, stamp: string): (u: User)
    ensures u.name == data.name && u.email == data.email && u.profession == data.profession
    ensures !u.isPro && u.promptsUsed == 0 && u.promptsLimit == TempFreeLimit
  {
    User("temp-user-" + stamp, data.name, data.email, data.profession, false, 0, TempFreeLimit)
  }

  /** What the shell renders. */
  datatype View =
    | LoadingView
    | AuthenticatedView(screen: Screen, user: User)
    | OnboardingView(modalOpen: bool)
    | InitializingView
    | GuestView(screen: Screen, guest: User, modalOpen: bool)

  class AppController {
    var currentScreen: string
    var appUser: Option<User>
    var selectedPrompt: Option<Prompt>
    var showAuthModal: bool
    var authMode: AuthMode
    var onboardingData: Option<OnboardingData>
    var tempUser: Option<User>
    var hasCompletedOnboarding: bool
    var storage: map<string, Stored>
    var user: Option<User>
    var loading: bool

    /** A signed-in user supersedes any guest: no guest is kept, in memory or in
        storage; and a guest exists only once onboarding is completed. */
    predicate Valid()
      reads this
    {
      (user.Some? ==> tempUser.None? && CompletedKey !in storage && TempUserKey !in storage)
      && (tempUser.Some? ==> hasCompletedOnboarding)
    }

    /** The view chosen, in order: loading, signed in, onboarding, no guest yet,
        then the guest's screens; the guest modal is only mounted on some screens. */
    function View(): (v: View)
      reads this
      ensures v.LoadingView? <==> loading
      ensures v.AuthenticatedView? <==> !loading && user.Some?
      ensures v.OnboardingView? <==> !loading && user.None? && !hasCompletedOnboarding
      ensures v.InitializingView? <==> !loading && user.None? && hasCompletedOnboarding && tempUser.None?
      ensures v.GuestView? <==> !loading && user.None? && hasCompletedOnboarding && tempUser.Some?
      ensures v.AuthenticatedView? ==> user == Some(v.user)
      ensures v.GuestView? ==> tempUser == Some(v.guest)
      ensures v.OnboardingView? ==> v.modalOpen == showAuthModal
      ensures (v.AuthenticatedView? || v.GuestView?) ==> v.screen == ScreenOf(currentScreen)
      ensures v.GuestView? ==> (v.modalOpen <==> showAuthModal && ModalMounted(v.screen))
    {
      if loading then LoadingView
      else if user.Some? then AuthenticatedView(ScreenOf(currentScreen), user.value)
      else if !hasCompletedOnboarding then OnboardingView(showAuthModal)
      else if tempUser.None? then InitializingView
      else GuestView(ScreenOf(currentScreen), tempUser.value,
                     showAuthModal && ModalMounted(ScreenOf(currentScreen)))
    }

    /** The initial state followed by the startup restore, reading `storage`. */
    constructor(storage: map<string, Stored>)
      ensures Valid()
      ensures (hasCompletedOnboarding, tempUser) == Restore(storage)
      ensures this.storage == storage && user.None? && loading
      ensures currentScreen == "home" && appUser.None? && selectedPrompt.None?
      ensures !showAuthModal && authMode == SignIn && onboardingData.None?
    {
      currentScreen := "home";
      appUser := None;
      selectedPrompt := None;
      showAuthModal := false;
      authMode := SignIn;
      onboardingData := None;
      this.storage := storage;
      user := None;
      loading := true;
      var restored := Restore(storage);
      hasCompletedOnboarding := restored.0;
      tempUser := restored.1;
    }

    /** The hook returns new values. The user-change effect (deps `[user]`) runs
        when the user is not null and is a new object: one with a different value,
        or an equal value the hook built afresh (`newObject`); it closes the modal,
        goes home and forgets the guest. A render that changes only `loading` runs
        no effect. */
    method HookUpdate(u: Option<User>, l: bool, newObject: bool)
      requires Valid()
      modifies this
      ensures Valid()
      ensures user == u && loading == l
      ensures u.Some? && (u != old(user) || newObject) ==>
        (!showAuthModal && appUser == u && currentScreen == "home"
         && tempUser.None? && storage == Forget(old(storage)))
      ensures u.Some? && (u != old(user) || newObject) && !l ==> View() == AuthenticatedView(Home, u.value)
      ensures old(user).Some? && u.None? && !l && hasCompletedOnboarding ==> View() == InitializingView
      ensures !(u.Some? && (u != old(user) || newObject)) ==>
        (showAuthModal == old(showAuthModal) && appUser == old(appUser)
         && currentScreen == old(currentScreen) && tempUser == old(tempUser)
         && storage == old(storage))
      ensures selectedPrompt == old(selectedPrompt) && authMode == old(authMode)
      ensures onboardingData == old(onboardingData) && hasCompletedOnboarding == old(hasCompletedOnboarding)
    {
      var effect := u.Some? && (u != user || newObject);
      user := u;
      loading := l;
      if effect {
        showAuthModal := false;
        appUser := u;
        currentScreen := "home";
        tempUser := None;
        storage := Forget(storage);
      }
    }

    /** A signed-in `handleNavigate`: any screen name is taken as it is. */
    method AuthNavigate(screen: string)
      requires Valid() && user.Some?
      modifies this
      ensures Valid()
      ensures currentScreen == screen
      ensures appUser == old(appUser) && selectedPrompt == old(selectedPrompt)
      ensures showAuthModal == old(showAuthModal) && authMode == old(authMode)
      ensures tempUser == old(tempUser) && storage == old(storage) && user == old(user)
    {
      currentScreen := screen;
    }

    /** A signed-in `handleSelectPrompt`: the prompt is kept and the execution
        screen shown. */
    method AuthSelectPrompt(p: Prompt)
      requires Valid() && user.Some?
      modifies this
      ensures Valid()
      ensures selectedPrompt == Some(p) && currentScreen == "execute-prompt"
      ensures !loading ==> View() == AuthenticatedView(ExecutePrompt, old(user).value)
      ensures appUser == old(appUser) && showAuthModal == old(showAuthModal) && authMode == old(authMode)
      ensures tempUser == old(tempUser) && storage == old(storage) && user == old(user)
    {
      selectedPrompt := Some(p);
      currentScreen := "execute-prompt";
    }

    /** `onContinue`: the guest is created, onboarding marked completed and both
        saved to storage; the guest's screens follow. */
    method CompleteOnboarding(data: OnboardingData, stamp: string)
      requires Valid() && user.None? && !hasCompletedOnboarding
      modifies this
      ensures Valid()
      ensures tempUser == Some(Guest(data, stamp)) && hasCompletedOnboarding
      ensures onboardingData == Some(data)
      ensures storage == SaveOnboarding(old(storage), Guest(data, stamp))
      ensures Restore(storage) == (true, tempUser)
      ensures !loading ==> View().GuestView? && View().guest == Guest(data, stamp)
      ensures currentScreen == old(currentScreen) && appUser == old(appUser) && selectedPrompt == old(selectedPrompt)
      ensures showAuthModal == old(showAuthModal) && authMode == old(authMode)
      ensures user == old(user) && loading == old(loading)
    {
      var guest := Guest(data, stamp);
      tempUser := Some(guest);
      hasCompletedOnboarding := true;
      onboardingData := Some(data);
      storage := SaveOnboarding(storage, guest);
      RestoreSaved(old(storage), guest);
    }

    /** The onboarding screen's `onSignIn`: the sign-in modal opens. */
    method OnboardingSignIn()
      requires Valid()
      modifies this
      ensures Valid()
      ensures authMode == SignIn && showAuthModal
      ensures currentScreen == old(currentScreen) && appUser == old(appUser) && selectedPrompt == old(selectedPrompt)
      ensures onboardingData == old(onboardingData) && tempUser == old(tempUser)
      ensures hasCompletedOnboarding == old(hasCompletedOnboarding) && storage == old(storage)
      ensures user == old(user) && loading == old(loading)
    {
      authMode := SignIn;
      showAuthModal := true;
    }

    /** The onboarding screen's `onSignUp`: the data is kept for the form and the
        sign-up modal opens. */
    method OnboardingSignUp(data: OnboardingData)
      requires Valid()
      modifies this
      ensures Valid()
      ensures onboardingData == Some(data) && authMode == SignUp && showAuthModal
      ensures currentScreen == old(currentScreen) && appUser == old(appUser) && selectedPrompt == old(selectedPrompt)
      ensures tempUser == old(tempUser) && hasCompletedOnboarding == old(hasCompletedOnboarding)
      ensures storage == old(storage) && user == old(user) && loading == old(loading)
    {
      onboardingData := Some(data);
      authMode := SignUp;
      showAuthModal := true;
    }

    /** The modal's `onClose`. */
    method CloseModal()
      requires Valid()
      modifies this
      ensures Valid()
      ensures !showAuthModal
      ensures currentScreen == old(currentScreen) && appUser == old(appUser) && selectedPrompt == old(selectedPrompt)
      ensures authMode == old(authMode) && onboardingData == old(onboardingData) && tempUser == old(tempUser)
      ensures hasCompletedOnboarding == old(hasCompletedOnboarding) && storage == old(storage)
      ensures user == old(user) && loading == old(loading)
    {
      showAuthModal := false;
    }

    /** The modal's `onModeChange`. */
    method ModeChange(mode: AuthMode)
      requires Valid()
      modifies this
      ensures Valid()
      ensures authMode == mode
      ensures currentScreen == old(currentScreen) && appUser == old(appUser) && selectedPrompt == old(selectedPrompt)
      ensures showAuthModal == old(showAuthModal) && onboardingData == old(onboardingData)
      ensures tempUser == old(tempUser) && hasCompletedOnboarding == old(hasCompletedOnboarding)
      ensures storage == old(storage) && user == old(user) && loading == old(loading)
    {
      authMode := mode;
    }

    /** Asking a guest to sign up: the sign-up modal opens, nothing else changes. */
    method RequireSignUp()
      requires Valid()
      modifies this
      ensures Valid()
      ensures authMode == SignUp && showAuthModal
      ensures currentScreen == old(currentScreen) && appUser == old(appUser) && selectedPrompt == old(selectedPrompt)
      ensures onboardingData == old(onboardingData) && tempUser == old(tempUser)
      ensures hasCompletedOnboarding == old(hasCompletedOnboarding) && storage == old(storage)
      ensures user == old(user) && loading == old(loading)
    {
      authMode := SignUp;
      showAuthModal := true;
    }

    /** A guest `handleNavigate`: a protected screen opens the sign-up modal and
        stays where it was; any other name becomes the current screen. */
    method GuestNavigate(screen: string)
      requires Valid() && user.None?
      modifies this
      ensures Valid()
      ensures Protected(screen) ==> authMode == SignUp && showAuthModal && currentScreen == old(currentScreen)
      ensures !Protected(screen) ==>
        (currentScreen == screen && authMode == old(authMode) && showAuthModal == old(showAuthModal))
      ensures appUser == old(appUser) && selectedPrompt == old(selectedPrompt)
      ensures onboardingData == old(onboardingData) && tempUser == old(tempUser)
      ensures hasCompletedOnboarding == old(hasCompletedOnboarding) && storage == old(storage)
      ensures user == old(user) && loading == old(loading)
    {
      if user.None? && Protected(screen) {
        RequireSignUp();
        return;
      }
      currentScreen := screen;
    }

    /** A guest `handleSelectPrompt`: there is no user, so the sign-up modal opens
        and the app state is left as it was. */
    method GuestSelectPrompt(p: Prompt)
      requires Valid() && user.None?
      modifies this
      ensures Valid()
      ensures authMode == SignUp && showAuthModal
      ensures currentScreen == old(currentScreen) && appUser == old(appUser) && selectedPrompt == old(selectedPrompt)
      ensures onboardingData == old(onboardingData) && tempUser == old(tempUser)
      ensures hasCompletedOnboarding == old(hasCompletedOnboarding) && storage == old(storage)
      ensures user == old(user) && loading == old(loading)
    {
      RequireSignUp();
    }

    /** A guest `handleUpgrade`: there is no user, so the sign-up modal opens and no
        upgrade is requested. */
    method GuestUpgrade() returns (upgradeRequested: bool)
      requires Valid() && user.None?
      modifies this
      ensures Valid()
      ensures !upgradeRequested && authMode == SignUp && showAuthModal
      ensures currentScreen == old(currentScreen) && appUser == old(appUser) && selectedPrompt == old(selectedPrompt)
      ensures onboardingData == old(onboardingData) && tempUser == old(tempUser)
      ensures hasCompletedOnboarding == old(hasCompletedOnboarding) && storage == old(storage)
      ensures user == old(user) && loading == old(loading)
    {
      RequireSignUp();
      upgradeRequested := false;
    }
  }
}
