/** The authentication hook (useAuth): demo mode, the users table row and its
    mapping to a `User`, and the hook's `user`, provider user and `loading` state.
    Every call to the provider or the database is replaced by its outcome, given
    as a parameter; the `Date.now()` part of a demo id is given as a string. */
module Auth {
  import opened Model
  import opened Text

  const DemoUrl: string := "https://demo.supabase.co"
  const DemoKey: string := "demo-anon-key"
  const NetlifyHost: string := "netlify.app"
  const NoUserMessage: string := "No user logged in"
  const DemoSignInId: string := "demo-user-signin"
  const DemoSignInName: string := "Utilisateur DÃ©mo"
  const DemoSignInProfession: string := "Responsable RH"
  const FreeLimit: int := 10
  const Unlimited: int := -1

  /** The configuration check the three entry points share: a missing URL or key,
      the placeholder URL or key, or a URL on the static host means demo mode. */
  predicate IsDemo(url: string, key: string) {
    url == "" || key == "" || url == DemoUrl || key == DemoKey || Contains(url, NetlifyHost)
  }

  /** A row of the `users` table. */
  datatype Row = Row(
    id: string,
    name: string,
    email: string,
    profession: string,
    is_pro: bool,
    prompts_used: int,
    prompts_limit: int)

  /** The profile fetch's mapping from a row to a user. */
  function RowToUser(r: Row): (u: User)
    ensures u.id == r.id && u.name == r.name && u.email == r.email && u.profession == r.profession
    ensures u.isPro == r.is_pro
    ensures u.promptsUsed == r.prompts_used && u.promptsLimit == r.prompts_limit
  {
    User(r.id, r.name, r.email, r.profession, r.is_pro, r.prompts_used, r.prompts_limit)
  }

  /** The row a user is stored as. */
  function UserToRow(u: User): (r: Row)
    ensures r.id == u.id && r.name == u.name && r.email == u.email && r.profession == u.profession
    ensures r.is_pro == u.isPro && r.prompts_used == u.promptsUsed && r.prompts_limit == u.promptsLimit
  {
    Row(u.id, u.name, u.email, u.profession, u.isPro, u.promptsUsed, u.promptsLimit)
  }

  /** The mapping loses nothing, in either direction. */
  lemma RowRoundTrip(r: Row, u: User)
    ensures UserToRow(RowToUser(r)) == r
    ensures RowToUser(UserToRow(u)) == u
  {
  }

  /** How the profile query ended: an error (returned or thrown), or the rows it returned. */
  datatype Fetch = QueryError | Rows(rows: seq<Row>)

  /** `fetchUserProfile`: the first row's user on success, no user for an empty
      result, and the current user unchanged after a query error. */
  function AfterFetch(current: Option<User>, f: Fetch): (u: Option<User>)
    ensures f.QueryError? ==> u == current
    ensures f.Rows? && f.rows == [] ==> u.None?
    ensures f.Rows? && f.rows != [] ==> u == Some(RowToUser(f.rows[0]))
  {
    match f
    case QueryError => current
    case Rows(rows) => if rows == [] then None else Some(RowToUser(rows[0]))
  }

  /** The user a demo sign-up creates. */
  function DemoSignUpUser(stamp: string, email: string, name: string, profession: string): (u: User)
    ensures u.name == name && u.email == email && u.profession == profession
    ensures !u.isPro && u.promptsUsed == 0 && u.promptsLimit == FreeLimit
  {
    User("demo-user-" + stamp, name, email, profession, false, 0, FreeLimit)
  }

  /** The fixed profile a demo sign-in creates, with the given email. */
  function DemoSignInUser(email: string): (u: User)
    ensures u.id == DemoSignInId && u.email == email
    ensures !u.isPro && u.promptsUsed == 3 && u.promptsLimit == FreeLimit
  {
    User(DemoSignInId, DemoSignInName, email, DemoSignInProfession, false, 3, FreeLimit)
  }

  /** The row a real sign-up inserts. */
  function SignUpRow(id: string, email: string, name: string, profession: string): Row {
    Row(id, name, email, profession, false, 0, FreeLimit)
  }

  /** The user a real sign-up sets once its row is inserted: the same user a later
      profile fetch of that row gives. */
  function SignUpUser(id: string, email: string, name: string, profession: string): (u: User)
    ensures u == RowToUser(SignUpRow(id, email, name, profession))
    ensures !u.isPro && u.promptsUsed == 0 && u.promptsLimit == FreeLimit
  {
    User(id, name, email, profession, false, 0, FreeLimit)
  }

  /** `Partial<User>`: the fields a profile update sends. */
  datatype Patch = Patch(
    name: Option<string>,
    email: Option<string>,
    profession: Option<string>,
    isPro: Option<bool>,
    promptsUsed: Option<int>,
    promptsLimit: Option<int>)

  /** `{ ...user, isPro: true, promptsLimit: -1 }`: every field of the current user,
      with PRO status and the unlimited quota. */
  function UpgradePatch(current: Option<User>): (p: Patch)
    ensures p.isPro == Some(true) && p.promptsLimit == Some(Unlimited)
    ensures current.None? ==> p.name.None? && p.email.None? && p.profession.None? && p.promptsUsed.None?
  {
    match current
    case None => Patch(None, None, None, Some(true), None, Some(Unlimited))
    case Some(u) => Patch(Some(u.name), Some(u.email), Some(u.profession), Some(true), Some(u.promptsUsed), Some(Unlimited))
  }

  /** The update the table applies: a column whose field is undefined keeps its value. */
  function ApplyPatch(r: Row, p: Patch): (r': Row)
    ensures r'.id == r.id
  {
    Row(r.id, p.name.GetOr(r.name), p.email.GetOr(r.email), p.profession.GetOr(r.profession),
        p.isPro.GetOr(r.is_pro), p.promptsUsed.GetOr(r.prompts_used), p.promptsLimit.GetOr(r.prompts_limit))
  }

  /** Applied to the user's own row, the upgrade gives that user with PRO status and
      the unlimited quota, and nothing else changed. */
  lemma UpgradeEffect(u: User)
    ensures RowToUser(ApplyPatch(UserToRow(u), UpgradePatch(Some(u)))) == u.(isPro := true, promptsLimit := Unlimited)
  {
  }

  /** How a real sign-up ended: the provider rejected or threw; it returned no user;
      or it returned one and the profile insert succeeded or failed. */
  datatype SignUpOutcome = SignUpRejected | SignUpNoUser | SignUpCreated(userId: string, inserted: bool)

  /** How a real sign-in ended: rejected or threw, or accepted with the user's id
      (if any) and the outcome of the profile fetch. */
  datatype SignInOutcome = SignInRejected | SignInAccepted(userId: Option<string>, fetch: Fetch)

  /** How the profile update ended: it failed, or it returned the updated row. */
  datatype UpdateOutcome = UpdateFailed | UpdateReturned(row: Row)

  datatype UpdateResult = NotLoggedIn | UpdateError | UpdateOk

  /** How getting the initial session ended. */
  datatype SessionOutcome = SessionFailed | NoSession | SessionFound(userId: string, fetch: Fetch)

  class AuthHook {
    const url: string
    const key: string
    var user: Option<User>
    var providerUser: Option<string>
    var loading: bool

    constructor(url: string, key: string)
      ensures this.url == url && this.key == key
      ensures user.None? && providerUser.None? && loading
    {
      this.url := url;
      this.key := key;
      user := None;
      providerUser := None;
      loading := true;
    }

    /** `getInitialSession`: demo mode only ends the loading; otherwise a session's
        user is recorded and its profile fetched; loading ends on every path. */
    method InitialSession(outcome: SessionOutcome)
      modifies this
      ensures !loading
      ensures IsDemo(url, key) || !outcome.SessionFound? ==>
        user == old(user) && providerUser == old(providerUser)
      ensures !IsDemo(url, key) && outcome.SessionFound? ==>
        providerUser == Some(outcome.userId) && user == AfterFetch(old(user), outcome.fetch)
    {
      if !IsDemo(url, key) {
        match outcome {
          case SessionFound(id, f) =>
            providerUser := Some(id);
            user := AfterFetch(user, f);
          case _ =>
        }
      }
      loading := false;
    }

    /** The auth-state listener: a session's user is recorded and its profile
        fetched; no session clears both the user and the provider user. */
    method AuthEvent(session: Option<(string, Fetch)>)
      modifies this
      ensures !loading
      ensures session.None? ==> user.None? && providerUser.None?
      ensures session.Some? ==> providerUser == Some(session.value.0) && user == AfterFetch(old(user), session.value.1)
    {
      if session.Some? {
        providerUser := Some(session.value.0);
        user := AfterFetch(user, session.value.1);
      } else {
        providerUser := None;
        user := None;
      }
      loading := false;
    }

    /** `signUp`: in demo mode the demo user is set and no error returned; otherwise
        the user is set only once its profile row is inserted, and only a rejected
        call reports an error. */
    method SignUp(email: string, password: string, name: string, profession: string,
                  stamp: string, outcome: SignUpOutcome) returns (failed: bool)
      modifies this
      ensures IsDemo(url, key) ==> !failed && user == Some(DemoSignUpUser(stamp, email, name, profession))
      ensures !IsDemo(url, key) ==> (failed <==> outcome.SignUpRejected?)
      ensures !IsDemo(url, key) && outcome.SignUpCreated? && outcome.inserted ==>
        user == Some(SignUpUser(outcome.userId, email, name, profession))
      ensures !IsDemo(url, key) && !(outcome.SignUpCreated? && outcome.inserted) ==> user == old(user)
      ensures providerUser == old(providerUser) && loading == old(loading)
    {
      if IsDemo(url, key) {
        user := Some(DemoSignUpUser(stamp, email, name, profession));
        return false;
      }
      match outcome {
        case SignUpRejected =>
          failed := true;
        case SignUpNoUser =>
          failed := false;
        case SignUpCreated(id, inserted) =>
          if inserted {
            user := Some(SignUpUser(id, email, name, profession));
          }
          failed := false;
      }
    }

    /** `signIn`: in demo mode the fixed demo profile is set; otherwise a rejected
        call reports an error and changes nothing, and an accepted one fetches the
        profile of the returned user. */
    method SignIn(email: string, password: string, outcome: SignInOutcome) returns (failed: bool)
      modifies this
      ensures IsDemo(url, key) ==> !failed && user == Some(DemoSignInUser(email))
      ensures !IsDemo(url, key) ==> (failed <==> outcome.SignInRejected?)
      ensures !IsDemo(url, key) && outcome.SignInAccepted? && outcome.userId.Some? ==>
        user == AfterFetch(old(user), outcome.fetch)
      ensures !IsDemo(url, key) && !(outcome.SignInAccepted? && outcome.userId.Some?) ==> user == old(user)
      ensures providerUser == old(providerUser) && loading == old(loading)
    {
      if IsDemo(url, key) {
        user := Some(DemoSignInUser(email));
        return false;
      }
      match outcome {
        case SignInRejected =>
          failed := true;
        case SignInAccepted(id, f) =>
          if id.Some? {
            user := AfterFetch(user, f);
          }
          failed := false;
      }
    }

    /** `signOut`: the user and provider user are cleared only when the provider call
        succeeded. */
    method SignOut(succeeded: bool)
      modifies this
      ensures succeeded ==> user.None? && providerUser.None?
      ensures !succeeded ==> user == old(user) && providerUser == old(providerUser)
      ensures loading == old(loading)
    {
      if succeeded {
        user := None;
        providerUser := None;
      }
    }

    /** `updateProfile`: with no user it reports that and changes nothing; otherwise
        the returned row becomes the user. */
    method UpdateProfile(patch: Patch, outcome: UpdateOutcome) returns (result: UpdateResult)
      modifies this
      ensures old(user).None? ==> result == NotLoggedIn && user == old(user)
      ensures old(user).Some? && outcome.UpdateFailed? ==> result == UpdateError && user == old(user)
      ensures old(user).Some? && outcome.UpdateReturned? ==> result == UpdateOk && user == Some(RowToUser(outcome.row))
      ensures providerUser == old(providerUser) && loading == old(loading)
    {
      if user.None? {
        return NotLoggedIn;
      }
      match outcome {
        case UpdateFailed =>
          result := UpdateError;
        case UpdateReturned(row) =>
          user := Some(RowToUser(row));
          result := UpdateOk;
      }
    }

    /** `upgradeToPro`: a profile update with the upgrade patch; when the table
        returns the user's row with that patch applied, the user becomes PRO with the
        unlimited quota and is otherwise unchanged. */
    method UpgradeToPro(outcome: UpdateOutcome) returns (result: UpdateResult)
      modifies this
      ensures old(user).None? ==> result == NotLoggedIn && user == old(user)
      ensures old(user).Some? && outcome.UpdateReturned? ==> result == UpdateOk && user == Some(RowToUser(outcome.row))
      ensures old(user).Some? && outcome == UpdateReturned(ApplyPatch(UserToRow(old(user).value), UpgradePatch(old(user)))) ==>
        result == UpdateOk && user == Some(old(user).value.(isPro := true, promptsLimit := Unlimited))
      ensures old(user).Some? && outcome.UpdateFailed? ==> result == UpdateError && user == old(user)
      ensures providerUser == old(providerUser) && loading == old(loading)
    {
      if user.Some? {
        UpgradeEffect(user.value);
      }
      result := UpdateProfile(UpgradePatch(user), outcome);
    }

    /** `refreshProfile`: with a user, that user's profile is fetched again. */
    method RefreshProfile(f: Fetch)
      modifies this
      ensures old(user).Some? ==> user == AfterFetch(old(user), f)
      ensures old(user).None? ==> user.None?
      ensures providerUser == old(providerUser) && loading == old(loading)
    {
      if user.Some? {
        user := AfterFetch(user, f);
      }
    }
  }

  /** The three configurations the deployed code treats as demo mode. */
  lemma DemoConfigurations(key: string)
    ensures IsDemo(DemoUrl, key) && IsDemo("", key)
    ensures IsDemo("https://promptly.netlify.app", key)
  {
    assert OccursAt("https://promptly.netlify.app", NetlifyHost, 17);
  }
}
