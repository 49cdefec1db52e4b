/** The session state of the NeuroMed front end
    (healthcare-frontend/NeuroMed-2f/lib/auth-context.tsx): the signed-in
    user, the loading flag and the two tokens in `localStorage`.

    Each async handler is one atomic step. The back-end calls are not made:
    their outcomes (`login`'s token pair, `getProfile`'s profile, or the
    error each throws) are parameters. A thrown error is returned as
    `Some(thrown)`. */
module AuthContext {
  import opened Js
  import opened TokenStore

  /** The profile the back end returns; a missing property is `None`. */
  datatype Profile = Profile(
    id: int, email: Option<string>, fullName: Option<string>, username: Option<string>,
    role: string, isActive: Option<bool>, details: Value)

  /** The front end's `User`. `name` is `None` when the profile carries
      none of the three names. */
  datatype User = User(id: int, email: Option<string>, name: Option<string>, role: string, isActive: bool, details: Value)

  /** What an awaited call rejects with: an `Error` carrying a message, or
      any other thrown value. */
  datatype Thrown = ErrorObject(message: string) | OtherValue

  datatype Fetch<T> = Fetched(value: T) | Failed(error: Thrown)

  datatype Tokens = Tokens(access: string, refresh: string)

  /** The argument of `hasRole`: one role or a list of roles. */
  datatype Roles = OneRole(role: string) | RoleList(roles: seq<string>)

  /** The profile-to-`User` transform (written out three times in the
      source, identically). */
  function ToUser(p: Profile): (u: User)
    ensures u.id == p.id && u.email == p.email && u.role == p.role && u.details == p.details
    ensures Present(p.fullName) ==> u.name == p.fullName
    ensures !Present(p.fullName) && Present(p.username) ==> u.name == p.username
    ensures !Present(p.fullName) && !Present(p.username) ==> u.name == p.email
    ensures u.isActive == (p.isActive.None? || p.isActive.value)
  {
    User(p.id, p.email, OrElse(OrElse(p.fullName, p.username), p.email), p.role,
         if p.isActive.Some? then p.isActive.value else true, p.details)
  }

  /** The name shown is always one of the profile's own names, and is
      present whenever any of them is. */
  lemma UserNameFromProfile(p: Profile)
    ensures ToUser(p).name in {p.fullName, p.username, p.email}
    ensures Present(ToUser(p).name) <==> Present(p.fullName) || Present(p.username) || Present(p.email)
  {
  }

  /** `hasRole`. */
  predicate HasRole(user: Option<User>, roles: Roles) {
    user.Some? &&
      match roles
      case OneRole(r) => user.value.role == r
      case RoleList(rs) => user.value.role in rs
  }

  /** Without a user no role is held; a single role is the one-element
      list. */
  lemma HasRoleMeaning(user: Option<User>, roles: Roles)
    ensures user.None? ==> !HasRole(user, roles)
    ensures roles.OneRole? ==> HasRole(user, roles) == HasRole(user, RoleList([roles.role]))
    ensures roles.RoleList? && roles.roles == [] ==> !HasRole(user, roles)
  {
  }

  /** The message of the error `login` rethrows. */
  function LoginErrorMessage(error: Thrown): (m: string)
    ensures error.ErrorObject? ==> m == error.message
    ensures error.OtherValue? ==> m == "Login failed"
  {
    match error
    case ErrorObject(message) => message
    case OtherValue => "Login failed"
  }

  class Provider {
    var user: Option<User>
    var isLoading: bool
    /** `localStorage`. */
    const storage: Storage

    constructor (storage: Storage)
      ensures user.None? && isLoading && this.storage == storage
    {
      user := None;
      isLoading := true;
      this.storage := storage;
    }

    /** `initAuth`: with a stored token the profile is fetched; a failure
        clears both tokens and leaves the user as it was. Loading ends
        whatever happens. */
    method InitAuth(profile: Fetch<Profile>)
      modifies this, storage
      ensures !isLoading
      ensures !Present(Item(old(storage.items), AccessKey)) ==> user == old(user) && storage.items == old(storage.items)
      ensures Present(Item(old(storage.items), AccessKey)) && profile.Fetched? ==>
                user == Some(ToUser(profile.value)) && storage.items == old(storage.items)
      ensures Present(Item(old(storage.items), AccessKey)) && profile.Failed? ==>
                user == old(user) && storage.items == old(storage.items) - {AccessKey, RefreshKey}
    {
      var token := storage.GetToken();
      if Present(token) {
        match profile {
          case Fetched(p) =>
            user := Some(ToUser(p));
          case Failed(_) =>
            storage.RemoveToken();
        }
      }
      isLoading := false;
    }

    /** `login`: the tokens are stored before the profile is fetched, so a
        failing profile fetch leaves them stored. Any failure is rethrown
        as an `Error` whose message is `LoginErrorMessage`. Loading ends
        whatever happens. */
    method Login(tokens: Fetch<Tokens>, profile: Fetch<Profile>) returns (thrown: Option<string>)
      modifies this, storage
      ensures !isLoading
      ensures tokens.Failed? ==>
                thrown == Some(LoginErrorMessage(tokens.error))
                && user == old(user) && storage.items == old(storage.items)
      ensures tokens.Fetched? ==>
                storage.items == old(storage.items)[AccessKey := tokens.value.access][RefreshKey := tokens.value.refresh]
      ensures tokens.Fetched? && profile.Failed? ==>
                thrown == Some(LoginErrorMessage(profile.error)) && user == old(user)
      ensures tokens.Fetched? && profile.Fetched? ==>
                thrown.None? && user == Some(ToUser(profile.value))
    {
      isLoading := true;
      match tokens {
        case Failed(error) =>
          thrown := Some(LoginErrorMessage(error));
        case Fetched(t) =>
          storage.SetToken(t.access);
          storage.SetRefreshToken(t.refresh);
          match profile {
            case Failed(error) =>
              thrown := Some(LoginErrorMessage(error));
            case Fetched(p) =>
              user := Some(ToUser(p));
              thrown := None;
          }
      }
      isLoading := false;
    }

    /** `logout`: no user and neither token. */
    method Logout()
      modifies this, storage
      ensures user.None? && isLoading == old(isLoading)
      ensures storage.items == old(storage.items) - {AccessKey, RefreshKey}
      ensures !HasRole(user, RoleList(["patient", "doctor", "admin"]))
    {
      user := None;
      storage.RemoveToken();
    }

    /** `refreshUser`: a fetched profile replaces the user; a failure logs
        out and rethrows the same error. */
    method RefreshUser(profile: Fetch<Profile>) returns (thrown: Option<Thrown>)
      modifies this, storage
      ensures isLoading == old(isLoading)
      ensures profile.Fetched? ==>
                thrown.None? && user == Some(ToUser(profile.value)) && storage.items == old(storage.items)
      ensures profile.Failed? ==>
                thrown == Some(profile.error) && user.None?
                && storage.items == old(storage.items) - {AccessKey, RefreshKey}
    {
      match profile
      case Fetched(p) =>
        user := Some(ToUser(p));
        thrown := None;
      case Failed(error) =>
        Logout();
        thrown := Some(error);
    }
  }
}
