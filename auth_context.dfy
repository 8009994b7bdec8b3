/** The session store: the signed-in user and token, their two storage
    keys, hydration from storage on mount, login and logout, and the role
    predicates every guard reads. */
module AuthContext {
  import opened Common

  /** The user object the backend returns at login. */
  datatype User = User(id: string, name: string, role: string)

  /** `!!token`: present and non-empty. */
  predicate Truthy(token: Option<string>)
  {
    token.Some? && token.value != ""
  }

  /** `isAuthenticated`: a truthy token and a user. */
  predicate Authenticated(token: Option<string>, user: Option<User>)
  {
    Truthy(token) && user.Some?
  }

  /** `isAdmin`: a user whose role is "admin" or "super_admin". */
  predicate AdminRole(user: Option<User>)
  {
    user.Some? && (user.value.role == "admin" || user.value.role == "super_admin")
  }

  /** `isStudent`: a user whose role is "student". */
  predicate StudentRole(user: Option<User>)
  {
    user.Some? && user.value.role == "student"
  }

  /** No user is both an admin and a student. */
  lemma RolesExclusive(user: Option<User>)
    ensures !(AdminRole(user) && StudentRole(user))
  {
    if user.Some? && user.value.role == "student" {
      assert user.value.role[0] == 's';
    }
  }

  /** The provider's state and the two storage keys it owns. */
  class AuthProvider {
    var user: Option<User>
    var token: Option<string>
    var loading: bool
    var storedToken: Option<string>
    var storedUser: Option<User>

    /** The user and the token are present together or absent together. */
    ghost predicate Valid()
      reads this
    {
      user.Some? <==> token.Some?
    }

    /** Mount, with whatever storage holds. */
    constructor (storedToken: Option<string>, storedUser: Option<User>)
      ensures Valid()
      ensures user.None? && token.None? && loading
      ensures this.storedToken == storedToken && this.storedUser == storedUser
    {
      user := None;
      token := None;
      loading := true;
      this.storedToken := storedToken;
      this.storedUser := storedUser;
    }

    /** The mount effect: restore the session only when the stored token is
      truthy and a stored user exists; loading ends either way. */
    method Hydrate()
      requires Valid()
      modifies this`user, this`token, this`loading
      ensures Valid()
      ensures !loading
      ensures Truthy(storedToken) && storedUser.Some? ==> token == storedToken && user == storedUser
      ensures !(Truthy(storedToken) && storedUser.Some?) ==> token == old(token) && user == old(user)
    {
      if Truthy(storedToken) && storedUser.Some? {
        token := storedToken;
        user := storedUser;
      }
      loading := false;
    }

    /** `login(userData, authToken)`: set both and store both. */
    method Login(u: User, t: string)
      modifies this`user, this`token, this`storedToken, this`storedUser
      ensures Valid()
      ensures user == Some(u) && token == Some(t)
      ensures storedUser == Some(u) && storedToken == Some(t)
    {
      user := Some(u);
      token := Some(t);
      storedToken := Some(t);
      storedUser := Some(u);
    }

    /** `logout()`: clear both and remove both keys. */
    method Logout()
      modifies this`user, this`token, this`storedToken, this`storedUser
      ensures Valid()
      ensures user.None? && token.None? && storedUser.None? && storedToken.None?
      ensures !IsAuthenticated() && !IsAdmin() && !IsStudent()
    {
      user := None;
      token := None;
      storedToken := None;
      storedUser := None;
    }

    predicate IsAuthenticated()
      reads this
    {
      Authenticated(token, user)
    }

    predicate IsAdmin()
      reads this
    {
      AdminRole(user)
    }

    predicate IsStudent()
      reads this
    {
      StudentRole(user)
    }
  }

  /** A login survives a reload exactly when its token is non-empty: the
      new provider, hydrated from what the old one stored, is signed in as
      the same user with the same role. */
  method LoginThenReload(stored: Option<string>, storedU: Option<User>, u: User, t: string)
    returns (reloaded: AuthProvider)
    ensures reloaded.Valid() && !reloaded.loading
    ensures reloaded.IsAuthenticated() <==> t != ""
    ensures t != "" ==> reloaded.user == Some(u) && reloaded.token == Some(t)
    ensures t != "" ==> (reloaded.IsAdmin() <==> AdminRole(Some(u)))
    ensures t == "" ==> reloaded.user.None?
  {
    var before := new AuthProvider(stored, storedU);
    before.Hydrate();
    before.Login(u, t);
    reloaded := new AuthProvider(before.storedToken, before.storedUser);
    reloaded.Hydrate();
  }

  /** After a logout a reload starts signed out. */
  method LogoutThenReload(stored: Option<string>, storedU: Option<User>) returns (reloaded: AuthProvider)
    ensures reloaded.Valid() && !reloaded.loading && !reloaded.IsAuthenticated() && !reloaded.IsAdmin()
  {
    var before := new AuthProvider(stored, storedU);
    before.Hydrate();
    before.Logout();
    reloaded := new AuthProvider(before.storedToken, before.storedUser);
    reloaded.Hydrate();
  }
}
