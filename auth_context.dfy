/**
 * The authentication context: the two demo accounts, login, signup and
 * logout, the `isBuilder` flag, and the session kept under the "user" key of
 * local storage and restored when the provider mounts.
 */
module AuthContext {
  import opened Js

  datatype Role = UserRole | BuilderRole

  /** The role as the string the source uses for it. */
  function RoleName(role: Role): (name: string)
    ensures name == "user" <==> role == UserRole
    ensures name == "builder" <==> role == BuilderRole
  {
    match role
    case UserRole => "user"
    case BuilderRole => "builder"
  }

  datatype User = User(id: string, name: string, email: string, role: Role)

  const DemoPassword: string := "password"
  const DemoUser: User := User("user-123", "John Doe", "user@example.com", UserRole)
  const DemoBuilder: User := User("builder-123", "ABC Constructions", "builder@example.com", BuilderRole)

  /**
   * The login check: the requested role's demo account, when both its email
   * and the password match; the password itself is never part of the result.
   */
  function CheckCredentials(email: string, password: string, role: Role): (r: Option<User>)
    ensures r.Some? <==>
              password == DemoPassword &&
              ((role == UserRole && email == DemoUser.email) || (role == BuilderRole && email == DemoBuilder.email))
    ensures r.Some? ==> r.value.email == email && r.value.role == role
    ensures r.Some? ==> r.value == (if role == UserRole then DemoUser else DemoBuilder)
  {
    if role == UserRole && email == DemoUser.email && password == DemoPassword then Some(DemoUser)
    else if role == BuilderRole && email == DemoBuilder.email && password == DemoPassword then Some(DemoBuilder)
    else None
  }

  /** An account only logs in under its own role. */
  lemma CrossRoleFails()
    ensures CheckCredentials(DemoBuilder.email, DemoPassword, UserRole) == None
    ensures CheckCredentials(DemoUser.email, DemoPassword, BuilderRole) == None
  {
  }

  /** The id signup gives a new account: the role name, a dash and the clock reading. */
  function SignupId(role: Role, now: nat): string {
    RoleName(role) + "-" + DecimalString(now)
  }

  /** Two signups under one role at different instants get different ids. */
  lemma SignupIdsDistinct(role: Role, t1: nat, t2: nat)
    requires t1 != t2
    ensures SignupId(role, t1) != SignupId(role, t2)
  {
    var prefix := RoleName(role) + "-";
    if SignupId(role, t1) == SignupId(role, t2) {
      assert SignupId(role, t1)[|prefix|..] == DecimalString(t1);
      assert SignupId(role, t2)[|prefix|..] == DecimalString(t2);
      DecimalStringValue(t1);
      DecimalStringValue(t2);
      assert false;
    }
  }

  /** A signup id starts with its role's name, so users and builders never share one. */
  lemma SignupIdsByRole(t1: nat, t2: nat)
    ensures SignupId(UserRole, t1) != SignupId(BuilderRole, t2)
  {
    assert SignupId(UserRole, t1)[0] == 'u';
    assert SignupId(BuilderRole, t2)[0] == 'b';
  }

  /**
   * What local storage holds under "user". `EmptyText` is the empty string,
   * which is falsy; `NullJson` is the text "null", which parses; `Malformed`
   * is text that does not parse. Other JSON values are not part of this model.
   */
  datatype Stored = EmptyText | UserJson(user: User) | NullJson | Malformed

  /** The session an application sees. */
  datatype Session = Session(user: Option<User>, isAuthenticated: bool)

  /**
   * The mount effect's reading of storage: nothing or falsy text keeps the
   * signed-out session; parsed text becomes the user and marks the session
   * authenticated, even when it parsed to null; unparsable text is dropped.
   */
  function Restore(stored: Option<Stored>): (s: Session)
    ensures stored == None || stored == Some(EmptyText) || stored == Some(Malformed) ==> s == Session(None, false)
    ensures forall u :: stored == Some(UserJson(u)) ==> s == Session(Some(u), true)
    ensures stored == Some(NullJson) ==> s == Session(None, true)
    ensures s.user.Some? ==> s.isAuthenticated
  {
    match stored
    case None => Session(None, false)
    case Some(EmptyText) => Session(None, false)
    case Some(UserJson(u)) => Session(Some(u), true)
    case Some(NullJson) => Session(None, true)
    case Some(Malformed) => Session(None, false)
  }

  /** The storage the mount effect leaves behind: unparsable text is removed. */
  function StorageAfterRestore(stored: Option<Stored>): (r: Option<Stored>)
    ensures stored == Some(Malformed) ==> r == None
    ensures stored != Some(Malformed) ==> r == stored
  {
    if stored == Some(Malformed) then None else stored
  }

  /** Restoring is settled after one mount: mounting again over what it left restores the same session. */
  lemma RestoreSettles(stored: Option<Stored>)
    ensures Restore(StorageAfterRestore(stored)) == Restore(stored)
    ensures StorageAfterRestore(StorageAfterRestore(stored)) == StorageAfterRestore(stored)
  {
  }

  class AuthProvider {
    var user: Option<User>
    var isAuthenticated: bool
    var storage: Option<Stored>

    /** A reload of the page would restore exactly the session held now. */
    predicate Valid()
      reads this
    {
      Restore(storage) == Session(user, isAuthenticated)
    }

    /** Mounting the provider over what storage holds, then running its effect. */
    constructor (stored: Option<Stored>)
      ensures Session(user, isAuthenticated) == Restore(stored)
      ensures storage == StorageAfterRestore(stored)
      ensures Valid()
    {
      user := None;
      isAuthenticated := false;
      storage := stored;
      if stored.Some? && stored.value != EmptyText {
        if stored.value.Malformed? {
          storage := None;
        } else {
          user := if stored.value.UserJson? then Some(stored.value.user) else None;
          isAuthenticated := true;
        }
      }
    }

    /** `isBuilder`: a user is present and their role is builder. */
    function IsBuilder(): (b: bool)
      reads this
      ensures b <==> user.Some? && user.value.role == BuilderRole
    {
      match user
      case Some(u) => u.role == BuilderRole
      case None => false
    }

    /**
     * `login`: on matching credentials the demo account becomes the user and
     * is saved; otherwise it answers false and changes nothing. `saved` says
     * whether `localStorage.setItem` succeeds: when it throws, the user and
     * the flag are already set, storage keeps what it held, and the `catch`
     * answers false.
     */
    method Login(email: string, password: string, role: Role, saved: bool) returns (ok: bool)
      modifies this
      ensures ok <==> CheckCredentials(email, password, role).Some? && saved
      ensures CheckCredentials(email, password, role).Some? ==>
                user == CheckCredentials(email, password, role) && isAuthenticated
                && (IsBuilder() <==> role == BuilderRole)
      ensures ok ==> storage == Some(UserJson(user.value))
      ensures !saved ==> storage == old(storage)
      ensures CheckCredentials(email, password, role).None? ==>
                user == old(user) && isAuthenticated == old(isAuthenticated) && storage == old(storage)
      ensures saved && old(Valid()) ==> Valid()
    {
      var loggedInUser := CheckCredentials(email, password, role);
      if loggedInUser.Some? {
        user := loggedInUser;
        isAuthenticated := true;
        if !saved {
          ok := false;
          return;
        }
        storage := Some(UserJson(loggedInUser.value));
        ok := true;
        return;
      }
      ok := false;
    }

    /**
     * `signup`: whatever the details, a new account with a clock-based id
     * becomes the user and is saved. The password is not kept or checked.
     * The answer is true unless `localStorage.setItem` throws (`saved` false),
     * in which case the new user is held but not saved.
     */
    method Signup(name: string, email: string, password: string, role: Role, now: nat, saved: bool) returns (ok: bool)
      modifies this
      ensures ok == saved
      ensures user == Some(User(SignupId(role, now), name, email, role)) && isAuthenticated
      ensures storage == if saved then Some(UserJson(user.value)) else old(storage)
      ensures IsBuilder() <==> role == BuilderRole
      ensures saved ==> Valid()
    {
      var newUser := User(RoleName(role) + "-" + DecimalString(now), name, email, role);
      user := Some(newUser);
      isAuthenticated := true;
      if !saved {
        ok := false;
        return;
      }
      storage := Some(UserJson(newUser));
      ok := true;
    }

    /** `logout`: no user, not authenticated, nothing saved. */
    method Logout()
      modifies this
      ensures user == None && !isAuthenticated && storage == None
      ensures !IsBuilder()
      ensures Valid()
    {
      user := None;
      isAuthenticated := false;
      storage := None;
    }
  }

  /**
   * A signed-in session survives a reload when it was saved: a provider
   * mounted over the storage a fresh login left holds the same user. When
   * saving failed, the login still took effect on the page but a reload
   * comes back signed out.
   */
  method ReloadAfterLogin(email: string, password: string, role: Role, saved: bool)
    returns (before: AuthProvider, after: AuthProvider)
    ensures before.user == CheckCredentials(email, password, role)
    ensures CheckCredentials(email, password, role).Some? && saved ==>
              after.user == CheckCredentials(email, password, role) && after.isAuthenticated
    ensures CheckCredentials(email, password, role).None? || !saved ==> after.user == None && !after.isAuthenticated
  {
    before := new AuthProvider(None);
    var ok := before.Login(email, password, role, saved);
    after := new AuthProvider(before.storage);
  }
}
