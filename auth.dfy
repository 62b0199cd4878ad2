/**
 * `AuthContext`: simulated sign-in against a list of registered users kept in
 * local storage, a token and a public user record for the session, and the
 * demo-data seeding done when the provider mounts.
 */
module Auth {
  import opened Wrappers
  import opened Domain
  import opened Storage
  import Seqs
  import Text
  import DemoSeeder

  datatype AuthError = InvalidCredentials | UserAlreadyExists

  function Message(e: AuthError): string {
    match e
    case InvalidCredentials => "Invalid credentials"
    case UserAlreadyExists => "User already exists"
  }

  /** `getStoredUsers()`: the stored list, or empty when the key is missing, empty or unparsable. */
  function StoredUsers(entries: map<string, Stored>): (r: seq<StoredUser>)
    ensures UsersKey in entries && entries[UsersKey].UserList? ==> r == entries[UsersKey].users
    ensures !(UsersKey in entries && entries[UsersKey].UserList?) ==> r == []
  {
    if UsersKey in entries && entries[UsersKey].UserList? then entries[UsersKey].users else []
  }

  function SameEmail(email: string): StoredUser -> bool {
    (u: StoredUser) => Text.EqualsIgnoringCase(u.email, email)
  }

  function Credentials(email: string, password: string): StoredUser -> bool {
    (u: StoredUser) => Text.EqualsIgnoringCase(u.email, email) && u.password == password
  }

  /** The stored user without its password. */
  function PublicUser(u: StoredUser): (p: User)
    ensures p.id == u.id && p.email == u.email && p.name == u.name && p.role == u.role
  {
    User(u.id, u.email, u.name, u.role)
  }

  const TokenPrefix := "dummy-token-"

  /** `dummy-token-${id}`. */
  function Token(id: string): (t: string)
    ensures Text.StartsWith(t, TokenPrefix) && t[|TokenPrefix|..] == id
  {
    TokenPrefix + id
  }

  /** `/dashboard/${role}`. */
  function DashboardRoute(role: Role): (r: string)
    ensures Text.StartsWith(r, "/dashboard/") && r[11..] == RoleName(role)
  {
    "/dashboard/" + RoleName(role)
  }

  const LoginRoute := "/login"

  /** What `login` decides: the first stored user with the email (ignoring case) and exactly the password. */
  function LoginOutcome(entries: map<string, Stored>, email: string, password: string): (r: Result<User, AuthError>)
    ensures r.Failure? <==> forall u :: u in StoredUsers(entries) ==> !(Text.EqualsIgnoringCase(u.email, email) && u.password == password)
    ensures r.Failure? ==> r.error == InvalidCredentials
    ensures r.Success? ==> exists k :: 0 <= k < |StoredUsers(entries)| && r.value == PublicUser(StoredUsers(entries)[k])
                                      && Credentials(email, password)(StoredUsers(entries)[k])
                                      && forall j :: 0 <= j < k ==> !Credentials(email, password)(StoredUsers(entries)[j])
  {
    match Seqs.Find(StoredUsers(entries), Credentials(email, password))
    case None => Failure(InvalidCredentials)
    case Some(u) => Success(PublicUser(u))
  }

  /** The account `register` creates, or the refusal when the email is taken by any stored user, ignoring case. */
  function RegisterOutcome(entries: map<string, Stored>, email: string, password: string, name: string, role: Role, now: nat)
    : (r: Result<StoredUser, AuthError>)
    ensures r.Failure? <==> exists u :: u in StoredUsers(entries) && Text.EqualsIgnoringCase(u.email, email)
    ensures r.Failure? ==> r.error == UserAlreadyExists
    ensures r.Success? ==> r.value == StoredUser(Text.NatToString(now), email, password, name, role)
  {
    if Seqs.Any(StoredUsers(entries), SameEmail(email)) then Failure(UserAlreadyExists)
    else Success(StoredUser(Text.NatToString(now), email, password, name, role))
  }

  /** The store after a successful sign-in: the token and the public record are written. */
  function SignedIn(entries: map<string, Stored>, u: User): (r: map<string, Stored>)
    ensures TokenKey in r && UserKey in r && r[TokenKey] == Text(Token(u.id)) && r[UserKey] == UserRecord(u)
    ensures forall k :: k != TokenKey && k != UserKey ==> (k in r <==> k in entries) && (k in r ==> r[k] == entries[k])
  {
    entries[TokenKey := Text(Token(u.id))][UserKey := UserRecord(u)]
  }

  /** The store after a successful `register`: the account is appended to the user list, then the session is written. */
  function Registered(entries: map<string, Stored>, su: StoredUser): (r: map<string, Stored>)
    ensures StoredUsers(r) == StoredUsers(entries) + [su]
    ensures TokenKey in r && UserKey in r && r[TokenKey] == Text(Token(su.id)) && r[UserKey] == UserRecord(PublicUser(su))
    ensures forall k :: k != UsersKey && k != TokenKey && k != UserKey ==> (k in r <==> k in entries) && (k in r ==> r[k] == entries[k])
  {
    SignedIn(entries[UsersKey := UserList(StoredUsers(entries) + [su])], PublicUser(su))
  }

  /** What the mount-time restore leaves: the current user and the store. */
  datatype Session = Session(user: Option<User>, entries: map<string, Stored>)

  /** Both `getItem('user')` and `getItem('token')` are truthy. */
  predicate SessionStored(entries: map<string, Stored>) {
    Truthy(if UserKey in entries then Some(entries[UserKey]) else None)
    && Truthy(if TokenKey in entries then Some(entries[TokenKey]) else None)
  }

  /**
   * Session restore: only with both 'user' and 'token' truthy; a 'user' value
   * that does not parse as a user record removes both keys.
   */
  function Restore(entries: map<string, Stored>): (r: Session)
    ensures r.user.Some? <==> SessionStored(entries) && entries[UserKey].UserRecord?
    ensures SessionStored(entries) && entries[UserKey].UserRecord? ==>
              r.user.value == entries[UserKey].user && r.entries == entries
    ensures SessionStored(entries) && !entries[UserKey].UserRecord? ==>
              r.entries == entries - {UserKey, TokenKey}
    ensures !SessionStored(entries) ==> r.entries == entries
  {
    var storedUser := if UserKey in entries then Some(entries[UserKey]) else None;
    var token := if TokenKey in entries then Some(entries[TokenKey]) else None;
    if Truthy(storedUser) && Truthy(token) then
      if storedUser.value.UserRecord? then Session(Some(storedUser.value.user), entries)
      else Session(None, entries - {UserKey} - {TokenKey})
    else Session(None, entries)
  }

  /** An unparsable 'user' is dropped together with the token, and nothing else is removed. */
  lemma UnparsableUserDropsSession(entries: map<string, Stored>, garbage: string)
    requires garbage != ""
    requires UserKey in entries && entries[UserKey] == Text(garbage)
    requires TokenKey in entries && entries[TokenKey] != Text("")
    ensures Restore(entries).user.None?
    ensures UserKey !in Restore(entries).entries && TokenKey !in Restore(entries).entries
    ensures forall k :: k in entries && k != UserKey && k != TokenKey ==>
              k in Restore(entries).entries && Restore(entries).entries[k] == entries[k]
  {
  }

  /** The seeding effect: each demo list is written only where its key is falsy. */
  function AuthSeeded(entries: map<string, Stored>): (r: map<string, Stored>)
    ensures DemoSeeder.HasDemoData(r)
    ensures Truthy(if CoursesKey in entries then Some(entries[CoursesKey]) else None) ==> r[CoursesKey] == entries[CoursesKey]
    ensures Truthy(if BundlesKey in entries then Some(entries[BundlesKey]) else None) ==> r[BundlesKey] == entries[BundlesKey]
    ensures !Truthy(if CoursesKey in entries then Some(entries[CoursesKey]) else None) ==> r[CoursesKey] == CourseList(DemoSeeder.DemoCourses)
    ensures !Truthy(if BundlesKey in entries then Some(entries[BundlesKey]) else None) ==> r[BundlesKey] == BundleList(DemoSeeder.DemoBundles)
    ensures forall k :: k != CoursesKey && k != BundlesKey ==> (k in r <==> k in entries) && (k in r ==> r[k] == entries[k])
  {
    var e1 := if Truthy(if CoursesKey in entries then Some(entries[CoursesKey]) else None) then entries
              else entries[CoursesKey := CourseList(DemoSeeder.DemoCourses)];
    if Truthy(if BundlesKey in e1 then Some(e1[BundlesKey]) else None) then e1
    else e1[BundlesKey := BundleList(DemoSeeder.DemoBundles)]
  }

  /**
   * Unlike `initDemoData`, the mount-time seeding keeps a present course list
   * when only the bundles are missing.
   */
  lemma AuthSeedKeepsLoneCourses(entries: map<string, Stored>)
    requires CoursesKey in entries && entries[CoursesKey] != Text("") && BundlesKey !in entries
    ensures AuthSeeded(entries)[CoursesKey] == entries[CoursesKey]
    ensures AuthSeeded(entries)[BundlesKey] == BundleList(DemoSeeder.DemoBundles)
    ensures entries[CoursesKey] != CourseList(DemoSeeder.DemoCourses) ==>
              AuthSeeded(entries)[CoursesKey] != DemoSeeder.InitSeeded(entries)[CoursesKey]
  {
  }

  /** A freshly registered account can sign in with the same email and password. */
  lemma {:induction false} RegisterThenLogin(entries: map<string, Stored>, email: string, password: string, name: string, role: Role, now: nat)
    requires RegisterOutcome(entries, email, password, name, role, now).Success?
    ensures LoginOutcome(Registered(entries, RegisterOutcome(entries, email, password, name, role, now).value), email, password)
            == Success(User(Text.NatToString(now), email, name, role))
  {
    var su := RegisterOutcome(entries, email, password, name, role, now).value;
    var users := StoredUsers(entries);
    assert forall u :: u in users ==> !Credentials(email, password)(u);
    Seqs.FindAppendNew(users, su, Credentials(email, password));
  }

  /** An email that differs from a registered one only in letter case is already taken. */
  lemma CaseVariantTaken(entries: map<string, Stored>, existing: StoredUser, email: string, password: string, name: string, role: Role, now: nat)
    requires existing in StoredUsers(entries) && Text.Lower(existing.email) == Text.Lower(email)
    ensures RegisterOutcome(entries, email, password, name, role, now) == Failure(UserAlreadyExists)
  {
  }

  /** A session written by sign-in is restored on the next mount; one removed by logout is not. */
  lemma SignInRestores(entries: map<string, Stored>, u: User)
    ensures Restore(SignedIn(entries, u)) == Session(Some(u), SignedIn(entries, u))
    ensures Restore(SignedIn(entries, u) - {TokenKey, UserKey}).user.None?
  {
    assert Token(u.id) != "";
  }

  /** The provider's state; `store` is the browser's local storage. */
  class AuthProvider {
    var user: Option<User>
    var loading: bool
    const store: LocalStore

    constructor (store: LocalStore)
      ensures this.store == store && user.None? && loading
    {
      this.store := store;
      user := None;
      loading := true;
    }

    /** `isAuthenticated`. */
    predicate IsAuthenticated(): (b: bool)
      reads this
      ensures b <==> user != None
    {
      user.Some?
    }

    /** The mount-time restore effect; it always ends the loading state. */
    method RestoreSession()
      modifies this, store
      ensures Restore(old(store.entries)).user.Some? ==> user == Restore(old(store.entries)).user
      ensures Restore(old(store.entries)).user.None? ==> user == old(user)
      ensures store.entries == Restore(old(store.entries)).entries && !loading
    {
      var storedUser := store.Get(UserKey);
      var token := store.Get(TokenKey);
      if Truthy(storedUser) && Truthy(token) {
        if storedUser.value.UserRecord? {
          user := Some(storedUser.value.user);
        } else {
          store.RemoveItem(UserKey);
          store.RemoveItem(TokenKey);
        }
      }
      loading := false;
    }

    /** The mount-time seeding effect. */
    method SeedDemoData()
      modifies store
      ensures store.entries == AuthSeeded(old(store.entries))
    {
      var courses := store.Get(CoursesKey);
      if !Truthy(courses) {
        store.SetItem(CoursesKey, CourseList(DemoSeeder.DemoCourses));
      }
      var bundles := store.Get(BundlesKey);
      if !Truthy(bundles) {
        store.SetItem(BundlesKey, BundleList(DemoSeeder.DemoBundles));
      }
    }

    /** `login`: on success the session is written and the dashboard route returned; on failure nothing changes. */
    method Login(email: string, password: string) returns (r: Result<string, AuthError>)
      modifies this`user, store
      ensures r.Failure? <==> LoginOutcome(old(store.entries), email, password).Failure?
      ensures r.Failure? ==> r.error == InvalidCredentials && user == old(user) && store.entries == old(store.entries)
      ensures r.Success? ==> user == Some(LoginOutcome(old(store.entries), email, password).value)
                             && store.entries == SignedIn(old(store.entries), user.value)
                             && r.value == DashboardRoute(user.value.role)
    {
      var outcome := LoginOutcome(store.entries, email, password);
      if outcome.Failure? {
        return Failure(outcome.error);
      }
      var u := outcome.value;
      store.SetItem(TokenKey, Text(Token(u.id)));
      store.SetItem(UserKey, UserRecord(u));
      user := Some(u);
      r := Success(DashboardRoute(u.role));
    }

    /** `register`: appends the account and signs it in, or refuses a taken email and changes nothing. */
    method Register(email: string, password: string, name: string, role: Role, now: nat) returns (r: Result<string, AuthError>)
      modifies this`user, store
      ensures r.Failure? <==> RegisterOutcome(old(store.entries), email, password, name, role, now).Failure?
      ensures r.Failure? ==> r.error == UserAlreadyExists && user == old(user) && store.entries == old(store.entries)
      ensures r.Success? ==> var su := RegisterOutcome(old(store.entries), email, password, name, role, now).value;
                             user == Some(PublicUser(su)) && store.entries == Registered(old(store.entries), su)
                             && r.value == DashboardRoute(role)
    {
      var outcome := RegisterOutcome(store.entries, email, password, name, role, now);
      if outcome.Failure? {
        return Failure(outcome.error);
      }
      var su := outcome.value;
      var users := StoredUsers(store.entries);
      store.SetItem(UsersKey, UserList(users + [su]));
      var u := PublicUser(su);
      store.SetItem(TokenKey, Text(Token(u.id)));
      store.SetItem(UserKey, UserRecord(u));
      user := Some(u);
      r := Success(DashboardRoute(role));
    }

    /** `logout`: removes the session keys, clears the user and returns the login route. */
    method Logout() returns (route: string)
      modifies this`user, store
      ensures store.entries == old(store.entries) - {TokenKey, UserKey}
      ensures user.None? && !IsAuthenticated() && route == LoginRoute
    {
      store.RemoveItem(TokenKey);
      store.RemoveItem(UserKey);
      user := None;
      route := LoginRoute;
    }
  }
}
