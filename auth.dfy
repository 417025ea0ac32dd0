/** The authentication service of src/lib/auth.ts: a fixed table of four
    accounts, a session record in browser storage that login writes and
    logout clears, and role predicates over an optional user. */
module Auth {
  import opened Types
  import opened Text

  /** One entry of the account table: the password and the user it logs in. */
  datatype Account = Account(password: string, user: User)

  const AdminUser := User("1", "admin", Admin, "System Administrator")
  const BrokerUser := User("2", "broker", Broker, "Robert Turner")
  const AltAdminUser := User("3", "admin.user", Admin, "Admin User")
  const AltBrokerUser := User("4", "broker.user", Broker, "Broker User")

  /** The account table, keyed by lower-case username. */
  const MockUsers: map<string, Account> := map[
    "admin" := Account("admin123", AdminUser),
    "broker" := Account("broker123", BrokerUser),
    "admin.user" := Account("password", AltAdminUser),
    "broker.user" := Account("password", AltBrokerUser)
  ]

  const InvalidCredentials := "Invalid username or password"

  /** The credential check inside `login`: the typed username is lower-cased
      and looked up; the password must then match exactly. */
  function CheckCredentials(username: string, password: string): Option<User> {
    var key := Lower(username);
    if key !in MockUsers || MockUsers[key].password != password then None
    else Some(MockUsers[key].user)
  }

  /** The four (lower-case username, password) pairs that log in, listed
      independently of the table. */
  const ValidPairs: set<(string, string)> := {
    ("admin", "admin123"), ("broker", "broker123"),
    ("admin.user", "password"), ("broker.user", "password")
  }

  /** Login succeeds exactly for the listed pairs, after lower-casing the username. */
  lemma CheckCredentialsSucceedsIffValidPair(username: string, password: string)
    ensures CheckCredentials(username, password).Some? <==> (Lower(username), password) in ValidPairs
  {
  }

  lemma TableKeysAreUsernames()
    ensures forall k :: k in MockUsers ==> MockUsers[k].user.username == k
  {
  }

  /** A successful login returns the canonical lower-case username, not the typed casing. */
  lemma CheckCredentialsCanonicalUser(username: string, password: string)
    requires CheckCredentials(username, password).Some?
    ensures CheckCredentials(username, password).value.username == Lower(username)
    ensures CheckCredentials(username, password).value == MockUsers[Lower(username)].user
  {
    TableKeysAreUsernames();
  }

  /** Every account logs in with its own key, typed as stored, and its password. */
  lemma CheckCredentialsOfEntry(key: string)
    requires key in MockUsers
    requires forall i :: 0 <= i < |key| ==> !IsUpper(key[i])
    ensures CheckCredentials(key, MockUsers[key].password) == Some(MockUsers[key].user)
  {
    LowerOfLowercase(key);
  }

  /** A username typed with the Kelvin sign in place of "k" still finds the
      broker account, since lower-casing maps that sign to ASCII "k". */
  lemma KelvinSignLogsIn()
    ensures CheckCredentials("bro" + [KelvinSign] + "er", "broker123") == Some(BrokerUser)
  {
    var typed := "bro" + [KelvinSign] + "er";
    assert Lower(typed) == "broker";
    assert MockUsers["broker"] == Account("broker123", BrokerUser);
  }

  /** The username is matched case-insensitively. */
  lemma CheckCredentialsIgnoresCase(username: string, password: string)
    ensures CheckCredentials(username, password) == CheckCredentials(Lower(username), password)
  {
    LowerIdempotent(username);
  }

  /** The password is matched exactly: at most one password works per username. */
  lemma CheckCredentialsPasswordExact(username: string, p: string, q: string)
    requires CheckCredentials(username, p).Some? && CheckCredentials(username, q).Some?
    ensures p == q
  {
  }

  /** `localStorage["auth_user"]`: absent, a serialized user, or something
      that does not parse. The JSON round trip of a user is taken as exact. */
  datatype StoredSession = Absent | Saved(user: User) | Corrupt

  /** `getCurrentUser`: never fails; anything but a saved user reads as null. */
  function ReadSession(s: StoredSession): Option<User> {
    match s
    case Saved(u) => Some(u)
    case Absent => None
    case Corrupt => None
  }

  lemma ReadSessionSoftFails(s: StoredSession)
    ensures ReadSession(s).Some? <==> s.Saved?
    ensures s.Saved? ==> ReadSession(s) == Some(s.user)
  {
  }

  /** What `login` resolves to. */
  datatype AuthResponse = AuthResponse(success: bool, user: Option<User>, error: Option<string>)

  /** The authentication service together with the storage slot it owns. */
  class AuthService {
    var storage: StoredSession

    constructor (initial: StoredSession)
      ensures storage == initial
    {
      storage := initial;
    }

    function GetCurrentUser(): Option<User>
      reads this
    {
      ReadSession(storage)
    }

    /** `login`, with the simulated delay taken as an atomic step. */
    method Login(username: string, password: string) returns (r: AuthResponse)
      modifies this
      ensures r.success <==> CheckCredentials(username, password).Some?
      ensures r.success ==> r.user == CheckCredentials(username, password) && r.error == None
      ensures r.success ==> storage == Saved(r.user.value) && GetCurrentUser() == r.user
      ensures !r.success ==> r == AuthResponse(false, None, Some(InvalidCredentials))
      ensures !r.success ==> storage == old(storage)
    {
      var key := Lower(username);
      if key !in MockUsers || MockUsers[key].password != password {
        return AuthResponse(false, None, Some(InvalidCredentials));
      }
      var account := MockUsers[key];
      storage := Saved(account.user);
      r := AuthResponse(true, Some(account.user), None);
    }

    /** `logout`, with the simulated delay taken as an atomic step. */
    method Logout()
      modifies this
      ensures storage == Absent && GetCurrentUser() == None
    {
      storage := Absent;
    }
  }

  /** `hasRole`: false for a null user. */
  function HasRole(user: Option<User>, role: Role): (r: bool)
    ensures r ==> user.Some?
  {
    user.Some? && user.value.role == role
  }

  function IsAdmin(user: Option<User>): (r: bool)
    ensures r == HasRole(user, Admin)
  {
    user.Some? && user.value.role == Admin
  }

  function IsBroker(user: Option<User>): (r: bool)
    ensures r == HasRole(user, Broker)
  {
    user.Some? && user.value.role == Broker
  }

  /** A signed-in user is exactly one of Admin and Broker; nobody is either. */
  lemma RolesPartitionUsers(user: Option<User>)
    ensures user.Some? ==> IsAdmin(user) != IsBroker(user)
    ensures user.None? ==> !IsAdmin(user) && !IsBroker(user)
  {
  }
}
