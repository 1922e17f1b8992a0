/** The profile store of the fishing game: the list of user records the game keeps
    under the key 'fishing_users', the validation rules of registration and login,
    and the write-back of a player's progress into that list. */
module Profiles {
  import opened Util
  import opened Economy

  /** A stored user. Records written by the game always carry an inventory and
      upgrades; a record seeded from elsewhere may lack them, and loading then
      falls back to defaults. */
  datatype UserRecord = UserRecord(
    username: string,
    password: string,
    score: int,
    money: int,
    inventory: Option<Inventory>,
    upgrades: Option<Upgrades>)
  {
    predicate Valid() {
      && score >= 0
      && money >= 0
      && (inventory.Some? ==> inventory.value.Valid())
      && (upgrades.Some? ==> upgrades.value.Valid())
    }
  }

  /** The record registration creates: money 100, score 0, no fish, every upgrade at level 1. */
  function NewUser(username: string, password: string): (u: UserRecord)
    ensures u.username == username && u.password == password
    ensures u.money == 100 && u.score == 0
    ensures u.inventory.Some? && forall r :: u.inventory.value.Count(r) == 0
    ensures u.upgrades.Some? && forall k :: u.upgrades.value.Level(k) == 1
    ensures u.Valid()
  {
    UserRecord(username, password, 0, 100, Some(EMPTY_INVENTORY), Some(STARTING_UPGRADES))
  }

  datatype AuthError =
    | MissingCredentials
    | UsernameTooShort
    | PasswordTooShort
    | UsernameTaken
    | InvalidCredentials

  predicate HasUser(users: seq<UserRecord>, name: string) {
    exists j :: 0 <= j < |users| && users[j].username == name
  }

  predicate HasCredentials(users: seq<UserRecord>, name: string, password: string) {
    exists j :: 0 <= j < |users| && users[j].username == name && users[j].password == password
  }

  /** Index of the first record named `name`, or -1. */
  function UserIndex(users: seq<UserRecord>, name: string): int {
    FindIndex(users, (u: UserRecord) => u.username == name)
  }

  /** Index of the first record with this username and password, or -1. */
  function CredentialsIndex(users: seq<UserRecord>, name: string, password: string): int {
    FindIndex(users, (u: UserRecord) => u.username == name && u.password == password)
  }

  /** Why registering `username` with `password` is refused, if it is. */
  function RegistrationError(users: seq<UserRecord>, username: string, password: string): (e: Option<AuthError>)
    ensures e == None <==> 3 <= |username| && 3 <= |password| && !HasUser(users, username)
    ensures e == Some(MissingCredentials) <==> username == "" || password == ""
    ensures e == Some(UsernameTaken) <==> 3 <= |username| && 3 <= |password| && HasUser(users, username)
    ensures e == Some(UsernameTooShort) <==> username != "" && password != "" && |username| < 3
    ensures e == Some(PasswordTooShort) <==> username != "" && password != "" && 3 <= |username| && |password| < 3
  {
    if username == "" || password == "" then Some(MissingCredentials)
    else if |username| < 3 then Some(UsernameTooShort)
    else if |password| < 3 then Some(PasswordTooShort)
    else if UserIndex(users, username) != -1 then Some(UsernameTaken)
    else None
  }

  /** Why logging in as `username` with `password` is refused, if it is. */
  function LoginError(users: seq<UserRecord>, username: string, password: string): (e: Option<AuthError>)
    ensures e == None <==> username != "" && password != "" && HasCredentials(users, username, password)
    ensures e == Some(InvalidCredentials) <==> username != "" && password != "" && !HasCredentials(users, username, password)
  {
    if username == "" || password == "" then Some(MissingCredentials)
    else if CredentialsIndex(users, username, password) == -1 then Some(InvalidCredentials)
    else None
  }

  /** After a successful registration the new record is the one a login with the
      same credentials finds, and the one the game loads by name. */
  lemma RegisterThenLogin(users: seq<UserRecord>, username: string, password: string)
    requires RegistrationError(users, username, password) == None
    ensures LoginError(users + [NewUser(username, password)], username, password) == None
    ensures CredentialsIndex(users + [NewUser(username, password)], username, password) == |users|
    ensures UserIndex(users + [NewUser(username, password)], username) == |users|
  {
    var users' := users + [NewUser(username, password)];
    assert users'[|users|].username == username && users'[|users|].password == password;
    assert forall j :: 0 <= j < |users| ==> users'[j] == users[j];
  }

  /** A name that can log in can never be registered again. */
  lemma RegisteredNameIsTaken(users: seq<UserRecord>, username: string, password: string, password': string)
    requires LoginError(users, username, password) == None
    ensures RegistrationError(users, username, password') != None
  {
  }

  /** `users` with the first record named `name` replaced by `f` of itself: the
      records of every other player are left as they were. */
  function UpdateFirstNamed(users: seq<UserRecord>, name: string, f: UserRecord -> UserRecord): (r: seq<UserRecord>)
    ensures |r| == |users|
    ensures forall j :: 0 <= j < |users| && users[j].username != name ==> r[j] == users[j]
    ensures forall j :: 0 <= j < |users| && j != UserIndex(users, name) ==> r[j] == users[j]
    ensures !HasUser(users, name) ==> r == users
    ensures HasUser(users, name) ==>
              var i := UserIndex(users, name);
              0 <= i && users[i].username == name && r[i] == f(users[i])
  {
    var i := UserIndex(users, name);
    if i == -1 then users else users[i := f(users[i])]
  }

  /** The leaderboard write-back: the stored score and money of the player's
      record become the session's; every other field and every other record stay. */
  function WriteBack(users: seq<UserRecord>, name: string, score: int, money: int): (r: seq<UserRecord>)
    ensures |r| == |users|
    ensures forall j :: 0 <= j < |users| ==>
              r[j] == users[j] || (users[j].username == name && r[j] == users[j].(score := score, money := money))
    ensures forall j :: 0 <= j < |users| && j != UserIndex(users, name) ==> r[j] == users[j]
    ensures HasUser(users, name) ==>
              r[UserIndex(users, name)] == users[UserIndex(users, name)].(score := score, money := money)
    ensures (forall j :: 0 <= j < |users| ==> users[j].Valid()) && score >= 0 && money >= 0 ==>
              forall j :: 0 <= j < |r| ==> r[j].Valid()
  {
    UpdateFirstNamed(users, name, (u: UserRecord) => u.(score := score, money := money))
  }
}
