/**
 * The legacy user pool, seen as an oracle, and the two calls the trigger makes
 * to it: looking up a user and checking a password. Every remote failure
 * (unknown user, wrong password, network or permission error) is folded into
 * "absent" or "not accepted", and both calls then report "no user".
 */
module LegacyDirectory {
  import opened Wrappers
  import opened Attributes

  /** What the directory's get-user call returns: the stored username and, optionally, the attribute list. */
  datatype DirectoryUser = DirectoryUser(username: string, userAttributes: Option<seq<AttributeType>>)

  /**
   * The legacy directory for one invocation: the users whose lookup succeeds,
   * keyed by the username asked for, and the (username, password) pairs whose
   * password authentication succeeds.
   */
  datatype Directory = Directory(users: map<string, DirectoryUser>, credentials: set<(string, string)>)

  /** A user found in the legacy directory, with its attributes as a map. */
  datatype LegacyUser = LegacyUser(userName: string, userAttributes: map<string, string>)

  /** Password authentication succeeds; a missing password never does. */
  predicate PasswordAccepted(dir: Directory, username: string, password: Option<string>)
  {
    password.Some? && (username, password.value) in dir.credentials
  }

  /**
   * Looks `username` up: the directory's username and the normalised attribute
   * map when the lookup succeeds, nothing on any failure.
   */
  function LookupUser(dir: Directory, username: string): (r: Option<LegacyUser>)
    ensures r.Some? <==> username in dir.users
    ensures r.Some? ==> r.value.userName == dir.users[username].username
    ensures r.Some? ==> r.value.userAttributes == Normalise(dir.users[username].userAttributes)
    ensures r.Some? && dir.users[username].userAttributes.None? ==> r.value.userAttributes == map[]
  {
    if username in dir.users then
      var found := dir.users[username];
      Some(LegacyUser(found.username, Normalise(found.userAttributes)))
    else
      None
  }

  /**
   * Checks the password and, only when it is accepted, looks the user up; any
   * failure of either step gives nothing.
   */
  function AuthenticateUser(dir: Directory, username: string, password: Option<string>): (r: Option<LegacyUser>)
    ensures r.Some? <==> PasswordAccepted(dir, username, password) && username in dir.users
    ensures r.Some? ==> r == LookupUser(dir, username)
    ensures !PasswordAccepted(dir, username, password) ==> r == None
  {
    if PasswordAccepted(dir, username, password) then LookupUser(dir, username) else None
  }
}
