/** The session-based account handlers (core/apps/users/api.py) over an
    in-memory user table, with the `UserOut` projection of
    core/apps/users/schema.py. */
module UsersApi {
  import opened Wrappers

  /** A row of the user table; `passwordHash` is what the hasher stored. */
  datatype User = User(username: string, email: string, passwordHash: string)

  /** `UserOut`, the public fields of a user. */
  datatype UserOut = UserOut(id: int, username: string, email: string)

  function ToUserOut(id: int, u: User): UserOut
  {
    UserOut(id, u.username, u.email)
  }

  datatype AuthError =
    | PasswordsDoNotMatch
    | UsernameTaken
    | InvalidCredentials
    | Unauthenticated      // no user in the session (`django_auth`)
    | DuplicateUsername    // the insert breaks the unique constraint on the username

  function Status(e: AuthError): int
  {
    match e
    case PasswordsDoNotMatch => 400
    case UsernameTaken => 400
    case DuplicateUsername => 500
    case _ => 401
  }

  /** The `"detail"` text of the responses the handlers build themselves;
      `None` for the failure the framework reports. */
  function Detail(e: AuthError): Option<string>
  {
    match e
    case PasswordsDoNotMatch => Some("Passwords do not match")
    case UsernameTaken => Some("Username already taken")
    case InvalidCredentials => Some("Invalid credentials")
    case Unauthenticated => None
    case DuplicateUsername => None
  }

  /** Password checking, for whatever hasher the deployment configures. */
  predicate CheckPassword(hash: string -> string, stored: string, raw: string)
  {
    stored == hash(raw)
  }

  predicate IsUsernameTaken(users: map<int, User>, username: string)
  {
    exists id :: id in users && users[id].username == username
  }

  ghost predicate UniqueUsernames(users: map<int, User>)
  {
    forall i, j :: i in users && j in users && i != j ==> users[i].username != users[j].username
  }

  /** The guards of `register_user`, in their order: the password pair first,
      the username second. */
  function ValidateRegistration(users: map<int, User>, username: string, password1: string, password2: string)
    : (e: Option<AuthError>)
    ensures e == Some(PasswordsDoNotMatch) <==> password1 != password2
    ensures e == Some(UsernameTaken) <==> password1 == password2 && IsUsernameTaken(users, username)
    ensures e.None? <==> password1 == password2 && !IsUsernameTaken(users, username)
  {
    if password1 != password2 then Some(PasswordsDoNotMatch)
    else if IsUsernameTaken(users, username) then Some(UsernameTaken)
    else None
  }

  /** The user table and the session of one client. `session` holds the id of
      the logged-in user, if any. New ids come from a counter. `normalize` is
      the username normalisation `create_user` applies before the insert
      (Unicode NFKC in Django); no property of it is assumed. */
  class Accounts {
    const hash: string -> string
    const normalize: string -> string
    var users: map<int, User>
    var nextId: int
    var session: Option<int>

    ghost predicate Valid()
      reads this
    {
      && 1 <= nextId
      && (forall id :: id in users ==> 1 <= id < nextId)
      && UniqueUsernames(users)
      && (session.Some? ==> session.value in users)
    }

    constructor (hash: string -> string, normalize: string -> string)
      ensures Valid()
      ensures this.hash == hash && this.normalize == normalize && users == map[] && session == None
    {
      this.hash := hash;
      this.normalize := normalize;
      users, nextId, session := map[], 1, None;
    }

    /** `me`: the public fields of the session's user. */
    function Me(): (r: Result<UserOut, AuthError>)
      reads this
      requires Valid()
      ensures r.Err? <==> session.None?
      ensures r.Err? ==> r.error == Unauthenticated
      ensures r.Ok? ==> session.value in users
                        && r.value.id == session.value
                        && r.value.username == users[session.value].username
                        && r.value.email == users[session.value].email
    {
      if session.None? then Err(Unauthenticated)
      else Ok(ToUserOut(session.value, users[session.value]))
    }

    /** `login_user`: `authenticate` followed by `login`. An unknown username
        and a wrong password give the same failure. */
    method Login(username: string, password: string) returns (r: Result<UserOut, AuthError>)
      requires Valid()
      modifies this`session
      ensures Valid()
      ensures r.Ok? <==> exists id :: id in users && users[id].username == username
                                      && CheckPassword(hash, users[id].passwordHash, password)
      ensures r.Err? ==> r.error == InvalidCredentials && session == old(session)
      ensures r.Ok? ==> session.Some? && users[session.value].username == username
                        && r.value == ToUserOut(session.value, users[session.value])
                        && Me() == Ok(r.value)
    {
      if !IsUsernameTaken(users, username) {
        return Err(InvalidCredentials);
      }
      var id :| id in users && users[id].username == username;
      if !CheckPassword(hash, users[id].passwordHash, password) {
        return Err(InvalidCredentials);
      }
      session := Some(id);
      r := Ok(ToUserOut(id, users[id]));
    }

    /** `logout_user`: requires a logged-in user and empties the session. */
    method Logout() returns (r: Result<(), AuthError>)
      requires Valid()
      modifies this`session
      ensures Valid()
      ensures r.Err? <==> old(session).None?
      ensures r.Err? ==> r.error == Unauthenticated
      ensures session == None && Me() == Err(Unauthenticated)
    {
      if session.None? {
        return Err(Unauthenticated);
      }
      session := None;
      r := Ok(());
    }

    /** `register_user`: the guards on the name as given, then one insert of
        the normalised name with the hashed first password, then `login` of the
        new user. When the normalised name is already stored, the insert breaks
        the unique constraint; that error is not the one the handler catches,
        so the request fails. A refused registration changes nothing. */
    method Register(username: string, email: string, password1: string, password2: string)
      returns (r: Result<UserOut, AuthError>)
      requires Valid()
      modifies this
      ensures Valid()
      ensures ValidateRegistration(old(users), username, password1, password2).Some? ==>
                r == Err(ValidateRegistration(old(users), username, password1, password2).value)
      ensures (ValidateRegistration(old(users), username, password1, password2).None?
               && IsUsernameTaken(old(users), normalize(username))) ==> r == Err(DuplicateUsername)
      ensures r.Ok? <==> ValidateRegistration(old(users), username, password1, password2).None?
                         && !IsUsernameTaken(old(users), normalize(username))
      ensures r.Err? ==> users == old(users) && nextId == old(nextId) && session == old(session)
      ensures r.Ok? ==>
                && r.value.id == old(nextId) && r.value.id !in old(users)
                && users == old(users)[r.value.id := User(normalize(username), email, hash(password1))]
                && CheckPassword(hash, users[r.value.id].passwordHash, password1)
                && nextId == old(nextId) + 1
                && session == Some(r.value.id)
                && r.value == UserOut(r.value.id, normalize(username), email)
                && Me() == Ok(r.value)
    {
      var invalid := ValidateRegistration(users, username, password1, password2);
      if invalid.Some? {
        return Err(invalid.value);
      }
      var name := normalize(username);
      if IsUsernameTaken(users, name) {
        return Err(DuplicateUsername);
      }
      var id := nextId;
      users := users[id := User(name, email, hash(password1))];
      nextId := nextId + 1;
      session := Some(id);
      r := Ok(ToUserOut(id, users[id]));
    }
  }
}
