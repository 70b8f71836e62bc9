/** Registration: an email-uniqueness check, then the insert of a new active user. */
module Auth {
  import opened Base
  import opened Uuids
  import opened Tables
  import opened Users

  /** `findByEmail`: that email among users that are not soft-deleted. */
  function LiveUserWithEmail(email: string): User -> bool
  {
    (u: User) => u.email == email && !u.deleted
  }

  /** The row `register` builds: the encoded password, the named role, active, not deleted. */
  function NewUser(email: string, encodedPassword: string, role: UserRole, newId: Uuid): (u: User)
    ensures LiveUserWithEmail(email)(u) && u.status == UserStatus.Active
    ensures u.password == encodedPassword && u.role == role
  {
    User(newId, email, encodedPassword, role, UserStatus.Active, false)
  }

  /**
   * `register`: a live user with the email already is EmailAlreadyInUse; a
   * role string that names no constant is InvalidArgument; in both cases
   * nothing is saved. Otherwise the user is saved with `encode(password)`.
   * `encode` is the password encoder and `newId` the id persistence generates.
   */
  method Register(users: Table<User>, email: string, password: string, role: string,
                  encode: string -> string, newId: Uuid) returns (r: Result<User, Error>)
    modifies users
    ensures match FindUnique(old(users.rows), LiveUserWithEmail(email))
      case Failure(e) => r == Failure(e) && users.rows == old(users.rows)
      case Success(Some(_)) => r == Failure(EmailAlreadyInUse) && users.rows == old(users.rows)
      case Success(None) =>
        match RoleNamed(role)
        case None => r == Failure(InvalidArgument) && users.rows == old(users.rows)
        case Some(named) =>
          && r == Success(NewUser(email, encode(password), named, newId))
          && users.rows == old(users.rows) + [NewUser(email, encode(password), named, newId)]
    ensures r.Success? || users.rows == old(users.rows)
  {
    var existing :- FindUnique(users.rows, LiveUserWithEmail(email));
    if existing.Some? {
      return Failure(EmailAlreadyInUse);
    }
    var encoded := encode(password);
    var named := RoleNamed(role);
    if named.None? {
      return Failure(InvalidArgument);
    }
    var user := NewUser(email, encoded, named.value, newId);
    users.Insert(user);
    r := Success(user);
  }

  /** After a registration the email is taken: a second one with it is refused. */
  lemma {:induction false} RegisterTakesEmail(rows: seq<User>, email: string, encodedPassword: string, role: UserRole, newId: Uuid)
    requires forall u :: u in rows ==> !(u.email == email && !u.deleted)
    ensures FindUnique(rows + [NewUser(email, encodedPassword, role, newId)], LiveUserWithEmail(email))
            == Success(Some(NewUser(email, encodedPassword, role, newId)))
  {
    var user := NewUser(email, encodedPassword, role, newId);
    CountNone(rows, LiveUserWithEmail(email));
    CountAppend(rows, user, LiveUserWithEmail(email));
  }
}
