/**
 * Registration and login against the User and UserLogin tables.
 * Registration refuses a username that is already in UserLogin, then
 * inserts a User row (role defaulting to "user") and a UserLogin row
 * holding the password as given. Login joins UserLogin with User on the
 * user id, takes the first row for the username and compares the stored
 * password with the one supplied.
 */
module AuthController {
  import opened Wrappers

  /** A User row. */
  datatype UserRow = UserRow(
    name: string, emailId: string, phoneNumber: string, postCode: string,
    address: string, customerType: string, role: string)

  /** A UserLogin row; `passwordHash` holds the password exactly as registered. */
  datatype LoginRow = LoginRow(userId: nat, username: string, passwordHash: string)

  /** An error response: HTTP status and message. */
  datatype HttpError = HttpError(status: nat, message: string)

  /** The body of a registration request; `role` may be missing. */
  datatype RegisterRequest = RegisterRequest(
    name: string, emailId: string, phoneNumber: string, postCode: string,
    address: string, customerType: string, username: string, password: string,
    role: Option<string>)

  /** What a successful registration reports. */
  datatype Registration = Registration(userId: nat, name: string, role: string)

  /** What a successful login reports. */
  datatype LoginSuccess = LoginSuccess(userId: nat, name: string, isAdmin: bool)

  /** The first database statement of a registration that fails, if any. */
  datatype RegisterFailure = NoFailure | CheckFails | UserInsertFails | LoginInsertFails

  const DefaultRole := "user"
  const AdminRole := "admin"

  const CheckError := HttpError(500, "Database error checking username.")
  const DuplicateError := HttpError(400, "Username already exists.")
  const UserInsertError := HttpError(500, "Database error inserting user.")
  const LoginInsertError := HttpError(500, "Database error inserting user login.")
  const LoginQueryError := HttpError(500, "Database error during login.")
  const InvalidCredentials := HttpError(400, "Invalid username or password.")

  /** The role a registration stores: the one given, else the default. */
  function RoleOf(req: RegisterRequest): (role: string)
    ensures req.role.None? ==> role == DefaultRole
    ensures req.role.Some? ==> role == req.role.value
  {
    if req.role.Some? then req.role.value else DefaultRole
  }

  /** The User row a registration inserts. */
  function NewUser(req: RegisterRequest): UserRow
  {
    UserRow(req.name, req.emailId, req.phoneNumber, req.postCode, req.address, req.customerType, RoleOf(req))
  }

  /** Whether the duplicate check finds a UserLogin row for `username`. */
  predicate UsernameTaken(logins: seq<LoginRow>, username: string)
  {
    exists i :: 0 <= i < |logins| && logins[i].username == username
  }

  /** Whether login row `l` survives the login query's join and filter for `username`. */
  predicate Joins(users: map<nat, UserRow>, l: LoginRow, username: string)
  {
    l.username == username && l.userId in users
  }

  /**
   * Position of the first row the login query returns: the first UserLogin
   * row with that username whose user exists.
   */
  function FindLogin(users: map<nat, UserRow>, logins: seq<LoginRow>, username: string): (r: Option<nat>)
    ensures r.None? <==> forall i :: 0 <= i < |logins| ==> !Joins(users, logins[i], username)
    ensures r.Some? ==> r.value < |logins| && Joins(users, logins[r.value], username)
    ensures r.Some? ==> forall i :: 0 <= i < r.value ==> !Joins(users, logins[i], username)
  {
    if logins == [] then None
    else if Joins(users, logins[0], username) then Some(0)
    else match FindLogin(users, logins[1..], username)
      case None => None
      case Some(i) => Some(i + 1)
  }

  /**
   * Login. `queryFails` stands for an error from the database. An unknown
   * username and a wrong password get the same answer; a success names a
   * user holding a login row with these credentials, and reports admin
   * rights exactly when that user's role is "admin".
   */
  function Login(users: map<nat, UserRow>, logins: seq<LoginRow>, username: string, password: string,
                 queryFails: bool): (r: Result<LoginSuccess, HttpError>)
    ensures queryFails ==> r == Err(LoginQueryError)
    ensures !queryFails && r.Err? ==> r.error == InvalidCredentials
    ensures !queryFails && (forall i :: 0 <= i < |logins| ==> !Joins(users, logins[i], username)) ==>
              r == Err(InvalidCredentials)
    ensures r.Ok? ==> r.value.userId in users
                      && r.value.name == users[r.value.userId].name
                      && (r.value.isAdmin <==> users[r.value.userId].role == AdminRole)
    ensures r.Ok? ==> exists i :: 0 <= i < |logins| && logins[i] == LoginRow(r.value.userId, username, password)
  {
    if queryFails then Err(LoginQueryError)
    else match FindLogin(users, logins, username)
      case None => Err(InvalidCredentials)
      case Some(i) =>
        var row := logins[i];
        if row.passwordHash != password then Err(InvalidCredentials)
        else Ok(LoginSuccess(row.userId, users[row.userId].name, users[row.userId].role == AdminRole))
  }

  /**
   * With usernames unique in UserLogin, login succeeds exactly when some
   * row holds this username and password for an existing user.
   */
  lemma LoginSucceedsIff(users: map<nat, UserRow>, logins: seq<LoginRow>, username: string, password: string)
    requires forall i, j :: 0 <= i < j < |logins| ==> logins[i].username != logins[j].username
    ensures Login(users, logins, username, password, false).Ok? <==>
              exists i :: 0 <= i < |logins| && Joins(users, logins[i], username) && logins[i].passwordHash == password
  {
  }

  /**
   * After adding a user and a login row for a username nobody holds yet,
   * logging in with that username and password succeeds as that user.
   */
  lemma LoginAfterRegistration(users: map<nat, UserRow>, logins: seq<LoginRow>, userId: nat, row: UserRow,
                               username: string, password: string)
    requires forall i :: 0 <= i < |logins| ==> logins[i].username != username
    ensures Login(users[userId := row], logins + [LoginRow(userId, username, password)], username, password, false)
            == Ok(LoginSuccess(userId, row.name, row.role == AdminRole))
  {
    var users' := users[userId := row];
    var logins' := logins + [LoginRow(userId, username, password)];
    assert Joins(users', logins'[|logins|], username);
    assert forall i :: 0 <= i < |logins| ==> logins'[i] == logins[i];
  }

  /** The User and UserLogin tables with the user id counter. */
  class UserDirectory {
    var users: map<nat, UserRow>
    var logins: seq<LoginRow>
    var nextUserId: nat

    /** User ids lie below the counter, every login names a user, and usernames are unique. */
    ghost predicate Valid()
      reads this
    {
      && (forall u :: u in users ==> u < nextUserId)
      && (forall i :: 0 <= i < |logins| ==> logins[i].userId in users)
      && (forall i, j :: 0 <= i < j < |logins| ==> logins[i].username != logins[j].username)
    }

    constructor ()
      ensures Valid()
      ensures users == map[] && logins == []
    {
      users := map[];
      logins := [];
      nextUserId := 1;
    }

    /**
     * Register a user. `failure` names the first statement that fails.
     * A taken username is refused before anything is written; a failing
     * login insert leaves the new User row behind.
     */
    method Register(req: RegisterRequest, failure: RegisterFailure) returns (r: Result<Registration, HttpError>)
      requires Valid()
      modifies this`users, this`logins, this`nextUserId
      ensures Valid()
      ensures var userId, taken := old(nextUserId), UsernameTaken(old(logins), req.username);
              var userWritten := failure != CheckFails && !taken && failure != UserInsertFails;
              && (failure == CheckFails ==> r == Err(CheckError))
              && (failure != CheckFails && taken ==> r == Err(DuplicateError))
              && (userWritten && failure == LoginInsertFails ==> r == Err(LoginInsertError))
              && (failure != CheckFails && !taken && failure == UserInsertFails ==> r == Err(UserInsertError))
              && (r.Ok? <==> failure == NoFailure && !taken)
              && (r.Ok? ==> r.value == Registration(userId, req.name, RoleOf(req)))
              && (users == if userWritten then old(users)[userId := NewUser(req)] else old(users))
              && (nextUserId == if userWritten then userId + 1 else userId)
              && (logins == if r.Ok? then old(logins) + [LoginRow(userId, req.username, req.password)]
                            else old(logins))
      ensures r.Ok? ==> Login(users, logins, req.username, req.password, false)
                        == Ok(LoginSuccess(r.value.userId, req.name, RoleOf(req) == AdminRole))
    {
      // 1) the duplicate check
      if failure == CheckFails {
        return Err(CheckError);
      }
      if exists i :: 0 <= i < |logins| && logins[i].username == req.username {
        return Err(DuplicateError);
      }

      // 2) the User row
      if failure == UserInsertFails {
        return Err(UserInsertError);
      }
      var userId := nextUserId;
      users := users[userId := NewUser(req)];
      nextUserId := nextUserId + 1;

      // 3) the UserLogin row
      if failure == LoginInsertFails {
        return Err(LoginInsertError);
      }
      LoginAfterRegistration(old(users), logins, userId, NewUser(req), req.username, req.password);
      logins := logins + [LoginRow(userId, req.username, req.password)];
      return Ok(Registration(userId, req.name, RoleOf(req)));
    }
  }
}
