/** The user directory and the session (src/app/services/auth.ts). Browser
    storage is the two fields of the class; the clock and the generated id are
    parameters. */
module Session {
  import opened Wrappers
  import opened Seqs
  import opened Dates
  import opened UserModel

  datatype AuthError = InvalidCredentials | EmailAlreadyExists

  /** The administrator and the client account stored when the directory is
      empty: one of each role, created now, with different emails. */
  function TestUsers(now: DateTime): (r: seq<User>)
    ensures |r| == 2 && r[0].role == Admin && r[1].role == Client
    ensures r[0].email == "admin@emirates.com" && r[0].password == "admin123"
    ensures r[1].email == "cliente@example.com" && r[1].password == "cliente123"
    ensures forall i :: 0 <= i < |r| ==> r[i].createdAt == now
    ensures EmailsUnique(r)
  {
    [ User("1", "admin@emirates.com", "admin123", "Administrador Emirates", Admin, now),
      User("2", "cliente@example.com", "cliente123", "Cliente Ejemplo", Client, now) ]
  }

  /** `users.some(u => u.email === email)`. */
  predicate EmailTaken(users: seq<User>, email: string) {
    exists i :: 0 <= i < |users| && users[i].email == email
  }

  /** No two accounts share an email. */
  predicate EmailsUnique(users: seq<User>) {
    forall i, j :: 0 <= i < j < |users| ==> users[i].email != users[j].email
  }

  /** The token handed out after login or registration. */
  function Token(u: User): string {
    "fake-jwt-token-" + u.id
  }

  /** Position of the first account whose email and password both match. */
  function CredentialsIndex(users: seq<User>, dto: UserLoginDto): (r: Option<nat>)
    ensures r.Some? <==> exists i :: 0 <= i < |users| && users[i].email == dto.email && users[i].password == dto.password
    ensures r.Some? ==> r.value < |users| && users[r.value].email == dto.email && users[r.value].password == dto.password
    ensures r.Some? ==> forall j :: 0 <= j < r.value ==> !(users[j].email == dto.email && users[j].password == dto.password)
  {
    FirstIndex(users, (u: User) => u.email == dto.email && u.password == dto.password)
  }

  /** Registering keeps the emails unique, and the new account is the one a later
      login with the same email and password finds. */
  lemma {:induction false} RegisteredUserLogsIn(users: seq<User>, u: User)
    requires !EmailTaken(users, u.email)
    ensures EmailsUnique(users) ==> EmailsUnique(users + [u])
    ensures CredentialsIndex(users + [u], UserLoginDto(u.email, u.password)) == Some(|users|)
  {
    var s := users + [u];
    assert s[|users|] == u;
    assert forall j :: 0 <= j < |users| ==> s[j] == users[j];
  }

  class AuthService {
    /** The stored accounts. */
    var users: seq<User>
    /** The current session: the logged-in account without its password. */
    var currentUser: Option<SessionUser>

    /** Restores the stored session and seeds the test accounts only when the
        directory is empty. */
    constructor (storedUsers: seq<User>, storedSession: Option<SessionUser>, now: DateTime)
      ensures users == (if storedUsers == [] then TestUsers(now) else storedUsers)
      ensures currentUser == storedSession
    {
      currentUser := storedSession;
      users := storedUsers;
      new;
      if |users| == 0 {
        users := TestUsers(now);
      }
    }

    /** isAdmin: the session belongs to an administrator. */
    function IsAdmin(): (r: bool)
      reads this
      ensures r ==> currentUser.Some?
      ensures currentUser.Some? ==> (r <==> currentUser.value.role == Admin)
    {
      currentUser.Some? && currentUser.value.role == Admin
    }

    /** isClient: the session belongs to a client, never to an administrator. */
    function IsClient(): (r: bool)
      reads this
      ensures r ==> currentUser.Some? && !IsAdmin()
      ensures currentUser.Some? ==> (r <==> !IsAdmin())
    {
      currentUser.Some? && currentUser.value.role == Client
    }

    /** isAuthenticated: there is a session, and then it is an administrator's or a client's. */
    function IsAuthenticated(): (r: bool)
      reads this
      ensures r <==> IsAdmin() || IsClient()
      ensures r <==> currentUser.Some?
    {
      currentUser != None
    }

    /** login: succeeds exactly when some account matches both email and
        password, and then the first such account is the current user. */
    method Login(dto: UserLoginDto) returns (r: Result<AuthResponse, AuthError>)
      modifies this`currentUser
      ensures r.Success? ==> exists i :: 0 <= i < |users| && users[i].email == dto.email && users[i].password == dto.password
      ensures r.Failure? ==> forall i :: 0 <= i < |users| ==> !(users[i].email == dto.email && users[i].password == dto.password)
      ensures r.Failure? ==> r.error == InvalidCredentials && currentUser == old(currentUser)
      ensures r.Success? ==>
        var u := users[CredentialsIndex(users, dto).value];
        && currentUser == Some(WithoutPassword(u))
        && r.value == AuthResponse(WithoutPassword(u), Some(Token(u)))
    {
      var k := CredentialsIndex(users, dto);
      if k.None? {
        return Failure(InvalidCredentials);
      }
      var user := users[k.value];
      var userWithoutPassword := WithoutPassword(user);
      currentUser := Some(userWithoutPassword);
      r := Success(AuthResponse(userWithoutPassword, Some(Token(user))));
      assert users[k.value] == user;
    }

    /** register: fails when the email is taken; otherwise appends the account
        and logs it in. */
    method Register(dto: UserRegisterDto, id: string, now: DateTime) returns (r: Result<AuthResponse, AuthError>)
      modifies this
      ensures r.Failure? <==> EmailTaken(old(users), dto.email)
      ensures r.Failure? ==> r.error == EmailAlreadyExists && users == old(users) && currentUser == old(currentUser)
      ensures r.Success? ==>
        var u := User(id, dto.email, dto.password, dto.name, dto.role, now);
        && users == old(users) + [u]
        && currentUser == Some(WithoutPassword(u))
        && r.value == AuthResponse(WithoutPassword(u), Some(Token(u)))
      ensures EmailsUnique(old(users)) ==> EmailsUnique(users)
    {
      if EmailTaken(users, dto.email) {
        return Failure(EmailAlreadyExists);
      }
      var newUser := User(id, dto.email, dto.password, dto.name, dto.role, now);
      RegisteredUserLogsIn(users, newUser);
      users := users + [newUser];
      var userWithoutPassword := WithoutPassword(newUser);
      currentUser := Some(userWithoutPassword);
      r := Success(AuthResponse(userWithoutPassword, Some(Token(newUser))));
    }

    /** logout: ends the session. */
    method Logout()
      modifies this`currentUser
      ensures currentUser == None
      ensures !IsAuthenticated() && !IsAdmin() && !IsClient()
    {
      currentUser := None;
    }
  }
}
