/**
 * Account creation and credential verification.
 *
 * The user table is an in-memory map keyed by email (both `findUnique` and `findFirst` on the
 * email column become a map lookup), ids are assumed to come from an autoincrement integer
 * column, modelled as a counter, the password-hashing
 * library is a pair of function values with one stated link, and the signed token is represented
 * by the claims it carries and its expiry.
 */
module UsersService {
  import opened Wrappers
  import opened RolesGuard

  /** The cost factor signup passes to the hashing library. */
  const SaltRounds: int := 10
  /** The expiry given to every issued token. */
  const TokenLifetime: string := "1d"
  /** Message and description of the 400 response to a duplicate signup. */
  const DuplicateEmailMessage: string := "User created with the email you provided"
  const DuplicateEmailDescription: string := "User already exists"
  /** Message of the 401 response to a wrong password. */
  const InvalidPasswordMessage: string := "Invalid password"

  /** The hashing library: `hash(plainText, saltRounds)` and `compare(plainText, hash)`.
      A random salt is folded into the `hash` function value. */
  datatype Bcrypt = Bcrypt(hash: (string, int) -> string, compare: (string, string) -> bool)

  /** What the service relies on from the hashing library: a hash of a password compares equal
      to that password, and is never the password itself. */
  ghost predicate Sound(b: Bcrypt)
  {
    forall plainText, rounds :: b.compare(plainText, b.hash(plainText, rounds)) && b.hash(plainText, rounds) != plainText
  }

  /** A row of the user table. `password` holds a hash. */
  datatype UserRecord = UserRecord(id: nat, email: string, password: string, role: RoleValue)

  /** The columns signup selects for its response. */
  datatype SignupResponse = SignupResponse(email: string, id: nat)

  /** The body of a login request. */
  datatype LoginDto = LoginDto(email: string, password: string)

  /** The claims signed into an access token. */
  datatype Claims = Claims(email: string, id: nat, role: RoleValue)

  /** A signed access token: its claims and its expiry. */
  datatype AccessToken = AccessToken(claims: Claims, expiresIn: string)

  /** The HTTP exceptions the service throws. `Unauthorized(None)` is the exception thrown
      without a message. */
  datatype HttpError =
    | BadRequest(message: string, description: string)
    | Unauthorized(reason: Option<string>)

  /** The body of a signup request. Signup writes the hashed password back into it. */
  class CreateUserDto {
    var email: string
    var password: string
    var role: RoleValue

    constructor (email: string, password: string, role: RoleValue)
      ensures this.email == email && this.password == password && this.role == role
    {
      this.email := email;
      this.password := password;
      this.role := role;
    }
  }

  class UsersService {
    /** The user table, keyed by the unique email column. */
    var users: map<string, UserRecord>
    /** The id the table gives to the next row it creates (assumed autoincrement column). */
    var nextId: nat
    /** The injected hashing library. */
    const bcrypt: Bcrypt

    /** Every row sits under its own email, and ids are unique and below `nextId`. */
    ghost predicate Valid()
      reads this
    {
      && (forall e :: e in users ==> users[e].email == e && users[e].id < nextId)
      && (forall e, f :: e in users && f in users && users[e].id == users[f].id ==> e == f)
    }

    constructor (bcrypt: Bcrypt)
      ensures Valid()
      ensures users == map[] && nextId == 1 && this.bcrypt == bcrypt
    {
      users := map[];
      nextId := 1;
      this.bcrypt := bcrypt;
    }

    /** `encryptPassword`: a hash that the comparison accepts for this password and that is not
        the password itself. */
    function EncryptPassword(plainText: string, saltRound: int): (hash: string)
      ensures Sound(bcrypt) ==> bcrypt.compare(plainText, hash) && hash != plainText
    {
      bcrypt.hash(plainText, saltRound)
    }

    /** `decryptPassword`: every hash made from this password matches it. */
    function DecryptPassword(plainText: string, hash: string): (matched: bool)
      ensures Sound(bcrypt) && (exists rounds :: hash == bcrypt.hash(plainText, rounds)) ==> matched
    {
      bcrypt.compare(plainText, hash)
    }

    /** `signup`: look the email up, hash the password into the payload, then either refuse a
        taken email or create the row and answer with its email and id. */
    method Signup(payload: CreateUserDto) returns (r: Result<SignupResponse, HttpError>)
      requires Valid()
      modifies this, payload
      ensures Valid()
      ensures payload.password == EncryptPassword(old(payload.password), SaltRounds)
      ensures payload.email == old(payload.email) && payload.role == old(payload.role)
      ensures payload.email in old(users) ==>
        && r == Failure(BadRequest(DuplicateEmailMessage, DuplicateEmailDescription))
        && users == old(users) && nextId == old(nextId)
      ensures payload.email !in old(users) ==>
        && r == Success(SignupResponse(payload.email, old(nextId)))
        && users == old(users)[payload.email := UserRecord(old(nextId), payload.email, payload.password, payload.role)]
        && nextId == old(nextId) + 1
      ensures users.Keys == old(users).Keys + {payload.email}
      ensures forall e :: e in old(users) ==> users[e] == old(users)[e]
      ensures Sound(bcrypt) && r.Success? ==> users[payload.email].password != old(payload.password)
    {
      var existingUser := if payload.email in users then Some(users[payload.email]) else None;
      var hash := EncryptPassword(payload.password, SaltRounds);
      payload.password := hash;
      if existingUser.Some? {
        return Failure(BadRequest(DuplicateEmailMessage, DuplicateEmailDescription));
      }
      var row := UserRecord(nextId, payload.email, payload.password, payload.role);
      users := users[payload.email := row];
      nextId := nextId + 1;
      r := Success(SignupResponse(row.email, row.id));
    }

    /** `login`: a missing email and a wrong password are both refused with 401; a matching
        password yields a one-day token carrying the row's email, id and role. */
    function Login(loginDto: LoginDto): (r: Result<AccessToken, HttpError>)
      reads this
      ensures loginDto.email !in users ==> r == Failure(Unauthorized(None))
      ensures loginDto.email in users && !DecryptPassword(loginDto.password, users[loginDto.email].password) ==>
        r == Failure(Unauthorized(Some(InvalidPasswordMessage)))
      ensures r.Success? <==> loginDto.email in users && DecryptPassword(loginDto.password, users[loginDto.email].password)
      ensures r.Success? ==>
        var user := users[loginDto.email];
        r.value == AccessToken(Claims(user.email, user.id, user.role), TokenLifetime)
    {
      if loginDto.email !in users then Failure(Unauthorized(None))
      else
        var user := users[loginDto.email];
        var isMatched := DecryptPassword(loginDto.password, user.password);
        if !isMatched then Failure(Unauthorized(Some(InvalidPasswordMessage)))
        else Success(AccessToken(Claims(user.email, user.id, user.role), TokenLifetime))
    }
  }

  /** A row as signup writes it lets the same email and password log in, and the token carries
      that row's email, id and role with a one-day expiry. */
  lemma LoginAfterSignup(svc: UsersService, email: string, plainText: string, id: nat, role: RoleValue)
    requires Sound(svc.bcrypt)
    requires email in svc.users
    requires svc.users[email] == UserRecord(id, email, svc.EncryptPassword(plainText, SaltRounds), role)
    ensures svc.Login(LoginDto(email, plainText)) == Success(AccessToken(Claims(email, id, role), TokenLifetime))
  {
  }

  /** In a well-formed table, a token is only ever issued for the email that logged in, and its
      id belongs to no other row. */
  lemma TokenNamesCaller(svc: UsersService, loginDto: LoginDto)
    requires svc.Valid()
    ensures svc.Login(loginDto).Success? ==>
      && svc.Login(loginDto).value.claims.email == loginDto.email
      && forall e :: e in svc.users && svc.users[e].id == svc.Login(loginDto).value.claims.id ==> e == loginDto.email
  {
  }

  /** The two login refusals are both 401 responses and differ only in their message. */
  lemma LoginRefusalsAreUnauthorized(svc: UsersService, loginDto: LoginDto)
    ensures svc.Login(loginDto).Failure? ==> svc.Login(loginDto).error.Unauthorized?
  {
  }

  /** A signup followed by a login with the same email and plaintext: for a fresh email the login
      yields the token of the row signup created; for a taken email signup is refused and the
      login runs against the unchanged table. */
  method SignupThenLogin(svc: UsersService, payload: CreateUserDto)
    returns (signed: Result<SignupResponse, HttpError>, token: Result<AccessToken, HttpError>)
    requires svc.Valid() && Sound(svc.bcrypt)
    modifies svc, payload
    ensures svc.Valid()
    ensures old(payload.email) !in old(svc.users) ==>
      && signed == Success(SignupResponse(old(payload.email), old(svc.nextId)))
      && token == Success(AccessToken(Claims(old(payload.email), old(svc.nextId), old(payload.role)), TokenLifetime))
    ensures old(payload.email) in old(svc.users) ==>
      && signed == Failure(BadRequest(DuplicateEmailMessage, DuplicateEmailDescription))
      && token == old(svc.Login(LoginDto(payload.email, payload.password)))
  {
    var email, plainText, id := payload.email, payload.password, svc.nextId;
    signed := svc.Signup(payload);
    if signed.Success? {
      LoginAfterSignup(svc, email, plainText, id, payload.role);
    }
    token := svc.Login(LoginDto(email, plainText));
  }
}
