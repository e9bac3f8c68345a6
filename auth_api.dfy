/**
 * api/auth.php: the `login` and `verify_token` actions.
 *
 * `password_verify` is a PHP built-in and is passed in as `verify`; the clock (`time()`
 * in the token and `NOW()` in SQL) is the single value `now`.
 */
module AuthApi {
  import opened Wrappers
  import opened Backend
  import TokenCodec

  const MSG_REQUIRED: string := "Email и пароль обязательны"
  const MSG_BAD_CREDENTIALS: string := "Неверный email или пароль"
  const MSG_BLOCKED: string := "Аккаунт заблокирован"
  const MSG_BAD_TOKEN: string := "Недействительный токен"
  const MSG_UNKNOWN_ACTION: string := "Неизвестное действие"

  /** The outcome of the credential checks of `login`. */
  datatype LoginCheck = Refused(message: string) | Admitted(user: UserRow)

  /**
   * The checks of `login`, in the order the script makes them: both fields present,
   * then the row the collation matches to the email and the password, then the account
   * status.
   */
  function CheckLogin(users: seq<UserRow>, email: string, password: string,
                      verify: (string, string) -> bool): (r: LoginCheck)
    ensures r.Admitted? ==>
      r.user in users && SameText(r.user.email, email) && r.user.status == "active" &&
      verify(password + PASSWORD_SALT, r.user.passwordHash)
    ensures r.Refused? ==> r.message in {MSG_REQUIRED, MSG_BAD_CREDENTIALS, MSG_BLOCKED}
  {
    if PhpEmpty(email) || PhpEmpty(password) then Refused(MSG_REQUIRED)
    else match FindByEmail(users, email)
      case None => Refused(MSG_BAD_CREDENTIALS)
      case Some(u) =>
        if !verify(password + PASSWORD_SALT, u.passwordHash) then Refused(MSG_BAD_CREDENTIALS)
        else if u.status != "active" then Refused(MSG_BLOCKED)
        else Admitted(u)
  }

  /** An empty email or password is refused before the table is looked at. */
  lemma EmptyCredentialsRefusedFirst(users1: seq<UserRow>, users2: seq<UserRow>, email: string,
                                     password: string, verify: (string, string) -> bool)
    requires PhpEmpty(email) || PhpEmpty(password)
    ensures CheckLogin(users1, email, password, verify) == Refused(MSG_REQUIRED)
    ensures CheckLogin(users1, email, password, verify) == CheckLogin(users2, email, password, verify)
  {
  }

  /** An unknown email and a wrong password for a known email get the same answer. */
  lemma UnknownEmailLikeWrongPassword(users: seq<UserRow>, email: string, password: string,
                                      verify: (string, string) -> bool)
    requires !PhpEmpty(email) && !PhpEmpty(password)
    requires FindByEmail(users, email).None? ||
             !verify(password + PASSWORD_SALT, FindByEmail(users, email).value.passwordHash)
    ensures CheckLogin(users, email, password, verify) == Refused(MSG_BAD_CREDENTIALS)
  {
  }

  /** A user whose status is not `active` cannot log in, even with the right password. */
  lemma InactiveCannotLogin(users: seq<UserRow>, i: int, password: string,
                            verify: (string, string) -> bool)
    requires UniqueEmails(users) && 0 <= i < |users|
    requires users[i].status != "active"
    ensures CheckLogin(users, users[i].email, password, verify).Refused?
    ensures !PhpEmpty(users[i].email) && !PhpEmpty(password) &&
            verify(password + PASSWORD_SALT, users[i].passwordHash) ==>
      CheckLogin(users, users[i].email, password, verify) == Refused(MSG_BLOCKED)
  {
    var r := FindByEmail(users, users[i].email);
    if r.Some? {
      var j :| 0 <= j < |users| && users[j] == r.value;
      assert j == i;
    }
  }

  /**
   * The email is looked up under the collation: a variant differing in case or trailing
   * spaces gets the same answer as the stored spelling, as long as neither is empty.
   */
  lemma LoginIgnoresEmailCase(users: seq<UserRow>, e1: string, e2: string, password: string,
                              verify: (string, string) -> bool)
    requires SameText(e1, e2) && !PhpEmpty(e1) && !PhpEmpty(e2)
    ensures CheckLogin(users, e1, password, verify) == CheckLogin(users, e2, password, verify)
  {
    FindByEmailCollation(users, e1, e2);
  }

  /** An active user with a non-empty email who gives the password its hash accepts is admitted. */
  lemma ActiveUserAdmitted(users: seq<UserRow>, i: int, password: string,
                           verify: (string, string) -> bool)
    requires UniqueEmails(users) && 0 <= i < |users|
    requires users[i].status == "active" && !PhpEmpty(users[i].email) && !PhpEmpty(password)
    requires verify(password + PASSWORD_SALT, users[i].passwordHash)
    ensures CheckLogin(users, users[i].email, password, verify) == Admitted(users[i])
  {
    var r := FindByEmail(users, users[i].email);
    var j :| 0 <= j < |users| && users[j] == r.value;
    assert j == i;
  }

  /** The answer of a successful login: a token for the row, and the row's id, email, role and status. */
  function LoginAnswer(p: TokenCodec.Primitives, u: UserRow, now: int): Output
  {
    Ok(LoginOk(TokenCodec.GenerateJwt(p, u.id, u.email, u.role, now),
               SessionUser(u.id, u.email, u.role, u.status)))
  }

  /** The answer of `verify_token`: the token's `user_id`, `email` and `role`, or an error. */
  function VerifyTokenAnswer(p: TokenCodec.Primitives, req: Request, now: int): Output
  {
    match TokenCodec.GetAuthUser(p, req.headers, now)
    case None => Fail(MSG_BAD_TOKEN)
    case Some(c) => Ok(TokenOk(c.userId, c.email, c.role))
  }

  /**
   * The whole script: dispatch on the action; a successful login stamps `last_active`
   * before answering; every failure is status 400 with the message.
   */
  method Handle(db: Database, p: TokenCodec.Primitives, verify: (string, string) -> bool,
                req: Request, now: int) returns (out: Output)
    requires db.Valid()
    modifies db
    ensures db.Valid()
    ensures |out.bodies| == 1 && (out.status == 400 <==> out.bodies[0].Failure?)
    ensures var check := CheckLogin(old(db.users), Email(req), Password(req), verify);
      if Action(req) == "login" then
        match check
        case Refused(m) => out == Fail(m) && db.users == old(db.users)
        case Admitted(u) => out == LoginAnswer(p, u, now) && db.users == Touch(old(db.users), u.id, now)
      else if Action(req) == "verify_token" then
        out == VerifyTokenAnswer(p, req, now) && db.users == old(db.users)
      else
        out == Fail(MSG_UNKNOWN_ACTION) && db.users == old(db.users)
    ensures db.pages == old(db.pages) && db.settings == old(db.settings) && db.nextUserId == old(db.nextUserId)
  {
    var action := Action(req);
    if action == "login" {
      var check := CheckLogin(db.users, Email(req), Password(req), verify);
      match check
      case Refused(m) =>
        out := Fail(m);
      case Admitted(u) =>
        db.TouchLastActive(u.id, now);
        out := LoginAnswer(p, u, now);
    } else if action == "verify_token" {
      out := VerifyTokenAnswer(p, req, now);
    } else {
      out := Fail(MSG_UNKNOWN_ACTION);
    }
  }

  /**
   * A token from a successful login, sent back as `Authorization: Bearer <token>` to
   * `verify_token` within 24 hours, yields that user's id, email and role; after that
   * it yields the token error.
   */
  lemma LoginThenVerifyToken(p: TokenCodec.Primitives, u: UserRow, issued: int, req: Request, now: int)
    requires TokenCodec.Lawful(p)
    requires "Authorization" in req.headers
    requires req.headers["Authorization"] == "Bearer " + LoginAnswer(p, u, issued).bodies[0].token
    ensures now <= issued + TokenCodec.JWT_EXPIRATION ==>
      VerifyTokenAnswer(p, req, now) == Ok(TokenOk(u.id, u.email, u.role))
    ensures now > issued + TokenCodec.JWT_EXPIRATION ==> VerifyTokenAnswer(p, req, now) == Fail(MSG_BAD_TOKEN)
  {
    TokenCodec.BearerRoundTrip(p, req.headers, u.id, u.email, u.role, issued, now);
  }
}
