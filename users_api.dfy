/**
 * api/users.php: the admin-only `create` action and the user listing every other action
 * falls back to.
 *
 * `password_hash` salts at random, so its result for this request is the parameter
 * `hash`.
 */
module UsersApi {
  import opened Wrappers
  import opened Backend
  import TokenCodec
  import AuthApi
  import Js

  const MSG_DENIED: string := "Доступ запрещен"
  const MSG_METHOD: string := "Метод не поддерживается"
  const MSG_REQUIRED: string := "Email и пароль обязательны"
  const MSG_EXISTS: string := "Пользователь с таким email уже существует"
  const MSG_CREATED: string := "Пользователь создан успешно"

  datatype CreateCheck =
    | CreateRefused(message: string)
    | CreateAllowed(email: string, password: string, role: string)

  /**
   * The checks of `create`, in order: the method must be POST, email and password must
   * be present, and no row may hold an email the collation takes for the same one. The
   * role defaults to `user`. Each refusal carries the message of the first check failed.
   */
  function CheckCreate(req: Request, users: seq<UserRow>): (r: CreateCheck)
    ensures r.CreateAllowed? <==>
      req.httpMethod == "POST" && !PhpEmpty(Email(req)) && !PhpEmpty(Password(req)) &&
      forall i :: 0 <= i < |users| ==> !SameText(users[i].email, Email(req))
    ensures r.CreateAllowed? ==>
      r == CreateAllowed(Email(req), Password(req), FieldOr(req.fields, "role", "user"))
    ensures req.httpMethod != "POST" ==> r == CreateRefused(MSG_METHOD)
    ensures req.httpMethod == "POST" && (PhpEmpty(Email(req)) || PhpEmpty(Password(req))) ==>
      r == CreateRefused(MSG_REQUIRED)
    ensures req.httpMethod == "POST" && !PhpEmpty(Email(req)) && !PhpEmpty(Password(req)) &&
            (exists i :: 0 <= i < |users| && SameText(users[i].email, Email(req))) ==>
      r == CreateRefused(MSG_EXISTS)
  {
    if req.httpMethod != "POST" then CreateRefused(MSG_METHOD)
    else
      var email := FieldOr(req.fields, "email", "");
      var password := FieldOr(req.fields, "password", "");
      var role := FieldOr(req.fields, "role", "user");
      if PhpEmpty(email) || PhpEmpty(password) then CreateRefused(MSG_REQUIRED)
      else if FindByEmail(users, email).Some? then CreateRefused(MSG_EXISTS)
      else CreateAllowed(email, password, role)
  }

  /**
   * A POST whose email is a stored one up to case and trailing spaces is refused with the
   * duplicate message, whatever the role asked for.
   */
  lemma DuplicateEmailRefused(req: Request, users: seq<UserRow>, i: int)
    requires 0 <= i < |users| && req.httpMethod == "POST"
    requires "email" in req.fields && SameText(req.fields["email"], users[i].email)
    requires !PhpEmpty(req.fields["email"]) && !PhpEmpty(Password(req))
    ensures CheckCreate(req, users) == CreateRefused(MSG_EXISTS)
    ensures CheckCreate(req.(fields := req.fields["role" := "admin"]), users) == CreateRefused(MSG_EXISTS)
  {
    var req' := req.(fields := req.fields["role" := "admin"]);
    assert Email(req') == Email(req) && Password(req') == Password(req);
  }

  /** The row `create` inserts: the next id, status `active`, created and last active now. */
  function NewRow(id: int, c: CreateCheck, hash: string, now: int): UserRow
    requires c.CreateAllowed?
  {
    UserRow(id, c.email, hash, c.role, "active", now, now)
  }

  /**
   * The whole script. The admin gate comes first, before the body is read; `create`
   * inserts one row; any other action, none included, lists the users.
   */
  method Handle(db: Database, p: TokenCodec.Primitives, req: Request, hash: string, now: int)
    returns (out: Output)
    requires db.Valid()
    modifies db
    ensures db.Valid()
    ensures |out.bodies| == 1 && (out.status == 400 <==> out.bodies[0].Failure?)
    ensures db.pages == old(db.pages) && db.settings == old(db.settings)
    ensures AdminGate(p, req, now).None? ==>
      out == Fail(MSG_DENIED) && db.users == old(db.users) && db.nextUserId == old(db.nextUserId)
    ensures AdminGate(p, req, now).Some? && Action(req) != "create" ==>
      out == Ok(UserList(Listing(old(db.users), old(db.pages)))) &&
      db.users == old(db.users) && db.nextUserId == old(db.nextUserId)
    ensures AdminGate(p, req, now).Some? && Action(req) == "create" ==>
      var c := CheckCreate(req, old(db.users));
      if c.CreateRefused? then
        out == Fail(c.message) && db.users == old(db.users) && db.nextUserId == old(db.nextUserId)
      else
        db.users == old(db.users) + [NewRow(old(db.nextUserId), c, hash, now)] &&
        db.nextUserId == old(db.nextUserId) + 1 &&
        out == Ok(UserCreated(Js.ShowInt(old(db.nextUserId)), c.email, c.role, "active", now, 0, MSG_CREATED))
  {
    if AdminGate(p, req, now).None? {
      out := Fail(MSG_DENIED);
      return;
    }
    var action := Action(req);
    if action == "create" {
      var c := CheckCreate(req, db.users);
      if c.CreateRefused? {
        out := Fail(c.message);
      } else {
        var id := db.InsertUser(c.email, hash, c.role, now);
        out := Ok(UserCreated(Js.ShowInt(id.value), c.email, c.role, "active", now, 0, MSG_CREATED));
      }
    } else {
      out := Ok(UserList(Listing(db.users, db.pages)));
    }
  }

  /**
   * A user `create` accepted can log in through api/auth.php with the same email and
   * password, given that `password_verify` accepts the password for the hash it stored.
   */
  lemma CreatedUserCanLogIn(users: seq<UserRow>, req: Request, id: int, hash: string, now: int,
                            verify: (string, string) -> bool)
    requires UniqueEmails(users)
    requires CheckCreate(req, users).CreateAllowed?
    requires verify(CheckCreate(req, users).password + PASSWORD_SALT, hash)
    ensures var c := CheckCreate(req, users);
      AuthApi.CheckLogin(users + [NewRow(id, c, hash, now)], c.email, c.password, verify) ==
      AuthApi.Admitted(NewRow(id, c, hash, now))
  {
    var c := CheckCreate(req, users);
    var users' := users + [NewRow(id, c, hash, now)];
    assert users'[|users|] == NewRow(id, c, hash, now);
    AuthApi.ActiveUserAdmitted(users', |users|, c.password, verify);
  }
}
