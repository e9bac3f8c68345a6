/**
 * api/project-settings.php: `create_admin`, `test_connection`, `create_tables`, and the
 * function `createTables` that seeds `system_settings` with `INSERT IGNORE`.
 *
 * Creating the tables themselves (`CREATE TABLE IF NOT EXISTS`) has no counterpart: the
 * model's tables always exist.
 */
module ProjectSettingsApi {
  import opened Wrappers
  import opened Backend

  const ADMIN_EMAIL: string := "admin@texttabs.com"
  const ADMIN_PASSWORD: string := "admin123"
  const MSG_ADMIN_EXISTS: string := "Администратор уже существует"
  const MSG_ADMIN_CREATED: string := "Администратор создан успешно"
  const MSG_CONNECTED: string := "Подключение к базе данных успешно"
  const MSG_TABLES: string := "Таблицы созданы успешно"
  const MSG_UNKNOWN_ACTION: string := "Неизвестное действие"
  /**
   * The message PDO reports when the admin's INSERT hits the UNIQUE index on `email`, as
   * MySQL servers before 8.0.19 word it; 8.0.19 and later name the key `users.email`
   * instead of `email`.
   */
  const MSG_DUPLICATE_ENTRY: string :=
    "SQLSTATE[23000]: Integrity constraint violation: 1062 Duplicate entry '" + ADMIN_EMAIL + "' for key 'email'"

  /** The ten rows `createTables` inserts with `INSERT IGNORE`, in order. */
  const DEFAULT_SETTINGS: seq<SettingRow> := [
    SettingRow("smtp_host", "smtp.gmail.com", Some("SMTP сервер для отправки почты")),
    SettingRow("smtp_port", "587", Some("Порт SMTP сервера")),
    SettingRow("smtp_username", "", Some("Имя пользователя SMTP")),
    SettingRow("smtp_password", "", Some("Пароль SMTP")),
    SettingRow("smtp_encryption", "tls", Some("Тип шифрования SMTP")),
    SettingRow("site_url", "http://localhost", Some("URL сайта")),
    SettingRow("admin_email", "admin@texttabs.com", Some("Email администратора")),
    SettingRow("user_page_limit", "10", Some("Лимит страниц для обычных пользователей")),
    SettingRow("premium_page_limit", "100", Some("Лимит страниц для премиум пользователей")),
    SettingRow("guest_page_limit", "3", Some("Лимит страниц для гостей"))
  ]

  /** `SELECT COUNT(*) FROM users WHERE role = 'admin'`. */
  function AdminCount(users: seq<UserRow>): nat
  {
    if users == [] then 0
    else AdminCount(users[..|users| - 1]) + (if users[|users| - 1].role == "admin" then 1 else 0)
  }

  /** The count is zero exactly when no row has the role `admin`. */
  lemma {:induction false} AdminCountZero(users: seq<UserRow>)
    ensures AdminCount(users) == 0 <==> forall i :: 0 <= i < |users| ==> users[i].role != "admin"
  {
    if users != [] {
      var init := users[..|users| - 1];
      AdminCountZero(init);
      assert forall i :: 0 <= i < |init| ==> init[i] == users[i];
    }
  }

  /** `createTables($db)`: only the `INSERT IGNORE` of the defaults changes the model. */
  method CreateTables(db: Database)
    requires db.Valid()
    modifies db
    ensures db.Valid()
    ensures db.settings == InsertIgnore(old(db.settings), DEFAULT_SETTINGS)
    ensures db.users == old(db.users) && db.pages == old(db.pages) && db.nextUserId == old(db.nextUserId)
  {
    db.InsertSettingsIgnore(DEFAULT_SETTINGS);
  }

  /** The admin row `create_admin` inserts. */
  function AdminRow(id: int, hash: string, now: int): UserRow
  {
    UserRow(id, ADMIN_EMAIL, hash, "admin", "active", now, now)
  }

  /**
   * `create_admin`: seeds the settings first, then refuses if an admin exists, then
   * inserts the fixed admin; the UNIQUE email makes the insert fail when a non-admin
   * already owns that address.
   */
  method CreateAdmin(db: Database, hash: string, now: int) returns (out: Output)
    requires db.Valid()
    modifies db
    ensures db.Valid()
    ensures db.pages == old(db.pages)
    ensures db.settings == InsertIgnore(old(db.settings), DEFAULT_SETTINGS)
    ensures AdminCount(old(db.users)) > 0 ==>
      out == Fail(MSG_ADMIN_EXISTS) && db.users == old(db.users) && db.nextUserId == old(db.nextUserId)
    ensures AdminCount(old(db.users)) == 0 && FindByEmail(old(db.users), ADMIN_EMAIL).Some? ==>
      out == Fail(MSG_DUPLICATE_ENTRY) && db.users == old(db.users) && db.nextUserId == old(db.nextUserId)
    ensures AdminCount(old(db.users)) == 0 && FindByEmail(old(db.users), ADMIN_EMAIL).None? ==>
      out == Ok(AdminCreated(ADMIN_EMAIL, ADMIN_PASSWORD, MSG_ADMIN_CREATED)) &&
      db.users == old(db.users) + [AdminRow(old(db.nextUserId), hash, now)] &&
      db.nextUserId == old(db.nextUserId) + 1 &&
      AdminCount(db.users) == 1
  {
    CreateTables(db);
    if AdminCount(db.users) > 0 {
      out := Fail(MSG_ADMIN_EXISTS);
    } else {
      var users0 := db.users;
      var id := db.InsertUser(ADMIN_EMAIL, hash, "admin", now);
      if id.None? {
        out := Fail(MSG_DUPLICATE_ENTRY);
      } else {
        assert db.users[..|db.users| - 1] == users0;
        out := Ok(AdminCreated(ADMIN_EMAIL, ADMIN_PASSWORD, MSG_ADMIN_CREATED));
      }
    }
  }

  /** The whole script: the action picks the branch, anything else is refused. */
  method Handle(db: Database, req: Request, hash: string, now: int) returns (out: Output)
    requires db.Valid()
    modifies db
    ensures db.Valid()
    ensures |out.bodies| == 1 && (out.status == 400 <==> out.bodies[0].Failure?)
    ensures db.pages == old(db.pages)
    ensures Action(req) == "create_admin" ==>
      db.settings == InsertIgnore(old(db.settings), DEFAULT_SETTINGS) &&
      if AdminCount(old(db.users)) > 0 then
        out == Fail(MSG_ADMIN_EXISTS) && db.users == old(db.users) && db.nextUserId == old(db.nextUserId)
      else if FindByEmail(old(db.users), ADMIN_EMAIL).Some? then
        out == Fail(MSG_DUPLICATE_ENTRY) && db.users == old(db.users) && db.nextUserId == old(db.nextUserId)
      else
        out == Ok(AdminCreated(ADMIN_EMAIL, ADMIN_PASSWORD, MSG_ADMIN_CREATED)) &&
        db.users == old(db.users) + [AdminRow(old(db.nextUserId), hash, now)] &&
        db.nextUserId == old(db.nextUserId) + 1 &&
        AdminCount(db.users) == 1
    ensures Action(req) == "create_tables" ==>
      out == Ok(Message(MSG_TABLES)) &&
      db.settings == InsertIgnore(old(db.settings), DEFAULT_SETTINGS) &&
      db.users == old(db.users) && db.nextUserId == old(db.nextUserId)
    ensures Action(req) == "test_connection" ==>
      out == Ok(Message(MSG_CONNECTED)) &&
      db.settings == old(db.settings) && db.users == old(db.users) && db.nextUserId == old(db.nextUserId)
    ensures Action(req) !in {"create_admin", "create_tables", "test_connection"} ==>
      out == Fail(MSG_UNKNOWN_ACTION) &&
      db.settings == old(db.settings) && db.users == old(db.users) && db.nextUserId == old(db.nextUserId)
  {
    var action := Action(req);
    if action == "create_admin" {
      out := CreateAdmin(db, hash, now);
    } else if action == "test_connection" {
      out := Ok(Message(MSG_CONNECTED));
    } else if action == "create_tables" {
      CreateTables(db);
      out := Ok(Message(MSG_TABLES));
    } else {
      out := Fail(MSG_UNKNOWN_ACTION);
    }
  }

  /** Once `create_admin` has succeeded, every later `create_admin` is refused. */
  lemma CreateAdminAtMostOnce(users: seq<UserRow>, id: int, hash: string, now: int)
    ensures AdminCount(users + [AdminRow(id, hash, now)]) > 0
  {
    assert (users + [AdminRow(id, hash, now)])[..|users|] == users;
  }
}
