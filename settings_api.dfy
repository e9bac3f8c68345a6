/**
 * api/settings.php: `test_db_connection`, `create_tables`, `get_all` and the admin-only
 * `update_settings`.
 *
 * Opening a PDO connection is I/O: its outcome for a given configuration is the
 * parameter `connect`.
 */
module SettingsApi {
  import opened Wrappers
  import opened Backend
  import TokenCodec
  import ProjectSettingsApi

  const MSG_MISSING_FIELDS: string := "Не все обязательные поля заполнены"
  const MSG_CONNECTED: string := "Подключение к базе данных успешно!"
  const MSG_CONNECT_ERROR: string := "Ошибка подключения: "
  const MSG_TABLES: string := "Таблицы созданы успешно!"
  const MSG_UPDATED: string := "Настройки обновлены!"
  const MSG_DENIED: string := "Доступ запрещен"
  const MSG_UNKNOWN_ACTION: string := "Неизвестное действие"

  /** What `new PDO(...)` does with a configuration: connect, or throw with a message. */
  datatype Connection = Connected | ConnectFailed(message: string)

  /** The three fields `test_db_connection` insists on; `password` and `port` may be empty. */
  predicate ConfigComplete(config: map<string, string>)
  {
    !PhpEmpty(FieldOr(config, "host", "")) &&
    !PhpEmpty(FieldOr(config, "database", "")) &&
    !PhpEmpty(FieldOr(config, "username", ""))
  }

  /** `test_db_connection`: validate, then try to connect. */
  function TestConnection(config: map<string, string>, connect: map<string, string> -> Connection): Output
  {
    if !ConfigComplete(config) then Fail(MSG_MISSING_FIELDS)
    else match connect(config)
      case Connected => Ok(Message(MSG_CONNECTED))
      case ConnectFailed(m) => Fail(MSG_CONNECT_ERROR + m)
  }

  /**
   * A configuration lacking host, database or username is refused without an attempt to
   * connect; one that has them is tried whatever its password.
   */
  lemma TestConnectionValidation(config: map<string, string>, c1: map<string, string> -> Connection,
                                 c2: map<string, string> -> Connection)
    ensures !ConfigComplete(config) ==>
      TestConnection(config, c1) == Fail(MSG_MISSING_FIELDS) == TestConnection(config, c2)
    ensures ConfigComplete(config) ==> ConfigComplete(config["password" := ""])
    ensures ConfigComplete(config) ==> (TestConnection(config, c1).status == 200 <==> c1(config).Connected?)
  {
    if ConfigComplete(config) {
      var config' := config["password" := ""];
      assert FieldOr(config', "host", "") == FieldOr(config, "host", "");
      assert FieldOr(config', "database", "") == FieldOr(config, "database", "");
      assert FieldOr(config', "username", "") == FieldOr(config, "username", "");
    }
  }

  /**
   * A supplied key that no later key collates with ends with its own value; a PHP array's
   * keys are distinct strings, but `Site_Name` and `site_name` are the same to the table.
   */
  lemma {:induction false} FoldedPairsValue(pairs: seq<(string, string)>, i: int)
    requires 0 <= i < |pairs|
    requires forall b :: i < b < |pairs| ==> !SameText(pairs[b].0, pairs[i].0)
    ensures CollationKey(pairs[i].0) in FoldedPairs(pairs) &&
            FoldedPairs(pairs)[CollationKey(pairs[i].0)] == pairs[i].1
  {
    if i < |pairs| - 1 {
      FoldedPairsValue(pairs[..|pairs| - 1], i);
    }
  }

  /**
   * The `foreach` of `update_settings`: one upsert per supplied pair, in order. Every
   * supplied key's collation class ends with the value of the last pair in it and every
   * other class keeps its old value; the rows already stored keep their spelling.
   */
  method UpdateSettings(db: Database, supplied: seq<(string, string)>)
    requires db.Valid()
    modifies db
    ensures db.Valid()
    ensures FoldedMap(db.settings) == FoldedMap(old(db.settings)) + FoldedPairs(supplied)
    ensures |old(db.settings)| <= |db.settings| &&
            forall j :: 0 <= j < |old(db.settings)| ==> db.settings[j].key == old(db.settings)[j].key
    ensures db.users == old(db.users) && db.pages == old(db.pages) && db.nextUserId == old(db.nextUserId)
  {
    var i := 0;
    while i < |supplied|
      invariant 0 <= i <= |supplied|
      invariant db.Valid()
      invariant FoldedMap(db.settings) == FoldedMap(old(db.settings)) + FoldedPairs(supplied[..i])
      invariant |old(db.settings)| <= |db.settings| &&
                forall j :: 0 <= j < |old(db.settings)| ==> db.settings[j].key == old(db.settings)[j].key
      invariant db.users == old(db.users) && db.pages == old(db.pages) && db.nextUserId == old(db.nextUserId)
    {
      ghost var before := FoldedPairs(supplied[..i]);
      db.UpsertSetting(supplied[i].0, supplied[i].1);
      FoldedPairsStep(supplied, i);
      UnionUpdate(FoldedMap(old(db.settings)), before, CollationKey(supplied[i].0), supplied[i].1);
      i := i + 1;
    }
    assert supplied[..i] == supplied;
  }

  /** One more pair of the `foreach` sets one more collation class. */
  lemma FoldedPairsStep(pairs: seq<(string, string)>, i: int)
    requires 0 <= i < |pairs|
    ensures FoldedPairs(pairs[..i + 1]) == FoldedPairs(pairs[..i])[CollationKey(pairs[i].0) := pairs[i].1]
  {
    assert pairs[..i + 1][..i] == pairs[..i];
  }

  /** Setting a key after a merge is the same as setting it in the map merged last. */
  lemma UnionUpdate(a: map<string, string>, b: map<string, string>, k: string, v: string)
    ensures (a + b)[k := v] == a + b[k := v]
  {
  }

  /**
   * `create_tables` as written: `require_once 'project-settings.php'` runs that script
   * too, and it sees the same action, so the defaults are inserted and a first document
   * written before this script inserts them again and writes its own.
   */
  method CreateTablesAsWritten(db: Database) returns (out: Output)
    requires db.Valid()
    modifies db
    ensures db.Valid()
    ensures out == Output(200, [Message(ProjectSettingsApi.MSG_TABLES), Message(MSG_TABLES)])
    ensures db.settings == InsertIgnore(old(db.settings), ProjectSettingsApi.DEFAULT_SETTINGS)
    ensures db.users == old(db.users) && db.pages == old(db.pages) && db.nextUserId == old(db.nextUserId)
  {
    var s0 := db.settings;
    ProjectSettingsApi.CreateTables(db);
    var first := Message(ProjectSettingsApi.MSG_TABLES);
    ProjectSettingsApi.CreateTables(db);
    InsertIgnoreIdempotent(s0, ProjectSettingsApi.DEFAULT_SETTINGS);
    out := Output(200, [first, Message(MSG_TABLES)]);
  }

  /** `create_tables` as intended: one insertion of the defaults and one JSON document. */
  method CreateTablesOnce(db: Database) returns (out: Output)
    requires db.Valid()
    modifies db
    ensures db.Valid()
    ensures out == Ok(Message(MSG_TABLES))
    ensures db.settings == InsertIgnore(old(db.settings), ProjectSettingsApi.DEFAULT_SETTINGS)
    ensures db.users == old(db.users) && db.pages == old(db.pages) && db.nextUserId == old(db.nextUserId)
  {
    ProjectSettingsApi.CreateTables(db);
    out := Ok(Message(MSG_TABLES));
  }

  /**
   * The whole script. `get_all` and `test_db_connection` need no token; `update_settings`
   * checks the admin gate before touching the table; `create_tables` runs as written and
   * so echoes two documents.
   */
  method Handle(db: Database, p: TokenCodec.Primitives, req: Request,
                connect: map<string, string> -> Connection, now: int) returns (out: Output)
    requires db.Valid()
    modifies db
    ensures db.Valid()
    ensures db.users == old(db.users) && db.pages == old(db.pages) && db.nextUserId == old(db.nextUserId)
    ensures Action(req) == "test_db_connection" ==>
      out == TestConnection(req.config, connect) && db.settings == old(db.settings)
    ensures Action(req) == "create_tables" ==>
      out == Output(200, [Message(ProjectSettingsApi.MSG_TABLES), Message(MSG_TABLES)]) &&
      db.settings == InsertIgnore(old(db.settings), ProjectSettingsApi.DEFAULT_SETTINGS)
    ensures Action(req) == "get_all" ==>
      out == Ok(SettingsData(SettingsMap(old(db.settings)))) && db.settings == old(db.settings)
    ensures Action(req) == "update_settings" && AdminGate(p, req, now).None? ==>
      out == Fail(MSG_DENIED) && db.settings == old(db.settings)
    ensures Action(req) == "update_settings" && AdminGate(p, req, now).Some? ==>
      out == Ok(Message(MSG_UPDATED)) &&
      FoldedMap(db.settings) == FoldedMap(old(db.settings)) + FoldedPairs(req.settings) &&
      |old(db.settings)| <= |db.settings| &&
      forall j :: 0 <= j < |old(db.settings)| ==> db.settings[j].key == old(db.settings)[j].key
    ensures Action(req) !in {"test_db_connection", "create_tables", "get_all", "update_settings"} ==>
      out == Fail(MSG_UNKNOWN_ACTION) && db.settings == old(db.settings)
  {
    var action := Action(req);
    if action == "test_db_connection" {
      out := TestConnection(req.config, connect);
    } else if action == "create_tables" {
      out := CreateTablesAsWritten(db);
    } else if action == "get_all" {
      var m := db.AllSettings();
      out := Ok(SettingsData(m));
    } else if action == "update_settings" {
      if AdminGate(p, req, now).None? {
        out := Fail(MSG_DENIED);
      } else {
        UpdateSettings(db, req.settings);
        out := Ok(Message(MSG_UPDATED));
      }
    } else {
      out := Fail(MSG_UNKNOWN_ACTION);
    }
  }

  /**
   * What `get_all` returns after `update_settings`: the value of the last supplied pair
   * in a collation class is reported under a key of that class, and under the stored
   * spelling when the class was already in the table (`Site_Name` updates `site_name`).
   */
  lemma GetAllAfterUpdate(before: seq<SettingRow>, after: seq<SettingRow>,
                          supplied: seq<(string, string)>, i: int)
    requires UniqueKeys(after)
    requires FoldedMap(after) == FoldedMap(before) + FoldedPairs(supplied)
    requires |before| <= |after| && forall j :: 0 <= j < |before| ==> after[j].key == before[j].key
    requires 0 <= i < |supplied|
    requires forall b :: i < b < |supplied| ==> !SameText(supplied[b].0, supplied[i].0)
    ensures exists k :: k in SettingsMap(after) && SameText(k, supplied[i].0) &&
                        SettingsMap(after)[k] == supplied[i].1
    ensures forall j :: 0 <= j < |before| && SameText(before[j].key, supplied[i].0) ==>
      before[j].key in SettingsMap(after) && SettingsMap(after)[before[j].key] == supplied[i].1
  {
    var c := CollationKey(supplied[i].0);
    FoldedPairsValue(supplied, i);
    SettingsMapFolded(after, c);
    forall j | 0 <= j < |before| && SameText(before[j].key, supplied[i].0)
      ensures before[j].key in SettingsMap(after) && SettingsMap(after)[before[j].key] == supplied[i].1
    {
      SettingsMapValue(after, j);
    }
  }
}
