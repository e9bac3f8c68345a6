/**
 * What the PHP endpoints share: the rows of the `users`, `pages` and `system_settings`
 * tables (api/project-settings.php, `createTables`), the decoded request, the JSON
 * envelope every endpoint answers with, and the database those endpoints change.
 *
 * SQL runs against sequences of rows. MySQL's UNIQUE constraints on `users.email` and
 * `system_settings.setting_key` become the invariant `Database.Valid`. The tables are
 * created with the collation `utf8mb4_unicode_ci`, so every comparison of an email or a
 * setting key (`WHERE email = ?`, the UNIQUE indexes, `ON DUPLICATE KEY`, `INSERT
 * IGNORE`) goes through `SameText`, not through string equality.
 */
module Backend {
  import opened Wrappers
  import Lists
  import TokenCodec
  import Js

  /** `PASSWORD_SALT` of api/config/config.php, appended to every password before hashing. */
  const PASSWORD_SALT: string := "your-password-salt-change-this"

  datatype UserRow = UserRow(id: int, email: string, passwordHash: string, role: string,
                             status: string, createdAt: int, lastActive: int)

  /** A row of `pages`, reduced to the owner the user listing counts by. */
  datatype PageRow = PageRow(id: int, userId: int)

  /** A row of `system_settings`; `description` is NULL for rows `update_settings` creates. */
  datatype SettingRow = SettingRow(key: string, value: string, description: Option<string>)

  /**
   * One HTTP request as the scripts read it: the method, the headers `getallheaders()`
   * returns, `$_GET`, the string members of the JSON body, and the body's `config` and
   * `settings` members (an absent member reads as the empty array `?? []` supplies).
   */
  datatype Request = Request(
    httpMethod: string,
    headers: map<string, string>,
    query: map<string, string>,
    fields: map<string, string>,
    config: map<string, string>,
    settings: seq<(string, string)>)

  /** A user as `login` reports it. */
  datatype SessionUser = SessionUser(id: int, email: string, role: string, status: string)

  /** A row of the user listing, with the number of pages the user owns. */
  datatype ListedUser = ListedUser(id: int, email: string, role: string, status: string,
                                   createdAt: int, lastActive: int, pagesCount: nat)

  /**
   * The JSON documents the endpoints echo. A created user's `id` is text: PDO's
   * `lastInsertId()` returns the new id as a decimal string.
   */
  datatype Body =
    | Failure(error: string)
    | LoginOk(token: string, user: SessionUser)
    | TokenOk(userId: int, email: string, role: string)
    | UserCreated(id: string, email: string, role: string, status: string, createdAt: int,
                  pagesCount: nat, message: string)
    | UserList(rows: seq<ListedUser>)
    | Message(message: string)
    | SettingsData(data: map<string, string>)
    | AdminCreated(login: string, password: string, message: string)

  /** The HTTP status and the JSON documents written, in order. */
  datatype Output = Output(status: int, bodies: seq<Body>)

  /** The `catch` block of every endpoint: status 400 and `{success: false, error}`. */
  function Fail(message: string): Output
  {
    Output(400, [Failure(message)])
  }

  function Ok(b: Body): Output
  {
    Output(200, [b])
  }

  /** PHP's `empty()` on a string. */
  predicate PhpEmpty(s: string)
  {
    s == "" || s == "0"
  }

  /** `$m[k] ?? d`. */
  function FieldOr(m: map<string, string>, k: string, d: string): string
  {
    if k in m then m[k] else d
  }

  /** `$input['action'] ?? $_GET['action'] ?? ''`: the body wins over the query string. */
  function Action(req: Request): (a: string)
    ensures "action" in req.fields ==> a == req.fields["action"]
    ensures "action" !in req.fields && "action" in req.query ==> a == req.query["action"]
    ensures "action" !in req.fields && "action" !in req.query ==> a == ""
  {
    FieldOr(req.fields, "action", FieldOr(req.query, "action", ""))
  }

  /** `$input['email'] ?? ''`. */
  function Email(req: Request): string { FieldOr(req.fields, "email", "") }

  /** `$input['password'] ?? ''`. */
  function Password(req: Request): string { FieldOr(req.fields, "password", "") }

  /**
   * The gate of users.php and of `update_settings`: the bearer token must verify and
   * carry the role `admin`. None stands for 'Доступ запрещен'.
   */
  function AdminGate(p: TokenCodec.Primitives, req: Request, now: int): (r: Option<TokenCodec.Claims>)
    ensures r.Some? <==> TokenCodec.GetAuthUser(p, req.headers, now).Some? &&
                         TokenCodec.GetAuthUser(p, req.headers, now).value.role == "admin"
    ensures r.Some? ==> r == TokenCodec.GetAuthUser(p, req.headers, now)
  {
    match TokenCodec.GetAuthUser(p, req.headers, now)
    case None => None
    case Some(c) => if c.role != "admin" then None else Some(c)
  }

  // ---------------------------------------------------------------------------
  // The tables' collation

  /** `s` without the spaces at its end: the collation pads with spaces before comparing. */
  function DropTrailingSpaces(s: string): string
  {
    if |s| > 0 && s[|s| - 1] == ' ' then DropTrailingSpaces(s[..|s| - 1]) else s
  }

  /**
   * What `utf8mb4_unicode_ci` compares of a string, as far as the model follows it: the
   * letters without their case, and no trailing spaces.
   */
  function CollationKey(s: string): string
  {
    Js.Lower(DropTrailingSpaces(s))
  }

  /** The two strings are equal under the collation. */
  predicate SameText(a: string, b: string)
  {
    CollationKey(a) == CollationKey(b)
  }

  /** Lower-casing commutes with dropping the trailing spaces, since only a space lower-cases to a space. */
  lemma {:induction false} DropTrailingSpacesLower(s: string)
    ensures DropTrailingSpaces(Js.Lower(s)) == Js.Lower(DropTrailingSpaces(s))
  {
    if |s| > 0 {
      var init := s[..|s| - 1];
      var low := Js.Lower(s);
      assert low[..|s| - 1] == Js.Lower(init);
      if s[|s| - 1] == ' ' {
        DropTrailingSpacesLower(init);
      } else {
        assert low[|s| - 1] != ' ';
      }
    }
  }

  /**
   * A case variant and a copy padded with a space collate equal to the string, while two
   * strings of different lengths once their trailing spaces are dropped never do.
   */
  lemma SameTextSpec(s: string, t: string)
    ensures SameText(Js.Lower(s), s)
    ensures SameText(s + " ", s)
    ensures SameText(s, t) ==> |DropTrailingSpaces(s)| == |DropTrailingSpaces(t)|
  {
    DropTrailingSpacesLower(s);
    Js.LowerIdempotent(DropTrailingSpaces(s));
    assert (s + " ")[..|s|] == s;
  }

  // ---------------------------------------------------------------------------
  // users

  /** The UNIQUE index on `email`: no two rows collate equal. */
  predicate UniqueEmails(users: seq<UserRow>)
  {
    forall i, j :: 0 <= i < j < |users| ==> !SameText(users[i].email, users[j].email)
  }

  /** `SELECT ... FROM users WHERE email = ?` followed by one `fetch()`. */
  function FindByEmail(users: seq<UserRow>, email: string): (r: Option<UserRow>)
    ensures r.Some? ==> r.value in users && SameText(r.value.email, email)
    ensures r.None? <==> forall i :: 0 <= i < |users| ==> !SameText(users[i].email, email)
  {
    if users == [] then None
    else if SameText(users[0].email, email) then Some(users[0])
    else FindByEmail(users[1..], email)
  }

  /** The lookup sees only the email's collation key: any variant it holds equal finds the same row. */
  lemma {:induction false} FindByEmailCollation(users: seq<UserRow>, e1: string, e2: string)
    requires SameText(e1, e2)
    ensures FindByEmail(users, e1) == FindByEmail(users, e2)
  {
    if users != [] {
      FindByEmailCollation(users[1..], e1, e2);
    }
  }

  /** `UPDATE users SET last_active = NOW() WHERE id = ?`. */
  function Touch(users: seq<UserRow>, id: int, now: int): (r: seq<UserRow>)
    ensures |r| == |users|
    ensures forall i :: 0 <= i < |users| ==>
      r[i] == if users[i].id == id then users[i].(lastActive := now) else users[i]
  {
    Lists.MapWhere(users, (u: UserRow) => u.id == id, (u: UserRow) => u.(lastActive := now))
  }

  /** Number of pages owned by user `id`: the `COUNT(p.id)` of the listing's LEFT JOIN. */
  function PagesOf(pages: seq<PageRow>, id: int): (n: nat)
    ensures n <= |pages|
  {
    |Lists.Filter(pages, (q: PageRow) => q.userId == id)|
  }

  /** The user listing: every user with its page count (what each row holds: `ListingPagesCount`). */
  function Listing(users: seq<UserRow>, pages: seq<PageRow>): (r: seq<ListedUser>)
    ensures |r| == |users|
  {
    seq(|users|, i requires 0 <= i < |users| =>
      ListedUser(users[i].id, users[i].email, users[i].role, users[i].status,
                 users[i].createdAt, users[i].lastActive, PagesOf(pages, users[i].id)))
  }

  /** Counting a user's pages: a page owned by someone else is not counted. */
  lemma PagesOfOwned(pages: seq<PageRow>, id: int)
    ensures PagesOf(pages, id) == 0 <==> forall k :: 0 <= k < |pages| ==> pages[k].userId != id
  {
    var keep := (q: PageRow) => q.userId == id;
    var owned := Lists.Filter(pages, keep);
    if owned != [] {
      assert owned[0] in owned;
      Lists.FilterMembership(pages, keep, owned[0]);
    } else {
      forall k | 0 <= k < |pages|
        ensures pages[k].userId != id
      {
        Lists.FilterMembership(pages, keep, pages[k]);
      }
    }
  }

  /**
   * Each listed user carries the pages that are theirs: 0 exactly when no page has their
   * id as owner, and never more than there are pages.
   */
  lemma ListingPagesCount(users: seq<UserRow>, pages: seq<PageRow>, i: int)
    requires 0 <= i < |users|
    ensures Listing(users, pages)[i].id == users[i].id
    ensures Listing(users, pages)[i].pagesCount == 0 <==>
      forall k :: 0 <= k < |pages| ==> pages[k].userId != users[i].id
    ensures Listing(users, pages)[i].pagesCount <= |pages|
  {
    PagesOfOwned(pages, users[i].id);
  }

  // ---------------------------------------------------------------------------
  // system_settings

  /** The UNIQUE index on `setting_key`: no two rows collate equal. */
  predicate UniqueKeys(rows: seq<SettingRow>)
  {
    forall i, j :: 0 <= i < j < |rows| ==> !SameText(rows[i].key, rows[j].key)
  }

  /** A row whose key the collation holds equal to `k` exists. */
  predicate HasKey(rows: seq<SettingRow>, k: string)
  {
    exists i :: 0 <= i < |rows| && SameText(rows[i].key, k)
  }

  /**
   * The map `get_all` builds: each row's key, spelled as stored, to its value, later rows
   * overwriting earlier ones.
   */
  function SettingsMap(rows: seq<SettingRow>): map<string, string>
  {
    if rows == [] then map[]
    else SettingsMap(rows[..|rows| - 1])[rows[|rows| - 1].key := rows[|rows| - 1].value]
  }

  /** The table as the collation sees it: each key's collation key to the row's value. */
  function FoldedMap(rows: seq<SettingRow>): map<string, string>
  {
    if rows == [] then map[]
    else FoldedMap(rows[..|rows| - 1])[CollationKey(rows[|rows| - 1].key) := rows[|rows| - 1].value]
  }

  /**
   * The `$key => $value` pairs of a PHP array as the upserts see them: each key's
   * collation key to its value, later pairs overwriting earlier ones.
   */
  function FoldedPairs(pairs: seq<(string, string)>): map<string, string>
  {
    if pairs == [] then map[]
    else FoldedPairs(pairs[..|pairs| - 1])[CollationKey(pairs[|pairs| - 1].0) := pairs[|pairs| - 1].1]
  }

  /** Exactly the keys of the rows, as stored, are in the map. */
  lemma {:induction false} SettingsMapDomain(rows: seq<SettingRow>, k: string)
    ensures k in SettingsMap(rows) <==> exists i :: 0 <= i < |rows| && rows[i].key == k
  {
    if rows != [] {
      var init := rows[..|rows| - 1];
      SettingsMapDomain(init, k);
      if k !in SettingsMap(rows) {
        forall i | 0 <= i < |rows|
          ensures rows[i].key != k
        {
          if i < |init| {
            assert rows[i] == init[i];
          }
        }
      }
      if k in SettingsMap(init) {
        var i :| 0 <= i < |init| && init[i].key == k;
        assert rows[i].key == k;
      }
    }
  }

  /** Exactly the collation keys of the rows are in the folded map. */
  lemma {:induction false} FoldedMapDomain(rows: seq<SettingRow>, c: string)
    ensures c in FoldedMap(rows) <==> exists i :: 0 <= i < |rows| && CollationKey(rows[i].key) == c
  {
    if rows != [] {
      var init := rows[..|rows| - 1];
      FoldedMapDomain(init, c);
      if c !in FoldedMap(rows) {
        forall i | 0 <= i < |rows|
          ensures CollationKey(rows[i].key) != c
        {
          if i < |init| {
            assert rows[i] == init[i];
          }
        }
      }
      if c in FoldedMap(init) {
        var i :| 0 <= i < |init| && CollationKey(init[i].key) == c;
        assert CollationKey(rows[i].key) == c;
      }
    }
  }

  /** With unique keys, every row's key maps to that row's value. */
  lemma {:induction false} SettingsMapValue(rows: seq<SettingRow>, i: int)
    requires UniqueKeys(rows) && 0 <= i < |rows|
    ensures rows[i].key in SettingsMap(rows) && SettingsMap(rows)[rows[i].key] == rows[i].value
  {
    if i < |rows| - 1 {
      SettingsMapValue(rows[..|rows| - 1], i);
    }
  }

  /** With unique keys, every row's collation key maps to that row's value. */
  lemma {:induction false} FoldedMapValue(rows: seq<SettingRow>, i: int)
    requires UniqueKeys(rows) && 0 <= i < |rows|
    ensures CollationKey(rows[i].key) in FoldedMap(rows) && FoldedMap(rows)[CollationKey(rows[i].key)] == rows[i].value
  {
    if i < |rows| - 1 {
      FoldedMapValue(rows[..|rows| - 1], i);
    }
  }

  /**
   * What `get_all` reports is the folded map under the stored spellings: every stored key
   * carries its class's value, and every class has a stored key carrying its value.
   */
  lemma SettingsMapFolded(rows: seq<SettingRow>, c: string)
    requires UniqueKeys(rows)
    ensures forall k :: k in SettingsMap(rows) ==>
      CollationKey(k) in FoldedMap(rows) && SettingsMap(rows)[k] == FoldedMap(rows)[CollationKey(k)]
    ensures c in FoldedMap(rows) ==>
      exists k :: k in SettingsMap(rows) && CollationKey(k) == c && SettingsMap(rows)[k] == FoldedMap(rows)[c]
  {
    forall k | k in SettingsMap(rows)
      ensures CollationKey(k) in FoldedMap(rows) && SettingsMap(rows)[k] == FoldedMap(rows)[CollationKey(k)]
    {
      SettingsMapDomain(rows, k);
      var i :| 0 <= i < |rows| && rows[i].key == k;
      SettingsMapValue(rows, i);
      FoldedMapValue(rows, i);
    }
    if c in FoldedMap(rows) {
      FoldedMapDomain(rows, c);
      var i :| 0 <= i < |rows| && CollationKey(rows[i].key) == c;
      SettingsMapValue(rows, i);
      FoldedMapValue(rows, i);
    }
  }

  /** Index of the row whose key the collation holds equal to `k`. */
  function KeyIndex(rows: seq<SettingRow>, k: string): (r: Option<nat>)
    ensures r.Some? ==> r.value < |rows| && SameText(rows[r.value].key, k)
    ensures r.None? <==> !HasKey(rows, k)
  {
    if rows == [] then None
    else if SameText(rows[|rows| - 1].key, k) then Some(|rows| - 1)
    else
      KeyIndex(rows[..|rows| - 1], k)
  }

  /**
   * `INSERT INTO system_settings (setting_key, setting_value) VALUES (?, ?)
   * ON DUPLICATE KEY UPDATE setting_value = VALUES(setting_value)`: a row the collation
   * matches keeps its key as stored and takes the value.
   */
  function Upsert(rows: seq<SettingRow>, k: string, v: string): seq<SettingRow>
  {
    match KeyIndex(rows, k)
    case Some(i) => rows[i := rows[i].(value := v)]
    case None => rows + [SettingRow(k, v, None)]
  }

  /** The spelling under which `get_all` reports `k` after the upsert: the stored one if any. */
  function StoredKey(rows: seq<SettingRow>, k: string): (r: string)
    ensures SameText(r, k)
    ensures !HasKey(rows, k) ==> r == k
  {
    match KeyIndex(rows, k)
    case Some(i) => rows[i].key
    case None => k
  }

  lemma {:induction false} ReplaceValue(rows: seq<SettingRow>, i: nat, v: string)
    requires i < |rows|
    requires forall j :: 0 <= j < |rows| && j != i ==> rows[j].key != rows[i].key
    ensures SettingsMap(rows[i := rows[i].(value := v)]) == SettingsMap(rows)[rows[i].key := v]
  {
    var n := |rows|;
    var rows' := rows[i := rows[i].(value := v)];
    if i == n - 1 {
      assert rows'[..n - 1] == rows[..n - 1];
    } else {
      var init := rows[..n - 1];
      assert rows'[..n - 1] == init[i := init[i].(value := v)];
      ReplaceValue(init, i, v);
    }
  }

  lemma {:induction false} ReplaceFoldedValue(rows: seq<SettingRow>, i: nat, v: string)
    requires i < |rows|
    requires forall j :: 0 <= j < |rows| && j != i ==> !SameText(rows[j].key, rows[i].key)
    ensures FoldedMap(rows[i := rows[i].(value := v)]) == FoldedMap(rows)[CollationKey(rows[i].key) := v]
  {
    var n := |rows|;
    var rows' := rows[i := rows[i].(value := v)];
    if i == n - 1 {
      assert rows'[..n - 1] == rows[..n - 1];
    } else {
      var init := rows[..n - 1];
      assert rows'[..n - 1] == init[i := init[i].(value := v)];
      ReplaceFoldedValue(init, i, v);
    }
  }

  /**
   * The upsert sets the key's collation class to the value and leaves every other class
   * as it was; `get_all` then reports the value under the stored spelling. A key already
   * present keeps its spelling and adds no row; keys stay unique.
   */
  lemma UpsertMap(rows: seq<SettingRow>, k: string, v: string)
    requires UniqueKeys(rows)
    ensures UniqueKeys(Upsert(rows, k, v))
    ensures FoldedMap(Upsert(rows, k, v)) == FoldedMap(rows)[CollationKey(k) := v]
    ensures SettingsMap(Upsert(rows, k, v)) == SettingsMap(rows)[StoredKey(rows, k) := v]
    ensures HasKey(rows, k) ==>
      |Upsert(rows, k, v)| == |rows| && forall j :: 0 <= j < |rows| ==> Upsert(rows, k, v)[j].key == rows[j].key
    ensures !HasKey(rows, k) ==> Upsert(rows, k, v) == rows + [SettingRow(k, v, None)]
  {
    match KeyIndex(rows, k)
    case Some(i) =>
      ReplaceValue(rows, i, v);
      ReplaceFoldedValue(rows, i, v);
    case None =>
      var rows' := rows + [SettingRow(k, v, None)];
      assert rows'[..|rows'| - 1] == rows;
  }

  /**
   * `INSERT IGNORE INTO system_settings ... VALUES <rows>`: a row is added only when its
   * key is not yet present; rows already present are never touched.
   */
  function InsertIgnore(rows: seq<SettingRow>, defaults: seq<SettingRow>): seq<SettingRow>
    decreases |defaults|
  {
    if defaults == [] then rows
    else
      var d := defaults[0];
      InsertIgnore(if HasKey(rows, d.key) then rows else rows + [d], defaults[1..])
  }

  /**
   * What `INSERT IGNORE` promises: the existing rows are an unchanged prefix, every
   * added row is one of the defaults whose key was missing, every default key ends up
   * present, and keys stay unique.
   */
  lemma {:induction false} InsertIgnoreSpec(rows: seq<SettingRow>, defaults: seq<SettingRow>)
    requires UniqueKeys(rows)
    ensures var r := InsertIgnore(rows, defaults);
      rows <= r &&
      UniqueKeys(r) &&
      (forall i :: |rows| <= i < |r| ==> r[i] in defaults && !HasKey(rows, r[i].key)) &&
      (forall d :: d in defaults ==> HasKey(r, d.key))
    decreases |defaults|
  {
    if defaults != [] {
      var d := defaults[0];
      var next := if HasKey(rows, d.key) then rows else rows + [d];
      assert UniqueKeys(next) by {
        if !HasKey(rows, d.key) {
          assert forall i :: 0 <= i < |rows| ==> !SameText(rows[i].key, d.key);
        }
      }
      InsertIgnoreSpec(next, defaults[1..]);
      var r := InsertIgnore(rows, defaults);
      assert r == InsertIgnore(next, defaults[1..]);
      forall i | |rows| <= i < |r|
        ensures r[i] in defaults && !HasKey(rows, r[i].key)
      {
        if i < |next| {
          assert r[i] == next[i] == d;
        } else {
          assert r[i] in defaults[1..] && !HasKey(next, r[i].key);
          assert !HasKey(rows, r[i].key) by {
            assert forall j :: 0 <= j < |rows| ==> next[j] == rows[j];
          }
        }
      }
      assert HasKey(next, d.key) by {
        if !HasKey(rows, d.key) {
          assert SameText(next[|rows|].key, d.key);
        }
      }
      assert HasKey(r, d.key) by {
        var j :| 0 <= j < |next| && SameText(next[j].key, d.key);
        assert r[j] == next[j];
      }
    }
  }

  /** Once every default key is present, `INSERT IGNORE` of the defaults changes nothing. */
  lemma {:induction false} InsertIgnoreAllPresent(rows: seq<SettingRow>, defaults: seq<SettingRow>)
    requires forall d :: d in defaults ==> HasKey(rows, d.key)
    ensures InsertIgnore(rows, defaults) == rows
    decreases |defaults|
  {
    if defaults != [] {
      assert defaults[0] in defaults;
      InsertIgnoreAllPresent(rows, defaults[1..]);
    }
  }

  /** Repeating `INSERT IGNORE` of the same rows changes nothing the first one did not. */
  lemma InsertIgnoreIdempotent(rows: seq<SettingRow>, defaults: seq<SettingRow>)
    requires UniqueKeys(rows)
    ensures InsertIgnore(InsertIgnore(rows, defaults), defaults) == InsertIgnore(rows, defaults)
  {
    InsertIgnoreSpec(rows, defaults);
    InsertIgnoreAllPresent(InsertIgnore(rows, defaults), defaults);
  }

  // ---------------------------------------------------------------------------
  // The database the endpoints change

  class Database {
    var users: seq<UserRow>
    var pages: seq<PageRow>
    var settings: seq<SettingRow>
    /** The `AUTO_INCREMENT` counter of `users.id`. */
    var nextUserId: int

    /** The UNIQUE constraints, and every id below the counter. */
    predicate Valid()
      reads this
    {
      UniqueEmails(users) && UniqueKeys(settings) &&
      forall i :: 0 <= i < |users| ==> users[i].id < nextUserId
    }

    /** `UPDATE users SET last_active = NOW() WHERE id = ?`. */
    method TouchLastActive(id: int, now: int)
      requires Valid()
      modifies this
      ensures Valid()
      ensures users == Touch(old(users), id, now)
      ensures pages == old(pages) && settings == old(settings) && nextUserId == old(nextUserId)
    {
      users := Touch(users, id, now);
    }

    /**
     * `INSERT INTO users (email, password_hash, role, status, created_at)` with status
     * `'active'`. The UNIQUE index on `email` makes the statement fail (None) when the
     * email is taken; otherwise the row gets the next id.
     */
    method InsertUser(email: string, hash: string, role: string, now: int) returns (id: Option<int>)
      requires Valid()
      modifies this
      ensures Valid()
      ensures FindByEmail(old(users), email).Some? ==> id.None? && users == old(users) && nextUserId == old(nextUserId)
      ensures FindByEmail(old(users), email).None? ==>
        id == Some(old(nextUserId)) && nextUserId == old(nextUserId) + 1 &&
        users == old(users) + [UserRow(old(nextUserId), email, hash, role, "active", now, now)]
      ensures pages == old(pages) && settings == old(settings)
    {
      if FindByEmail(users, email).Some? {
        id := None;
      } else {
        id := Some(nextUserId);
        users := users + [UserRow(nextUserId, email, hash, role, "active", now, now)];
        nextUserId := nextUserId + 1;
      }
    }

    /** One `INSERT ... ON DUPLICATE KEY UPDATE` of `update_settings`. */
    method UpsertSetting(k: string, v: string)
      requires Valid()
      modifies this
      ensures Valid()
      ensures settings == Upsert(old(settings), k, v)
      ensures FoldedMap(settings) == FoldedMap(old(settings))[CollationKey(k) := v]
      ensures SettingsMap(settings) == SettingsMap(old(settings))[StoredKey(old(settings), k) := v]
      ensures |old(settings)| <= |settings| &&
              forall j :: 0 <= j < |old(settings)| ==> settings[j].key == old(settings)[j].key
      ensures users == old(users) && pages == old(pages) && nextUserId == old(nextUserId)
    {
      var updated := Upsert(settings, k, v);
      UpsertMap(settings, k, v);
      settings := updated;
    }

    /** One `INSERT IGNORE` of several setting rows. */
    method InsertSettingsIgnore(defaults: seq<SettingRow>)
      requires Valid()
      modifies this
      ensures Valid()
      ensures settings == InsertIgnore(old(settings), defaults)
      ensures users == old(users) && pages == old(pages) && nextUserId == old(nextUserId)
    {
      InsertIgnoreSpec(settings, defaults);
      settings := InsertIgnore(settings, defaults);
    }

    /**
     * The `while ($row = $stmt->fetch())` loop of `get_all`: each row's key is set to
     * its value in turn.
     */
    method AllSettings() returns (m: map<string, string>)
      ensures m == SettingsMap(settings)
    {
      m := map[];
      var i := 0;
      while i < |settings|
        invariant 0 <= i <= |settings|
        invariant m == SettingsMap(settings[..i])
      {
        assert settings[..i + 1][..i] == settings[..i];
        m := m[settings[i].key := settings[i].value];
        i := i + 1;
      }
      assert settings[..i] == settings;
    }
  }
}
