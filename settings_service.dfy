/**
 * src/services/settingsService.ts: six availability-gated calls to api/settings.php,
 * each with the record it serves while the API is unreachable.
 *
 * Every method returns the request's promise without awaiting it, so its `catch` message
 * is unreachable for a rejected request (see `Api.Gated`). The check-time clock reading
 * of the demo system status is the parameter `lastCheck`.
 */
module SettingsService {
  import opened Wrappers
  import opened Api
  import Backend

  datatype EmailSettings = EmailSettings(smtp_host: string, smtp_port: string, smtp_username: string,
                                         smtp_password: string, smtp_encryption: string, admin_email: string)

  datatype DatabaseSettings = DatabaseSettings(host: string, database: string, username: string,
                                               password: string, port: string)

  datatype RoleLimit = RoleLimit(setting_key: string, setting_value: string, description: string)

  datatype SystemStatus = SystemStatus(overall: string, lastCheck: string,
                                       databaseStatus: string, connectionTime: int, lastBackup: string,
                                       size: string, serverStatus: string, uptime: string,
                                       memoryUsage: int, diskUsage: int)

  const DEMO_EMAIL: EmailSettings :=
    EmailSettings("smtp.gmail.com", "587", "", "", "tls", "admin@texttabs.com")

  const DEMO_ROLE_LIMITS: seq<RoleLimit> := [
    RoleLimit("user_page_limit", "10", "Максимальное количество страниц для обычного пользователя"),
    RoleLimit("premium_page_limit", "100", "Максимальное количество страниц для премиум пользователя")
  ]

  function DemoSystemStatus(lastCheck: string): SystemStatus
  {
    SystemStatus("healthy", lastCheck, "connected", 25, "2024-01-01T00:00:00Z", "256 MB",
                 "running", "5 дней", 45, 68)
  }

  const MSG_UPDATE_EMAIL_OFFLINE: string := "API недоступен. Сохранение настроек в демо режиме отключено."
  const MSG_TEST_DB_OFFLINE: string := "API недоступен для тестирования подключения"
  const MSG_UPDATE_LIMITS_OFFLINE: string := "API недоступен. Сохранение ограничений в демо режиме отключено."

  /** The `catch` messages, unreachable for a rejected request. */
  const MSG_GET_EMAIL_FAILED: string := "Ошибка получения настроек email"
  const MSG_UPDATE_EMAIL_FAILED: string := "Ошибка сохранения настроек email"
  const MSG_TEST_DB_FAILED: string := "Ошибка тестирования подключения"
  const MSG_GET_LIMITS_FAILED: string := "Ошибка получения ограничений ролей"
  const MSG_UPDATE_LIMITS_FAILED: string := "Ошибка сохранения ограничений ролей"
  const MSG_STATUS_FAILED: string := "Ошибка получения статуса системы"

  function GetEmailSettings(available: bool, request: Outcome<ApiResponse<EmailSettings>>)
    : Outcome<ApiResponse<EmailSettings>>
  {
    Gated(available, Succeed(DEMO_EMAIL), request)
  }

  function UpdateEmailSettings(available: bool, request: Outcome<ApiResponse<()>>): Outcome<ApiResponse<()>>
  {
    Gated(available, Failed(MSG_UPDATE_EMAIL_OFFLINE), request)
  }

  function TestDatabaseConnection(available: bool, request: Outcome<ApiResponse<()>>): Outcome<ApiResponse<()>>
  {
    Gated(available, Failed(MSG_TEST_DB_OFFLINE), request)
  }

  function GetRoleLimits(available: bool, request: Outcome<ApiResponse<seq<RoleLimit>>>)
    : Outcome<ApiResponse<seq<RoleLimit>>>
  {
    Gated(available, Succeed(DEMO_ROLE_LIMITS), request)
  }

  function UpdateRoleLimits(available: bool, request: Outcome<ApiResponse<()>>): Outcome<ApiResponse<()>>
  {
    Gated(available, Failed(MSG_UPDATE_LIMITS_OFFLINE), request)
  }

  function GetSystemStatus(available: bool, lastCheck: string, request: Outcome<ApiResponse<SystemStatus>>)
    : Outcome<ApiResponse<SystemStatus>>
  {
    Gated(available, Succeed(DemoSystemStatus(lastCheck)), request)
  }

  /**
   * Offline, the three reads succeed with their demo records and the three writes fail
   * with their own messages, none of them looking at the request.
   */
  lemma OfflineAnswers(e: Outcome<ApiResponse<EmailSettings>>, u: Outcome<ApiResponse<()>>,
                       l: Outcome<ApiResponse<seq<RoleLimit>>>, s: Outcome<ApiResponse<SystemStatus>>,
                       lastCheck: string)
    ensures GetEmailSettings(false, e) == Resolved(Succeed(DEMO_EMAIL))
    ensures UpdateEmailSettings(false, u) == Resolved(Failed(MSG_UPDATE_EMAIL_OFFLINE))
    ensures TestDatabaseConnection(false, u) == Resolved(Failed(MSG_TEST_DB_OFFLINE))
    ensures GetRoleLimits(false, l) == Resolved(Succeed(DEMO_ROLE_LIMITS))
    ensures UpdateRoleLimits(false, u) == Resolved(Failed(MSG_UPDATE_LIMITS_OFFLINE))
    ensures GetSystemStatus(false, lastCheck, s) == Resolved(Succeed(DemoSystemStatus(lastCheck)))
  {
  }

  /**
   * Online, a rejected request escapes every method; awaited, the same rejection would
   * have become the method's `catch` message.
   */
  lemma RejectionsEscape(error: Option<string>, lastCheck: string)
    ensures GetEmailSettings(true, Rejected(error)).Rejected?
    ensures UpdateEmailSettings(true, Rejected(error)).Rejected?
    ensures TestDatabaseConnection(true, Rejected(error)).Rejected?
    ensures GetRoleLimits(true, Rejected(error)).Rejected?
    ensures UpdateRoleLimits(true, Rejected(error)).Rejected?
    ensures GetSystemStatus(true, lastCheck, Rejected(error)).Rejected?
    ensures GatedAwaited(true, Succeed(DEMO_EMAIL), Rejected(error), Failed(MSG_GET_EMAIL_FAILED)) ==
            Resolved(Failed(MSG_GET_EMAIL_FAILED))
    ensures GatedAwaited<()>(true, Failed(MSG_UPDATE_EMAIL_OFFLINE), Rejected(error), Failed(MSG_UPDATE_EMAIL_FAILED)) ==
            Resolved(Failed(MSG_UPDATE_EMAIL_FAILED))
  {
  }

  /** The six calls, by the request each one sends. */
  datatype Call =
    | GetEmail
    | UpdateEmail(settings: EmailSettings)
    | TestDatabase(config: DatabaseSettings)
    | GetLimits
    | UpdateLimits(limits: seq<RoleLimit>)
    | GetStatus

  /** The `action` each call names. */
  function ActionOf(c: Call): string
  {
    match c
    case GetEmail => "get_all"
    case UpdateEmail(_) => "update_settings"
    case TestDatabase(_) => "test_db_connection"
    case GetLimits => "get_role_limits"
    case UpdateLimits(_) => "update_role_limits"
    case GetStatus => "get_system_status"
  }

  /**
   * The request as api/settings.php receives it: reads put the action in the query
   * string, writes in the JSON body, with the settings as key/value pairs and the
   * database form as `config`. The role limits travel under `limits`, which the
   * backend never reads.
   */
  function RequestFor(c: Call, headers: map<string, string>): (req: Backend.Request)
    ensures Backend.Action(req) == ActionOf(c)
  {
    match c
    case GetEmail => Backend.Request("GET", headers, map["action" := ActionOf(c)], map[], map[], [])
    case GetLimits => Backend.Request("GET", headers, map["action" := ActionOf(c)], map[], map[], [])
    case GetStatus => Backend.Request("GET", headers, map["action" := ActionOf(c)], map[], map[], [])
    case UpdateEmail(s) =>
      Backend.Request("POST", headers, map[], map["action" := ActionOf(c)], map[],
                      [("smtp_host", s.smtp_host), ("smtp_port", s.smtp_port),
                       ("smtp_username", s.smtp_username), ("smtp_password", s.smtp_password),
                       ("smtp_encryption", s.smtp_encryption), ("admin_email", s.admin_email)])
    case TestDatabase(d) =>
      Backend.Request("POST", headers, map[], map["action" := ActionOf(c)],
                      map["host" := d.host, "database" := d.database, "username" := d.username,
                          "password" := d.password, "port" := d.port], [])
    case UpdateLimits(_) => Backend.Request("POST", headers, map[], map["action" := ActionOf(c)], map[], [])
  }

  /** The actions api/settings.php answers; every other one gets `Неизвестное действие`. */
  predicate Handled(action: string)
  {
    action in {"test_db_connection", "create_tables", "get_all", "update_settings"}
  }

  /**
   * Three of the six calls name an action api/settings.php does not have: online, the
   * role limits and the system status can only ever come back as that error.
   */
  lemma UnhandledCalls(c: Call, headers: map<string, string>)
    ensures Handled(Backend.Action(RequestFor(c, headers))) <==> c.GetEmail? || c.UpdateEmail? || c.TestDatabase?
  {
  }

  /**
   * The e-mail form reaches `update_settings` as six pairs with distinct keys, so each
   * field is stored under its own key.
   */
  lemma EmailPairsDistinct(s: EmailSettings, headers: map<string, string>)
    ensures var pairs := RequestFor(UpdateEmail(s), headers).settings;
      |pairs| == 6 && forall a, b :: 0 <= a < b < |pairs| ==> pairs[a].0 != pairs[b].0
  {
  }
}
