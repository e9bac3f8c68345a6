/**
 * src/services/fallbackService.ts: the availability probe, the demo records served when
 * the API is unreachable, and the demo-mode warning.
 *
 * The probe's `fetch` is I/O: its result is the parameter `probe`. The demo records'
 * `new Date().toISOString()` timestamps are not modelled.
 */
module FallbackService {
  import opened Wrappers
  import opened Api

  /** What the probe `fetch('/api/auth.php?action=ping')` produced. */
  datatype Probe = Answered(status: int) | Threw

  /** `isApiAvailable()`: 400 counts as reachable, since auth.php answers an unknown action with 400. */
  predicate IsApiAvailable(probe: Probe)
  {
    match probe
    case Answered(status) => status == 200 || status == 400
    case Threw => false
  }

  /** Only the statuses 200 and 400 count; every other status and a failed fetch do not. */
  lemma AvailabilityRule(status: int)
    ensures IsApiAvailable(Answered(status)) <==> status in {200, 400}
    ensures !IsApiAvailable(Threw)
    ensures !IsApiAvailable(Answered(401)) && !IsApiAvailable(Answered(404)) && !IsApiAvailable(Answered(500))
  {
  }

  datatype DemoUser = DemoUser(id: int, email: string, role: string, status: string)

  datatype DemoPage = DemoPage(id: int, userId: int, title: string, content: string, urlSlug: string,
                               isPublic: bool, viewsCount: int)

  datatype DemoStats = DemoStats(totalUsers: int, totalPages: int, totalViews: int,
                                 newUsersToday: int, newPagesToday: int, verifiedUsers: int,
                                 pendingUsers: int, blockedUsers: int, publicPages: int,
                                 privatePages: int)

  /** `{items, total, page, limit}` with the items under `users` or `pages`. */
  datatype Paged<T> = Paged(items: seq<T>, total: int, page: int, limit: int)

  const DEMO_USERS: seq<DemoUser> := [
    DemoUser(1, "admin@texttabs.com", "admin", "verified"),
    DemoUser(2, "user@example.com", "user", "verified")
  ]

  const DEMO_PAGES: seq<DemoPage> := [
    DemoPage(1, 2, "Пример страницы",
             "<h1>Демо контент</h1><p>Это пример страницы пользователя.</p>",
             "example-page", true, 150)
  ]

  const DEMO_STATS: DemoStats := DemoStats(125, 45, 2340, 5, 3, 98, 12, 2, 35, 10)

  const DEMO_WARNING: string := "⚠️ Приложение работает в демо режиме. База данных недоступна."

  /** `getDemoUsers()`: a successful page 1 of 20 holding the demo users, with their count as total. */
  function GetDemoUsers(): (r: ApiResponse<Paged<DemoUser>>)
    ensures r.success && r.data.Some?
    ensures r.data.value.total == |r.data.value.items| && r.data.value.page == 1 && r.data.value.limit == 20
  {
    Succeed(Paged(DEMO_USERS, |DEMO_USERS|, 1, 20))
  }

  /** `getDemoPages()`: the same shape for the demo pages. */
  function GetDemoPages(): (r: ApiResponse<Paged<DemoPage>>)
    ensures r.success && r.data.Some?
    ensures r.data.value.total == |r.data.value.items| && r.data.value.page == 1 && r.data.value.limit == 20
  {
    Succeed(Paged(DEMO_PAGES, |DEMO_PAGES|, 1, 20))
  }

  /** `getDemoStats()`: public and private pages add up to all pages. */
  function GetDemoStats(): (r: ApiResponse<DemoStats>)
    ensures r.success && r.data.Some?
    ensures r.data.value.publicPages + r.data.value.privatePages == r.data.value.totalPages
    ensures r.data.value.verifiedUsers + r.data.value.pendingUsers + r.data.value.blockedUsers <= r.data.value.totalUsers
  {
    Succeed(DEMO_STATS)
  }

  datatype DemoSettings = DemoSettings(smtpHost: string, smtpPort: string, smtpUsername: string,
                                       smtpPassword: string, smtpEncryption: string, siteUrl: string,
                                       adminEmail: string, userPageLimit: string, premiumPageLimit: string)

  /**
   * `getDemoSettings()`, with `window.location.origin` as the parameter `origin`. Its
   * premium limit is `'0'`, unlike the `'100'` of the settings service's demo limits.
   */
  function GetDemoSettings(origin: string): (r: ApiResponse<DemoSettings>)
    ensures r.success && r.data.Some?
    ensures r.data.value.siteUrl == origin
    ensures r.data.value.smtpPort == "587" && r.data.value.premiumPageLimit == "0"
  {
    Succeed(DemoSettings("", "587", "", "", "tls", origin, "admin@texttabs.com", "10", "0"))
  }

  /** `showDemoNotification()`: one more warning on the console, every time. */
  function ShowDemoNotification(console: seq<string>): seq<string>
  {
    console + [DEMO_WARNING]
  }

  /** `n` calls in a row. */
  function ShowDemoNotificationTimes(console: seq<string>, n: nat): seq<string>
  {
    if n == 0 then console else ShowDemoNotification(ShowDemoNotificationTimes(console, n - 1))
  }

  /** No call is suppressed: `n` calls add exactly `n` warnings after what was there. */
  lemma {:induction false} EveryCallWarns(console: seq<string>, n: nat)
    ensures var out := ShowDemoNotificationTimes(console, n);
      |out| == |console| + n && out[..|console|] == console &&
      forall i :: |console| <= i < |out| ==> out[i] == DEMO_WARNING
  {
    if n > 0 {
      EveryCallWarns(console, n - 1);
    }
  }
}
