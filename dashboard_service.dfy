/**
 * src/services/dashboardService.ts: statistics, chart data and recent activity, each
 * served from demo data while the API is unreachable.
 *
 * The clock and `Math.random()` are parameters: `today` is a day number, `now` a time in
 * milliseconds, and `random(k)` the `k`-th random draw, a real in [0, 1). Turning a day
 * number into its `YYYY-MM-DD` text is not modelled.
 */
module DashboardService {
  import opened Wrappers
  import opened Js
  import opened Api
  import FallbackService

  function GetStats(available: bool, request: Outcome<ApiResponse<FallbackService.DemoStats>>)
    : Outcome<ApiResponse<FallbackService.DemoStats>>
  {
    Gated(available, FallbackService.GetDemoStats(), request)
  }

  /** One point of the chart: its day and three counts. */
  datatype ChartPoint = ChartPoint(day: int, users: int, pages: int, views: int)

  /** A random draw, as `Math.random()` promises it. */
  predicate IsDraw(x: real)
  {
    0.0 <= x < 1.0
  }

  /** `Math.floor(Math.random() * scale) + offset` for the `k`-th draw. */
  function Scaled(random: nat -> real, k: nat, scale: nat, offset: int): int
  {
    (random(k) * scale as real).Floor + offset
  }

  /** `period = '30'`: the parameter's default. */
  function PeriodText(period: Option<string>): string
  {
    if period.Some? then period.value else "30"
  }

  /**
   * The number of turns of the loop: `parseInt(period)` when that is a positive number;
   * none when it is zero, negative or `NaN` (`NaN - 1 >= 0` is false).
   */
  function ChartLength(period: Option<string>): (n: nat)
    ensures n > 0 <==> ParseInt(PeriodText(period)).Num? && ParseInt(PeriodText(period)).n > 0
    ensures n > 0 ==> n == ParseInt(PeriodText(period)).n
  {
    var v := ParseInt(PeriodText(period));
    if v.Num? && v.n > 0 then v.n else 0
  }

  /**
   * The point made on iteration `j` of `n` (counting from 0): its day lies `n - 1 - j`
   * days before today, and it takes the draws `3j`, `3j + 1` and `3j + 2`.
   */
  function Point(n: nat, j: nat, today: int, random: nat -> real): ChartPoint
  {
    ChartPoint(today - (n - 1 - j), Scaled(random, 3 * j, 10, 1), Scaled(random, 3 * j + 1, 15, 2),
               Scaled(random, 3 * j + 2, 100, 20))
  }

  /** The whole demo chart, the reference `BuildDemoChart` is proved against (its shape: `DemoChartShape`). */
  function DemoChart(n: nat, today: int, random: nat -> real): seq<ChartPoint>
  {
    seq(n, j requires 0 <= j < n => Point(n, j, today, random))
  }

  /**
   * The `for` loop that counts `i` down from `n - 1` to 0, pushing one point per turn
   * (`n` is `ChartLength(period)`).
   */
  method BuildDemoChart(n: nat, today: int, random: nat -> real) returns (chart: seq<ChartPoint>)
    ensures chart == DemoChart(n, today, random)
  {
    chart := [];
    var i: int := n - 1;
    while i >= 0
      invariant -1 <= i <= n - 1
      invariant |chart| == n - 1 - i
      invariant forall j :: 0 <= j < |chart| ==> chart[j] == Point(n, j, today, random)
      decreases i
    {
      var k := |chart|;
      var point := ChartPoint(today - i, Scaled(random, 3 * k, 10, 1), Scaled(random, 3 * k + 1, 15, 2),
                              Scaled(random, 3 * k + 2, 100, 20));
      assert point == Point(n, k, today, random);
      chart := chart + [point];
      i := i - 1;
    }
    assert chart == DemoChart(n, today, random);
  }

  /**
   * The demo chart covers the `n` consecutive days that end today, oldest first, and
   * every count lies in the range its formula allows: users 1..10, pages 2..16, views 20..119.
   */
  lemma {:induction false} DemoChartShape(n: nat, today: int, random: nat -> real)
    requires forall k: nat :: IsDraw(random(k))
    ensures var chart := DemoChart(n, today, random);
      (n > 0 ==> chart[n - 1].day == today) &&
      (forall j :: 0 <= j < n - 1 ==> chart[j + 1].day == chart[j].day + 1) &&
      forall j :: 0 <= j < n ==>
        1 <= chart[j].users <= 10 && 2 <= chart[j].pages <= 16 && 20 <= chart[j].views <= 119
  {
    var chart := DemoChart(n, today, random);
    forall j | 0 <= j < n
      ensures 1 <= chart[j].users <= 10 && 2 <= chart[j].pages <= 16 && 20 <= chart[j].views <= 119
    {
      ScaledRange(random, 3 * j, 10, 1);
      ScaledRange(random, 3 * j + 1, 15, 2);
      ScaledRange(random, 3 * j + 2, 100, 20);
    }
  }

  /** `Math.floor(x * scale) + offset` for a draw `x` lies in `offset .. offset + scale - 1`. */
  lemma ScaledRange(random: nat -> real, k: nat, scale: nat, offset: int)
    requires IsDraw(random(k)) && scale > 0
    ensures offset <= Scaled(random, k, scale, offset) <= offset + scale - 1
  {
    var x := random(k) * scale as real;
    assert 0.0 <= x < scale as real by {
      assert random(k) * scale as real < 1.0 * scale as real;
    }
  }

  /** Without a period the chart covers 30 days. */
  lemma DefaultPeriod()
    ensures ChartLength(None) == 30
  {
    assert ShowInt(30) == "30";
    ParseIntShowInt(30);
  }

  /** A period with no leading digit, such as `'all'`, gives an empty chart. */
  lemma UnparsablePeriod(period: string)
    requires |period| > 0 && !IsSpace(period[0]) && !IsDecimalDigit(period[0]) &&
             period[0] != '-' && period[0] != '+'
    ensures ChartLength(Some(period)) == 0
  {
    assert TrimStart(period) == period;
    assert DigitRun(period, false) == 0;
  }

  /**
   * `getChartData(period)`: the demo chart while the API is unreachable, else the
   * request's promise, not awaited.
   */
  method GetChartData(available: bool, period: Option<string>, today: int, random: nat -> real,
                      request: Outcome<ApiResponse<seq<ChartPoint>>>)
    returns (r: Outcome<ApiResponse<seq<ChartPoint>>>)
    ensures r == Gated(available, Succeed(DemoChart(ChartLength(period), today, random)), request)
  {
    if !available {
      var chart := BuildDemoChart(ChartLength(period), today, random);
      r := Resolved(Succeed(chart));
    } else {
      r := request;
    }
  }

  /** One entry of the demo activity feed; `timestamp` in milliseconds. */
  datatype Activity = Activity(id: int, user_email: string, action: string, details: string, timestamp: int)

  /** The demo feed at time `now`: a page creation now and a login an hour earlier. */
  function DemoActivity(now: int): (feed: seq<Activity>)
    ensures |feed| == 2 && feed[0].id == 1 && feed[1].id == 2
    ensures feed[0].timestamp == now && feed[1].timestamp == now - 3600000
  {
    [Activity(1, "user1@example.com", "created_page", "Создал страницу \"Мой блог\"", now),
     Activity(2, "user2@example.com", "login", "Вошел в систему", now - 3600000)]
  }

  function GetUserActivity(available: bool, now: int, request: Outcome<ApiResponse<seq<Activity>>>)
    : Outcome<ApiResponse<seq<Activity>>>
  {
    Gated(available, Succeed(DemoActivity(now)), request)
  }

  /**
   * Offline, the statistics and the activity feed are the demo ones; online, a rejected
   * request escapes all three methods, their demo `catch` branches unreachable.
   */
  lemma DashboardGated(error: Option<string>, now: int, s: Outcome<ApiResponse<FallbackService.DemoStats>>,
                       a: Outcome<ApiResponse<seq<Activity>>>)
    ensures GetStats(false, s) == Resolved(FallbackService.GetDemoStats())
    ensures GetUserActivity(false, now, a) == Resolved(Succeed(DemoActivity(now)))
    ensures GetStats(true, Rejected(error)).Rejected?
    ensures GetUserActivity(true, now, Rejected(error)).Rejected?
  {
  }
}
