/**
 * The backend hooks of the custom analytics dashboard plugin
 * (plugins/custom-analytics-dashboard/backend/hooks.py), as handlers the
 * dispatcher of PluginSystem can run.
 *
 * The random numbers the plugin draws are a record of parameters whose
 * ranges are stated by a predicate; the clock is passed in as whole seconds
 * and as its ISO-8601 text.
 */
module AnalyticsHooks {
  import opened Common
  import opened Values
  import opened PluginSystem

  // ---------------------------------------------------------------------------
  // dashboard_stats
  // ---------------------------------------------------------------------------

  /** The random.randint draws of one dashboard_stats call. */
  datatype StatsDraw = StatsDraw(pageViews: int, uniqueVisitors: int, bounceRate: int, increase: int)

  /** The inclusive ranges randint draws from. */
  predicate ValidStatsDraw(d: StatsDraw) {
    && 10000 <= d.pageViews <= 15000
    && 2000 <= d.uniqueVisitors <= 4000
    && 25 <= d.bounceRate <= 40
    && 5 <= d.increase <= 25
  }

  /** The four entries merged into `stats`. */
  function CustomStats(d: StatsDraw): map<string, Value>
    requires ValidStatsDraw(d)
  {
    map[
      "page_views" := Int(d.pageViews),
      "unique_visitors" := Int(d.uniqueVisitors),
      "bounce_rate" := Str(NatToString(d.bounceRate) + "%"),
      "analytics_enabled" := Bool(true)]
  }

  const CustomStatKeys: set<string> := {"page_views", "unique_visitors", "bounce_rate", "analytics_enabled"}

  /** The activity entry placed at the head of `recent_activity`. */
  function AnalyticsEntry(d: StatsDraw, nowIso: string): (v: Value)
    requires ValidStatsDraw(d)
    ensures v.Dict? && "type" in v.fields && "title" in v.fields
    ensures v.fields["type"] == Str("analytics")
    ensures v.fields["title"].Str? && Contains(v.fields["title"].s, Grouped(d.pageViews))
  {
    var title := "Analytics Update: " + Grouped(d.pageViews) + " page views today";
    ContainsMiddle("Analytics Update: ", Grouped(d.pageViews), " page views today");
    Dict(map[
      "type" := Str("analytics"),
      "title" := Str(title),
      "description" := Str("Traffic increased by " + NatToString(d.increase) + "% compared to yesterday"),
      "timestamp" := Str(nowIso),
      "icon" := Str("TrendingUp")])
  }

  /** `data.get('stats', {})` when it supports `.update`: absent means {}, a dict its fields; anything else raises. */
  function StatsOf(data: Payload): Option<map<string, Value>> {
    if "stats" !in data then Some(map[])
    else if data["stats"].Dict? then Some(data["stats"].fields)
    else None
  }

  /** `data.get('recent_activity', [])` when it supports `.insert`: absent means [], a list its items; anything else raises. */
  function ActivityOf(data: Payload): Option<seq<Value>> {
    if "recent_activity" !in data then Some([])
    else if data["recent_activity"].List? then Some(data["recent_activity"].items)
    else None
  }

  /**
   * dashboard_stats(data): merges the four analytics stats into `stats` and
   * puts one analytics entry at the head of `recent_activity`; every other
   * key is returned as it came. A `stats` that is not a dict, or a
   * `recent_activity` that is not a list, makes the handler raise.
   */
  function DashboardStatsHook(d: StatsDraw, nowIso: string, data: Payload): (r: HandlerOutcome)
    requires ValidStatsDraw(d)
    ensures r.Returned? <==> StatsOf(data).Some? && ActivityOf(data).Some?
    ensures r.ReturnedNone? == false
    ensures r.Returned? ==> AgreeOutside(data, r.value, {"stats", "recent_activity"})
    ensures r.Returned? ==>
      && "stats" in r.value && r.value["stats"].Dict?
      && r.value["stats"].fields.Keys == StatsOf(data).value.Keys + CustomStatKeys
      && (forall k | k in StatsOf(data).value && k !in CustomStatKeys :: r.value["stats"].fields[k] == StatsOf(data).value[k])
      && r.value["stats"].fields["page_views"] == Int(d.pageViews)
      && r.value["stats"].fields["unique_visitors"] == Int(d.uniqueVisitors)
      && r.value["stats"].fields["analytics_enabled"] == Bool(true)
    ensures r.Returned? ==>
      && "recent_activity" in r.value && r.value["recent_activity"].List?
      && |r.value["recent_activity"].items| == |ActivityOf(data).value| + 1
      && r.value["recent_activity"].items[0] == AnalyticsEntry(d, nowIso)
      && r.value["recent_activity"].items[1..] == ActivityOf(data).value
  {
    match StatsOf(data)
    case None => Raised("AttributeError: 'stats' has no attribute 'update'")
    case Some(stats) =>
      match ActivityOf(data)
      case None => Raised("AttributeError: 'recent_activity' has no attribute 'insert'")
      case Some(activity) =>
        var items := [AnalyticsEntry(d, nowIso)] + activity;
        assert items[1..] == activity;
        Returned(data["stats" := Dict(stats + CustomStats(d))]["recent_activity" := List(items)])
  }

  /** The reported figures stay inside the ranges the plugin draws from. */
  lemma DashboardStatsBounds(d: StatsDraw, nowIso: string, data: Payload)
    requires ValidStatsDraw(d)
    requires DashboardStatsHook(d, nowIso, data).Returned?
    ensures var stats := DashboardStatsHook(d, nowIso, data).value["stats"].fields;
      && stats["page_views"].Int? && 10000 <= stats["page_views"].i <= 15000
      && stats["unique_visitors"].Int? && 2000 <= stats["unique_visitors"].i <= 4000
  {
    var r := DashboardStatsHook(d, nowIso, data);
    assert r.value["stats"].fields["page_views"] == Int(d.pageViews);
  }

  /**
   * As a registered handler, dashboard_stats keeps every key except `stats`
   * and `recent_activity`, so FoldKeepsOutside applies to it.
   */
  lemma DashboardStatsKeepsOtherKeys(d: StatsDraw, nowIso: string, pid: string)
    requires ValidStatsDraw(d)
    ensures KeepsOutside(Handler(pid, DashboardStatsFn(d, nowIso)), {"stats", "recent_activity"})
  {
    var h := Handler(pid, DashboardStatsFn(d, nowIso));
    forall p: Payload | h.run(p).Returned?
      ensures AgreeOutside(p, h.run(p).value, {"stats", "recent_activity"})
    {
      assert h.run(p) == DashboardStatsHook(d, nowIso, p);
    }
  }

  // ---------------------------------------------------------------------------
  // before_post_save and after_post_save
  // ---------------------------------------------------------------------------

  /** Python's str() of a post id for the scalar kinds an id takes. */
  function IdText(v: Value): string {
    match v
    case Str(s) => s
    case Int(i) => IntToString(i)
    case Bool(b) => if b then "True" else "False"
    case Null => "None"
    case _ => ""
  }

  function TrackingId(data: Payload, nowSeconds: int): string {
    "post_" + IdText(Get(data, "id", Str("new"))) + "_" + IntToString(nowSeconds)
  }

  /** before_post_save(post_data): stores the tracking record under `analytics` and returns the post. */
  function BeforePostSave(nowSeconds: int, nowIso: string, data: Payload): (r: Payload)
    ensures "analytics" in r && r["analytics"].Dict?
    ensures r["analytics"].fields.Keys == {"tracked", "tracking_id", "created_at"}
    ensures r["analytics"].fields["tracked"] == Bool(true)
    ensures r["analytics"].fields["tracking_id"] == Str(TrackingId(data, nowSeconds))
    ensures r["analytics"].fields["created_at"] == Str(nowIso)
    ensures r.Keys == data.Keys + {"analytics"}
    ensures AgreeOutside(data, r, {"analytics"})
  {
    data["analytics" := Dict(map[
      "tracked" := Bool(true),
      "tracking_id" := Str(TrackingId(data, nowSeconds)),
      "created_at" := Str(nowIso)])]
  }

  /** A post without an id is tracked as "new". */
  lemma NewPostTrackingId(nowSeconds: int, data: Payload)
    requires "id" !in data
    ensures TrackingId(data, nowSeconds) == "post_new_" + IntToString(nowSeconds)
  {
    assert Get(data, "id", Str("new")) == Str("new");
  }

  /**
   * after_post_save(post_data): returns the post unchanged. Its log line
   * calls `.get` on `post_data['analytics']`, so an `analytics` entry that is
   * not a dict makes it raise.
   */
  function AfterPostSave(data: Payload): (r: HandlerOutcome)
    ensures r.Raised? <==> "analytics" in data && !data["analytics"].Dict?
    ensures !r.Raised? ==> r == Returned(data)
  {
    if "analytics" in data && !data["analytics"].Dict? then
      Raised("AttributeError: 'analytics' has no attribute 'get'")
    else Returned(data)
  }

  /** A post that went through before_post_save passes after_post_save unchanged. */
  lemma AfterFollowsBefore(nowSeconds: int, nowIso: string, data: Payload)
    ensures AfterPostSave(BeforePostSave(nowSeconds, nowIso, data)) == Returned(BeforePostSave(nowSeconds, nowIso, data))
  {
    var b := BeforePostSave(nowSeconds, nowIso, data);
    assert b["analytics"].Dict?;
  }

  // ---------------------------------------------------------------------------
  // get_analytics_data
  // ---------------------------------------------------------------------------

  /** The random.randint draws of one get_analytics_data call. */
  datatype AnalyticsDraw = AnalyticsDraw(
    pageViews: int, uniqueVisitors: int, bounceRate: int,
    topViews: seq<int>,
    direct: int, search: int, social: int, referral: int)

  predicate ValidAnalyticsDraw(d: AnalyticsDraw) {
    && 50000 <= d.pageViews <= 100000
    && 10000 <= d.uniqueVisitors <= 25000
    && 25 <= d.bounceRate <= 45
    && |d.topViews| == 4
    && 5000 <= d.topViews[0] <= 10000
    && 2000 <= d.topViews[1] <= 5000
    && 1000 <= d.topViews[2] <= 3000
    && 500 <= d.topViews[3] <= 1500
    && 30 <= d.direct <= 50 && 25 <= d.search <= 40
    && 10 <= d.social <= 20 && 5 <= d.referral <= 15
  }

  /** Length of the period in days and the traffic multiplier: 7 days x1, 90 days x3, anything else 30 days x2. */
  function PeriodDays(period: string): nat {
    if period == "7days" then 7 else if period == "90days" then 90 else 30
  }

  function Multiplier(period: string): (m: nat)
    ensures period == "7days" ==> m == 1
    ensures period == "90days" ==> m == 3
    ensures period != "7days" && period != "90days" ==> m == 2
  {
    if period == "7days" then 1 else if period == "90days" then 3 else 2
  }

  const TopPaths: seq<string> := ["/", "/blog", "/about", "/contact"]

  function Percent(n: nat): Value {
    Str(NatToString(n) + "%")
  }

  /**
   * get_analytics_data(period): the report for the period ending at `now`;
   * `iso` renders a time in seconds as ISO-8601 text.
   */
  function GetAnalyticsData(period: string, d: AnalyticsDraw, now: int, iso: int -> string): (r: map<string, Value>)
    requires ValidAnalyticsDraw(d)
    ensures r.Keys == {"period", "start_date", "end_date", "total_page_views", "unique_visitors", "bounce_rate", "top_pages", "traffic_sources"}
    ensures r["period"] == Str(period)
    ensures r["end_date"] == Str(iso(now)) && r["start_date"] == Str(iso(now - PeriodDays(period) * 86400))
    ensures r["total_page_views"] == Int(d.pageViews * Multiplier(period))
    ensures r["unique_visitors"] == Int(d.uniqueVisitors * Multiplier(period))
    ensures r["top_pages"].List? && |r["top_pages"].items| == 4
    ensures forall i | 0 <= i < 4 :: r["top_pages"].items[i] == Dict(map["path" := Str(TopPaths[i]), "views" := Int(d.topViews[i])])
  {
    var m := Multiplier(period);
    map[
      "period" := Str(period),
      "start_date" := Str(iso(now - PeriodDays(period) * 86400)),
      "end_date" := Str(iso(now)),
      "total_page_views" := Int(d.pageViews * m),
      "unique_visitors" := Int(d.uniqueVisitors * m),
      "bounce_rate" := Percent(d.bounceRate),
      "top_pages" := List(seq(4, i requires 0 <= i < 4 => Dict(map["path" := Str(TopPaths[i]), "views" := Int(d.topViews[i])]))),
      "traffic_sources" := Dict(map[
        "direct" := Percent(d.direct),
        "search" := Percent(d.search),
        "social" := Percent(d.social),
        "referral" := Percent(d.referral)])]
  }

  /** Total page views scale with the period: between 50000 and 100000 per multiplier step. */
  lemma AnalyticsPageViewsBounds(period: string, d: AnalyticsDraw, now: int, iso: int -> string)
    requires ValidAnalyticsDraw(d)
    ensures var v := GetAnalyticsData(period, d, now, iso)["total_page_views"].i;
      50000 * Multiplier(period) <= v <= 100000 * Multiplier(period)
  {
    var m := Multiplier(period);
    assert GetAnalyticsData(period, d, now, iso)["total_page_views"].i == d.pageViews * m;
    assert 50000 * m <= d.pageViews * m <= 100000 * m by {
      if m == 1 {
      } else if m == 2 {
      } else {
      }
    }
  }

  // ---------------------------------------------------------------------------
  // The module as the plugin manager imports it
  // ---------------------------------------------------------------------------

  /** dashboard_stats with its draws and clock fixed, as a hook function. */
  function DashboardStatsFn(d: StatsDraw, nowIso: string): HookFn
    requires ValidStatsDraw(d)
  {
    (p: Payload) => DashboardStatsHook(d, nowIso, p)
  }

  function BeforePostSaveFn(nowSeconds: int, nowIso: string): HookFn {
    (p: Payload) => Returned(BeforePostSave(nowSeconds, nowIso, p))
  }

  function AfterPostSaveFn(): HookFn {
    (p: Payload) => AfterPostSave(p)
  }

  /** get_analytics_data run by the dispatcher: its dict result cannot be awaited. */
  function GetAnalyticsDataFn(): HookFn {
    (p: Payload) => Raised("TypeError: object dict can't be used in 'await' expression")
  }

  /**
   * The functions hooks.py exports. get_analytics_data is a plain function:
   * called by the dispatcher, its dict result cannot be awaited, so it raises.
   */
  function AnalyticsModule(d: StatsDraw, nowSeconds: int, nowIso: string): (m: HooksModule)
    requires ValidStatsDraw(d)
    ensures m.Keys == {"dashboard_stats", "before_post_save", "after_post_save", "get_analytics_data"}
    ensures forall p: Payload :: m["get_analytics_data"](p).Raised?
    ensures forall p: Payload :: m["before_post_save"](p) == Returned(BeforePostSave(nowSeconds, nowIso, p))
  {
    map[
      "dashboard_stats" := DashboardStatsFn(d, nowIso),
      "before_post_save" := BeforePostSaveFn(nowSeconds, nowIso),
      "after_post_save" := AfterPostSaveFn(),
      "get_analytics_data" := GetAnalyticsDataFn()]
  }

  /**
   * Registered for both save hooks, the plugin turns a post into the tracked
   * post and reports both handlers as successful.
   */
  lemma SaveHooksCompose(d: StatsDraw, nowSeconds: int, nowIso: string, pid: string, post: Payload)
    requires ValidStatsDraw(d)
    ensures var m := AnalyticsModule(d, nowSeconds, nowIso);
      var hs := [Handler(pid, m["before_post_save"]), Handler(pid, m["after_post_save"])];
      && Fold(hs, post) == BeforePostSave(nowSeconds, nowIso, post)
      && Trace(hs, post) == [Succeeded(pid), Succeeded(pid)]
  {
    var m := AnalyticsModule(d, nowSeconds, nowIso);
    var hs := [Handler(pid, m["before_post_save"]), Handler(pid, m["after_post_save"])];
    var b := BeforePostSave(nowSeconds, nowIso, post);
    assert hs[..1] == [hs[0]] && hs[..1][..0] == [];
    assert Fold(hs[..1], post) == b;
    AfterFollowsBefore(nowSeconds, nowIso, post);
    assert m["after_post_save"](b) == Returned(b);
    TraceAt(hs, post);
    assert Trace(hs, post)[0] == Outcome(hs[0], post) == Succeeded(pid);
    assert Trace(hs, post)[1] == Outcome(hs[1], b) == Succeeded(pid);
  }
}
