/**
 * The dashboard endpoints of backend/routes/dashboard_routes.py: role-gated
 * counts and activity lists assembled from query results, passed through the
 * plugin dispatcher, and returned.
 *
 * The authenticated user, the collections and the query results are inputs;
 * `iso` renders a stored time as ISO-8601 text.
 */
module DashboardRoutes {
  import opened Common
  import opened Values
  import opened Models
  import opened Sorting
  import opened Store
  import opened PluginSystem
  import AnalyticsHooks

  const InternalServerError := 500

  /** The "current_user" entry every dashboard hook payload carries. */
  function CurrentUserValue(u: User): Value {
    Dict(map["id" := Str(u.id), "role" := Str(RoleValue(u.role)), "name" := Str(u.name)])
  }

  predicate EditorOrAdmin(u: User) {
    u.role == Admin || u.role == Editor
  }

  /** The posts an author's dashboard counts and lists: only their own; everyone else sees all posts. */
  function PostFilter(u: User): Post -> bool {
    (p: Post) => u.role != Author || p.authorId == u.id
  }

  function PageFilter(u: User): Page -> bool {
    (p: Page) => u.role != Author || p.authorId == u.id
  }

  function IsActivePlugin(p: Plugin): bool {
    p.status == Active
  }

  function IsActiveUser(u: User): bool {
    u.isActive
  }

  // ---------------------------------------------------------------------------
  // GET /dashboard/stats
  // ---------------------------------------------------------------------------

  function PostActivity(users: seq<User>, iso: int -> string, p: Post): Value {
    Dict(map[
      "type" := Str("post"),
      "message" := Str("Post '" + p.title + "' was " + StatusValue(p.status)),
      "time" := Str(iso(p.createdAt)),
      "icon" := Str("FileText"),
      "author" := Str(AuthorName(users, p.authorId))])
  }

  function PluginActivity(iso: int -> string, p: Plugin): Value {
    Dict(map[
      "type" := Str("plugin"),
      "message" := Str("Plugin '" + p.name + "' was activated"),
      "time" := Str(match p.updatedAt case Some(t) => iso(t) case None => ""),
      "icon" := Str("Puzzle")])
  }

  function PostActivities(users: seq<User>, iso: int -> string, posts: seq<Post>): seq<Value> {
    MapSeq(posts, (p: Post) => PostActivity(users, iso, p))
  }

  function PluginActivities(iso: int -> string, plugins: seq<Plugin>): seq<Value> {
    MapSeq(plugins, (p: Plugin) => PluginActivity(iso, p))
  }

  /** recent_activity before the hooks run: the recent posts, then (for admin and editor) the recently activated plugins. */
  function RecentActivity(u: User, users: seq<User>, iso: int -> string, posts: seq<Post>, plugins: seq<Plugin>): seq<Value> {
    PostActivities(users, iso, posts) + (if EditorOrAdmin(u) then PluginActivities(iso, plugins) else [])
  }

  function TotalPosts(u: User, db: Db): nat {
    Count(db.posts, PostFilter(u))
  }

  function TotalPages(u: User, db: Db): nat {
    Count(db.pages, PageFilter(u))
  }

  function TotalUsers(u: User, db: Db): nat {
    if EditorOrAdmin(u) then Count(db.users, IsActiveUser) else 0
  }

  function ActivePlugins(db: Db): nat {
    Count(db.plugins, IsActivePlugin)
  }

  /** The payload handed to the "dashboard_stats" hook. */
  function StatsPayload(u: User, db: Db, activity: seq<Value>): Payload {
    map[
      "total_posts" := Int(TotalPosts(u, db)),
      "total_pages" := Int(TotalPages(u, db)),
      "total_users" := Int(TotalUsers(u, db)),
      "active_plugins" := Int(ActivePlugins(db)),
      "recent_activity" := List(activity),
      "current_user" := CurrentUserValue(u)]
  }

  /** DashboardStats(**data), with a validation failure turned into the route's 500. */
  function StatsResponse(data: Payload): (r: Result<DashboardStats, HttpError>)
    ensures r.Ok? <==> ParseDashboardStats(data).Ok?
    ensures r.Ok? ==> r == ParseDashboardStats(data)
    ensures r.Err? ==> r.error == HttpError(InternalServerError, "Failed to fetch dashboard statistics")
  {
    match ParseDashboardStats(data)
    case Ok(s) => Ok(s)
    case Err(_) => Err(HttpError(InternalServerError, "Failed to fetch dashboard statistics"))
  }

  /** The recent_activity list, built by the route's two append loops. */
  method BuildRecentActivity(u: User, users: seq<User>, iso: int -> string, posts: seq<Post>, plugins: seq<Plugin>)
    returns (activity: seq<Value>)
    ensures activity == RecentActivity(u, users, iso, posts, plugins)
  {
    activity := [];
    var i := 0;
    while i < |posts|
      invariant 0 <= i <= |posts|
      invariant activity == PostActivities(users, iso, posts[..i])
    {
      assert posts[..i + 1][..i] == posts[..i];
      activity := activity + [PostActivity(users, iso, posts[i])];
      i := i + 1;
    }
    assert posts[..i] == posts;
    if EditorOrAdmin(u) {
      var j := 0;
      while j < |plugins|
        invariant 0 <= j <= |plugins|
        invariant activity == PostActivities(users, iso, posts) + PluginActivities(iso, plugins[..j])
      {
        assert plugins[..j + 1][..j] == plugins[..j];
        activity := activity + [PluginActivity(iso, plugins[j])];
        j := j + 1;
      }
      assert plugins[..j] == plugins;
    }
  }

  /**
   * get_dashboard_stats: counts (restricted to the author's own content for
   * an author), the recent activity, the "dashboard_stats" hook, then
   * validation into DashboardStats.
   */
  method GetDashboardStats(pm: PluginManager, u: User, db: Db, iso: int -> string,
                           recentPosts: seq<Post>, recentPlugins: seq<Plugin>)
    returns (r: Result<DashboardStats, HttpError>)
    requires QueryResult(recentPosts, db.posts, PostFilter(u), 3)
    requires QueryResult(recentPlugins, db.plugins, IsActivePlugin, 2)
    ensures r == StatsResponse(Fold(HandlersFor(pm.hookRegistry, "dashboard_stats"),
                                    StatsPayload(u, db, RecentActivity(u, db.users, iso, recentPosts, recentPlugins))))
  {
    var activity := BuildRecentActivity(u, db.users, iso, recentPosts, recentPlugins);
    var payload := StatsPayload(u, db, activity);
    var hookResult := pm.ExecuteHook("dashboard_stats", Some(payload));
    r := StatsResponse(hookResult.data);
  }

  /**
   * recent_activity holds at most 3 post entries, first; plugin entries
   * follow, at most 2, and only for admin and editor.
   */
  lemma RecentActivityShape(u: User, db: Db, iso: int -> string, posts: seq<Post>, plugins: seq<Plugin>)
    requires QueryResult(posts, db.posts, PostFilter(u), 3)
    requires QueryResult(plugins, db.plugins, IsActivePlugin, 2)
    ensures var a := RecentActivity(u, db.users, iso, posts, plugins);
      && |posts| <= 3
      && |a| == |posts| + (if EditorOrAdmin(u) then |plugins| else 0) <= 5
      && (forall i | 0 <= i < |posts| :: a[i].Dict? && a[i].fields["type"] == Str("post"))
      && (forall i | |posts| <= i < |a| :: a[i].Dict? && a[i].fields["type"] == Str("plugin"))
      && (u.role == Author ==> |a| == |posts|)
  {
    var pa := PostActivities(db.users, iso, posts);
    var la := if EditorOrAdmin(u) then PluginActivities(iso, plugins) else [];
    PostActivitiesKind(db.users, iso, posts);
    PluginActivitiesKind(iso, plugins);
    var a := pa + la;
    forall i | |posts| <= i < |a|
      ensures a[i].Dict? && a[i].fields["type"] == Str("plugin")
    {
      assert a[i] == la[i - |posts|];
    }
  }

  lemma PostActivitiesKind(users: seq<User>, iso: int -> string, posts: seq<Post>)
    ensures forall i | 0 <= i < |posts| ::
      PostActivities(users, iso, posts)[i].Dict? && PostActivities(users, iso, posts)[i].fields["type"] == Str("post")
  {
    forall i | 0 <= i < |posts|
      ensures PostActivities(users, iso, posts)[i].Dict? && PostActivities(users, iso, posts)[i].fields["type"] == Str("post")
    {
      assert PostActivities(users, iso, posts)[i] == PostActivity(users, iso, posts[i]);
    }
  }

  lemma PluginActivitiesKind(iso: int -> string, plugins: seq<Plugin>)
    ensures forall i | 0 <= i < |plugins| ::
      PluginActivities(iso, plugins)[i].Dict? && PluginActivities(iso, plugins)[i].fields["type"] == Str("plugin")
  {
    forall i | 0 <= i < |plugins|
      ensures PluginActivities(iso, plugins)[i].Dict? && PluginActivities(iso, plugins)[i].fields["type"] == Str("plugin")
    {
      assert PluginActivities(iso, plugins)[i] == PluginActivity(iso, plugins[i]);
    }
  }

  /** An author's counts cover only their own posts and pages, and they see no user count. */
  lemma AuthorCountsOwnContent(u: User, db: Db)
    requires u.role == Author
    ensures TotalPosts(u, db) == Count(db.posts, (p: Post) => p.authorId == u.id)
    ensures TotalPages(u, db) == Count(db.pages, (p: Page) => p.authorId == u.id)
    ensures TotalUsers(u, db) == 0
  {
    CountSame(db.posts, PostFilter(u), (p: Post) => p.authorId == u.id);
    CountSame(db.pages, PageFilter(u), (p: Page) => p.authorId == u.id);
  }

  lemma {:induction false} CountSame<T>(s: seq<T>, p: T -> bool, q: T -> bool)
    requires forall x :: p(x) == q(x)
    ensures Count(s, p) == Count(s, q)
  {
    if s != [] {
      CountSame(s[..|s| - 1], p, q);
    }
  }

  /** With no "dashboard_stats" handler the route returns exactly the counted stats and the built activity. */
  lemma StatsWithoutHandlers(u: User, db: Db, activity: seq<Value>)
    requires AllDicts(activity)
    ensures StatsResponse(Fold([], StatsPayload(u, db, activity)))
         == Ok(DashboardStats(TotalPosts(u, db), TotalPages(u, db), TotalUsers(u, db), ActivePlugins(db), Dicts(activity)))
  {
    var p := StatsPayload(u, db, activity);
    StatsPayloadFields(u, db, activity);
    ParseCountsAndActivity(p, TotalPosts(u, db), TotalPages(u, db), TotalUsers(u, db), ActivePlugins(db), activity);
  }

  /** The four counts and the activity list of the stats payload. */
  lemma StatsPayloadFields(u: User, db: Db, activity: seq<Value>)
    ensures var p := StatsPayload(u, db, activity);
      && "total_posts" in p && p["total_posts"] == Int(TotalPosts(u, db))
      && "total_pages" in p && p["total_pages"] == Int(TotalPages(u, db))
      && "total_users" in p && p["total_users"] == Int(TotalUsers(u, db))
      && "active_plugins" in p && p["active_plugins"] == Int(ActivePlugins(db))
      && "recent_activity" in p && p["recent_activity"] == List(activity)
  {
  }

  /** A payload with four integer counts and a list of dicts validates to exactly those values. */
  lemma ParseCountsAndActivity(d: map<string, Value>, posts: int, pages: int, users: int, plugins: int, items: seq<Value>)
    requires "total_posts" in d && d["total_posts"] == Int(posts)
    requires "total_pages" in d && d["total_pages"] == Int(pages)
    requires "total_users" in d && d["total_users"] == Int(users)
    requires "active_plugins" in d && d["active_plugins"] == Int(plugins)
    requires "recent_activity" in d && d["recent_activity"] == List(items)
    requires AllDicts(items)
    ensures StatsResponse(d) == Ok(DashboardStats(posts, pages, users, plugins, Dicts(items)))
  {
  }

  lemma AnalyticsHookUnfolds(u: User, db: Db, activity: seq<Value>, d: AnalyticsHooks.StatsDraw, nowIso: string)
    requires AnalyticsHooks.ValidStatsDraw(d)
    ensures AnalyticsHooks.DashboardStatsHook(d, nowIso, StatsPayload(u, db, activity))
         == Returned(StatsPayload(u, db, activity)
                       ["stats" := Dict(map[] + AnalyticsHooks.CustomStats(d))]
                       ["recent_activity" := List([AnalyticsHooks.AnalyticsEntry(d, nowIso)] + activity)])
  {
    var p := StatsPayload(u, db, activity);
    assert AnalyticsHooks.StatsOf(p) == Some(map[]);
    assert AnalyticsHooks.ActivityOf(p) == Some(activity);
  }

  /** The analytics plugin's dashboard_stats on the route's payload: the counts pass through, the entry goes in front. */
  lemma AnalyticsOnStatsPayload(u: User, db: Db, activity: seq<Value>, d: AnalyticsHooks.StatsDraw, nowIso: string)
    requires AnalyticsHooks.ValidStatsDraw(d)
    ensures var out := AnalyticsHooks.DashboardStatsHook(d, nowIso, StatsPayload(u, db, activity));
      && out.Returned?
      && out.value["total_posts"] == Int(TotalPosts(u, db))
      && out.value["total_pages"] == Int(TotalPages(u, db))
      && out.value["total_users"] == Int(TotalUsers(u, db))
      && out.value["active_plugins"] == Int(ActivePlugins(db))
      && out.value["recent_activity"] == List([AnalyticsHooks.AnalyticsEntry(d, nowIso)] + activity)
  {
    AnalyticsHookUnfolds(u, db, activity, d, nowIso);
    StatsPayloadFields(u, db, activity);
    var p := StatsPayload(u, db, activity);
    var q := p["stats" := Dict(map[] + AnalyticsHooks.CustomStats(d))];
    var out := q["recent_activity" := List([AnalyticsHooks.AnalyticsEntry(d, nowIso)] + activity)];
    assert q["total_posts"] == p["total_posts"] && q["total_pages"] == p["total_pages"];
    assert q["total_users"] == p["total_users"] && q["active_plugins"] == p["active_plugins"];
    assert out["total_posts"] == q["total_posts"] && out["total_pages"] == q["total_pages"];
    assert out["total_users"] == q["total_users"] && out["active_plugins"] == q["active_plugins"];
  }

  /**
   * With the analytics plugin's dashboard_stats as the only handler, the
   * route still answers: the counts are unchanged and the activity list has
   * the analytics entry in front of the built one.
   */
  lemma StatsWithAnalyticsPlugin(u: User, db: Db, activity: seq<Value>, d: AnalyticsHooks.StatsDraw, nowIso: string, pid: string)
    requires AllDicts(activity)
    requires AnalyticsHooks.ValidStatsDraw(d)
    ensures var r := StatsResponse(Fold([Handler(pid, AnalyticsHooks.DashboardStatsFn(d, nowIso))], StatsPayload(u, db, activity)));
      && r.Ok?
      && r.value.totalPosts == TotalPosts(u, db) && r.value.totalPages == TotalPages(u, db)
      && r.value.totalUsers == TotalUsers(u, db) && r.value.activePlugins == ActivePlugins(db)
      && |r.value.recentActivity| == |activity| + 1
      && Dict(r.value.recentActivity[0]) == AnalyticsHooks.AnalyticsEntry(d, nowIso)
  {
    var h := Handler(pid, AnalyticsHooks.DashboardStatsFn(d, nowIso));
    var p := StatsPayload(u, db, activity);
    assert [h][..0] == [];
    AnalyticsOnStatsPayload(u, db, activity, d, nowIso);
    var q := AnalyticsHooks.DashboardStatsHook(d, nowIso, p).value;
    assert Fold([h], p) == q;
    var items := [AnalyticsHooks.AnalyticsEntry(d, nowIso)] + activity;
    assert AllDicts(items) by {
      forall i | 0 <= i < |items|
        ensures items[i].Dict?
      {
        if i > 0 {
          assert items[i] == activity[i - 1];
        }
      }
    }
    assert "total_posts" in q && "total_pages" in q && "total_users" in q && "active_plugins" in q && "recent_activity" in q;
    ParseCountsAndActivity(q, TotalPosts(u, db), TotalPages(u, db), TotalUsers(u, db), ActivePlugins(db), items);
  }

  // ---------------------------------------------------------------------------
  // GET /dashboard/activity
  // ---------------------------------------------------------------------------

  /** One activity_feed entry; `timestamp` is the document's created_at. */
  /** The three "type" values of activity_feed entries. */
  datatype FeedKind = PostCreated | PageCreated | UserRegistered

  function KindText(k: FeedKind): string {
    match k
    case PostCreated => "post_created"
    case PageCreated => "page_created"
    case UserRegistered => "user_registered"
  }

  datatype FeedEntry = FeedEntry(id: string, kind: FeedKind, title: string, description: string,
                                 timestamp: int, icon: string, url: string)

  function Timestamp(e: FeedEntry): int {
    e.timestamp
  }

  function FeedValue(e: FeedEntry): Value {
    Dict(map[
      "id" := Str(e.id),
      "type" := Str(KindText(e.kind)),
      "title" := Str(e.title),
      "description" := Str(e.description),
      "timestamp" := Time(e.timestamp),
      "icon" := Str(e.icon),
      "url" := Str(e.url)])
  }

  function PostFeedEntry(users: seq<User>, p: Post): FeedEntry {
    FeedEntry(p.id, PostCreated, "New post: " + p.title, "Created by " + AuthorName(users, p.authorId),
              p.createdAt, "FileText", "/admin/posts/" + p.id)
  }

  function PageFeedEntry(users: seq<User>, p: Page): FeedEntry {
    FeedEntry(p.id, PageCreated, "New page: " + p.title, "Created by " + AuthorName(users, p.authorId),
              p.createdAt, "File", "/admin/pages/" + p.id)
  }

  function UserFeedEntry(x: User): FeedEntry {
    FeedEntry(x.id, UserRegistered, "New user: " + x.name, "Role: " + RoleValue(x.role),
              x.createdAt, "Users", "/admin/users/" + x.id)
  }

  function PostFeedFn(users: seq<User>): Post -> FeedEntry {
    (p: Post) => PostFeedEntry(users, p)
  }

  function PageFeedFn(users: seq<User>): Page -> FeedEntry {
    (p: Page) => PageFeedEntry(users, p)
  }

  function PostFeed(users: seq<User>, posts: seq<Post>): seq<FeedEntry> {
    MapSeq(posts, PostFeedFn(users))
  }

  function PageFeed(users: seq<User>, pages: seq<Page>): seq<FeedEntry> {
    MapSeq(pages, PageFeedFn(users))
  }

  function UserFeed(newUsers: seq<User>): seq<FeedEntry> {
    MapSeq(newUsers, UserFeedEntry)
  }

  /** activity_feed before sorting: posts, then pages for admin and editor, then users for admin. */
  function Feed(u: User, users: seq<User>, posts: seq<Post>, pages: seq<Page>, newUsers: seq<User>): seq<FeedEntry> {
    PostFeed(users, posts)
    + (if EditorOrAdmin(u) then PageFeed(users, pages) else [])
    + (if u.role == Admin then UserFeed(newUsers) else [])
  }

  /** activity_feed after `sort(key=timestamp, reverse=True)` and `[:limit]`. */
  function FinalFeed(u: User, users: seq<User>, limit: int, posts: seq<Post>, pages: seq<Page>, newUsers: seq<User>): seq<FeedEntry> {
    PyPrefix(SortDesc(Feed(u, users, posts, pages, newUsers), Timestamp), limit)
  }

  function FeedPayload(u: User, feed: seq<FeedEntry>): Payload {
    map["activity_feed" := List(MapSeq(feed, FeedValue)), "current_user" := CurrentUserValue(u)]
  }

  /** The three append loops that build activity_feed. */
  method BuildFeed(u: User, users: seq<User>, posts: seq<Post>, pages: seq<Page>, newUsers: seq<User>)
    returns (feed: seq<FeedEntry>)
    ensures feed == Feed(u, users, posts, pages, newUsers)
  {
    ghost var pagepart: seq<FeedEntry> := if EditorOrAdmin(u) then PageFeed(users, pages) else [];
    ghost var userpart: seq<FeedEntry> := if u.role == Admin then UserFeed(newUsers) else [];
    feed := AppendPostEntries([], users, posts);
    assert feed == PostFeed(users, posts);
    if EditorOrAdmin(u) {
      feed := AppendPageEntries(feed, users, pages);
    }
    assert feed == PostFeed(users, posts) + pagepart;
    if u.role == Admin {
      feed := AppendUserEntries(feed, newUsers);
    }
    assert feed == PostFeed(users, posts) + pagepart + userpart;
  }

  /** The loop over recent_posts: one "post_created" entry per post, in query order. */
  method AppendPostEntries(start: seq<FeedEntry>, users: seq<User>, posts: seq<Post>) returns (feed: seq<FeedEntry>)
    ensures feed == start + PostFeed(users, posts)
  {
    feed := start;
    for i := 0 to |posts|
      invariant feed == start + PostFeed(users, posts[..i])
    {
      MapSeqSnoc(posts, i, PostFeedFn(users));
      feed := feed + [PostFeedEntry(users, posts[i])];
    }
    assert posts[..|posts|] == posts;
  }

  /** The loop over recent_pages: one "page_created" entry per page, in query order. */
  method AppendPageEntries(start: seq<FeedEntry>, users: seq<User>, pages: seq<Page>) returns (feed: seq<FeedEntry>)
    ensures feed == start + PageFeed(users, pages)
  {
    feed := start;
    for i := 0 to |pages|
      invariant feed == start + PageFeed(users, pages[..i])
    {
      MapSeqSnoc(pages, i, PageFeedFn(users));
      feed := feed + [PageFeedEntry(users, pages[i])];
    }
    assert pages[..|pages|] == pages;
  }

  /** The loop over recent_users: one "user_registered" entry per user, in query order. */
  method AppendUserEntries(start: seq<FeedEntry>, newUsers: seq<User>) returns (feed: seq<FeedEntry>)
    ensures feed == start + UserFeed(newUsers)
  {
    feed := start;
    for i := 0 to |newUsers|
      invariant feed == start + UserFeed(newUsers[..i])
    {
      MapSeqSnoc(newUsers, i, UserFeedEntry);
      feed := feed + [UserFeedEntry(newUsers[i])];
    }
    assert newUsers[..|newUsers|] == newUsers;
  }

  /**
   * get_recent_activity(limit): the feed built from the query results, the
   * in-place sort by timestamp (newest first), truncation to `limit`, then
   * the "activity_feed" hook. The page and user queries use limit // 4,
   * which is 0 (no limit at all) for a limit below 4.
   */
  method GetRecentActivity(pm: PluginManager, u: User, db: Db, limit: int,
                           recentPosts: seq<Post>, recentPages: seq<Page>, recentUsers: seq<User>)
    returns (r: Payload)
    requires QueryResult(recentPosts, db.posts, PostFilter(u), limit / 2)
    requires QueryResult(recentPages, db.pages, (p: Page) => true, limit / 4)
    requires QueryResult(recentUsers, db.users, IsActiveUser, limit / 4)
    ensures r == Fold(HandlersFor(pm.hookRegistry, "activity_feed"),
                      FeedPayload(u, FinalFeed(u, db.users, limit, recentPosts, recentPages, recentUsers)))
  {
    var feed := BuildFeed(u, db.users, recentPosts, recentPages, recentUsers);
    feed := SortInPlace(feed, Timestamp);
    feed := PyPrefix(feed, limit);
    var hookResult := pm.ExecuteHook("activity_feed", Some(FeedPayload(u, feed)));
    r := hookResult.data;
  }

  /**
   * The feed the hooks receive is newest first, holds at most `limit`
   * entries for a non-negative limit, and is drawn from the built entries.
   */
  lemma FinalFeedFacts(u: User, users: seq<User>, limit: int, posts: seq<Post>, pages: seq<Page>, newUsers: seq<User>)
    ensures var f := FinalFeed(u, users, limit, posts, pages, newUsers);
      && SortedDesc(f, Timestamp)
      && (limit >= 0 ==> |f| <= limit)
      && multiset(f) <= multiset(Feed(u, users, posts, pages, newUsers))
  {
    var all := SortDesc(Feed(u, users, posts, pages, newUsers), Timestamp);
    var f := PyPrefix(all, limit);
    SortedPrefix(all, |f|, Timestamp);
  }

  predicate OnlyKind(f: seq<FeedEntry>, k: FeedKind) {
    forall i | 0 <= i < |f| :: f[i].kind == k
  }

  predicate WithoutKind(f: seq<FeedEntry>, k: FeedKind) {
    forall i | 0 <= i < |f| :: f[i].kind != k
  }

  lemma FeedPartsKinds(users: seq<User>, posts: seq<Post>, pages: seq<Page>, newUsers: seq<User>)
    ensures OnlyKind(PostFeed(users, posts), PostCreated)
    ensures OnlyKind(PageFeed(users, pages), PageCreated)
    ensures OnlyKind(UserFeed(newUsers), UserRegistered)
  {
    var a := PostFeed(users, posts);
    forall i | 0 <= i < |a|
      ensures a[i].kind == PostCreated
    {
      assert a[i] == PostFeedEntry(users, posts[i]);
    }
    var b := PageFeed(users, pages);
    forall i | 0 <= i < |b|
      ensures b[i].kind == PageCreated
    {
      assert b[i] == PageFeedEntry(users, pages[i]);
    }
  }

  /** Pages reach the feed only for admin and editor, users only for admin. */
  lemma FeedRoleGates(u: User, users: seq<User>, posts: seq<Post>, pages: seq<Page>, newUsers: seq<User>)
    ensures !EditorOrAdmin(u) ==> OnlyKind(Feed(u, users, posts, pages, newUsers), PostCreated)
    ensures u.role != Admin ==> WithoutKind(Feed(u, users, posts, pages, newUsers), UserRegistered)
    ensures |Feed(u, users, posts, pages, newUsers)|
         == |posts| + (if EditorOrAdmin(u) then |pages| else 0) + (if u.role == Admin then |newUsers| else 0)
  {
    FeedPartsKinds(users, posts, pages, newUsers);
    var a := PostFeed(users, posts);
    var b := PageFeed(users, pages);
    if !EditorOrAdmin(u) {
      assert Feed(u, users, posts, pages, newUsers) == a;
    } else if u.role == Editor {
      var f := a + b;
      assert Feed(u, users, posts, pages, newUsers) == f;
      forall i | 0 <= i < |f|
        ensures f[i].kind != UserRegistered
      {
        if i < |a| {
          assert f[i] == a[i];
        } else {
          assert f[i] == b[i - |a|];
        }
      }
    }
  }

  /** With no "activity_feed" handler the route returns the payload it built, current_user included. */
  lemma FeedWithoutHandlers(pm: PluginManager, u: User, feed: seq<FeedEntry>)
    requires "activity_feed" !in pm.hookRegistry
    ensures Fold(HandlersFor(pm.hookRegistry, "activity_feed"), FeedPayload(u, feed)) == FeedPayload(u, feed)
    ensures FeedPayload(u, feed)["current_user"] == CurrentUserValue(u)
  {
  }

  // ---------------------------------------------------------------------------
  // GET /dashboard/quick-stats
  // ---------------------------------------------------------------------------

  function PublishedPost(p: Post): bool {
    p.status == Published
  }

  function DraftPost(p: Post): bool {
    p.status == Draft
  }

  function PublishedPage(p: Page): bool {
    p.status == Published
  }

  function QuickStatKeys(r: UserRole): set<string> {
    match r
    case Author => {"my_posts", "my_published_posts"}
    case Editor => {"total_posts", "published_posts", "draft_posts", "total_pages", "published_pages"}
    case Admin => {"total_posts", "published_posts", "draft_posts", "total_pages", "published_pages",
                   "total_users", "total_plugins", "active_plugins"}
  }

  /**
   * get_quick_stats: the stats dict, filled key by key according to the
   * role, goes through the "quick_stats" hook.
   */
  method GetQuickStats(pm: PluginManager, u: User, db: Db) returns (r: Payload, stats: map<string, Value>)
    ensures QuickStatsFacts(u, db, stats)
    ensures r == Fold(HandlersFor(pm.hookRegistry, "quick_stats"),
                      map["stats" := Dict(stats), "current_user" := CurrentUserValue(u)])
  {
    stats := FillQuickStats(u, db);
    var hookResult := pm.ExecuteHook("quick_stats", Some(map["stats" := Dict(stats), "current_user" := CurrentUserValue(u)]));
    r := hookResult.data;
  }

  /** The keys a role sees in get_quick_stats, and the count behind each. */
  ghost predicate QuickStatsFacts(u: User, db: Db, stats: map<string, Value>) {
    && stats.Keys == QuickStatKeys(u.role)
    && (u.role == Author ==>
      && stats["my_posts"] == Int(Count(db.posts, (p: Post) => p.authorId == u.id))
      && stats["my_published_posts"] == Int(Count(db.posts, (p: Post) => p.authorId == u.id && p.status == Published)))
    && (u.role != Author ==>
      && stats["total_posts"] == Int(|db.posts|)
      && stats["published_posts"] == Int(Count(db.posts, PublishedPost))
      && stats["draft_posts"] == Int(Count(db.posts, DraftPost))
      && stats["total_pages"] == Int(|db.pages|)
      && stats["published_pages"] == Int(Count(db.pages, PublishedPage)))
    && (u.role == Admin ==>
      && stats["total_users"] == Int(Count(db.users, IsActiveUser))
      && stats["total_plugins"] == Int(|db.plugins|)
      && stats["active_plugins"] == Int(Count(db.plugins, IsActivePlugin)))
  }

  /** The role-dependent filling of the stats dict. */
  method FillQuickStats(u: User, db: Db) returns (stats: map<string, Value>)
    ensures QuickStatsFacts(u, db, stats)
  {
    stats := map[];
    if u.role == Author {
      stats := stats["my_posts" := Int(Count(db.posts, (p: Post) => p.authorId == u.id))];
      stats := stats["my_published_posts" := Int(Count(db.posts, (p: Post) => p.authorId == u.id && p.status == Published))];
    } else {
      stats := stats["total_posts" := Int(|db.posts|)];
      stats := stats["published_posts" := Int(Count(db.posts, PublishedPost))];
      stats := stats["draft_posts" := Int(Count(db.posts, DraftPost))];
    }
    if u.role == Admin || u.role == Editor {
      stats := stats["total_pages" := Int(|db.pages|)];
      stats := stats["published_pages" := Int(Count(db.pages, PublishedPage))];
    }
    if u.role == Admin {
      stats := stats["total_users" := Int(Count(db.users, IsActiveUser))];
      stats := stats["total_plugins" := Int(|db.plugins|)];
      stats := stats["active_plugins" := Int(Count(db.plugins, IsActivePlugin))];
    }
    assert stats.Keys == QuickStatKeys(u.role);
  }

  /** The role key sets nest: an admin sees every key an editor sees, and none of an author's. */
  lemma QuickStatKeysNest()
    ensures QuickStatKeys(Editor) < QuickStatKeys(Admin)
    ensures QuickStatKeys(Author) !! QuickStatKeys(Admin)
  {
    assert "total_users" in QuickStatKeys(Admin) - QuickStatKeys(Editor);
  }
}
