/**
 * The endpoints of the social share plugin
 * (social-share-plugin/backend/endpoints.py): like and share counters, the
 * top-posts ranking, bulk sharing and the share URLs. Request bodies are
 * dictionaries of values; the event tracker the endpoints call, random draws
 * and the clock are inputs.
 */
module SocialShare {
  import opened Common
  import opened Values
  import opened Sorting

  const BadRequest := 400
  const InternalServerError := 500

  /** The platforms a share may name, in the order the endpoints list them. */
  const Platforms: seq<string> := ["facebook", "twitter", "linkedin", "whatsapp", "telegram", "reddit", "pinterest"]

  /** The event id track_like_event and track_share_event return for a clock reading in whole seconds. */
  function LikeEventId(timestamp: int): string {
    "evt_" + IntToString(timestamp)
  }

  function ShareEventId(timestamp: int): string {
    "share_" + IntToString(timestamp)
  }

  // ---------------------------------------------------------------------------
  // like_post
  // ---------------------------------------------------------------------------

  datatype LikeResult = LikeResult(action: string, newLikeCount: int, eventId: string)

  /** The counter update: like adds one, unlike takes one away but never goes below zero. */
  function NextLikeCount(liking: bool, count: int): (n: int)
    ensures liking ==> n == count + 1
    ensures !liking ==> n >= 0 && (count >= 1 ==> n == count - 1) && (count <= 0 ==> n == 0)
  {
    if liking then count + 1 else if count - 1 > 0 then count - 1 else 0
  }

  /** Unliking after liking restores any count that was not negative. */
  lemma UnlikeUndoesLike(count: int)
    requires count >= 0
    ensures NextLikeCount(false, NextLikeCount(true, count)) == count
  {
  }

  /**
   * like_post as written: the 400 for an unknown action is raised inside the
   * try block whose only handler catches every exception, so the caller gets
   * 500. A current_count that is not a number makes the arithmetic raise,
   * which ends the same way.
   */
  function LikePost(likeData: map<string, Value>, timestamp: int): (r: Result<LikeResult, HttpError>)
    ensures r.Err? ==> r.error == HttpError(InternalServerError, "Failed to process like")
    ensures r.Ok? <==> Get(likeData, "action", Str("like")) in [Str("like"), Str("unlike")]
                       && AsNumber(Get(likeData, "current_count", Int(0))).Some?
    ensures r.Ok? ==> Str(r.value.action) == Get(likeData, "action", Str("like")) && r.value.eventId == LikeEventId(timestamp)
    ensures r.Ok? ==> r.value.newLikeCount
                      == NextLikeCount(r.value.action == "like", AsNumber(Get(likeData, "current_count", Int(0))).value)
  {
    var action := Get(likeData, "action", Str("like"));
    if action !in [Str("like"), Str("unlike")] then
      // HTTPException(400) is raised here and turned into 500 by the handler below it
      Err(HttpError(InternalServerError, "Failed to process like"))
    else match AsNumber(Get(likeData, "current_count", Int(0)))
      case None => Err(HttpError(InternalServerError, "Failed to process like"))
      case Some(count) =>
        Ok(LikeResult(action.s, NextLikeCount(action == Str("like"), count), LikeEventId(timestamp)))
  }

  /** An unlike request with count n answers "unlike" with max(0, n - 1) and the like event id. */
  lemma UnlikeRequestDecrements(n: int, timestamp: int)
    ensures LikePost(map["action" := Str("unlike"), "current_count" := Int(n)], timestamp)
         == Ok(LikeResult("unlike", if n >= 1 then n - 1 else 0, LikeEventId(timestamp)))
  {
    var d := map["action" := Str("unlike"), "current_count" := Int(n)];
    assert Get(d, "action", Str("like")) == Str("unlike");
  }

  /**
   * like_post with the 400 for an unknown action passed through to the caller,
   * as share_post, get_top_social_posts and bulk_share_posts do with
   * `except HTTPException: raise`.
   */
  function LikePostCorrected(likeData: map<string, Value>, timestamp: int): (r: Result<LikeResult, HttpError>)
    ensures Get(likeData, "action", Str("like")) !in [Str("like"), Str("unlike")]
            ==> r == Err(HttpError(BadRequest, "Action must be 'like' or 'unlike'"))
    ensures Get(likeData, "action", Str("like")) in [Str("like"), Str("unlike")] ==> r == LikePost(likeData, timestamp)
  {
    var action := Get(likeData, "action", Str("like"));
    if action !in [Str("like"), Str("unlike")] then Err(HttpError(BadRequest, "Action must be 'like' or 'unlike'"))
    else LikePost(likeData, timestamp)
  }

  /** An unknown action reaches the caller as 500 as written, and as the intended 400 once corrected. */
  lemma InvalidLikeActionIsServerError(timestamp: int)
    ensures LikePost(map["action" := Str("share")], timestamp).error.status == InternalServerError
    ensures LikePostCorrected(map["action" := Str("share")], timestamp).error.status == BadRequest
  {
    var d := map["action" := Str("share")];
    assert Get(d, "action", Str("like")) == Str("share");
    assert Str("share") !in [Str("like"), Str("unlike")];
  }

  // ---------------------------------------------------------------------------
  // share_post
  // ---------------------------------------------------------------------------

  datatype ShareResult = ShareResult(platform: string, newShareCount: int, eventId: string)

  const InvalidPlatformDetail := "Invalid platform. Must be one of: ['facebook', 'twitter', 'linkedin', 'whatsapp', 'telegram', 'reddit', 'pinterest']"

  predicate ValidPlatform(v: Value) {
    v.Str? && v.s in Platforms
  }

  /**
   * share_post: a missing or empty platform and a platform outside the seven
   * are 400; otherwise the share count goes up by one.
   */
  function SharePost(shareData: map<string, Value>, timestamp: int): (r: Result<ShareResult, HttpError>)
    ensures !Truthy(Get(shareData, "platform", Null)) ==> r == Err(HttpError(BadRequest, "Platform is required"))
    ensures Truthy(Get(shareData, "platform", Null)) && !ValidPlatform(Get(shareData, "platform", Null))
            ==> r == Err(HttpError(BadRequest, InvalidPlatformDetail))
    ensures r.Ok? <==> ValidPlatform(Get(shareData, "platform", Null)) && AsNumber(Get(shareData, "current_count", Int(0))).Some?
    ensures r.Ok? ==> r.value.platform in Platforms && Str(r.value.platform) == Get(shareData, "platform", Null)
    ensures r.Ok? ==> r.value.eventId == ShareEventId(timestamp)
    ensures r.Ok? ==> r.value.newShareCount == AsNumber(Get(shareData, "current_count", Int(0))).value + 1
  {
    var platform := Get(shareData, "platform", Null);
    if !Truthy(platform) then Err(HttpError(BadRequest, "Platform is required"))
    else if !ValidPlatform(platform) then Err(HttpError(BadRequest, InvalidPlatformDetail))
    else match AsNumber(Get(shareData, "current_count", Int(0)))
      case None => Err(HttpError(InternalServerError, "Failed to track share"))
      case Some(count) => Ok(ShareResult(platform.s, count + 1, ShareEventId(timestamp)))
  }

  // ---------------------------------------------------------------------------
  // get_top_social_posts
  // ---------------------------------------------------------------------------

  /** One post's random draws: likes, shares, engagement score and top platform. */
  datatype TopDraw = TopDraw(likes: int, shares: int, engagement: int, topPlatform: string)

  predicate ValidTopDraw(d: TopDraw) {
    && 50 <= d.likes <= 1000
    && 25 <= d.shares <= 500
    && 100 <= d.engagement <= 2000
    && d.topPlatform in Platforms[..4]
  }

  datatype TopPost = TopPost(
    postId: string,
    title: string,
    likes: int,
    shares: int,
    engagementScore: int,
    createdAt: string,
    author: string,
    topPlatform: string)

  /** The i-th mock post (counting from 1). */
  function TopPostAt(i: nat, d: TopDraw, nowIso: string): TopPost {
    TopPost("post_" + NatToString(i), "Top Post #" + NatToString(i) + " - Amazing Content!",
            d.likes, d.shares, d.engagement, nowIso, "Author " + NatToString(i), d.topPlatform)
  }

  /** The list the loop builds, before sorting. */
  function BuiltTopPosts(draws: seq<TopDraw>, nowIso: string): (posts: seq<TopPost>)
    ensures |posts| == |draws|
    ensures forall k | 0 <= k < |draws| :: posts[k] == TopPostAt(k + 1, draws[k], nowIso)
  {
    seq(|draws|, k requires 0 <= k < |draws| => TopPostAt(k + 1, draws[k], nowIso))
  }

  predicate ValidMetric(metric: string) {
    metric in ["likes", "shares", "engagement"]
  }

  /** The sort key for a metric: likes, shares, or the engagement score. */
  function MetricKey(metric: string): TopPost -> int {
    if metric == "likes" then (p: TopPost) => p.likes
    else if metric == "shares" then (p: TopPost) => p.shares
    else (p: TopPost) => p.engagementScore
  }

  datatype TopPostsResult = TopPostsResult(metric: string, limit: int, data: seq<TopPost>)

  /**
   * get_top_social_posts: 400 for an unknown metric; otherwise `limit` mock
   * posts (none when limit < 1), sorted by the metric, largest first.
   */
  method GetTopSocialPosts(metric: string, limit: int, draws: seq<TopDraw>, nowIso: string)
    returns (r: Result<TopPostsResult, HttpError>)
    requires |draws| == if limit > 0 then limit else 0
    ensures !ValidMetric(metric) ==> r == Err(HttpError(BadRequest, "Metric must be 'likes', 'shares', or 'engagement'"))
    ensures ValidMetric(metric) ==> r.Ok? && r.value.metric == metric && r.value.limit == limit
    ensures r.Ok? ==> r.value.data == SortDesc(BuiltTopPosts(draws, nowIso), MetricKey(metric))
    ensures r.Ok? ==> |r.value.data| == |draws|
    ensures r.Ok? ==> SortedDesc(r.value.data, MetricKey(metric))
    ensures r.Ok? ==> multiset(r.value.data) == multiset(BuiltTopPosts(draws, nowIso))
  {
    if !ValidMetric(metric) {
      return Err(HttpError(BadRequest, "Metric must be 'likes', 'shares', or 'engagement'"));
    }
    var top: seq<TopPost> := [];
    var i := 1;
    while i <= limit
      invariant 1 <= i <= |draws| + 1
      invariant |top| == i - 1
      invariant forall k | 0 <= k < i - 1 :: top[k] == TopPostAt(k + 1, draws[k], nowIso)
    {
      top := top + [TopPostAt(i, draws[i - 1], nowIso)];
      i := i + 1;
    }
    assert top == BuiltTopPosts(draws, nowIso);
    var sorted := SortInPlace(top, MetricKey(metric));
    r := Ok(TopPostsResult(metric, limit, sorted));
  }

  /** With draws in their ranges, every listed post's numbers are in range too. */
  lemma {:induction false} TopPostsInRange(draws: seq<TopDraw>, nowIso: string, metric: string)
    requires forall k | 0 <= k < |draws| :: ValidTopDraw(draws[k])
    ensures forall p | p in SortDesc(BuiltTopPosts(draws, nowIso), MetricKey(metric)) ::
              50 <= p.likes <= 1000 && 25 <= p.shares <= 500 && 100 <= p.engagementScore <= 2000
  {
    var built := BuiltTopPosts(draws, nowIso);
    var sorted := SortDesc(built, MetricKey(metric));
    forall p | p in sorted
      ensures 50 <= p.likes <= 1000 && 25 <= p.shares <= 500 && 100 <= p.engagementScore <= 2000
    {
      assert p in multiset(sorted);
      assert p in multiset(built);
      var k :| 0 <= k < |built| && built[k] == p;
      assert ValidTopDraw(draws[k]);
    }
  }

  // ---------------------------------------------------------------------------
  // bulk_share_posts
  // ---------------------------------------------------------------------------

  /** One entry of `results`. */
  datatype ShareAttempt =
    | Shared(postId: Value, platform: Value, eventId: string)
    | ShareFailed(postId: Value, platform: Value, error: string)

  /** What iterating over a value yields: a list's items, a string's characters; anything else raises. */
  function Items(v: Value): (r: Option<seq<Value>>)
    ensures v.List? ==> r == Some(v.items)
    ensures v.Str? ==> r.Some? && |r.value| == |v.s|
    ensures v.Str? ==> forall i | 0 <= i < |v.s| :: r.value[i] == Str([v.s[i]])
    ensures !(v.List? || v.Str?) ==> r.None?
  {
    match v
    case List(items) => Some(items)
    case Str(s) => Some(seq(|s|, i requires 0 <= i < |s| => Str([s[i]])))
    case _ => None
  }

  /** One tracked share: the tracker's event id, or the text of what it raised. */
  function Attempt(postId: Value, platform: Value, track: (Value, Value) -> Result<string, string>): ShareAttempt {
    match track(postId, platform)
    case Ok(id) => Shared(postId, platform, id)
    case Err(e) => ShareFailed(postId, platform, e)
  }

  /** One attempt per platform for a post, in platform order. */
  function Row(postId: Value, platforms: seq<Value>, track: (Value, Value) -> Result<string, string>): (r: seq<ShareAttempt>)
    ensures |r| == |platforms|
    ensures forall j | 0 <= j < |platforms| :: r[j] == Attempt(postId, platforms[j], track)
  {
    if platforms == [] then []
    else Row(postId, platforms[..|platforms| - 1], track) + [Attempt(postId, platforms[|platforms| - 1], track)]
  }

  /** The rows of all posts, post after post. */
  function Cross(postIds: seq<Value>, platforms: seq<Value>, track: (Value, Value) -> Result<string, string>): seq<ShareAttempt>
  {
    if postIds == [] then []
    else Cross(postIds[..|postIds| - 1], platforms, track) + Row(postIds[|postIds| - 1], platforms, track)
  }

  lemma MulMonotone(a: nat, b: nat, k: nat)
    requires a <= b
    ensures a * k <= b * k
  {
  }

  lemma MulSucc(n: nat, k: nat)
    ensures (n + 1) * k == n * k + k
  {
  }

  /** Position j of row i lies inside the first n rows when i < n, and past them when i == n. */
  lemma RowPosition(i: nat, j: nat, n: nat, w: nat)
    requires i <= n && j < w
    ensures i < n ==> i * w + j < n * w
    ensures i == n ==> i * w + j - n * w == j
    ensures i * w + j < (n + 1) * w
  {
    MulSucc(i, w);
    MulSucc(n, w);
    if i < n {
      MulMonotone(i + 1, n, w);
    }
  }

  lemma {:induction false} CrossLength(postIds: seq<Value>, platforms: seq<Value>, track: (Value, Value) -> Result<string, string>)
    ensures |Cross(postIds, platforms, track)| == |postIds| * |platforms|
  {
    if postIds != [] {
      CrossLength(postIds[..|postIds| - 1], platforms, track);
      MulSucc(|postIds| - 1, |platforms|);
    }
  }

  /** The cross product is post-major: attempt (i, j) sits at i * |platforms| + j. */
  lemma {:induction false} CrossAt(postIds: seq<Value>, platforms: seq<Value>, track: (Value, Value) -> Result<string, string>,
                                   i: nat, j: nat)
    requires i < |postIds| && j < |platforms|
    ensures i * |platforms| + j < |Cross(postIds, platforms, track)|
    ensures Cross(postIds, platforms, track)[i * |platforms| + j] == Attempt(postIds[i], platforms[j], track)
  {
    var n := |postIds| - 1;
    var w := |platforms|;
    var front := postIds[..n];
    var before := Cross(front, platforms, track);
    var row := Row(postIds[n], platforms, track);
    CrossLength(front, platforms, track);
    RowPosition(i, j, n, w);
    assert Cross(postIds, platforms, track) == before + row;
    if i < n {
      CrossAt(front, platforms, track, i, j);
      assert front[i] == postIds[i];
    }
  }

  function IsShared(): ShareAttempt -> bool {
    (a: ShareAttempt) => a.Shared?
  }

  function IsFailed(): ShareAttempt -> bool {
    (a: ShareAttempt) => a.ShareFailed?
  }

  datatype BulkResult = BulkResult(
    message: string,
    results: seq<ShareAttempt>,
    totalPosts: nat,
    totalPlatforms: nat,
    successfulShares: nat,
    failedShares: nat)

  /** Every attempt either succeeded or failed, so the two counts add up to the number of attempts. */
  lemma {:induction false} SharedPlusFailed(s: seq<ShareAttempt>)
    ensures Count(s, IsShared()) + Count(s, IsFailed()) == |s|
  {
    if s != [] {
      SharedPlusFailed(s[..|s| - 1]);
    }
  }

  /**
   * bulk_share_posts: empty post ids or platforms are 400; otherwise every
   * (post, platform) pair is tracked, post by post, and a failing track is
   * recorded rather than raised.
   */
  method BulkShare(bulkData: map<string, Value>, track: (Value, Value) -> Result<string, string>)
    returns (r: Result<BulkResult, HttpError>)
    ensures !Truthy(Get(bulkData, "post_ids", List([]))) ==> r == Err(HttpError(BadRequest, "Post IDs are required"))
    ensures Truthy(Get(bulkData, "post_ids", List([]))) && !Truthy(Get(bulkData, "platforms", List([])))
            ==> r == Err(HttpError(BadRequest, "At least one platform is required"))
    ensures r.Ok? <==> Truthy(Get(bulkData, "post_ids", List([]))) && Truthy(Get(bulkData, "platforms", List([])))
                       && Items(Get(bulkData, "post_ids", List([]))).Some? && Items(Get(bulkData, "platforms", List([]))).Some?
    ensures r.Ok? ==> r.value.results == Cross(Items(Get(bulkData, "post_ids", List([]))).value,
                                               Items(Get(bulkData, "platforms", List([]))).value, track)
    ensures r.Ok? ==> r.value.totalPosts == |Items(Get(bulkData, "post_ids", List([]))).value|
                      && r.value.totalPlatforms == |Items(Get(bulkData, "platforms", List([]))).value|
                      && |r.value.results| == r.value.totalPosts * r.value.totalPlatforms
    ensures r.Ok? ==> r.value.successfulShares + r.value.failedShares == |r.value.results|
    ensures r.Ok? ==> r.value.failedShares == Count(r.value.results, IsFailed())
  {
    var postIdsValue := Get(bulkData, "post_ids", List([]));
    var platformsValue := Get(bulkData, "platforms", List([]));
    if !Truthy(postIdsValue) {
      return Err(HttpError(BadRequest, "Post IDs are required"));
    }
    if !Truthy(platformsValue) {
      return Err(HttpError(BadRequest, "At least one platform is required"));
    }
    var postIdsItems := Items(postIdsValue);
    var platformsItems := Items(platformsValue);
    if postIdsItems.None? || platformsItems.None? {
      return Err(HttpError(InternalServerError, "Failed to complete bulk share"));
    }
    var postIds := postIdsItems.value;
    var platforms := platformsItems.value;
    var results: seq<ShareAttempt> := [];
    for i := 0 to |postIds|
      invariant results == Cross(postIds[..i], platforms, track)
    {
      var row := ShareRow(postIds[i], platforms, track);
      assert postIds[..i + 1][..i] == postIds[..i];
      results := results + row;
    }
    assert postIds[..|postIds|] == postIds;
    CrossLength(postIds, platforms, track);
    var successful := Count(results, IsShared());
    SharedPlusFailed(results);
    var total := |results|;
    r := Ok(BulkResult(
      "Bulk share completed: " + NatToString(successful) + "/" + NatToString(total) + " successful",
      results, |postIds|, |platforms|, successful, total - successful));
  }

  /** The inner loop of bulk_share_posts: one attempt per platform for a single post. */
  method ShareRow(postId: Value, platforms: seq<Value>, track: (Value, Value) -> Result<string, string>)
    returns (row: seq<ShareAttempt>)
    ensures row == Row(postId, platforms, track)
  {
    row := [];
    for j := 0 to |platforms|
      invariant row == Row(postId, platforms[..j], track)
    {
      assert platforms[..j + 1][..j] == platforms[..j];
      row := row + [Attempt(postId, platforms[j], track)];
    }
    assert platforms[..|platforms|] == platforms;
  }

  /** track_share_event: it never raises and always answers with the timestamped event id. */
  function ShareTracker(timestamp: int): (Value, Value) -> Result<string, string> {
    (postId: Value, platform: Value) => Ok(ShareEventId(timestamp))
  }

  /** With the plugin's own tracker every attempt succeeds. */
  lemma {:induction false} RealTrackerAllShared(postIds: seq<Value>, platforms: seq<Value>, timestamp: int)
    ensures forall k | 0 <= k < |Cross(postIds, platforms, ShareTracker(timestamp))| ::
              Cross(postIds, platforms, ShareTracker(timestamp))[k].Shared?
  {
    if postIds != [] {
      RealTrackerAllShared(postIds[..|postIds| - 1], platforms, timestamp);
    }
  }

  /** With the plugin's own tracker no attempt fails. */
  lemma RealTrackerNeverFails(postIds: seq<Value>, platforms: seq<Value>, timestamp: int)
    ensures Count(Cross(postIds, platforms, ShareTracker(timestamp)), IsFailed()) == 0
  {
    RealTrackerAllShared(postIds, platforms, timestamp);
    NoneFailed(Cross(postIds, platforms, ShareTracker(timestamp)));
  }

  lemma {:induction false} NoneFailed(s: seq<ShareAttempt>)
    requires forall k | 0 <= k < |s| :: s[k].Shared?
    ensures Count(s, IsFailed()) == 0
  {
    if s != [] {
      NoneFailed(s[..|s| - 1]);
    }
  }

  // ---------------------------------------------------------------------------
  // get_share_urls
  // ---------------------------------------------------------------------------

  const BaseUrl := "https://your-cms-domain.com"

  function PostUrl(postId: string): string {
    BaseUrl + "/posts/" + postId
  }

  /** A string contains its own tail. */
  lemma ContainsTail(a: string, t: string)
    ensures Contains(a + t, t)
  {
    assert OccursAt(a + t, t, |a|);
  }

  /** Appending text keeps what a string contains. */
  lemma ContainsExtended(s: string, t: string, x: string)
    requires Contains(s, t)
    ensures Contains(s + x, t)
  {
    var i :| OccursAt(s, t, i);
    assert (s + x)[i..i + |t|] == s[i..i + |t|];
    assert OccursAt(s + x, t, i);
  }

  /** The seven share URLs for a post URL u. */
  function ShareUrlMap(u: string, message: string): map<string, string> {
    map[
      "facebook" := "https://www.facebook.com/sharer/sharer.php?u=" + u,
      "twitter" := "https://twitter.com/intent/tweet?text=" + message + "&url=" + u,
      "linkedin" := "https://www.linkedin.com/sharing/share-offsite/?url=" + u,
      "whatsapp" := "https://wa.me/?text=" + message + " " + u,
      "telegram" := "https://t.me/share/url?url=" + u + "&text=" + message,
      "reddit" := "https://reddit.com/submit?url=" + u + "&title=" + message,
      "pinterest" := "https://pinterest.com/pin/create/button/?url=" + u + "&description=" + message
    ]
  }

  /** There is exactly one URL per platform. */
  lemma ShareUrlsCoverPlatforms(u: string, message: string)
    ensures ShareUrlMap(u, message).Keys == set p | p in Platforms
  {
    var keys := ShareUrlMap(u, message).Keys;
    assert keys == {"facebook", "twitter", "linkedin", "whatsapp", "telegram", "reddit", "pinterest"};
    forall p | p in Platforms
      ensures p in keys
    {
    }
  }

  /** Every share URL carries the post URL. */
  lemma ShareUrlsCarryPostUrl(u: string, message: string)
    ensures forall p | p in ShareUrlMap(u, message) :: Contains(ShareUrlMap(u, message)[p], u)
  {
    var m := ShareUrlMap(u, message);
    ContainsTail("https://www.facebook.com/sharer/sharer.php?u=", u);
    ContainsTail("https://twitter.com/intent/tweet?text=" + message + "&url=", u);
    ContainsTail("https://www.linkedin.com/sharing/share-offsite/?url=", u);
    ContainsTail("https://wa.me/?text=" + message + " ", u);
    ContainsTail("https://t.me/share/url?url=", u);
    ContainsExtended("https://t.me/share/url?url=" + u, u, "&text=");
    ContainsExtended("https://t.me/share/url?url=" + u + "&text=", u, message);
    ContainsTail("https://reddit.com/submit?url=", u);
    ContainsExtended("https://reddit.com/submit?url=" + u, u, "&title=");
    ContainsExtended("https://reddit.com/submit?url=" + u + "&title=", u, message);
    ContainsTail("https://pinterest.com/pin/create/button/?url=", u);
    ContainsExtended("https://pinterest.com/pin/create/button/?url=" + u, u, "&description=");
    ContainsExtended("https://pinterest.com/pin/create/button/?url=" + u + "&description=", u, message);
  }

  datatype ShareUrlsResult = ShareUrlsResult(postId: string, postUrl: string, shareUrls: map<string, string>)

  /** get_share_urls: one URL per platform, each carrying the post's URL. */
  function GetShareUrls(postId: string, message: string): (r: ShareUrlsResult)
    ensures r.postId == postId && r.postUrl == PostUrl(postId)
    ensures r.shareUrls.Keys == set p | p in Platforms
    ensures forall p | p in r.shareUrls :: Contains(r.shareUrls[p], r.postUrl)
  {
    var u := PostUrl(postId);
    ShareUrlsCoverPlatforms(u, message);
    ShareUrlsCarryPostUrl(u, message);
    ShareUrlsResult(postId, u, ShareUrlMap(u, message))
  }
}
