# A verified model of the CMS core and its plugin system

The system is a headless content-management backend (FastAPI with MongoDB).
It has users with three roles, posts and pages, and a plugin manager.
The plugin manager installs, activates and deactivates plugins and runs their
hook functions when the core fires a named hook. This project models that
core in Dafny:

- the plugin manager (`PluginSystem`, a class over the plugin collection and
  the hook registry): hook dispatch, hook registration and removal,
  activation with dependency checks, deactivation, installation (validation
  and the id it derives) and plugin settings;
- the custom analytics dashboard plugin's hooks (`AnalyticsHooks`);
- the authentication gates and permission rules (`Auth`);
- the dashboard routes (`DashboardRoutes`), the content routes
  (`ContentRoutes`) and the user routes (`UserRoutes`);
- the social share plugin's endpoints (`SocialShare`);
- the request and record models and their enumerations (`Models`).

MongoDB is modelled by `Store` as sequences of records. A query result is
an input constrained to be a sub-sequence that matches the query's filter
and respects its limit. `Values` models Python's JSON-like dicts.
`Sorting` models `list.sort(key=..., reverse=True)`: stable and descending.
`Common` holds the `Option`/`Result` types and the f-string renderings of
numbers.

Random draws, clocks and ISO-8601 renderings are parameters. A hook function
is a Dafny function from a payload to its outcome: a returned dict,
`None`, or a raised exception.

## Model

| member | source | states |
|---|---|---|
| PluginSystem.PluginManager.constructor | backend/plugin_system.py:17-22 | a fresh manager has no loaded plugins, an empty hook registry and no frontend hooks |
| PluginSystem.PluginManager.ExecuteHook | backend/plugin_system.py:203-234 | the result's data is the left fold of the hook's handlers over the payload (an empty dict for none); the executed-hook list has one success or failure entry per handler, in registration order; an unknown hook returns the payload untouched with no entries |
| PluginSystem.TraceMatchesHandlers | backend/plugin_system.py:210-225 | entry i of the executed-hook list names handler i's plugin, and it is a failure exactly when that handler raised on the payload it was given |
| PluginSystem.TraceAt | backend/plugin_system.py:210-225 | the executed-hook list has one entry per handler, entry i being handler i's outcome on the fold of the handlers before it |
| PluginSystem.RaisingHandlerIsSkipped | backend/plugin_system.py:211-225 | a handler that raises leaves the payload as if it were not registered: the dispatch result equals that of the list without it |
| PluginSystem.FoldAppend | backend/plugin_system.py:210-214 | dispatching a concatenation of handler lists is dispatching the second list on the first list's result |
| PluginSystem.FoldKeepsOutside | backend/plugin_system.py:210-214 | if every handler only changes keys in a set K, the dispatch result agrees with the payload on every key outside K |
| PluginSystem.PluginManager.GetPluginSettings | backend/plugin_system.py:236-241 | the stored settings of an installed plugin; an empty dict for an unknown id |
| PluginSystem.PluginManager.FindActiveByName | backend/plugin_system.py:345-349 | true exactly when some plugin with that name has status ACTIVE |
| PluginSystem.PluginManager.CheckPluginDependencies | backend/plugin_system.py:342-350 | true exactly when every dependency names an active plugin |
| PluginSystem.PluginManager.MissingRequiredField | backend/plugin_system.py:58-64 | reports the first of name, version, description and author missing from plugin.json, and nothing exactly when all four are present |
| PluginSystem.PluginIdFor | backend/plugin_system.py:91 | the id has the name's length; each space becomes '-' and each other character is lower-cased on ASCII, so no space or ASCII capital remains |
| PluginSystem.PluginIdIdempotent | backend/plugin_system.py:91 | deriving the id from an id changes nothing |
| PluginSystem.InstalledRecord | backend/plugin_system.py:84-111 | the stored record has status INSTALLED, the config's four required fields, category defaulting to "General" and price to "Free", empty settings, and the plugin directory as install path |
| PluginSystem.PluginManager.InstallPlugin | backend/plugin_system.py:32-111 | succeeds exactly when a config is present with all required fields; then stores the installed record under the derived id and the package under its install path; otherwise changes nothing |
| PluginSystem.PluginManager.LoadBackendHooks | backend/plugin_system.py:296-319 | each hook the plugin declares and its module exports gets one handler tagged with the plugin's id, appended after the existing ones |
| PluginSystem.RegisteredRunsLast | backend/plugin_system.py:308-316 | after registration the plugin's handler is the last one run for each hook it registered |
| PluginSystem.RegisteredLeavesOthers | backend/plugin_system.py:308-316 | registration leaves every other hook's handler list unchanged |
| PluginSystem.RegisteredStep | backend/plugin_system.py:308-316 | registering one more hook name appends the plugin's handler to that name's list only |
| PluginSystem.RegisteredKeepsShape | backend/plugin_system.py:308-316 | registration keeps every handler list non-empty and adds only handlers tagged with the plugin's id |
| PluginSystem.LoadedKeepsShape | backend/plugin_system.py:274-294 | loading a plugin's hooks, whether or not its directory exists, keeps every handler list non-empty and adds only handlers tagged with the plugin's id |
| PluginSystem.MenuHandlerRuns | backend/plugin_system.py:209-221 | a handler that appends a menu item, run alone on a payload with a menu list, appends the item and is recorded as one success |
| PluginSystem.DeactivationScenario | backend/plugin_system.py:151-176 | deactivating the only registered plugin leaves the registry empty |
| PluginSystem.RegisteredSingle | backend/plugin_system.py:308-316 | registering one exported hook into an empty registry gives that hook a single handler tagged with the plugin |
| PluginSystem.PluginManager.LoadPluginHooks | backend/plugin_system.py:274-294 | loads backend hooks only when the plugin declares hooks and its directory exists, and records its frontend hooks in that case |
| PluginSystem.Without | backend/plugin_system.py:326-329 | the filtered list is a sub-list of the original with no handler of the plugin |
| PluginSystem.WithoutKeepsOthers | backend/plugin_system.py:326-329 | removing one plugin's handlers keeps every other plugin's handlers exactly, in their order |
| PluginSystem.WithoutUntagged | backend/plugin_system.py:326-329 | filtering a list that holds none of the plugin's handlers returns it unchanged |
| PluginSystem.WithoutAppend | backend/plugin_system.py:326-329 | filtering distributes over concatenation |
| PluginSystem.Unloaded | backend/plugin_system.py:321-340 | the registry after unloading has no handler of the plugin, no emptied hook names and no new hook names |
| PluginSystem.PluginManager.UnloadPluginHooks | backend/plugin_system.py:321-340 | the registry becomes the unloaded registry and the plugin's frontend hooks are dropped |
| PluginSystem.PartlyUnloadedStep | backend/plugin_system.py:325-333 | handling one more hook name replaces its list with the filtered one, deleting the name when the list empties |
| PluginSystem.PartlyUnloadedAll | backend/plugin_system.py:325-333 | after the loop has visited every hook name, the result is the unloaded registry |
| PluginSystem.UnloadedKeepsShape | backend/plugin_system.py:321-340 | unloading removes the plugin's id from the set of ids that tag handlers |
| PluginSystem.UnloadUndoesRegister | backend/plugin_system.py:308-340 | registering a plugin's hooks and then unloading them gives back the registry as it was |
| PluginSystem.WithoutRegistered | backend/plugin_system.py:308-340 | for each hook name, filtering the plugin out after registration gives that hook's list from before |
| PluginSystem.DispatchAfterRoundTrip | backend/plugin_system.py:203-340 | after a register-then-unload round trip, every hook dispatches exactly as before |
| PluginSystem.PluginManager.ActivatePlugin | backend/plugin_system.py:117-149 | an unknown id fails with no change; an active plugin succeeds with no change; unmet dependencies fail with no change; otherwise the status becomes ACTIVE with a new update time, the plugin's hooks are loaded and it is marked loaded |
| PluginSystem.PluginManager.DeactivatePlugin | backend/plugin_system.py:151-176 | an unknown id fails with no change; otherwise the status becomes INSTALLED, the plugin is no longer loaded and no handler of it remains registered |
| PluginSystem.PluginManager.UninstallPlugin | backend/plugin_system.py:178-201 | the record is removed, and no loaded entry, frontend hooks or handler of the plugin remain; for a known plugin the registry is the unloaded one and only its loaded entry and frontend hooks go, for an unknown one those three are unchanged; the install directory is removed exactly when the record names one that exists |
| AnalyticsHooks.AnalyticsEntry | plugins/custom-analytics-dashboard/backend/hooks.py:23-30 | the activity entry has type "analytics" and a title that contains the page views with thousands separators |
| AnalyticsHooks.DashboardStatsHook | plugins/custom-analytics-dashboard/backend/hooks.py:6-39 | returns a dict exactly when stats is absent or a dict and recent_activity is absent or a list; the four custom stats are merged into stats and other stats keep their values; the analytics entry is inserted first in recent_activity; all other keys are untouched |
| AnalyticsHooks.DashboardStatsBounds | plugins/custom-analytics-dashboard/backend/hooks.py:10-11 | page views lie in 10000..15000 and unique visitors in 2000..4000 |
| AnalyticsHooks.DashboardStatsKeepsOtherKeys | plugins/custom-analytics-dashboard/backend/hooks.py:15-39 | the hook changes no key other than stats and recent_activity |
| AnalyticsHooks.BeforePostSave | plugins/custom-analytics-dashboard/backend/hooks.py:41-51 | adds exactly one key, analytics, holding tracked=True, the tracking id and the creation time, and keeps every other key |
| AnalyticsHooks.NewPostTrackingId | plugins/custom-analytics-dashboard/backend/hooks.py:47 | a post without an id gets tracking id post_new_ followed by the timestamp |
| AnalyticsHooks.AfterPostSave | plugins/custom-analytics-dashboard/backend/hooks.py:53-63 | returns the post unchanged, and raises exactly when analytics is present but not a dict |
| AnalyticsHooks.AfterFollowsBefore | plugins/custom-analytics-dashboard/backend/hooks.py:41-63 | after before_post_save, after_post_save always succeeds and returns the post unchanged |
| AnalyticsHooks.Multiplier | plugins/custom-analytics-dashboard/backend/hooks.py:71-80 | 7days gives factor 1, 90days gives 3, any other period gives 2 |
| AnalyticsHooks.GetAnalyticsData | plugins/custom-analytics-dashboard/backend/hooks.py:65-100 | the report's keys, its period, an end date of now, a start date the period's days earlier, and page views and visitors scaled by the multiplier |
| AnalyticsHooks.AnalyticsPageViewsBounds | plugins/custom-analytics-dashboard/backend/hooks.py:83-84 | total page views lie between 50000 and 100000 times the multiplier |
| AnalyticsHooks.AnalyticsModule | plugins/custom-analytics-dashboard/backend/hooks.py:6-100 | the module exports the four functions; get_analytics_data always raises when dispatched, because its result cannot be awaited |
| AnalyticsHooks.SaveHooksCompose | plugins/custom-analytics-dashboard/backend/hooks.py:41-63 | dispatching before_post_save then after_post_save yields before_post_save's result with two successes |
| Auth.GetCurrentActiveUser | backend/auth.py:83-87 | passes the user through exactly when active; otherwise 400 "Inactive user" |
| Auth.RoleChecker | backend/auth.py:89-106 | passes exactly an active user with the required permission; an inactive user gets 400, an active one without permission 403 |
| Auth.RoleCheckerMonotone | backend/auth.py:89-116 | a user passing a stricter role check passes every weaker one |
| Auth.HasPermission | backend/auth.py:109-116 | admin requires admin, editor requires admin or editor, author requires nothing |
| Auth.PermissionIsRankOrder | backend/auth.py:109-116 | permission holds exactly when the user's rank is at least the required rank (admin > editor > author) |
| Auth.PermissionMonotone | backend/auth.py:109-116 | admin permission implies editor permission, which implies author permission |
| Auth.CanEditContent | backend/auth.py:118-125 | editors and admins may edit any content, and everyone may edit their own; an author may edit only their own |
| DashboardRoutes.StatsResponse | backend/routes/dashboard_routes.py:81-96 | a hook result that validates as DashboardStats is returned; any other gives 500 "Failed to fetch dashboard statistics" |
| DashboardRoutes.BuildRecentActivity | backend/routes/dashboard_routes.py:29-65 | the loops build the recent-activity list: post entries, then plugin entries for editors and admins |
| DashboardRoutes.GetDashboardStats | backend/routes/dashboard_routes.py:14-96 | the response is the dashboard_stats hook's dispatch over the counts, the recent activity and the current user, validated |
| DashboardRoutes.RecentActivityShape | backend/routes/dashboard_routes.py:33-65 | at most 3 post entries come first, followed by plugin entries only for editors and admins, at most 5 in all |
| DashboardRoutes.PostActivitiesKind | backend/routes/dashboard_routes.py:40-48 | every post activity is a dict of type "post" |
| DashboardRoutes.PluginActivitiesKind | backend/routes/dashboard_routes.py:59-65 | every plugin activity is a dict of type "plugin" |
| DashboardRoutes.AuthorCountsOwnContent | backend/routes/dashboard_routes.py:20-27 | an author's totals count only their own posts and pages, and their user total is 0 |
| DashboardRoutes.StatsWithoutHandlers | backend/routes/dashboard_routes.py:67-89 | with no handler registered the response carries the computed counts and activity |
| DashboardRoutes.StatsPayloadFields | backend/routes/dashboard_routes.py:68-79 | the payload handed to the hook holds the four counts and the activity list under their keys |
| DashboardRoutes.ParseCountsAndActivity | backend/routes/dashboard_routes.py:81-89 | a payload with the four integer counts and a list of dicts reads back as exactly those stats |
| DashboardRoutes.AnalyticsHookUnfolds | backend/routes/dashboard_routes.py:68-79 | on the stats payload the analytics hook adds the custom stats and puts its entry first in the activity |
| DashboardRoutes.AnalyticsOnStatsPayload | backend/routes/dashboard_routes.py:68-79 | the analytics hook keeps the four counts of the stats payload |
| DashboardRoutes.StatsWithAnalyticsPlugin | backend/routes/dashboard_routes.py:67-89 | with the analytics plugin active the response keeps the counts and has one more activity entry, the analytics one, first |
| DashboardRoutes.BuildFeed | backend/routes/dashboard_routes.py:105-170 | the loops build the feed: post entries, page entries for editors and admins, user entries for admins |
| DashboardRoutes.AppendPostEntries | backend/routes/dashboard_routes.py:119-129 | the loop appends one post entry per post, in query order |
| DashboardRoutes.AppendPageEntries | backend/routes/dashboard_routes.py:140-150 | the loop appends one page entry per page, in query order |
| DashboardRoutes.AppendUserEntries | backend/routes/dashboard_routes.py:161-170 | the loop appends one user entry per user, in query order |
| DashboardRoutes.GetRecentActivity | backend/routes/dashboard_routes.py:98-193 | the response is the activity_feed hook's dispatch over the sorted, truncated feed and the current user |
| DashboardRoutes.FinalFeedFacts | backend/routes/dashboard_routes.py:172-174 | the feed is sorted newest first, at most limit long, and drawn from the built feed |
| DashboardRoutes.FeedPartsKinds | backend/routes/dashboard_routes.py:119-170 | post, page and user entries carry the types post_created, page_created and user_registered |
| DashboardRoutes.FeedRoleGates | backend/routes/dashboard_routes.py:109-170 | an author's feed holds only posts, a non-admin's feed holds no user entries, and the feed length adds up per role |
| DashboardRoutes.FeedWithoutHandlers | backend/routes/dashboard_routes.py:176-186 | with no handler registered the response is the feed with the current user |
| DashboardRoutes.GetQuickStats | backend/routes/dashboard_routes.py:195-241 | authors get their own post counts; others get all post counts by status; editors and admins add page counts; admins add user and plugin counts |
| DashboardRoutes.FillQuickStats | backend/routes/dashboard_routes.py:199-222 | the stats dict has exactly the role's keys, each holding the count the source computes for it |
| DashboardRoutes.QuickStatKeysNest | backend/routes/dashboard_routes.py:199-222 | an editor's keys are a strict subset of an admin's, and an author shares no key with an admin |
| ContentRoutes.KeepSlugChars | backend/routes/content_routes.py:315 | keeps only word characters, whitespace and '-', drawn from the input |
| ContentRoutes.DropSeps | backend/routes/content_routes.py:316 | drops a leading run of separators, so the rest does not start with one |
| ContentRoutes.CollapseShape | backend/routes/content_routes.py:316 | after collapsing, no "--" remains and every other character comes from the input and is not a separator |
| ContentRoutes.StripLeading | backend/routes/content_routes.py:317 | a suffix of the input that does not start with '-' |
| ContentRoutes.StripTrailing | backend/routes/content_routes.py:317 | a prefix of the input that does not end with '-' |
| ContentRoutes.LowerHasNoUpper | backend/routes/content_routes.py:315 | a lower-cased title holds no ASCII capital |
| ContentRoutes.StripsToSlug | backend/routes/content_routes.py:316-317 | stripping '-' from a collapsed lower-case string yields a slug |
| ContentRoutes.DashedWordsSlice | backend/routes/content_routes.py:316-317 | any slice of a string of lower-case word characters and single dashes is again such a string |
| ContentRoutes.GenerateSlugIsSlug | backend/routes/content_routes.py:313-317 | every generated slug is lower-case word characters and '-', with no "--" and no '-' at either end |
| ContentRoutes.LowerOfSlug | backend/routes/content_routes.py:315 | lower-casing a slug changes nothing |
| ContentRoutes.KeepOfSlugChars | backend/routes/content_routes.py:315 | the character filter keeps a string of word characters and '-' unchanged |
| ContentRoutes.CollapseOfSlugChars | backend/routes/content_routes.py:316 | collapsing a string without whitespace or "--" changes nothing |
| ContentRoutes.GenerateSlugIdempotent | backend/routes/content_routes.py:313-317 | generating a slug from a slug returns it unchanged |
| ContentRoutes.CloseAt | backend/routes/content_routes.py:156 | the tag's closing '>' is the first one at least two characters in with no '<' before it |
| ContentRoutes.StripTags | backend/routes/content_routes.py:156 | tag removal never lengthens the content |
| ContentRoutes.StripTagsWithoutTags | backend/routes/content_routes.py:156 | content without '<' is left unchanged |
| ContentRoutes.CloseAtSkipsName | backend/routes/content_routes.py:156 | the closing '>' of "<name>" is the one right after the name |
| ContentRoutes.StripTagsRemovesTag | backend/routes/content_routes.py:156 | a leading "<name>" tag is removed and the rest is processed |
| ContentRoutes.StripTagsIsSinglePass | backend/routes/content_routes.py:156 | removal is a single pass: "<a<b>>" becomes "<a>" |
| ContentRoutes.Excerpt | backend/routes/content_routes.py:157 | content up to 150 characters is kept as is; longer content gives its first 150 characters followed by "..." (153 characters) |
| ContentRoutes.CreateExcerpt | backend/routes/content_routes.py:153-157 | an excerpt is generated exactly when none or an empty one is given and the content is non-empty; otherwise the given one stays |
| ContentRoutes.ShortPlainContentIsItsOwnExcerpt | backend/routes/content_routes.py:156-157 | short content without tags is its own excerpt |
| ContentRoutes.PostsFilter | backend/routes/content_routes.py:35-54 | an author is always limited to their own posts; for others a non-empty author_id filters; category and search apply only when non-empty |
| ContentRoutes.AuthorLabel | backend/routes/content_routes.py:64-68 | the author's name, or "Unknown Author" when no user has that id |
| ContentRoutes.AddAuthorNames | backend/routes/content_routes.py:64-68 | one view per post, in order, each post carrying its author's name when it has an author id |
| ContentRoutes.GetPosts | backend/routes/content_routes.py:23-77 | only active users are served; the views are the queried posts with author names; an author sees only their own posts |
| ContentRoutes.StatsOwner | backend/routes/content_routes.py:83-85 | statistics are restricted to an owner exactly when the caller is an author, and the owner is the caller |
| ContentRoutes.GetPostStats | backend/routes/content_routes.py:79-104 | the total counts at most all posts and equals published plus draft plus private |
| ContentRoutes.StatusCountsPartition | backend/routes/content_routes.py:87-90 | the three status counts partition the total in scope |
| ContentRoutes.AuthorStatsIgnoreOthers | backend/routes/content_routes.py:83-90 | another author's post does not change an author's statistics |
| ContentRoutes.GetPost | backend/routes/content_routes.py:106-141 | succeeds exactly for an active user when the post exists and, if private, the user may edit it; otherwise 404 "Post not found" or 403 "Not authorized to view this post" |
| ContentRoutes.PrivatePostVisibility | backend/routes/content_routes.py:121-126 | an author cannot view another author's private post, and any active user can view a non-private post |
| ContentRoutes.CreatePost | backend/routes/content_routes.py:143-172 | the post is authored by the caller, gets the excerpt rule and is stamped with the creation time |
| ContentRoutes.UpdateExcerpt | backend/routes/content_routes.py:200-203 | a given excerpt is kept; new content without an excerpt regenerates it; otherwise no excerpt is written |
| ContentRoutes.ApplyPostUpdate | backend/routes/content_routes.py:198-217 | each given field replaces the stored one; id, author and creation time are kept; the update time is stamped |
| ContentRoutes.ApplyPostUpdateIdempotent | backend/routes/content_routes.py:198-217 | applying the same update twice equals applying it once |
| ContentRoutes.UpdatePost | backend/routes/content_routes.py:174-226 | succeeds exactly when the post exists and the caller may edit it (404 / 403 "Not authorized to edit this post"); writes exactly when the update is non-empty; never changes the author |
| ContentRoutes.RequestedSlug | backend/routes/content_routes.py:329-331 | a non-empty given slug is kept; otherwise the slug is generated from the title, and is a slug |
| ContentRoutes.PageSlug | backend/routes/content_routes.py:333-339 | a free slug is kept; a taken one gets "-" and the timestamp appended |
| ContentRoutes.TimestampSlugCanCollide | backend/routes/content_routes.py:333-339 | the suffixed slug is not checked again, so it can still be taken ("about" and "about-7" with timestamp 7) |
| ContentRoutes.CreatePage | backend/routes/content_routes.py:319-354 | editors and admins only; the page is authored by the caller, with the unique-ised slug and creation time |
| UserRoutes.FindActiveUser | backend/routes/user_routes.py:91 | finds an active stored user with that id, and none exactly when there is no such user |
| UserRoutes.UsersFilter | backend/routes/user_routes.py:26-35 | the listing always requires is_active; role applies when given, search when non-empty |
| UserRoutes.GetUsers | backend/routes/user_routes.py:16-52 | editors and admins only; the result is the query result, all active |
| UserRoutes.GetUserStats | backend/routes/user_routes.py:54-75 | admins only; the active total counts at most all users and equals the sum of the three role counts |
| UserRoutes.RoleCountsPartition | backend/routes/user_routes.py:58-61 | the three role counts of active users partition the active total |
| UserRoutes.GetUser | backend/routes/user_routes.py:77-107 | succeeds exactly when the caller may view the user and the user is active; the 403 "Not authorized to view this user" comes before the 404 "User not found" |
| UserRoutes.ViewRules | backend/routes/user_routes.py:85-89 | everyone may view their own active record, and an author may view no one else |
| UserRoutes.CreateUser | backend/routes/user_routes.py:109-144 | admins only; 400 "Email already registered" for a taken email; the new user is active, has the given fields, the hashed password and the avatar seeded by the email |
| UserRoutes.CreateUserTwiceFails | backend/routes/user_routes.py:117-122 | creating the same user again fails with "Email already registered" |
| UserRoutes.EffectiveUpdate | backend/routes/user_routes.py:170-174 | the role is kept in the update only when the caller is an admin; the other fields are kept |
| UserRoutes.ApplyUserUpdate | backend/routes/user_routes.py:176-185 | each given field replaces the stored one; id, password hash and creation time are kept |
| UserRoutes.UpdateUser | backend/routes/user_routes.py:146-194 | succeeds exactly when the caller may update the user (403 "Not authorized to update this user") and the user exists (404); writes exactly when the effective update is non-empty; a non-admin cannot change a role |
| UserRoutes.RoleOnlyUpdateByNonAdminIsNoOp | backend/routes/user_routes.py:170-185 | a non-admin's role-only update of themselves writes nothing and returns the stored user |
| UserRoutes.DeleteUser | backend/routes/user_routes.py:196-232 | admins only; 400 "Cannot delete your own account"; 404 for an unknown or inactive user; otherwise only that user is deactivated and stamped |
| UserRoutes.DeletedUserIsGone | backend/routes/user_routes.py:211-219 | after a delete the user is no longer found as active |
| UserRoutes.RequestedRole | backend/routes/user_routes.py:242-247 | a role is read exactly when "role" is a string naming one of the three roles |
| UserRoutes.UpdateUserRole | backend/routes/user_routes.py:234-270 | admins only; 400 "Invalid role specified" before the 404; otherwise only that user's role changes |
| UserRoutes.InvalidRoleBeforeLookup | backend/routes/user_routes.py:242-257 | an invalid role is rejected whatever the stored users are |
| SocialShare.NextLikeCount | social-share-plugin/backend/endpoints.py:32-36 | a like adds one; an unlike subtracts one but never goes below zero |
| SocialShare.UnlikeUndoesLike | social-share-plugin/backend/endpoints.py:32-36 | an unlike after a like restores a non-negative count |
| SocialShare.LikePost | social-share-plugin/backend/endpoints.py:13-48 | succeeds exactly for action like or unlike with a numeric count, answering the requested action, the count moved by NextLikeCount and the like event id; every failure, including the invalid-action 400, surfaces as 500 "Failed to process like" |
| SocialShare.UnlikeRequestDecrements | social-share-plugin/backend/endpoints.py:28-44 | an unlike request with count n answers unlike with max(0, n-1) and the like event id |
| SocialShare.LikePostCorrected | social-share-plugin/backend/endpoints.py:24-25 | an invalid action gives 400 "Action must be 'like' or 'unlike'"; a valid one behaves as LikePost |
| SocialShare.InvalidLikeActionIsServerError | social-share-plugin/backend/endpoints.py:24-48 | action "share" gets 500 as written and 400 once corrected |
| SocialShare.SharePost | social-share-plugin/backend/endpoints.py:50-87 | 400 "Platform is required" for a falsy platform; 400 listing the platforms for an unknown one; otherwise the answer names the requested platform, the count grows by one and the share event id is returned |
| SocialShare.BuiltTopPosts | social-share-plugin/backend/endpoints.py:173-185 | one mock post per draw, numbered from 1 |
| SocialShare.GetTopSocialPosts | social-share-plugin/backend/endpoints.py:160-207 | 400 for an unknown metric; otherwise the built posts sorted by the metric, highest first: a permutation with the requested count |
| SocialShare.TopPostsInRange | social-share-plugin/backend/endpoints.py:178-180 | every returned post's likes, shares and engagement lie in their drawn ranges |
| SocialShare.Items | social-share-plugin/backend/endpoints.py:228-229 | iterating a list gives its items and a string gives item i as the one-character string at i; any other value fails |
| SocialShare.Row | social-share-plugin/backend/endpoints.py:229-247 | one attempt per platform for a post, in order |
| SocialShare.CrossLength | social-share-plugin/backend/endpoints.py:228-247 | the nested loops make one attempt per post and platform |
| SocialShare.CrossAt | social-share-plugin/backend/endpoints.py:228-247 | attempt i*w+j is post i on platform j, where w is the number of platforms |
| SocialShare.SharedPlusFailed | social-share-plugin/backend/endpoints.py:249-258 | successful and failed attempts add up to all attempts |
| SocialShare.BulkShare | social-share-plugin/backend/endpoints.py:209-268 | 400 "Post IDs are required" and "At least one platform is required"; otherwise the results are all post x platform attempts in order, and the totals count successes and failures |
| SocialShare.ShareRow | social-share-plugin/backend/endpoints.py:229-247 | the inner loop records one attempt per platform for the post, in platform order |
| SocialShare.RealTrackerAllShared | social-share-plugin/backend/endpoints.py:228-247 | with the plugin's own tracker every attempt succeeds |
| SocialShare.RealTrackerNeverFails | social-share-plugin/backend/endpoints.py:228-247 | with the plugin's own tracker no attempt fails |
| SocialShare.NoneFailed | social-share-plugin/backend/endpoints.py:249-258 | a list of successes has no failure |
| SocialShare.ShareUrlsCoverPlatforms | social-share-plugin/backend/endpoints.py:279-290 | there is a share URL for each of the seven platforms |
| SocialShare.ShareUrlsCarryPostUrl | social-share-plugin/backend/endpoints.py:279-290 | every share URL embeds the post URL |
| SocialShare.GetShareUrls | social-share-plugin/backend/endpoints.py:270-302 | the post URL is the site URL with /posts/ and the id; the URLs cover exactly the platforms and each embeds the post URL |
| Models.ParseRole | backend/models.py:8-11 | parses exactly the values admin, editor and author, and renders back to the same text |
| Models.ParseStatus | backend/models.py:13-16 | parses exactly published, draft and private, and renders back to the same text |
| Models.ParsePluginStatus | backend/models.py:18-21 | parses exactly available, installed and active, and renders back to the same text |
| Models.EnumValuesRoundTrip | backend/models.py:8-21 | each enumeration member parses back from its value |
| Models.NewUserCreate | backend/models.py:34-38 | valid exactly for a name of 2 to 100 characters and a password of at least 6; the role defaults to author; otherwise 422 |
| Models.NewPostCreate | backend/models.py:70-77 | valid exactly for a title of 1 to 500 characters; status defaults to draft and tags to empty; otherwise 422 |
| Models.NewPageCreate | backend/models.py:112-117 | valid exactly for a title of 1 to 500 characters; status defaults to draft and template to "default"; otherwise 422 |
| Models.NewHookDefinition | backend/models.py:147-151 | the execution order defaults to 10 |
| Models.NewPlugin | backend/models.py:175-191 | price defaults to "Free"; hooks, settings, schema, dependencies and features default to empty; no install path |
| Models.ParseDashboardStats | backend/models.py:275-280 | validates exactly when each of the four counts coerces to an integer (an int, a bool as 0 or 1, or an integer string) and recent_activity, if present, is a list of dicts; the fields carry the coerced values |
| Models.CoerceInt | backend/models.py:275-279 | ints are kept, bools become 0 or 1, a string is accepted exactly when it is an optional sign followed by digits, and nothing else is accepted |
| Models.CoerceIntOfRendering | backend/models.py:275-279 | the decimal rendering of any integer coerces back to that integer |
| Models.LaxCountsValidate | backend/models.py:275-280 | counts given as True, "12" and "-0" validate as 1, 12 and 0 |
| Store.FindById | backend/database.py:127-135 | finds a stored document with that id, and finds none exactly when no document has it; users and posts are looked up through it |
| Sorting.SortDesc | backend/routes/dashboard_routes.py:173 | the result is a permutation of the input, sorted by the key, highest first |
| Sorting.Insert | backend/routes/dashboard_routes.py:173 | insertion into a descending list keeps it descending and adds exactly one element |
| Sorting.SortInPlace | social-share-plugin/backend/endpoints.py:189-194 | the loop's result is the descending sort of the input |
| Sorting.SortDescSnoc | social-share-plugin/backend/endpoints.py:189-194 | sorting one more element equals inserting it into the sorted prefix |
| Sorting.ConsSorted | backend/routes/dashboard_routes.py:173 | placing an element whose key is at least the head's in front of a descending list keeps it descending |
| Sorting.SortedPrefix | backend/routes/dashboard_routes.py:173-174 | the slice `[:n]` of a sorted list is sorted and takes its elements from the list |
| Values.AsNumber | social-share-plugin/backend/endpoints.py:32-36 | a value takes part in arithmetic exactly when it is an int or a bool |
| Values.Get | social-share-plugin/backend/endpoints.py:21 | dict.get gives the stored value, or the default when the key is absent |
| Common.GroupedDigits | plugins/custom-analytics-dashboard/backend/hooks.py:26 | removing the commas from the thousands-separated rendering of a number gives its plain decimal rendering |
| Common.GroupDigitsNoCommas | plugins/custom-analytics-dashboard/backend/hooks.py:26 | putting commas between groups of three digits and removing them again gives back the digit string |
| Common.ParseNatToString | plugins/custom-analytics-dashboard/backend/hooks.py:47 | the decimal rendering of a number reads back as that number |

## Left out

- `initialize`, `update_plugin_settings`, `load_active_plugins` and `get_frontend_hooks` in backend/plugin_system.py are outside the modelled core. The first three only chain database calls into the modelled operations; the last returns a field.
- Installation's ZIP extraction, file-system writes, reading plugin.json and loading the module with importlib are not modelled. The parsed config and the exported hook functions are parameters; a missing or malformed package is `None`.
- PluginSystem.PluginManager.InstallPlugin: only validation, the derived id and the stored record are modelled. Exceptions from the file system and the database, which the source turns into a failure, are not.
- The database is in-memory sequences. A query's result is a parameter constrained to match the query's filter and limit, so the MongoDB sort order of those results is not modelled.
- Database exceptions that the routes turn into 500 responses are not modelled. The 500 of the social share endpoints is modelled where the endpoint's own code raises it.
- `delete_post` and `get_pages` in backend/routes/content_routes.py are not modelled. They repeat the gates of `update_post` and `get_posts`.
- `get_post_social_stats` and `get_social_analytics_overview` in social-share-plugin/backend/endpoints.py are not modelled. Their output is random numbers and floating-point ratios with no guarantee beyond the draw ranges.
- Search by regular expression: the model keeps the search text in the filter but does not model MongoDB's `$regex` matching.
- ContentRoutes.GenerateSlugIsSlug: `\w` and `\s` are modelled on ASCII. Python's Unicode word and space classes and Unicode lower-casing are not modelled.
- PluginSystem.PluginIdFor: `str.lower()` is modelled on ASCII letters only. Python lowers every Unicode capital, so "Über Plugin" gives "über-plugin" where the model keeps 'Ü', and some capitals lower to two code points ("İ"), which changes the length. The model promises no ASCII capital, not no capital.
- ContentRoutes.StripTags: models `re.sub('<[^<]+?>', '', ...)` as a single left-to-right pass. It does not model regular expressions in general.
- Length and format validations of `UserUpdate`, `PostUpdate`, `PageUpdate` and e-mail addresses (pydantic's `EmailStr`) are not modelled.
- Timestamps, `datetime.utcnow()` and ISO-8601 renderings are parameters. Rendering a datetime id as text gives "" in the model.
- Python floats are not modelled. In the like and share endpoints a count takes part in arithmetic as Python does it: ints as they are, booleans as 0 and 1. A float count makes those endpoints fail in the model.
- Models.ParseDashboardStats: a string count is coerced only when it is an optional sign followed by ASCII digits. Other forms that pydantic may accept, depending on its version, are not modelled: surrounding whitespace, `_` digit separators, and floats or float strings with a zero fraction.
- SocialShare.BulkShare: iterating a dict's keys is modelled as an error (500), because dict order is not representable here.
- Random draws (`random.randint`, `random.choice`) are parameters constrained to their ranges.
- SocialShare.BuiltTopPosts: one clock reading serves every post's `created_at`. The source reads the clock once per post, so its posts can carry different times.
- AnalyticsHooks.IdText: a post id that is a list or a dict renders as "" in the tracking id. Python's f-string would give its repr.
- PluginSystem.PluginManager.ExecuteHook: a handler's non-None return is modelled as a dict only. The source adopts any non-None return as the new payload, including a list or a string.
- Hook handlers are pure functions of the payload. Handlers that mutate the payload in place while also returning it, and aliasing between the payload and the caller's dict, are not modelled.
- `async`/`await` and concurrent requests are not modelled; each operation is atomic.
- Password hashing (bcrypt), JWT tokens and `get_current_user` are not modelled. A caller is a `User` record and a password hash is a parameter.
- `track_like_event` and `track_share_event` live in the social media share plugin's backend hooks, which are not part of this model beyond their results. The model takes what they return: they never raise, and their event ids are "evt_" and "share_" followed by the timestamp. `ShareTracker` is that tracker, and `BulkShare` accepts any tracker.
- Logging is not modelled.

## Findings

| source | as written | input that shows it | evidently intended | confidence | as-written member | corrected member |
|---|---|---|---|---|---|---|
| social-share-plugin/backend/endpoints.py:24-48 | the 400 for an invalid action is raised inside the `try` and caught by `except Exception`, so the client gets 500 "Failed to process like" | `{"action": "share"}` | 400 "Action must be 'like' or 'unlike'" | not executed | SocialShare.LikePost | SocialShare.LikePostCorrected |
