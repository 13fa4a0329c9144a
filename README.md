# EduSphere frontend core, modelled in Dafny

This project models the state-keeping and decision logic of the EduSphere React
frontend. Rendering, timers, the browser and the Supabase SDK are replaced by
explicit steps and inputs. The parts modelled are:

- **Environment configuration** (`env.dfy`, module `Env`). It covers reading
  `REACT_APP_*` variables with their defaults, `parseBoolean`, `toInt`,
  `parseJSON`, the missing-variable report of `validateEnv`, and feature-flag
  lookup. `JSON.parse` is a function parameter.
- **Analytics queue** (`analytics.dfy`, module `Analytics`). `capture` appends
  to the in-memory queue. Each interval tick splices the whole queue into a
  batch and starts its insert. The insert settles later as a separate step:
  - if it throws, the batch is put back at the front of the queue;
  - if it returns, even with an error object, the batch is not re-queued.

  Ghost state records every captured event. The class invariant proves that
  no event is ever lost or duplicated, and that nothing is reordered as long
  as two inserts are never pending at once.
- **Notification bell** (`notifications.dfy`, module `Notifications`). It
  covers:
  - the per-user realtime channel `user_<id>`;
  - a list capped at 20 entries, newest first;
  - an unread counter with no cap;
  - the panel toggle;
  - what the component renders.
- **Metrics service** (`metrics.dfy`, module `Metrics`). It covers:
  - `safeCount`;
  - the three fetchers, which turn every failure into 0;
  - the presence-then-analytics fallback order for active learners;
  - `fetchAllMetrics`;
  - the realtime handlers, which produce partial updates;
  - the channel bookkeeping of `subscribeToMetrics` and its cleanup.

  Each backend query is an input that says how the query ended: an answer, a
  reported error, or a throw. The client's open channels are a class.
- **Live metrics hook** (`live_metrics.dfy`, module `LiveMetrics`). It holds
  the target snapshot and the displayed snapshot:
  - full loads replace the target;
  - realtime partial updates merge into it;
  - with reduced motion the display snaps to the target;
  - otherwise animation frames move the display towards the target and land
    on it once the duration has elapsed.
- **Route access** (`routing.dfy`, module `Routing`). It covers the
  `ProtectedRoute` decision and the application's table of paths and guards.
- **Pagination** (`pagination.dfy`, module `Pagination`). It covers the page
  each button requests and when each button is disabled.
- **Toasts** (`toast.dfy`, module `Toast`). It covers:
  - the provider's toast list;
  - `addToast` appending a toast and scheduling its removal by id;
  - the removal itself;
  - the variant colours;
  - `useToast`.

`js.dfy` (module `Js`) holds the JavaScript semantics these parts rely on:

- values and their truthiness;
- `trim`, using the WhiteSpace and LineTerminator sets of ECMA-262;
- `parseInt(s, 10)`;
- `Number(s)`, for integer literals;
- decimal rendering.

Numbers are integers plus NaN. Random ids, timestamps and the auth state are
parameters.

Some behaviours of the code that the proofs make explicit:

- **Overlapping inserts reorder events.** Suppose an insert is still pending
  when the next tick fires. If both inserts then throw, the second batch is
  put back in front of the first
  (`Analytics.OverlappingFailuresReorder`). Nothing is lost in that case
  either.
- **A returned error drops its batch.** An insert whose returned result
  reports an error does not re-queue the batch. Only a throw does.
- **`isFeatureEnabled` sees inherited names.** It uses `key in FEATURE_FLAGS`,
  so names from Object.prototype such as `"toString"` read as enabled even
  when no flags are set (`Env.InheritedNameReadsEnabled`). If the flags parse
  to something that is not an object, the call throws a TypeError.
- **A role that has not loaded is admitted.** While the role is still null or
  empty, a signed-in user passes every role check, including the one on
  `/admin` (`Routing.NullRoleReachesAdmin`).
- **The unread count is not capped.** It keeps counting past the 20 items the
  list holds.

## Model

| member | source | states |
|---|---|---|
| Js.TrimStart | edusphere_frontend/src/config/env.js:33 | the result is the longest suffix that does not start with whitespace; everything cut off is whitespace |
| Js.TrimEnd | edusphere_frontend/src/config/env.js:33 | the result is the longest prefix that does not end with whitespace; everything cut off is whitespace |
| Js.Trim | edusphere_frontend/src/config/env.js:33 | the result is no longer than the input and neither starts nor ends with whitespace |
| Js.TrimIgnoresPadding | edusphere_frontend/src/config/env.js:33 | whitespace added on either side never changes what `trim` returns |
| Js.DigitRunOfDigits | edusphere_frontend/src/config/env.js:39 | the leading digit run of digits followed by a non-digit is exactly those digits' value |
| Js.LeadingInteger | edusphere_frontend/src/config/env.js:39 | `parseInt` finds a number exactly when, after whitespace, the text starts with a digit or a sign followed by a digit |
| Js.LeadingIntegerOfUnsigned | edusphere_frontend/src/config/env.js:39 | `parseInt` of unsigned digits followed by a non-digit is their value |
| Js.LeadingIntegerAfterMinus | edusphere_frontend/src/config/env.js:39 | `parseInt` of a minus sign, digits and a non-digit is the negated value |
| Js.LeadingIntegerOfDecimal | edusphere_frontend/src/config/env.js:39 | `parseInt` reads back the decimal rendering of any integer, whatever non-digit text follows it |
| Js.ToNumber | edusphere_frontend/src/services/metrics.js:27 | `Number` gives a number unchanged, 0 for null, and NaN for undefined, NaN and objects |
| Js.StringToNumber | edusphere_frontend/src/services/metrics.js:27 | whitespace-only text is 0; trimmed digits are their value; a result needs digits after the first character; text starting with anything but a sign or digit is NaN |
| Js.StringToNumberOfDigits | edusphere_frontend/src/services/metrics.js:27 | `Number` of a string of decimal digits is their value |
| Js.StringToNumberAfterMinus | edusphere_frontend/src/services/metrics.js:27 | `Number` of a minus sign followed by decimal digits is their negated value |
| Js.StringToNumberOfDecimal | edusphere_frontend/src/services/metrics.js:27 | `Number` of any integer's decimal rendering is that integer |
| Js.NumberOfDecimal | edusphere_frontend/src/services/metrics.js:27 | `Number` reads back the decimal rendering of any integer |
| Env.OrElse | edusphere_frontend/src/config/env.js:17 | `value \|\| fallback` gives the value when it is set and non-empty, and the fallback otherwise |
| Env.ParseBoolean | edusphere_frontend/src/config/env.js:31-36 | on a string: true exactly when the trimmed string is one of "1", "true", "TRUE", "yes", "on", and never the fallback; a boolean is returned unchanged; any other value gives the fallback |
| Env.BooleanText | edusphere_frontend/src/config/env.js:32-33 | "true" and "false" read back as true and false whatever the fallback |
| Env.ParseBooleanPadded | edusphere_frontend/src/config/env.js:33 | on a string the result ignores surrounding whitespace and does not depend on the fallback |
| Env.ParseBooleanIsCaseSensitive | edusphere_frontend/src/config/env.js:33 | "True" reads as false |
| Env.ToInt | edusphere_frontend/src/config/env.js:38-41 | the leading base-10 integer when there is one; the fallback for an absent value, the empty string, or text with no leading integer |
| Env.ToIntReadsLeadingInteger | edusphere_frontend/src/config/env.js:39-40 | `toInt` of n's decimal text followed by any non-digit text is n |
| Env.ToIntWithoutDigits | edusphere_frontend/src/config/env.js:39-40 | text whose first non-space character is neither a sign nor a digit gives the fallback |
| Env.ParseJson | edusphere_frontend/src/config/env.js:43-52 | the fallback for a falsy value; an object unchanged; otherwise the parse result, or the fallback when the parse throws |
| Env.GetEnv | edusphere_frontend/src/config/env.js:10-25 | the URLs and key are passed through as read; NODE_ENV is REACT_APP_NODE_ENV, else NODE_ENV, else "development", skipping unset or empty values; LOG_LEVEL and HEALTHCHECK_PATH are the set non-empty value or "info" and "/healthz"; PORT is the leading integer of the variable or 3000; each boolean is the five-word test of the set value, false when unset; FEATURE_FLAGS is the parsed JSON, `{}` when unset or empty |
| Env.MissingVars | edusphere_frontend/src/config/env.js:55-57 | lists REACT_APP_SUPABASE_URL and REACT_APP_SUPABASE_KEY exactly when missing, URL first, and nothing else |
| Env.JoinNames | edusphere_frontend/src/config/env.js:62 | no names give "", one name gives itself, and the joined text starts with the first name |
| Env.MissingMessage | edusphere_frontend/src/config/env.js:62 | the logged line is the fixed prefix followed by the joined names |
| Env.ValidateEnv | edusphere_frontend/src/config/env.js:54-64 | the pushed list equals the missing variables; a message is logged exactly when the list is non-empty and NODE_ENV is not "production"; the message names the list |
| Env.BothMissingMessage | edusphere_frontend/src/config/env.js:62 | with both missing, the message names both, comma-separated, URL first |
| Env.IsFeatureEnabled | edusphere_frontend/src/config/env.js:67-72 | throws exactly when the flags are not an object; an own key gives its truthiness; a key the flags lack gives true for an Object.prototype name and the default otherwise |
| Env.InheritedNameReadsEnabled | edusphere_frontend/src/config/env.js:70 | with no flags configured, "toString" reads as enabled |
| Env.ExperimentsEnabled | edusphere_frontend/src/config/env.js:75-79 | true exactly when REACT_APP_EXPERIMENTS_ENABLED is set and its trimmed value is one of the five true words |
| Analytics.MakeEvent | edusphere_frontend/src/hooks/useAnalytics.js:12-17 | the record carries the event name and timestamp; props default to `{}` when undefined |
| Analytics.CaptureKeeps | edusphere_frontend/src/hooks/useAnalytics.js:13 | appending a captured event to the queue keeps conservation and order |
| Analytics.SpliceKeeps | edusphere_frontend/src/hooks/useAnalytics.js:25 | moving the whole queue into a pending batch keeps conservation and order |
| Analytics.SettleKeeps | edusphere_frontend/src/hooks/useAnalytics.js:26-32 | settling any pending batch, whether re-queued or sent, loses and duplicates no event |
| Analytics.SettleKeepsOrder | edusphere_frontend/src/hooks/useAnalytics.js:31 | with a single pending batch, re-queuing it at the front keeps capture order |
| Analytics.CaptureStep | edusphere_frontend/src/hooks/useAnalytics.js:13 | `capture` keeps the queue's invariant: no event lost or duplicated, and capture order kept while flushes have not overlapped |
| Analytics.SpliceStep | edusphere_frontend/src/hooks/useAnalytics.js:25 | starting a flush keeps the invariant; the flushes count as overlapping once a second batch is pending |
| Analytics.SettleStep | edusphere_frontend/src/hooks/useAnalytics.js:26-32 | settling any pending batch, re-queued in front or sent, keeps the invariant |
| Analytics.AnalyticsQueue.constructor | edusphere_frontend/src/hooks/useAnalytics.js:10 | the queue starts empty and active, with nothing pending |
| Analytics.AnalyticsQueue.Capture | edusphere_frontend/src/hooks/useAnalytics.js:12-18 | exactly one event is appended at the end; earlier entries and all other state are unchanged; conservation is kept |
| Analytics.AnalyticsQueue.Tick | edusphere_frontend/src/hooks/useAnalytics.js:35-37 | a flush starts exactly when active with a non-empty queue; the whole queue, in order, becomes the new pending batch and the queue is empty; otherwise nothing changes |
| Analytics.AnalyticsQueue.Settle | edusphere_frontend/src/hooks/useAnalytics.js:26-32 | a throw makes the queue batch ++ queue; a return, with or without an error object, does not re-queue the batch; no event is lost |
| Analytics.AnalyticsQueue.Teardown | edusphere_frontend/src/hooks/useAnalytics.js:39-42 | inactive, with the queue and pending batches unchanged |
| Analytics.TickAfterTeardown | edusphere_frontend/src/hooks/useAnalytics.js:36 | after teardown, a tick starts no flush and changes nothing |
| Analytics.FailedFlushKeepsOrder | edusphere_frontend/src/hooks/useAnalytics.js:25-31 | capture a, flush, capture b, throw: the queue is [a, b] |
| Analytics.FirstFlush | edusphere_frontend/src/hooks/useAnalytics.js:35-37 | capture a then flush: a is the one pending batch and the queue is empty |
| Analytics.OverlappingFlushes | edusphere_frontend/src/hooks/useAnalytics.js:35-37 | capture a, flush, capture b, flush: both batches are pending at once |
| Analytics.OverlappingFailuresReorder | edusphere_frontend/src/hooks/useAnalytics.js:31 | if both overlapping inserts then throw, the queue is [b, a] |
| Notifications.ChannelName | edusphere_frontend/src/components/notifications/NotificationBell.jsx:17 | the topic is "user_" followed by the user id |
| Notifications.NotifyItem | edusphere_frontend/src/components/notifications/NotificationBell.jsx:19 | the item has the random id unless the payload object carries its own `id`; it has every field of an object payload, or one field per character of a string payload keyed by its index, and no other field |
| Notifications.IndexFields | edusphere_frontend/src/components/notifications/NotificationBell.jsx:19 | spreading a string gives exactly one field per character, keyed by its decimal index |
| Notifications.Prepend | edusphere_frontend/src/components/notifications/NotificationBell.jsx:19 | the new item is first, followed by the previous items in order; the length is min(previous + 1, 20) |
| Notifications.PrependFull | edusphere_frontend/src/components/notifications/NotificationBell.jsx:19 | on a full list the oldest (last) item is dropped |
| Notifications.FeedKeepsNewest | edusphere_frontend/src/components/notifications/NotificationBell.jsx:18-19 | after any run of notifications the list holds the newest items, newest first, then the earlier list, cut at 20 |
| Notifications.Title | edusphere_frontend/src/components/notifications/NotificationBell.jsx:42 | the item's own title when it is truthy, "Update" otherwise; always truthy |
| Notifications.NotificationBell.constructor | edusphere_frontend/src/components/notifications/NotificationBell.jsx:9-24 | count 0, panel closed, empty list; a channel is opened only when a user is present |
| Notifications.NotificationBell.SetUser | edusphere_frontend/src/components/notifications/NotificationBell.jsx:14-24 | on a change of user, the old channel is removed and the new user's channel opened; with no user, no channel is open; list, count and panel are kept |
| Notifications.NotificationBell.Notify | edusphere_frontend/src/components/notifications/NotificationBell.jsx:18-20 | on an open channel: the item is prepended with the cap and the count grows by exactly one; without a channel nothing changes |
| Notifications.NotificationBell.Toggle | edusphere_frontend/src/components/notifications/NotificationBell.jsx:29 | `open` flips and nothing else changes |
| Notifications.NotificationBell.Unmount | edusphere_frontend/src/components/notifications/NotificationBell.jsx:23 | the channel is removed, and every channel opened has been closed |
| Notifications.NotificationBell.View | edusphere_frontend/src/components/notifications/NotificationBell.jsx:26-45 | renders nothing without a user; a badge exactly when count > 0; the panel exactly when open, with "No notifications" for an empty list and otherwise one title per item, in list order |
| Notifications.ToggleTwice | edusphere_frontend/src/components/notifications/NotificationBell.jsx:29 | toggling twice restores `open` |
| Notifications.SwitchUser | edusphere_frontend/src/components/notifications/NotificationBell.jsx:14-24 | switching between two users opens two channels and removes one; only the second user's channel stays open |
| Metrics.SafeCount | edusphere_frontend/src/services/metrics.js:25-29 | 0 for null, undefined and anything that `Number` turns into NaN; otherwise the numeric value |
| Metrics.SafeCountReadsNumbers | edusphere_frontend/src/services/metrics.js:25-29 | a count given as a number, or as its decimal text, comes through unchanged |
| Metrics.UserIds | edusphere_frontend/src/services/metrics.js:201 | one `user_id` per row of `data \|\| []`, in row order |
| Metrics.DistinctAtMostLength | edusphere_frontend/src/services/metrics.js:230-231 | distinct truthy ids ≤ distinct ids ≤ the number of rows |
| Metrics.DistinctCountAtMostLength | edusphere_frontend/src/services/metrics.js:231 | the number of distinct values in a list never exceeds its length |
| Metrics.DistinctIgnoresRepeats | edusphere_frontend/src/services/metrics.js:201 | a repeated id is counted once, in both the plain and the truthy distinct count |
| Metrics.FetchCoursesCount | edusphere_frontend/src/services/metrics.js:154-173 | 0 without a client, on a reported error and on a throw; otherwise `safeCount(count)` |
| Metrics.FetchRecentCompletionsCount | edusphere_frontend/src/services/metrics.js:244-266 | 0 without a client, on a reported error and on a throw; otherwise `safeCount(count)` |
| Metrics.PresenceCount | edusphere_frontend/src/services/metrics.js:196-202 | max(`safeCount(count)`, number of distinct ids): never below either, and equal to one of them |
| Metrics.ActivityCount | edusphere_frontend/src/services/metrics.js:218-236 | 0 on a reported error or a throw; otherwise the number of distinct truthy `user_id` values, at most the number of rows |
| Metrics.FetchActiveLearnersCount | edusphere_frontend/src/services/metrics.js:180-237 | 0 without a client; the precise presence count when the head query and the re-query both succeed; otherwise exactly the analytics fallback |
| Metrics.FallbackOnlyWhenPresenceFails | edusphere_frontend/src/services/metrics.js:185-216 | when the presence path succeeds, the fallback query does not affect the result |
| Metrics.FetchAllMetrics | edusphere_frontend/src/services/metrics.js:273-280 | each fetch result appears under its own key |
| Metrics.NoClientLoadsZero | edusphere_frontend/src/services/metrics.js:273-280 | without a client, a full load is all zeros |
| Metrics.FailedQueriesLoadZero | edusphere_frontend/src/services/metrics.js:273-280 | when every query fails, in any way, a full load is all zeros |
| Metrics.OnPresenceChange | edusphere_frontend/src/services/metrics.js:76-85 | a presence change reports the recounted active learners under that key alone |
| Metrics.InsertedEventName | edusphere_frontend/src/services/metrics.js:112-113 | `payload?.new?.event_name` with a falsy row read as `{}`: undefined unless the payload has an object row, and the row's own `event_name` when it has one |
| Metrics.OnCompletionInsert | edusphere_frontend/src/services/metrics.js:109-121 | an update is produced exactly when the inserted row's `event_name` is "completion"; it carries only the recounted completions |
| Metrics.OtherInsertsIgnored | edusphere_frontend/src/services/metrics.js:112-113 | a payload without a row, or a row naming another event, produces no update |
| Metrics.SubscribeToMetrics | edusphere_frontend/src/services/metrics.js:53-147 | without a client, or when aborted, the cleanup is a no-op and no channel is left open; otherwise a presence channel exactly when its setup went through and a completions channel exactly when its setup went through, each fresh, and a cleanup that removes them |
| Metrics.Realtime.OpenChannel | edusphere_frontend/src/services/metrics.js:67-68 | `client.channel(topic)` opens a channel with that topic, distinct from every open one, and adds only it |
| Metrics.Realtime.RemoveChannel | edusphere_frontend/src/services/metrics.js:133-134 | `client.removeChannel(c)` closes that channel and no other |
| Metrics.RunCleanup | edusphere_frontend/src/services/metrics.js:138-146 | removes exactly the channels it holds; a no-op cleanup changes nothing |
| Metrics.SubscribeThenCleanup | edusphere_frontend/src/services/metrics.js:53-147 | subscribing and then cleaning up leaves exactly the channels that were open before |
| LiveMetrics.Merge | edusphere_frontend/src/hooks/useLiveMetrics.js:106 | each key the partial update carries replaces the previous value; every other key keeps it |
| LiveMetrics.MergeKeepsOthers | edusphere_frontend/src/hooks/useLiveMetrics.js:106 | a one-key update changes only that counter, and {10, 5, 2} merged with {recentCompletions: 3} is {10, 5, 3}; an empty update changes nothing |
| LiveMetrics.MergeIdempotent | edusphere_frontend/src/hooks/useLiveMetrics.js:106 | merging the same update twice is merging it once |
| LiveMetrics.MergeCommutesOnDistinctKeys | edusphere_frontend/src/hooks/useLiveMetrics.js:104-109 | a presence update and a completions update give the same snapshot in either order |
| LiveMetrics.Progress | edusphere_frontend/src/hooks/useLiveMetrics.js:65 | at most 1; non-negative for non-negative elapsed time; equal to 1 exactly when at least max(duration, 1) ms have elapsed |
| LiveMetrics.Round | edusphere_frontend/src/hooks/useLiveMetrics.js:67 | the nearest integer, with halves rounded up |
| LiveMetrics.Lerp | edusphere_frontend/src/hooks/useLiveMetrics.js:67 | progress 0 gives the start value and progress 1 gives the integer target |
| LiveMetrics.LerpBetween | edusphere_frontend/src/hooks/useLiveMetrics.js:67 | for progress in [0, 1], the value lies between start and target |
| LiveMetrics.Step | edusphere_frontend/src/hooks/useLiveMetrics.js:69-73 | at progress 1 every displayed counter equals its target; at progress 0 nothing moves |
| LiveMetrics.StepBetween | edusphere_frontend/src/hooks/useLiveMetrics.js:69-73 | a frame never moves a counter past its target |
| LiveMetrics.LiveMetricsHook.constructor | edusphere_frontend/src/hooks/useLiveMetrics.js:18-22 | every counter starts at 0; a frame is requested unless motion is reduced; the realtime channels are opened |
| LiveMetrics.LiveMetricsHook.Restart | edusphere_frontend/src/hooks/useLiveMetrics.js:53-84 | with reduced motion the display is set to the target with no frame; otherwise a fresh animation is requested |
| LiveMetrics.LiveMetricsHook.SetReducedMotion | edusphere_frontend/src/hooks/useLiveMetrics.js:25-42 | switching to reduced motion snaps the display to the target with no frame pending; switching it off requests a fresh animation from the current display; an unchanged preference changes nothing; the target and the realtime cleanup are kept |
| LiveMetrics.LiveMetricsHook.SetMetrics | edusphere_frontend/src/hooks/useLiveMetrics.js:48-57 | the target becomes the new snapshot; the display follows at once under reduced motion |
| LiveMetrics.LiveMetricsHook.ResolveLoad | edusphere_frontend/src/hooks/useLiveMetrics.js:91-100 | a successful load while mounted replaces the whole snapshot and restarts the animation (or snaps under reduced motion); a load after teardown or one that throws changes no state; the realtime cleanup is kept |
| LiveMetrics.LiveMetricsHook.ApplyPartial | edusphere_frontend/src/hooks/useLiveMetrics.js:104-109 | while mounted, the snapshot becomes the merge of the previous one with the update and the animation restarts (or snaps under reduced motion); after unmount nothing changes; the realtime cleanup is kept |
| LiveMetrics.LiveMetricsHook.Frame | edusphere_frontend/src/hooks/useLiveMetrics.js:63-78 | the first frame sets the start; the display moves by the progress; a further frame is requested exactly while progress < 1 |
| LiveMetrics.LiveMetricsHook.Teardown | edusphere_frontend/src/hooks/useLiveMetrics.js:115-120 | unmounted, with the frame cancelled and the realtime channels removed |
| LiveMetrics.AnimationSettles | edusphere_frontend/src/hooks/useLiveMetrics.js:63-77 | after a change, a frame at t0 and one a full duration later put the display exactly on the target and stop the animation |
| LiveMetrics.MountThenUnmount | edusphere_frontend/src/hooks/useLiveMetrics.js:87-121 | mounting and unmounting leave the client's open channels as they were |
| Routing.ProtectedRoute | edusphere_frontend/src/components/common/routing/ProtectedRoute.jsx:9-17 | the loading view whenever loading; /auth/login when there is no user; "/" exactly when a known role is outside a non-empty list; the outlet exactly otherwise |
| Routing.NoRolesAdmitsAnyUser | edusphere_frontend/src/components/common/routing/ProtectedRoute.jsx:13-16 | with the role list absent or empty, every signed-in user gets the outlet |
| Routing.ListedRoleAdmitted | edusphere_frontend/src/components/common/routing/ProtectedRoute.jsx:13-16 | a listed role gets the outlet |
| Routing.UnknownRoleAdmitted | edusphere_frontend/src/components/common/routing/ProtectedRoute.jsx:13 | a null, undefined or empty role gets the outlet whatever the list |
| Routing.UnlistedRoleRefused | edusphere_frontend/src/components/common/routing/ProtectedRoute.jsx:13-14 | a non-empty role missing from a non-empty list is refused |
| Routing.GuardOf | edusphere_frontend/src/routes/index.jsx:36-65 | a guard is found exactly when the path is declared, and it is the guard of a declared route |
| Routing.GuardOfUnique | edusphere_frontend/src/routes/index.jsx:36-65 | in a table with unique paths, each route's path looks up that route's guard |
| Routing.RoutesUnique | edusphere_frontend/src/routes/index.jsx:36-65 | every path appears exactly once |
| Routing.RouteGuards | edusphere_frontend/src/routes/index.jsx:36-65 | four paths are public (/pricing and the three /auth pages); seven need sign-in with no role list; /instructor admits instructor and admin; /admin admits only admin |
| Routing.Visit | edusphere_frontend/src/routes/index.jsx:36-65 | an undeclared path matches nothing; a public path renders its page; a guarded path renders what `ProtectedRoute` decides for its roles |
| Routing.InstructorRouteGuard | edusphere_frontend/src/routes/index.jsx:45-47 | /instructor is guarded by ["instructor", "admin"] |
| Routing.AdminRouteGuard | edusphere_frontend/src/routes/index.jsx:49-51 | /admin is guarded by ["admin"] |
| Routing.InstructorRefusedAdmin | edusphere_frontend/src/routes/index.jsx:49-51 | a signed-in instructor is sent to "/" from /admin |
| Routing.InstructorAdmitted | edusphere_frontend/src/routes/index.jsx:45-47 | a signed-in instructor reaches /instructor |
| Routing.AdminAdmitted | edusphere_frontend/src/routes/index.jsx:45-51 | a signed-in admin reaches /instructor and /admin |
| Routing.GuestAccess | edusphere_frontend/src/routes/index.jsx:57-60 | a visitor without a user is sent to /auth/login from /checkout but sees /pricing |
| Routing.NullRoleReachesAdmin | edusphere_frontend/src/routes/index.jsx:49-51 | a signed-in user whose role is null reaches /admin |
| Pagination.Prev | edusphere_frontend/src/components/common/data/Pagination.jsx:6 | never below 1; page - 1 when page > 1, and 1 otherwise |
| Pagination.Next | edusphere_frontend/src/components/common/data/Pagination.jsx:7 | never above total; page + 1 when page < total, and total otherwise |
| Pagination.EnabledButtonsMoveOnePage | edusphere_frontend/src/components/common/data/Pagination.jsx:6-16 | an enabled previous button requests page - 1; an enabled next button requests page + 1 |
| Pagination.DisabledButtonsStay | edusphere_frontend/src/components/common/data/Pagination.jsx:6-16 | on a page within 1..total, a disabled button would request the current page |
| Pagination.RequestsStayInRange | edusphere_frontend/src/components/common/data/Pagination.jsx:6-7 | from a page within 1..total, both buttons request a page within 1..total |
| Pagination.PrevNextRoundTrip | edusphere_frontend/src/components/common/data/Pagination.jsx:6-7 | next then previous, or previous then next, returns to an inner page |
| Toast.Without | edusphere_frontend/src/components/common/overlays/Toast.jsx:12 | keeps exactly the toasts whose id differs and never grows the list |
| Toast.WithoutAppend | edusphere_frontend/src/components/common/overlays/Toast.jsx:12 | removal distributes over concatenation, so the remaining toasts keep their relative order |
| Toast.WithoutAbsent | edusphere_frontend/src/components/common/overlays/Toast.jsx:12 | removing an id that no toast carries leaves the list unchanged |
| Toast.AddThenRemove | edusphere_frontend/src/components/common/overlays/Toast.jsx:9-12 | appending a toast under a fresh id and then removing that id restores the list |
| Toast.VariantColor | edusphere_frontend/src/components/common/overlays/Toast.jsx:29-38 | #10B981 exactly for "success", #EF4444 exactly for "error", #2563EB for anything else |
| Toast.Rendered | edusphere_frontend/src/components/common/overlays/Toast.jsx:19-23 | one entry per toast, in list order, with its message and its variant's colour |
| Toast.ToastProvider.constructor | edusphere_frontend/src/components/common/overlays/Toast.jsx:8 | the toast list starts empty |
| Toast.ToastProvider.AddToast | edusphere_frontend/src/components/common/overlays/Toast.jsx:9-13 | appends exactly one toast at the end, with variant "info" when none is given, and schedules its removal (3500 ms by default) |
| Toast.ToastProvider.Expire | edusphere_frontend/src/components/common/overlays/Toast.jsx:12 | a scheduled removal deletes every toast with its id and nothing else; each remaining toast still has a pending removal |
| Toast.FirstToastHasTimer | edusphere_frontend/src/components/common/overlays/Toast.jsx:11-12 | while every toast has its removal scheduled, the first toast on screen has one |
| Toast.ExpireAll | edusphere_frontend/src/components/common/overlays/Toast.jsx:12 | once every scheduled removal has fired, no toast is left |
| Toast.UseToast | edusphere_frontend/src/components/common/overlays/Toast.jsx:41-46 | throws "useToast must be used within ToastProvider" exactly when there is no provider; otherwise returns the context |

## Left out

- Numbers are integers plus NaN. Floating point is not modelled: neither fractions nor rounding above 2^53.
- Env.ToInt: does not model `parseInt` overflowing to Infinity on inputs of more than about 308 digits. In JavaScript such an input gives the fallback; in the model it gives its exact value.
- Js.ToNumber: `Number` reads only optionally signed decimal integers. Fractions, exponents, hex, binary and octal literals, and "Infinity" are all NaN here. Objects are always NaN because their conversion to a primitive is not modelled.
- Metrics.SafeCount: a count delivered as a fractional number or string reads as 0 here, not as its value. This follows the Js.ToNumber restriction.
- Env.ParseJson: `JSON.parse` is a function parameter, not an implementation of JSON.
- Env.IsFeatureEnabled: arrays are modelled as plain objects. Array-specific inherited names such as "length" and "push" are not modelled.
- Env.GetEnv: the call to `validateEnv` inside `getEnv` is modelled separately, as ValidateEnv. Its only effect is console output.
- LiveMetrics.LiveMetricsHook.Frame: intermediate frames use exact real arithmetic instead of IEEE doubles. Only the clamping of progress, the endpoints and the bounds are claimed.
- Notifications.NotificationBell.SetUser: the effect re-runs when the `user` object's identity changes. Here the user is reduced to its id, so a new object with the same id changes nothing.
- LiveMetrics.LiveMetricsHook: the polling interval and the animation duration are fixed when the hook mounts. In the source, a new `pollingIntervalMs` tears down and re-runs the load effect, and a new `animationDurationMs` restarts the animation; neither change is modelled.
- Routing.Visit: route matching is exact comparison of path strings. `:id` patterns and react-router's ranking are not modelled.
- Timers, intervals, `requestAnimationFrame`, `AbortController` and the `matchMedia` listeners are replaced by explicit steps. Examples are Tick, Settle, Frame, Expire and SetReducedMotion. Their delays are not modelled.
- Supabase SDK calls are inputs that say how each query ended. Query construction, the `isoMinutesAgo` time windows and the `.on`/`.subscribe` status callbacks are not modelled.
- Metrics.SubscribeToMetrics: a channel whose setup throws partway is taken to leave nothing open. A `removeChannel` that throws inside the cleanup is not modelled.
- Console logging (`console.warn`, `console.error`, `console.debug`) is not modelled. The one exception is the message of `validateEnv`, which is returned.
- `Math.random` ids (notifications, toasts) and `new Date().toISOString()` timestamps (analytics) are parameters.
- React rendering, memoisation and the hook's `useMemo` return object are not modelled. The displayed snapshot is the `display` field.
