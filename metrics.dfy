/**
 * The metrics service (`services/metrics.js`): count coercion, the three
 * fetchers with their error-to-0 policy, the active-learner fallback order,
 * the assembly of a full snapshot, the realtime handlers that produce partial
 * updates, and the channel bookkeeping of `subscribeToMetrics`. Each backend
 * query is an abstract input: what it answered, reported as an error, or threw.
 */
module Metrics {
  import opened Js

  // METRICS_CONFIG
  const CoursesTable := "courses"
  const AnalyticsEventsTable := "analytics_events"
  const PresenceTable := "user_presence"
  const ActiveWindowMinutes := 15
  const CompletionEventName := "completion"
  const CompletionWindowMinutes := 1440
  const PresenceTopic := "realtime-presence-metrics"
  const CompletionsTopic := "realtime-completions-metrics"

  /** The three counters shown on the dashboard. */
  datatype Snapshot = Snapshot(activeLearners: int, totalCourses: int, recentCompletions: int)

  /** A partial update passed to `onChange`: only the keys it carries. */
  datatype Partial = Partial(activeLearners: Option<int>, totalCourses: Option<int>, recentCompletions: Option<int>)

  /** A row of a `select('user_id')` answer; a row without the column holds undefined. */
  datatype Row = Row(userId: JsValue)

  /** How an awaited query ended: `{ data, count }` without error, `{ error }`, or a throw. */
  datatype QueryResult =
    | Answered(count: JsValue, data: Option<seq<Row>>)
    | Failed(message: string)
    | Threw

  /** `safeCount(val)`: 0 for null, undefined and anything `Number` turns into NaN. */
  function SafeCount(v: JsValue): (r: int)
    ensures v.Null? || v.Undefined? || ToNumber(v).None? ==> r == 0
    ensures !v.Null? && !v.Undefined? && ToNumber(v).Some? ==> r == ToNumber(v).value
  {
    if v.Null? || v.Undefined? then 0
    else match ToNumber(v)
      case None => 0
      case Some(n) => n
  }

  /** A count delivered as a number or as its decimal text comes through `safeCount` unchanged. */
  lemma SafeCountReadsNumbers(n: int)
    ensures SafeCount(Num(n)) == n
    ensures SafeCount(Str(DecimalString(n))) == n
  {
    NumberOfDecimal(n);
  }

  /** The `user_id` of each row of `data || []`. */
  function UserIds(data: Option<seq<Row>>): (ids: seq<JsValue>)
    ensures |ids| == |data.GetOr([])|
    ensures forall i :: 0 <= i < |ids| ==> ids[i] == data.GetOr([])[i].userId
  {
    var rows := data.GetOr([]);
    seq(|rows|, i requires 0 <= i < |rows| => rows[i].userId)
  }

  /** `new Set(ids).size`: the number of distinct values. */
  function DistinctCount(ids: seq<JsValue>): nat {
    |set x | x in ids|
  }

  /** `new Set(ids.filter(Boolean)).size`: the number of distinct truthy values. */
  function DistinctTruthyCount(ids: seq<JsValue>): nat {
    |set x | x in ids && Truthy(x)|
  }

  /** A list holds at most as many distinct values as it has entries. */
  lemma {:induction false} DistinctCountAtMostLength(ids: seq<JsValue>)
    ensures DistinctCount(ids) <= |ids|
  {
    if ids != [] {
      DistinctCountAtMostLength(ids[1..]);
      var tail := set x | x in ids[1..];
      assert ids == [ids[0]] + ids[1..];
      assert (set x | x in ids) == tail + {ids[0]};
    }
  }

  /** Dropping the falsy ids never increases the distinct count, which never exceeds the length. */
  lemma DistinctAtMostLength(ids: seq<JsValue>)
    ensures DistinctTruthyCount(ids) <= DistinctCount(ids) <= |ids|
  {
    DistinctCountAtMostLength(ids);
    var all, truthy := set x | x in ids, set x | x in ids && Truthy(x);
    assert all == truthy + (all - truthy);
  }

  /** Values that are repeated are counted once. */
  lemma DistinctIgnoresRepeats(ids: seq<JsValue>, k: nat)
    requires k < |ids|
    ensures DistinctCount(ids + [ids[k]]) == DistinctCount(ids)
    ensures DistinctTruthyCount(ids + [ids[k]]) == DistinctTruthyCount(ids)
  {
    assert (set x | x in ids + [ids[k]]) == (set x | x in ids);
    assert (set x | x in ids + [ids[k]] && Truthy(x)) == (set x | x in ids && Truthy(x));
  }

  /** `fetchCoursesCount()`: the exact head count, or 0 without a client or on any failure. */
  function FetchCoursesCount(hasClient: bool, courses: QueryResult): (r: int)
    ensures !hasClient || !courses.Answered? ==> r == 0
    ensures hasClient && courses.Answered? ==> r == SafeCount(courses.count)
  {
    if !hasClient then 0
    else match courses
      case Answered(count, _) => SafeCount(count)
      case Failed(_) => 0
      case Threw => 0
  }

  /** `fetchRecentCompletionsCount()`: the head count of recent completion events, or 0. */
  function FetchRecentCompletionsCount(hasClient: bool, completions: QueryResult): (r: int)
    ensures !hasClient || !completions.Answered? ==> r == 0
    ensures hasClient && completions.Answered? ==> r == SafeCount(completions.count)
  {
    if !hasClient then 0
    else match completions
      case Failed(_) => 0
      case Threw => 0
      case Answered(count, _) => SafeCount(count)
  }

  /**
   * The presence path is taken exactly when the head query on the presence table
   * reported no error and the precise re-query did not fail (a reported error is
   * re-thrown there, so it falls back just like a throw).
   */
  predicate UsesPresence(head: QueryResult, precise: QueryResult) {
    head.Answered? && precise.Answered?
  }

  /** The precise presence count: `Math.max(safeCount(count), unique.size)`. */
  function PresenceCount(precise: QueryResult): (r: int)
    requires precise.Answered?
    ensures r >= SafeCount(precise.count) && r >= DistinctCount(UserIds(precise.data))
    ensures r == SafeCount(precise.count) || r == DistinctCount(UserIds(precise.data))
  {
    var c := SafeCount(precise.count);
    var u := DistinctCount(UserIds(precise.data));
    if c >= u then c else u
  }

  /** The analytics fallback: distinct truthy user ids of recent events, or 0 on any failure. */
  function ActivityCount(activity: QueryResult): (r: nat)
    ensures !activity.Answered? ==> r == 0
    ensures activity.Answered? ==> r == DistinctTruthyCount(UserIds(activity.data))
    ensures activity.Answered? ==> r <= |activity.data.GetOr([])|
  {
    match activity
    case Answered(_, data) =>
      DistinctAtMostLength(UserIds(data));
      DistinctTruthyCount(UserIds(data))
    case Failed(_) => 0
    case Threw => 0
  }

  /**
   * `fetchActiveLearnersCount()`: 0 without a client; the precise presence count
   * when the presence queries succeed; otherwise the analytics fallback.
   */
  function FetchActiveLearnersCount(hasClient: bool, head: QueryResult, precise: QueryResult,
                                    activity: QueryResult): (r: int)
    ensures !hasClient ==> r == 0
    ensures hasClient && UsesPresence(head, precise) ==> r == PresenceCount(precise)
    ensures hasClient && UsesPresence(head, precise) ==>
      r >= SafeCount(precise.count) && r >= DistinctCount(UserIds(precise.data))
    ensures hasClient && !UsesPresence(head, precise) ==> r == ActivityCount(activity)
  {
    if !hasClient then 0
    else if head.Answered? then
      match precise
      case Answered(_, _) => PresenceCount(precise)
      case Failed(_) => ActivityCount(activity)
      case Threw => ActivityCount(activity)
    else ActivityCount(activity)
  }

  /** The fallback answer is only consulted when the presence path fails. */
  lemma FallbackOnlyWhenPresenceFails(head: QueryResult, precise: QueryResult, a1: QueryResult, a2: QueryResult)
    requires UsesPresence(head, precise)
    ensures FetchActiveLearnersCount(true, head, precise, a1) == FetchActiveLearnersCount(true, head, precise, a2)
  {
  }

  /** The answers of every query a full load issues. */
  datatype Replies = Replies(
    presenceHead: QueryResult,
    presencePrecise: QueryResult,
    recentActivity: QueryResult,
    courses: QueryResult,
    completions: QueryResult)

  /** `fetchAllMetrics()`: each fetch result under its own key; it never fails. */
  function FetchAllMetrics(hasClient: bool, q: Replies): (s: Snapshot)
    ensures s.activeLearners == FetchActiveLearnersCount(hasClient, q.presenceHead, q.presencePrecise, q.recentActivity)
    ensures s.totalCourses == FetchCoursesCount(hasClient, q.courses)
    ensures s.recentCompletions == FetchRecentCompletionsCount(hasClient, q.completions)
  {
    Snapshot(
      activeLearners := FetchActiveLearnersCount(hasClient, q.presenceHead, q.presencePrecise, q.recentActivity),
      totalCourses := FetchCoursesCount(hasClient, q.courses),
      recentCompletions := FetchRecentCompletionsCount(hasClient, q.completions))
  }

  /** Without a client every counter of a full load is 0. */
  lemma NoClientLoadsZero(q: Replies)
    ensures FetchAllMetrics(false, q) == Snapshot(0, 0, 0)
  {
  }

  /** When every query fails, a full load reads all zeros, whatever the failures were. */
  lemma FailedQueriesLoadZero(q: Replies)
    requires !q.presenceHead.Answered? && !q.recentActivity.Answered?
    requires !q.courses.Answered? && !q.completions.Answered?
    ensures FetchAllMetrics(true, q) == Snapshot(0, 0, 0)
  {
  }

  /** A presence-table change: recount the active learners and report that key only. */
  function OnPresenceChange(hasClient: bool, head: QueryResult, precise: QueryResult, activity: QueryResult): (p: Partial)
    ensures p.activeLearners == Some(FetchActiveLearnersCount(hasClient, head, precise, activity))
    ensures p.totalCourses.None? && p.recentCompletions.None?
  {
    Partial(Some(FetchActiveLearnersCount(hasClient, head, precise, activity)), None, None)
  }

  /** `(payload?.new || {})?.event_name`. */
  function InsertedEventName(payload: JsValue): (r: JsValue)
    ensures !(payload.Obj? && "new" in payload.props && Truthy(payload.props["new"])) ==> r == Undefined
    ensures r != Undefined ==> payload.Obj? && "new" in payload.props && payload.props["new"].Obj?
    ensures (payload.Obj? && "new" in payload.props && payload.props["new"].Obj? &&
             "event_name" in payload.props["new"].props) ==>
      r == payload.props["new"].props["event_name"]
  {
    var row := OptionalGet(payload, "new");
    OptionalGet(if Truthy(row) then row else Obj(map[]), "event_name")
  }

  /**
   * An insert into analytics_events: only a row whose `event_name` is exactly
   * "completion" triggers a recount and an `onChange` carrying that key alone.
   */
  function OnCompletionInsert(payload: JsValue, hasClient: bool, completions: QueryResult): (p: Option<Partial>)
    ensures p.Some? <==> InsertedEventName(payload) == Str(CompletionEventName)
    ensures p.Some? ==> p.value == Partial(None, None, Some(FetchRecentCompletionsCount(hasClient, completions)))
  {
    if InsertedEventName(payload) == Str(CompletionEventName) then
      Some(Partial(None, None, Some(FetchRecentCompletionsCount(hasClient, completions))))
    else None
  }

  /** A payload without a `new` row, or whose row names another event, changes nothing. */
  lemma OtherInsertsIgnored(hasClient: bool, completions: QueryResult, name: string)
    requires name != CompletionEventName
    ensures OnCompletionInsert(Undefined, hasClient, completions).None?
    ensures OnCompletionInsert(Obj(map["new" := Obj(map["event_name" := Str(name)])]), hasClient, completions).None?
  {
    assert InsertedEventName(Obj(map["new" := Obj(map["event_name" := Str(name)])])) == Str(name);
  }

  // ---------------------------------------------------------------------------
  // Channels

  /** A realtime channel object: a fresh identity and its topic. */
  datatype Channel = Channel(id: nat, topic: string)

  /** What `subscribeToMetrics` returns: a no-op, or a cleanup removing these channels. */
  datatype Cleanup = NoOp | RemoveChannels(channels: seq<Channel>)

  /** The client's set of open realtime channels. */
  class Realtime {
    var open: set<Channel>
    var nextId: nat

    ghost predicate Valid()
      reads this
    {
      forall c :: c in open ==> c.id < nextId
    }

    constructor ()
      ensures Valid() && open == {} && nextId == 0
    {
      open := {};
      nextId := 0;
    }

    /** `client.channel(topic)...subscribe()`: a new channel, distinct from every open one. */
    method OpenChannel(topic: string) returns (c: Channel)
      requires Valid()
      modifies this
      ensures Valid()
      ensures c.topic == topic && c !in old(open) && c.id == old(nextId)
      ensures open == old(open) + {c} && nextId == old(nextId) + 1
    {
      c := Channel(nextId, topic);
      open := open + {c};
      nextId := nextId + 1;
    }

    /** `client.removeChannel(c)`. */
    method RemoveChannel(c: Channel)
      requires Valid()
      modifies this
      ensures Valid()
      ensures open == old(open) - {c} && nextId == old(nextId)
    {
      open := open - {c};
    }
  }

  function ChannelSet(cs: seq<Channel>): set<Channel> {
    set c | c in cs
  }

  /**
   * `subscribeToMetrics({ onChange, signal })`. `client` is null when Supabase is
   * not configured; `presenceOk` / `completionsOk` say whether each channel's
   * setup went through (a throw is caught and leaves that channel null);
   * `aborted` is `signal?.aborted` after setup.
   */
  method SubscribeToMetrics(client: Realtime?, presenceOk: bool, completionsOk: bool, aborted: bool)
    returns (cleanup: Cleanup)
    requires client != null ==> client.Valid()
    modifies client
    ensures client != null ==> client.Valid()
    ensures client == null ==> cleanup == NoOp
    ensures client != null && aborted ==> cleanup == NoOp && client.open == old(client.open)
    ensures client != null && !aborted ==> cleanup.RemoveChannels?
    ensures cleanup.RemoveChannels? ==>
      client.open == old(client.open) + ChannelSet(cleanup.channels) &&
      ChannelSet(cleanup.channels) !! old(client.open) &&
      |cleanup.channels| == (if presenceOk then 1 else 0) + (if completionsOk then 1 else 0) &&
      (forall c :: c in cleanup.channels ==> c.topic == PresenceTopic || c.topic == CompletionsTopic) &&
      (presenceOk <==> exists c :: c in cleanup.channels && c.topic == PresenceTopic) &&
      (completionsOk <==> exists c :: c in cleanup.channels && c.topic == CompletionsTopic)
  {
    if client == null {
      return NoOp;
    }
    var presenceChannel: Option<Channel> := None;
    var completionsChannel: Option<Channel> := None;
    if presenceOk {
      var c := client.OpenChannel(PresenceTopic);
      presenceChannel := Some(c);
    }
    if completionsOk {
      var c := client.OpenChannel(CompletionsTopic);
      completionsChannel := Some(c);
    }
    var channels := (if presenceChannel.Some? then [presenceChannel.value] else []) +
                  (if completionsChannel.Some? then [completionsChannel.value] else []);
    if aborted {
      if presenceChannel.Some? {
        client.RemoveChannel(presenceChannel.value);
      }
      if completionsChannel.Some? {
        client.RemoveChannel(completionsChannel.value);
      }
      return NoOp;
    }
    return RemoveChannels(channels);
  }

  /** Calling the returned cleanup function. */
  method RunCleanup(client: Realtime?, cleanup: Cleanup)
    requires client != null ==> client.Valid()
    modifies client
    ensures client != null ==> client.Valid()
    ensures client != null && cleanup.RemoveChannels? ==> client.open == old(client.open) - ChannelSet(cleanup.channels)
    ensures client != null && cleanup.NoOp? ==> client.open == old(client.open)
  {
    if client != null && cleanup.RemoveChannels? {
      var i := 0;
      while i < |cleanup.channels|
        invariant 0 <= i <= |cleanup.channels|
        invariant client.Valid()
        invariant client.open == old(client.open) - ChannelSet(cleanup.channels[..i])
      {
        assert ChannelSet(cleanup.channels[..i + 1]) == ChannelSet(cleanup.channels[..i]) + {cleanup.channels[i]};
        client.RemoveChannel(cleanup.channels[i]);
        i := i + 1;
      }
      assert cleanup.channels[..i] == cleanup.channels;
    }
  }

  /** Subscribing and then running the cleanup leaves exactly the channels that were open before. */
  method SubscribeThenCleanup(client: Realtime, presenceOk: bool, completionsOk: bool, aborted: bool)
    requires client.Valid()
    modifies client
    ensures client.Valid() && client.open == old(client.open)
  {
    var cleanup := SubscribeToMetrics(client, presenceOk, completionsOk, aborted);
    RunCleanup(client, cleanup);
  }
}
