/**
 * The notification bell (`components/notifications/NotificationBell.jsx`): while a
 * user is signed in, a realtime channel `user_<id>` is open; each "notify"
 * broadcast prepends an item to a list capped at 20 (newest first) and bumps the
 * unread counter; the button toggles the panel. Without a user nothing is
 * subscribed and nothing is rendered.
 */
module Notifications {
  import opened Js

  /** The list keeps at most this many items (`.slice(0, 20)`). */
  const Cap: nat := 20

  /** A notification: `{ id, ...payload.payload }`. */
  type Item = map<string, JsValue>

  function Min(a: int, b: int): int {
    if a <= b then a else b
  }

  /** The channel topic for a user: `user_${user.id}`. */
  function ChannelName(userId: string): (topic: string)
    ensures |topic| == 5 + |userId| && topic[..5] == "user_" && topic[5..] == userId
  {
    "user_" + userId
  }

  /** What spreading a string copies: one field per character, keyed by its index. */
  function IndexFields(s: string): (fields: map<string, JsValue>)
    ensures forall i :: 0 <= i < |s| ==> Digits(i) in fields && fields[Digits(i)] == Str([s[i]])
    ensures forall k :: k in fields ==> exists i :: 0 <= i < |s| && k == Digits(i)
  {
    DigitsInjective();
    map i | 0 <= i < |s| :: Digits(i) := Str([s[i]])
  }

  /** No index key of a spread string is "id". */
  lemma IdIsNoIndex()
    ensures forall i: nat :: Digits(i) != "id"
  {
    forall i: nat
      ensures Digits(i) != "id"
    {
      assert IsDigit(Digits(i)[0]);
    }
  }

  /**
   * `{ id: Math.random(), ...payload.payload }`: the random id first, then the
   * broadcast's own fields, which override it (an `id` in the payload wins).
   * A string payload contributes its characters under their indices; any other
   * payload that is not an object contributes no field.
   */
  function NotifyItem(randomId: JsValue, payload: JsValue): (item: Item)
    ensures "id" in item
    ensures !(payload.Obj? && "id" in payload.props) ==> item["id"] == randomId
    ensures payload.Obj? ==> forall k :: k in payload.props ==> k in item && item[k] == payload.props[k]
    ensures payload.Str? ==>
      forall i :: 0 <= i < |payload.s| ==> Digits(i) in item && item[Digits(i)] == Str([payload.s[i]])
    ensures forall k :: k in item ==>
      || k == "id"
      || (payload.Obj? && k in payload.props)
      || (payload.Str? && exists i :: 0 <= i < |payload.s| && k == Digits(i))
  {
    var fields := if payload.Obj? then payload.props
      else if payload.Str? then IndexFields(payload.s)
      else map[];
    IdIsNoIndex();
    map["id" := randomId] + fields
  }

  /** `[item, ...list].slice(0, 20)`. */
  function Prepend(item: Item, list: seq<Item>): (r: seq<Item>)
    ensures |r| == Min(|list| + 1, Cap)
    ensures r[0] == item
    ensures r[1..] == list[..|r| - 1]
  {
    var r := ([item] + list)[..Min(|list| + 1, Cap)];
    assert r[1..] == list[..|r| - 1];
    r
  }

  /** When the list is full, the new item enters and the oldest (last) one leaves. */
  lemma PrependFull(item: Item, list: seq<Item>)
    requires |list| == Cap
    ensures Prepend(item, list) == [item] + list[..Cap - 1]
  {
    var r := Prepend(item, list);
    assert r == [r[0]] + r[1..];
  }

  function Reverse<T>(s: seq<T>): (r: seq<T>)
    ensures |r| == |s|
  {
    if s == [] then [] else Reverse(s[1..]) + [s[0]]
  }

  /** The list after each item of `items` arrived in turn. */
  function Feed(list: seq<Item>, items: seq<Item>): seq<Item>
    decreases items
  {
    if items == [] then list else Feed(Prepend(items[0], list), items[1..])
  }

  /**
   * After any run of notifications the list holds the newest items, newest first,
   * followed by the earlier list, cut at the cap: the oldest are evicted first.
   */
  lemma {:induction false} FeedKeepsNewest(list: seq<Item>, items: seq<Item>)
    requires |list| <= Cap
    ensures Feed(list, items) == (Reverse(items) + list)[..Min(|items| + |list|, Cap)]
    decreases items
  {
    if items == [] {
      assert (Reverse(items) + list)[..Min(|items| + |list|, Cap)] == list;
    } else {
      var rest := items[1..];
      var p := Prepend(items[0], list);
      FeedKeepsNewest(p, rest);
      var m := Min(|list| + 1, Cap);
      var big := Min(|items| + |list|, Cap);
      assert Min(|rest| + |p|, Cap) == big;
      assert p == ([items[0]] + list)[..m];
      assert Reverse(items) == Reverse(rest) + [items[0]];
      assert Reverse(items) + list == Reverse(rest) + ([items[0]] + list);
      assert big <= |Reverse(rest)| + m;
      forall i | 0 <= i < big
        ensures (Reverse(rest) + p)[i] == (Reverse(rest) + ([items[0]] + list))[i]
      {
      }
    }
  }

  /** The panel contents: "No notifications" or one title per item. */
  datatype Panel = NoNotifications | Titles(titles: seq<JsValue>)

  /** What the bell renders: a badge when the count is positive, the panel when open. */
  datatype BellView = BellView(badge: Option<nat>, panel: Option<Panel>)

  /** `n.title || "Update"`. */
  function Title(n: Item): (t: JsValue)
    ensures Truthy(t)
    ensures "title" in n && Truthy(n["title"]) ==> t == n["title"]
    ensures !("title" in n && Truthy(n["title"])) ==> t == Str("Update")
  {
    if "title" in n && Truthy(n["title"]) then n["title"] else Str("Update")
  }

  class NotificationBell {
    /** The signed-in user's id, if any (`useAuth().user`). */
    var user: Option<string>
    /** Whether the component is mounted. */
    var mounted: bool
    /** The topic of the open realtime channel, if any. */
    var channel: Option<string>
    /** `listRef.current`. */
    var list: seq<Item>
    /** The unread counter. */
    var count: nat
    /** Whether the panel is open. */
    var open: bool
    /** How many channels this bell has opened and removed. */
    ghost var opens: nat
    ghost var closes: nat

    ghost predicate Valid()
      reads this
    {
      && |list| <= Cap
      // a channel exists exactly while mounted with a user, and it is that user's
      && channel == (if mounted && user.Some? then Some(ChannelName(user.value)) else None)
      // every channel opened but the current one has been removed
      && opens == closes + (if channel.Some? then 1 else 0)
    }

    /** Mount: empty list, zero count, panel closed; the effect subscribes when a user is present. */
    constructor (u: Option<string>)
      ensures Valid()
      ensures user == u && mounted
      ensures list == [] && count == 0 && !open
      ensures channel == (if u.Some? then Some(ChannelName(u.value)) else None)
      ensures opens == (if u.Some? then 1 else 0) && closes == 0
    {
      user := u;
      mounted := true;
      list := [];
      count := 0;
      open := false;
      if u.Some? {
        channel := Some(ChannelName(u.value));
        opens := 1;
      } else {
        channel := None;
        opens := 0;
      }
      closes := 0;
    }

    /**
     * The user changes: the effect's cleanup removes the previous channel, then a
     * channel for the new user (if any) is opened. List and count are kept.
     */
    method SetUser(u: Option<string>)
      requires Valid() && mounted
      modifies this
      ensures Valid()
      ensures user == u && mounted
      ensures channel == (if u.Some? then Some(ChannelName(u.value)) else None)
      ensures list == old(list) && count == old(count) && open == old(open)
      ensures u == old(user) ==> opens == old(opens) && closes == old(closes)
      ensures u != old(user) ==> closes == old(closes) + (if old(channel).Some? then 1 else 0)
      ensures u != old(user) ==> opens == old(opens) + (if u.Some? then 1 else 0)
    {
      if u != user {
        if channel.Some? {
          closes := closes + 1;
          channel := None;
        }
        user := u;
        if u.Some? {
          channel := Some(ChannelName(u.value));
          opens := opens + 1;
        }
      }
    }

    /**
     * A "notify" broadcast arrives. It is only delivered on an open channel; then
     * the new item goes to the head of the list (capped at 20) and the counter
     * grows by exactly one, without a cap.
     */
    method Notify(randomId: JsValue, payload: JsValue)
      requires Valid()
      modifies this
      ensures Valid()
      ensures old(channel).Some? ==> list == Prepend(NotifyItem(randomId, payload), old(list))
      ensures old(channel).Some? ==> count == old(count) + 1
      ensures old(channel).None? ==> list == old(list) && count == old(count)
      ensures user == old(user) && mounted == old(mounted) && channel == old(channel) && open == old(open)
      ensures opens == old(opens) && closes == old(closes)
    {
      if channel.Some? {
        list := Prepend(NotifyItem(randomId, payload), list);
        count := count + 1;
      }
    }

    /** The bell button: `setOpen((o) => !o)`. */
    method Toggle()
      requires Valid()
      modifies this
      ensures Valid()
      ensures open == !old(open)
      ensures user == old(user) && mounted == old(mounted) && channel == old(channel)
      ensures list == old(list) && count == old(count) && opens == old(opens) && closes == old(closes)
    {
      open := !open;
    }

    /** Unmount: the effect's cleanup removes the channel. */
    method Unmount()
      requires Valid() && mounted
      modifies this
      ensures Valid()
      ensures !mounted && channel == None && opens == closes
      ensures user == old(user) && list == old(list) && count == old(count) && open == old(open)
    {
      if channel.Some? {
        closes := closes + 1;
      }
      channel := None;
      mounted := false;
    }

    /** What the component renders; nothing without a user. */
    function View(): (v: Option<BellView>)
      reads this
      ensures v.None? <==> user.None?
      ensures v.Some? ==> (v.value.badge.Some? <==> count > 0)
      ensures v.Some? && v.value.badge.Some? ==> v.value.badge.value == count
      ensures v.Some? ==> (v.value.panel.Some? <==> open)
      ensures v.Some? && open ==> (v.value.panel.value.NoNotifications? <==> list == [])
      ensures v.Some? && open && list != [] ==>
        |v.value.panel.value.titles| == |list| &&
        forall i :: 0 <= i < |list| ==> v.value.panel.value.titles[i] == Title(list[i])
    {
      if user.None? then None
      else
        var badge := if count > 0 then Some(count) else None;
        var panel :=
          if !open then None
          else if list == [] then Some(NoNotifications)
          else Some(Titles(seq(|list|, i requires 0 <= i < |list| reads this => Title(list[i]))));
        Some(BellView(badge, panel))
    }
  }

  /** Toggling the panel twice restores it. */
  method ToggleTwice(b: NotificationBell)
    requires b.Valid()
    modifies b
    ensures b.Valid() && b.open == old(b.open)
  {
    b.Toggle();
    b.Toggle();
  }

  /** Switching from one user to another leaves exactly one channel open, the new user's. */
  method SwitchUser(first: string, second: string) returns (topic: Option<string>, ghost openCount: nat, ghost closeCount: nat)
    requires first != second
    ensures topic == Some(ChannelName(second)) && openCount == 2 && closeCount == 1
  {
    var b := new NotificationBell(Some(first));
    b.SetUser(Some(second));
    topic, openCount, closeCount := b.channel, b.opens, b.closes;
  }
}
