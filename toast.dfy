/**
 * Toast notifications (`components/common/overlays/Toast.jsx`): the provider's
 * list of toasts, `addToast` appending one and scheduling its removal by id,
 * the removal itself, the colour of each variant, and `useToast`. Random ids and
 * timer delivery are inputs.
 */
module Toast {
  import opened Js

  /** One toast: `{ id, message, variant }`. */
  datatype Toast = Toast(id: string, message: string, variant: string)

  /** A scheduled `setTimeout` that will remove the toasts with this id. */
  datatype Timer = Timer(id: string, timeoutMs: int)

  const DefaultVariant := "info"
  const DefaultTimeoutMs := 3500
  const MissingProviderMessage := "useToast must be used within ToastProvider"

  const SuccessColor := "#10B981"
  const ErrorColor := "#EF4444"
  const DefaultColor := "#2563EB"

  /** `t.filter((x) => x.id !== id)`. */
  function Without(ts: seq<Toast>, id: string): (r: seq<Toast>)
    ensures |r| <= |ts|
    ensures forall t :: t in r <==> t in ts && t.id != id
  {
    if ts == [] then []
    else if ts[0].id == id then Without(ts[1..], id)
    else [ts[0]] + Without(ts[1..], id)
  }

  /** Removal distributes over concatenation, so the remaining toasts keep their order. */
  lemma {:induction false} WithoutAppend(a: seq<Toast>, b: seq<Toast>, id: string)
    ensures Without(a + b, id) == Without(a, id) + Without(b, id)
  {
    if a == [] {
      assert a + b == b;
    } else {
      assert (a + b)[0] == a[0];
      assert (a + b)[1..] == a[1..] + b;
      WithoutAppend(a[1..], b, id);
    }
  }

  /** Removing an id no toast carries changes nothing. */
  lemma {:induction false} WithoutAbsent(ts: seq<Toast>, id: string)
    requires forall t :: t in ts ==> t.id != id
    ensures Without(ts, id) == ts
  {
    if ts != [] {
      assert ts[0] in ts;
      assert forall t :: t in ts[1..] ==> t in ts;
      WithoutAbsent(ts[1..], id);
      assert ts == [ts[0]] + ts[1..];
    }
  }

  /** Adding a toast under a fresh id and removing that id restores the list. */
  lemma AddThenRemove(ts: seq<Toast>, t: Toast)
    requires forall u :: u in ts ==> u.id != t.id
    ensures Without(ts + [t], t.id) == ts
  {
    WithoutAppend(ts, [t], t.id);
    WithoutAbsent(ts, t.id);
    assert Without([t], t.id) == Without([], t.id);
  }

  /** `variantColor(v)`: the border colour of a toast. */
  function VariantColor(v: string): (c: string)
    ensures c == SuccessColor <==> v == "success"
    ensures c == ErrorColor <==> v == "error"
    ensures c == DefaultColor <==> v != "success" && v != "error"
  {
    if v == "success" then SuccessColor
    else if v == "error" then ErrorColor
    else DefaultColor
  }

  /** What the provider renders for each toast: its message and border colour, in list order. */
  function Rendered(ts: seq<Toast>): (r: seq<(string, string)>)
    ensures |r| == |ts|
    ensures forall i :: 0 <= i < |ts| ==> r[i] == (ts[i].message, VariantColor(ts[i].variant))
  {
    seq(|ts|, i requires 0 <= i < |ts| => (ts[i].message, VariantColor(ts[i].variant)))
  }

  function TimerIds(timers: seq<Timer>): set<string> {
    set k | 0 <= k < |timers| :: timers[k].id
  }

  /** When every toast has a scheduled removal, so does the first one on screen. */
  lemma FirstToastHasTimer(toasts: seq<Toast>, timers: seq<Timer>)
    requires forall t :: t in toasts ==> t.id in TimerIds(timers)
    ensures toasts != [] ==> toasts[0].id in TimerIds(timers)
  {
  }

  class ToastProvider {
    /** The `toasts` state, oldest first. */
    var toasts: seq<Toast>
    /** Removals scheduled by `addToast` that have not fired yet. */
    var timers: seq<Timer>

    /** Every toast on screen has a pending removal for its id. */
    ghost predicate Valid()
      reads this
    {
      forall t :: t in toasts ==> t.id in TimerIds(timers)
    }

    constructor ()
      ensures Valid() && toasts == [] && timers == []
    {
      toasts := [];
      timers := [];
    }

    /**
     * `addToast(message, variant = "info", timeout = 3500)` with the id the random
     * generator produced: one toast at the end, and its removal scheduled.
     */
    method AddToast(id: string, message: string, variant: Option<string>, timeoutMs: Option<int>)
      requires Valid()
      modifies this
      ensures Valid()
      ensures toasts == old(toasts) + [Toast(id, message, variant.GetOr(DefaultVariant))]
      ensures timers == old(timers) + [Timer(id, timeoutMs.GetOr(DefaultTimeoutMs))]
    {
      var t := Toast(id, message, variant.GetOr(DefaultVariant));
      var timer := Timer(id, timeoutMs.GetOr(DefaultTimeoutMs));
      assert (timers + [timer])[|timers|] == timer;
      assert forall j :: 0 <= j < |timers| ==> (timers + [timer])[j] == timers[j];
      assert TimerIds(timers) <= TimerIds(timers + [timer]);
      toasts := toasts + [t];
      timers := timers + [timer];
    }

    /** Scheduled removal `k` fires: every toast with its id goes, the others stay in order. */
    method Expire(k: nat)
      requires Valid() && k < |timers|
      modifies this
      ensures Valid()
      ensures toasts == Without(old(toasts), old(timers[k].id))
      ensures timers == old(timers[..k] + timers[k + 1..])
    {
      var id := timers[k].id;
      var rest := timers[..k] + timers[k + 1..];
      forall t | t in Without(toasts, id)
        ensures t.id in TimerIds(rest)
      {
        var j :| 0 <= j < |timers| && timers[j].id == t.id;
        if j < k {
          assert rest[j] == timers[j];
        } else {
          assert j != k;
          assert rest[j - 1] == timers[j];
        }
      }
      toasts := Without(toasts, id);
      timers := rest;
    }
  }

  /** Once all scheduled removals have fired, no toast is left. */
  method ExpireAll(p: ToastProvider)
    requires p.Valid()
    modifies p
    ensures p.Valid() && p.timers == [] && p.toasts == []
  {
    while |p.timers| > 0
      invariant p.Valid()
      decreases |p.timers|
    {
      p.Expire(0);
    }
    FirstToastHasTimer(p.toasts, p.timers);
    assert TimerIds(p.timers) == {};
  }

  /**
   * `useToast()`: the provider's context value, or the error a component outside
   * any provider throws.
   */
  function UseToast(context: ToastProvider?): (r: Result<ToastProvider>)
    ensures context == null <==> r == Throws(MissingProviderMessage)
    ensures context != null ==> r == Ok(context)
  {
    if context == null then Throws(MissingProviderMessage) else Ok(context)
  }
}
