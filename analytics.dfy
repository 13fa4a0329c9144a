/**
 * The analytics event queue of `hooks/useAnalytics.js`. `capture` pushes onto
 * the in-memory queue; every interval tick, while the hook is active, `flush`
 * splices the whole queue into one batch and starts the insert; when the insert
 * settles the batch is dropped (returned, with or without an error object) or
 * put back in front of the queue (threw). Splice and settlement are separate
 * steps so that captures and further ticks can happen while an insert is pending.
 */
module Analytics {
  import opened Js

  /** One queued record: `{ event, props, ts }`. */
  datatype Event = Event(name: string, props: JsValue, ts: string)

  /** How the awaited `insert(batch)` call ended. */
  datatype InsertOutcome =
    | Returned(error: Option<string>)  // resolved; an error, if any, is only in the returned object
    | Threw                            // getSupabase() or the insert threw / rejected

  /** The concatenation of the batches, in order. */
  function Flatten(batches: seq<seq<Event>>): (r: seq<Event>)
  {
    if batches == [] then [] else batches[0] + Flatten(batches[1..])
  }

  lemma {:induction false} FlattenAppend(a: seq<seq<Event>>, b: seq<seq<Event>>)
    ensures Flatten(a + b) == Flatten(a) + Flatten(b)
  {
    if a == [] {
      assert a + b == b;
    } else {
      assert (a + b)[1..] == a[1..] + b;
      FlattenAppend(a[1..], b);
    }
  }

  /** A sequence is its prefix before `k`, the element at `k`, and the rest. */
  lemma SplitAround<T>(s: seq<T>, k: nat)
    requires k < |s|
    ensures s == s[..k] + ([s[k]] + s[k + 1..])
  {
  }

  /** Taking one batch out of the pending ones loses and duplicates no event. */
  lemma FlattenRemove(bs: seq<seq<Event>>, k: nat)
    requires k < |bs|
    ensures multiset(Flatten(bs)) == multiset(Flatten(bs[..k] + bs[k + 1..])) + multiset(bs[k])
  {
    var pre, post := bs[..k], bs[k + 1..];
    SplitAround(bs, k);
    FlattenAppend(pre, [bs[k]] + post);
    FlattenAppend([bs[k]], post);
    FlattenAppend(pre, post);
    assert Flatten([bs[k]]) == bs[k] + Flatten([]);
    var f, g := Flatten(pre), Flatten(post);
    assert multiset(Flatten(bs)) == multiset(f) + multiset(bs[k]) + multiset(g) by {
      assert Flatten(bs) == f + (bs[k] + g);
    }
  }

  /** No event is lost or duplicated: each captured event is sent, pending or queued. */
  ghost predicate Conserved(captured: seq<Event>, sent: seq<Event>, pending: seq<seq<Event>>, queue: seq<Event>) {
    multiset(captured) == multiset(sent) + multiset(Flatten(pending)) + multiset(queue)
  }

  /** Nothing is reordered either: the captured events read sent, then pending, then queued. */
  ghost predicate InOrder(captured: seq<Event>, sent: seq<Event>, pending: seq<seq<Event>>, queue: seq<Event>) {
    captured == sent + Flatten(pending) + queue
  }

  lemma CaptureKeeps(captured: seq<Event>, sent: seq<Event>, pending: seq<seq<Event>>, queue: seq<Event>, e: Event)
    ensures Conserved(captured, sent, pending, queue) ==> Conserved(captured + [e], sent, pending, queue + [e])
    ensures InOrder(captured, sent, pending, queue) ==> InOrder(captured + [e], sent, pending, queue + [e])
  {
    assert multiset(captured + [e]) == multiset(captured) + multiset{e};
    assert multiset(queue + [e]) == multiset(queue) + multiset{e};
    assert sent + Flatten(pending) + (queue + [e]) == (sent + Flatten(pending) + queue) + [e];
  }

  lemma SpliceKeeps(captured: seq<Event>, sent: seq<Event>, pending: seq<seq<Event>>, queue: seq<Event>)
    ensures Conserved(captured, sent, pending, queue) ==> Conserved(captured, sent, pending + [queue], [])
    ensures InOrder(captured, sent, pending, queue) ==> InOrder(captured, sent, pending + [queue], [])
  {
    FlattenAppend(pending, [queue]);
    assert Flatten([queue]) == queue + Flatten([]);
    assert sent + Flatten(pending + [queue]) + [] == sent + Flatten(pending) + queue;
  }

  lemma SettleKeeps(captured: seq<Event>, sent: seq<Event>, pending: seq<seq<Event>>, queue: seq<Event>,
                    k: nat, sent': seq<Event>, queue': seq<Event>)
    requires k < |pending|
    requires (sent' == sent && queue' == pending[k] + queue) || (sent' == sent + pending[k] && queue' == queue)
    requires Conserved(captured, sent, pending, queue)
    ensures Conserved(captured, sent', pending[..k] + pending[k + 1..], queue')
  {
    FlattenRemove(pending, k);
    assert multiset(pending[k] + queue) == multiset(pending[k]) + multiset(queue);
    assert multiset(sent + pending[k]) == multiset(sent) + multiset(pending[k]);
  }

  lemma SettleKeepsOrder(captured: seq<Event>, sent: seq<Event>, batch: seq<Event>, queue: seq<Event>,
                         sent': seq<Event>, queue': seq<Event>)
    requires (sent' == sent && queue' == batch + queue) || (sent' == sent + batch && queue' == queue)
    requires InOrder(captured, sent, [batch], queue)
    ensures InOrder(captured, sent', [], queue')
  {
    assert Flatten([batch]) == batch + Flatten([]);
    assert Flatten([]) == [];
  }

  /**
   * The queue's invariant over its state: nothing lost or duplicated, and, as long
   * as flushes never overlapped, at most one batch pending and nothing reordered.
   */
  ghost predicate Accounted(captured: seq<Event>, sent: seq<Event>, pending: seq<seq<Event>>, queue: seq<Event>,
                            overlapped: bool) {
    && Conserved(captured, sent, pending, queue)
    && (!overlapped ==> |pending| <= 1 && InOrder(captured, sent, pending, queue))
  }

  /** `capture` keeps the invariant. */
  lemma CaptureStep(captured: seq<Event>, sent: seq<Event>, pending: seq<seq<Event>>, queue: seq<Event>,
                    overlapped: bool, e: Event)
    requires Accounted(captured, sent, pending, queue, overlapped)
    ensures Accounted(captured + [e], sent, pending, queue + [e], overlapped)
  {
    CaptureKeeps(captured, sent, pending, queue, e);
  }

  /** Splicing the queue into a new pending batch keeps the invariant; it overlaps when another is pending. */
  lemma SpliceStep(captured: seq<Event>, sent: seq<Event>, pending: seq<seq<Event>>, queue: seq<Event>,
                   overlapped: bool)
    requires Accounted(captured, sent, pending, queue, overlapped)
    ensures Accounted(captured, sent, pending + [queue], [], overlapped || |pending| > 0)
  {
    SpliceKeeps(captured, sent, pending, queue);
  }

  /** Settling pending batch `k`, re-queued or sent, keeps the invariant. */
  lemma SettleStep(captured: seq<Event>, sent: seq<Event>, pending: seq<seq<Event>>, queue: seq<Event>,
                   overlapped: bool, k: nat, sent': seq<Event>, queue': seq<Event>)
    requires k < |pending|
    requires (sent' == sent && queue' == pending[k] + queue) || (sent' == sent + pending[k] && queue' == queue)
    requires Accounted(captured, sent, pending, queue, overlapped)
    ensures Accounted(captured, sent', pending[..k] + pending[k + 1..], queue', overlapped)
  {
    SettleKeeps(captured, sent, pending, queue, k, sent', queue');
    if !overlapped {
      assert pending == [pending[k]] && pending[..k] + pending[k + 1..] == [];
      SettleKeepsOrder(captured, sent, pending[k], queue, sent', queue');
    }
  }

  /** The record `capture(event, props)` pushes; `props` defaults to `{}` when undefined. */
  function MakeEvent(name: string, props: JsValue, ts: string): (e: Event)
    ensures e.name == name && e.ts == ts
    ensures e.props == (if props.Undefined? then Obj(map[]) else props)
  {
    Event(name, if props.Undefined? then Obj(map[]) else props, ts)
  }

  class AnalyticsQueue {
    /** `queueRef.current`. */
    var queue: seq<Event>
    /** The effect's `active` flag; the interval is cleared together with it. */
    var active: bool
    /** Batches spliced by flushes whose insert has not settled, oldest first. */
    var pending: seq<seq<Event>>

    /** Every event ever captured, in capture order. */
    ghost var captured: seq<Event>
    /** Events in batches whose insert returned (stored, or refused in the returned error). */
    ghost var sent: seq<Event>
    /** Set once a flush starts while an earlier insert is still pending. */
    ghost var overlapped: bool

    ghost predicate Valid()
      reads this
    {
      Accounted(captured, sent, pending, queue, overlapped)
    }

    /** Mount: the queue starts empty and the interval is running. */
    constructor ()
      ensures Valid()
      ensures queue == [] && active && pending == []
      ensures captured == [] && sent == [] && !overlapped
    {
      queue := [];
      active := true;
      pending := [];
      captured := [];
      sent := [];
      overlapped := false;
    }

    /** `capture(event, props)`: appends exactly one event at the end of the queue. */
    method Capture(name: string, props: JsValue, ts: string)
      requires Valid()
      modifies this
      ensures Valid()
      ensures queue == old(queue) + [MakeEvent(name, props, ts)]
      ensures captured == old(captured) + [MakeEvent(name, props, ts)]
      ensures active == old(active) && pending == old(pending)
      ensures sent == old(sent) && overlapped == old(overlapped)
    {
      var e := MakeEvent(name, props, ts);
      CaptureStep(captured, sent, pending, queue, overlapped, e);
      queue, captured := queue + [e], captured + [e];
    }

    /**
     * One interval tick: `if (active) flush()` up to the awaited insert. An empty
     * queue starts nothing; otherwise the whole queue, in order, becomes a new
     * pending batch and the queue is empty when the insert is attempted.
     */
    method Tick() returns (started: bool)
      requires Valid()
      modifies this
      ensures Valid()
      ensures started <==> old(active) && old(queue) != []
      ensures started ==> pending == old(pending) + [old(queue)] && queue == []
      ensures !started ==> pending == old(pending) && queue == old(queue)
      ensures active == old(active) && captured == old(captured) && sent == old(sent)
    {
      started := active && |queue| > 0;
      if started {
        SpliceStep(captured, sent, pending, queue, overlapped);
        overlapped := overlapped || |pending| > 0;
        pending := pending + [queue];
        queue := [];
      }
    }

    /**
     * The insert of pending batch `k` settles. A throw puts the batch back at the
     * front of the queue (`unshift(...batch)`); a returned call, even one whose
     * result carries an error, does not re-queue it.
     */
    method Settle(k: nat, outcome: InsertOutcome)
      requires Valid()
      requires k < |pending|
      modifies this
      ensures Valid()
      ensures pending == old(pending[..k] + pending[k + 1..])
      ensures outcome.Threw? ==> queue == old(pending[k]) + old(queue) && sent == old(sent)
      ensures outcome.Returned? ==> queue == old(queue) && sent == old(sent) + old(pending[k])
      ensures active == old(active) && captured == old(captured) && overlapped == old(overlapped)
    {
      var batch := pending[k];
      var rest := pending[..k] + pending[k + 1..];
      var sent' := if outcome.Threw? then sent else sent + batch;
      var queue' := if outcome.Threw? then batch + queue else queue;
      SettleStep(captured, sent, pending, queue, overlapped, k, sent', queue');
      pending, sent, queue := rest, sent', queue';
    }

    /** Teardown: `active = false; clearInterval(id)`. */
    method Teardown()
      requires Valid()
      modifies this
      ensures Valid()
      ensures !active
      ensures queue == old(queue) && pending == old(pending)
      ensures captured == old(captured) && sent == old(sent) && overlapped == old(overlapped)
    {
      active := false;
    }
  }

  /** After teardown no tick flushes, whatever is queued. */
  method TickAfterTeardown(q: AnalyticsQueue) returns (started: bool)
    requires q.Valid()
    modifies q
    ensures !started && q.queue == old(q.queue) && q.pending == old(q.pending)
  {
    q.Teardown();
    started := q.Tick();
  }

  /**
   * A failed insert re-queues its batch ahead of the events captured meanwhile:
   * capture a, flush, capture b, the insert throws: the queue is [a, b].
   */
  method FailedFlushKeepsOrder(a: Event, b: Event) returns (queue: seq<Event>)
    ensures queue == [MakeEvent(a.name, a.props, a.ts), MakeEvent(b.name, b.props, b.ts)]
  {
    var q := new AnalyticsQueue();
    q.Capture(a.name, a.props, a.ts);
    var started := q.Tick();
    q.Capture(b.name, b.props, b.ts);
    q.Settle(0, Threw);
    queue := q.queue;
  }

  /** Capture a, then flush: a is in flight and the queue is empty. */
  method FirstFlush(a: Event) returns (q: AnalyticsQueue)
    ensures fresh(q) && q.Valid() && q.active
    ensures q.pending == [[MakeEvent(a.name, a.props, a.ts)]]
    ensures q.queue == []
  {
    q := new AnalyticsQueue();
    q.Capture(a.name, a.props, a.ts);
    assert q.active && q.queue == [MakeEvent(a.name, a.props, a.ts)] && q.pending == [];
    var started := q.Tick();
  }

  /** Capture a, flush, capture b, flush: two inserts are pending at once. */
  method OverlappingFlushes(a: Event, b: Event) returns (q: AnalyticsQueue)
    ensures fresh(q) && q.Valid()
    ensures q.pending == [[MakeEvent(a.name, a.props, a.ts)], [MakeEvent(b.name, b.props, b.ts)]]
    ensures q.queue == []
  {
    q := FirstFlush(a);
    q.Capture(b.name, b.props, b.ts);
    assert q.active && q.queue == [MakeEvent(b.name, b.props, b.ts)];
    var started := q.Tick();
  }

  /**
   * Two overlapping flushes that both fail reorder the queue: capture a, flush,
   * capture b, flush, the first insert throws, then the second: the queue is
   * [b, a], although a was captured before b.
   */
  method OverlappingFailuresReorder(a: Event, b: Event) returns (queue: seq<Event>)
    ensures queue == [MakeEvent(b.name, b.props, b.ts), MakeEvent(a.name, a.props, a.ts)]
  {
    var q := OverlappingFlushes(a, b);
    q.Settle(0, Threw);
    q.Settle(0, Threw);
    queue := q.queue;
  }
}
