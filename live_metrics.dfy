/**
 * The live-metrics hook (`hooks/useLiveMetrics.js`): the target metrics, set by
 * full loads and by realtime partial updates, and the displayed metrics, which
 * follow the target either at once (reduced motion) or through animation frames
 * that move each counter towards its target, reaching it once the configured
 * duration has elapsed since the first frame. React's effect re-runs are folded
 * into the state changes that trigger them.
 */
module LiveMetrics {
  import opened Js
  import Metrics

  type Snapshot = Metrics.Snapshot

  /** The initial `useState` value: every counter 0. */
  const Zero := Metrics.Snapshot(0, 0, 0)
  /** Default `pollingIntervalMs` and `animationDurationMs`. */
  const DefaultPollingIntervalMs := 45000
  const DefaultAnimationDurationMs := 500

  /** `{ ...prev, ...partial }`: the keys the partial update carries replace those of `prev`. */
  function Merge(prev: Snapshot, p: Metrics.Partial): (r: Snapshot)
    ensures r.activeLearners == (if p.activeLearners.Some? then p.activeLearners.value else prev.activeLearners)
    ensures r.totalCourses == (if p.totalCourses.Some? then p.totalCourses.value else prev.totalCourses)
    ensures r.recentCompletions == (if p.recentCompletions.Some? then p.recentCompletions.value else prev.recentCompletions)
  {
    Metrics.Snapshot(
      p.activeLearners.GetOr(prev.activeLearners),
      p.totalCourses.GetOr(prev.totalCourses),
      p.recentCompletions.GetOr(prev.recentCompletions))
  }

  /** A partial update from a realtime handler changes only its own counter. */
  lemma MergeKeepsOthers(prev: Snapshot, n: int)
    ensures Merge(prev, Metrics.Partial(Some(n), None, None)) == prev.(activeLearners := n)
    ensures Merge(prev, Metrics.Partial(None, None, Some(n))) == prev.(recentCompletions := n)
    ensures Merge(prev, Metrics.Partial(None, None, None)) == prev
    ensures Merge(Metrics.Snapshot(10, 5, 2), Metrics.Partial(None, None, Some(3))) == Metrics.Snapshot(10, 5, 3)
  {
  }

  /** Merging the same partial twice is merging it once. */
  lemma MergeIdempotent(prev: Snapshot, p: Metrics.Partial)
    ensures Merge(Merge(prev, p), p) == Merge(prev, p)
  {
  }

  /** A presence update then a completion update, in either order, set both counters. */
  lemma MergeCommutesOnDistinctKeys(prev: Snapshot, a: int, c: int)
    ensures Merge(Merge(prev, Metrics.Partial(Some(a), None, None)), Metrics.Partial(None, None, Some(c)))
         == Merge(Merge(prev, Metrics.Partial(None, None, Some(c))), Metrics.Partial(Some(a), None, None))
         == Metrics.Snapshot(a, prev.totalCourses, c)
  {
  }

  function Max(a: int, b: int): int {
    if a >= b then a else b
  }

  function MinReal(a: real, b: real): real {
    if a <= b then a else b
  }

  /** `Math.min((timestamp - start) / Math.max(duration, 1), 1)`. */
  function Progress(elapsed: real, durationMs: int): (t: real)
    ensures t <= 1.0
    ensures elapsed >= 0.0 ==> t >= 0.0
    ensures elapsed >= Max(durationMs, 1) as real <==> t == 1.0
  {
    MinReal(elapsed / Max(durationMs, 1) as real, 1.0)
  }

  /** `Math.round(x)`: the nearest integer, halves rounded up. */
  function Round(x: real): (n: int)
    ensures n as real - 0.5 <= x < n as real + 0.5
  {
    (x + 0.5).Floor
  }

  /** `lerp(a, b, t)`: the rounded point a fraction `t` of the way from `a` to `b`. */
  function Lerp(a: int, b: int, t: real): (r: int)
    ensures t == 0.0 ==> r == a
    ensures t == 1.0 ==> r == b
  {
    Round(a as real + (b - a) as real * t)
  }

  /** For a fraction between 0 and 1 the interpolated value lies between the two ends. */
  lemma LerpBetween(a: int, b: int, t: real)
    requires 0.0 <= t <= 1.0
    ensures a <= b ==> a <= Lerp(a, b, t) <= b
    ensures b <= a ==> b <= Lerp(a, b, t) <= a
  {
    var d := (b - a) as real;
    var x := a as real + d * t;
    if a <= b {
      assert 0.0 <= d * t <= d;
    } else {
      assert d <= d * t <= 0.0;
    }
    assert a <= b ==> a as real <= x <= b as real;
    assert b <= a ==> b as real <= x <= a as real;
  }

  /** One frame's update of all three displayed counters. */
  function Step(prev: Snapshot, target: Snapshot, t: real): (r: Snapshot)
    ensures t == 1.0 ==> r == target
    ensures t == 0.0 ==> r == prev
  {
    Metrics.Snapshot(
      Lerp(prev.activeLearners, target.activeLearners, t),
      Lerp(prev.totalCourses, target.totalCourses, t),
      Lerp(prev.recentCompletions, target.recentCompletions, t))
  }

  predicate Between(x: int, a: int, b: int) {
    (a <= x <= b) || (b <= x <= a)
  }

  /** A frame never moves a counter past its target or back beyond where it was. */
  lemma StepBetween(prev: Snapshot, target: Snapshot, t: real)
    requires 0.0 <= t <= 1.0
    ensures Between(Step(prev, target, t).activeLearners, prev.activeLearners, target.activeLearners)
    ensures Between(Step(prev, target, t).totalCourses, prev.totalCourses, target.totalCourses)
    ensures Between(Step(prev, target, t).recentCompletions, prev.recentCompletions, target.recentCompletions)
  {
    LerpBetween(prev.activeLearners, target.activeLearners, t);
    LerpBetween(prev.totalCourses, target.totalCourses, t);
    LerpBetween(prev.recentCompletions, target.recentCompletions, t);
  }

  class LiveMetricsHook {
    /** The target metrics (`metrics` state, mirrored in `targetRef`). */
    var metrics: Snapshot
    /** The displayed metrics the hook returns. */
    var display: Snapshot
    /** `reducedMotion` state. */
    var reducedMotion: bool
    /** `animationDurationMs`, fixed for the hook's lifetime. */
    const durationMs: int
    /** Whether an animation frame is requested and not cancelled. */
    var frameRequested: bool
    /** The animation's `start`; 0.0 is falsy and counts as unset. */
    var start: real
    /** The load effect's `isMounted`. */
    var mounted: bool
    /** What `subscribeToMetrics` returned on mount. */
    var cleanup: Metrics.Cleanup

    ghost predicate Valid()
      reads this
    {
      && (reducedMotion ==> !frameRequested && display == metrics)
      && (mounted && !frameRequested ==> display == metrics)
      && (!mounted ==> !frameRequested)
    }

    /**
     * Mount: both states start at zero, the media query sets `reducedMotion`, the
     * animation effect requests a frame unless motion is reduced, and the realtime
     * subscription is set up with a signal that is not yet aborted.
     */
    constructor (durationMs: int, prefersReduced: bool, client: Metrics.Realtime?, presenceOk: bool, completionsOk: bool)
      requires client != null ==> client.Valid()
      modifies client
      ensures Valid() && mounted
      ensures metrics == Zero && display == Zero
      ensures reducedMotion == prefersReduced && frameRequested == !prefersReduced && start == 0.0
      ensures this.durationMs == durationMs
      ensures client != null ==> client.Valid() && cleanup.RemoveChannels?
      ensures client != null ==> client.open == old(client.open) + Metrics.ChannelSet(cleanup.channels)
      ensures client != null ==> Metrics.ChannelSet(cleanup.channels) !! old(client.open)
    {
      metrics := Zero;
      display := Zero;
      reducedMotion := prefersReduced;
      this.durationMs := durationMs;
      frameRequested := !prefersReduced;
      start := 0.0;
      mounted := true;
      new;
      cleanup := Metrics.SubscribeToMetrics(client, presenceOk, completionsOk, false);
    }

    /**
     * The animation effect re-runs: the pending frame is cancelled; with reduced
     * motion the display snaps to the target, otherwise a fresh animation starts.
     */
    method Restart()
      requires mounted
      modifies this
      ensures Valid()
      ensures reducedMotion ==> display == metrics && !frameRequested && start == old(start)
      ensures !reducedMotion ==> display == old(display) && frameRequested && start == 0.0
      ensures metrics == old(metrics) && reducedMotion == old(reducedMotion) && mounted
      ensures cleanup == old(cleanup)
    {
      if reducedMotion {
        display := metrics;
        frameRequested := false;
      } else {
        frameRequested := true;
        start := 0.0;
      }
    }

    /** The media query changes; an unchanged value re-renders nothing. */
    method SetReducedMotion(matches: bool)
      requires Valid() && mounted
      modifies this
      ensures Valid() && mounted && reducedMotion == matches && metrics == old(metrics)
      ensures cleanup == old(cleanup)
      ensures matches == old(reducedMotion) ==>
        display == old(display) && frameRequested == old(frameRequested) && start == old(start)
      ensures matches && !old(reducedMotion) ==> display == metrics && !frameRequested && start == old(start)
      ensures !matches && old(reducedMotion) ==> display == old(display) && frameRequested && start == 0.0
    {
      if matches != reducedMotion {
        reducedMotion := matches;
        Restart();
      }
    }

    /** `setMetrics(next)` while mounted, with the animation effect it triggers. */
    method SetMetrics(next: Snapshot)
      requires Valid() && mounted
      modifies this
      ensures Valid() && mounted && metrics == next && reducedMotion == old(reducedMotion)
      ensures reducedMotion ==> display == next && !frameRequested && start == old(start)
      ensures !reducedMotion ==> display == old(display) && frameRequested && start == 0.0
      ensures cleanup == old(cleanup)
    {
      metrics := next;
      Restart();
    }

    /**
     * A `load()` settles: a fetched snapshot replaces the metrics unless the hook
     * has unmounted meanwhile; a rejection changes nothing.
     */
    method ResolveLoad(outcome: Result<Snapshot>)
      requires Valid()
      modifies this
      ensures Valid() && mounted == old(mounted) && reducedMotion == old(reducedMotion)
      ensures cleanup == old(cleanup)
      ensures old(mounted) && outcome.Ok? ==> metrics == outcome.value
      ensures old(mounted) && outcome.Ok? && reducedMotion ==>
        display == outcome.value && !frameRequested && start == old(start)
      ensures old(mounted) && outcome.Ok? && !reducedMotion ==>
        display == old(display) && frameRequested && start == 0.0
      ensures !old(mounted) || outcome.Throws? ==>
        metrics == old(metrics) && display == old(display) && frameRequested == old(frameRequested) &&
        start == old(start)
    {
      if mounted && outcome.Ok? {
        SetMetrics(outcome.value);
      }
    }

    /**
     * `onChange(partial)` from a realtime handler merges into the metrics. The
     * callback has no mounted guard of its own; an update that reaches an
     * unmounted component is discarded by React.
     */
    method ApplyPartial(p: Metrics.Partial)
      requires Valid()
      modifies this
      ensures Valid() && mounted == old(mounted) && reducedMotion == old(reducedMotion)
      ensures cleanup == old(cleanup)
      ensures old(mounted) ==> metrics == Merge(old(metrics), p)
      ensures old(mounted) && reducedMotion ==>
        display == metrics && !frameRequested && start == old(start)
      ensures old(mounted) && !reducedMotion ==>
        display == old(display) && frameRequested && start == 0.0
      ensures !old(mounted) ==>
        metrics == old(metrics) && display == old(display) && frameRequested == old(frameRequested) &&
        start == old(start)
    {
      if mounted {
        SetMetrics(Merge(metrics, p));
      }
    }

    /**
     * A requested animation frame fires at `timestamp`: the display moves towards
     * the target by the progress so far, and another frame is requested until the
     * progress reaches 1.
     */
    method Frame(timestamp: real)
      requires Valid()
      modifies this
      ensures Valid()
      ensures !old(frameRequested) ==> display == old(display) && start == old(start) && !frameRequested
      ensures old(frameRequested) ==>
        start == (if old(start) == 0.0 then timestamp else old(start)) &&
        display == Step(old(display), metrics, Progress(timestamp - start, durationMs)) &&
        (frameRequested <==> Progress(timestamp - start, durationMs) < 1.0)
      ensures metrics == old(metrics) && reducedMotion == old(reducedMotion) && mounted == old(mounted)
      ensures cleanup == old(cleanup)
    {
      if frameRequested {
        if start == 0.0 {
          start := timestamp;
        }
        var progress := Progress(timestamp - start, durationMs);
        display := Step(display, metrics, progress);
        frameRequested := progress < 1.0;
      }
    }

    /**
     * Unmount: `isMounted = false`, the frame is cancelled and the realtime
     * cleanup removes the channels opened on mount (the polling interval stops).
     */
    method Teardown(client: Metrics.Realtime?)
      requires Valid()
      requires client != null ==> client.Valid()
      modifies this, client
      ensures Valid() && !mounted && !frameRequested
      ensures metrics == old(metrics) && display == old(display) && cleanup == old(cleanup)
      ensures client != null ==> client.Valid()
      ensures client != null && cleanup.RemoveChannels? ==>
        client.open == old(client.open) - Metrics.ChannelSet(cleanup.channels)
    {
      mounted := false;
      frameRequested := false;
      Metrics.RunCleanup(client, cleanup);
    }
  }

  /**
   * With motion allowed, after a metrics change a frame at `t0` and one a full
   * duration later bring the display exactly onto the new metrics, and the
   * animation stops.
   */
  method AnimationSettles(h: LiveMetricsHook, next: Snapshot, t0: real)
    requires h.Valid() && h.mounted && !h.reducedMotion
    requires t0 > 0.0
    modifies h
    ensures h.Valid() && h.display == next && h.metrics == next && !h.frameRequested
  {
    h.SetMetrics(next);
    h.Frame(t0);
    assert h.start == t0;
    h.Frame(t0 + Max(h.durationMs, 1) as real);
  }

  /** Mounting and unmounting the hook leaves the client with exactly the channels it had. */
  method MountThenUnmount(client: Metrics.Realtime, prefersReduced: bool, presenceOk: bool, completionsOk: bool)
    requires client.Valid()
    modifies client
    ensures client.Valid() && client.open == old(client.open)
  {
    var h := new LiveMetricsHook(DefaultAnimationDurationMs, prefersReduced, client, presenceOk, completionsOk);
    h.Teardown(client);
  }
}
