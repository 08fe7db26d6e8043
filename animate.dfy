/**
 * The animation driver (`animateScroll`): set-up resolves a plan once, then a
 * frame step either detects interference, or writes the eased position on both
 * axes and then arrives or asks for another frame.
 */
module Animate {
  import opened Dom
  import opened JsMath
  import opened Easing
  import opened Geometry

  /** The `duration` default, in milliseconds. */
  const DurationDefault: int := 500

  // ---------------------------------------------------------------------------
  // Positions along the way

  /** `x` lies between `a` and `b`, inclusive, whichever way round they are. */
  predicate Between(a: int, b: int, x: int)
  {
    (a <= x <= b) || (b <= x <= a)
  }

  /** The point the fraction `u` of the way from `start` to `end`. */
  function Interpolate(start: int, end: int, u: real): real
  {
    start as real + (end - start) as real * u
  }

  lemma InterpolateBetween(start: int, end: int, u: real)
    requires 0.0 <= u <= 1.0
    ensures start <= end ==> start as real <= Interpolate(start, end, u) <= end as real
    ensures end <= start ==> end as real <= Interpolate(start, end, u) <= start as real
  {
    var d := (end - start) as real;
    assert d * u - d == d * (u - 1.0);
    if start <= end {
      assert d * u >= 0.0;
      assert d * (u - 1.0) <= 0.0;
    } else {
      assert d * u <= 0.0;
      assert d * (u - 1.0) >= 0.0;
    }
  }

  lemma InterpolateMonotone(start: int, end: int, u: real, v: real)
    requires u <= v
    ensures start <= end ==> Interpolate(start, end, u) <= Interpolate(start, end, v)
    ensures end <= start ==> Interpolate(start, end, v) <= Interpolate(start, end, u)
  {
    var d := (end - start) as real;
    assert d * v - d * u == d * (v - u);
    if start <= end {
      assert d * (v - u) >= 0.0;
    } else {
      assert d * (v - u) <= 0.0;
    }
  }

  /** The time fraction `elapsed / duration` of a frame within the animation. */
  lemma FractionRange(elapsed: int, duration: int)
    requires 0 <= elapsed <= duration && 0 < duration
    ensures 0.0 <= elapsed as real / duration as real <= 1.0
  {
    var t := elapsed as real / duration as real;
    assert t * duration as real == elapsed as real;
  }

  lemma FractionMonotone(e1: int, e2: int, duration: int)
    requires e1 <= e2 && 0 < duration
    ensures e1 as real / duration as real <= e2 as real / duration as real
  {
    var t1 := e1 as real / duration as real;
    var t2 := e2 as real / duration as real;
    assert t1 * duration as real == e1 as real;
    assert t2 * duration as real == e2 as real;
    assert (t2 - t1) * duration as real == (e2 - e1) as real;
  }

  /**
   * The JavaScript arithmetic of `position` is defined: no `0 / 0` or `x / 0`
   * is computed (a zero duration is only safe once its frame is late).
   */
  predicate PositionDefined(elapsed: int, duration: int)
  {
    elapsed > duration || duration != 0
  }

  /**
   * `position`: the scroll offset for a moment of the animation. Once the
   * duration has passed it is exactly the end, whatever the frame timing.
   */
  function Position(start: int, end: int, elapsed: int, duration: int): (r: int)
    requires PositionDefined(elapsed, duration)
    ensures elapsed > duration ==> r == end
  {
    if elapsed > duration then end
    else Round(Interpolate(start, end, EaseInOutCubic(elapsed as real / duration as real)))
  }

  /** From the first moment on, the position never overshoots the start or the end. */
  lemma PositionBetween(start: int, end: int, elapsed: int, duration: int)
    requires 0 <= elapsed && PositionDefined(elapsed, duration)
    ensures Between(start, end, Position(start, end, elapsed, duration))
  {
    if elapsed <= duration {
      var t := elapsed as real / duration as real;
      FractionRange(elapsed, duration);
      Range(t);
      var u := EaseInOutCubic(t);
      InterpolateBetween(start, end, u);
      if start <= end {
        RoundBetween(start, end, Interpolate(start, end, u));
      } else {
        RoundBetween(end, start, Interpolate(start, end, u));
      }
    }
  }

  /** At the first moment of a positive duration the position is the start. */
  lemma PositionAtStart(start: int, end: int, duration: int)
    requires 0 < duration
    ensures Position(start, end, 0, duration) == start
  {
    assert 0 as real / duration as real == 0.0;
    KnownValues();
    assert Interpolate(start, end, 0.0) == start as real;
    RoundInt(start);
  }

  /** Later frames are never further from the end than earlier ones. */
  lemma PositionMonotone(start: int, end: int, e1: int, e2: int, duration: int)
    requires 0 <= e1 <= e2 && PositionDefined(e1, duration)
    ensures start <= end ==> Position(start, end, e1, duration) <= Position(start, end, e2, duration)
    ensures end <= start ==> Position(start, end, e2, duration) <= Position(start, end, e1, duration)
  {
    PositionBetween(start, end, e1, duration);
    if e2 <= duration {
      FractionMonotone(e1, e2, duration);
      var t1 := e1 as real / duration as real;
      var t2 := e2 as real / duration as real;
      Monotone(t1, t2);
      var u1 := EaseInOutCubic(t1);
      var u2 := EaseInOutCubic(t2);
      InterpolateMonotone(start, end, u1, u2);
      if start <= end {
        RoundMonotone(Interpolate(start, end, u1), Interpolate(start, end, u2));
      } else {
        RoundMonotone(Interpolate(start, end, u2), Interpolate(start, end, u1));
      }
    }
  }

  // ---------------------------------------------------------------------------
  // Set-up: options, target resolution and the plan of a run

  /**
   * The driver's options. Absent numbers are `None`; an absent or zero offset
   * is `0` (both are skipped by `if (options.offsetX)`); a callback flag says
   * whether that option is a function.
   */
  datatype DriverOptions = DriverOptions(
    container: Handle,
    targetX: Option<int>,
    targetY: Option<int>,
    offsetX: int,
    offsetY: int,
    duration: Option<int>,
    onInterrupt: bool,
    onArrive: bool)

  /** The options object `{}` that the older copies use when called without one. */
  const NoOptions: DriverOptions := DriverOptions(Absent, None, None, 0, 0, None, false, false)

  /**
   * One axis of the target: the requested value or the current offset, plus a
   * non-zero offset, clamped from above to the scroll max. There is no lower clamp.
   */
  function ResolveAxis(requested: Option<int>, current: int, offset: int, max: int): (r: int)
    ensures var wanted := requested.GetOr(current) + offset;
      && r <= max
      && (wanted <= max ==> r == wanted)
      && (wanted > max ==> r == max)
  {
    var base := requested.GetOr(current);
    var shifted := if offset != 0 then base + offset else base;
    Min(shifted, max)
  }

  /** What a run fixes at set-up; none of it changes while the run goes on. */
  datatype Plan = Plan(
    start: Point,
    target: Point,
    startTime: int,
    duration: int,
    onArrive: bool,
    onInterrupt: bool)

  /**
   * The plan of a run started at `startTime` on a container whose offsets are
   * `current` and whose scroll max is `max`.
   */
  function ResolvePlan(o: DriverOptions, current: Point, max: Point, startTime: int): (p: Plan)
    ensures p.start == current && p.startTime == startTime
    ensures p.target.x <= max.x && p.target.y <= max.y
    ensures o.duration.None? ==> p.duration == DurationDefault
    ensures o.duration.Some? ==> p.duration == o.duration.value
    ensures p.onArrive == o.onArrive && p.onInterrupt == o.onInterrupt
  {
    Plan(current,
         Point(ResolveAxis(o.targetX, current.x, o.offsetX, max.x),
               ResolveAxis(o.targetY, current.y, o.offsetY, max.y)),
         startTime,
         o.duration.GetOr(DurationDefault),
         o.onArrive,
         o.onInterrupt)
  }

  /** A request beyond the scroll max is pulled back to it; the other axis stays put. */
  lemma ClampScenario(current: Point, maxY: int)
    requires current.y <= maxY
    ensures var o := NoOptions.(targetX := Some(3000));
      ResolvePlan(o, current, Point(1000, maxY), 0).target == Point(1000, current.y)
  {
  }

  /** An offset is added to the requested target before clamping. */
  lemma OffsetScenario(maxX: int)
    requires 90 <= maxX
    ensures var o := NoOptions.(targetX := Some(100), offsetX := -10);
      ResolvePlan(o, Point(0, 0), Point(maxX, 0), 0).target.x == 90
  {
  }

  // ---------------------------------------------------------------------------
  // A frame step

  datatype Outcome = Interrupted | Arrived | Continue

  /** The callbacks a run invokes. */
  datatype Callback = OnInterrupt | OnArrive

  function Elapsed(p: Plan, now: int): int
  {
    now - p.startTime
  }

  /** A frame at `now` computes defined positions. */
  predicate CanStep(p: Plan, now: int)
  {
    PositionDefined(Elapsed(p, now), p.duration)
  }

  /** The offsets a non-interrupted frame at `now` writes. */
  function FramePosition(p: Plan, now: int): (r: Point)
    requires CanStep(p, now)
    ensures Elapsed(p, now) > p.duration ==> r == p.target
  {
    Point(Position(p.start.x, p.target.x, Elapsed(p, now), p.duration),
          Position(p.start.y, p.target.y, Elapsed(p, now), p.duration))
  }

  /**
   * How a frame ends, given the offsets the run last wrote and the live ones:
   * interference if they differ, arrival once late with an `onArrive`, else another frame.
   */
  function StepOutcome(p: Plan, last: Point, live: Point, now: int): (r: Outcome)
    ensures r == Interrupted <==> live != last
    ensures r == Arrived <==> live == last && Elapsed(p, now) > p.duration && p.onArrive
    ensures r == Continue <==> live == last && !(Elapsed(p, now) > p.duration && p.onArrive)
  {
    if live != last then Interrupted
    else if Elapsed(p, now) > p.duration && p.onArrive then Arrived
    else Continue
  }

  /** The callbacks invoked by a frame with that outcome. */
  function Notified(p: Plan, outcome: Outcome): (calls: seq<Callback>)
    ensures outcome == Interrupted ==> calls == (if p.onInterrupt then [OnInterrupt] else [])
    ensures outcome == Arrived ==> calls == [OnArrive]
    ensures outcome == Continue ==> calls == []
  {
    match outcome
    case Interrupted => if p.onInterrupt then [OnInterrupt] else []
    case Arrived => [OnArrive]
    case Continue => []
  }

  /** The synchronous first frame sees the offsets it started from, so it is never an interruption. */
  lemma FirstStepNeverInterrupted(p: Plan, now: int)
    ensures StepOutcome(p, p.start, p.start, now) != Interrupted
  {
  }

  /** Interference invokes `onInterrupt` at most, and never `onArrive`. */
  lemma InterruptionNeverArrives(p: Plan)
    ensures OnArrive !in Notified(p, Interrupted)
    ensures |Notified(p, Interrupted)| <= 1
    ensures OnInterrupt in Notified(p, Interrupted) <==> p.onInterrupt
  {
  }

  /** The arriving frame writes exactly the target. */
  lemma ArrivalIsExact(p: Plan, last: Point, live: Point, now: int)
    requires CanStep(p, now)
    requires StepOutcome(p, last, live, now) == Arrived
    ensures FramePosition(p, now) == p.target
  {
  }

  /** Without `onArrive` a run never stops on its own: every late frame rewrites the target and continues. */
  lemma NoOnArriveKeepsRunning(p: Plan, last: Point, now: int)
    requires !p.onArrive && Elapsed(p, now) > p.duration
    ensures StepOutcome(p, last, last, now) == Continue
    ensures FramePosition(p, now) == p.target
  {
  }

  /** Each frame's offsets lie between the start and the target on both axes. */
  lemma FramesStayBetween(p: Plan, now: int)
    requires 0 <= Elapsed(p, now) && CanStep(p, now)
    ensures Between(p.start.x, p.target.x, FramePosition(p, now).x)
    ensures Between(p.start.y, p.target.y, FramePosition(p, now).y)
  {
    PositionBetween(p.start.x, p.target.x, Elapsed(p, now), p.duration);
    PositionBetween(p.start.y, p.target.y, Elapsed(p, now), p.duration);
  }

  /** Frames written later are never further from the target, on either axis. */
  lemma FramesApproachTarget(p: Plan, now1: int, now2: int)
    requires 0 <= Elapsed(p, now1) && now1 <= now2 && CanStep(p, now1)
    ensures CanStep(p, now2)
    ensures p.start.x <= p.target.x ==> FramePosition(p, now1).x <= FramePosition(p, now2).x
    ensures p.target.x <= p.start.x ==> FramePosition(p, now2).x <= FramePosition(p, now1).x
    ensures p.start.y <= p.target.y ==> FramePosition(p, now1).y <= FramePosition(p, now2).y
    ensures p.target.y <= p.start.y ==> FramePosition(p, now2).y <= FramePosition(p, now1).y
  {
    PositionMonotone(p.start.x, p.target.x, Elapsed(p, now1), Elapsed(p, now2), p.duration);
    PositionMonotone(p.start.y, p.target.y, Elapsed(p, now1), Elapsed(p, now2), p.duration);
  }

  // ---------------------------------------------------------------------------
  // A run: the closure state of one `animateScroll` call

  class Run {
    const container: Element
    const startX: int
    const startY: int
    const targetX: int
    const targetY: int
    const startTime: int
    const duration: int
    const onArrive: bool
    const onInterrupt: bool
    /** The offsets this run last wrote (`lastX`, `lastY`). */
    var lastX: int
    var lastY: int
    /** A frame is still to come: the run has neither arrived nor been interrupted. */
    var active: bool
    /** The callbacks invoked so far, in order. */
    var calls: seq<Callback>

    function Config(): Plan
    {
      Plan(Point(startX, startY), Point(targetX, targetY), startTime, duration, onArrive, onInterrupt)
    }

    function Last(): Point
      reads this
    {
      Point(lastX, lastY)
    }

    /** Set-up: the start offsets are also the last written ones. */
    constructor (container: Element, plan: Plan)
      ensures this.container == container && Config() == plan
      ensures Last() == plan.start && active && calls == []
    {
      this.container := container;
      startX, startY := plan.start.x, plan.start.y;
      targetX, targetY := plan.target.x, plan.target.y;
      startTime, duration := plan.startTime, plan.duration;
      onArrive, onInterrupt := plan.onArrive, plan.onInterrupt;
      lastX, lastY := plan.start.x, plan.start.y;
      active := true;
      calls := [];
    }

    /** `step`: one animation frame at time `now`. */
    method Step(now: int) returns (outcome: Outcome)
      requires active
      requires container.Offsets() != Last() || CanStep(Config(), now)
      modifies this`lastX, this`lastY, this`active, this`calls, container`scrollLeft, container`scrollTop
      ensures outcome == StepOutcome(Config(), old(Last()), old(container.Offsets()), now)
      ensures active <==> outcome == Continue
      ensures calls == old(calls) + Notified(Config(), outcome)
      ensures outcome == Interrupted ==> Last() == old(Last()) && container.Offsets() == old(container.Offsets())
      ensures outcome != Interrupted ==> Last() == FramePosition(Config(), now) && container.Offsets() == Last()
    {
      if container.scrollLeft != lastX || container.scrollTop != lastY {
        // Something else moved the container: stop without writing.
        active := false;
        if onInterrupt {
          calls := calls + [OnInterrupt];
        }
        outcome := Interrupted;
      } else {
        var elapsed := now - startTime;
        lastX := Position(startX, targetX, elapsed, duration);
        container.scrollLeft := lastX;
        lastY := Position(startY, targetY, elapsed, duration);
        container.scrollTop := lastY;
        if elapsed > duration && onArrive {
          active := false;
          calls := calls + [OnArrive];
          outcome := Arrived;
        } else {
          outcome := Continue;
        }
      }
    }
  }

  /**
   * What the environment does before a frame: maybe scroll the container
   * itself, maybe change its content size (layout), and the frame's clock.
   */
  datatype Tick = Tick(scroll: Option<Point>, layout: Option<Point>, now: int)

  /** The content size after `ticks`, starting from `size`: the last layout change, if any. */
  function SizeAfter(ticks: seq<Tick>, size: Point): (r: Point)
    ensures (forall i :: 0 <= i < |ticks| ==> ticks[i].layout.None?) ==> r == size
    ensures r == size || exists i :: 0 <= i < |ticks| && ticks[i].layout == Some(r)
  {
    if |ticks| == 0 then size
    else if ticks[|ticks| - 1].layout.Some? then ticks[|ticks| - 1].layout.value
    else SizeAfter(ticks[..|ticks| - 1], size)
  }

  /** A layout change that no later tick overrides is the size after all of `ticks`. */
  lemma {:induction false} SizeAfterIsLast(ticks: seq<Tick>, size: Point, i: int)
    requires 0 <= i < |ticks| && ticks[i].layout.Some?
    requires forall j :: i < j < |ticks| ==> ticks[j].layout.None?
    ensures SizeAfter(ticks, size) == ticks[i].layout.value
  {
    if i < |ticks| - 1 {
      var init := ticks[..|ticks| - 1];
      assert forall j :: i < j < |init| ==> init[j] == ticks[j];
      SizeAfterIsLast(init, size, i);
    }
  }

  /**
   * The offsets a run has last written before frame `i` of `ticks`, when no
   * earlier frame was interrupted: the start, or what frame `i - 1` wrote.
   */
  function LastBefore(p: Plan, start: Point, ticks: seq<Tick>, i: int): Point
    requires 0 <= i <= |ticks|
    requires 0 < i ==> CanStep(p, ticks[i - 1].now)
  {
    if i == 0 then start else FramePosition(p, ticks[i - 1].now)
  }

  /** The container's offsets that frame `i` reads: the environment's scroll, or the last write. */
  function LiveAt(p: Plan, start: Point, ticks: seq<Tick>, i: int): Point
    requires 0 <= i < |ticks|
    requires 0 < i ==> CanStep(p, ticks[i - 1].now)
  {
    ticks[i].scroll.GetOr(LastBefore(p, start, ticks, i))
  }


  /**
   * The frame scheduler as an explicit loop: before each frame the environment
   * may write the offsets, then the run steps, until it stops or the ticks run out.
   */
  method Drive(run: Run, ticks: seq<Tick>) returns (outcome: Outcome, frames: nat)
    requires run.active && run.container.Offsets() == run.Last()
    requires forall i :: 0 <= i < |ticks| ==> CanStep(run.Config(), ticks[i].now)
    modifies run`lastX, run`lastY, run`active, run`calls, run.container`scrollLeft, run.container`scrollTop
    modifies run.container`scrollWidth, run.container`scrollHeight
    ensures frames <= |ticks|
    ensures run.active <==> outcome == Continue
    ensures outcome == Continue ==> frames == |ticks| && run.calls == old(run.calls)
    ensures outcome != Interrupted ==> run.container.Offsets() == run.Last()
    ensures outcome != Continue ==> 0 < frames && run.calls == old(run.calls) + Notified(run.Config(), outcome)
    ensures outcome == Arrived ==> run.container.Offsets() == run.Config().target
    ensures outcome == Interrupted ==>
      ticks[frames - 1].scroll.Some? && run.container.Offsets() == ticks[frames - 1].scroll.value
    ensures outcome != Interrupted && 0 < frames ==> run.Last() == FramePosition(run.Config(), ticks[frames - 1].now)
    ensures run.container.ContentSize() == SizeAfter(ticks[..frames], old(run.container.ContentSize()))
    ensures 0 < frames ==> outcome == StepOutcome(run.Config(),
      LastBefore(run.Config(), old(run.Last()), ticks, frames - 1),
      LiveAt(run.Config(), old(run.Last()), ticks, frames - 1), ticks[frames - 1].now)
    ensures forall i :: 0 <= i < frames && (i < frames - 1 || outcome == Continue) ==>
      StepOutcome(run.Config(), LastBefore(run.Config(), old(run.Last()), ticks, i),
                  LiveAt(run.Config(), old(run.Last()), ticks, i), ticks[i].now) == Continue
  {
    outcome, frames := Continue, 0;
    ghost var p, start := run.Config(), run.Last();
    while frames < |ticks| && outcome == Continue
      invariant frames <= |ticks|
      invariant run.active <==> outcome == Continue
      invariant outcome == Continue ==> run.calls == old(run.calls)
      invariant outcome != Interrupted ==> run.container.Offsets() == run.Last()
      invariant outcome != Continue ==> 0 < frames && run.calls == old(run.calls) + Notified(run.Config(), outcome)
      invariant outcome == Arrived ==> run.container.Offsets() == run.Config().target
      invariant outcome == Interrupted ==>
        ticks[frames - 1].scroll.Some? && run.container.Offsets() == ticks[frames - 1].scroll.value
      invariant outcome != Interrupted && 0 < frames ==> run.Last() == FramePosition(run.Config(), ticks[frames - 1].now)
      invariant run.container.ContentSize() == SizeAfter(ticks[..frames], old(run.container.ContentSize()))
      invariant frames == 0 ==> run.Last() == start
      invariant 0 < frames ==> outcome == StepOutcome(p,
        LastBefore(p, start, ticks, frames - 1), LiveAt(p, start, ticks, frames - 1), ticks[frames - 1].now)
      invariant forall i {:trigger LiveAt(p, start, ticks, i)} :: 0 <= i < frames && (i < frames - 1 || outcome == Continue) ==>
        StepOutcome(p, LastBefore(p, start, ticks, i), LiveAt(p, start, ticks, i), ticks[i].now) == Continue
    {
      var tick := ticks[frames];
      if tick.scroll.Some? {
        run.container.scrollLeft := tick.scroll.value.x;
        run.container.scrollTop := tick.scroll.value.y;
      }
      if tick.layout.Some? {
        run.container.scrollWidth := tick.layout.value.x;
        run.container.scrollHeight := tick.layout.value.y;
      }
      ghost var last := run.Last();
      ghost var live := run.container.Offsets();
      assert last == LastBefore(p, start, ticks, frames);
      assert live == LiveAt(p, start, ticks, frames);
      outcome := run.Step(tick.now);
      if outcome == Arrived {
        ArrivalIsExact(run.Config(), last, live, tick.now);
      }
      assert ticks[..frames + 1][..frames] == ticks[..frames];
      frames := frames + 1;
    }
  }

  // ---------------------------------------------------------------------------
  // The three copies of `animateScroll`

  /** The current copy's container: the default applies only to `undefined`, and it must be an element. */
  function ResolveContainer(doc: Document, h: Handle): (r: Result<Element>)
    ensures r.Ok? <==> h.Elem? || (h == Absent && doc.scrollingElement != null)
    ensures r.Ok? && h.Elem? ==> r.value == h.element
    ensures r.Ok? && h == Absent ==> r.value == doc.scrollingElement
    ensures r.Err? ==> r.error == ContainerNotElement
  {
    match h
    case Absent => if doc.scrollingElement != null then Ok(doc.scrollingElement as Element) else Err(ContainerNotElement)
    case Elem(e) => Ok(e)
    case NullRef => Err(ContainerNotElement)
    case NonElement => Err(ContainerNotElement)
  }

  /**
   * The current copy's container when called with `options` (`None` is a call
   * without an argument): destructuring `undefined` throws before the check.
   */
  function DriverContainer(doc: Document, options: Option<DriverOptions>): (r: Result<Element>)
    ensures options.None? ==> r == Err(EngineTypeError)
    ensures options.Some? ==> r == ResolveContainer(doc, options.value.container)
  {
    if options.None? then Err(EngineTypeError) else ResolveContainer(doc, options.value.container)
  }

  /**
   * The older copies' container, `options.container || document.scrollingElement`,
   * with no element check: a falsy handle falls back to the scrolling root, a
   * null root fails on the first property read, and a truthy non-element is
   * passed on, which the model does not follow.
   */
  function ResolveContainerOlder(doc: Document, h: Handle): (r: Result<Element>)
    ensures r.Ok? <==> h.Elem? || (h != NonElement && doc.scrollingElement != null)
    ensures r.Ok? && h.Elem? ==> r.value == h.element
    ensures r.Ok? && !h.Elem? ==> r.value == doc.scrollingElement
    ensures h == NonElement ==> r == Err(NotModelled)
    ensures r.Err? && h != NonElement ==> r.error == EngineTypeError
  {
    match h
    case Elem(e) => Ok(e)
    case NonElement => Err(NotModelled)
    case _ => if doc.scrollingElement != null then Ok(doc.scrollingElement as Element) else Err(EngineTypeError)
  }

  /** The elements whose offsets a call may write: the container, once it resolves. */
  function Footprint(r: Result<Element>): set<Element>
  {
    if r.Ok? then {r.value} else {}
  }

  /** The first frame, run synchronously at `now`, computes defined positions. */
  predicate FirstFrameDefined(duration: Option<int>, startTime: int, now: int)
  {
    PositionDefined(now - startTime, duration.GetOr(DurationDefault))
  }

  /** A run that has been set up, and how its synchronous first frame went. */
  datatype Started = Started(run: Run, first: Outcome)

  /** Creates the run for `plan` and takes the synchronous first step. */
  method Launch(container: Element, plan: Plan, now: int) returns (s: Started)
    requires container.Offsets() == plan.start && CanStep(plan, now)
    modifies container`scrollLeft, container`scrollTop
    ensures fresh(s.run) && s.run.container == container && s.run.Config() == plan
    ensures s.first == StepOutcome(plan, plan.start, plan.start, now) && s.first != Interrupted
    ensures s.run.active <==> s.first == Continue
    ensures s.run.calls == Notified(plan, s.first)
    ensures s.run.Last() == FramePosition(plan, now) && container.Offsets() == s.run.Last()
  {
    var run := new Run(container, plan);
    var first := run.Step(now);
    s := Started(run, first);
  }

  /**
   * `animateScroll` (current copy): validates the container, fixes the plan
   * from the container as it is now, and takes the first step. Only the
   * container's two offsets are written.
   */
  method AnimateScroll(doc: Document, options: Option<DriverOptions>, startTime: int, now: int) returns (r: Result<Started>)
    requires DriverContainer(doc, options).Ok? ==> FirstFrameDefined(options.value.duration, startTime, now)
    modifies Footprint(DriverContainer(doc, options))`scrollLeft, Footprint(DriverContainer(doc, options))`scrollTop
    ensures DriverContainer(doc, options).Err? ==> r == Err(DriverContainer(doc, options).error)
    ensures DriverContainer(doc, options).Ok? ==> r.Ok?
    ensures r.Ok? ==>
      var c := DriverContainer(doc, options).value;
      var plan := ResolvePlan(options.value, old(c.Offsets()), old(GetScrollMax(doc, c)), startTime);
      && fresh(r.value.run) && r.value.run.container == c && r.value.run.Config() == plan
      && r.value.first == StepOutcome(plan, plan.start, plan.start, now) && r.value.first != Interrupted
      && r.value.run.active == (r.value.first == Continue)
      && r.value.run.calls == Notified(plan, r.value.first)
      && c.Offsets() == r.value.run.Last() == FramePosition(plan, now)
      && c.ContentSize() == old(c.ContentSize())
  {
    var resolved := DriverContainer(doc, options);
    if resolved.Err? {
      return Err(resolved.error);
    }
    var c := resolved.value;
    var plan := ResolvePlan(options.value, Point(c.scrollLeft, c.scrollTop), GetScrollMax(doc, c), startTime);
    var s := Launch(c, plan, now);
    r := Ok(s);
  }

  /**
   * `animateScroll` of src/animateScroll.mjs and src/index.mjs: `options`
   * defaults to `{}`; the container falls back through `||` and is not
   * checked; the root's scroll max comes from `foreignMax`.
   */
  method AnimateScrollOlder(doc: Document, options: Option<DriverOptions>, foreignMax: Point, startTime: int, now: int)
    returns (r: Result<Started>)
    requires ResolveContainerOlder(doc, options.GetOr(NoOptions).container).Ok? ==>
      FirstFrameDefined(options.GetOr(NoOptions).duration, startTime, now)
    modifies Footprint(ResolveContainerOlder(doc, options.GetOr(NoOptions).container))`scrollLeft
    modifies Footprint(ResolveContainerOlder(doc, options.GetOr(NoOptions).container))`scrollTop
    ensures var resolved := ResolveContainerOlder(doc, options.GetOr(NoOptions).container);
      && (resolved.Err? ==> r == Err(resolved.error))
      && (resolved.Ok? ==> r.Ok?)
    ensures r.Ok? ==>
      var o := options.GetOr(NoOptions);
      var c := ResolveContainerOlder(doc, o.container).value;
      var plan := ResolvePlan(o, old(c.Offsets()), old(GetScrollMaxForeign(doc, c, foreignMax)), startTime);
      && fresh(r.value.run) && r.value.run.container == c && r.value.run.Config() == plan
      && r.value.first == StepOutcome(plan, plan.start, plan.start, now) && r.value.first != Interrupted
      && r.value.run.active == (r.value.first == Continue)
      && r.value.run.calls == Notified(plan, r.value.first)
      && c.Offsets() == r.value.run.Last() == FramePosition(plan, now)
      && c.ContentSize() == old(c.ContentSize())
  {
    var o := options.GetOr(NoOptions);
    var resolved := ResolveContainerOlder(doc, o.container);
    if resolved.Err? {
      return Err(resolved.error);
    }
    var c := resolved.value;
    var plan := ResolvePlan(o, Point(c.scrollLeft, c.scrollTop), GetScrollMaxForeign(doc, c, foreignMax), startTime);
    var s := Launch(c, plan, now);
    r := Ok(s);
  }

  /**
   * `animateScroll` of lib/index.js: as the older copy, but it has no
   * `onInterrupt` at all, so interference just stops the run.
   */
  method AnimateScrollLib(doc: Document, options: Option<DriverOptions>, foreignMax: Point, startTime: int, now: int)
    returns (r: Result<Started>)
    requires ResolveContainerOlder(doc, options.GetOr(NoOptions).container).Ok? ==>
      FirstFrameDefined(options.GetOr(NoOptions).duration, startTime, now)
    modifies Footprint(ResolveContainerOlder(doc, options.GetOr(NoOptions).container))`scrollLeft
    modifies Footprint(ResolveContainerOlder(doc, options.GetOr(NoOptions).container))`scrollTop
    ensures var resolved := ResolveContainerOlder(doc, options.GetOr(NoOptions).container);
      && (resolved.Err? ==> r == Err(resolved.error))
      && (resolved.Ok? ==> r.Ok?)
    ensures r.Ok? ==>
      var o := options.GetOr(NoOptions);
      var c := ResolveContainerOlder(doc, o.container).value;
      var plan := ResolvePlan(o.(onInterrupt := false), old(c.Offsets()), old(GetScrollMaxForeign(doc, c, foreignMax)), startTime);
      && fresh(r.value.run) && r.value.run.container == c && r.value.run.Config() == plan
      && !plan.onInterrupt
      && r.value.first == StepOutcome(plan, plan.start, plan.start, now) && r.value.first != Interrupted
      && r.value.run.active == (r.value.first == Continue)
      && r.value.run.calls == Notified(plan, r.value.first)
      && c.Offsets() == r.value.run.Last() == FramePosition(plan, now)
      && c.ContentSize() == old(c.ContentSize())
  {
    var o := options.GetOr(NoOptions);
    var resolved := ResolveContainerOlder(doc, o.container);
    if resolved.Err? {
      return Err(resolved.error);
    }
    var c := resolved.value;
    var plan := ResolvePlan(o.(onInterrupt := false), Point(c.scrollLeft, c.scrollTop),
                            GetScrollMaxForeign(doc, c, foreignMax), startTime);
    var s := Launch(c, plan, now);
    r := Ok(s);
  }

  /** In the lib copy interference ends the run silently: no callback at all. */
  lemma LibInterruptionIsSilent(p: Plan)
    requires !p.onInterrupt
    ensures Notified(p, Interrupted) == []
  {
  }
}
