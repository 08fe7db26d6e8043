/**
 * The adaptive retarget wrapper (`scrollToElement`): it measures the target
 * element, runs the driver towards it with its own `onArrive`, and on arrival
 * either scrolls afresh (the content size changed) or hands over to the
 * caller's `onArrive`.
 */
module Retarget {
  import opened Dom
  import opened JsMath
  import opened Geometry
  import opened Animate

  /** The wrapper's options; as for the driver, a callback flag says whether that option is a function. */
  datatype ElementOptions = ElementOptions(
    container: Handle,
    target: Handle,
    offsetX: int,
    offsetY: int,
    duration: Option<int>,
    onInterrupt: bool,
    onArrive: bool)

  /**
   * The driver options the wrapper builds for container `c` and measured
   * target position `pos`. Its `onArrive` is its own, so always a function.
   */
  function Forwarded(o: ElementOptions, c: Element, pos: Point): (d: DriverOptions)
    ensures d.container == Elem(c) && d.targetX == Some(pos.x) && d.targetY == Some(pos.y)
    ensures d.offsetX == o.offsetX && d.offsetY == o.offsetY && d.duration == o.duration
    ensures d.onInterrupt == o.onInterrupt && d.onArrive
  {
    DriverOptions(Elem(c), Some(pos.x), Some(pos.y), o.offsetX, o.offsetY, o.duration, o.onInterrupt, true)
  }

  /**
   * A wrapped run aims at the measured position plus the offset, clamped to
   * the scroll max, and always stops on its first late frame.
   */
  lemma WrappedRunAimsAtTarget(o: ElementOptions, c: Element, pos: Point, current: Point, max: Point, startTime: int, now: int)
    ensures var p := ResolvePlan(Forwarded(o, c, pos), current, max, startTime);
      && p.target == Point(Min(pos.x + o.offsetX, max.x), Min(pos.y + o.offsetY, max.y))
      && p.onInterrupt == o.onInterrupt
      && (Elapsed(p, now) > p.duration ==> StepOutcome(p, current, current, now) == Arrived)
  {
  }

  /**
   * One thing the substituted `onArrive` does: scroll afresh with some
   * options, or call the caller's `onArrive`.
   */
  datatype Action = Restart(options: ElementOptions) | Notify

  /** What the substituted `onArrive` does, in the order it does it. */
  type Reaction = seq<Action>

  /**
   * Current copy: a changed content size restarts with the caller's
   * options and defers the caller's `onArrive`; otherwise that is called.
   */
  function ArriveReaction(o: ElementOptions, captured: Point, current: Point): (r: Reaction)
    ensures |r| <= 1
    ensures Restart(o) in r <==> current != captured
    ensures Notify in r <==> current == captured && o.onArrive
    ensures forall a :: a in r ==> a == Restart(o) || a == Notify
  {
    if current != captured then [Restart(o)]
    else if o.onArrive then [Notify]
    else []
  }

  /**
   * Copy of src/scrollToElement.mjs, public/scrollToElement.mjs and
   * src/index.mjs: the same restart, run to its first frame first, and then
   * the caller's `onArrive`, whether or not it restarted.
   */
  function OlderArriveReaction(o: ElementOptions, captured: Point, current: Point): (r: Reaction)
    ensures |r| == (if current != captured then 1 else 0) + (if o.onArrive then 1 else 0)
    ensures Restart(o) in r <==> current != captured
    ensures Notify in r <==> o.onArrive
    ensures forall a :: a in r ==> a == Restart(o) || a == Notify
    ensures Notify in r ==> r[|r| - 1] == Notify
  {
    (if current != captured then [Restart(o)] else []) + (if o.onArrive then [Notify] else [])
  }

  /**
   * The options lib/index.js restarts with: its driver `config`, which has the
   * container, offsets, duration and its own `onArrive`, but no `target`.
   */
  function LibRestartOptions(o: ElementOptions, c: Element): (config: ElementOptions)
    ensures config.target == Absent && config.container == Elem(c)
    ensures config.offsetX == o.offsetX && config.offsetY == o.offsetY && config.duration == o.duration
  {
    ElementOptions(Elem(c), Absent, o.offsetX, o.offsetY, o.duration, false, true)
  }

  /**
   * Copy of lib/index.js: a changed size restarts with `config`; that call
   * throws before returning, so the caller's `onArrive` on the next line is
   * only reached when nothing changed.
   */
  function LibArriveReaction(o: ElementOptions, c: Element, captured: Point, current: Point): (r: Reaction)
    ensures |r| <= 1
    ensures Restart(LibRestartOptions(o, c)) in r <==> current != captured
    ensures Notify in r <==> current == captured && o.onArrive
    ensures forall a :: a in r ==> a == Restart(LibRestartOptions(o, c)) || a == Notify
  {
    if current != captured then [Restart(LibRestartOptions(o, c))]
    else if o.onArrive then [Notify]
    else []
  }

  /**
   * The older copies' `getTargetScrollPos(container, options.target)` with no
   * element check: anything but an element fails on `getBoundingClientRect`.
   */
  function TargetScrollPosOlder(doc: Document, c: Element, h: Handle): (r: Result<Point>)
    reads c, if h.Elem? then {h.element} else {}
    ensures r.Ok? <==> h.Elem?
    ensures r.Err? ==> r.error == EngineTypeError
    ensures r.Ok? ==> r.value == GetTargetScrollPos(doc, c, h.element)
  {
    if h.Elem? then Ok(GetTargetScrollPos(doc, c, h.element)) else Err(EngineTypeError)
  }

  /** In lib/index.js a restart can never measure its target: it always throws. */
  lemma LibRestartThrows(doc: Document, o: ElementOptions, c: Element, captured: Point, current: Point)
    requires current != captured
    ensures var r := LibArriveReaction(o, c, captured, current);
      && r == [Restart(LibRestartOptions(o, c))]
      && TargetScrollPosOlder(doc, c, r[0].options.target) == Err(EngineTypeError)
  {
  }

  /** Restarting with the caller's options measures the same target again, so it succeeds whenever the first call did. */
  lemma RestartKeepsTarget(doc: Document, o: ElementOptions, c: Element, captured: Point, current: Point)
    requires current != captured && o.target.Elem?
    ensures var r := OlderArriveReaction(o, captured, current);
      && r[0] == Restart(o)
      && TargetScrollPosOlder(doc, c, r[0].options.target).Ok?
  {
  }

  /** The older copies start the next run and then call the caller's `onArrive` as well. */
  lemma OlderNotifiesDuringRestart(o: ElementOptions, captured: Point, current: Point)
    requires current != captured && o.onArrive
    ensures OlderArriveReaction(o, captured, current) == [Restart(o), Notify]
  {
  }

  /** The current copy calls the caller's `onArrive` only on an arrival with unchanged size. */
  lemma ArriveDefersUntilSettled(o: ElementOptions, captured: Point, current: Point)
    ensures current != captured ==> ArriveReaction(o, captured, current) == [Restart(o)]
    ensures current == captured ==> ArriveReaction(o, captured, current) == (if o.onArrive then [Notify] else [])
  {
  }

  /** Which copy of `scrollToElement` set a session up. */
  datatype Copy = Current | Older | Lib

  /**
   * A `scrollToElement` call under way: its options, its container, the
   * content size it captured before starting, its one driver run, and which
   * copy made it.
   */
  class Session {
    const options: ElementOptions
    const container: Element
    const scrollWidth: int
    const scrollHeight: int
    const run: Run
    const first: Outcome
    const copy: Copy

    constructor (options: ElementOptions, container: Element, scrollWidth: int, scrollHeight: int,
                 run: Run, first: Outcome, copy: Copy)
      ensures this.options == options && this.container == container
      ensures this.scrollWidth == scrollWidth && this.scrollHeight == scrollHeight
      ensures this.run == run && this.first == first && this.copy == copy
    {
      this.options := options;
      this.container := container;
      this.scrollWidth, this.scrollHeight := scrollWidth, scrollHeight;
      this.run := run;
      this.first := first;
      this.copy := copy;
    }

    function Captured(): Point
    {
      Point(scrollWidth, scrollHeight)
    }

    /**
     * What the substituted `onArrive` of this session's copy does when the driver
     * calls it now: every copy notifies alone when the size is unchanged, and
     * restarts first when it changed.
     */
    function ArrivalReaction(): (r: Reaction)
      reads container
      ensures container.ContentSize() == Captured() ==> r == (if options.onArrive then [Notify] else [])
      ensures container.ContentSize() != Captured() ==> |r| > 0 && r[0].Restart?
      ensures copy != Lib && Restart(options) in r ==> r[0] == Restart(options)
    {
      match copy
      case Current => ArriveReaction(options, Captured(), container.ContentSize())
      case Older => OlderArriveReaction(options, Captured(), container.ContentSize())
      case Lib => LibArriveReaction(options, container, Captured(), container.ContentSize())
    }

    /**
     * The rest of the session: the driver's frames, and the substituted
     * `onArrive` exactly when the driver arrives. An interruption, or a run
     * still going when the ticks run out, reacts not at all.
     */
    method Follow(ticks: seq<Tick>) returns (outcome: Outcome, frames: nat, reaction: Option<Reaction>)
      requires run.active && run.container == container && container.Offsets() == run.Last()
      requires forall i :: 0 <= i < |ticks| ==> CanStep(run.Config(), ticks[i].now)
      modifies run`lastX, run`lastY, run`active, run`calls
      modifies container`scrollLeft, container`scrollTop, container`scrollWidth, container`scrollHeight
      ensures frames <= |ticks| && (outcome == Continue ==> frames == |ticks|)
      ensures run.active <==> outcome == Continue
      ensures container.ContentSize() == SizeAfter(ticks[..frames], old(container.ContentSize()))
      ensures 0 < frames ==> outcome == StepOutcome(run.Config(),
        LastBefore(run.Config(), old(run.Last()), ticks, frames - 1),
        LiveAt(run.Config(), old(run.Last()), ticks, frames - 1), ticks[frames - 1].now)
      ensures forall i :: 0 <= i < frames && (i < frames - 1 || outcome == Continue) ==>
        StepOutcome(run.Config(), LastBefore(run.Config(), old(run.Last()), ticks, i),
                    LiveAt(run.Config(), old(run.Last()), ticks, i), ticks[i].now) == Continue
      ensures outcome != Interrupted ==> container.Offsets() == run.Last()
      ensures outcome != Interrupted && 0 < frames ==> run.Last() == FramePosition(run.Config(), ticks[frames - 1].now)
      ensures reaction.Some? <==> outcome == Arrived
      ensures outcome == Arrived ==> container.Offsets() == run.Config().target && reaction.value == ArrivalReaction()
      ensures run.calls == old(run.calls) + (if outcome == Continue then [] else Notified(run.Config(), outcome))
    {
      outcome, frames := Drive(run, ticks);
      if outcome == Arrived {
        reaction := Some(ArrivalReaction());
      } else {
        reaction := None;
      }
    }
  }

  /**
   * The current copy's container when called with `options` (`None` is a call
   * without an argument): destructuring `undefined` throws before the checks.
   */
  function WrapperContainer(doc: Document, options: Option<ElementOptions>): (r: Result<Element>)
    ensures options.None? ==> r == Err(EngineTypeError)
    ensures options.Some? ==> r == ResolveContainer(doc, options.value.container)
  {
    if options.None? then Err(EngineTypeError) else ResolveContainer(doc, options.value.container)
  }

  /**
   * The older copies' container: reading `options.container` of `undefined`
   * throws; a truthy non-element gets as far as the measurement, where its
   * missing `getBoundingClientRect` throws before the driver starts; otherwise
   * the `||` fallback of the older driver.
   */
  function WrapperContainerOlder(doc: Document, options: Option<ElementOptions>): (r: Result<Element>)
    ensures options.None? ==> r == Err(EngineTypeError)
    ensures options.Some? && options.value.container == NonElement ==> r == Err(EngineTypeError)
    ensures options.Some? && options.value.container != NonElement ==>
      r == ResolveContainerOlder(doc, options.value.container)
  {
    if options.None? || options.value.container == NonElement then Err(EngineTypeError)
    else ResolveContainerOlder(doc, options.value.container)
  }

  /**
   * `scrollToElement` (current copy): checks the container, then the target,
   * captures the content size, measures the target and starts one driver run.
   * Only the container's two offsets are written.
   */
  method ScrollToElement(doc: Document, options: Option<ElementOptions>, startTime: int, now: int) returns (r: Result<Session>)
    requires WrapperContainer(doc, options).Ok? && options.value.target.Elem? ==>
      FirstFrameDefined(options.value.duration, startTime, now)
    modifies Footprint(WrapperContainer(doc, options))`scrollLeft, Footprint(WrapperContainer(doc, options))`scrollTop
    ensures WrapperContainer(doc, options).Err? ==> r == Err(WrapperContainer(doc, options).error)
    ensures WrapperContainer(doc, options).Ok? && !options.value.target.Elem? ==> r == Err(TargetNotElement)
    ensures WrapperContainer(doc, options).Ok? && options.value.target.Elem? ==> r.Ok?
    ensures r.Err? ==> unchanged(Footprint(WrapperContainer(doc, options)))
    ensures r.Ok? ==>
      var o := options.value;
      var c := WrapperContainer(doc, options).value;
      var pos := old(GetTargetScrollPos(doc, c, o.target.element));
      var plan := ResolvePlan(Forwarded(o, c, pos), old(c.Offsets()), old(GetScrollMax(doc, c)), startTime);
      var s := r.value;
      && fresh(s) && fresh(s.run) && s.copy == Current
      && s.options == o && s.container == c && s.Captured() == old(c.ContentSize()) == c.ContentSize()
      && s.run.container == c && s.run.Config() == plan
      && s.first == StepOutcome(plan, plan.start, plan.start, now) && s.first != Interrupted
      && s.run.active == (s.first == Continue)
      && s.run.calls == Notified(plan, s.first)
      && c.Offsets() == s.run.Last() == FramePosition(plan, now)
      && s.ArrivalReaction() == (if o.onArrive then [Notify] else [])
  {
    var resolved := WrapperContainer(doc, options);
    if resolved.Err? {
      return Err(resolved.error);
    }
    var o := options.value;
    if !o.target.Elem? {
      return Err(TargetNotElement);
    }
    var c := resolved.value;
    var width, height := c.scrollWidth, c.scrollHeight;
    var pos := GetTargetScrollPos(doc, c, o.target.element);
    var started := AnimateScroll(doc, Some(Forwarded(o, c, pos)), startTime, now);
    var session := new Session(o, c, width, height, started.value.run, started.value.first, Current);
    r := Ok(session);
  }

  /**
   * `scrollToElement` of src/scrollToElement.mjs, public/scrollToElement.mjs
   * and src/index.mjs: no checks, the `||` container fallback, and the older driver.
   */
  method ScrollToElementOlder(doc: Document, options: Option<ElementOptions>, foreignMax: Point, startTime: int, now: int)
    returns (r: Result<Session>)
    requires WrapperContainerOlder(doc, options).Ok? ==> FirstFrameDefined(options.value.duration, startTime, now)
    modifies Footprint(WrapperContainerOlder(doc, options))`scrollLeft
    modifies Footprint(WrapperContainerOlder(doc, options))`scrollTop
    ensures WrapperContainerOlder(doc, options).Err? ==> r == Err(WrapperContainerOlder(doc, options).error)
    ensures WrapperContainerOlder(doc, options).Ok? && !options.value.target.Elem? ==> r == Err(EngineTypeError)
    ensures WrapperContainerOlder(doc, options).Ok? && options.value.target.Elem? ==> r.Ok?
    ensures r.Err? ==> unchanged(Footprint(WrapperContainerOlder(doc, options)))
    ensures r.Ok? ==>
      var o := options.value;
      var c := WrapperContainerOlder(doc, options).value;
      var pos := old(GetTargetScrollPos(doc, c, o.target.element));
      var plan := ResolvePlan(Forwarded(o, c, pos), old(c.Offsets()),
                              old(GetScrollMaxForeign(doc, c, foreignMax)), startTime);
      var s := r.value;
      && fresh(s) && fresh(s.run) && s.copy == Older
      && s.options == o && s.container == c && s.Captured() == old(c.ContentSize()) == c.ContentSize()
      && s.run.container == c && s.run.Config() == plan
      && s.first == StepOutcome(plan, plan.start, plan.start, now) && s.first != Interrupted
      && s.run.active == (s.first == Continue)
      && s.run.calls == Notified(plan, s.first)
      && c.Offsets() == s.run.Last() == FramePosition(plan, now)
      && s.ArrivalReaction() == (if o.onArrive then [Notify] else [])
  {
    var resolved := WrapperContainerOlder(doc, options);
    if resolved.Err? {
      return Err(resolved.error);
    }
    var o := options.value;
    var c := resolved.value;
    var width, height := c.scrollWidth, c.scrollHeight;
    var measured := TargetScrollPosOlder(doc, c, o.target);
    if measured.Err? {
      return Err(EngineTypeError);
    }
    var started := AnimateScrollOlder(doc, Some(Forwarded(o, c, measured.value)), foreignMax, startTime, now);
    var session := new Session(o, c, width, height, started.value.run, started.value.first, Older);
    r := Ok(session);
  }

  /**
   * `scrollToElement` of lib/index.js: as the older copy, but `onInterrupt` is
   * not forwarded and the lib driver is used.
   */
  method ScrollToElementLib(doc: Document, options: Option<ElementOptions>, foreignMax: Point, startTime: int, now: int)
    returns (r: Result<Session>)
    requires WrapperContainerOlder(doc, options).Ok? ==> FirstFrameDefined(options.value.duration, startTime, now)
    modifies Footprint(WrapperContainerOlder(doc, options))`scrollLeft
    modifies Footprint(WrapperContainerOlder(doc, options))`scrollTop
    ensures WrapperContainerOlder(doc, options).Err? ==> r == Err(WrapperContainerOlder(doc, options).error)
    ensures WrapperContainerOlder(doc, options).Ok? && !options.value.target.Elem? ==> r == Err(EngineTypeError)
    ensures WrapperContainerOlder(doc, options).Ok? && options.value.target.Elem? ==> r.Ok?
    ensures r.Err? ==> unchanged(Footprint(WrapperContainerOlder(doc, options)))
    ensures r.Ok? ==>
      var o := options.value;
      var c := WrapperContainerOlder(doc, options).value;
      var pos := old(GetTargetScrollPos(doc, c, o.target.element));
      var plan := ResolvePlan(Forwarded(o, c, pos).(onInterrupt := false), old(c.Offsets()),
                              old(GetScrollMaxForeign(doc, c, foreignMax)), startTime);
      var s := r.value;
      && fresh(s) && fresh(s.run) && s.copy == Lib
      && s.options == o && s.container == c && s.Captured() == old(c.ContentSize()) == c.ContentSize()
      && s.run.container == c && s.run.Config() == plan && !plan.onInterrupt
      && s.first == StepOutcome(plan, plan.start, plan.start, now) && s.first != Interrupted
      && s.run.active == (s.first == Continue)
      && s.run.calls == Notified(plan, s.first)
      && c.Offsets() == s.run.Last() == FramePosition(plan, now)
      && s.ArrivalReaction() == (if o.onArrive then [Notify] else [])
  {
    var resolved := WrapperContainerOlder(doc, options);
    if resolved.Err? {
      return Err(resolved.error);
    }
    var o := options.value;
    var c := resolved.value;
    var width, height := c.scrollWidth, c.scrollHeight;
    var measured := TargetScrollPosOlder(doc, c, o.target);
    if measured.Err? {
      return Err(EngineTypeError);
    }
    var config := Forwarded(o, c, measured.value).(onInterrupt := false);
    var started := AnimateScrollLib(doc, Some(config), foreignMax, startTime, now);
    var session := new Session(o, c, width, height, started.value.run, started.value.first, Lib);
    r := Ok(session);
  }
}
