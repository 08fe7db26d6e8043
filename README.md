# scroll-animator, modelled in Dafny

This project models the browser library scroll-animator. The library animates
a container element's two scroll offsets (`scrollLeft`, `scrollTop`)
toward a target, frame by frame. It has two entry points:

- `animateScroll`, the driver. It validates the container and captures the
  start offsets, which are also the run's "last written" offsets. Each axis
  target is the requested value or the current offset, plus any non-zero
  offset, capped at the scroll maximum. Then it steps once per animation
  frame. A frame whose live offsets differ from the last written ones is an
  interruption: `onInterrupt` runs, nothing is written and no frame follows.
  Any other frame writes the eased position `position(start, target, elapsed,
  duration)` on both axes. It then either arrives (late, with an `onArrive`) or
  asks for another frame.
- `scrollToElement`, the wrapper. It validates the container and the target
  element and captures the container's content size. It measures the target's
  offset with `getTargetScrollPos` and runs the driver with its own `onArrive`.
  On arrival a changed content size makes it scroll afresh. Otherwise it calls
  the caller's `onArrive`.

The helpers are `getScrollMax` (content size minus client size, read from the
document element for the scrolling root), `getTargetScrollPos` and the cubic
curve `easeInOutCubic`.

The repository holds several revisions of these functions. The root-level files
are the main model. The copies under `src/`, `public/` and `lib/` are modelled
as variant members that share the pure helpers:

- `AnimateScrollOlder` models `src/animateScroll.mjs`. `src/index.mjs`
  (lines 89-141) holds the same function.
- `AnimateScrollLib` models `lib/index.js`.
- `ScrollToElementOlder` models `src/scrollToElement.mjs` and
  `public/scrollToElement.mjs`. `src/index.mjs` (lines 156-179) holds the same
  function.
- `ScrollToElementLib` models `lib/index.js`.
- `GetScrollMaxForeign` models the older `getScrollMax` of `src/getScrollMax.mjs`,
  `src/index.mjs` and `lib/index.js`.

`getTargetScrollPos`, `easeInOutCubic` and `position` are the same in every
copy. Each has one definition here.

Modules, one per file:

- `JsMath` (js_math.dfy): `Math.round` and `Math.min`.
- `Easing` (easing.dfy): the curve.
- `Dom` (dom.dfy): elements, the document, option handles and errors.
- `Geometry` (geometry.dfy): the two measuring helpers.
- `Animate` (animate.dfy): the driver, with the `Run` class, its `Step` and the
  `Drive` frame loop.
- `Retarget` (retarget.dfy): the wrapper, with the `Session` class.

How the environment is represented:

- **Time.** `Date.now()` becomes the parameters `startTime`/`now`.
- **Frames.** `requestAnimationFrame` becomes the explicit loop `Animate.Drive`.
  Before each frame the environment may itself write the container's offsets
  and change its content size (a `Tick`). `Retarget.Session.Follow` runs the
  wrapper's frames and, on arrival, the wrapper's own `onArrive`.
- **Calls without an argument.** An options parameter of type `Option` is
  `None` when the function is called with no options object.
- **Callbacks.** A flag records whether `onInterrupt`/`onArrive` is a function.
  The callbacks a run invokes are logged in `Run.calls`.
- **Foreign scroll maxima.** The older copies get the root's maxima from the
  foreign `get-scrollmax-x`/`-y` packages. Here they are the parameter
  `foreignMax`.
- **Numbers.** Arithmetic is exact `real`. `Math.round(r)` is `(r + 0.5).Floor`.
- **Elements passed by callers.** A `Handle` is one of `Absent` (`undefined`),
  `NullRef`, `Elem(e)` or `NonElement`. It stands for `instanceof Element` and
  the `||` and destructuring defaults.
- **Errors.** `Result` carries them. `ContainerNotElement` and
  `TargetNotElement` are the library's `TypeError`s. `EngineTypeError` is the
  engine's `TypeError` when a property is read from `null`/`undefined`.
  `NotModelled` is no error of the library: it marks the one input whose
  behaviour the model does not follow (see "## Left out").
- **Reactions.** What the wrapper's `onArrive` does is a sequence of actions,
  `Restart(options)` and `Notify`, in the order the source performs them.

The driver and wrapper methods may write only the container's `scrollLeft` and
`scrollTop`. Content size, client size and rectangle stay as they were. A call
that ends in an error writes nothing at all.

## Notes on the code

- **Zero duration.** With `duration: 0`, a first frame in the same millisecond
  as set-up computes `0 / 0` (animateScroll.mjs:21). The run does not arrive at
  once. That case is excluded by `PositionDefined` (see "## Left out").
- **Negative scroll maximum.** `getScrollMax` has no lower clamp
  (getScrollMax.mjs:14-15), so the maximum is negative when the client size
  exceeds the content size. Target resolution clamps only from above
  (animateScroll.mjs:79-80).
- **Stopping without `onArrive`.** A run without an `onArrive` function never
  stops on its own. After the duration it rewrites the target every frame
  (animateScroll.mjs:107-109, `NoOnArriveKeepsRunning`).
- **Engine errors.** The older copies raise no errors of their own. They fail
  with the engine's `TypeError` on a missing scrolling root or target
  (src/animateScroll.mjs:51-55, src/scrollToElement.mjs:22).
- **Restart in lib/index.js.** The restart passes `config`, which has no
  `target`, so it throws. The caller's `onArrive` on the next line is then not
  reached (lib/index.js:154-155; see Findings).

## Model

| member | source | states |
|---|---|---|
| `JsMath.Round` | getTargetScrollPos.mjs:21-24 | `Math.round` gives the integer `n` with `n − ½ ≤ x < n + ½`: the nearest integer, halves toward +∞ |
| `JsMath.Min` | animateScroll.mjs:79-80 | `Math.min` is one of its arguments and at most both |
| `JsMath.RoundMonotone` | animateScroll.mjs:21 | rounding keeps the order of two reals |
| `JsMath.RoundBetween` | animateScroll.mjs:21 | a real between two integers rounds to an integer between them |
| `Easing.EaseInOutCubic` | private/easeInOutCubic.js:13-15 | the curve itself, `4t³` before the midpoint and `(t−1)(2t−2)²+1` from it on; it has no contract of its own and its properties are the lemmas that follow |
| `Easing.Branches` | private/easeInOutCubic.js:13-15 | the curve is `4t³` for `t < ½` and `(t−1)(2t−2)²+1 = 4(t−1)³+1` from `½` on (same in src/index.mjs:55-57 and lib/index.js:59-61) |
| `Easing.KnownValues` | test/private/easeInOutCubic.test.mjs:5-23 | f(0)=0, f(¼)=1/16, f(½)=½, f(¾)=15/16, f(1)=1, as the tests (also easeInOutCubic.test.mjs:12-30) check |
| `Easing.Monotone` | private/easeInOutCubic.js:14 | the curve is non-decreasing over all reals |
| `Easing.Range` | private/easeInOutCubic.js:14 | on `[0, 1]` the curve stays in `[0, 1]` |
| `Easing.Symmetric` | private/easeInOutCubic.js:14 | `f(1 − t) = 1 − f(t)` for every `t` |
| `Dom.Element` | animateScroll.mjs:63-64 | an element as the library sees it: integer scroll offsets (read here, written at animateScroll.mjs:94-105), content and client sizes (getScrollMax.mjs:14-15) and the rectangle edges of `getBoundingClientRect` (getTargetScrollPos.mjs:11-18) |
| `Dom.Document` | getScrollMax.mjs:10-11 | the document's `scrollingElement`, which may be null, and its `documentElement` |
| `Dom.Message` | animateScroll.mjs:56-57 | the two library errors carry the messages the source throws (container: animateScroll.mjs:57, scrollToElement.mjs:47; target: scrollToElement.mjs:50) |
| `Geometry.MetricsElement` | getScrollMax.mjs:10-11 | the metrics come from `document.documentElement` exactly when the element is the scrolling root, else from the element |
| `Geometry.GetScrollMax` | getScrollMax.mjs:9-17 | the maximum plus the client size equals the content size, per axis, on the chosen element; only reads fields |
| `Geometry.ScrollMaxIsLastInsideOffset` | getScrollMax.mjs:13-16 | an offset is at most the maximum iff the viewport at that offset stays within the content |
| `Geometry.ScrollMaxOfRoot` | getScrollMax.mjs:10-11 | for the scrolling root the result equals the document element's |
| `Geometry.ScrollMaxAxesSeparate` | getScrollMax.mjs:14-15 | x is width minus client width and y height minus client height of the chosen element, nothing else |
| `Geometry.GetScrollMaxForeign` | src/getScrollMax.mjs:12-21 | older copy: the root's maxima are the foreign values, decided by identity with the scrolling root; a non-root element uses its own sizes (same in src/index.mjs:11-22, lib/index.js:18-30) |
| `Geometry.ScrollMaxCopiesAgreeOffRoot` | src/getScrollMax.mjs:18-21 | off the root, the older and current `getScrollMax` agree |
| `Geometry.AxisScrollPos` | getTargetScrollPos.mjs:11-24 | after scrolling to the result the target's edge sits less than half a pixel from the container's edge (the viewport origin for the root) |
| `Geometry.AxisScrollPosOnRoot` | getTargetScrollPos.mjs:10-12 | root: the result is `round(target edge + scroll offset)` |
| `Geometry.AxisScrollPosOffRoot` | getTargetScrollPos.mjs:14-19 | non-root: the container's edge is subtracted before rounding (same in src/getTargetScrollPos.mjs:15-20) |
| `Geometry.AxisScrollPosShift` | getTargetScrollPos.mjs:12-19 | non-root: moving target and container rectangles by one amount leaves the result |
| `Geometry.AxisScrollPosScrollInvariant` | getTargetScrollPos.mjs:11-12 | the result does not depend on how far the container is currently scrolled |
| `Geometry.GetTargetScrollPos` | getTargetScrollPos.mjs:9-25 | both integer results bring the target's top-left corner to within half a pixel of the container's visible corner; only reads fields (same in src/getTargetScrollPos.mjs:10-26, src/index.mjs:32-45, lib/index.js:38-51) |
| `Animate.DurationDefault` | animateScroll.mjs:7 | the `duration` default is 500 ms (also src/animateScroll.mjs:47, lib/index.js:89) |
| `Animate.Position` | animateScroll.mjs:18-22 | once `elapsed > duration` the position is exactly the end (same in src/animateScroll.mjs:15-18, src/index.mjs:69-72, lib/index.js:71-74) |
| `Animate.PositionBetween` | animateScroll.mjs:18-22 | from elapsed 0 on, the position lies between start and end inclusive, either direction |
| `Animate.PositionAtStart` | animateScroll.mjs:21 | at elapsed 0 of a positive duration the position is the start |
| `Animate.PositionMonotone` | animateScroll.mjs:18-22 | a later moment is never further from the end than an earlier one |
| `Animate.ResolveAxis` | animateScroll.mjs:71-80 | the axis target is at most the maximum; it is (requested or current) plus offset when that fits, the maximum otherwise; no lower clamp |
| `Animate.ResolvePlan` | animateScroll.mjs:53-80 | start is the current offsets, targets are capped by the maximum, duration defaults to 500 only when absent, callbacks kept |
| `Animate.ClampScenario` | animateScroll.mjs:77-80 | `targetX: 3000` with x maximum 1000 gives target (1000, current y) |
| `Animate.OffsetScenario` | animateScroll.mjs:73-75 | `targetX: 100, offsetX: -10` from 0 gives target x 90 |
| `Animate.StepOutcome` | animateScroll.mjs:84-109 | interrupted iff a live offset differs from the last written; arrived iff not and late with an `onArrive`; otherwise another frame |
| `Animate.Notified` | animateScroll.mjs:89-90 | an interruption calls `onInterrupt` only if it is a function; arrival calls `onArrive`; another frame calls nothing |
| `Animate.FirstStepNeverInterrupted` | animateScroll.mjs:62-68 | the synchronous first step, seeing `last = start = live`, is never an interruption |
| `Animate.InterruptionNeverArrives` | animateScroll.mjs:84-90 | interference calls at most one callback, never `onArrive`, and `onInterrupt` iff it is a function |
| `Animate.ArrivalIsExact` | animateScroll.mjs:92-108 | the arriving frame writes exactly the target on both axes |
| `Animate.NoOnArriveKeepsRunning` | animateScroll.mjs:107-109 | with no `onArrive`, every late frame rewrites the target and asks for another frame |
| `Animate.FramePosition` | animateScroll.mjs:92-105 | a non-interrupted frame writes `position` of its elapsed time on each axis; once late it writes exactly the target |
| `Animate.FramesStayBetween` | animateScroll.mjs:94-105 | every written offset lies between start and target on its axis (no overshoot) |
| `Animate.FramesApproachTarget` | animateScroll.mjs:92-105 | offsets written at later frames are never further from the target, on either axis |
| `Animate.Run.constructor` | animateScroll.mjs:62-68 | a run starts with last written = start, active, no callbacks |
| `Animate.Run.Step` | animateScroll.mjs:83-111 | interference: nothing written, last kept, `onInterrupt` logged if a function, no further frame; else both axes written, last equals the written offsets, then arrive (`onArrive` logged) or stay active |
| `Animate.SizeAfter` | animateScroll.mjs:107-109 | the content size seen after some frames is the starting size, or the last layout change the environment made; with no layout change it is the starting size |
| `Animate.SizeAfterIsLast` | animateScroll.mjs:107-109 | a layout change that no later tick overrides is the content size after all the ticks |
| `Animate.Drive` | animateScroll.mjs:84-113 | the frame loop, with the environment scrolling or re-laying out the container before each frame: every frame before the last one run, and the last one while the run goes on, is a continuing `step` (`StepOutcome` of the offsets last written, `LastBefore`, against the live ones, `LiveAt`); the outcome is that of the last frame run, so an interference ends the run at that very frame and an arrival happens exactly on the first late frame with an `onArrive`; arrival leaves the container at the target, an interruption where the environment put it; a non-interrupted last frame wrote `FramePosition` of its tick; the content size is `SizeAfter` the frames run; each stopping frame logs its callback once |
| `Animate.ResolveContainer` | animateScroll.mjs:53-57 | the scrolling root is used only for `undefined`; anything but an element is a `TypeError` |
| `Animate.DriverContainer` | animateScroll.mjs:52-57 | a call without an options object fails with the engine's `TypeError` while destructuring; otherwise the container is resolved and checked as `ResolveContainer` says |
| `Animate.ResolveContainerOlder` | src/animateScroll.mjs:51-55 | `options.container` if it is an element, else the scrolling root for a falsy handle; a null root fails with the engine's `TypeError` on the first read (line 54); a truthy non-element gives `NotModelled` |
| `Animate.Launch` | animateScroll.mjs:113 | the run is created and its first step taken synchronously; that step is never an interruption |
| `Animate.AnimateScroll` | animateScroll.mjs:52-114 | no options object or a non-element container: that error, nothing written; else one fresh run with the resolved plan (maximum read once, at set-up) and its first step done; only `scrollLeft`/`scrollTop` of the container are written |
| `Animate.AnimateScrollOlder` | src/animateScroll.mjs:44-102 | older copy: missing options become `{}`, container by `||`, the first frame's time constrained only when the container resolves, root maximum foreign, errors as `ResolveContainerOlder`, otherwise as the current driver, writing only the two offsets (same in src/index.mjs:89-141) |
| `Animate.AnimateScrollLib` | lib/index.js:87-128 | lib copy: as the older driver, but the plan never has an `onInterrupt`; only the two offsets are written |
| `Animate.LibInterruptionIsSilent` | lib/index.js:117-126 | without `onInterrupt`, interference invokes no callback at all |
| `Retarget.Forwarded` | scrollToElement.mjs:53-72 | the driver gets the measured x/y as targets; offsets, duration and `onInterrupt` are forwarded unchanged; its `onArrive` is always a function |
| `Retarget.WrappedRunAimsAtTarget` | scrollToElement.mjs:53-61 | a wrapped run aims at `min(position + offset, max)` per axis and always stops on its first late frame |
| `Retarget.ArriveReaction` | scrollToElement.mjs:62-71 | at most one action: a restart with the original options iff the content size changed, and the caller's `onArrive` iff it is unchanged and a function |
| `Retarget.OlderArriveReaction` | src/scrollToElement.mjs:31-40 | older copies: the same restart, and the caller's `onArrive` whenever it is a function, always after the restart (same in public/scrollToElement.mjs:45-54, src/index.mjs:168-176) |
| `Retarget.LibRestartOptions` | lib/index.js:145-157 | the options lib restarts with are its `config`: container, offsets and duration kept, no `target` |
| `Retarget.LibArriveReaction` | lib/index.js:152-156 | lib: a size change gives only a restart with `config`, and the caller's `onArrive` is not reached; otherwise it is called iff a function |
| `Retarget.TargetScrollPosOlder` | src/scrollToElement.mjs:22 | older copies measure any element target and fail with the engine's `TypeError` on anything else |
| `Retarget.LibRestartThrows` | lib/index.js:154 | in lib a restart is the only action and can never measure its target: it always fails |
| `Retarget.RestartKeepsTarget` | src/scrollToElement.mjs:38 | restarting with the caller's options, the first action, measures the same element again and succeeds |
| `Retarget.OlderNotifiesDuringRestart` | public/scrollToElement.mjs:48-53 | on a size change the older copies restart and then call the caller's `onArrive` |
| `Retarget.ArriveDefersUntilSettled` | scrollToElement.mjs:63-70 | the current copy either restarts alone or, with an unchanged size, only calls the caller's `onArrive` |
| `Retarget.Session.constructor` | scrollToElement.mjs:52-61 | a session keeps the options, container, captured size and its one run |
| `Retarget.Session.ArrivalReaction` | scrollToElement.mjs:62-71 | the reaction of the session's copy to the live content size: in every copy an unchanged size only notifies (iff `onArrive` is a function) and a changed size restarts first |
| `Retarget.Session.Follow` | scrollToElement.mjs:61-71 | the remaining frames of the wrapper's run, with the outcome and frame count tied to the ticks as `Drive` states; the substituted `onArrive` reacts exactly when the run arrives, never after an interruption or while still running, and reads the content size at that moment, which is the last layout change among the frames run; so for a session just set up, an arrival with no layout change only notifies |
| `Retarget.WrapperContainer` | scrollToElement.mjs:35-47 | a call without an options object fails with the engine's `TypeError` while destructuring; otherwise the container check of the driver |
| `Retarget.WrapperContainerOlder` | src/scrollToElement.mjs:19-20 | older copies: reading `options.container` of no object, or measuring a truthy non-element container (src/getTargetScrollPos.mjs:16), fails with the engine's `TypeError`; otherwise the `||` fallback of `ResolveContainerOlder` |
| `Retarget.ScrollToElement` | scrollToElement.mjs:35-75 | no options, then container, then target checked, all before anything runs; the content size is captured before the one fresh driver run aimed at the measured position; only the two offsets are written, so the size still equals the captured one and an arrival now would only notify |
| `Retarget.ScrollToElementOlder` | src/scrollToElement.mjs:19-44 | older copies: no checks of their own, `||` container, size captured before the run, measured targets with offsets, duration and `onInterrupt` forwarded, only the two offsets written (same in public/scrollToElement.mjs:33-58) |
| `Retarget.ScrollToElementLib` | lib/index.js:140-159 | lib: as the older copy, but its run never has an `onInterrupt` |

## Findings

| source | as written | input that shows it | evidently intended | confidence | as-written member | corrected member |
|---|---|---|---|---|---|---|
| lib/index.js:154 | on a content-size change `scrollToElement(config)` is called; `config` has no `target`, so `getTargetScrollPos` reads `getBoundingClientRect` of `undefined` and throws, and line 155 (the caller's `onArrive`) is skipped | any lib `scrollToElement` during which `container.scrollWidth` or `scrollHeight` changes before arrival | restart with the caller's `options`, as src/scrollToElement.mjs:38 does | not executed; high | `Retarget.LibRestartThrows` | `Retarget.RestartKeepsTarget` |
| src/scrollToElement.mjs:39 | the caller's `onArrive` runs even when the wrapper has just restarted, so a chain of n runs calls it n times, the first ones before the target is reached | a `scrollToElement` with an `onArrive` whose first run ends with a changed content size | call `onArrive` only when no restart happens, as scrollToElement.mjs:70 does with `else if` | not executed; medium | `Retarget.OlderNotifiesDuringRestart` | `Retarget.ArriveDefersUntilSettled` |

## Left out

- `Animate.Position`: requires `elapsed > duration || duration != 0`. The
  excluded case is a zero duration whose first frame falls in the same
  millisecond as set-up. The source then computes `0 / 0` (NaN), writes it and
  records it as the last offset. NaN and IEEE-754 arithmetic are not modelled;
  all arithmetic is exact.
- `Animate.Run.Step`, `Animate.AnimateScroll` and the other driver and wrapper
  methods carry the same requirement on the frame's time, for the same reason.
- `Animate.ResolveContainerOlder`: a truthy container that is not an element
  gives `Err(NotModelled)`, and `AnimateScrollOlder` and `AnimateScrollLib` stop
  there. Those two drivers do not check it and go on with `undefined`
  properties and NaN arithmetic. What happens next depends on the value: a
  primitive throws on the first write in strict mode, and a plain object gets
  NaN offsets. That is not modelled.
- `Retarget.ScrollToElementOlder`, `Retarget.ScrollToElementLib`: a truthy
  non-element container is taken to have no `getBoundingClientRect`. Measuring
  then throws the engine's `TypeError` before the driver starts and before any
  write (src/getTargetScrollPos.mjs:16, lib/index.js:43), and the model returns
  that error. A duck-typed object that does have such a method is not modelled.
- `Retarget.TargetScrollPosOlder`: a truthy target that is not an element is
  likewise taken to have no `getBoundingClientRect`, so measuring it throws the
  engine's `TypeError` (src/getTargetScrollPos.mjs:11, lib/index.js:39). A
  duck-typed target that does have such a method is not modelled.
- `Dom.Handle`: falsy values other than `undefined` and `null` (`0`, `""`,
  `false`, `NaN`) cannot be written as a handle. The current copies would
  reject such a container with `ContainerNotElement`. The older copies' `||`
  would fall back to the scrolling root, as for `NullRef`.
- The callback options are fixed in the plan at set-up. The source reads
  `options.onInterrupt` and `options.onArrive` from the caller's object at every
  frame (animateScroll.mjs:90, 107), and the older wrapper reads
  `options.onArrive` at arrival (src/scrollToElement.mjs:39). A caller that
  replaces them mid-run is not modelled.
- The `scrollToElement` restart chain: each arrival's actions are modelled as
  an ordered `Reaction`. For the older copies, `[Restart(o), Notify]` means the
  whole restart runs first, synchronously, up to its first frame's write, and
  only then the caller's `onArrive` (src/scrollToElement.mjs:38-39). Performing
  the restart is left to the caller of that decision, because the source puts
  no bound on the chain and no termination can be stated.
- What the callbacks themselves do (caller code) is left out. The environment's
  own scrolling and content-size changes between frames are modelled by
  `Drive`'s ticks. A moving target rectangle is whatever the fields hold when
  read.
- Browser behaviour is left out: clamping or rounding of writes to
  `scrollLeft`/`scrollTop`, layout, real `getBoundingClientRect`, and
  `instanceof`. Writes are assumed to stick. Elements are plain objects with int
  offsets and sizes and real rectangle edges.
- Fractional or non-numeric option values (`targetX`, `offsetX`, `duration`)
  are left out. The options are integers or absent, and an absent offset is 0.
- The foreign packages `get-scrollmax-x`/`get-scrollmax-y` are not part of this
  model. Their results are the parameter `foreignMax`.
- Real time and frame pacing are left out. `Date.now()` and
  `requestAnimationFrame` are replaced by explicit times and the `Drive` loop.
- The test harness, browser automation, bundle-size tests and rollup build
  configuration are I/O and packaging, and are left out.
