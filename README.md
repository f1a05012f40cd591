# FramerSunbeam focus and autoscroll core, in Dafny

This project models the logic of the FramerSunbeam add-on, which brings
`react-sunbeam` directional focus to Framer. It covers four pieces:

- **Scroll autoscroll** (`scroll.dfy`, module `Scroll`). A `Scroll` container receives
  the bounding box of a newly focused descendant. It recovers its live scroll position
  from the viewport and track geometry, and it derives a scale factor from the rendered
  and layout sizes of the viewport. It then picks a delta: the minimal-reveal rule when
  stickiness is auto or the element fits, or leading/trailing-edge alignment for an
  oversized element. Finally it clamps the result into the valid range. A disabled axis
  is reset to 0. The arithmetic is one set of pure functions over an `Axis` record,
  used once for X and once for Y. The component is the class `DefaultScroll`: its
  direction and stickiness are fixed at mount, and its `scrollX`/`scrollY` state is
  written by `OnChildFocus`.
- **Edge-triggered detectors** (`on_focused_change.dfy`, `on_focus.dfy`, and
  `FocusableWrapper` in `focusable.dfy`). Each keeps one previous-value cell, seeded
  with the value seen at mount. Each render compares that cell with the current value,
  fires or does not, then overwrites the cell. `edges.dfy` defines what happens over a
  whole run of observations and proves it against independent counts: a change
  detector makes one call per adjacent change, and the values alternate. A rising-edge
  detector makes one call per false-to-true edge.
- **The `Focusable` component's selectors** (`focusable.dfy`): the value chosen for
  the declared prop kind, the focused/blurred choice, and the focus-key fallback
  `focusableKey || randomKey`.
- **Focus-to-scroll notification** (`scroll_context.dfy`). React context scoping is
  modelled as an explicit stack of the enclosing Scroll Providers, innermost last.
  `useFocusable` is the class `FocusableHook`. It looks up the nearest Provider's
  handler and, on a focus-gain edge only, appends one notification carrying its
  bounding box to a log.

JavaScript numbers are modelled as `real`. One React render plus its commit is one
call of `Observe`/`Render`.

## Model

| member | source | states |
|---|---|---|
| Scroll.Scale | code/Scroll.tsx:141-142 | the scale factor (rendered size over layout size) is positive |
| Scroll.ScaleMapsLayoutToScreen | code/Scroll.tsx:141-142 | the scale is the factor that turns the viewport's layout size into its rendered size |
| Scroll.CurrentScroll | code/Scroll.tsx:143-144 | `currentScrollX/Y`, the live position in layout units. `CurrentScrollRecovered` shows that scaled back to the screen it is the track's shift against the viewport, and `ScaledAxisMeasures` shows it does not change when the on-screen geometry is scaled |
| Scroll.CurrentScrollRecovered | code/Scroll.tsx:143-144 | the live scroll position is the viewport-to-track distance on screen, converted to layout units by the scale |
| Scroll.Clamp | code/Scroll.tsx:189-198 | the result lies in `[0, max]`, equals the input when the input is in range, is 0 below the range and `max` above it |
| Scroll.AxisTarget | code/Scroll.tsx:186-198 | an enabled axis's new offset lies in `[0, max(scrollExtent - layoutExtent, 0)]` |
| Scroll.NewScroll | code/Scroll.tsx:158-243 | both offsets lie in `[0, max(trackScrollWidth/Height - viewportOffsetWidth/Height, 0)]`; `vertical` gives `x == 0` and `horizontal` gives `y == 0` (a disabled axis is reset, not kept) |
| Scroll.ScreenDelta | code/Scroll.tsx:160-184 | the delta's on-screen distance before the division by the scale. `FittingElementRevealed` shows that a fitting element ends wholly inside the viewport after the move, and `OversizedElementSticks` that an oversized one is aligned by its stickiness edge |
| Scroll.Delta | code/Scroll.tsx:160-184 | `deltaScrollX/Y`, the chosen delta in layout units. `LeadingEdgeFirst`, `TrailingEdgeSecond`, `VisibleElementDoesNotMove` and `OversizedElementSticks` give it branch by branch, and `ScaledAxisDelta` shows it does not change when the on-screen geometry is scaled |
| Scroll.FittingElementRevealed | code/Scroll.tsx:160-171 | an element no larger than the viewport lies wholly inside it after the track moves by the on-screen delta, whatever the stickiness |
| Scroll.VisibleElementDoesNotMove | code/Scroll.tsx:160-171 | with auto stickiness or a fitting element that is already inside the viewport, the delta is 0, the result is the clamped live position, and it is the live position itself when that is in range |
| Scroll.LeadingEdgeFirst | code/Scroll.tsx:166-167 | under the minimal-reveal rule, an element starting before the viewport gets `delta = (elementLeft - viewportLeft) / scale`, which is negative, whatever its trailing edge |
| Scroll.TrailingEdgeSecond | code/Scroll.tsx:168-171 | only when the leading test fails and the trailing edge is past the viewport does the trailing rule give `(rightEdge - viewportWidth) / scale`, which is positive |
| Scroll.OversizedElementSticks | code/Scroll.tsx:172-183 | an element larger than the viewport with `left`/`top` stickiness aligns the leading edges, and with `right`/`bottom` it aligns the trailing edges |
| Scroll.UnclampedTarget | code/Scroll.tsx:186-188 | when `currentScroll + delta` is in range, it is the new offset |
| Scroll.OversizedExample | code/Scroll.tsx:172-183 | viewport at 0 of width 100, element at 40 of width 140, scale 1: `left` scrolls to 40 and `right` to 80 |
| Scroll.ScaledAxisTarget | code/Scroll.tsx:141-198 | multiplying an axis's on-screen quantities by `k > 0` (layout and scroll sizes fixed) leaves its offset unchanged |
| Scroll.NewScrollScaleInvariant | code/Scroll.tsx:141-243 | scaling the viewport, track and element boxes by the same `k > 0` leaves both computed offsets unchanged |
| Scroll.DefaultScroll.constructor | code/Scroll.tsx:99-113 | properties fixed at mount, both offsets start at 0 |
| Scroll.DefaultScroll.OnChildFocus | code/Scroll.tsx:115-249 | with a ref missing, nothing changes; otherwise the state becomes `NewScroll` of the live geometry, whatever the old state held; offsets stay non-negative and a disabled axis stays 0 |
| Edges.ChangeCallsCount | code/useOnFocusedChange.ts:7-23 | when the cell is seeded with the first value, the number of handler calls over a run equals the number of adjacent changes |
| Edges.ChangeCallsAlternate | code/useOnFocusedChange.ts:9-23 | the values handed to the handler alternate, starting with the negation of the seed; the cell returns to the seed after an even number of calls |
| Edges.FalseFalseTrueTrueFalse | code/useOnFocusedChange.ts:7-23 | `[f,f,t,t,f]` (seeded with `f`) gives exactly the calls `true`, then `false`, and one focus gain |
| Edges.RisingCallsCount | code/useOnFocus.ts:3-23 | when the cell is seeded with the first value, the number of `onFocus` calls equals the number of false-to-true edges |
| Edges.RisingEdgesHalfOfChanges | code/useOnFocus.ts:6-13 | the number of focus gains is half the number of changes, rounded up for a run starting blurred and down for one starting focused |
| OnFocusedChange.FocusedChangeDetector.constructor | code/useOnFocusedChange.ts:17-18 | the cell is seeded with the initial value |
| OnFocusedChange.FocusedChangeDetector.Observe | code/useOnFocusedChange.ts:7-27 | the handler is called, with the new value, iff that value differs from the committed one and a handler exists; afterwards the cell holds the new value |
| OnFocusedChange.RunFocusedChange | code/useOnFocusedChange.ts:3-27 | mounting with the first value and rendering each value delivers exactly the step-wise change calls: one per adjacent change, alternating, none at mount |
| OnFocus.FocusDetector.constructor | code/useOnFocus.ts:16-17 | the cell is seeded with the initial value |
| OnFocus.FocusDetector.Observe | code/useOnFocus.ts:3-26 | `onFocus` is called iff the value went from false to true and `onFocus` exists; never on a loss or with no change; the cell then holds the new value |
| OnFocus.RunFocus | code/useOnFocus.ts:3-26 | over a run, `onFocus` is called once per rising edge and not at mount |
| Focusable.GetFocusedValue | code/Focusable.tsx:6-26 | the result has the declared kind and is one of the four focused arguments, so it is the one argument of that kind |
| Focusable.GetBlurredValue | code/Focusable.tsx:28-48 | the result has the declared kind and is one of the four blurred arguments |
| Focusable.SelectionIsDetermined | code/Focusable.tsx:13-25 | the kind and the offered values leave only one value that meets the selectors' contracts |
| Focusable.FocusKey | code/Focusable.tsx:91-95 | a non-empty `focusableKey` is used, otherwise the random key; the key is non-empty whenever the random key is |
| Focusable.InjectedValue | code/Focusable.tsx:101-131 | the injected value has the declared kind; while focused it is a focused value, otherwise a blurred one |
| Focusable.FocusableWrapper.constructor | code/Focusable.tsx:210-225 | the previous cell is seeded with the mounting `focused` value |
| Focusable.FocusableWrapper.Render | code/Focusable.tsx:197-234 | the user `onFocus` receives the render's `path` iff focus went from false to true and `onFocus` is defined; the cell then holds `focused` |
| Focusable.FocusableInstance.constructor | code/Focusable.tsx:91-94 | the random key is fixed at mount |
| Focusable.FocusableInstance.Render | code/Focusable.tsx:91-136 | each render registers `focusableKey` when it is a non-empty string and otherwise the same fallback key (the random key drawn at mount); the key is never empty; injects the value for the current focus state, and fires the user callback only on a focus gain |
| ScrollContext.Nearest | code/useFocusable.ts:30-35 | there is no handler (`null`) exactly when no Provider encloses the focusable, and any handler found is one of the enclosing Scrolls |
| ScrollContext.ScrollContextStack.Context | code/useFocusable.ts:30-32 | `useContext`: `null` exactly outside every Provider, otherwise the innermost Provider's Scroll |
| ScrollContext.NestedScrollShadows | code/Scroll.tsx:250-266 | inside a nested Scroll, its handler is the one found, and no enclosing Scroll's handler is |
| ScrollContext.ScrollContextStack.constructor | code/ScrollContext.ts:3-5 | outside every Provider there is no handler, and no notification has been sent |
| ScrollContext.ScrollContextStack.Enter | code/Scroll.tsx:250-266 | inside a Scroll's Provider, that Scroll's handler is the context value |
| ScrollContext.ScrollContextStack.Leave | code/Scroll.tsx:266-289 | leaving the innermost Provider restores the enclosing scopes |
| ScrollContext.ScrollContextStack.Notify | code/useFocusable.ts:38-41 | a call to a handler adds exactly one notification, carrying the bounding box |
| ScrollContext.FocusableHook.constructor | code/useFocusable.ts:36 | the change detector is seeded with the mounting focus state |
| ScrollContext.FocusableHook.Render | code/useFocusable.ts:14-45 | the sunbeam data is returned unchanged; on a focus gain inside a Scroll, exactly one notification with the element's bounding box goes to the nearest Scroll; nothing is sent on a loss, with no change, or with no enclosing Scroll |
| ScrollContext.RunFocusableHook | code/useFocusable.ts:30-42 | over a run of focus states, the enclosing Scroll gets one notification per focus gain, each with the element's box; with no Scroll, nothing is sent |

## Left out

- Rendering, property controls, the thumbnail, canvas and empty-state placeholders, and styling (code/Scroll.tsx:12-97 and 255-342, code/Focusable.tsx:97-99, 138-195 and 221). These have no logic beyond what is modelled.
- code/SunbeamContainer.tsx is not part of this model. It wires keyboard events to the focus manager's `moveUp/Down/Left/Right`. The focus order is decided there, outside these files.
- The scroll animation (`animate={{x: -scrollX, y: -scrollY}}`, a spring or tween). Only the target offsets are modelled.
- `react-sunbeam` (`useFocusable`, `Focusable`, `SunbeamProvider`). Its `focused` and `path` are inputs. The `onKeyPress`/`onFocus`/`onBlur` options that `useFocusable` forwards to it are not modelled.
- DOM measurement (`getBoundingClientRect`, `offsetWidth`, `scrollWidth`). Its results are real-valued inputs, and a missing ref is `None`.
- IEEE floating point. Numbers are exact reals. An enabled axis therefore requires a positive rendered size and a positive layout size (`Scroll.Measurable`). The source divides without a guard, and with a zero size it would compute `Infinity` or `NaN`. A disabled axis requires nothing, since its quotient is discarded.
- `Math.random` key generation (code/Focusable.tsx:92). It is nondeterministic, so the drawn key is a constructor parameter of `FocusableInstance`. The model keeps only the fact that the drawn numeral is never empty, as that constructor's precondition.
- The `window.SunbeamScrollContext` global that `useFocusable` reads the context from, and code/ScrollContext.ts and code/index.ts themselves. The model replaces the global with the explicit Provider stack `ScrollContextStack`, whose empty state is the context's `null` default. The model takes `window.SunbeamScrollContext` (code/useFocusable.ts:30-32) to be the same context object that code/Scroll.tsx:9 imports and code/Scroll.tsx:266 provides; no file of the core makes that link, and the `FramerSunbeamGlobals` type that code/useFocusable.ts:8 imports is not exported by code/ScrollContext.ts.
- React scheduling. One render and its commit are one step. Memoisation is not modelled: the handler memoised with `[]` deps appears as properties fixed at mount, and the `randomKey` memo appears as a constant field.
- `usePrevious` is generic in the source. It is modelled at `bool`, the only type the core uses it with.
- Stickiness or direction strings outside the TypeScript union types are not modelled.
- An unset stickiness is not modelled. Its controls declare no default (code/Scroll.tsx:40-57), and when it is unset an oversized element gets delta 0, because neither edge test of code/Scroll.tsx:172-183 matches. The model's stickiness is always auto, leading or trailing.
- A `focusPropType` outside its union, or unset, is not modelled. Its control declares no default (code/Focusable.tsx:145-150). In that case `getFocusedValue`/`getBlurredValue` return `undefined` and the child receives `undefined`.
- Behaviour of the TypeScript that shapes the model's contracts:
  - `newScrollX`/`newScrollY` start at 0 on every call and are set only on an enabled axis (code/Scroll.tsx:158, 201, 245-246). A disabled axis is therefore written 0 each time, and `DefaultScroll.Valid` records that its stored offset is always 0.
  - Every Scroll, nested or not, wraps its children in a Provider carrying its own `onChildFocus` (code/Scroll.tsx:250-253, 266), so, with the global context taken to be that object (see above), the nearest enclosing Scroll receives the notification.
  - `ref.current` is dereferenced without a check on a focus gain inside a Scroll (code/useFocusable.ts:40). A set ref is therefore a precondition of `FocusableHook.Render` in that case.
  - The scale factors and live positions divide by the viewport sizes without a guard (code/Scroll.tsx:141-144). Positive sizes on an enabled axis are therefore a precondition (`Scroll.Measurable`), as in the floating-point line above.
