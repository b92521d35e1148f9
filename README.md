# flexiSlider core in Dafny

This project models the core of flexiSlider, a jQuery slider that lays out a
row of slides with CSS `calc()` formulas and picks a responsive layout for
the width of its container (`src/flexiSlider.js`). It covers:

- the settings store with its hooks: `set` for one key, the object form
  that walks every option key in declaration order, `get`, the merge of the
  two default tiers with the caller's options, and the option route
  (`$(..).flexiSlider(name, value)`), which accepts only keys of
  `RuntimeDefaults`; `set` called as a method takes any key (`values.dfy`,
  `settings.dfy`);
- the breakpoint resolver: the `layout` hook, which sorts the rules in
  place and resolves them into pixel ranges, and the scan of
  `updateResize`, which picks the range containing the container width
  (`breakpoints.dfy`);
- the geometry formulas of `updateSlides` and `updatePosition`, as a small
  expression language over reals with an evaluator (`geometry.dfy`) and
  `parseCSSValue` (`css.dfy`);
- the position rules of `next` and `prev` (`position.dfy`);
- the leading-edge debounce of navigation clicks, with the timer as a flag
  and its expiry as an explicit step (`debounce.dfy`). The same gate guards
  `onEvent.resize`, which the program defines but never binds: the window
  listener and the interval call `resizeTick` directly
  (src/flexiSlider.js:358, 362). `Resize` models that unused handler;
- what `set`, `updateResize` and `resizeTick` do to the slider's state, as
  functions on a `State` value (`slider_state.dfy`), and what `initialize`
  does to a fresh slider (`startup.dfy`);
- the slider object itself, as the class `FlexiSlider.Slider`, whose fields
  are the `Vars` fields the core updates in place. Its methods carry the
  source's branches and loops, and each is proved to leave the state that
  the `SliderState` functions give (`slider.dfy`).

What the page answers during a call becomes a `Page` parameter: the
container's `offsetWidth`, whether the `slides` selector finds an element,
and how many slides the `slide` selector finds. A call that throws a
TypeError in JavaScript, by reading a property of `undefined` or `null`,
returns `threw`. A `layout` value that is an array is modelled as an array
of rule objects, so the entries `null` and `undefined`, which throw the same
TypeError inside the hook, are not values of the model. Other errors the
program can raise are not modelled either (see "Left out"). So "throws
exactly when" below always means this TypeError, for layout arrays of rule
objects.

The model follows the code as written, including these behaviours a reader
may not expect:

- `set('layout', null)` and `set('layout', undefined)` throw. The hook reads
  `value.new.length` for its error message before it falls back to the
  default layout. The same holds for `slideLayout`, which reads
  `layout.margin`. `Startup.InitializeReadsWidth` shows that, for layout arrays of rule
  objects, `initialize` throws this TypeError exactly when the caller
  passes `layout: null`.
- `slideLayouts` is only ever appended to. `Breakpoints.LaterLayoutsNeverApply`
  shows that once an accepted layout list has been resolved, layouts set
  later are never chosen.
- `prev` from position 0 with fewer slides than a group moves to the
  negative position `slideCount - slideGroup` (`Position.FewSlidesPrevGoesNegative`).
- A rule followed by a rule without a width gets the upper bound
  `undefined - 1`, which is `NaN`, so its range never matches. A rule
  followed by one with an explicit `width: 0` gets the upper bound -1
  instead. `width: 0` counts as "no width" only for the sort key and for
  the check that the first rule has no width.
- A layout that leaves out `group`, `scroll` or `margin`, or gives it a
  falsy value, keeps the current value of that field. It does not take the
  default rule's value. So the default rule's `margin: 0` never resets the
  margin of a wider layout applied before it
  (`SliderState.DefaultLayoutKeepsMargin`).
- The declared field is `slideLayoutsIndex` (-1, never used). The code
  reads and writes `slidesLayoutIndex`, which starts `undefined`. Both are
  fields of the class.
- The sort comparator answers -1 for equal widths in both directions, so
  rules with equal widths can come out in any order. The hook's sort may
  produce any sorted permutation, and every result is stated for the one
  it produced (the ghost out-parameter `sorted`).

## Model

| member | source | states |
|---|---|---|
| Css.ParseCssValue | src/flexiSlider.js:371-387 | the unit is never empty: a plain number gets `px`, a string keeps its number and its unit, and falls back to `px` when it has no unit |
| Geometry.SlideWidth | src/flexiSlider.js:174-183 | the slide-width formula is well formed (no empty formula inside) for every group of at least one |
| Geometry.SideMargin | src/flexiSlider.js:186 | the margin on the two sides of a slide adds up to one margin |
| Geometry.Offset | src/flexiSlider.js:209-220 | the translation is well formed whenever the stored width is, and is exactly 0 at position 0 without margin |
| Geometry.SlideWidthFillsContainer | src/flexiSlider.js:174-183 | `group` slides and the `group - 1` margins between them add up to the container width, for every container width and unit size |
| Geometry.OffsetShiftsWholeSlides | src/flexiSlider.js:209-220 | the translation at position `pos` is `pos` slides plus `pos` margins plus half a margin to the left, position 0 included; that half margin is one side margin (`SideMargin`), so the first visible slide's left margin is hidden |
| Position.NextPos | src/flexiSlider.js:149-153 | reference definition of `next`: the position moves on by one while that stays at or below the last start position, and otherwise wraps to 0 |
| Position.PrevPos | src/flexiSlider.js:160-164 | reference definition of `prev`: the position moves back by one from above 0, and otherwise wraps to the last start position |
| Position.StepsStayInRange | src/flexiSlider.js:148-169 | `next` and `prev` keep a position in `0 .. slideCount - slideGroup` in that range |
| Position.PrevUndoesNext | src/flexiSlider.js:148-169 | `prev` undoes `next` and `next` undoes `prev` on every position in range, wrap-around included |
| Position.FewSlidesPrevGoesNegative | src/flexiSlider.js:159-164 | with fewer slides than a group, `next` stays at 0 but `prev` goes to a negative position |
| Position.NextCounts | src/flexiSlider.js:148-153 | from 0, `k` calls of `next` reach position `k`, for every `k` up to the last start position |
| Position.NextCycle | src/flexiSlider.js:148-153 | from 0, `slideCount - slideGroup + 1` calls of `next` come back to 0 |
| Position.PrevCounts | src/flexiSlider.js:159-164 | from 0, `k` calls of `prev` reach `slideCount - slideGroup + 1 - k` |
| Position.PrevCycle | src/flexiSlider.js:159-164 | from 0, `slideCount - slideGroup + 1` calls of `prev` come back to 0 |
| Breakpoints.Key | src/flexiSlider.js:301 | the sort key of a rule: a non-zero key is the rule's own width, and a rule without a width sorts as 0 |
| Breakpoints.Accepts | src/flexiSlider.js:306-309 | the loop accepts the sorted rules exactly when there are none or the first one's key is 0 |
| Breakpoints.ToPx | src/flexiSlider.js:311 | the upper bound is `Infinity` exactly for the last rule, `NaN` exactly when the next rule has no width, and otherwise one below the next rule's width |
| Breakpoints.LayoutInput | src/flexiSlider.js:296-299 | the hook throws exactly for `undefined` and `null`, sorts a non-empty array as given, and falls back to the default layout for anything else |
| Breakpoints.SwapDown | src/flexiSlider.js:300-302 | one exchange of neighbours; the rest of the array is unchanged and the contents are a permutation |
| Breakpoints.InsertDown | src/flexiSlider.js:300-302 | moving one rule down extends the sorted prefix by one, as a permutation, and leaves the rest alone |
| Breakpoints.SortRules | src/flexiSlider.js:300-302 | the rules end sorted by width (an absent width counts as 0) and are a permutation of the rules given |
| Breakpoints.Resolved | src/flexiSlider.js:303-323 | one layout per rule: from its width, to the next rule's width minus one (`NaN` when that has none, `Infinity` for the last), with the rule's group, scroll and margin |
| Breakpoints.AcceptsIffBaseRule | src/flexiSlider.js:300-309 | whatever the input order, the sorted list passes the mandatory-base-rule check exactly when some rule has no width and none has a negative width |
| Breakpoints.ResolvedCoversOnce | src/flexiSlider.js:303-323 | the ranges of an accepted sorted list cover every width from 0 up, each width exactly once |
| Breakpoints.InRangeBelowNext | src/flexiSlider.js:310-311 | a width in the range of rule `i` lies between its width and the next rule's width |
| Breakpoints.FirstMatch | src/flexiSlider.js:192-201 | the index found contains the width and no earlier layout does; no index means no layout contains it |
| Breakpoints.FindLayout | src/flexiSlider.js:192-202 | the scan returns the first layout whose range contains the width |
| Breakpoints.AppendKeepsMatch | src/flexiSlider.js:321 | appending layouts never changes a width's existing match |
| Breakpoints.LaterLayoutsNeverApply | src/flexiSlider.js:321 | after an accepted list is resolved, no width ever matches a layout appended later |
| Debounce.Step | src/flexiSlider.js:260-268 | a signal runs exactly when no timer is pending and leaves one pending; an expiry runs nothing and clears it |
| Debounce.BurstRunsOnce | src/flexiSlider.js:260-268 | a burst of signals with no expiry in between runs at most once, and only when no timer was pending |
| Debounce.RunsBoundedByExpiries | src/flexiSlider.js:260-268 | runs never exceed the number of expiries, plus one when no timer was pending at the start |
| Debounce.SignalAfterExpiryRuns | src/flexiSlider.js:265-267 | after an expiry the next signal runs, whatever came before |
| Settings.Merge | src/flexiSlider.js:37 | every option the caller gives (other than `undefined`) wins, and no key outside the two default tiers and the caller's options appears |
| Settings.MergeKeepsDefaults | src/flexiSlider.js:37 | an option the caller leaves out keeps its default, the runtime tier winning over the initial one |
| Settings.SlidesHook | src/flexiSlider.js:271-279 | the stored selector is the one given, or `null` only when none was stored before, the new one is truthy and it finds nothing |
| Settings.Store | src/flexiSlider.js:122-136 | `layout` is never stored, `slides` stores what its hook leaves, every other key stores the value, and no other key changes |
| Settings.WrittenStoresEachKey | src/flexiSlider.js:114-121 | storing distinct keys in turn stores each one (but `layout`) with the object's value and leaves every other key alone |
| Settings.OptionKeyAt | src/flexiSlider.js:409-431 | where `slides`, `slide`, `layout` and `watchElementResize` sit in the order the object form visits the keys |
| Settings.OptionKeysDistinct | src/flexiSlider.js:409-431 | the visited keys are distinct and are exactly the keys of the two default tiers |
| Settings.WrittenOptions | src/flexiSlider.js:114-121 | the store-only walk over the option keys (no tick from `watchElementResize`) stores every default key but `layout`, each plain one with the object's value (`undefined` where it has none), and changes no other key; `SliderState.SetAllSettingsOverOptions` relates it to the object form |
| SliderState.WithLayout | src/flexiSlider.js:280-292 | each of margin, group and scroll that the layout gives a truthy value replaces the current one, a margin by the number and unit `parseCSSValue` gives for it; the others are kept |
| SliderState.Repositioned | src/flexiSlider.js:205-220 | reference definition of `updatePosition` that `Next`, `Prev` and `UpdatePosition` are proved to follow: only the translation changes, only while the container is visible, and then to the `Offset` for the position |
| SliderState.Reflowed | src/flexiSlider.js:170-187 | reference definition of `updateSlides`: nothing without a container width or a group, otherwise a well-formed slide width for the group and margin; group, scroll and margin are kept |
| SliderState.Pick | src/flexiSlider.js:191-199 | a layout is applied only for a visible width, only if its range contains the width and no earlier one does, and only if it differs from the last one applied |
| SliderState.ResizedTo | src/flexiSlider.js:190-204 | reference definition of `updateResize` that `UpdateResize` is proved equal to: the width is stored; without a layout to apply nothing else changes, otherwise the applied index, the stored `slideLayout` and the geometry follow that layout |
| SliderState.ResizeHidden | src/flexiSlider.js:191 | with the container hidden (width 0) a resize stores 0 and changes nothing else |
| SliderState.Ticked | src/flexiSlider.js:240-244 | reference definition of `resizeTick`: afterwards the stored width is the page's, and an unchanged width changes nothing |
| SliderState.SetSlideLayout | src/flexiSlider.js:280-294 | the hook throws exactly for `undefined` and `null` and then changes nothing; otherwise it reflows with the layout's fields and stores the value, touching nothing else |
| SliderState.AfterSet | src/flexiSlider.js:112-137 | the throw cases, the settings after each hook (for `watchElementResize`, the value stored after the tick a changed falsy value runs, which can store `slideLayout`), and which parts of the state each key can change |
| SliderState.AfterSetAll | src/flexiSlider.js:114-121 | reference definition of the object form of `set`, which `SetAll` is proved equal to; its properties are the `SetAll*` lemmas below |
| SliderState.SetAllOnlyAppends | src/flexiSlider.js:321 | the object form only ever appends to the layout list, and leaves it alone when `layout` is not among the keys |
| SliderState.SetAllStep | src/flexiSlider.js:116-119 | the object form is the walk so far followed by `set` of the next key; only `layout` reads the sort order |
| SliderState.SetKeepsConsistent | src/flexiSlider.js:295-325 | every `set` keeps `layout` out of the settings and keeps the applied index inside the growing layout list |
| SliderState.RuntimeOptionsKeepLayoutState | src/flexiSlider.js:24-27 | the keys the option route accepts (those of `RuntimeDefaults`), apart from `watchElementResize`, never change the slide count, the position, the geometry, the width or the applied index |
| SliderState.ResizeAppliesContainingLayout | src/flexiSlider.js:190-204 | a resize to a visible width stores it and applies the first layout containing it, unless it is the one applied last |
| SliderState.ResizeIdempotent | src/flexiSlider.js:190-204 | a second resize or tick to the same width changes nothing |
| SliderState.WatchChange | src/flexiSlider.js:354-366 | a changed truthy `watchElementResize` starts the interval and reads nothing; a falsy one stops it and stores the container width through a tick |
| SliderState.SetAllIgnoresSorted | src/flexiSlider.js:114-121 | without `layout` among the keys, the sort order plays no part |
| SliderState.SetAllStops | src/flexiSlider.js:114-121 | once a key throws, later keys are not set |
| SliderState.SetAllWritesKeys | src/flexiSlider.js:114-121 | without `watchElementResize` among the keys, the object form leaves the settings that storing each key in turn gives |
| SliderState.SetAllSettingsOverOptions | src/flexiSlider.js:114-121 | over all option keys, the object form leaves the settings of the store-only walk on every key but `slideLayout`, which the `watchElementResize` tick can store |
| SliderState.DefaultLayoutKeepsMargin | src/flexiSlider.js:282-292 | the default rule's layout sets one slide and a scroll of one, but its falsy `margin: 0` leaves the current margin and unit |
| Startup.SetAllSplits | src/flexiSlider.js:116-119 | walking `a + b` is walking `a` and then, unless it threw, walking `b` |
| Startup.SetAllThrowsIff | src/flexiSlider.js:116-119 | for layout arrays of rule objects, the walk throws a TypeError exactly when it reaches `layout` or `slideLayout` with `undefined` or `null` |
| Startup.SetAllQuiet | src/flexiSlider.js:116-119 | keys without a layout-related hook never throw and leave the width, layouts, geometry and resize state alone |
| Startup.OptionKeysAroundLayout | src/flexiSlider.js:409-431 | no key before or after `layout` (up to the last) has a layout-related hook |
| Startup.MergedOption | src/flexiSlider.js:37 | after the merge every runtime key holds a value, the caller's unless the caller gave none |
| Startup.ThroughLayout | src/flexiSlider.js:116-119 | for layout arrays of rule objects, a fresh slider's walk through `layout` throws only for an unset layout and otherwise holds the resolved layouts and nothing else of the layout state |
| Startup.BeforeWatch | src/flexiSlider.js:116-119 | the same up to the last key |
| Startup.WalkReadsWidth | src/flexiSlider.js:354-366 | on a fresh slider the last hook always sees a change; a truthy value starts the interval, any other reads the container width |
| Startup.InitializeReadsWidth | src/flexiSlider.js:37-41 | for layout arrays of rule objects, `initialize` on a fresh slider throws a TypeError exactly for `layout: null`, and with `watchElementResize` falsy it reads the container width |
| Startup.DefaultLayoutSorted | src/flexiSlider.js:420-426 | the default layout sorts to itself |
| Startup.WalkAppliesDefault | src/flexiSlider.js:354-366 | with the default layout and `watchElementResize` falsy, a fresh slider in a visible container applies the one default range: one slide, scroll one, no margin, position 0 |
| Startup.InitializeShowsOneSlide | src/flexiSlider.js:78-88 | `initialize` without a layout option, with `watchElementResize` falsy and in a visible container, shows one slide at the full container width with no translation |
| FlexiSlider.Slider.constructor | src/flexiSlider.js:45-69 | a new slider holds the `Vars` defaults and an empty settings object |
| FlexiSlider.Slider.Get | src/flexiSlider.js:144-147 | for names not inherited from `Object.prototype`: the stored value unless it is `undefined` (falsy values included), otherwise the fallback; `layout` always gives the fallback |
| FlexiSlider.Slider.Next | src/flexiSlider.js:148-158 | the position moves on by one or wraps to 0, and the translation follows |
| FlexiSlider.Slider.Prev | src/flexiSlider.js:159-169 | the position moves back by one or wraps to the last start position, and the translation follows |
| FlexiSlider.Slider.UpdatePosition | src/flexiSlider.js:205-235 | the translation for the current position is written only while the container is visible |
| FlexiSlider.Slider.UpdateSlides | src/flexiSlider.js:170-189 | nothing without a container width or a group; otherwise a new slide width and translation |
| FlexiSlider.Slider.OnSetSlide | src/flexiSlider.js:326-333 | the slide count is what the page finds and the position goes back to 0 |
| FlexiSlider.Slider.OnSetSlideLayout | src/flexiSlider.js:280-294 | throws exactly for `undefined` and `null`; otherwise the geometry is the layout's fields reflowed |
| FlexiSlider.Slider.OnSetLayout | src/flexiSlider.js:295-325 | for layout arrays of rule objects, throws exactly for `undefined` and `null`; otherwise the rules are sorted as a permutation and the resolved ranges are appended when the first rule has no width |
| FlexiSlider.Slider.PushLayouts | src/flexiSlider.js:304-323 | the loop appends the resolved ranges of the sorted rules, or nothing when the first has a width |
| FlexiSlider.Slider.Set | src/flexiSlider.js:112-137 | the new state and the throw are those `SliderState.AfterSet` gives, and `layout` leaves a sorted permutation of its rules |
| FlexiSlider.Slider.SetLayout | src/flexiSlider.js:123-131 | `set('layout', v)` follows `AfterSet` |
| FlexiSlider.Slider.SetSlideLayout | src/flexiSlider.js:123-128 | `set('slideLayout', v)` follows `AfterSet` |
| FlexiSlider.Slider.SetWatchElementResize | src/flexiSlider.js:354-366 | `set('watchElementResize', v)` follows `AfterSet` |
| FlexiSlider.Slider.SetOther | src/flexiSlider.js:132-134 | `set` of every other key follows `AfterSet` |
| FlexiSlider.Slider.SetAll | src/flexiSlider.js:114-121 | the object form leaves the state `SliderState.AfterSetAll` gives over all option keys in order |
| FlexiSlider.Slider.Initialize | src/flexiSlider.js:78-88 | the merged options go through the object form; for layout arrays of rule objects, a fresh slider throws exactly for `layout: null`, and it reads the width when `watchElementResize` is falsy |
| FlexiSlider.Slider.Configure | src/flexiSlider.js:24-29 | for names not inherited from `Object.prototype`: a key is accepted exactly when it is in `RuntimeDefaults`, then set as `set` does, `layout` leaving a sorted permutation of its rules; otherwise nothing changes |
| FlexiSlider.Slider.UpdateResize | src/flexiSlider.js:190-204 | the new state is `SliderState.ResizedTo` of the old |
| FlexiSlider.Slider.ResizeTick | src/flexiSlider.js:240-244 | the new state is `SliderState.Ticked` of the old |
| FlexiSlider.Slider.Resize | src/flexiSlider.js:245-253 | runs a tick exactly when the debounce gate is open, and leaves the timer pending |
| FlexiSlider.Slider.ResizeTimerExpires | src/flexiSlider.js:250-252 | the resize timer fires and the gate reopens |
| FlexiSlider.Slider.Click | src/flexiSlider.js:260-268 | runs `next` or `prev` exactly when the debounce gate is open, and leaves the timer pending |
| FlexiSlider.Slider.ClickTimerExpires | src/flexiSlider.js:265-267 | the click timer fires and the gate reopens |

## Left out

- The page: element lookup, the inserted style sheet (`initStyles`), the
  styles written to it, opacity, and the two repaint timeouts of an
  unanimated `updatePosition`. The formulas are kept as `Expr` values, not
  as CSS text, so the `animate` flag of `next`, `prev` and
  `updatePosition` has nothing to act on.
- The hooks of `navigationTemplate` and `scrollTransition`, and the
  navigation click binding. They only touch the page, and their values are
  stored like any other.
- The binding and unbinding of the window resize events, and the interval
  of `watchElementResize`. The interval is the `resizeTimer` flag, and each
  of its ticks is a call of `ResizeTick`.
- The plugin entry (src/flexiSlider.js:9-17, 38-40): one call per element,
  the cloning of `Vars` and the `data` storage. `Configure` models the
  option route, `Get` the one-argument route, and the methods model the
  method route (line 21-22).
- Logging (`log`, `Debug.log`): it has no effect on the state. The
  `debug` option is stored like any other.
- `parseCSSValue`'s `parseFloat`, the unit regex and the `try`/`catch`: a
  margin string is taken as already split into its number and the text
  the regex leaves. Nothing in the modelled values throws.
- Widths are integers and margins are reals. `NaN` margins and
  non-numeric widths are not modelled.
- `NaN` as a value: truthiness treats every number other than 0 as truthy,
  and no modelled value is `NaN` except the upper bound of a range.
- The `Vars.slideLayouts` array is shared by every slider on a page,
  because the clone is shallow. The model gives each slider its own list.
- The `layout` hook sorts the caller's own array in place. The model sorts
  a copy, so the caller does not see the new order.
- Names inherited from `Object.prototype`. The settings object, the hook
  table `onSet` and `RuntimeDefaults` are plain objects, and the model
  treats them as maps without inherited keys. In the program, `__proto__`
  passes the `RuntimeDefaults` test at src/flexiSlider.js:25 and storing it
  replaces the settings object's prototype. `set('hasOwnProperty', v)`
  finds an inherited function as its hook and stores nothing (:123-126),
  and `get('toString', fb)` returns the inherited function. `Store`, `Get`
  and `Configure` describe only names that are not inherited.
- `!==` on objects compares references in JavaScript. The model compares
  the `watchElementResize` values and layouts by value.
- `containerWidth` starts as `null` and is modelled as 0. The only
  difference is at src/flexiSlider.js:241, where `null !== 0` runs
  `updateResize` with a hidden container, which stores 0 and does nothing
  else.
- `resizeTimer` holds both the debounce timeout and the interval id. A
  timeout that expires after the interval started resets it, and the model
  reproduces this. Clearing the actual timers is not modelled.
- Layout arrays with `null` or `undefined` entries. In the program they
  throw a TypeError at `a.width` in the sort comparator
  (src/flexiSlider.js:301), at `ro.width` (:306) or at
  `value.new[r + 1].width` (:311); for example `[null]` or
  `[{}, undefined]`. The model's layout arrays hold rule objects only, so
  its throw conditions cover the other inputs.
- Geometry.OffsetShiftsWholeSlides: gives the empty slide-width formula
  (before any layout was applied, for example while the container was
  hidden at start-up) the value 0. The program then builds
  `calc(( * -1))` for a position other than 0, which the browser
  discards, so the translation is not written at all.
- Geometry.Offset: evaluates a negative position as a shift to the right,
  and a negative margin at position 0 as a shift of half of it to the
  right. In both cases the code builds CSS text with a doubled minus sign
  (`* --1`, `calc(--20px / 2)`). That text is not a valid length, so the
  browser drops the transform. The model does not reproduce that.
- Errors other than the TypeError above: jQuery's error for a malformed
  selector in the `slides`, `slide` and `navigationTemplate` hooks
  (src/flexiSlider.js:273, 327, 342), and `insertRule` in `initStyles`
  (src/flexiSlider.js:101) rejecting a `slides` or `slide` value that does
  not form a valid selector (such as `slides: 5`). The selectors are taken
  to be valid, so `SetAllThrowsIff` and `InitializeReadsWidth` state when
  the TypeError is thrown, not every throw.
- The wiring of `onEvent.resize`: nothing binds it, so its debounce gate
  (`Resize`, `ResizeTimerExpires`) never runs in the program. It is kept
  because it is part of the event hooks and shares `resizeTimer` with the
  interval.
