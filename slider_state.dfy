/** What `set`, `updateResize` and `resizeTick` do to the slider's state,
    as functions of the state before (src/flexiSlider.js:112-137, 170-204,
    240-244, 270-366). The slider class in `FlexiSlider` is proved to follow
    them. */
module SliderState {
  import opened Values
  import opened Geometry
  import opened Breakpoints
  import opened Settings
  import Css

  /** What the page answers during one call: the container's `offsetWidth`,
      whether the `slides` selector finds an element, and how many elements
      the `slide` selector finds. */
  datatype Page = Page(offsetWidth: nat, slidesFound: bool, slideCount: nat)

  /** The fields the `slideLayout` hook and `updateSlides` change, and the
      translation `updatePosition` writes to the slides container. */
  datatype Geo = Geo(group: int, scroll: int, margin: real, unit: string, widthCalc: Expr, transform: Expr)

  /** The field updates of the `slideLayout` hook: each of `margin`, `group`
      and `scroll` that the layout gives a truthy value replaces the current
      one. A value that is not a layout object has none of them. */
  function WithLayout(g: Geo, v: Value): (r: Geo)
    ensures r.widthCalc == g.widthCalc && r.transform == g.transform
    ensures v.Layout? && Present(v.layout.group) ==> r.group == v.layout.group.value
    ensures !(v.Layout? && Present(v.layout.group)) ==> r.group == g.group
    ensures v.Layout? && Present(v.layout.scroll) ==> r.scroll == v.layout.scroll.value
    ensures !(v.Layout? && Present(v.layout.scroll)) ==> r.scroll == g.scroll
    ensures v.Layout? && MarginPresent(v.layout.margin) ==>
      r.margin == Css.ParseCssValue(v.layout.margin.value).value && r.unit == Css.ParseCssValue(v.layout.margin.value).unit
    ensures v.Layout? && MarginPresent(v.layout.margin) ==> r.unit != ""
    ensures !(v.Layout? && MarginPresent(v.layout.margin)) ==> r.margin == g.margin && r.unit == g.unit
  {
    if !v.Layout? then g
    else
      var l := v.layout;
      var g1 := if MarginPresent(l.margin) then var m := Css.ParseCssValue(l.margin.value); g.(margin := m.value, unit := m.unit) else g;
      var g2 := if Present(l.group) then g1.(group := l.group.value) else g1;
      if Present(l.scroll) then g2.(scroll := l.scroll.value) else g2
  }

  /** `updatePosition`: the translation for `pos`, written only while the
      container is visible (has an `offsetWidth`). */
  function Repositioned(g: Geo, pos: int, offsetWidth: nat): (r: Geo)
    ensures r.(transform := g.transform) == g
    ensures offsetWidth == 0 ==> r == g
    ensures offsetWidth != 0 ==> r.transform == Offset(pos, g.widthCalc, g.margin, g.unit)
    ensures offsetWidth != 0 && WellFormed(g.widthCalc) ==> WellFormed(r.transform)
  {
    if offsetWidth != 0 then g.(transform := Offset(pos, g.widthCalc, g.margin, g.unit)) else g
  }

  /** `updateSlides`: nothing without a container width or with a group
      below 1; otherwise a new slide width, then `updatePosition`. */
  function Reflowed(g: Geo, containerWidth: int, pos: int, offsetWidth: nat): (r: Geo)
    ensures r.group == g.group && r.scroll == g.scroll && r.margin == g.margin && r.unit == g.unit
    ensures containerWidth == 0 || g.group < 1 ==> r == g
    ensures containerWidth != 0 && g.group >= 1 ==> r.widthCalc == SlideWidth(g.group, g.margin, g.unit) && WellFormed(r.widthCalc)
    ensures containerWidth != 0 && g.group >= 1 && offsetWidth != 0 ==> WellFormed(r.transform)
  {
    if containerWidth != 0 && g.group >= 1 then
      Repositioned(g.(widthCalc := SlideWidth(g.group, g.margin, g.unit)), pos, offsetWidth)
    else g
  }

  /** The fields of the slider object that `set` and the resize path
      change: the settings object, the `Vars` fields and the pending resize
      timer. `containerWidth` is 0 where the object holds `null`. */
  datatype State = State(
    settings: map<string, Value>,
    containerWidth: int,
    slideCount: int,
    slidePos: int,
    geo: Geo,
    slideLayouts: seq<SlideLayout>,
    slidesLayoutIndex: Option<nat>,
    resizeTimer: bool)

  /** The state after a call of `set`, and whether the call threw. */
  datatype Done = Done(state: State, threw: bool)

  /** `Vars` with an empty settings object: what `initialize` starts from. */
  const Fresh := State(map[], 0, 0, 0, Geo(0, 0, 0.0, "", Empty, Empty), [], None, false)

  /** `layout` is never stored, and the applied layout index points into
      `slideLayouts`. */
  predicate Consistent(s: State)
  {
    && "layout" !in s.settings
    && (s.slidesLayoutIndex.Some? ==> s.slidesLayoutIndex.value < |s.slideLayouts|)
  }

  /** The layout a resize to `width` applies: the first whose range contains
      the width, unless it is the one applied last; none for a width of 0. */
  function Pick(layouts: seq<SlideLayout>, index: Option<nat>, width: int): (r: Option<nat>)
    ensures width <= 0 ==> r.None?
    ensures r.Some? ==> r.value < |layouts| && Contains(layouts[r.value], width) && r != index
    ensures r.Some? ==> forall k :: 0 <= k < r.value ==> !Contains(layouts[k], width)
    ensures r.None? && width > 0 ==>
      index == FirstMatch(layouts, width) || forall k :: 0 <= k < |layouts| ==> !Contains(layouts[k], width)
  {
    if width > 0 && FirstMatch(layouts, width).Some? && FirstMatch(layouts, width) != index then
      FirstMatch(layouts, width)
    else None
  }

  /** `set('slideLayout', v)`: the hook applies the layout and reflows the
      slides, then `v` is stored; reading `margin` of `undefined` or `null`
      throws first. */
  function SetSlideLayout(s: State, v: Value, page: Page): (d: Done)
    ensures d.threw <==> v.Undefined? || v.Null?
    ensures d.threw ==> d.state == s
    ensures !d.threw ==> d.state.settings == s.settings["slideLayout" := v]
    ensures !d.threw ==> d.state.geo == Reflowed(WithLayout(s.geo, v), s.containerWidth, s.slidePos, page.offsetWidth)
    ensures d.state.(settings := s.settings, geo := s.geo) == s
  {
    if v.Undefined? || v.Null? then Done(s, true)
    else
      Done(s.(geo := Reflowed(WithLayout(s.geo, v), s.containerWidth, s.slidePos, page.offsetWidth),
              settings := s.settings["slideLayout" := v]), false)
  }

  /** `updateResize`: the container width is read, and when it is not 0 the
      first layout whose range contains it is applied through `set`, unless
      it is the one applied last. */
  function ResizedTo(s: State, page: Page): (r: State)
    ensures r.containerWidth == page.offsetWidth
    ensures r.slideLayouts == s.slideLayouts && r.resizeTimer == s.resizeTimer
    ensures r.slideCount == s.slideCount && r.slidePos == s.slidePos
    ensures Pick(s.slideLayouts, s.slidesLayoutIndex, page.offsetWidth).None? ==> r == s.(containerWidth := page.offsetWidth)
    ensures var a := Pick(s.slideLayouts, s.slidesLayoutIndex, page.offsetWidth);
      a.Some? ==>
        && r.slidesLayoutIndex == a
        && r.settings == s.settings["slideLayout" := Layout(s.slideLayouts[a.value])]
        && r.geo == Reflowed(WithLayout(s.geo, Layout(s.slideLayouts[a.value])), page.offsetWidth, s.slidePos, page.offsetWidth)
  {
    var s1 := s.(containerWidth := page.offsetWidth);
    var a := Pick(s.slideLayouts, s.slidesLayoutIndex, page.offsetWidth);
    if a.None? then s1
    else SetSlideLayout(s1.(slidesLayoutIndex := a), Layout(s.slideLayouts[a.value]), page).state
  }

  /** `onEvent.resizeTick`: `updateResize` when the width has changed. */
  function Ticked(s: State, page: Page): (r: State)
    ensures r.containerWidth == page.offsetWidth
    ensures page.offsetWidth == s.containerWidth ==> r == s
    ensures r.slideLayouts == s.slideLayouts && r.resizeTimer == s.resizeTimer
  {
    if page.offsetWidth != s.containerWidth then ResizedTo(s, page) else s
  }

  /** `set(name, value)`. `sorted` is the order the `layout` hook's sort
      leaves the rules in; the comparator leaves the order of rules with
      equal widths to the engine. The hooks of `scrollTransition` and
      `navigationTemplate` only touch the page. */
  function AfterSet(s: State, name: string, value: Value, page: Page, sorted: seq<Rule>): (d: Done)
    ensures d.threw <==> (name == "layout" || name == "slideLayout") && (value.Undefined? || value.Null?)
    ensures d.threw ==> d.state == s
    ensures name != "watchElementResize" && !d.threw ==> d.state.settings == Store(s.settings, name, value, page.slidesFound)
    ensures name == "watchElementResize" ==>
      d.state.settings ==
        (if Current(s.settings, name) == value || Truthy(value) then s.settings
         else Ticked(s.(resizeTimer := false), page).settings)[name := value]
    ensures forall k :: k != name && k != "slideLayout" ==>
      (k in d.state.settings <==> k in s.settings) && (k in s.settings ==> d.state.settings[k] == s.settings[k])
    ensures name != "slide" ==> d.state.slideCount == s.slideCount && d.state.slidePos == s.slidePos
    ensures name == "slide" ==> d.state.slideCount == page.slideCount && d.state.slidePos == 0
    ensures name != "layout" ==> d.state.slideLayouts == s.slideLayouts
    ensures name != "slideLayout" && name != "watchElementResize" ==> d.state.geo == s.geo
    ensures name != "watchElementResize" ==>
      d.state.containerWidth == s.containerWidth && d.state.slidesLayoutIndex == s.slidesLayoutIndex
      && d.state.resizeTimer == s.resizeTimer
  {
    if name == "layout" then
      if value.Undefined? || value.Null? then Done(s, true)
      else Done(s.(slideLayouts := s.slideLayouts + if Accepts(sorted) then Resolved(sorted) else []), false)
    else if name == "slideLayout" then
      SetSlideLayout(s, value, page)
    else if name == "watchElementResize" then
      var s1 :=
        if Current(s.settings, name) == value then s
        else if Truthy(value) then s.(resizeTimer := true)
        else Ticked(s.(resizeTimer := false), page);
      Done(s1.(settings := Store(s1.settings, name, value, page.slidesFound)), false)
    else if name == "slide" then
      Done(s.(slideCount := page.slideCount, slidePos := 0, settings := Store(s.settings, name, value, page.slidesFound)), false)
    else
      Done(s.(settings := Store(s.settings, name, value, page.slidesFound)), false)
  }

  /** The object form of `set`: `keys` set in order with the object's value
      for each (`undefined` where it has none); a throw ends the walk. */
  function AfterSetAll(s: State, obj: map<string, Value>, keys: seq<string>, page: Page, sorted: seq<Rule>): Done
    decreases |keys|
  {
    if |keys| == 0 then Done(s, false)
    else
      var d := AfterSetAll(s, obj, keys[..|keys| - 1], page, sorted);
      if d.threw then d
      else AfterSet(d.state, keys[|keys| - 1], OptionValue(obj, keys[|keys| - 1]), page, sorted)
  }

  /** One more key of the object form: the walk so far, then `set` of the
      key. Only the `layout` key reads the sort order. */
  lemma SetAllStep(s: State, obj: map<string, Value>, keys: seq<string>, i: nat, page: Page, sorted: seq<Rule>, t: seq<Rule>)
    requires i < |keys| && (keys[i] == "layout" ==> t == sorted)
    requires !AfterSetAll(s, obj, keys[..i], page, sorted).threw
    ensures AfterSetAll(s, obj, keys[..i + 1], page, sorted) ==
      AfterSet(AfterSetAll(s, obj, keys[..i], page, sorted).state, keys[i], OptionValue(obj, keys[i]), page, t)
  {
    assert keys[..i + 1][..i] == keys[..i];
  }

  /** Every `set` keeps the state consistent: the raw `layout` is never
      stored, and the applied index stays inside the growing layout list. */
  lemma SetKeepsConsistent(s: State, name: string, value: Value, page: Page, sorted: seq<Rule>)
    requires Consistent(s)
    ensures Consistent(AfterSet(s, name, value, page, sorted).state)
  {
    var d := AfterSet(s, name, value, page, sorted);
    if name == "layout" && !d.threw {
      assert d.state.slideLayouts[..|s.slideLayouts|] == s.slideLayouts;
    }
  }

  /** The options the option route accepts once the slider exists (the keys
      of `RuntimeDefaults`) never reach the slide count, the position, the
      geometry or the resize state, except `watchElementResize`, whose hook
      can run a resize tick. */
  lemma RuntimeOptionsKeepLayoutState(s: State, name: string, value: Value, page: Page, sorted: seq<Rule>)
    requires name in RuntimeDefaults() && name != "watchElementResize"
    ensures var d := AfterSet(s, name, value, page, sorted);
      && d.state.slideCount == s.slideCount && d.state.slidePos == s.slidePos
      && d.state.geo == s.geo && d.state.containerWidth == s.containerWidth
      && d.state.slidesLayoutIndex == s.slidesLayoutIndex
  {
  }

  /** A resize to a visible width applies the first layout whose range
      contains the width, and nothing when that layout is the one applied
      last; without a matching layout only the width is stored. */
  lemma ResizeAppliesContainingLayout(s: State, page: Page)
    requires page.offsetWidth > 0
    ensures var r := ResizedTo(s, page);
      var m := FirstMatch(s.slideLayouts, page.offsetWidth);
      && r.containerWidth == page.offsetWidth
      && r.slideLayouts == s.slideLayouts && r.slideCount == s.slideCount && r.slidePos == s.slidePos
      && r.resizeTimer == s.resizeTimer
      && (m.Some? ==> r.slidesLayoutIndex == m)
      && (m.Some? && m != s.slidesLayoutIndex ==>
            && r.settings == s.settings["slideLayout" := Layout(s.slideLayouts[m.value])]
            && r.geo == Reflowed(WithLayout(s.geo, Layout(s.slideLayouts[m.value])), page.offsetWidth, s.slidePos, page.offsetWidth))
      && (m.None? || m == s.slidesLayoutIndex ==>
            r == s.(containerWidth := page.offsetWidth))
  {
  }

  /** A second resize to the same width changes nothing: the width is
      already stored and the layout for it already applied. */
  lemma ResizeIdempotent(s: State, page: Page)
    ensures ResizedTo(ResizedTo(s, page), page) == ResizedTo(s, page)
    ensures Ticked(Ticked(s, page), page) == Ticked(s, page)
  {
    var r := ResizedTo(s, page);
    var a := Pick(s.slideLayouts, s.slidesLayoutIndex, page.offsetWidth);
    if a.Some? {
      assert r.slidesLayoutIndex == a == FirstMatch(r.slideLayouts, page.offsetWidth);
    }
    assert Pick(r.slideLayouts, r.slidesLayoutIndex, page.offsetWidth).None?;
  }

  /** The object form only ever appends to `slideLayouts`, and leaves it
      alone when `layout` is not among the keys. */
  lemma {:induction false} SetAllOnlyAppends(s: State, obj: map<string, Value>, keys: seq<string>, page: Page, sorted: seq<Rule>)
    ensures s.slideLayouts <= AfterSetAll(s, obj, keys, page, sorted).state.slideLayouts
    ensures "layout" !in keys ==> AfterSetAll(s, obj, keys, page, sorted).state.slideLayouts == s.slideLayouts
    decreases |keys|
  {
    if |keys| > 0 {
      SetAllOnlyAppends(s, obj, keys[..|keys| - 1], page, sorted);
    }
  }

  /** A resize while the container is hidden (no `offsetWidth`) stores the
      width 0 and changes nothing else. */
  lemma ResizeHidden(s: State, page: Page)
    requires page.offsetWidth == 0
    ensures ResizedTo(s, page) == s.(containerWidth := 0)
  {
  }

  /** A changed `watchElementResize`: a truthy value starts the interval and
      reads nothing, a falsy one stops it and runs a resize tick, which
      stores the container width. */
  lemma WatchChange(s: State, value: Value, page: Page, sorted: seq<Rule>)
    requires Current(s.settings, "watchElementResize") != value
    ensures var d := AfterSet(s, "watchElementResize", value, page, sorted);
      && !d.threw && (d.state.resizeTimer <==> Truthy(value))
      && d.state.slideLayouts == s.slideLayouts
      && (Truthy(value) ==> d.state.containerWidth == s.containerWidth && d.state.slidesLayoutIndex == s.slidesLayoutIndex)
      && (!Truthy(value) ==> d.state.containerWidth == page.offsetWidth)
  {
  }

  /** Rules sorted differently only matter once the `layout` key is set. */
  lemma {:induction false} SetAllIgnoresSorted(s: State, obj: map<string, Value>, keys: seq<string>, page: Page, x: seq<Rule>, y: seq<Rule>)
    requires "layout" !in keys
    ensures AfterSetAll(s, obj, keys, page, x) == AfterSetAll(s, obj, keys, page, y)
    decreases |keys|
  {
    if |keys| > 0 {
      SetAllIgnoresSorted(s, obj, keys[..|keys| - 1], page, x, y);
    }
  }

  /** Once a key throws, the keys after it are not set. */
  lemma {:induction false} SetAllStops(s: State, obj: map<string, Value>, keys: seq<string>, n: nat, page: Page, sorted: seq<Rule>)
    requires n <= |keys| && AfterSetAll(s, obj, keys[..n], page, sorted).threw
    ensures AfterSetAll(s, obj, keys, page, sorted) == AfterSetAll(s, obj, keys[..n], page, sorted)
    decreases |keys|
  {
    if n < |keys| {
      assert keys[..|keys| - 1][..n] == keys[..n];
      SetAllStops(s, obj, keys[..|keys| - 1], n, page, sorted);
    } else {
      assert keys[..n] == keys;
    }
  }

  /** Without `watchElementResize` among the keys, the object form leaves
      the settings that storing each key in turn gives. */
  lemma {:induction false} SetAllWritesKeys(s: State, obj: map<string, Value>, keys: seq<string>, page: Page, sorted: seq<Rule>)
    requires "watchElementResize" !in keys
    ensures var d := AfterSetAll(s, obj, keys, page, sorted);
      !d.threw ==> d.state.settings == Written(s.settings, obj, keys, page.slidesFound)
    decreases |keys|
  {
    if |keys| > 0 {
      SetAllWritesKeys(s, obj, keys[..|keys| - 1], page, sorted);
    }
  }

  /** Over all option keys the object form leaves the settings that storing
      each key in turn gives, on every key but `slideLayout`: the last key,
      `watchElementResize`, can run a resize tick, and `updateResize` stores
      the layout it applies under `slideLayout`. */
  lemma SetAllSettingsOverOptions(s: State, obj: map<string, Value>, page: Page, sorted: seq<Rule>)
    ensures var d := AfterSetAll(s, obj, OptionKeys, page, sorted);
      var w := Written(s.settings, obj, OptionKeys, page.slidesFound);
      !d.threw ==> forall k :: k != "slideLayout" ==>
        (k in d.state.settings <==> k in w) && (k in w ==> d.state.settings[k] == w[k])
  {
    var front := OptionKeys[..10];
    assert OptionKeys[..11] == OptionKeys && OptionKeys[10] == "watchElementResize";
    assert "watchElementResize" !in front by {
      forall i | 0 <= i < 10 ensures front[i] != "watchElementResize" {
        OptionKeyAt(i);
      }
    }
    SetAllWritesKeys(s, obj, front, page, sorted);
    if !AfterSetAll(s, obj, front, page, sorted).threw {
      SetAllStep(s, obj, OptionKeys, 10, page, sorted, sorted);
    }
  }

  /** The default rule's layout sets one slide and a scroll of one, but its
      `margin: 0` is falsy, so the margin of an earlier, wider layout stays. */
  lemma DefaultLayoutKeepsMargin(g: Geo)
    ensures var r := WithLayout(g, Layout(Resolved(DefaultLayout)[0]));
      r.group == 1 && r.scroll == 1 && r.margin == g.margin && r.unit == g.unit
  {
  }
}
