/** What `initialize` leaves behind: the merged options walked through the
    object form of `set` (src/flexiSlider.js:37, 78-88, 112-121), taken
    apart key by key. */
module Startup {
  import opened Values
  import opened Geometry
  import opened Breakpoints
  import opened Settings
  import opened SliderState

  /** `undefined` or `null`: the values whose property reads throw. */
  predicate Unset(v: Value)
  {
    v.Undefined? || v.Null?
  }

  /** The walk over `a + b` is the walk over `a`, then, unless it threw, the
      walk over `b` from where it stopped. */
  lemma {:induction false} SetAllSplits(s: State, obj: map<string, Value>, a: seq<string>, b: seq<string>, page: Page, sorted: seq<Rule>)
    ensures AfterSetAll(s, obj, a + b, page, sorted) ==
      var d := AfterSetAll(s, obj, a, page, sorted);
      if d.threw then d else AfterSetAll(d.state, obj, b, page, sorted)
    decreases |b|
  {
    if |b| == 0 {
      assert a + b == a;
    } else {
      assert (a + b)[..|a + b| - 1] == a + b[..|b| - 1];
      SetAllSplits(s, obj, a, b[..|b| - 1], page, sorted);
    }
  }

  /** The walk throws a TypeError exactly when it reaches `layout` or
      `slideLayout` with `undefined` or `null`. (jQuery's errors for a
      malformed selector are not part of this model.) */
  lemma {:induction false} SetAllThrowsIff(s: State, obj: map<string, Value>, keys: seq<string>, page: Page, sorted: seq<Rule>)
    ensures AfterSetAll(s, obj, keys, page, sorted).threw <==>
      ("layout" in keys && Unset(OptionValue(obj, "layout")))
      || ("slideLayout" in keys && Unset(OptionValue(obj, "slideLayout")))
    decreases |keys|
  {
    if |keys| > 0 {
      var front := keys[..|keys| - 1];
      SetAllThrowsIff(s, obj, front, page, sorted);
      assert forall k :: k in keys <==> k in front || k == keys[|keys| - 1];
    }
  }

  /** Keys without a hook that reaches the layout state (neither `layout`,
      `slideLayout` nor `watchElementResize`) never throw and leave the
      width, the layouts, the geometry and the resize state alone. */
  lemma {:induction false} SetAllQuiet(s: State, obj: map<string, Value>, keys: seq<string>, page: Page, sorted: seq<Rule>)
    requires "layout" !in keys && "slideLayout" !in keys && "watchElementResize" !in keys
    ensures var d := AfterSetAll(s, obj, keys, page, sorted);
      && !d.threw
      && d.state.containerWidth == s.containerWidth && d.state.slidesLayoutIndex == s.slidesLayoutIndex
      && d.state.resizeTimer == s.resizeTimer && d.state.geo == s.geo && d.state.slideLayouts == s.slideLayouts
      && (d.state.slidePos == s.slidePos || d.state.slidePos == 0)
      && Current(d.state.settings, "watchElementResize") == Current(s.settings, "watchElementResize")
    decreases |keys|
  {
    if |keys| > 0 {
      SetAllQuiet(s, obj, keys[..|keys| - 1], page, sorted);
    }
  }

  /** The option keys before and after the `layout` key: none of them has a
      hook that reaches the layout state. */
  lemma OptionKeysAroundLayout()
    ensures OptionKeys[6] == "layout" && OptionKeys[..10] == OptionKeys[..7] + OptionKeys[7..10]
    ensures "layout" !in OptionKeys[..6] && "slideLayout" !in OptionKeys[..6] && "watchElementResize" !in OptionKeys[..6]
    ensures "layout" !in OptionKeys[7..10] && "slideLayout" !in OptionKeys[7..10] && "watchElementResize" !in OptionKeys[7..10]
  {
    forall i | 0 <= i < 10 ensures OptionKeys[i] == "layout" <==> i == 6 {
      OptionKeyAt(i);
    }
    forall i | 0 <= i < 10 ensures OptionKeys[i] != "watchElementResize" && OptionKeys[i] != "slideLayout" {
      OptionKeyAt(i);
    }
  }

  /** The merged options hold a value for every option key, never
      `undefined`; `layout` is the caller's unless the caller left it out. */
  lemma MergedOption(options: map<string, Value>, k: string)
    requires k in RuntimeDefaults()
    ensures OptionValue(Merge(options), k) != Undefined
    ensures OptionValue(Merge(options), k) ==
      if OptionValue(options, k) != Undefined then options[k] else RuntimeDefaults()[k]
  {
    if OptionValue(options, k) == Undefined {
      MergeKeepsDefaults(options, k);
    }
  }

  /** The walk of a fresh slider through the `layout` key: no throw unless
      `layout` is `undefined` or `null`, and the layouts the hook resolved. */
  lemma ThroughLayout(obj: map<string, Value>, page: Page, sorted: seq<Rule>)
    ensures var d := AfterSetAll(Fresh, obj, OptionKeys[..7], page, sorted);
      && (d.threw <==> Unset(OptionValue(obj, "layout")))
      && (!d.threw ==>
            && d.state.containerWidth == 0 && d.state.slidesLayoutIndex == None && !d.state.resizeTimer
            && d.state.geo == Fresh.geo && d.state.slidePos == 0
            && d.state.slideLayouts == (if Accepts(sorted) then Resolved(sorted) else [])
            && Current(d.state.settings, "watchElementResize") == Undefined)
  {
    OptionKeysAroundLayout();
    SetAllQuiet(Fresh, obj, OptionKeys[..6], page, sorted);
    SetAllStep(Fresh, obj, OptionKeys, 6, page, sorted, sorted);
  }

  /** The walk up to the last key: the keys after `layout` change nothing of
      the layout state. */
  lemma BeforeWatch(obj: map<string, Value>, page: Page, sorted: seq<Rule>)
    ensures var d := AfterSetAll(Fresh, obj, OptionKeys[..10], page, sorted);
      && (d.threw <==> Unset(OptionValue(obj, "layout")))
      && (!d.threw ==>
            && d.state.containerWidth == 0 && d.state.slidesLayoutIndex == None && !d.state.resizeTimer
            && d.state.geo == Fresh.geo && d.state.slidePos == 0
            && d.state.slideLayouts == (if Accepts(sorted) then Resolved(sorted) else [])
            && Current(d.state.settings, "watchElementResize") == Undefined)
  {
    OptionKeysAroundLayout();
    ThroughLayout(obj, page, sorted);
    var d7 := AfterSetAll(Fresh, obj, OptionKeys[..7], page, sorted);
    SetAllSplits(Fresh, obj, OptionKeys[..7], OptionKeys[7..10], page, sorted);
    if !d7.threw {
      SetAllQuiet(d7.state, obj, OptionKeys[7..10], page, sorted);
    }
  }

  /** The whole walk of a fresh slider: the last hook, `watchElementResize`,
      always sees a change from `undefined`, so a truthy value starts the
      width-watching interval and reads no width, and any other value runs
      a resize tick, which stores the container width. */
  lemma WalkReadsWidth(obj: map<string, Value>, page: Page, sorted: seq<Rule>)
    requires OptionValue(obj, "watchElementResize") != Undefined
    ensures var d := AfterSetAll(Fresh, obj, OptionKeys, page, sorted);
      var watch := OptionValue(obj, "watchElementResize");
      && (d.threw <==> Unset(OptionValue(obj, "layout")))
      && (!d.threw ==> (d.state.resizeTimer <==> Truthy(watch)))
      && (!d.threw ==> d.state.slideLayouts == (if Accepts(sorted) then Resolved(sorted) else []))
      && (!d.threw && Truthy(watch) ==> d.state.containerWidth == 0 && d.state.slidesLayoutIndex == None)
      && (!d.threw && !Truthy(watch) ==> d.state.containerWidth == page.offsetWidth)
  {
    BeforeWatch(obj, page, sorted);
    var d10 := AfterSetAll(Fresh, obj, OptionKeys[..10], page, sorted);
    assert OptionKeys[..11] == OptionKeys && OptionKeys[10] == "watchElementResize";
    if !d10.threw {
      SetAllStep(Fresh, obj, OptionKeys, 10, page, sorted, sorted);
      WatchChange(d10.state, OptionValue(obj, "watchElementResize"), page, sorted);
    }
  }

  /** `initialize` on a fresh slider throws a TypeError only when the caller
      passes `layout: null` (a left-out or `undefined` layout falls back to
      the default); selector errors are not modelled. Otherwise the resize state follows `watchElementResize`,
      and with it falsy (the default) the container width is read. */
  lemma InitializeReadsWidth(options: map<string, Value>, page: Page, sorted: seq<Rule>)
    ensures var d := AfterSetAll(Fresh, Merge(options), OptionKeys, page, sorted);
      var watch := OptionValue(Merge(options), "watchElementResize");
      && (d.threw <==> OptionValue(options, "layout") == Null)
      && (!d.threw ==> (d.state.resizeTimer <==> Truthy(watch)))
      && (!d.threw && !Truthy(watch) ==> d.state.containerWidth == page.offsetWidth)
  {
    MergedOption(options, "watchElementResize");
    MergedOption(options, "layout");
    WalkReadsWidth(Merge(options), page, sorted);
  }

  /** The default layout sorts to itself. */
  lemma DefaultLayoutSorted(sorted: seq<Rule>)
    requires SortOf(Rules(DefaultLayout), sorted)
    ensures sorted == DefaultLayout
  {
    assert |multiset(sorted)| == 1;
    assert sorted[0] in multiset(sorted);
  }

  /** With the default layout and a falsy `watchElementResize`, the walk of
      a fresh slider in a visible container applies the one default range:
      one slide at a time, scrolling by one, no margin, at position 0. */
  lemma WalkAppliesDefault(obj: map<string, Value>, page: Page, sorted: seq<Rule>)
    requires OptionValue(obj, "layout") == Rules(DefaultLayout) && SortOf(Rules(DefaultLayout), sorted)
    requires OptionValue(obj, "watchElementResize") != Undefined && !Truthy(OptionValue(obj, "watchElementResize"))
    requires page.offsetWidth > 0
    ensures var d := AfterSetAll(Fresh, obj, OptionKeys, page, sorted);
      var width := SlideWidth(1, 0.0, "");
      && !d.threw && d.state.containerWidth == page.offsetWidth
      && d.state.slideLayouts == Resolved(DefaultLayout) && d.state.slidesLayoutIndex == Some(0)
      && d.state.geo == Geo(1, 1, 0.0, "", width, Offset(0, width, 0.0, ""))
  {
    DefaultLayoutSorted(sorted);
    BeforeWatch(obj, page, sorted);
    var d10 := AfterSetAll(Fresh, obj, OptionKeys[..10], page, sorted);
    assert OptionKeys[..11] == OptionKeys && OptionKeys[10] == "watchElementResize";
    SetAllStep(Fresh, obj, OptionKeys, 10, page, sorted, sorted);
    var s := d10.state.(resizeTimer := false);
    assert FirstMatch(s.slideLayouts, page.offsetWidth) == Some(0);
    ResizeAppliesContainingLayout(s, page);
  }

  /** `initialize` without a `layout` option, in a visible container and
      with `watchElementResize` left falsy, shows one slide at a time at the
      full container width. */
  lemma InitializeShowsOneSlide(options: map<string, Value>, page: Page, sorted: seq<Rule>, c: real, px: real)
    requires OptionValue(options, "layout") == Undefined
    requires !Truthy(OptionValue(Merge(options), "watchElementResize"))
    requires SortOf(OptionValue(Merge(options), "layout"), sorted)
    requires page.offsetWidth > 0
    ensures var d := AfterSetAll(Fresh, Merge(options), OptionKeys, page, sorted);
      && !d.threw && d.state.containerWidth == page.offsetWidth
      && d.state.slideLayouts == Resolved(DefaultLayout) && d.state.slidesLayoutIndex == Some(0)
      && d.state.geo.group == 1 && d.state.geo.scroll == 1
      && Eval(d.state.geo.widthCalc, c, px) == c && Eval(d.state.geo.transform, c, px) == 0.0
  {
    MergedOption(options, "watchElementResize");
    MergedOption(options, "layout");
    WalkAppliesDefault(Merge(options), page, sorted);
    SlideWidthFillsContainer(1, 0.0, "", c, px);
  }
}
