/** The slider object: the `Vars` fields the core updates in place, the
    `Interface` operations `initialize`, `set`, `get`, `next`, `prev`,
    `updateSlides`, `updateResize` and `updatePosition`, the `onSet` hooks
    with logic in them and the `onEvent` debounce gates
    (src/flexiSlider.js:18-42, 45-368). Every operation that goes through
    `set` is proved to leave the state the functions of `SliderState` give. */
module FlexiSlider {
  import opened Values
  import opened Geometry
  import opened Position
  import opened Breakpoints
  import opened Settings
  import opened SliderState
  import Startup
  import Css
  import Debounce

  /** The two actions the navigation passes to the click gate. */
  datatype NavAction = GoPrev | GoNext

  class Slider {
    /** The `flexi.settings` object stored on the container. */
    var settings: map<string, Value>
    /** The last `offsetWidth` read by `updateResize`; `null` at first, which
        every use treats like 0. */
    var containerWidth: int
    var slideCount: int
    var slidePos: int
    var slideScroll: int
    var slideGroup: int
    var slideMargin: real
    var slideMarginUnit: string
    var slideWidthCalc: Expr
    /** The translation last written to the slides container. */
    var slidesTransform: Expr
    var slideLayouts: seq<SlideLayout>
    /** Declared with this name and -1, but never read or written. */
    var slideLayoutsIndex: int
    /** The index `updateResize` reads and writes, spelled differently from
        the declared field; it starts `undefined`. */
    var slidesLayoutIndex: Option<nat>
    /** Whether a click debounce timer is pending. */
    var clickTimer: bool
    /** Whether a resize debounce timer or the width-watching interval is
        pending. */
    var resizeTimer: bool

    function CurrentGeo(): Geo
      reads this
    {
      Geo(slideGroup, slideScroll, slideMargin, slideMarginUnit, slideWidthCalc, slidesTransform)
    }

    /** The fields `set` and the resize path change, as one value. */
    function Snapshot(): State
      reads this
    {
      State(settings, containerWidth, slideCount, slidePos, CurrentGeo(), slideLayouts, slidesLayoutIndex, resizeTimer)
    }

    ghost predicate Valid()
      reads this
    {
      Consistent(Snapshot()) && slideLayoutsIndex == -1
    }

    /** A slider as cloned from `Vars`, with the empty settings object that
        `initialize` starts from. */
    constructor ()
      ensures Valid()
      ensures Snapshot() == Fresh && !clickTimer
    {
      settings := map[];
      containerWidth := 0;
      slideCount := 0;
      slidePos := 0;
      slideScroll := 0;
      slideGroup := 0;
      slideMargin := 0.0;
      slideMarginUnit := "";
      slideWidthCalc := Empty;
      slidesTransform := Empty;
      slideLayouts := [];
      slideLayoutsIndex := -1;
      slidesLayoutIndex := None;
      clickTimer := false;
      resizeTimer := false;
    }

    /** `get`: the stored value unless it is `undefined`; falsy values such
        as 0, `false` and "" are returned as they are. */
    function Get(name: string, fallback: Value): (r: Value)
      reads this
      ensures r == fallback || (name in settings && r == settings[name] && r != Undefined)
      ensures name in settings && settings[name] != Undefined ==> r == settings[name]
      ensures Valid() && name == "layout" ==> r == fallback
    {
      if name in settings && settings[name] != Undefined then settings[name] else fallback
    }

    /** `next`: one position on, or back to 0 from the last start position. */
    method Next(page: Page)
      modifies this`slidePos, this`slidesTransform
      ensures old(slidePos) < slideCount - slideGroup ==> slidePos == old(slidePos) + 1
      ensures old(slidePos) >= slideCount - slideGroup ==> slidePos == 0
      ensures slidePos == NextPos(old(slidePos), slideCount, slideGroup)
      ensures CurrentGeo() == Repositioned(old(CurrentGeo()), slidePos, page.offsetWidth)
    {
      if slidePos < slideCount - slideGroup {
        slidePos := slidePos + 1;
      } else {
        slidePos := 0;
      }
      UpdatePosition(page);
    }

    /** `prev`: one position back, or from 0 to the last start position. */
    method Prev(page: Page)
      modifies this`slidePos, this`slidesTransform
      ensures old(slidePos) > 0 ==> slidePos == old(slidePos) - 1
      ensures old(slidePos) <= 0 ==> slidePos == slideCount - slideGroup
      ensures slidePos == PrevPos(old(slidePos), slideCount, slideGroup)
      ensures CurrentGeo() == Repositioned(old(CurrentGeo()), slidePos, page.offsetWidth)
    {
      if slidePos > 0 {
        slidePos := slidePos - 1;
      } else {
        slidePos := slideCount - slideGroup;
      }
      UpdatePosition(page);
    }

    method UpdatePosition(page: Page)
      modifies this`slidesTransform
      ensures CurrentGeo() == Repositioned(old(CurrentGeo()), slidePos, page.offsetWidth)
    {
      if page.offsetWidth == 0 {
        return;
      }
      slidesTransform := Offset(slidePos, slideWidthCalc, slideMargin, slideMarginUnit);
    }

    method UpdateSlides(page: Page)
      modifies this`slideWidthCalc, this`slidesTransform
      ensures CurrentGeo() == Reflowed(old(CurrentGeo()), containerWidth, slidePos, page.offsetWidth)
    {
      if containerWidth == 0 || slideGroup < 1 {
        return;
      }
      slideWidthCalc := SlideWidth(slideGroup, slideMargin, slideMarginUnit);
      UpdatePosition(page);
    }

    /** The `slide` hook: counts the slides found and goes back to position 0. */
    method OnSetSlide(page: Page)
      modifies this`slideCount, this`slidePos
      ensures slideCount == page.slideCount && slidePos == 0
    {
      slideCount := page.slideCount;
      slidePos := 0;
    }

    /** The `slideLayout` hook. Reading `layout.margin` of `undefined` or
        `null` throws. */
    method OnSetSlideLayout(value: Value, page: Page) returns (threw: bool)
      modifies this`slideGroup, this`slideScroll, this`slideMargin, this`slideMarginUnit, this`slideWidthCalc, this`slidesTransform
      ensures threw <==> value.Undefined? || value.Null?
      ensures threw ==> CurrentGeo() == old(CurrentGeo())
      ensures !threw ==> CurrentGeo() == Reflowed(WithLayout(old(CurrentGeo()), value), containerWidth, slidePos, page.offsetWidth)
    {
      if value.Undefined? || value.Null? {
        return true;
      }
      if value.Layout? {
        var layout := value.layout;
        if MarginPresent(layout.margin) {
          var margin := Css.ParseCssValue(layout.margin.value);
          slideMargin := margin.value;
          slideMarginUnit := margin.unit;
        }
        if Present(layout.group) {
          slideGroup := layout.group.value;
        }
        if Present(layout.scroll) {
          slideScroll := layout.scroll.value;
        }
      }
      UpdateSlides(page);
      threw := false;
    }

    /** The `layout` hook: sorts the rules in place, fails unless the first
        has no width, and otherwise pushes one resolved layout per rule onto
        `slideLayouts`, which is never cleared. It always answers `false`, so
        `layout` itself is never stored. */
    method OnSetLayout(value: Value) returns (threw: bool, ghost sorted: seq<Rule>)
      modifies this`slideLayouts
      ensures threw <==> value.Undefined? || value.Null?
      ensures threw ==> slideLayouts == old(slideLayouts)
      ensures !threw ==> SortOf(value, sorted)
      ensures !threw ==> slideLayouts == old(slideLayouts) + if Accepts(sorted) then Resolved(sorted) else []
    {
      var input := LayoutInput(value);
      if input.None? {
        return true, [];
      }
      var rules := input.value;
      var a := new Rule[|rules|](i requires 0 <= i < |rules| => rules[i]);
      assert a[..] == rules;
      SortRules(a);
      sorted := a[..];
      threw := false;
      PushLayouts(a);
    }

    /** The loop of the `layout` hook over the sorted rules: it stops at a
        first rule with a width, and otherwise pushes the range of each rule
        with the properties of the default rule copied. */
    method PushLayouts(a: array<Rule>)
      modifies this`slideLayouts
      ensures slideLayouts == old(slideLayouts) + if Accepts(a[..]) then Resolved(a[..]) else []
    {
      ghost var resolved := Resolved(a[..]);
      var r := 0;
      while r < a.Length
        invariant 0 <= r <= a.Length
        invariant r > 0 ==> Accepts(a[..])
        invariant slideLayouts == old(slideLayouts) + resolved[..r]
      {
        var ro := a[r];
        if r == 0 && Present(ro.width) {
          return;
        }
        var fromPx := if Present(ro.width) then ro.width.value else 0;
        var toPx :=
          if r < a.Length - 1 then
            match a[r + 1].width
            case None => NaN
            case Some(w) => Finite(w - 1)
          else PosInfinity;
        assert toPx == ToPx(a[..], r);
        assert resolved[..r + 1] == resolved[..r] + [SlideLayout(fromPx, toPx, ro.group, ro.scroll, ro.margin)];
        slideLayouts := slideLayouts + [SlideLayout(fromPx, toPx, ro.group, ro.scroll, ro.margin)];
        r := r + 1;
      }
      assert resolved[..r] == resolved;
    }

    /** `set(name, value)`: runs the hook of `name`, if it has one, and
        stores `value.new` unless the hook returned `false`. */
    method Set(name: string, value: Value, page: Page) returns (threw: bool, ghost sorted: seq<Rule>)
      requires Valid()
      modifies this`settings, this`slideCount, this`slidePos, this`slideGroup, this`slideScroll, this`slideMargin,
        this`slideMarginUnit, this`slideWidthCalc, this`slidesTransform, this`slideLayouts, this`containerWidth,
        this`slidesLayoutIndex, this`resizeTimer
      decreases if name == "watchElementResize" then 4 else 0
      ensures Valid()
      ensures Done(Snapshot(), threw) == AfterSet(old(Snapshot()), name, value, page, sorted)
      ensures name == "layout" && !threw ==> SortOf(value, sorted)
    {
      ghost var before := Snapshot();
      threw, sorted := false, [];
      if name == "layout" {
        threw, sorted := SetLayout(value, page);
      } else if name == "slideLayout" {
        threw := SetSlideLayout(value, page);
      } else if name == "watchElementResize" {
        SetWatchElementResize(value, page);
      } else {
        SetOther(name, value, page);
      }
      SetKeepsConsistent(before, name, value, page, sorted);
    }

    /** `set` of `layout`: the hook resolves the rules and answers `false`,
        so nothing is stored. */
    method SetLayout(value: Value, page: Page) returns (threw: bool, ghost sorted: seq<Rule>)
      modifies this`slideLayouts
      ensures Done(Snapshot(), threw) == AfterSet(old(Snapshot()), "layout", value, page, sorted)
      ensures !threw ==> SortOf(value, sorted)
    {
      threw, sorted := OnSetLayout(value);
    }

    /** `set` of `slideLayout`: the hook applies the layout, then the value
        is stored unless the hook threw. */
    method SetSlideLayout(value: Value, page: Page) returns (threw: bool)
      modifies this`settings, this`slideGroup, this`slideScroll, this`slideMargin, this`slideMarginUnit,
        this`slideWidthCalc, this`slidesTransform
      ensures Done(Snapshot(), threw) == AfterSet(old(Snapshot()), "slideLayout", value, page, [])
    {
      threw := OnSetSlideLayout(value, page);
      if !threw {
        settings := settings["slideLayout" := value];
      }
    }

    /** `set` of `watchElementResize`: when the value changes, a truthy one
        starts the width-watching interval; a falsy one stops it and runs a
        resize tick. The value is stored either way. */
    method SetWatchElementResize(value: Value, page: Page)
      requires Valid()
      modifies this`settings, this`slideCount, this`slidePos, this`slideGroup, this`slideScroll, this`slideMargin,
        this`slideMarginUnit, this`slideWidthCalc, this`slidesTransform, this`slideLayouts, this`containerWidth,
        this`slidesLayoutIndex, this`resizeTimer
      decreases 3
      ensures Valid()
      ensures Done(Snapshot(), false) == AfterSet(old(Snapshot()), "watchElementResize", value, page, [])
    {
      if Current(settings, "watchElementResize") != value {
        if Truthy(value) {
          resizeTimer := true;
        } else {
          resizeTimer := false;
          ResizeTick(page);
        }
      }
      settings := settings["watchElementResize" := value];
    }

    /** `set` of any other key. The hooks of `slides` and `slide` are
        modelled; those of `scrollTransition` and `navigationTemplate` only
        touch the page. */
    method SetOther(name: string, value: Value, page: Page)
      requires name != "layout" && name != "slideLayout" && name != "watchElementResize"
      modifies this`settings, this`slideCount, this`slidePos
      ensures Done(Snapshot(), false) == AfterSet(old(Snapshot()), name, value, page, [])
    {
      var newValue := value;
      if name == "slides" {
        newValue := SlidesHook(Current(settings, name), value, page.slidesFound);
      } else if name == "slide" {
        OnSetSlide(page);
      }
      settings := settings[name := newValue];
    }

    /** The object form of `set`: every option key in declaration order, with
        the object's value for it (`undefined` where it has none); a throw
        stops the walk. */
    method SetAll(obj: map<string, Value>, page: Page) returns (threw: bool, ghost sorted: seq<Rule>)
      requires Valid()
      modifies this`settings, this`slideCount, this`slidePos, this`slideGroup, this`slideScroll, this`slideMargin,
        this`slideMarginUnit, this`slideWidthCalc, this`slidesTransform, this`slideLayouts, this`containerWidth,
        this`slidesLayoutIndex, this`resizeTimer
      ensures Valid()
      ensures Done(Snapshot(), threw) == AfterSetAll(old(Snapshot()), obj, OptionKeys, page, sorted)
      ensures !threw ==>
        SortOf(OptionValue(obj, "layout"), sorted)
    {
      threw, sorted := false, [];
      ghost var start := Snapshot();
      var i := 0;
      while i < |OptionKeys|
        invariant 0 <= i <= |OptionKeys|
        invariant Valid()
        invariant Done(Snapshot(), false) == AfterSetAll(start, obj, OptionKeys[..i], page, sorted)
        invariant i > 6 ==> SortOf(OptionValue(obj, "layout"), sorted)
      {
        var key := OptionKeys[i];
        assert key == "layout" <==> i == 6 by {
          OptionKeyAt(i);
        }
        ghost var prior := sorted;
        var t;
        ghost var s;
        t, s := Set(key, OptionValue(obj, key), page);
        if i == 6 {
          sorted := s;
          SetAllIgnoresSorted(start, obj, OptionKeys[..i], page, prior, sorted);
        }
        SetAllStep(start, obj, OptionKeys, i, page, sorted, s);
        if t {
          SetAllStops(start, obj, OptionKeys, i + 1, page, sorted);
          return t, sorted;
        }
        i := i + 1;
      }
      assert OptionKeys[..i] == OptionKeys;
    }

    /** `initialize`: the options merged over both default tiers (an absent
        options object counts as empty), stored through the object form of
        `set`. */
    method Initialize(options: map<string, Value>, page: Page) returns (threw: bool, ghost sorted: seq<Rule>)
      requires Valid()
      modifies this`settings, this`slideCount, this`slidePos, this`slideGroup, this`slideScroll, this`slideMargin,
        this`slideMarginUnit, this`slideWidthCalc, this`slidesTransform, this`slideLayouts, this`containerWidth,
        this`slidesLayoutIndex, this`resizeTimer
      ensures Valid()
      ensures Done(Snapshot(), threw) == AfterSetAll(old(Snapshot()), Merge(options), OptionKeys, page, sorted)
      ensures !threw ==>
        SortOf(OptionValue(Merge(options), "layout"), sorted)
      ensures old(Snapshot()) == Fresh ==> (threw <==> OptionValue(options, "layout") == Null)
      ensures old(Snapshot()) == Fresh && !threw && !Truthy(OptionValue(Merge(options), "watchElementResize")) ==>
        containerWidth == page.offsetWidth
    {
      threw, sorted := SetAll(Merge(options), page);
      Startup.InitializeReadsWidth(options, page, sorted);
    }

    /** An option set from outside the slider (`$(..).flexiSlider(name,
        value)`): only keys of `RuntimeDefaults` are accepted; any other is
        refused and nothing changes. */
    method Configure(name: string, value: Value, page: Page) returns (accepted: bool, threw: bool, ghost sorted: seq<Rule>)
      requires Valid()
      modifies this`settings, this`slideCount, this`slidePos, this`slideGroup, this`slideScroll, this`slideMargin,
        this`slideMarginUnit, this`slideWidthCalc, this`slidesTransform, this`slideLayouts, this`containerWidth,
        this`slidesLayoutIndex, this`resizeTimer
      ensures Valid()
      ensures accepted <==> name in RuntimeDefaults()
      ensures accepted ==> Done(Snapshot(), threw) == AfterSet(old(Snapshot()), name, value, page, sorted)
      ensures accepted && name == "layout" && !threw ==> SortOf(value, sorted)
      ensures !accepted ==> !threw && Snapshot() == old(Snapshot())
    {
      accepted, threw, sorted := false, false, [];
      if name in RuntimeDefaults() && RuntimeDefaults()[name] != Undefined {
        accepted := true;
        threw, sorted := Set(name, value, page);
      }
    }

    /** `updateResize`: stores the container width and, when it is not 0,
        applies the first layout whose range contains it, unless that is the
        layout applied last. */
    method UpdateResize(page: Page)
      requires Valid()
      modifies this`settings, this`slideCount, this`slidePos, this`slideGroup, this`slideScroll, this`slideMargin,
        this`slideMarginUnit, this`slideWidthCalc, this`slidesTransform, this`slideLayouts, this`containerWidth,
        this`slidesLayoutIndex, this`resizeTimer
      decreases 1
      ensures Valid()
      ensures Snapshot() == ResizedTo(old(Snapshot()), page)
    {
      containerWidth := page.offsetWidth;
      if containerWidth > 0 {
        var found := FindLayout(slideLayouts, containerWidth);
        if found.Some? {
          var l := found.value;
          if slidesLayoutIndex != Some(l) {
            slidesLayoutIndex := Some(l);
            var t;
            ghost var s;
            t, s := Set("slideLayout", Layout(slideLayouts[l]), page);
          }
        }
      }
    }

    /** `onEvent.resizeTick`: `updateResize` when the width has changed. */
    method ResizeTick(page: Page)
      requires Valid()
      modifies this`settings, this`slideCount, this`slidePos, this`slideGroup, this`slideScroll, this`slideMargin,
        this`slideMarginUnit, this`slideWidthCalc, this`slidesTransform, this`slideLayouts, this`containerWidth,
        this`slidesLayoutIndex, this`resizeTimer
      decreases 2
      ensures Valid()
      ensures Snapshot() == Ticked(old(Snapshot()), page)
    {
      if page.offsetWidth != containerWidth {
        UpdateResize(page);
      }
    }

    /** `onEvent.resize`: a tick only when no resize timer is pending; the
        timer is restarted either way. The program defines this handler but
        never binds it. */
    method Resize(page: Page) returns (ran: bool)
      requires Valid()
      modifies this`settings, this`slideCount, this`slidePos, this`slideGroup, this`slideScroll, this`slideMargin,
        this`slideMarginUnit, this`slideWidthCalc, this`slidesTransform, this`slideLayouts, this`containerWidth,
        this`slidesLayoutIndex, this`resizeTimer
      ensures Valid()
      ensures Debounce.Outcome(resizeTimer, ran) == Debounce.Step(old(resizeTimer), Debounce.Signal)
      ensures Snapshot() == (if ran then Ticked(old(Snapshot()), page) else old(Snapshot())).(resizeTimer := true)
    {
      ran := !resizeTimer;
      if ran {
        ResizeTick(page);
      }
      resizeTimer := true;
    }

    /** The resize debounce timer fires. */
    method ResizeTimerExpires()
      modifies this`resizeTimer
      ensures Debounce.Outcome(resizeTimer, false) == Debounce.Step(old(resizeTimer), Debounce.Expire)
    {
      resizeTimer := false;
    }

    /** `onEvent.click`: runs `prev` or `next` only when no click timer is
        pending; the timer is restarted either way. */
    method Click(action: NavAction, page: Page) returns (ran: bool)
      modifies this`clickTimer, this`slidePos, this`slidesTransform
      ensures Debounce.Outcome(clickTimer, ran) == Debounce.Step(old(clickTimer), Debounce.Signal)
      ensures ran && action == GoNext ==> slidePos == NextPos(old(slidePos), slideCount, slideGroup)
      ensures ran && action == GoPrev ==> slidePos == PrevPos(old(slidePos), slideCount, slideGroup)
      ensures ran ==> CurrentGeo() == Repositioned(old(CurrentGeo()), slidePos, page.offsetWidth)
      ensures !ran ==> slidePos == old(slidePos) && CurrentGeo() == old(CurrentGeo())
    {
      ran := !clickTimer;
      if ran {
        match action
        case GoNext => Next(page);
        case GoPrev => Prev(page);
      }
      clickTimer := true;
    }

    /** The click debounce timer fires. */
    method ClickTimerExpires()
      modifies this`clickTimer
      ensures Debounce.Outcome(clickTimer, false) == Debounce.Step(old(clickTimer), Debounce.Expire)
    {
      clickTimer := false;
    }
  }
}
