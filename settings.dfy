/** The settings store: the option keys and their defaults, how
    `initialize` merges caller options over them, and what `set` stores for
    one key and for a whole options object (src/flexiSlider.js:37, 112-137,
    409-431). */
module Settings {
  import opened Values
  import Breakpoints

  /** Keys of `InitDefaults`, in declaration order. */
  const InitKeys: seq<string> := ["navigationTemplate", "slider", "slides", "slide"]

  /** Keys of `RuntimeDefaults`, in declaration order: the only keys the
      option route (`$(..).flexiSlider(name, value)`) accepts once the slider
      exists. `set` called as a method takes any key. */
  const RuntimeKeys: seq<string> :=
    ["debug", "clickDebounceTimeout", "layout", "scrollTransition",
     "resizeDebounceTimeout", "watchElementInterval", "watchElementResize"]

  /** The order in which `for (optionName in $.extend({}, InitDefaults,
      RuntimeDefaults))` visits the keys. */
  const OptionKeys: seq<string> := InitKeys + RuntimeKeys

  function InitDefaults(): map<string, Value>
  {
    map[
      "navigationTemplate" := Str("<nav><b class=\"flexi-prev\"></b><b class=\"flexi-next\"></b></nav>"),
      "slider" := Str(".flexi-slider"),
      "slides" := Str(".flexi-slides"),
      "slide" := Str(".flexi-slide")]
  }

  function RuntimeDefaults(): map<string, Value>
  {
    map[
      "debug" := Bool(true),
      "clickDebounceTimeout" := Num(250.0),
      "layout" := Rules(Breakpoints.DefaultLayout),
      "scrollTransition" := Str("0.5s ease-in-out"),
      "resizeDebounceTimeout" := Num(100.0),
      "watchElementInterval" := Num(100.0),
      "watchElementResize" := Bool(false)]
  }

  /** `arguments[0][optionName]` of the object form of `set`. */
  function OptionValue(obj: map<string, Value>, key: string): Value
  {
    if key in obj then obj[key] else Undefined
  }

  /** `$.extend({}, InitDefaults, RuntimeDefaults, options)`: later sources
      win, and `$.extend` skips `undefined` values. */
  function Merge(options: map<string, Value>): (r: map<string, Value>)
    ensures forall k :: k in options && options[k] != Undefined ==> k in r && r[k] == options[k]
    ensures forall k :: k in r ==> k in InitDefaults() || k in RuntimeDefaults() || (k in options && options[k] != Undefined)
  {
    InitDefaults() + RuntimeDefaults() + map k | k in options && options[k] != Undefined :: options[k]
  }

  /** An option the caller leaves `undefined` keeps its default, and a
      runtime default wins over an initial one. */
  lemma MergeKeepsDefaults(options: map<string, Value>, k: string)
    requires OptionValue(options, k) == Undefined
    ensures k in InitDefaults() || k in RuntimeDefaults() ==>
      k in Merge(options) && Merge(options)[k] == (InitDefaults() + RuntimeDefaults())[k]
    ensures k in RuntimeDefaults() ==> Merge(options)[k] == RuntimeDefaults()[k]
    ensures k !in InitDefaults() && k !in RuntimeDefaults() ==> k !in Merge(options)
  {
    var given := map k | k in options && options[k] != Undefined :: options[k];
    assert k !in given;
  }

  /** `settings[name]`, which is `undefined` for a missing key. */
  function Current(settings: map<string, Value>, name: string): Value
  {
    if name in settings then settings[name] else Undefined
  }

  /** What the `slides` hook leaves in `value.new`: the selector can only be
      set while no truthy one is stored, and a selector that finds nothing
      becomes `null`. */
  function SlidesHook(oldValue: Value, newValue: Value, found: bool): (r: Value)
    ensures r == newValue || r == Null
    ensures r == Null && newValue != Null ==> !Truthy(oldValue) && Truthy(newValue) && !found
    ensures !Truthy(oldValue) && Truthy(newValue) && !found ==> r == Null
  {
    if !Truthy(oldValue) && Truthy(newValue) && !found then Null else newValue
  }

  /** The settings after `set(name, value)` returns: `value.new` as the hook
      left it, except for `layout`, whose hook always returns `false`. */
  function Store(settings: map<string, Value>, name: string, value: Value, found: bool): (r: map<string, Value>)
    ensures name == "layout" ==> r == settings
    ensures name != "layout" ==> name in r
    ensures name != "layout" && name != "slides" ==> r[name] == value
    ensures name == "slides" ==> r[name] == SlidesHook(Current(settings, name), value, found)
    ensures forall k :: k != name ==> (k in r <==> k in settings) && (k in settings ==> r[k] == settings[k])
  {
    if name == "layout" then settings
    else
      var stored := if name == "slides" then SlidesHook(Current(settings, name), value, found) else value;
      settings[name := stored]
  }

  /** The store-only walk: the settings after `keys` are stored in order with
      the object's values and no hook runs beyond `slides` and `layout`. It
      is what the object form of `set` leaves when `watchElementResize` is
      not among the keys; that hook can also store `slideLayout`. */
  function Written(settings: map<string, Value>, obj: map<string, Value>, keys: seq<string>, found: bool): map<string, Value>
  {
    if |keys| == 0 then settings
    else
      var last := keys[|keys| - 1];
      Store(Written(settings, obj, keys[..|keys| - 1], found), last, OptionValue(obj, last), found)
  }

  /** The object form stores every option key but `layout` (`undefined` for a
      key the object lacks), in order, each once, and leaves every other key
      as it was. */
  lemma {:induction false} WrittenStoresEachKey(settings: map<string, Value>, obj: map<string, Value>, keys: seq<string>, found: bool)
    requires forall i, j :: 0 <= i < j < |keys| ==> keys[i] != keys[j]
    ensures forall k :: k !in keys ==> (k in Written(settings, obj, keys, found) <==> k in settings)
    ensures forall k :: k !in keys && k in settings ==> Written(settings, obj, keys, found)[k] == settings[k]
    ensures forall k :: k in keys && k != "layout" ==> k in Written(settings, obj, keys, found)
    ensures forall k :: k in keys && k != "layout" && k != "slides" ==> Written(settings, obj, keys, found)[k] == OptionValue(obj, k)
    ensures "slides" in keys ==>
      Written(settings, obj, keys, found)["slides"] == SlidesHook(Current(settings, "slides"), OptionValue(obj, "slides"), found)
  {
    if |keys| > 0 {
      var front := keys[..|keys| - 1];
      var last := keys[|keys| - 1];
      WrittenStoresEachKey(settings, obj, front, found);
      assert forall k :: k in keys <==> k in front || k == last;
      assert last !in front;
    }
  }

  /** Where the keys with hooks that matter sit among the option keys. */
  lemma OptionKeyAt(i: nat)
    requires i < |OptionKeys|
    ensures OptionKeys[i] == "slides" <==> i == 2
    ensures OptionKeys[i] == "slide" <==> i == 3
    ensures OptionKeys[i] == "layout" <==> i == 6
    ensures OptionKeys[i] == "watchElementResize" <==> i == 10
    ensures OptionKeys[i] != "slideLayout"
  {
  }

  /** The keys the object form visits are distinct and are exactly the keys
      of the two default tiers. */
  lemma OptionKeysDistinct()
    ensures forall i, j :: 0 <= i < j < |OptionKeys| ==> OptionKeys[i] != OptionKeys[j]
    ensures forall k :: k in RuntimeKeys <==> k in RuntimeDefaults()
    ensures forall k :: k in InitKeys <==> k in InitDefaults()
  {
  }

  /** The store-only walk over the option keys: every key of the two
      default tiers but `layout` ends up stored, each plain one with the
      object's value (`undefined` where it has none), and no other key
      changes. The object form itself can also store `slideLayout` through
      the `watchElementResize` hook. */
  lemma WrittenOptions(settings: map<string, Value>, obj: map<string, Value>, found: bool)
    ensures forall k :: (k in InitDefaults() || k in RuntimeDefaults()) && k != "layout" ==>
      k in Written(settings, obj, OptionKeys, found)
    ensures forall k :: (k in InitDefaults() || k in RuntimeDefaults()) && k != "layout" && k != "slides" ==>
      Written(settings, obj, OptionKeys, found)[k] == OptionValue(obj, k)
    ensures forall k :: k !in InitDefaults() && k !in RuntimeDefaults() ==>
      (k in Written(settings, obj, OptionKeys, found) <==> k in settings)
      && (k in settings ==> Written(settings, obj, OptionKeys, found)[k] == settings[k])
  {
    OptionKeysDistinct();
    WrittenStoresEachKey(settings, obj, OptionKeys, found);
    assert forall k :: k in OptionKeys <==> k in InitKeys || k in RuntimeKeys;
  }
}
