/** The breakpoint resolver: how the `layout` hook turns caller-supplied
    rules into pixel ranges (src/flexiSlider.js:295-325) and how
    `updateResize` picks the range for a container width
    (src/flexiSlider.js:190-204). */
module Breakpoints {
  import opened Values

  /** The rule `RuntimeDefaults.layout` holds: one slide, scroll by one, no margin. */
  const DefaultRule := Rule(None, Some(1), Some(1), Some(CssNumber(0.0)))

  const DefaultLayout := [DefaultRule]

  /** The width a rule is sorted and resolved by: its width, or 0 when absent. */
  function Key(rule: Rule): (r: int)
    ensures r != 0 ==> rule.width == Some(r)
    ensures rule.width.None? ==> r == 0
  {
    if Present(rule.width) then rule.width.value else 0
  }

  predicate SortedByKey(s: seq<Rule>)
  {
    forall p, q :: 0 <= p < q < |s| ==> Key(s[p]) <= Key(s[q])
  }

  /** What the hook sorts: the array it was given, the default layout for
      anything that is not a non-empty array, and `None` for `undefined` and
      `null`, where reading `value.new.length` for the error message throws
      a TypeError before the fallback is reached. */
  function LayoutInput(v: Value): (r: Option<seq<Rule>>)
    ensures r.None? <==> v.Undefined? || v.Null?
    ensures r.Some? ==> |r.value| > 0
    ensures v.Rules? && |v.rules| > 0 ==> r == Some(v.rules)
    ensures r.Some? && r.value != DefaultLayout ==> v == Rules(r.value)
  {
    match v
    case Undefined => None
    case Null => None
    case Rules(rules) => if |rules| > 0 then Some(rules) else Some(DefaultLayout)
    case _ => Some(DefaultLayout)
  }

  /** `sorted` is a way the hook's sort can leave the rules it is given for
      `v`: ascending by `Key`, and the same rules. */
  predicate SortOf(v: Value, sorted: seq<Rule>)
  {
    match LayoutInput(v)
    case None => false
    case Some(rules) => SortedByKey(sorted) && multiset(sorted) == multiset(rules)
  }

  /** The first `n` rules of `a` are in ascending `Key` order. */
  predicate SortedUpTo(a: array<Rule>, n: int)
    reads a
    requires 0 <= n <= a.Length
  {
    forall p, q :: 0 <= p < q < n ==> Key(a[p]) <= Key(a[q])
  }

  /** Exchanges `a[j - 1]` and `a[j]`. */
  method SwapDown(a: array<Rule>, j: int)
    requires 0 < j < a.Length
    modifies a
    ensures a[j - 1] == old(a[j]) && a[j] == old(a[j - 1])
    ensures forall m :: 0 <= m < a.Length && m != j - 1 && m != j ==> a[m] == old(a[m])
    ensures multiset(a[..]) == multiset(old(a[..]))
  {
    a[j - 1], a[j] := a[j], a[j - 1];
  }

  /** Moves `a[i]` down past every rule with a greater `Key`, so that the
      first `i + 1` rules are sorted. */
  method InsertDown(a: array<Rule>, i: int)
    requires 0 <= i < a.Length && SortedUpTo(a, i)
    modifies a
    ensures SortedUpTo(a, i + 1)
    ensures forall m :: i < m < a.Length ==> a[m] == old(a[m])
    ensures multiset(a[..]) == multiset(old(a[..]))
  {
    var j := i;
    while j > 0 && Key(a[j - 1]) > Key(a[j])
      invariant 0 <= j <= i
      invariant forall p, q :: 0 <= p < q <= i && q != j ==> Key(a[p]) <= Key(a[q])
      invariant forall p, q :: 0 <= p < j < q <= i ==> Key(a[p]) <= Key(a[q])
      invariant forall m :: i < m < a.Length ==> a[m] == old(a[m])
      invariant multiset(a[..]) == multiset(old(a[..]))
    {
      SwapDown(a, j);
      j := j - 1;
    }
  }

  /** Sorts the rules in place by `Key`. The comparator of the source,
      `(a > b) ? 1 : -1`, answers -1 both ways on equal widths, so the order
      of rules with equal widths is left to the engine; any sorted
      permutation is a possible outcome. */
  method SortRules(a: array<Rule>)
    modifies a
    ensures SortedByKey(a[..])
    ensures multiset(a[..]) == multiset(old(a[..]))
  {
    var i := 0;
    while i < a.Length
      invariant 0 <= i <= a.Length
      invariant SortedUpTo(a, i)
      invariant multiset(a[..]) == multiset(old(a[..]))
    {
      InsertDown(a, i);
      i := i + 1;
    }
  }

  /** The loop fails on its first rule when that rule has a width (a non-zero one). */
  predicate Accepts(s: seq<Rule>)
    ensures Accepts(s) <==> |s| == 0 || Key(s[0]) == 0
  {
    |s| == 0 || !Present(s[0].width)
  }

  /** `toPx` of rule `i`: the next rule's width minus one, `Infinity` for the last. */
  function ToPx(s: seq<Rule>, i: nat): (r: Bound)
    requires i < |s|
    ensures r == PosInfinity <==> i == |s| - 1
    ensures r == NaN <==> i < |s| - 1 && s[i + 1].width.None?
    ensures r.Finite? ==> s[i + 1].width == Some(r.n + 1)
  {
    if i < |s| - 1 then
      match s[i + 1].width
      case None => NaN
      case Some(w) => Finite(w - 1)
    else PosInfinity
  }

  /** The layouts the loop pushes for sorted rules `s`, one per rule, each
      with only the properties of the default rule copied. */
  function Resolved(s: seq<Rule>): (r: seq<SlideLayout>)
    ensures |r| == |s|
    ensures forall i :: 0 <= i < |s| ==>
      r[i].fromPx == Key(s[i]) && r[i].group == s[i].group && r[i].scroll == s[i].scroll && r[i].margin == s[i].margin
    ensures forall i :: 0 <= i < |s| - 1 ==>
      r[i].toPx == if s[i + 1].width.Some? then Finite(r[i + 1].fromPx - 1) else NaN
    ensures |s| > 0 ==> r[|s| - 1].toPx == PosInfinity
  {
    seq(|s|, i requires 0 <= i < |s| => SlideLayout(Key(s[i]), ToPx(s, i), s[i].group, s[i].scroll, s[i].margin))
  }

  /** `toPx >= w` in JavaScript: nothing is below Infinity, NaN compares false. */
  predicate Reaches(b: Bound, w: int)
  {
    match b
    case Finite(n) => w <= n
    case PosInfinity => true
    case NaN => false
  }

  /** The test of the scan in `updateResize`. */
  predicate Contains(l: SlideLayout, w: int)
  {
    l.fromPx <= w && Reaches(l.toPx, w)
  }

  /** The index of the first layout whose range contains `w`. */
  function FirstMatch(ls: seq<SlideLayout>, w: int): (r: Option<nat>)
    ensures r.Some? ==> r.value < |ls| && Contains(ls[r.value], w)
    ensures r.Some? ==> forall k :: 0 <= k < r.value ==> !Contains(ls[k], w)
    ensures r.None? ==> forall k :: 0 <= k < |ls| ==> !Contains(ls[k], w)
  {
    if |ls| == 0 then None
    else if Contains(ls[0], w) then Some(0)
    else match FirstMatch(ls[1..], w)
      case None => None
      case Some(k) => Some(k + 1)
  }

  /** The first index that contains `w` is the one `FirstMatch` gives. */
  lemma FirstMatchIs(ls: seq<SlideLayout>, w: int, l: nat)
    requires l < |ls| && Contains(ls[l], w)
    requires forall k :: 0 <= k < l ==> !Contains(ls[k], w)
    ensures FirstMatch(ls, w) == Some(l)
  {
  }

  /** The scan of `updateResize` over the stored layouts. */
  method FindLayout(layouts: seq<SlideLayout>, w: int) returns (found: Option<nat>)
    ensures found == FirstMatch(layouts, w)
  {
    var l := 0;
    while l < |layouts|
      invariant 0 <= l <= |layouts|
      invariant forall k :: 0 <= k < l ==> !Contains(layouts[k], w)
    {
      if layouts[l].fromPx <= w && Reaches(layouts[l].toPx, w) {
        FirstMatchIs(layouts, w, l);
        return Some(l);
      }
      l := l + 1;
    }
    return None;
  }

  /** Whatever order the rules came in, the sorted list is accepted exactly
      when some rule has no width (or width 0) and no rule has a negative
      width. */
  lemma AcceptsIffBaseRule(input: seq<Rule>, sorted: seq<Rule>)
    requires |input| > 0
    requires SortedByKey(sorted) && multiset(sorted) == multiset(input)
    ensures Accepts(sorted) <==>
      (exists r :: r in input && Key(r) == 0) && (forall r :: r in input ==> Key(r) >= 0)
  {
    assert forall r :: r in input <==> r in sorted by {
      forall r ensures r in input <==> r in sorted {
        assert r in input <==> r in multiset(input);
        assert r in sorted <==> r in multiset(sorted);
      }
    }
    assert |sorted| > 0 by {
      assert input[0] in sorted;
    }
    if Accepts(sorted) {
      assert sorted[0] in input && Key(sorted[0]) == 0;
      forall r | r in input ensures Key(r) >= 0 {
        var i :| 0 <= i < |sorted| && sorted[i] == r;
        assert i == 0 || Key(sorted[0]) <= Key(sorted[i]);
      }
    }
    if (exists r :: r in input && Key(r) == 0) && (forall r :: r in input ==> Key(r) >= 0) {
      var r :| r in input && Key(r) == 0;
      var i :| 0 <= i < |sorted| && sorted[i] == r;
      assert i == 0 || Key(sorted[0]) <= Key(sorted[i]);
      assert sorted[0] in input;
    }
  }

  /** The ranges resolved from an accepted sorted list cover every width from
      0 up, and each width lies in exactly one of them. */
  lemma ResolvedCoversOnce(s: seq<Rule>, w: int)
    requires |s| > 0 && SortedByKey(s) && Accepts(s)
    requires w >= 0
    ensures FirstMatch(Resolved(s), w).Some?
    ensures forall i :: 0 <= i < |s| && Contains(Resolved(s)[i], w) ==> i == FirstMatch(Resolved(s), w).value
  {
    var r := Resolved(s);
    var j := 0;
    while j + 1 < |s| && Key(s[j + 1]) <= w
      invariant 0 <= j < |s| && Key(s[j]) <= w
      decreases |s| - j
    {
      j := j + 1;
    }
    assert Contains(r[j], w);
    forall i | 0 <= i < |s| && Contains(r[i], w) ensures i == j {
      InRangeBelowNext(s, i, w);
    }
    FirstMatchIs(r, w, j);
  }

  /** A non-negative width inside the range of rule `i` is below the width of
      rule `i + 1`. */
  lemma InRangeBelowNext(s: seq<Rule>, i: nat, w: int)
    requires i < |s| && w >= 0 && Contains(Resolved(s)[i], w)
    ensures Key(s[i]) <= w
    ensures i + 1 < |s| ==> w < Key(s[i + 1])
  {
    if i + 1 < |s| {
      assert Resolved(s)[i].toPx == ToPx(s, i);
      var k := s[i + 1].width.value;
      assert w <= k - 1;
    }
  }

  /** A match among the earlier layouts is not affected by what is appended. */
  lemma {:induction false} AppendKeepsMatch(ls: seq<SlideLayout>, extra: seq<SlideLayout>, w: int)
    requires FirstMatch(ls, w).Some?
    ensures FirstMatch(ls + extra, w) == FirstMatch(ls, w)
  {
    var l := FirstMatch(ls, w).value;
    assert forall k :: 0 <= k <= l ==> (ls + extra)[k] == ls[k];
    FirstMatchIs(ls + extra, w, l);
  }

  /** Without a match in `prior`, the first match of `r` is the first
      match of the whole list, shifted past `prior`. */
  lemma MatchPastPrefix(prior: seq<SlideLayout>, r: seq<SlideLayout>, later: seq<SlideLayout>, w: int)
    requires FirstMatch(prior, w).None? && FirstMatch(r, w).Some?
    ensures FirstMatch(prior + r + later, w) == Some(|prior| + FirstMatch(r, w).value)
  {
    var j := FirstMatch(r, w).value;
    var all := prior + r + later;
    assert all[|prior| + j] == r[j];
    assert forall k :: 0 <= k < |prior| ==> all[k] == prior[k];
    assert forall k :: |prior| <= k < |prior| + j ==> all[k] == r[k - |prior|];
    FirstMatchIs(all, w, |prior| + j);
  }

  /** `slideLayouts` is only ever appended to: once an accepted layout list
      has been resolved, layouts resolved later are never chosen for any
      width, because the earlier ranges already cover every width. */
  lemma LaterLayoutsNeverApply(prior: seq<SlideLayout>, s: seq<Rule>, later: seq<SlideLayout>, w: int)
    requires |s| > 0 && SortedByKey(s) && Accepts(s)
    requires w >= 0
    ensures FirstMatch(prior + Resolved(s) + later, w).Some?
    ensures FirstMatch(prior + Resolved(s) + later, w).value < |prior| + |s|
  {
    var r := Resolved(s);
    ResolvedCoversOnce(s, w);
    if FirstMatch(prior, w).Some? {
      AppendKeepsMatch(prior, r + later, w);
      assert prior + r + later == prior + (r + later);
    } else {
      MatchPastPrefix(prior, r, later, w);
    }
  }
}
