/**
 * Tab navigation on the main page (AppleNavigation in apple-nav.js): the
 * current tab, exclusive `active` marking of tabs and content sections, and
 * the arrow, Home and End keys over a fixed list of tab names.
 */
module Tabs {
  import opened Wrappers

  /** The tab names the keyboard cycles through, in order. */
  const TabNames: seq<string> := ["store", "desktop", "pad", "phone", "watch"]

  /** Array.prototype.indexOf: the first position of x, or -1. */
  function IndexOf(names: seq<string>, x: string): (r: int)
    ensures -1 <= r < |names|
    ensures r == -1 <==> x !in names
    ensures r >= 0 ==> names[r] == x && forall j :: 0 <= j < r ==> names[j] != x
  {
    IndexFromSearches(names, x, 0);
    IndexFrom(names, x, 0)
  }

  /** The scan behind indexOf, from position i on. */
  function IndexFrom(names: seq<string>, x: string, i: nat): int
    decreases |names| - i
  {
    if i >= |names| then -1 else if names[i] == x then i else IndexFrom(names, x, i + 1)
  }

  lemma {:induction false} IndexFromSearches(names: seq<string>, x: string, i: nat)
    requires i <= |names|
    requires forall j :: 0 <= j < i ==> names[j] != x
    ensures var r := IndexFrom(names, x, i);
      && -1 <= r < |names|
      && (r == -1 <==> x !in names)
      && (r >= 0 ==> names[r] == x && forall j :: 0 <= j < r ==> names[j] != x)
    decreases |names| - i
  {
    if i < |names| && names[i] != x {
      IndexFromSearches(names, x, i + 1);
    }
  }

  /** The tab a key press selects, or None for a key the handler ignores. */
  function KeyTarget(current: string, key: string): (r: Option<string>)
    ensures r.None? <==> key != "ArrowLeft" && key != "ArrowRight" && key != "Home" && key != "End"
  {
    var i := IndexOf(TabNames, current);
    if key == "ArrowLeft" then Some(TabNames[if i > 0 then i - 1 else |TabNames| - 1])
    else if key == "ArrowRight" then Some(TabNames[if i < |TabNames| - 1 then i + 1 else 0])
    else if key == "Home" then Some("store")
    else if key == "End" then Some("entertainment")
    else None
  }

  lemma TabNamesDistinct()
    ensures forall i, j :: 0 <= i < j < |TabNames| ==> TabNames[i] != TabNames[j]
  {
  }

  lemma IndexOfListed(k: nat)
    requires k < |TabNames|
    ensures IndexOf(TabNames, TabNames[k]) == k
  {
    TabNamesDistinct();
  }

  /** ArrowRight moves to the next name, wrapping from the last to the first. */
  lemma ArrowRightNext(k: nat)
    requires k < |TabNames|
    ensures KeyTarget(TabNames[k], "ArrowRight") == Some(TabNames[(k + 1) % |TabNames|])
  {
    if k == 0 {
      assert KeyTarget("store", "ArrowRight") == Some("desktop");
    } else if k == 1 {
      assert KeyTarget("desktop", "ArrowRight") == Some("pad");
    } else if k == 2 {
      assert KeyTarget("pad", "ArrowRight") == Some("phone");
    } else if k == 3 {
      assert KeyTarget("phone", "ArrowRight") == Some("watch");
    } else {
      assert KeyTarget("watch", "ArrowRight") == Some("store");
    }
  }

  /** ArrowLeft moves to the previous name, wrapping from the first to the last. */
  lemma ArrowLeftPrevious(k: nat)
    requires k < |TabNames|
    ensures KeyTarget(TabNames[k], "ArrowLeft") == Some(TabNames[(k + |TabNames| - 1) % |TabNames|])
  {
    if k == 0 {
      assert KeyTarget("store", "ArrowLeft") == Some("watch");
    } else if k == 1 {
      assert KeyTarget("desktop", "ArrowLeft") == Some("store");
    } else if k == 2 {
      assert KeyTarget("pad", "ArrowLeft") == Some("desktop");
    } else if k == 3 {
      assert KeyTarget("phone", "ArrowLeft") == Some("pad");
    } else {
      assert KeyTarget("watch", "ArrowLeft") == Some("phone");
    }
  }

  /** From a tab outside the list, ArrowLeft reaches the last name and ArrowRight the first. */
  lemma UnlistedCurrent(current: string)
    requires current !in TabNames
    ensures KeyTarget(current, "ArrowLeft") == Some("watch")
    ensures KeyTarget(current, "ArrowRight") == Some("store")
  {
  }

  /** From a listed tab, ArrowLeft then ArrowRight comes back, and so does the reverse. */
  lemma LeftRightInverse(k: nat)
    requires k < |TabNames|
    ensures KeyTarget(KeyTarget(TabNames[k], "ArrowLeft").value, "ArrowRight") == Some(TabNames[k])
    ensures KeyTarget(KeyTarget(TabNames[k], "ArrowRight").value, "ArrowLeft") == Some(TabNames[k])
  {
    LeftThenRight(k);
    RightThenLeft(k);
  }

  lemma LeftThenRight(k: nat)
    requires k < |TabNames|
    ensures KeyTarget(KeyTarget(TabNames[k], "ArrowLeft").value, "ArrowRight") == Some(TabNames[k])
  {
    var prev: nat := if k > 0 then k - 1 else |TabNames| - 1;
    IndexOfListed(k);
    IndexOfListed(prev);
  }

  lemma RightThenLeft(k: nat)
    requires k < |TabNames|
    ensures KeyTarget(KeyTarget(TabNames[k], "ArrowRight").value, "ArrowLeft") == Some(TabNames[k])
  {
    var next: nat := if k < |TabNames| - 1 then k + 1 else 0;
    IndexOfListed(k);
    IndexOfListed(next);
  }

  /** Home selects "store"; End selects "entertainment", which is not in the list. */
  lemma HomeAndEnd(current: string)
    ensures KeyTarget(current, "Home") == Some("store") && "store" in TabNames
    ensures KeyTarget(current, "End") == Some("entertainment") && "entertainment" !in TabNames
  {
    assert TabNames[0] == "store";
  }

  /** Every arrow key lands on a listed tab, whatever the current one. */
  lemma ArrowsStayListed(current: string, key: string)
    requires key == "ArrowLeft" || key == "ArrowRight"
    ensures KeyTarget(current, key).Some? && KeyTarget(current, key).value in TabNames
  {
  }

  /** A tab or content section, by its key (`data-tab` or `id`) and whether it is active. */
  datatype Marked = Marked(key: string, active: bool)

  function Keys(xs: seq<Marked>): (r: seq<string>)
    ensures |r| == |xs| && forall j :: 0 <= j < |xs| ==> r[j] == xs[j].key
  {
    seq(|xs|, j requires 0 <= j < |xs| => xs[j].key)
  }

  /**
   * ys is xs with `active` cleared everywhere and then set on the first
   * element carrying the key, if there is one.
   */
  predicate MarkedOnly(ys: seq<Marked>, xs: seq<Marked>, key: string)
  {
    && |ys| == |xs|
    && forall j :: 0 <= j < |ys| ==>
         ys[j].key == xs[j].key && (ys[j].active <==> j == IndexOf(Keys(xs), key))
  }

  /** At most one element is active, it carries the key, and one is active exactly when some element has the key. */
  lemma MarkedOnlyExclusive(ys: seq<Marked>, xs: seq<Marked>, key: string)
    requires MarkedOnly(ys, xs, key)
    ensures forall i, j :: 0 <= i < |ys| && 0 <= j < |ys| && ys[i].active && ys[j].active ==> i == j
    ensures forall j :: 0 <= j < |ys| && ys[j].active ==> ys[j].key == key
    ensures (exists j :: 0 <= j < |ys| && ys[j].active) <==> key in Keys(xs)
  {
    var k := IndexOf(Keys(xs), key);
    if k >= 0 {
      assert ys[k].active;
    }
  }

  /** Clear `active` on every element, then set it on the first one with the key. */
  method MarkOnly(xs: seq<Marked>, key: string) returns (ys: seq<Marked>)
    ensures MarkedOnly(ys, xs, key)
  {
    ys := xs;
    var i := 0;
    while i < |ys|
      invariant 0 <= i <= |ys| == |xs|
      invariant forall j :: 0 <= j < |ys| ==> ys[j].key == xs[j].key
      invariant forall j :: 0 <= j < i ==> !ys[j].active
    {
      ys := ys[i := ys[i].(active := false)];
      i := i + 1;
    }
    var found := -1;
    i := 0;
    while i < |ys| && found == -1
      invariant 0 <= i <= |ys|
      invariant found == -1 ==> forall j :: 0 <= j < i ==> ys[j].key != key
      invariant found != -1 ==> found == IndexOf(Keys(xs), key)
    {
      if ys[i].key == key {
        found := i;
        assert Keys(xs)[i] == key;
      }
      i := i + 1;
    }
    if found == -1 {
      assert key !in Keys(xs);
    } else {
      ys := ys[found := ys[found].(active := true)];
    }
  }

  class AppleNavigation {
    /** The `.nav-tab` elements, keyed by `data-tab`, in document order. */
    var tabs: seq<Marked>
    /** The `.content-section` elements, keyed by `id`, in document order. */
    var sections: seq<Marked>
    var currentTab: string

    /** Starts on "store" and marks it. */
    constructor (tabs: seq<Marked>, sections: seq<Marked>)
      ensures currentTab == "store"
      ensures MarkedOnly(this.tabs, tabs, "store") && MarkedOnly(this.sections, sections, "store")
    {
      this.tabs := tabs;
      this.sections := sections;
      currentTab := "store";
      new;
      SetActiveTab("store");
    }

    /** The only active tab and section are the first ones named n; n becomes current even when none is. */
    method SetActiveTab(n: string)
      modifies this
      ensures currentTab == n
      ensures MarkedOnly(tabs, old(tabs), n) && MarkedOnly(sections, old(sections), n)
    {
      tabs := MarkOnly(tabs, n);
      sections := MarkOnly(sections, n);
      currentTab := n;
    }

    /** Arrow keys, Home and End select a tab; any other key changes nothing. */
    method HandleKeyboardNavigation(key: string)
      modifies this
      ensures KeyTarget(old(currentTab), key).None? ==>
        currentTab == old(currentTab) && tabs == old(tabs) && sections == old(sections)
      ensures KeyTarget(old(currentTab), key).Some? ==>
        var n := KeyTarget(old(currentTab), key).value;
        currentTab == n && MarkedOnly(tabs, old(tabs), n) && MarkedOnly(sections, old(sections), n)
    {
      var target := KeyTarget(currentTab, key);
      if target.Some? {
        SetActiveTab(target.value);
      }
    }

    method GetCurrentTab() returns (r: string)
      ensures r == currentTab
    {
      r := currentTab;
    }
  }
}
