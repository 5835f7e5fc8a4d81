/**
 * Removal of unwanted navigation entries from the main page
 * (SpecificSectionRemover in remove-specific-sections.js): five passes, each
 * deleting the elements of one selector group whose text matches a test.
 */
module Sections {
  import opened Text

  /** The lowercase labels whose navigation entries are to go. */
  const SectionsToRemove: seq<string> :=
    ["airpods", "air pods", "tv & home", "tv and home", "tv-home", "entertainment", "accessories", "support"]

  /** The labels the last keyword pass spares. */
  const SectionsToKeep: seq<string> := ["home", "shop", "store", "desktop", "pad", "phone", "watch"]

  /**
   * An element of the page, seen through the selector groups the passes use:
   * `link` for anchors inside navigation containers, `.nav-link` and
   * `.nav-item`; `button` for `button` and `[role="button"]`; `navItem` for an
   * `li` inside a navigation container, with its number of child elements.
   */
  datatype NavElement = NavElement(text: string, link: bool, button: bool, navItem: bool, children: nat)

  /** Selected by the navigation selector list of the first three passes. */
  predicate Candidate(e: NavElement)
  {
    e.link || e.button
  }

  /** The three keyword passes. */
  datatype Pass = ExactText | PartialText | NavigationItems

  /** Whether a keyword pass removes the element for this keyword. */
  predicate Hit(pass: Pass, e: NavElement, keyword: string)
  {
    Candidate(e) &&
    match pass
    case ExactText => Trim(Lower(e.text)) == Lower(keyword)
    case PartialText => Contains(Lower(e.text), Lower(keyword)) && |Lower(e.text)| < 30
    case NavigationItems => Contains(Lower(e.text), Lower(keyword))
  }

  predicate AnyHit(pass: Pass, e: NavElement, keywords: seq<string>)
  {
    exists i :: 0 <= i < |keywords| && Hit(pass, e, keywords[i])
  }

  /** Some keyword of the list occurs in t. */
  predicate MentionsAny(t: string, keywords: seq<string>)
  {
    exists i :: 0 <= i < |keywords| && Contains(t, Lower(keywords[i]))
  }

  /**
   * The test of ensureOnlyDesiredSections: a link (buttons are not selected)
   * whose trimmed text is non-empty, shorter than 20, mentions a removal
   * keyword and mentions no keep keyword.
   */
  predicate Unwanted(e: NavElement, remove: seq<string>, keep: seq<string>)
  {
    var t := Trim(Lower(e.text));
    e.link && t != [] && |t| < 20 && MentionsAny(t, remove) && !MentionsAny(t, keep)
  }

  /** The test of cleanupEmptyContainers: a navigation `li` with no child elements and blank text. */
  predicate EmptyContainer(e: NavElement)
  {
    e.navItem && e.children == 0 && Trim(e.text) == []
  }

  /** The elements `remove()` spares, in their original order. */
  function Keep(xs: seq<NavElement>, hit: NavElement -> bool): (r: seq<NavElement>)
    ensures |r| <= |xs|
    ensures forall x :: x in r <==> x in xs && !hit(x)
  {
    if xs == [] then [] else (if hit(xs[0]) then [] else [xs[0]]) + Keep(xs[1..], hit)
  }

  /** Removal keeps the order of what remains: it distributes over concatenation. */
  lemma {:induction false} KeepAppend(a: seq<NavElement>, b: seq<NavElement>, hit: NavElement -> bool)
    ensures Keep(a + b, hit) == Keep(a, hit) + Keep(b, hit)
    decreases |a|
  {
    if a == [] {
      assert a + b == b;
    } else {
      assert (a + b)[1..] == a[1..] + b;
      KeepAppend(a[1..], b, hit);
    }
  }

  /** One more element of a prefix is kept exactly when the test spares it. */
  lemma KeepStep(xs: seq<NavElement>, i: nat, hit: NavElement -> bool)
    requires i < |xs|
    ensures Keep(xs[..i + 1], hit) == Keep(xs[..i], hit) + (if hit(xs[i]) then [] else [xs[i]])
  {
    assert xs[..i + 1] == xs[..i] + [xs[i]];
    KeepAppend(xs[..i], [xs[i]], hit);
  }

  /** Removing by two tests in turn is removing by either. */
  lemma {:induction false} KeepTwice(xs: seq<NavElement>, f: NavElement -> bool, g: NavElement -> bool, h: NavElement -> bool)
    requires forall e :: h(e) == (f(e) || g(e))
    ensures Keep(Keep(xs, f), g) == Keep(xs, h)
    decreases |xs|
  {
    if xs != [] {
      KeepTwice(xs[1..], f, g, h);
      KeepAppend(if f(xs[0]) then [] else [xs[0]], Keep(xs[1..], f), g);
      assert Keep([xs[0]], g) == if g(xs[0]) then [] else [xs[0]];
    }
  }

  /** Tests that agree on every element remove the same elements. */
  lemma {:induction false} KeepSame(xs: seq<NavElement>, f: NavElement -> bool, g: NavElement -> bool)
    requires forall x :: x in xs ==> f(x) == g(x)
    ensures Keep(xs, f) == Keep(xs, g)
    decreases |xs|
  {
    if xs != [] {
      KeepSame(xs[1..], f, g);
    }
  }

  /** A test no element passes removes nothing. */
  lemma {:induction false} KeepNone(xs: seq<NavElement>, hit: NavElement -> bool)
    requires forall x :: x in xs ==> !hit(x)
    ensures Keep(xs, hit) == xs
    decreases |xs|
  {
    if xs != [] {
      KeepNone(xs[1..], hit);
      assert xs == [xs[0]] + xs[1..];
    }
  }

  /** An exact match is also a match by containment. */
  lemma ExactIsNavigationHit(e: NavElement, keyword: string)
    requires Hit(ExactText, e, keyword)
    ensures Hit(NavigationItems, e, keyword)
  {
    var a, b := TrimIsSlice(Lower(e.text));
    ContainsSlice(Lower(e.text), a, b);
  }

  /** An element the desired-sections pass removes was already removed by the navigation pass. */
  lemma UnwantedIsNavigationHit(e: NavElement, remove: seq<string>, keep: seq<string>)
    requires Unwanted(e, remove, keep)
    ensures AnyHit(NavigationItems, e, remove)
  {
    var text := Lower(e.text);
    var a, b := TrimIsSlice(text);
    var i :| 0 <= i < |remove| && Contains(text[a..b], Lower(remove[i]));
    ContainsWithinSlice(text, a, b, Lower(remove[i]));
    assert Hit(NavigationItems, e, remove[i]);
  }

  /** The exact-text pass: what is left is what no keyword matches exactly after trimming. */
  function ExactPass(xs: seq<NavElement>, remove: seq<string>): (r: seq<NavElement>)
    ensures |r| <= |xs|
    ensures forall x :: x in r <==> x in xs && !AnyHit(ExactText, x, remove)
  {
    Keep(xs, e => AnyHit(ExactText, e, remove))
  }

  /** The partial-text pass: what is left is what holds no keyword or is 30 characters or longer. */
  function PartialPass(xs: seq<NavElement>, remove: seq<string>): (r: seq<NavElement>)
    ensures |r| <= |xs|
    ensures forall x :: x in r <==> x in xs && !AnyHit(PartialText, x, remove)
  {
    Keep(xs, e => AnyHit(PartialText, e, remove))
  }

  /** The navigation-item pass: what is left is what holds no keyword. */
  function NavigationPass(xs: seq<NavElement>, remove: seq<string>): (r: seq<NavElement>)
    ensures |r| <= |xs|
    ensures forall x :: x in r <==> x in xs && !AnyHit(NavigationItems, x, remove)
  {
    Keep(xs, e => AnyHit(NavigationItems, e, remove))
  }

  /** The desired-sections pass: what is left is what the keyword test does not find unwanted. */
  function DesiredPass(xs: seq<NavElement>, remove: seq<string>, keep: seq<string>): (r: seq<NavElement>)
    ensures |r| <= |xs|
    ensures forall x :: x in r <==> x in xs && !Unwanted(x, remove, keep)
  {
    Keep(xs, e => Unwanted(e, remove, keep))
  }

  /** The cleanup pass: what is left is every element but the empty navigation items. */
  function CleanupPass(xs: seq<NavElement>): (r: seq<NavElement>)
    ensures |r| <= |xs|
    ensures forall x :: x in r <==> x in xs && !EmptyContainer(x)
  {
    Keep(xs, EmptyContainer)
  }

  /**
   * The five passes amount to the containment pass followed by the cleanup:
   * the exact and partial passes only remove what it would remove, and the
   * keep list is never reached.
   */
  lemma PipelineCollapses(xs: seq<NavElement>, remove: seq<string>, keep: seq<string>)
    ensures CleanupPass(DesiredPass(NavigationPass(PartialPass(ExactPass(xs, remove), remove), remove), remove, keep))
      == CleanupPass(NavigationPass(xs, remove))
  {
    var exact := e => AnyHit(ExactText, e, remove);
    var partial := e => AnyHit(PartialText, e, remove);
    var nav := e => AnyHit(NavigationItems, e, remove);
    var both := e => exact(e) || partial(e);
    var all := e => both(e) || nav(e);
    KeepTwice(xs, exact, partial, both);
    KeepTwice(xs, both, nav, all);
    forall e ensures all(e) == nav(e) {
      if exact(e) {
        var i :| 0 <= i < |remove| && Hit(ExactText, e, remove[i]);
        ExactIsNavigationHit(e, remove[i]);
      }
      if partial(e) {
        var i :| 0 <= i < |remove| && Hit(PartialText, e, remove[i]);
        assert Hit(NavigationItems, e, remove[i]);
      }
    }
    KeepSame(xs, all, nav);
    var n := NavigationPass(xs, remove);
    var unwanted := e => Unwanted(e, remove, keep);
    forall x | x in n ensures !unwanted(x) {
      if unwanted(x) {
        UnwantedIsNavigationHit(x, remove, keep);
      }
    }
    KeepNone(n, unwanted);
  }

  /** No selected element left after the passes mentions a removal keyword, keep list or not. */
  lemma NoKeywordSurvives(xs: seq<NavElement>, remove: seq<string>, x: NavElement, i: nat)
    requires x in CleanupPass(NavigationPass(xs, remove)) && i < |remove|
    ensures !(Candidate(x) && Contains(Lower(x.text), Lower(remove[i])))
  {
    assert !Hit(NavigationItems, x, remove[i]);
  }

  /** The removal keywords are written in lowercase already. */
  lemma RemovalKeywordsLowercase()
    ensures forall i :: 0 <= i < |SectionsToRemove| ==> Lower(SectionsToRemove[i]) == SectionsToRemove[i]
  {
    LowerIs("airpods", "airpods");
    LowerIs("air pods", "air pods");
    LowerIs("tv & home", "tv & home");
    LowerIs("tv and home", "tv and home");
    LowerIs("tv-home", "tv-home");
    LowerIs("entertainment", "entertainment");
    LowerIs("accessories", "accessories");
    LowerIs("support", "support");
  }

  /** Some keyword among the first n hits the element. */
  predicate HitBefore(pass: Pass, e: NavElement, keywords: seq<string>, n: nat)
    requires n <= |keywords|
  {
    exists i :: 0 <= i < n && Hit(pass, e, keywords[i])
  }

  /** One more keyword hits exactly when the earlier ones or the new one does. */
  lemma HitBeforeExtend(pass: Pass, e: NavElement, keywords: seq<string>, n: nat)
    requires n < |keywords|
    ensures HitBefore(pass, e, keywords, n + 1) == (HitBefore(pass, e, keywords, n) || Hit(pass, e, keywords[n]))
  {
    if HitBefore(pass, e, keywords, n + 1) && !Hit(pass, e, keywords[n]) {
      var i :| 0 <= i < n + 1 && Hit(pass, e, keywords[i]);
      assert i < n;
    }
  }

  /** Removing by the first i keywords and then by keyword i is removing by the first i + 1. */
  lemma KeepOneMoreKeyword(xs: seq<NavElement>, pass: Pass, keywords: seq<string>, i: nat)
    requires i < |keywords|
    ensures Keep(Keep(xs, e => HitBefore(pass, e, keywords, i)), e => Hit(pass, e, keywords[i]))
      == Keep(xs, e => HitBefore(pass, e, keywords, i + 1))
  {
    forall e ensures HitBefore(pass, e, keywords, i + 1) == (HitBefore(pass, e, keywords, i) || Hit(pass, e, keywords[i])) {
      HitBeforeExtend(pass, e, keywords, i);
    }
    KeepTwice(xs, e => HitBefore(pass, e, keywords, i), e => Hit(pass, e, keywords[i]),
      e => HitBefore(pass, e, keywords, i + 1));
  }

  lemma KeepNoKeyword(xs: seq<NavElement>, pass: Pass, keywords: seq<string>)
    ensures Keep(xs, e => HitBefore(pass, e, keywords, 0)) == xs
  {
    KeepNone(xs, e => HitBefore(pass, e, keywords, 0));
  }

  lemma KeepEveryKeyword(xs: seq<NavElement>, pass: Pass, keywords: seq<string>)
    ensures Keep(xs, e => HitBefore(pass, e, keywords, |keywords|)) == Keep(xs, e => AnyHit(pass, e, keywords))
  {
    KeepSame(xs, e => HitBefore(pass, e, keywords, |keywords|), e => AnyHit(pass, e, keywords));
  }

  /** The inner keyword loop of removeNavigationItems for one element. */
  method MentionsKeyword(e: NavElement, remove: seq<string>) returns (removed: bool)
    ensures removed == AnyHit(NavigationItems, e, remove)
  {
    removed := false;
    var j := 0;
    while j < |remove|
      invariant 0 <= j <= |remove|
      invariant removed == HitBefore(NavigationItems, e, remove, j)
    {
      HitBeforeExtend(NavigationItems, e, remove, j);
      if Hit(NavigationItems, e, remove[j]) {
        removed := true;
      }
      j := j + 1;
    }
  }

  /** The working list of the page's elements. */
  class SectionRemover {
    var elements: seq<NavElement>
    const sectionsToRemove: seq<string>
    const sectionsToKeep: seq<string>

    constructor (elements: seq<NavElement>)
      ensures this.elements == elements
      ensures sectionsToRemove == SectionsToRemove && sectionsToKeep == SectionsToKeep
    {
      this.elements := elements;
      sectionsToRemove := SectionsToRemove;
      sectionsToKeep := SectionsToKeep;
    }

    /** `element.remove()` on every element the test selects. */
    method RemoveWhere(hit: NavElement -> bool)
      modifies this
      ensures elements == Keep(old(elements), hit)
    {
      var kept := [];
      var i := 0;
      while i < |elements|
        invariant 0 <= i <= |elements| && elements == old(elements)
        invariant kept == Keep(elements[..i], hit)
      {
        KeepStep(elements, i, hit);
        if !hit(elements[i]) {
          kept := kept + [elements[i]];
        }
        i := i + 1;
      }
      assert elements[..i] == elements;
      elements := kept;
    }

    /** One removal per keyword, keyword by keyword. */
    method RemoveByKeyword(pass: Pass)
      requires pass != NavigationItems
      modifies this
      ensures elements == Keep(old(elements), e => AnyHit(pass, e, sectionsToRemove))
    {
      var keywords, start := sectionsToRemove, elements;
      KeepNoKeyword(start, pass, keywords);
      var i := 0;
      while i < |keywords|
        invariant 0 <= i <= |keywords|
        invariant elements == Keep(start, e => HitBefore(pass, e, keywords, i))
      {
        RemoveWhere(e => Hit(pass, e, keywords[i]));
        KeepOneMoreKeyword(start, pass, keywords, i);
        i := i + 1;
      }
      KeepEveryKeyword(start, pass, keywords);
    }

    method RemoveByExactText()
      modifies this
      ensures elements == ExactPass(old(elements), sectionsToRemove)
    {
      RemoveByKeyword(ExactText);
    }

    method RemoveByPartialText()
      modifies this
      ensures elements == PartialPass(old(elements), sectionsToRemove)
    {
      RemoveByKeyword(PartialText);
    }

    /** Element by element: removed as soon as one keyword occurs in its text. */
    method RemoveNavigationItems()
      modifies this
      ensures elements == NavigationPass(old(elements), sectionsToRemove)
    {
      var nav := e => AnyHit(NavigationItems, e, sectionsToRemove);
      var kept := [];
      var i := 0;
      while i < |elements|
        invariant 0 <= i <= |elements| && elements == old(elements)
        invariant kept == Keep(elements[..i], nav)
      {
        var e := elements[i];
        var removed := MentionsKeyword(e, sectionsToRemove);
        KeepStep(elements, i, nav);
        if !removed {
          kept := kept + [e];
        }
        i := i + 1;
      }
      assert elements[..i] == elements;
      elements := kept;
    }

    method EnsureOnlyDesiredSections()
      modifies this
      ensures elements == DesiredPass(old(elements), sectionsToRemove, sectionsToKeep)
    {
      RemoveWhere(e => Unwanted(e, sectionsToRemove, sectionsToKeep));
    }

    method CleanupEmptyContainers()
      modifies this
      ensures elements == CleanupPass(old(elements))
    {
      RemoveWhere(EmptyContainer);
    }

    /** The five passes in order; by PipelineCollapses this is the containment pass and the cleanup. */
    method RemoveSpecificSections()
      modifies this
      ensures elements == CleanupPass(NavigationPass(old(elements), sectionsToRemove))
    {
      RemoveByExactText();
      RemoveByPartialText();
      RemoveNavigationItems();
      EnsureOnlyDesiredSections();
      CleanupEmptyContainers();
      PipelineCollapses(old(elements), sectionsToRemove, sectionsToKeep);
    }
  }

  /** An element some keyword hits is removed by the containment pass. */
  lemma HitRemoved(e: NavElement, remove: seq<string>, i: nat)
    requires i < |remove| && Hit(NavigationItems, e, remove[i])
    ensures NavigationPass([e], remove) == []
  {
    assert AnyHit(NavigationItems, e, remove);
  }

  /** The keep list is not consulted by the containment pass: a label that mentions "shop" still goes. */
  lemma KeepListNotConsulted()
    ensures NavigationPass([Link("shop accessories")], SectionsToRemove) == []
    ensures MentionsAny(Lower("shop accessories"), SectionsToKeep)
  {
    ShopAccessoriesRemoved();
    ShopMentioned();
  }

  lemma ShopAccessoriesRemoved()
    ensures NavigationPass([Link("shop accessories")], SectionsToRemove) == []
  {
    AccessoriesHit();
    HitRemoved(Link("shop accessories"), SectionsToRemove, 6);
  }

  lemma ShopMentioned()
    ensures MentionsAny(Lower("shop accessories"), SectionsToKeep)
  {
    LowerIs("shop accessories", "shop accessories");
    LowerIs("shop", "shop");
    OccursAtContains("shop accessories", "shop", 0);
    assert Contains(Lower("shop accessories"), Lower(SectionsToKeep[1]));
  }

  lemma AccessoriesHit()
    ensures Hit(NavigationItems, Link("shop accessories"), SectionsToRemove[6])
  {
    LowerIs("shop accessories", "shop accessories");
    LowerIs("accessories", "accessories");
    OccursAtContains("shop accessories", "accessories", 5);
  }

  function Link(text: string): NavElement
  {
    NavElement(text, true, false, false, 0)
  }

  /** A text shorter than every removal keyword contains none of them. */
  lemma NoRemovalKeywordIn(t: string)
    requires |t| < 7
    ensures forall i :: 0 <= i < |SectionsToRemove| ==> !Contains(t, Lower(SectionsToRemove[i]))
  {
    RemovalKeywordsLowercase();
    forall i | 0 <= i < |SectionsToRemove| ensures !Contains(t, Lower(SectionsToRemove[i])) {
      var p := SectionsToRemove[i];
      assert |p| >= 7;
      ContainsIff(t, p);
    }
  }

  /** A label no keyword hits survives the containment pass. */
  lemma MissSurvives(e: NavElement, remove: seq<string>)
    requires forall i :: 0 <= i < |remove| ==> !Contains(Lower(e.text), Lower(remove[i]))
    ensures NavigationPass([e], remove) == [e]
  {
  }

  /** The containment pass takes each element on its own. */
  lemma NavigationPassFour(a: NavElement, b: NavElement, c: NavElement, d: NavElement, remove: seq<string>)
    ensures NavigationPass([a, b, c, d], remove)
      == NavigationPass([a], remove) + NavigationPass([b], remove) + NavigationPass([c], remove) + NavigationPass([d], remove)
  {
    var nav := e => AnyHit(NavigationItems, e, remove);
    assert [a, b, c, d] == [a] + [b] + [c] + [d];
    KeepAppend([a] + [b] + [c], [d], nav);
    KeepAppend([a] + [b], [c], nav);
    KeepAppend([a], [b], nav);
  }

  /** The cleanup pass leaves alone a list without navigation items. */
  lemma CleanupKeepsLinks(xs: seq<NavElement>)
    requires forall i :: 0 <= i < |xs| ==> !xs[i].navItem
    ensures CleanupPass(xs) == xs
  {
    KeepNone(xs, EmptyContainer);
  }

  /** A label shorter than every removal keyword survives the containment pass. */
  lemma ShortLabelSurvives(caption: string)
    requires |caption| < 7
    ensures NavigationPass([Link(caption)], SectionsToRemove) == [Link(caption)]
  {
    NoRemovalKeywordIn(Lower(caption));
    MissSurvives(Link(caption), SectionsToRemove);
  }

  /** With the built-in lists, of the labels Shop, AirPods, Pad and Home only AirPods goes, and the rest keep their order. */
  lemma BuiltInListsExample()
    ensures NavigationPass([Link("Shop"), Link("AirPods"), Link("Pad"), Link("Home")], SectionsToRemove)
      == [Link("Shop"), Link("Pad"), Link("Home")]
  {
    NavigationPassFour(Link("Shop"), Link("AirPods"), Link("Pad"), Link("Home"), SectionsToRemove);
    ShortLabelSurvives("Shop");
    ShortLabelSurvives("Pad");
    ShortLabelSurvives("Home");
    AirPodsRemoved();
  }

  lemma AirPodsRemoved()
    ensures NavigationPass([Link("AirPods")], SectionsToRemove) == []
  {
    AirPodsHit();
    HitRemoved(Link("AirPods"), SectionsToRemove, 0);
  }

  lemma AirPodsHit()
    ensures Hit(NavigationItems, Link("AirPods"), SectionsToRemove[0])
  {
    LowerIs("AirPods", "airpods");
    LowerIs("airpods", "airpods");
    OccursAtContains("airpods", "airpods", 0);
  }

  /** The characters of s that `drop` does not select, in order (a global regular-expression replace by ''). */
  function DropChars(s: string, drop: char -> bool): (r: string)
    ensures |r| <= |s|
    ensures forall i :: 0 <= i < |r| ==> !drop(r[i])
    ensures forall c :: c in r ==> c in s
  {
    if s == [] then [] else (if drop(s[0]) then [] else [s[0]]) + DropChars(s[1..], drop)
  }

  /** Dropping characters distributes over concatenation. */
  lemma {:induction false} DropAppend(s: string, t: string, drop: char -> bool)
    ensures DropChars(s + t, drop) == DropChars(s, drop) + DropChars(t, drop)
    decreases |s|
  {
    if s == [] {
      assert s + t == t;
    } else {
      assert (s + t)[1..] == s[1..] + t;
      DropAppend(s[1..], t, drop);
    }
  }

  /** A string with nothing to drop is left as it is. */
  lemma {:induction false} DropNone(s: string, drop: char -> bool)
    requires forall i :: 0 <= i < |s| ==> !drop(s[i])
    ensures DropChars(s, drop) == s
    decreases |s|
  {
    if s != [] {
      DropNone(s[1..], drop);
      assert s == [s[0]] + s[1..];
    }
  }

  predicate IsAmpersand(c: char)
  {
    c == '&'
  }

  /** The name without its whitespace and ampersands. */
  function Bare(name: string): (r: string)
    ensures forall i :: 0 <= i < |r| ==> !IsWhitespace(r[i]) && !IsAmpersand(r[i])
  {
    var spaceless := DropChars(name, IsWhitespace);
    assert forall c :: c in spaceless ==> !IsWhitespace(c);
    DropChars(spaceless, IsAmpersand)
  }

  /** `sectionName.replace(/\s+/g, '').replace(/&/g, '').toLowerCase()`. */
  function SectionKey(name: string): (r: string)
    ensures forall i :: 0 <= i < |r| ==> !IsWhitespace(r[i]) && r[i] != '&'
  {
    Lower(Bare(name))
  }

  /** The pattern table of isTargetSection. */
  const TargetPatterns: map<string, seq<string>> := map[
    "airpods" := ["airpods", "air pods", "wireless", "earbuds"],
    "tv & home" := ["tv & home", "tv and home", "homepod", "apple tv", "tv-home"],
    "entertainment" := ["entertainment", "apple music", "apple tv+", "apple arcade", "apple news+"],
    "accessories" := ["accessories", "magic mouse", "magic keyboard", "airtag", "cable"],
    "support" := ["support", "help", "genius bar", "applecare", "repair"]
  ]

  /**
   * The patterns for the section's key, which start with the key itself, or
   * the section name alone when the key has no entry: never empty.
   */
  function RelevantPatterns(name: string): (r: seq<string>)
    ensures r != []
    ensures SectionKey(name) in TargetPatterns ==> r == TargetPatterns[SectionKey(name)] && r[0] == SectionKey(name)
    ensures SectionKey(name) !in TargetPatterns ==> r == [name]
  {
    var key := SectionKey(name);
    if key in TargetPatterns then TargetPatterns[key] else [name]
  }

  /** A name whose key has no entry is searched for as written, lowercased. */
  predicate IsTargetSection(text: string, name: string)
    ensures SectionKey(name) !in TargetPatterns ==> (IsTargetSection(text, name) <==> Contains(Lower(text), Lower(name)))
  {
    var patterns := RelevantPatterns(name);
    assert SectionKey(name) !in TargetPatterns ==> patterns[0] == name;
    exists i :: 0 <= i < |patterns| && Contains(Lower(text), Lower(patterns[i]))
  }

  /** A key never holds a space, so the "tv & home" entry can never be looked up. */
  lemma TvHomeEntryUnreachable(name: string)
    ensures SectionKey(name) != "tv & home"
  {
    var key := SectionKey(name);
    if |key| > 2 {
      assert key[2] != ' ';
    }
  }

  /** Whitespace and ampersands anywhere in a section name do not change its key. */
  lemma KeyIgnoresSeparators(a: string, w: string, b: string)
    requires forall i :: 0 <= i < |w| ==> IsWhitespace(w[i]) || w[i] == '&'
    ensures SectionKey(a + w + b) == SectionKey(a + b)
  {
    BareIgnoresSeparators(a, w, b);
  }

  lemma BareIgnoresSeparators(a: string, w: string, b: string)
    requires forall i :: 0 <= i < |w| ==> IsWhitespace(w[i]) || w[i] == '&'
    ensures Bare(a + w + b) == Bare(a + b)
  {
    var sa, sw, sb := DropChars(a, IsWhitespace), DropChars(w, IsWhitespace), DropChars(b, IsWhitespace);
    var xa, xb := DropChars(sa, IsAmpersand), DropChars(sb, IsAmpersand);
    calc {
      Bare(a + w + b);
      DropChars(DropChars(a + w + b, IsWhitespace), IsAmpersand);
      { DropThree(a, w, b, IsWhitespace); }
      DropChars(sa + sw + sb, IsAmpersand);
      { DropThree(sa, sw, sb, IsAmpersand); SeparatorsVanish(w); }
      xa + [] + xb;
      { assert xa + [] + xb == xa + xb; }
      xa + xb;
      { DropAppend(sa, sb, IsAmpersand); }
      DropChars(sa + sb, IsAmpersand);
      { DropAppend(a, b, IsWhitespace); }
      Bare(a + b);
    }
  }

  lemma DropThree(a: string, w: string, b: string, drop: char -> bool)
    ensures DropChars(a + w + b, drop) == DropChars(a, drop) + DropChars(w, drop) + DropChars(b, drop)
  {
    DropAppend(a + w, b, drop);
    DropAppend(a, w, drop);
  }

  /** A run of whitespace and ampersands leaves nothing behind. */
  lemma SeparatorsVanish(w: string)
    requires forall i :: 0 <= i < |w| ==> IsWhitespace(w[i]) || w[i] == '&'
    ensures DropChars(DropChars(w, IsWhitespace), IsAmpersand) == []
  {
    DropAllSelected(w, IsWhitespace, IsAmpersand);
  }

  /** What one pass keeps, a second pass drops, when every character is selected by one of them. */
  lemma {:induction false} DropAllSelected(w: string, first: char -> bool, second: char -> bool)
    requires forall i :: 0 <= i < |w| ==> first(w[i]) || second(w[i])
    ensures DropChars(DropChars(w, first), second) == []
    decreases |w|
  {
    if w != [] {
      DropAllSelected(w[1..], first, second);
      var rest := DropChars(w[1..], first);
      if first(w[0]) {
        assert DropChars(w, first) == rest;
      } else {
        assert DropChars(w, first) == [w[0]] + rest;
        DropAppend([w[0]], rest, second);
        assert DropChars([w[0]], second) == [];
      }
    }
  }

  /**
   * Without its space and ampersand, "tv & home" becomes the key "tvhome",
   * which has no entry either, so the name is searched for alone.
   */
  lemma TvHomeKeyUnlisted()
    ensures SectionKey("tv & home") == "tvhome" && "tvhome" !in TargetPatterns
    ensures RelevantPatterns("tv & home") == ["tv & home"]
  {
    TvHomeKey();
  }

  lemma TvHomeKey()
    ensures SectionKey("tv & home") == "tvhome"
  {
    LowercaseLetters("tv", "home");
    KeyOfJoined("tv", " & ", "home");
    assert "tv" + " & " + "home" == "tv & home";
    assert "tv" + "home" == "tvhome";
  }

  /** The space in "air pods" goes, so its key finds the "airpods" entry. */
  lemma AirPodsKeyListed()
    ensures SectionKey("air pods") == "airpods"
    ensures RelevantPatterns("air pods") == TargetPatterns["airpods"]
  {
    AirPodsKey();
  }

  lemma AirPodsKey()
    ensures SectionKey("air pods") == "airpods"
  {
    LowercaseLetters("air", "pods");
    KeyOfJoined("air", " ", "pods");
    assert "air" + " " + "pods" == "air pods";
    assert "air" + "pods" == "airpods";
  }

  /** Only lowercase ASCII letters. */
  predicate LettersOnly(s: string)
  {
    forall i :: 0 <= i < |s| ==> 'a' <= s[i] <= 'z'
  }

  /** Joining two words of lowercase letters gives a word of lowercase letters. */
  lemma LowercaseLetters(a: string, b: string)
    requires LettersOnly(a) && LettersOnly(b)
    ensures LettersOnly(a + b)
  {
  }

  /** Words of lowercase ASCII letters with separators between them have the joined words as their key. */
  lemma KeyOfJoined(a: string, w: string, b: string)
    requires LettersOnly(a + b)
    requires forall i :: 0 <= i < |w| ==> IsWhitespace(w[i]) || w[i] == '&'
    ensures SectionKey(a + w + b) == a + b
  {
    KeyIgnoresSeparators(a, w, b);
    var s := a + b;
    DropNone(s, IsWhitespace);
    DropNone(s, IsAmpersand);
    LowerIs(s, s);
  }
}
