/**
 * The main navigation (MainNavigation in main-nav.js): the badge read from
 * the shared storage key and the rewrite of store links to the store page.
 */
module MainNav {
  import opened Wrappers
  import opened Text
  import opened Cart
  import opened Links

  /**
   * The rewrite applied to a link whose href mentions "store": it is pointed
   * at store.html unless it already mentions store.html.
   */
  function RewriteStoreHref(href: string): (r: string)
    ensures Contains(href, "store") ==> Contains(r, "store.html")
    ensures !Contains(href, "store") || Contains(href, "store.html") ==> r == href
    ensures Contains(href, "store") && !Contains(href, "store.html") ==> r == "store.html"
  {
    if Contains(href, "store") && !Contains(href, "store.html") then
      StoreHtmlMentionsItself();
      "store.html"
    else href
  }

  lemma StoreHtmlMentionsItself()
    ensures Contains("store.html", "store.html") && Contains("store.html", "store")
  {
  }

  function RewriteStoreLinks(hrefs: seq<string>): (r: seq<string>)
    ensures |r| == |hrefs|
    ensures forall i :: 0 <= i < |hrefs| ==> r[i] == RewriteStoreHref(hrefs[i])
  {
    if hrefs == [] then [] else [RewriteStoreHref(hrefs[0])] + RewriteStoreLinks(hrefs[1..])
  }

  /** Rewriting the links a second time changes nothing. */
  lemma RewriteStoreLinksIdempotent(hrefs: seq<string>)
    ensures RewriteStoreLinks(RewriteStoreLinks(hrefs)) == RewriteStoreLinks(hrefs)
  {
    var once := RewriteStoreLinks(hrefs);
    forall i | 0 <= i < |hrefs| ensures RewriteStoreHref(once[i]) == once[i] {
      if Contains(hrefs[i], "store") {
        assert Contains(once[i], "store.html");
        ContainsWithinContains(once[i], "store.html", "store");
      }
    }
  }

  /** A string that contains "store.html" contains "store". */
  lemma ContainsWithinContains(s: string, outer: string, inner: string)
    requires outer == "store.html" && inner == "store"
    requires Contains(s, outer)
    ensures Contains(s, inner)
  {
    ContainsIff(s, outer);
    var k: nat :| OccursAt(s, outer, k);
    OccursAtIff(s, outer, k);
    OccursAtIff(s, inner, k);
    assert s[k..k + |inner|] == s[k..k + |outer|][..|inner|];
    ContainsIff(s, inner);
  }

  class MainNavigation {
    const storage: LocalStorage
    const links: NavLinkList
    /** Whether the page has a #bag-icon element. */
    const hasBagIcon: bool
    /** Whether the page has a #bag-count element. */
    const hasBagCount: bool
    /** The number the #bag-count element shows. */
    var bagCount: int
    /** The hrefs of the page's anchors, in document order. */
    var hrefs: seq<string>

    /** The badge starts at the number the markup gives it and is then set up. */
    constructor (storage: LocalStorage, links: NavLinkList, hrefs: seq<string>,
                 hasBagIcon: bool, hasBagCount: bool, badge: int)
      ensures this.storage == storage && this.links == links && this.hrefs == hrefs
      ensures this.hasBagIcon == hasBagIcon && this.hasBagCount == hasBagCount
      ensures hasBagIcon && hasBagCount ==> bagCount == |SlotOrEmpty(storage.slots, ShoppingCartKey)|
      ensures !(hasBagIcon && hasBagCount) ==> bagCount == badge
    {
      this.storage := storage;
      this.links := links;
      this.hrefs := hrefs;
      this.hasBagIcon := hasBagIcon;
      this.hasBagCount := hasBagCount;
      bagCount := badge;
      new;
      SetupShoppingBag();
    }

    /**
     * When both the icon and the badge are on the page, the badge shows the
     * number of lines saved under the shared key, 0 when nothing is saved;
     * when either is missing, nothing changes.
     */
    method SetupShoppingBag()
      modifies this`bagCount
      ensures hasBagIcon && hasBagCount ==> bagCount == |SlotOrEmpty(storage.slots, ShoppingCartKey)|
      ensures !(hasBagIcon && hasBagCount) ==> bagCount == old(bagCount)
    {
      if hasBagIcon && hasBagCount {
        var saved := storage.GetItem(ShoppingCartKey);
        var items := if saved.Some? then saved.value else [];
        bagCount := |items|;
      }
    }

    method UpdateStoreLinkInNavigation()
      modifies this`hrefs
      ensures hrefs == RewriteStoreLinks(old(hrefs))
    {
      var i := 0;
      while i < |hrefs|
        invariant 0 <= i <= |hrefs| == |old(hrefs)|
        invariant forall j :: 0 <= j < i ==> hrefs[j] == RewriteStoreHref(old(hrefs)[j])
        invariant forall j :: i <= j < |hrefs| ==> hrefs[j] == old(hrefs)[j]
      {
        if Contains(hrefs[i], "store") && !Contains(hrefs[i], "store.html") {
          hrefs := hrefs[i := "store.html"];
        }
        i := i + 1;
      }
    }
  }
}
