/**
 * The phone page (IPhonePage in phone.js): its own copy of the bag logic,
 * kept entirely in storage under the shared key, with a badge that counts
 * lines rather than units.
 */
module Phone {
  import opened Wrappers
  import opened Cart
  import opened Links

  class IPhonePage {
    const storage: LocalStorage
    const links: NavLinkList
    /** Whether the page has a #bag-icon element. */
    const hasBagIcon: bool
    /** Whether the page has a #bag-count element. */
    const hasBagCount: bool
    /** The number the #bag-count element shows. */
    var bagCount: int

    /**
     * setupShoppingBag: when both the icon and the badge are on the page,
     * the badge is loaded from storage; otherwise it keeps the number the
     * markup gave it.
     */
    constructor (storage: LocalStorage, links: NavLinkList, hasBagIcon: bool, hasBagCount: bool, badge: int)
      ensures this.storage == storage && this.links == links
      ensures this.hasBagIcon == hasBagIcon && this.hasBagCount == hasBagCount
      ensures hasBagIcon && hasBagCount ==> bagCount == |SlotOrEmpty(storage.slots, ShoppingCartKey)|
      ensures !(hasBagIcon && hasBagCount) ==> bagCount == badge
    {
      this.storage := storage;
      this.links := links;
      this.hasBagIcon := hasBagIcon;
      this.hasBagCount := hasBagCount;
      bagCount := badge;
      new;
      if hasBagIcon && hasBagCount {
        UpdateCartCount();
      }
    }

    /**
     * With a #bag-count element, the badge shows the number of lines saved
     * under the shared key, 0 when nothing is saved; without one, nothing
     * changes.
     */
    method UpdateCartCount()
      modifies this`bagCount
      ensures hasBagCount ==> bagCount == |SlotOrEmpty(storage.slots, ShoppingCartKey)|
      ensures !hasBagCount ==> bagCount == old(bagCount)
    {
      if hasBagCount {
        var saved := storage.GetItem(ShoppingCartKey);
        var items := if saved.Some? then saved.value else [];
        bagCount := |items|;
      }
    }

    /**
     * Reads the saved bag (empty when missing), bumps a known id (ignoring the
     * given name and price) or appends a new line, writes the bag back and
     * refreshes the badge when the page has one.
     */
    method AddToCart(productId: string, productName: string, price: int)
      modifies this`bagCount, storage
      ensures storage.slots == old(storage.slots)[ShoppingCartKey :=
        Merge(SlotOrEmpty(old(storage.slots), ShoppingCartKey), productId, productName, price)]
      ensures hasBagCount ==> bagCount == |storage.slots[ShoppingCartKey]|
      ensures hasBagCount ==> var before := SlotOrEmpty(old(storage.slots), ShoppingCartKey);
        bagCount == |before| + (if IndexOfId(before, productId).Some? then 0 else 1)
      ensures !hasBagCount ==> bagCount == old(bagCount)
    {
      var saved := storage.GetItem(ShoppingCartKey);
      var items := if saved.Some? then saved.value else [];
      MergeLineCount(items, productId, productName, price);
      var found := FindItem(items, productId);
      match found {
        case Some(k) =>
          items := items[k := items[k].(quantity := items[k].quantity + 1)];
        case None =>
          items := items + [LineItem(productId, productName, price, 1)];
      }
      storage.SetItem(ShoppingCartKey, items);
      UpdateCartCount();
    }
  }
}
