/**
 * The store page's bag (AppleStore in store.js): the bag and its total as
 * fields, the bag badge it renders, and persistence under its own storage
 * key.
 */
module Store {
  import opened Wrappers
  import opened Cart

  /** The storage key the store page saves its bag under. */
  const StoreKey: string := "appleStoreCart"

  /** The product-name table of getProductName. */
  const ProductNames: map<string, string> := map[
    "phone-15-pro" := "Phone 15 Pro",
    "desktopbook-air-m3" := "DesktopBook Air M3",
    "pad-pro" := "Pad Pro",
    "magic-mouse" := "Magic Mouse",
    "magic-keyboard" := "Magic Keyboard",
    "airtag" := "AirTag",
    "lightning-cable" := "Lightning to USB-C Cable"
  ]

  /** `productNames[productId] || productId`: an empty entry would fall back to the id too. */
  function ProductName(id: string): (r: string)
    ensures id in ProductNames ==> r == ProductNames[id]
    ensures id !in ProductNames ==> r == id
  {
    match if id in ProductNames then Some(ProductNames[id]) else None
    case Some(name) => if name != "" then name else id
    case None => id
  }

  /** What checkout reports: nothing for an empty bag, else the alert's total and lines. */
  datatype CheckoutOutcome = EmptyBag | Completed(total: int, items: seq<LineItem>)

  class AppleStore {
    var cart: seq<LineItem>
    var cartTotal: int
    /** The #bag-count element: the number it shows and whether it is displayed. */
    var bagCount: int
    var bagShown: bool
    const storage: LocalStorage

    /** The derived fields agree with the bag. */
    predicate InSync()
      reads this
    {
      cartTotal == Total(cart) && bagCount == Quantities(cart) && bagShown == (Quantities(cart) > 0)
    }

    /** Starts empty, renders, then restores a saved bag if there is one. */
    constructor (storage: LocalStorage)
      ensures this.storage == storage
      ensures cart == SlotOrEmpty(storage.slots, StoreKey)
      ensures InSync()
    {
      this.storage := storage;
      cart := [];
      cartTotal := 0;
      bagCount := 0;
      bagShown := false;
      new;
      LoadCartFromStorage();
    }

    method AddToCart(productId: string, price: int)
      modifies this, storage
      ensures cart == Merge(old(cart), productId, ProductName(productId), price)
      ensures WellFormed(old(cart)) ==> WellFormed(cart)
      ensures InSync()
      ensures storage.slots == old(storage.slots)[StoreKey := cart]
    {
      if WellFormed(cart) {
        MergeWellFormed(cart, productId, ProductName(productId), price);
      }
      AddLine(productId, price);
      UpdateCartTotal();
      UpdateCartDisplay();
      SaveCartToStorage();
    }

    /** The find-then-update step of addToCart: one more of a listed product, else a new line of one. */
    method AddLine(productId: string, price: int)
      modifies this`cart
      ensures cart == Merge(old(cart), productId, ProductName(productId), price)
    {
      var found := FindItem(cart, productId);
      match found {
        case Some(k) =>
          cart := cart[k := cart[k].(quantity := cart[k].quantity + 1)];
        case None =>
          cart := cart + [LineItem(productId, ProductName(productId), price, 1)];
      }
    }

    method RemoveFromCart(productId: string)
      modifies this, storage
      ensures cart == RemoveId(old(cart), productId)
      ensures WellFormed(old(cart)) ==> WellFormed(cart)
      ensures InSync()
      ensures storage.slots == old(storage.slots)[StoreKey := cart]
    {
      if WellFormed(cart) {
        RemoveWellFormed(cart, productId);
      }
      cart := RemoveId(cart, productId);
      UpdateCartTotal();
      UpdateCartDisplay();
      SaveCartToStorage();
    }

    method UpdateCartTotal()
      modifies this`cartTotal
      ensures cartTotal == Total(cart)
    {
      cartTotal := Total(cart);
    }

    /** Only the badge is modelled; the item list markup and the formatted total are not. */
    method UpdateCartDisplay()
      modifies this`bagCount, this`bagShown
      ensures bagCount == Quantities(cart) && bagShown == (bagCount > 0)
    {
      bagCount := Quantities(cart);
      bagShown := bagCount > 0;
    }

    method SaveCartToStorage()
      modifies storage
      ensures storage.slots == old(storage.slots)[StoreKey := cart]
    {
      storage.SetItem(StoreKey, cart);
    }

    /** A saved bag replaces the current one; with nothing saved the bag is left alone. */
    method LoadCartFromStorage()
      modifies this`cart, this`cartTotal, this`bagCount, this`bagShown
      ensures StoreKey in storage.slots ==> cart == storage.slots[StoreKey] && InSync()
      ensures StoreKey !in storage.slots ==>
        cart == old(cart) && cartTotal == old(cartTotal)
        && bagCount == old(bagCount) && bagShown == old(bagShown)
    {
      var saved := storage.GetItem(StoreKey);
      if saved.Some? {
        cart := saved.value;
        UpdateCartTotal();
        UpdateCartDisplay();
      }
    }

    /**
     * An empty bag only gets a notification. Otherwise the delayed step
     * (taken here synchronously) reports the total and lines, empties the bag,
     * re-renders the badge and saves the empty bag; the total is not
     * recomputed and keeps its old value.
     */
    method Checkout() returns (outcome: CheckoutOutcome)
      modifies this, storage
      ensures old(cart) == [] ==>
        outcome == EmptyBag && cart == [] && cartTotal == old(cartTotal)
        && bagCount == old(bagCount) && bagShown == old(bagShown)
        && storage.slots == old(storage.slots)
      ensures old(cart) != [] ==>
        outcome == Completed(old(cartTotal), old(cart)) && cart == []
        && cartTotal == old(cartTotal) && bagCount == 0 && !bagShown
        && storage.slots == old(storage.slots)[StoreKey := []]
    {
      if |cart| == 0 {
        return EmptyBag;
      }
      outcome := Completed(cartTotal, cart);
      cart := [];
      UpdateCartDisplay();
      SaveCartToStorage();
    }
  }

  /** Saving then loading restores the same bag, so the loaded store is in sync with it. */
  method SaveThenLoad(store: AppleStore)
    modifies store, store.storage
    ensures store.cart == old(store.cart) && store.InSync()
    ensures store.storage.slots == old(store.storage.slots)[StoreKey := old(store.cart)]
  {
    store.SaveCartToStorage();
    store.LoadCartFromStorage();
  }
}
