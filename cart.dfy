/**
 * The shopping bag shared by the store page and the phone page: an ordered
 * list of line items keyed by product id, the add/merge and remove
 * operations on it, the derived total and badge counts, and the browser's
 * key-value storage the bag is persisted in.
 */
module Cart {
  import opened Wrappers

  /** One line of the bag. Prices are integer cents; nothing checks their sign. */
  datatype LineItem = LineItem(id: string, name: string, price: int, quantity: int)

  /** Ids are unique and every quantity is at least 1. */
  predicate WellFormed(items: seq<LineItem>)
  {
    && (forall i, j :: 0 <= i < j < |items| ==> items[i].id != items[j].id)
    && (forall i :: 0 <= i < |items| ==> items[i].quantity >= 1)
  }

  /** `items.find(item => item.id === id)`, as a position. */
  function IndexOfId(items: seq<LineItem>, id: string): (r: Option<nat>)
    ensures r.None? <==> forall j :: 0 <= j < |items| ==> items[j].id != id
    ensures r.Some? ==> r.value < |items| && items[r.value].id == id
    ensures r.Some? ==> forall j :: 0 <= j < r.value ==> items[j].id != id
  {
    if items == [] then None
    else if items[0].id == id then Some(0)
    else match IndexOfId(items[1..], id)
      case None => None
      case Some(k) => Some(k + 1)
  }

  /** The loop behind `find`: scans the bag front to back for the first item with this id. */
  method FindItem(items: seq<LineItem>, id: string) returns (r: Option<nat>)
    ensures r == IndexOfId(items, id)
  {
    var i := 0;
    while i < |items|
      invariant 0 <= i <= |items|
      invariant forall j :: 0 <= j < i ==> items[j].id != id
    {
      if items[i].id == id {
        return Some(i);
      }
      i := i + 1;
    }
    return None;
  }

  /**
   * Adding a product: an id already in the bag gets one more unit and keeps
   * its name and price; a new id is appended with quantity 1.
   */
  function Merge(items: seq<LineItem>, id: string, name: string, price: int): (r: seq<LineItem>)
    ensures IndexOfId(items, id).Some? ==>
      var k := IndexOfId(items, id).value;
      && |r| == |items|
      && r[k].id == items[k].id && r[k].name == items[k].name && r[k].price == items[k].price
      && r[k].quantity == items[k].quantity + 1
      && forall j :: 0 <= j < |items| && j != k ==> r[j] == items[j]
    ensures IndexOfId(items, id).None? ==>
      |r| == |items| + 1 && r[..|items|] == items && r[|items|] == LineItem(id, name, price, 1)
  {
    match IndexOfId(items, id)
    case Some(k) => items[k := items[k].(quantity := items[k].quantity + 1)]
    case None => items + [LineItem(id, name, price, 1)]
  }

  /** `items.filter(item => item.id !== id)`. */
  function RemoveId(items: seq<LineItem>, id: string): (r: seq<LineItem>)
    ensures |r| <= |items|
    ensures forall i :: 0 <= i < |r| ==> r[i].id != id && r[i] in items
  {
    if items == [] then []
    else if items[0].id == id then RemoveId(items[1..], id)
    else [items[0]] + RemoveId(items[1..], id)
  }

  function Subtotal(item: LineItem): int
  {
    item.price * item.quantity
  }

  /** The `reduce` in updateCartTotal: a left fold of price × quantity. */
  function Total(items: seq<LineItem>): int
  {
    if items == [] then 0 else Total(items[..|items| - 1]) + Subtotal(items[|items| - 1])
  }

  /** A bag with no negative price and no negative quantity has a total of at least zero. */
  lemma {:induction false} TotalNonnegative(items: seq<LineItem>)
    requires forall i :: 0 <= i < |items| ==> items[i].price >= 0 && items[i].quantity >= 0
    ensures Total(items) >= 0
    decreases |items|
  {
    if items != [] {
      var last := items[|items| - 1];
      assert last.price >= 0 && last.quantity >= 0;
      TotalNonnegative(items[..|items| - 1]);
    }
  }

  /** The `reduce` behind the store page's bag badge: a left fold of quantities. */
  function Quantities(items: seq<LineItem>): int
  {
    if items == [] then 0 else Quantities(items[..|items| - 1]) + items[|items| - 1].quantity
  }

  /** Adding one line item's quantity at a time never takes a bag without negative quantities below zero. */
  lemma {:induction false} QuantitiesNonnegative(items: seq<LineItem>)
    requires forall i :: 0 <= i < |items| ==> items[i].quantity >= 0
    ensures Quantities(items) >= 0
    decreases |items|
  {
    if items != [] {
      QuantitiesNonnegative(items[..|items| - 1]);
    }
  }

  lemma {:induction false} TotalAppend(a: seq<LineItem>, b: seq<LineItem>)
    ensures Total(a + b) == Total(a) + Total(b)
    decreases |b|
  {
    if b == [] {
      assert a + b == a;
    } else {
      var b' := b[..|b| - 1];
      assert (a + b)[..|a + b| - 1] == a + b';
      TotalAppend(a, b');
    }
  }

  lemma {:induction false} QuantitiesAppend(a: seq<LineItem>, b: seq<LineItem>)
    ensures Quantities(a + b) == Quantities(a) + Quantities(b)
    decreases |b|
  {
    if b == [] {
      assert a + b == a;
    } else {
      var b' := b[..|b| - 1];
      assert (a + b)[..|a + b| - 1] == a + b';
      QuantitiesAppend(a, b');
    }
  }

  lemma SingleItem(x: LineItem)
    ensures Total([x]) == Subtotal(x) && Quantities([x]) == x.quantity
  {
    assert [x][..0] == [];
  }

  /** Splitting the bag around position k. */
  lemma Around(items: seq<LineItem>, k: nat)
    requires k < |items|
    ensures Total(items) == Total(items[..k]) + Subtotal(items[k]) + Total(items[k + 1..])
    ensures Quantities(items) == Quantities(items[..k]) + items[k].quantity + Quantities(items[k + 1..])
  {
    TotalAround(items, k);
    QuantitiesAround(items, k);
  }

  lemma TotalAround(items: seq<LineItem>, k: nat)
    requires k < |items|
    ensures Total(items) == Total(items[..k]) + Subtotal(items[k]) + Total(items[k + 1..])
  {
    var before, x, after := items[..k], items[k], items[k + 1..];
    assert items == before + [x] + after;
    TotalAppend(before + [x], after);
    TotalAppend(before, [x]);
    SingleItem(x);
  }

  lemma QuantitiesAround(items: seq<LineItem>, k: nat)
    requires k < |items|
    ensures Quantities(items) == Quantities(items[..k]) + items[k].quantity + Quantities(items[k + 1..])
  {
    var before, x, after := items[..k], items[k], items[k + 1..];
    assert items == before + [x] + after;
    QuantitiesAppend(before + [x], after);
    QuantitiesAppend(before, [x]);
    SingleItem(x);
  }

  /**
   * After an add the total grows by one unit price: the stored price of the
   * line that was bumped, or the given price of the new line. The badge sum
   * grows by exactly 1.
   */
  lemma MergeTotals(items: seq<LineItem>, id: string, name: string, price: int)
    ensures Total(Merge(items, id, name, price)) == Total(items) +
      (match IndexOfId(items, id) case Some(k) => items[k].price case None => price)
    ensures Quantities(Merge(items, id, name, price)) == Quantities(items) + 1
  {
    var r := Merge(items, id, name, price);
    match IndexOfId(items, id)
    case Some(k) =>
      Around(items, k);
      Around(r, k);
      assert r[..k] == items[..k];
      assert r[k + 1..] == items[k + 1..];
      assert Subtotal(r[k]) == Subtotal(items[k]) + items[k].price;
    case None =>
      assert r == items + [LineItem(id, name, price, 1)];
      TotalAppend(items, [LineItem(id, name, price, 1)]);
      QuantitiesAppend(items, [LineItem(id, name, price, 1)]);
      SingleItem(LineItem(id, name, price, 1));
  }

  /** The line count grows by one for a new id and stays put for a known one. */
  lemma MergeLineCount(items: seq<LineItem>, id: string, name: string, price: int)
    ensures |Merge(items, id, name, price)| == |items| + (if IndexOfId(items, id).Some? then 0 else 1)
  {
  }

  lemma MergeWellFormed(items: seq<LineItem>, id: string, name: string, price: int)
    requires WellFormed(items)
    ensures WellFormed(Merge(items, id, name, price))
  {
    var r := Merge(items, id, name, price);
    if IndexOfId(items, id).None? {
      forall i, j | 0 <= i < j < |r| ensures r[i].id != r[j].id {
        if j < |items| {
          assert r[i] == items[i] && r[j] == items[j];
        } else {
          assert r[i] == items[i];
        }
      }
    }
  }

  /** The lines left are exactly the lines with another id. */
  lemma {:induction false} RemoveIdMembers(items: seq<LineItem>, id: string)
    ensures forall x :: x in RemoveId(items, id) <==> x in items && x.id != id
  {
    if items != [] {
      RemoveIdMembers(items[1..], id);
      assert items == [items[0]] + items[1..];
    }
  }

  /** Removing an id keeps the other items in their order: it distributes over concatenation. */
  lemma {:induction false} RemoveIdAppend(a: seq<LineItem>, b: seq<LineItem>, id: string)
    ensures RemoveId(a + b, id) == RemoveId(a, id) + RemoveId(b, id)
    decreases |a|
  {
    if a == [] {
      assert a + b == b;
    } else {
      assert (a + b)[1..] == a[1..] + b;
      RemoveIdAppend(a[1..], b, id);
    }
  }

  /** Removing an id that is not in the bag changes nothing. */
  lemma {:induction false} RemoveAbsent(items: seq<LineItem>, id: string)
    requires forall j :: 0 <= j < |items| ==> items[j].id != id
    ensures RemoveId(items, id) == items
  {
    if items != [] {
      RemoveAbsent(items[1..], id);
      assert items == [items[0]] + items[1..];
    }
  }

  /** In a well-formed bag, removing a present id cuts out exactly its one line. */
  lemma RemovePresent(items: seq<LineItem>, id: string, k: nat)
    requires WellFormed(items) && k < |items| && items[k].id == id
    ensures RemoveId(items, id) == items[..k] + items[k + 1..]
  {
    RemoveAround(items, id, k);
    OthersDiffer(items, k, items[..k], items[k + 1..]);
    RemoveAbsent(items[..k], id);
    RemoveAbsent(items[k + 1..], id);
  }

  /** Removal, cut around position k. */
  lemma RemoveAround(items: seq<LineItem>, id: string, k: nat)
    requires k < |items| && items[k].id == id
    ensures RemoveId(items, id) == RemoveId(items[..k], id) + RemoveId(items[k + 1..], id)
  {
    var before, x, after := items[..k], items[k], items[k + 1..];
    assert items == (before + [x]) + after;
    RemoveIdAppend(before + [x], after, id);
    RemoveIdAppend(before, [x], id);
    RemoveOnly(x, id);
  }

  lemma RemoveOnly(x: LineItem, id: string)
    requires x.id == id
    ensures RemoveId([x], id) == []
  {
    assert [x][1..] == [];
  }

  /** In a well-formed bag no other line carries the id of line k. */
  lemma OthersDiffer(items: seq<LineItem>, k: nat, before: seq<LineItem>, after: seq<LineItem>)
    requires WellFormed(items) && k < |items| && before == items[..k] && after == items[k + 1..]
    ensures forall j :: 0 <= j < |before| ==> before[j].id != items[k].id
    ensures forall j :: 0 <= j < |after| ==> after[j].id != items[k].id
  {
    forall j | 0 <= j < |before| ensures before[j].id != items[k].id {
      assert before[j] == items[j];
    }
    forall j | 0 <= j < |after| ensures after[j].id != items[k].id {
      assert after[j] == items[k + 1 + j];
    }
  }

  /** Removing a present id lowers the total by that line's subtotal. */
  lemma RemoveTotals(items: seq<LineItem>, id: string, k: nat)
    requires WellFormed(items) && k < |items| && items[k].id == id
    ensures Total(RemoveId(items, id)) == Total(items) - Subtotal(items[k])
    ensures Quantities(RemoveId(items, id)) == Quantities(items) - items[k].quantity
  {
    RemovePresent(items, id, k);
    Around(items, k);
    TotalAppend(items[..k], items[k + 1..]);
    QuantitiesAppend(items[..k], items[k + 1..]);
  }

  /** Removing keeps the order of what is left: a subsequence of a well-formed bag is well formed. */
  lemma {:induction false} RemoveWellFormed(items: seq<LineItem>, id: string)
    requires WellFormed(items)
    ensures WellFormed(RemoveId(items, id))
  {
    if items != [] {
      var tail := items[1..];
      TailWellFormed(items);
      RemoveWellFormed(tail, id);
      var rest := RemoveId(tail, id);
      if items[0].id != id {
        assert RemoveId(items, id) == [items[0]] + rest;
        ConsWellFormed(items[0], rest, tail);
      }
    }
  }

  /** The tail of a well-formed bag is well formed and does not repeat the head's id. */
  lemma TailWellFormed(items: seq<LineItem>)
    requires WellFormed(items) && items != []
    ensures WellFormed(items[1..])
    ensures forall j :: 0 <= j < |items[1..]| ==> items[1..][j].id != items[0].id
    ensures items[0].quantity >= 1
  {
    var tail := items[1..];
    forall i, j | 0 <= i < j < |tail| ensures tail[i].id != tail[j].id {
      assert tail[i] == items[i + 1] && tail[j] == items[j + 1];
    }
    forall i | 0 <= i < |tail| ensures tail[i].quantity >= 1 && tail[i].id != items[0].id {
      assert tail[i] == items[i + 1];
    }
  }

  /** A line in front of a well-formed bag drawn from lines without its id keeps the bag well formed. */
  lemma ConsWellFormed(x: LineItem, rest: seq<LineItem>, pool: seq<LineItem>)
    requires WellFormed(rest) && x.quantity >= 1
    requires forall i :: 0 <= i < |rest| ==> rest[i] in pool
    requires forall j :: 0 <= j < |pool| ==> pool[j].id != x.id
    ensures WellFormed([x] + rest)
  {
    var r := [x] + rest;
    forall i, j | 0 <= i < j < |r| ensures r[i].id != r[j].id {
      assert r[j] == rest[j - 1];
      if i > 0 {
        assert r[i] == rest[i - 1];
      }
    }
    forall i | 0 <= i < |r| ensures r[i].quantity >= 1 {
      if i > 0 {
        assert r[i] == rest[i - 1];
      }
    }
  }

  /** The bag operations a page can perform. */
  datatype CartOp = Add(id: string, name: string, price: int) | Remove(id: string)

  function Replay(items: seq<LineItem>, ops: seq<CartOp>): seq<LineItem>
    decreases |ops|
  {
    if ops == [] then items
    else
      var next := match ops[0]
        case Add(id, name, price) => Merge(items, id, name, price)
        case Remove(id) => RemoveId(items, id);
      Replay(next, ops[1..])
  }

  /** Across any sequence of adds and removes, ids stay unique and quantities stay positive. */
  lemma {:induction false} ReplayWellFormed(items: seq<LineItem>, ops: seq<CartOp>)
    requires WellFormed(items)
    ensures WellFormed(Replay(items, ops))
    decreases |ops|
  {
    if ops != [] {
      match ops[0]
      case Add(id, name, price) =>
        MergeWellFormed(items, id, name, price);
        ReplayWellFormed(Merge(items, id, name, price), ops[1..]);
      case Remove(id) =>
        RemoveWellFormed(items, id);
        ReplayWellFormed(RemoveId(items, id), ops[1..]);
    }
  }

  /** When every quantity is at least 1, the line count is at most the sum of quantities. */
  lemma {:induction false} LineCountAtMostQuantities(items: seq<LineItem>)
    requires forall i :: 0 <= i < |items| ==> items[i].quantity >= 1
    ensures |items| <= Quantities(items)
    ensures Quantities(items) == 0 <==> items == []
  {
    if items != [] {
      LineCountAtMostQuantities(items[..|items| - 1]);
    }
  }

  /** Adding one product twice and removing it leaves an empty bag with total 0 and count 0. */
  lemma AddTwiceThenRemove()
    ensures var twice := Merge(Merge([], "x1", "Widget", 1000), "x1", "Widget", 1000);
      && RemoveId(twice, "x1") == []
      && Total(RemoveId(twice, "x1")) == 0
      && Quantities(RemoveId(twice, "x1")) == 0
  {
    var once := Merge([], "x1", "Widget", 1000);
    assert once == [LineItem("x1", "Widget", 1000, 1)];
    var twice := Merge(once, "x1", "Widget", 1000);
    assert twice == [LineItem("x1", "Widget", 1000, 2)];
    assert RemoveId(twice, "x1") == RemoveId([], "x1");
  }

  /**
   * The two badges disagree once a product is added twice: the sum of
   * quantities is 2 while the number of lines is 1.
   */
  lemma BadgesDisagree()
    ensures var twice := Merge(Merge([], "x1", "Widget", 1000), "x1", "Widget", 1000);
      Quantities(twice) == 2 && |twice| == 1
  {
    var once := Merge([], "x1", "Widget", 1000);
    assert once == [LineItem("x1", "Widget", 1000, 1)];
    var twice := Merge(once, "x1", "Widget", 1000);
    assert twice == [LineItem("x1", "Widget", 1000, 2)];
    SingleItem(twice[0]);
  }

  /** `localStorage`: string keys holding a serialised bag. JSON encoding is lossless here. */
  class LocalStorage {
    var slots: map<string, seq<LineItem>>

    constructor (initial: map<string, seq<LineItem>>)
      ensures slots == initial
    {
      slots := initial;
    }

    method GetItem(key: string) returns (v: Option<seq<LineItem>>)
      ensures v == if key in slots then Some(slots[key]) else None
    {
      v := if key in slots then Some(slots[key]) else None;
    }

    method SetItem(key: string, value: seq<LineItem>)
      modifies this
      ensures slots == old(slots)[key := value]
    {
      slots := slots[key := value];
    }
  }

  /** The storage key the phone page and the main navigation read and write. */
  const ShoppingCartKey: string := "shoppingCart"

  /** `JSON.parse(localStorage.getItem(key) || '[]')`. */
  function SlotOrEmpty(slots: map<string, seq<LineItem>>, key: string): seq<LineItem>
  {
    if key in slots then slots[key] else []
  }
}
