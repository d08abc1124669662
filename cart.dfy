/** The shopping cart of src/store/cart.ts: a list of items that is locked to
    a single pharmacy. The browser's `window.confirm` answer is a parameter. */
module Cart {
  import opened Common

  datatype CartItem = CartItem(
    id: string,
    name: string,
    price: real,
    mrp: Option<real>,
    pharmacyId: string,
    pharmacyName: string,
    quantity: int,
    strength: Option<string>,
    manufacturer: Option<string>)

  /** What `addItem` receives: a cart item without its quantity. */
  datatype NewItem = NewItem(
    id: string,
    name: string,
    price: real,
    mrp: Option<real>,
    pharmacyId: string,
    pharmacyName: string,
    strength: Option<string>,
    manufacturer: Option<string>)

  /** The store's state: `items` and the pharmacy the cart is locked to. */
  datatype Cart = Cart(items: seq<CartItem>, pharmacyId: Option<string>)

  const Empty: Cart := Cart([], None)

  /** `{ ...item, quantity: 1 }` */
  function WithQuantityOne(item: NewItem): CartItem {
    CartItem(item.id, item.name, item.price, item.mrp, item.pharmacyId, item.pharmacyName,
             1, item.strength, item.manufacturer)
  }

  // ---------------------------------------------------------------------------
  // The item-list computations the actions perform
  // ---------------------------------------------------------------------------

  /** `items.find(i => i.id === id)` found something. */
  predicate HasId(items: seq<CartItem>, id: string) {
    exists k :: 0 <= k < |items| && items[k].id == id
  }

  predicate UniqueIds(items: seq<CartItem>) {
    UniqueBy(items, (i: CartItem) => i.id)
  }

  /** `items.map(i => i.id === id ? { ...i, quantity: i.quantity + 1 } : i)` */
  function IncrementQuantity(items: seq<CartItem>, id: string): seq<CartItem> {
    seq(|items|, k requires 0 <= k < |items| =>
      if items[k].id == id then items[k].(quantity := items[k].quantity + 1) else items[k])
  }

  /** `items.map(i => i.id === id ? { ...i, quantity } : i)` */
  function SetQuantity(items: seq<CartItem>, id: string, quantity: int): seq<CartItem> {
    seq(|items|, k requires 0 <= k < |items| =>
      if items[k].id == id then items[k].(quantity := quantity) else items[k])
  }

  /** `items.filter(i => i.id !== id)` */
  function WithoutId(items: seq<CartItem>, id: string): seq<CartItem> {
    Filter(items, (i: CartItem) => i.id != id)
  }

  /** `getTotalItems`: the sum of the quantities. */
  function TotalItems(items: seq<CartItem>): int {
    if items == [] then 0 else items[0].quantity + TotalItems(items[1..])
  }

  /** `getSubtotal`: the sum of price times quantity. */
  function Subtotal(items: seq<CartItem>): real {
    if items == [] then 0.0 else items[0].price * items[0].quantity as real + Subtotal(items[1..])
  }

  // ---------------------------------------------------------------------------
  // The store invariant: "Cart locked to single pharmacy"
  // ---------------------------------------------------------------------------

  ghost predicate Locked(c: Cart) {
    && (c.pharmacyId.None? <==> c.items == [])
    && (forall k :: 0 <= k < |c.items| ==> Some(c.items[k].pharmacyId) == c.pharmacyId)
    && UniqueIds(c.items)
    && (forall k :: 0 <= k < |c.items| ==> c.items[k].quantity >= 1)
  }

  // ---------------------------------------------------------------------------
  // The actions, as transitions of the state
  // ---------------------------------------------------------------------------

  /** The guard of `addItem` as intended: the cart holds some pharmacy and the
      new item comes from another one. */
  predicate NeedsConfirm(pharmacyId: Option<string>, item: NewItem) {
    pharmacyId.Some? && pharmacyId.value != item.pharmacyId
  }

  function AddItemNext(c: Cart, item: NewItem, confirmed: bool): Cart {
    if NeedsConfirm(c.pharmacyId, item) then
      if !confirmed then c else Cart([WithQuantityOne(item)], Some(item.pharmacyId))
    else if HasId(c.items, item.id) then
      Cart(IncrementQuantity(c.items, item.id), c.pharmacyId)
    else
      Cart(c.items + [WithQuantityOne(item)], Some(item.pharmacyId))
  }

  function RemoveItemNext(c: Cart, id: string): Cart {
    var rest := WithoutId(c.items, id);
    Cart(rest, if |rest| > 0 then c.pharmacyId else None)
  }

  function UpdateQuantityNext(c: Cart, id: string, quantity: int): Cart {
    if quantity <= 0 then RemoveItemNext(c, id)
    else Cart(SetQuantity(c.items, id, quantity), c.pharmacyId)
  }

  // ---------------------------------------------------------------------------
  // The store
  // ---------------------------------------------------------------------------

  class CartStore {
    var items: seq<CartItem>
    var pharmacyId: Option<string>

    function State(): Cart reads this { Cart(items, pharmacyId) }

    ghost predicate Valid() reads this { Locked(State()) }

    constructor ()
      ensures State() == Empty && Valid()
    {
      items, pharmacyId := [], None;
    }

    method AddItem(item: NewItem, confirmed: bool)
      requires Valid()
      modifies this
      ensures Valid()
      ensures State() == AddItemNext(old(State()), item, confirmed)
    {
      AddItemKeepsLock(State(), item, confirmed);
      if pharmacyId.Some? && pharmacyId.value != item.pharmacyId {
        if !confirmed {
          return;
        }
        items, pharmacyId := [WithQuantityOne(item)], Some(item.pharmacyId);
        return;
      }
      if HasId(items, item.id) {
        items := IncrementQuantity(items, item.id);
      } else {
        items, pharmacyId := items + [WithQuantityOne(item)], Some(item.pharmacyId);
      }
    }

    method RemoveItem(id: string)
      requires Valid()
      modifies this
      ensures Valid()
      ensures State() == RemoveItemNext(old(State()), id)
    {
      RemoveItemKeepsLock(State(), id);
      var rest := WithoutId(items, id);
      items, pharmacyId := rest, if |rest| > 0 then pharmacyId else None;
    }

    method UpdateQuantity(id: string, quantity: int)
      requires Valid()
      modifies this
      ensures Valid()
      ensures State() == UpdateQuantityNext(old(State()), id, quantity)
    {
      if quantity <= 0 {
        RemoveItem(id);
        return;
      }
      UpdateQuantityKeepsLock(State(), id, quantity);
      items := SetQuantity(items, id, quantity);
    }

    method ClearCart()
      modifies this
      ensures State() == Empty && Valid()
    {
      items, pharmacyId := [], None;
    }

    method GetTotalItems() returns (n: int)
      requires Valid()
      ensures n == TotalItems(items) && n >= |items|
    {
      TotalAtLeastLength(items);
      n := TotalItems(items);
    }

    method GetSubtotal() returns (total: real)
      ensures total == Subtotal(items)
    {
      total := Subtotal(items);
    }

    method GetPharmacyId() returns (id: Option<string>)
      requires Valid()
      ensures id == pharmacyId && (id.None? <==> items == [])
    {
      id := pharmacyId;
    }
  }

  // ---------------------------------------------------------------------------
  // Properties of the actions
  // ---------------------------------------------------------------------------

  /** Declining the confirmation leaves the cart as it was. */
  lemma AddItemDeclined(c: Cart, item: NewItem)
    requires NeedsConfirm(c.pharmacyId, item)
    ensures AddItemNext(c, item, false) == c
  {
  }

  /** Confirming replaces the cart by the new item alone, locked to its pharmacy. */
  lemma AddItemConfirmed(c: Cart, item: NewItem)
    requires NeedsConfirm(c.pharmacyId, item)
    ensures AddItemNext(c, item, true).items == [WithQuantityOne(item)]
    ensures AddItemNext(c, item, true).pharmacyId == Some(item.pharmacyId)
  {
  }

  /** Adding an item already in the cart increments that item's quantity only. */
  lemma {:induction false} AddItemExisting(c: Cart, item: NewItem, confirmed: bool, k: nat)
    requires Locked(c) && !NeedsConfirm(c.pharmacyId, item)
    requires k < |c.items| && c.items[k].id == item.id
    ensures AddItemNext(c, item, confirmed).pharmacyId == c.pharmacyId
    ensures AddItemNext(c, item, confirmed).items
            == c.items[k := c.items[k].(quantity := c.items[k].quantity + 1)]
  {
    var r := AddItemNext(c, item, confirmed).items;
    assert HasId(c.items, item.id);
    forall j | 0 <= j < |c.items| && j != k ensures r[j] == c.items[j] {
      assert c.items[j].id != item.id by {
        if j < k {
          assert c.items[j].id != c.items[k].id;
        } else {
          assert c.items[k].id != c.items[j].id;
        }
      }
    }
  }

  /** Adding a new item appends it with quantity 1 and locks the cart to its pharmacy. */
  lemma AddItemFresh(c: Cart, item: NewItem, confirmed: bool)
    requires !NeedsConfirm(c.pharmacyId, item)
    requires forall k :: 0 <= k < |c.items| ==> c.items[k].id != item.id
    ensures AddItemNext(c, item, confirmed) == Cart(c.items + [WithQuantityOne(item)], Some(item.pharmacyId))
  {
  }

  /** `addItem` keeps the single-pharmacy invariant. */
  lemma {:induction false} AddItemKeepsLock(c: Cart, item: NewItem, confirmed: bool)
    requires Locked(c)
    ensures Locked(AddItemNext(c, item, confirmed))
  {
    if !NeedsConfirm(c.pharmacyId, item) && !HasId(c.items, item.id) {
      var r := c.items + [WithQuantityOne(item)];
      assert c.pharmacyId.Some? ==> c.pharmacyId.value == item.pharmacyId;
      forall k | 0 <= k < |r| ensures Some(r[k].pharmacyId) == Some(item.pharmacyId) {
        if k < |c.items| {
          assert Some(c.items[k].pharmacyId) == c.pharmacyId;
        }
      }
    }
  }

  /** `removeItem` drops every item with the id, keeps the others in order, and
      unlocks the cart exactly when it becomes empty. */
  lemma RemoveItemEffect(c: Cart, id: string)
    ensures RemoveItemNext(c, id).items == Filter(c.items, (i: CartItem) => i.id != id)
    ensures forall k :: 0 <= k < |RemoveItemNext(c, id).items| ==> RemoveItemNext(c, id).items[k].id != id
    ensures RemoveItemNext(c, id).pharmacyId == if RemoveItemNext(c, id).items == [] then None else c.pharmacyId
  {
  }

  lemma RemoveItemKeepsLock(c: Cart, id: string)
    requires Locked(c)
    ensures Locked(RemoveItemNext(c, id))
  {
    var key := (i: CartItem) => i.id;
    assert UniqueBy(c.items, key);
    FilterKeepsUnique(c.items, (i: CartItem) => i.id != id, key);
  }

  /** `updateQuantity` with a non-positive quantity is `removeItem`; otherwise
      it sets that item's quantity and changes nothing else. */
  lemma UpdateQuantityEffect(c: Cart, id: string, quantity: int)
    ensures quantity <= 0 ==> UpdateQuantityNext(c, id, quantity) == RemoveItemNext(c, id)
    ensures quantity > 0 ==> UpdateQuantityNext(c, id, quantity).pharmacyId == c.pharmacyId
    ensures quantity > 0 ==> |UpdateQuantityNext(c, id, quantity).items| == |c.items|
    ensures quantity > 0 ==> forall k :: 0 <= k < |c.items| ==>
      UpdateQuantityNext(c, id, quantity).items[k]
        == if c.items[k].id == id then c.items[k].(quantity := quantity) else c.items[k]
  {
  }

  lemma UpdateQuantityKeepsLock(c: Cart, id: string, quantity: int)
    requires Locked(c)
    ensures Locked(UpdateQuantityNext(c, id, quantity))
  {
    if quantity <= 0 {
      RemoveItemKeepsLock(c, id);
    }
  }

  // ---------------------------------------------------------------------------
  // Properties of the totals
  // ---------------------------------------------------------------------------

  lemma {:induction false} TotalItemsConcat(a: seq<CartItem>, b: seq<CartItem>)
    ensures TotalItems(a + b) == TotalItems(a) + TotalItems(b)
  {
    if a == [] {
      assert a + b == b;
    } else {
      assert (a + b)[1..] == a[1..] + b;
      TotalItemsConcat(a[1..], b);
    }
  }

  lemma {:induction false} SubtotalConcat(a: seq<CartItem>, b: seq<CartItem>)
    ensures Subtotal(a + b) == Subtotal(a) + Subtotal(b)
  {
    if a == [] {
      assert a + b == b;
    } else {
      assert (a + b)[1..] == a[1..] + b;
      SubtotalConcat(a[1..], b);
    }
  }

  /** In a locked cart every quantity is at least one, so the item total is at
      least the number of lines, and it is 0 exactly for the empty cart. */
  lemma {:induction false} TotalAtLeastLength(items: seq<CartItem>)
    requires forall k :: 0 <= k < |items| ==> items[k].quantity >= 1
    ensures TotalItems(items) >= |items|
  {
    if items != [] {
      TotalAtLeastLength(items[1..]);
    }
  }

  /** With unique ids, bumping one item's quantity adds exactly one to the total. */
  lemma {:induction false} TotalItemsIncrement(items: seq<CartItem>, id: string)
    requires UniqueIds(items) && HasId(items, id)
    ensures TotalItems(IncrementQuantity(items, id)) == TotalItems(items) + 1
  {
    var r := IncrementQuantity(items, id);
    assert r[1..] == IncrementQuantity(items[1..], id);
    if items[0].id == id {
      forall k | 0 <= k < |items[1..]| ensures items[1..][k].id != id {
        assert items[0].id != items[k + 1].id;
      }
      assert IncrementQuantity(items[1..], id) == items[1..];
    } else {
      assert UniqueIds(items[1..]) by {
        forall a, b | 0 <= a < b < |items| - 1 ensures items[1..][a].id != items[1..][b].id {
          assert items[a + 1].id != items[b + 1].id;
        }
      }
      var k :| 0 <= k < |items| && items[k].id == id;
      assert items[1..][k - 1].id == id;
      TotalItemsIncrement(items[1..], id);
    }
  }

  /** Whatever happens, `addItem` leaves the item total unchanged (declined),
      at 1 (confirmed reset) or one higher (otherwise). */
  lemma AddItemTotal(c: Cart, item: NewItem, confirmed: bool)
    requires Locked(c)
    ensures var n := TotalItems(AddItemNext(c, item, confirmed).items);
      if NeedsConfirm(c.pharmacyId, item) then n == (if confirmed then 1 else TotalItems(c.items))
      else n == TotalItems(c.items) + 1
  {
    if !NeedsConfirm(c.pharmacyId, item) {
      if HasId(c.items, item.id) {
        TotalItemsIncrement(c.items, item.id);
      } else {
        TotalItemsConcat(c.items, [WithQuantityOne(item)]);
      }
    }
  }

  // ---------------------------------------------------------------------------
  // The guard as written: `if (pharmacyId && pharmacyId !== item.pharmacyId)`
  // treats the empty string like null.
  // ---------------------------------------------------------------------------

  predicate NeedsConfirmAsWritten(pharmacyId: Option<string>, item: NewItem) {
    pharmacyId.Some? && pharmacyId.value != "" && pharmacyId.value != item.pharmacyId
  }

  function AddItemAsWritten(c: Cart, item: NewItem, confirmed: bool): Cart {
    if NeedsConfirmAsWritten(c.pharmacyId, item) then
      if !confirmed then c else Cart([WithQuantityOne(item)], Some(item.pharmacyId))
    else if HasId(c.items, item.id) then
      Cart(IncrementQuantity(c.items, item.id), c.pharmacyId)
    else
      Cart(c.items + [WithQuantityOne(item)], Some(item.pharmacyId))
  }

  /** The two guards agree unless the cart is locked to the empty pharmacy id. */
  lemma AddItemAsWrittenAgrees(c: Cart, item: NewItem, confirmed: bool)
    requires c.pharmacyId != Some("")
    ensures AddItemAsWritten(c, item, confirmed) == AddItemNext(c, item, confirmed)
  {
  }

  /** An item from a pharmacy with an empty id, followed by an item from another
      pharmacy: the written guard asks nothing and the cart ends up holding
      items of two pharmacies. */
  lemma LockBypassedByEmptyPharmacyId()
    ensures var a := NewItem("a", "A", 1.0, None, "", "Nameless", None, None);
            var b := NewItem("b", "B", 1.0, None, "p1", "Other", None, None);
            var c := AddItemAsWritten(AddItemAsWritten(Empty, a, false), b, false);
            c.items == [WithQuantityOne(a), WithQuantityOne(b)] && !Locked(c)
  {
    var a := NewItem("a", "A", 1.0, None, "", "Nameless", None, None);
    var b := NewItem("b", "B", 1.0, None, "p1", "Other", None, None);
    var c1 := AddItemAsWritten(Empty, a, false);
    assert c1 == Cart([WithQuantityOne(a)], Some(""));
    assert !HasId(c1.items, "b");
    var c := AddItemAsWritten(c1, b, false);
    assert c == Cart([WithQuantityOne(a), WithQuantityOne(b)], Some("p1"));
    assert Some(c.items[0].pharmacyId) != c.pharmacyId;
  }
}
