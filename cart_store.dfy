/** The cart of src/store/cartStore.ts: lines keyed by medicine id whose
    quantities add up when the same medicine is added again, and an optional
    prescription url. */
module CartStore {
  import opened Common

  datatype CartItem = CartItem(
    medicineId: string,
    medicineName: string,
    pharmacyId: string,
    pharmacyName: string,
    price: real,
    mrp: Option<real>,
    quantity: int)

  datatype State = State(items: seq<CartItem>, prescriptionUrl: Option<string>)

  const Initial: State := State([], None)

  predicate HasMedicine(items: seq<CartItem>, id: string) {
    exists k :: 0 <= k < |items| && items[k].medicineId == id
  }

  predicate UniqueIds(items: seq<CartItem>) {
    UniqueBy(items, (i: CartItem) => i.medicineId)
  }

  /** `items.map(i => i.medicineId === id ? { ...i, quantity: i.quantity + n } : i)` */
  function AddQuantity(items: seq<CartItem>, id: string, n: int): seq<CartItem> {
    seq(|items|, k requires 0 <= k < |items| =>
      if items[k].medicineId == id then items[k].(quantity := items[k].quantity + n) else items[k])
  }

  /** `items.map(i => i.medicineId === id ? { ...i, quantity } : i)` */
  function SetQuantity(items: seq<CartItem>, id: string, quantity: int): seq<CartItem> {
    seq(|items|, k requires 0 <= k < |items| =>
      if items[k].medicineId == id then items[k].(quantity := quantity) else items[k])
  }

  function WithoutMedicine(items: seq<CartItem>, id: string): seq<CartItem> {
    Filter(items, (i: CartItem) => i.medicineId != id)
  }

  /** `getTotalItems` */
  function TotalItems(items: seq<CartItem>): int {
    if items == [] then 0 else items[0].quantity + TotalItems(items[1..])
  }

  /** `item.price * item.quantity` */
  function LineAmount(item: CartItem): real {
    item.price * item.quantity as real
  }

  /** `getTotalAmount` */
  function TotalAmount(items: seq<CartItem>): real {
    if items == [] then 0.0 else LineAmount(items[0]) + TotalAmount(items[1..])
  }

  /** `getItemCount`: the quantity of the first line for the medicine, or 0. */
  function ItemCount(items: seq<CartItem>, id: string): int {
    if items == [] then 0
    else if items[0].medicineId == id then items[0].quantity
    else ItemCount(items[1..], id)
  }

  // ---------------------------------------------------------------------------
  // The actions as transitions
  // ---------------------------------------------------------------------------

  function AddItemNext(s: State, item: CartItem): State {
    if HasMedicine(s.items, item.medicineId) then
      s.(items := AddQuantity(s.items, item.medicineId, item.quantity))
    else
      s.(items := s.items + [item])
  }

  function RemoveItemNext(s: State, id: string): State {
    s.(items := WithoutMedicine(s.items, id))
  }

  function UpdateQuantityNext(s: State, id: string, quantity: int): State {
    if quantity <= 0 then RemoveItemNext(s, id)
    else s.(items := SetQuantity(s.items, id, quantity))
  }

  class CartStore {
    var items: seq<CartItem>
    var prescriptionUrl: Option<string>

    function Snapshot(): State reads this { State(items, prescriptionUrl) }

    ghost predicate Valid() reads this { UniqueIds(items) }

    constructor ()
      ensures Snapshot() == Initial && Valid()
    {
      items, prescriptionUrl := [], None;
    }

    method AddItem(item: CartItem)
      requires Valid()
      modifies this
      ensures Valid()
      ensures Snapshot() == AddItemNext(old(Snapshot()), item)
    {
      AddItemKeepsUnique(Snapshot(), item);
      if HasMedicine(items, item.medicineId) {
        items := AddQuantity(items, item.medicineId, item.quantity);
      } else {
        items := items + [item];
      }
    }

    method RemoveItem(id: string)
      requires Valid()
      modifies this
      ensures Valid()
      ensures Snapshot() == RemoveItemNext(old(Snapshot()), id)
    {
      FilterKeepsUnique(items, (i: CartItem) => i.medicineId != id, (i: CartItem) => i.medicineId);
      items := WithoutMedicine(items, id);
    }

    method UpdateQuantity(id: string, quantity: int)
      requires Valid()
      modifies this
      ensures Valid()
      ensures Snapshot() == UpdateQuantityNext(old(Snapshot()), id, quantity)
    {
      if quantity <= 0 {
        RemoveItem(id);
        return;
      }
      items := SetQuantity(items, id, quantity);
    }

    method SetPrescription(url: string)
      modifies this
      ensures items == old(items) && prescriptionUrl == Some(url)
    {
      prescriptionUrl := Some(url);
    }

    method ClearCart()
      modifies this
      ensures Snapshot() == Initial && Valid()
    {
      items, prescriptionUrl := [], None;
    }

    method GetTotalItems() returns (n: int)
      ensures n == TotalItems(items)
    {
      n := TotalItems(items);
    }

    method GetTotalAmount() returns (total: real)
      ensures total == TotalAmount(items)
    {
      total := TotalAmount(items);
    }

    method GetItemCount(id: string) returns (n: int)
      ensures n == ItemCount(items, id)
      ensures !HasMedicine(items, id) ==> n == 0
    {
      ItemCountAbsent(items, id);
      n := ItemCount(items, id);
    }
  }

  // ---------------------------------------------------------------------------
  // Properties
  // ---------------------------------------------------------------------------

  lemma AddItemKeepsUnique(s: State, item: CartItem)
    requires UniqueIds(s.items)
    ensures UniqueIds(AddItemNext(s, item).items)
  {
  }

  /** Adding a medicine already present adds the given quantity (not 1) to its
      line and leaves every other line and the length as they were. */
  lemma {:induction false} AddItemMerges(s: State, item: CartItem, k: nat)
    requires UniqueIds(s.items) && k < |s.items| && s.items[k].medicineId == item.medicineId
    ensures AddItemNext(s, item).items
            == s.items[k := s.items[k].(quantity := s.items[k].quantity + item.quantity)]
    ensures AddItemNext(s, item).prescriptionUrl == s.prescriptionUrl
  {
    var r := AddItemNext(s, item).items;
    assert HasMedicine(s.items, item.medicineId);
    forall j | 0 <= j < |s.items| && j != k ensures r[j] == s.items[j] {
      if j < k {
        assert s.items[j].medicineId != s.items[k].medicineId;
      } else {
        assert s.items[k].medicineId != s.items[j].medicineId;
      }
    }
  }

  /** A new medicine is appended exactly as given. */
  lemma AddItemAppends(s: State, item: CartItem)
    requires !HasMedicine(s.items, item.medicineId)
    ensures AddItemNext(s, item) == s.(items := s.items + [item])
  {
  }

  /** `removeItem` keeps exactly the other medicines, in order, and the prescription. */
  lemma RemoveItemEffect(s: State, id: string)
    ensures RemoveItemNext(s, id).items == Filter(s.items, (i: CartItem) => i.medicineId != id)
    ensures !HasMedicine(RemoveItemNext(s, id).items, id)
    ensures RemoveItemNext(s, id).prescriptionUrl == s.prescriptionUrl
  {
  }

  lemma UpdateQuantityEffect(s: State, id: string, quantity: int)
    ensures quantity <= 0 ==> UpdateQuantityNext(s, id, quantity) == RemoveItemNext(s, id)
    ensures quantity > 0 ==> UpdateQuantityNext(s, id, quantity).prescriptionUrl == s.prescriptionUrl
    ensures quantity > 0 ==> forall k :: 0 <= k < |s.items| ==>
      UpdateQuantityNext(s, id, quantity).items[k]
        == if s.items[k].medicineId == id then s.items[k].(quantity := quantity) else s.items[k]
    ensures quantity > 0 ==> |UpdateQuantityNext(s, id, quantity).items| == |s.items|
  {
  }

  lemma {:induction false} ItemCountAbsent(items: seq<CartItem>, id: string)
    ensures !HasMedicine(items, id) ==> ItemCount(items, id) == 0
  {
    if items != [] {
      ItemCountAbsent(items[1..], id);
      if !HasMedicine(items, id) {
        forall k | 0 <= k < |items[1..]| ensures items[1..][k].medicineId != id {
          assert items[1..][k] == items[k + 1];
        }
      }
    }
  }

  /** `getItemCount` reports the first matching line. */
  lemma {:induction false} ItemCountFirst(items: seq<CartItem>, id: string, k: nat)
    requires k < |items| && items[k].medicineId == id
    requires forall j :: 0 <= j < k ==> items[j].medicineId != id
    ensures ItemCount(items, id) == items[k].quantity
  {
    if k > 0 {
      ItemCountFirst(items[1..], id, k - 1);
    }
  }

  /** After `addItem(item)` the count reported for that medicine grows by
      exactly `item.quantity`, and every other medicine's count is unchanged. */
  lemma {:induction false} AddItemCount(items: seq<CartItem>, item: CartItem, id: string)
    requires UniqueIds(items)
    ensures ItemCount(AddItemNext(State(items, None), item).items, id)
            == ItemCount(items, id) + (if id == item.medicineId then item.quantity else 0)
  {
    var r := AddItemNext(State(items, None), item).items;
    if items == [] {
    } else {
      var tail := items[1..];
      assert UniqueIds(tail) by {
        forall a, b | 0 <= a < b < |tail| ensures tail[a].medicineId != tail[b].medicineId {
          assert items[a + 1].medicineId != items[b + 1].medicineId;
        }
      }
      var rt := AddItemNext(State(tail, None), item).items;
      if HasMedicine(items, item.medicineId) {
        if items[0].medicineId == item.medicineId {
          assert !HasMedicine(tail, item.medicineId) by {
            forall k | 0 <= k < |tail| ensures tail[k].medicineId != item.medicineId {
              assert items[0].medicineId != items[k + 1].medicineId;
            }
          }
          assert r[1..] == tail;
        } else {
          var k :| 0 <= k < |items| && items[k].medicineId == item.medicineId;
          assert tail[k - 1].medicineId == item.medicineId;
          assert r[1..] == rt;
        }
      } else {
        assert !HasMedicine(tail, item.medicineId) by {
          forall k | 0 <= k < |tail| ensures tail[k].medicineId != item.medicineId {
            assert items[k + 1].medicineId != item.medicineId;
          }
        }
        assert r[1..] == rt;
      }
      AddItemCount(tail, item, id);
    }
  }

  lemma {:induction false} TotalItemsConcat(a: seq<CartItem>, b: seq<CartItem>)
    ensures TotalItems(a + b) == TotalItems(a) + TotalItems(b)
  {
    if a == [] {
      assert a + b == b;
    } else {
      assert (a + b)[1..] == a[1..] + b;
      TotalItemsConcat(a[1..], b);
    }
  }

  /** The total quantity grows by exactly `item.quantity` on `addItem`. */
  lemma {:induction false} AddItemTotal(items: seq<CartItem>, item: CartItem)
    requires UniqueIds(items)
    ensures TotalItems(AddItemNext(State(items, None), item).items) == TotalItems(items) + item.quantity
  {
    if HasMedicine(items, item.medicineId) {
      var k :| 0 <= k < |items| && items[k].medicineId == item.medicineId;
      AddItemMerges(State(items, None), item, k);
      TotalItemsUpdate(items, k, items[k].(quantity := items[k].quantity + item.quantity));
    } else {
      TotalItemsConcat(items, [item]);
    }
  }

  lemma {:induction false} TotalItemsUpdate(items: seq<CartItem>, k: nat, x: CartItem)
    requires k < |items|
    ensures TotalItems(items[k := x]) == TotalItems(items) - items[k].quantity + x.quantity
  {
    if k == 0 {
      assert items[k := x][1..] == items[1..];
    } else {
      assert items[k := x][1..] == items[1..][k - 1 := x];
      TotalItemsUpdate(items[1..], k - 1, x);
    }
  }
  lemma {:induction false} TotalAmountConcat(a: seq<CartItem>, b: seq<CartItem>)
    ensures TotalAmount(a + b) == TotalAmount(a) + TotalAmount(b)
  {
    if a == [] {
      assert a + b == b;
    } else {
      assert (a + b)[1..] == a[1..] + b;
      TotalAmountConcat(a[1..], b);
    }
  }

  lemma {:induction false} TotalAmountUpdate(items: seq<CartItem>, k: nat, x: CartItem)
    requires k < |items|
    ensures TotalAmount(items[k := x])
            == TotalAmount(items) - LineAmount(items[k]) + LineAmount(x)
  {
    if k == 0 {
      assert items[k := x][1..] == items[1..];
    } else {
      assert items[k := x][1..] == items[1..][k - 1 := x];
      TotalAmountUpdate(items[1..], k - 1, x);
    }
  }

  /** Replacing a line of quantity `q` at price `p` by one of quantity
      `q + n` at the same price adds `p · n`. */
  lemma PriceShift(t: real, p: real, q: int, n: int)
    ensures t - p * q as real + p * (q + n) as real == t + p * n as real
  {
    assert (q + n) as real == q as real + n as real;
  }

  /** Adding the item's quantity to line `k` adds that many units at the
      line's price. */
  lemma AmountAfterMerge(items: seq<CartItem>, item: CartItem, k: nat)
    requires k < |items|
    ensures TotalAmount(items[k := items[k].(quantity := items[k].quantity + item.quantity)])
            == TotalAmount(items) + items[k].price * item.quantity as real
  {
    var x := items[k].(quantity := items[k].quantity + item.quantity);
    TotalAmountUpdate(items, k, x);
    PriceShift(TotalAmount(items), items[k].price, items[k].quantity, item.quantity);
  }

  /** Merged into line `k`, the amount grows by the added quantity at that
      line's price. */
  lemma AddItemAmountMerged(items: seq<CartItem>, item: CartItem, k: nat)
    requires UniqueIds(items) && k < |items| && items[k].medicineId == item.medicineId
    ensures TotalAmount(AddItemNext(State(items, None), item).items) == TotalAmount(items) + items[k].price * item.quantity as real
  {
    MergedItems(items, item, k);
    AmountAfterMerge(items, item, k);
  }

  lemma MergedItems(items: seq<CartItem>, item: CartItem, k: nat)
    requires UniqueIds(items) && k < |items| && items[k].medicineId == item.medicineId
    ensures AddItemNext(State(items, None), item).items == items[k := items[k].(quantity := items[k].quantity + item.quantity)]
  {
    AddItemMerges(State(items, None), item, k);
  }

  /** A new line adds the item's quantity at its own price. */
  lemma AddItemAmountFresh(items: seq<CartItem>, item: CartItem)
    requires !HasMedicine(items, item.medicineId)
    ensures TotalAmount(AddItemNext(State(items, None), item).items) == TotalAmount(items) + item.price * item.quantity as real
  {
    TotalAmountConcat(items, [item]);
    assert TotalAmount([item]) == LineAmount(item) + TotalAmount([]);
  }

  /** `addItem` raises the amount by the added quantity at the price of the
      line it lands on: the line already held for that medicine, whose price
      is kept, or the new line. */
  lemma AddItemAmount(items: seq<CartItem>, item: CartItem)
    requires UniqueIds(items)
    ensures !HasMedicine(items, item.medicineId) ==>
      TotalAmount(AddItemNext(State(items, None), item).items) == TotalAmount(items) + item.price * item.quantity as real
    ensures forall k :: 0 <= k < |items| && items[k].medicineId == item.medicineId ==>
      TotalAmount(AddItemNext(State(items, None), item).items) == TotalAmount(items) + items[k].price * item.quantity as real
  {
    forall k | 0 <= k < |items| && items[k].medicineId == item.medicineId
      ensures TotalAmount(AddItemNext(State(items, None), item).items) == TotalAmount(items) + items[k].price * item.quantity as real
    {
      AddItemAmountMerged(items, item, k);
    }
    if !HasMedicine(items, item.medicineId) {
      AddItemAmountFresh(items, item);
    }
  }
}
