/** The wishlist of src/store/wishlistStore.ts: a list of products keyed by id,
    each stamped with the time it was added. The clock (`Date.now()`) is a
    parameter. */
module WishlistStore {
  import opened Common

  datatype WishlistItem = WishlistItem(
    id: string,
    name: string,
    price: real,
    manufacturer: string,
    category: string,
    pharmacyId: string,
    pharmacyName: string,
    addedAt: int)

  /** The argument of `addToWishlist`: an item without its timestamp. */
  datatype NewItem = NewItem(
    id: string,
    name: string,
    price: real,
    manufacturer: string,
    category: string,
    pharmacyId: string,
    pharmacyName: string)

  function Stamp(item: NewItem, now: int): WishlistItem {
    WishlistItem(item.id, item.name, item.price, item.manufacturer, item.category,
                 item.pharmacyId, item.pharmacyName, now)
  }

  /** `items.some(i => i.id === id)` */
  predicate InWishlist(items: seq<WishlistItem>, id: string) {
    exists k :: 0 <= k < |items| && items[k].id == id
  }

  predicate UniqueIds(items: seq<WishlistItem>) {
    UniqueBy(items, (i: WishlistItem) => i.id)
  }

  function AddNext(items: seq<WishlistItem>, item: NewItem, now: int): seq<WishlistItem> {
    if InWishlist(items, item.id) then items else items + [Stamp(item, now)]
  }

  function RemoveNext(items: seq<WishlistItem>, id: string): seq<WishlistItem> {
    Filter(items, (i: WishlistItem) => i.id != id)
  }

  class WishlistStore {
    var items: seq<WishlistItem>

    ghost predicate Valid() reads this { UniqueIds(items) }

    constructor ()
      ensures items == [] && Valid()
    {
      items := [];
    }

    method AddToWishlist(item: NewItem, now: int)
      requires Valid()
      modifies this
      ensures Valid()
      ensures items == AddNext(old(items), item, now)
    {
      if InWishlist(items, item.id) {
        return;
      }
      items := items + [Stamp(item, now)];
    }

    method RemoveFromWishlist(id: string)
      requires Valid()
      modifies this
      ensures Valid()
      ensures items == RemoveNext(old(items), id)
    {
      FilterKeepsUnique(items, (i: WishlistItem) => i.id != id, (i: WishlistItem) => i.id);
      items := RemoveNext(items, id);
    }

    method IsInWishlist(id: string) returns (b: bool)
      ensures b <==> exists k :: 0 <= k < |items| && items[k].id == id
    {
      b := InWishlist(items, id);
    }

    method ClearWishlist()
      modifies this
      ensures items == [] && Valid()
    {
      items := [];
    }

    method GetWishlistCount() returns (n: nat)
      ensures n == |items|
    {
      n := |items|;
    }
  }

  // ---------------------------------------------------------------------------
  // Properties
  // ---------------------------------------------------------------------------

  /** After adding, exactly the old ids and the new one are present; the count
      grows by one only when the id was new. */
  lemma AddMembership(items: seq<WishlistItem>, item: NewItem, now: int, id: string)
    ensures InWishlist(AddNext(items, item, now), id) <==> InWishlist(items, id) || id == item.id
    ensures |AddNext(items, item, now)| == |items| + (if InWishlist(items, item.id) then 0 else 1)
  {
    var r := AddNext(items, item, now);
    if !InWishlist(items, item.id) {
      assert r[|items|].id == item.id;
      if InWishlist(r, id) && id != item.id {
        var k :| 0 <= k < |r| && r[k].id == id;
        assert k < |items| && items[k] == r[k];
      }
      if InWishlist(items, id) {
        var k :| 0 <= k < |items| && items[k].id == id;
        assert r[k] == items[k];
      }
    }
  }

  /** Adding an item already present changes nothing, in particular not its
      original timestamp: adding is idempotent. */
  lemma AddIdempotent(items: seq<WishlistItem>, item: NewItem, now: int, later: int)
    ensures AddNext(AddNext(items, item, now), item, later) == AddNext(items, item, now)
  {
    AddMembership(items, item, now, item.id);
  }

  lemma AddKeepsUnique(items: seq<WishlistItem>, item: NewItem, now: int)
    requires UniqueIds(items)
    ensures UniqueIds(AddNext(items, item, now))
  {
  }

  /** After removing, exactly the old ids other than the removed one are present. */
  lemma RemoveMembership(items: seq<WishlistItem>, id: string, other: string)
    ensures InWishlist(RemoveNext(items, id), other) <==> InWishlist(items, other) && other != id
  {
    var keep := (i: WishlistItem) => i.id != id;
    var r := RemoveNext(items, id);
    if InWishlist(r, other) {
      var k :| 0 <= k < |r| && r[k].id == other;
      assert r[k] in items;
    }
    if InWishlist(items, other) && other != id {
      var k :| 0 <= k < |items| && items[k].id == other;
      FilterKeeps(items, keep);
      assert items[k] in r;
    }
  }

  /** Removing an item that was added restores a list that did not hold it. */
  lemma {:induction false} RemoveUndoesAdd(items: seq<WishlistItem>, item: NewItem, now: int)
    requires !InWishlist(items, item.id)
    ensures RemoveNext(AddNext(items, item, now), item.id) == items
  {
    var keep := (i: WishlistItem) => i.id != item.id;
    FilterSnoc(items, Stamp(item, now), keep);
    FilterKeepsAll(items, keep);
  }
}
