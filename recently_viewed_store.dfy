/** The "recently viewed" history of src/store/recentlyViewedStore.ts: a
    most-recently-used list of products capped at MAX_ITEMS. The clock
    (`Date.now()`) is a parameter. */
module RecentlyViewedStore {
  import opened Common

  datatype ViewedProduct = ViewedProduct(
    id: string,
    name: string,
    price: real,
    manufacturer: string,
    category: string,
    imageUrl: Option<string>,
    pharmacyId: string,
    pharmacyName: string,
    viewedAt: int)

  const MaxItems: nat := 20

  /** `getRecentItems`' default limit. */
  const DefaultLimit: int := 10

  /** The end index `Array.prototype.slice(0, end)` uses on a list of length
      `len`: a negative end counts from the back. */
  function SliceEnd(end: int, len: nat): (r: nat)
    ensures r <= len
    ensures end >= 0 ==> r == if end < len then end else len
    ensures end < 0 ==> r == if len + end > 0 then len + end else 0
  {
    if end < 0 then (if len + end > 0 then len + end else 0)
    else if end < len then end else len
  }

  /** The list `addProduct` builds: the product first, stamped with `now`,
      followed by the previous list without it, cut to MAX_ITEMS. */
  function AddProductNext(items: seq<ViewedProduct>, product: ViewedProduct, now: int): seq<ViewedProduct> {
    var filtered := Filter(items, (i: ViewedProduct) => i.id != product.id);
    var newItems := [product.(viewedAt := now)] + filtered;
    newItems[..SliceEnd(MaxItems, |newItems|)]
  }

  /** `getRecentItems(limit)`; an absent limit means 10. */
  function RecentItems(items: seq<ViewedProduct>, limit: Option<int>): seq<ViewedProduct> {
    var end := match limit case Some(n) => n case None => DefaultLimit;
    items[..SliceEnd(end, |items|)]
  }

  predicate UniqueIds(items: seq<ViewedProduct>) {
    UniqueBy(items, (i: ViewedProduct) => i.id)
  }

  class RecentlyViewedStore {
    var items: seq<ViewedProduct>

    ghost predicate Valid() reads this { |items| <= MaxItems && UniqueIds(items) }

    constructor ()
      ensures items == [] && Valid()
    {
      items := [];
    }

    method AddProduct(product: ViewedProduct, now: int)
      requires Valid()
      modifies this
      ensures Valid()
      ensures items == AddProductNext(old(items), product, now)
    {
      AddProductKeepsUnique(items, product, now);
      var filtered := Filter(items, (i: ViewedProduct) => i.id != product.id);
      var newItems := [product.(viewedAt := now)] + filtered;
      items := newItems[..SliceEnd(MaxItems, |newItems|)];
    }

    method ClearHistory()
      modifies this
      ensures items == [] && Valid()
    {
      items := [];
    }

    method GetRecentItems(limit: Option<int>) returns (r: seq<ViewedProduct>)
      ensures r == RecentItems(items, limit)
      ensures limit.None? ==> r == items[..if |items| < 10 then |items| else 10]
      ensures limit.Some? && limit.value >= 0 ==>
        r == items[..if limit.value < |items| then limit.value else |items|]
    {
      var end := match limit case Some(n) => n case None => DefaultLimit;
      r := items[..SliceEnd(end, |items|)];
    }
  }

  // ---------------------------------------------------------------------------
  // Properties of addProduct
  // ---------------------------------------------------------------------------

  /** The viewed product comes first, stamped with the current time, and its id
      occurs nowhere else; the list never exceeds MAX_ITEMS. */
  lemma AddProductFront(items: seq<ViewedProduct>, product: ViewedProduct, now: int)
    ensures var r := AddProductNext(items, product, now);
      && 1 <= |r| <= MaxItems
      && r[0] == product.(viewedAt := now)
      && forall k :: 1 <= k < |r| ==> r[k].id != product.id
  {
    var filtered := Filter(items, (i: ViewedProduct) => i.id != product.id);
    var r := AddProductNext(items, product, now);
    forall k | 1 <= k < |r| ensures r[k].id != product.id {
      assert r[k] == filtered[k - 1];
    }
  }

  /** The other products keep their relative order: the result is a prefix of
      the product followed by the old list without it. */
  lemma AddProductPrefix(items: seq<ViewedProduct>, product: ViewedProduct, now: int)
    ensures var whole := [product.(viewedAt := now)] + Filter(items, (i: ViewedProduct) => i.id != product.id);
      var r := AddProductNext(items, product, now);
      |r| == (if |whole| < MaxItems then |whole| else MaxItems) && r == whole[..|r|]
  {
  }

  /** Viewing a product keeps ids unique. */
  lemma AddProductKeepsUnique(items: seq<ViewedProduct>, product: ViewedProduct, now: int)
    requires UniqueIds(items)
    ensures UniqueIds(AddProductNext(items, product, now))
  {
    var key := (i: ViewedProduct) => i.id;
    var keep := (i: ViewedProduct) => i.id != product.id;
    FilterKeepsUnique(items, keep, key);
    var filtered := Filter(items, keep);
    var whole := [product.(viewedAt := now)] + filtered;
    assert UniqueBy(whole, key) by {
      forall i, j | 0 <= i < j < |whole| ensures whole[i].id != whole[j].id {
        if i == 0 {
          assert whole[j] == filtered[j - 1];
        } else {
          assert whole[i] == filtered[i - 1] && whole[j] == filtered[j - 1];
        }
      }
    }
    var r := AddProductNext(items, product, now);
    assert forall i :: 0 <= i < |r| ==> r[i] == whole[i];
  }

  /** Viewing the most recent product again only refreshes its timestamp. */
  lemma {:induction false} AddProductAgain(items: seq<ViewedProduct>, product: ViewedProduct, now: int)
    requires UniqueIds(items) && |items| <= MaxItems
    requires items != [] && items[0].id == product.id
    ensures AddProductNext(items, product, now) == [product.(viewedAt := now)] + items[1..]
  {
    var keep := (i: ViewedProduct) => i.id != product.id;
    FilterOutHead(items, keep, (i: ViewedProduct) => i.id);
    var whole := [product.(viewedAt := now)] + items[1..];
    assert |whole| <= MaxItems;
    assert whole[..SliceEnd(MaxItems, |whole|)] == whole;
  }

  /** `getRecentItems` returns a prefix of the history, of at most the limit. */
  lemma RecentItemsPrefix(items: seq<ViewedProduct>, limit: Option<int>)
    ensures var r := RecentItems(items, limit);
      r == items[..|r|] && (limit.Some? && limit.value >= 0 ==> |r| <= limit.value)
      && (limit.None? ==> |r| <= DefaultLimit)
  {
  }
}
