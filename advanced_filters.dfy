/** The filter sidebar of src/components/patient/AdvancedFilters.tsx: a price
    range, brand and category lists, a minimum discount, an in-stock flag and
    a prescription choice, with the toggles that edit them and the count of
    active criteria. Prices and discounts are JavaScript numbers, modelled as
    reals. `onFilterChange` is modelled by returning the filters it receives. */
module AdvancedFilters {
  import opened Common

  datatype Prescription = All | Required | NotRequired

  /** `FilterState`; `priceRange` is the pair (priceLow, priceHigh). */
  datatype Filters = Filters(
    priceLow: real,
    priceHigh: real,
    brands: seq<string>,
    discount: real,
    inStock: bool,
    prescription: Prescription,
    category: seq<string>)

  /** `Partial<FilterState>`: the props' `initialFilters`. */
  datatype InitialFilters = InitialFilters(
    priceRange: Option<(real, real)>,
    brands: Option<seq<string>>,
    discount: Option<real>,
    inStock: Option<bool>,
    prescription: Option<Prescription>,
    category: Option<seq<string>>)

  const NoInitialFilters: InitialFilters := InitialFilters(None, None, None, None, None, None)

  const DefaultPriceLow: real := 0.0

  const DefaultPriceHigh: real := 1000.0

  /** The state `clearAllFilters` installs. Unlike the initial state it has
      `inStock` false. */
  const Cleared: Filters := Filters(DefaultPriceLow, DefaultPriceHigh, [], 0.0, false, All, [])

  /** The initial `useState` value: each given field, else its default. The
      fallbacks use `||` (a given discount of 0 falls back to the default,
      which is also 0) except `inStock`, whose `??` keeps a given false. */
  function InitialState(init: InitialFilters): (f: Filters)
    ensures init.inStock.None? ==> f.inStock
    ensures init.inStock.Some? ==> f.inStock == init.inStock.value
  {
    Filters(
      match init.priceRange case Some(r) => r.0 case None => DefaultPriceLow,
      match init.priceRange case Some(r) => r.1 case None => DefaultPriceHigh,
      match init.brands case Some(b) => b case None => [],
      match init.discount case Some(d) => d case None => 0.0,
      match init.inStock case Some(b) => b case None => true,
      match init.prescription case Some(p) => p case None => All,
      match init.category case Some(c) => c case None => [])
  }

  /** A call `updateFilter(key, value)`: which field, and its new value. */
  datatype Update =
    | SetPriceRange(low: real, high: real)
    | SetBrands(brands: seq<string>)
    | SetDiscount(discount: real)
    | SetInStock(inStock: bool)
    | SetPrescription(prescription: Prescription)
    | SetCategory(category: seq<string>)

  /** `{ ...filters, [key]: value }` */
  function UpdateNext(f: Filters, u: Update): Filters {
    match u
    case SetPriceRange(lo, hi) => f.(priceLow := lo, priceHigh := hi)
    case SetBrands(b) => f.(brands := b)
    case SetDiscount(d) => f.(discount := d)
    case SetInStock(s) => f.(inStock := s)
    case SetPrescription(p) => f.(prescription := p)
    case SetCategory(c) => f.(category := c)
  }

  /** `updateFilter` sets the named field to the value and leaves every other
      field as it was. */
  lemma UpdateOnlyField(f: Filters, u: Update)
    ensures var g := UpdateNext(f, u);
      && (if u.SetPriceRange? then g.priceLow == u.low && g.priceHigh == u.high
          else g.priceLow == f.priceLow && g.priceHigh == f.priceHigh)
      && g.brands == (if u.SetBrands? then u.brands else f.brands)
      && g.discount == (if u.SetDiscount? then u.discount else f.discount)
      && g.inStock == (if u.SetInStock? then u.inStock else f.inStock)
      && g.prescription == (if u.SetPrescription? then u.prescription else f.prescription)
      && g.category == (if u.SetCategory? then u.category else f.category)
  {
  }

  /** Setting a field to the value it already has changes nothing. */
  lemma UpdateSameValue(f: Filters)
    ensures UpdateNext(f, SetBrands(f.brands)) == f
    ensures UpdateNext(f, SetCategory(f.category)) == f
    ensures UpdateNext(f, SetPriceRange(f.priceLow, f.priceHigh)) == f
    ensures UpdateNext(f, SetDiscount(f.discount)) == f
    ensures UpdateNext(f, SetInStock(f.inStock)) == f
    ensures UpdateNext(f, SetPrescription(f.prescription)) == f
  {
  }

  // ---------------------------------------------------------------------------
  // toggleBrand / toggleCategory
  // ---------------------------------------------------------------------------

  /** `list.includes(v) ? list.filter(x => x !== v) : [...list, v]` */
  function Toggle(list: seq<string>, v: string): seq<string> {
    if v in list then Filter(list, (x: string) => x != v) else list + [v]
  }

  /** Toggling flips the membership of the value and keeps every other value's
      membership. */
  lemma ToggleMembership(list: seq<string>, v: string, x: string)
    ensures v in Toggle(list, v) <==> v !in list
    ensures x != v ==> (x in Toggle(list, v) <==> x in list)
  {
    var keep := (y: string) => y != v;
    var r := Toggle(list, v);
    if v in list {
      forall k | 0 <= k < |r| ensures r[k] != v {
        assert keep(r[k]);
      }
      if x != v && x in list {
        FilterKeeps(list, keep);
        var k :| 0 <= k < |list| && list[k] == x;
        assert keep(list[k]);
      }
      if x in r {
        var k :| 0 <= k < |r| && r[k] == x;
        assert r[k] in list;
      }
    } else {
      assert r[|list|] == v;
    }
  }

  /** An absent value is appended at the end; a present one is removed
      with every copy, the rest keeping their order. */
  lemma ToggleShape(list: seq<string>, v: string)
    ensures v !in list ==> Toggle(list, v) == list + [v]
    ensures v in list ==> Toggle(list, v) == Filter(list, (x: string) => x != v) && |Toggle(list, v)| < |list|
  {
    if v in list {
      FilterShrinks(list, (x: string) => x != v);
    }
  }

  /** Filtering out an element that occurs shortens the list. */
  lemma {:induction false} FilterShrinks(s: seq<string>, keep: string -> bool)
    requires exists k :: 0 <= k < |s| && !keep(s[k])
    ensures |Filter(s, keep)| < |s|
  {
    if keep(s[0]) {
      var k :| 0 <= k < |s| && !keep(s[k]);
      assert s[1..][k - 1] == s[k];
      FilterShrinks(s[1..], keep);
    } else {
      assert |Filter(s[1..], keep)| <= |s[1..]|;
    }
  }

  /** Toggling an absent value twice restores the list exactly. */
  lemma ToggleTwiceAbsent(list: seq<string>, v: string)
    requires v !in list
    ensures Toggle(Toggle(list, v), v) == list
  {
    var keep := (x: string) => x != v;
    assert v in list + [v] by {
      assert (list + [v])[|list|] == v;
    }
    FilterSnoc(list, v, keep);
    forall k | 0 <= k < |list| ensures keep(list[k]) {
      assert list[k] in list;
    }
    FilterKeepsAll(list, keep);
  }

  /** Toggling a present value twice moves it, as a single copy, to the end. */
  lemma ToggleTwicePresent(list: seq<string>, v: string)
    requires v in list
    ensures Toggle(Toggle(list, v), v) == Filter(list, (x: string) => x != v) + [v]
  {
    ToggleMembership(list, v, v);
  }

  // ---------------------------------------------------------------------------
  // activeFilterCount
  // ---------------------------------------------------------------------------

  function Point(b: bool): nat { if b then 1 else 0 }

  /** One point per active criterion. */
  function ActiveFilterCount(f: Filters): nat {
    Point(|f.brands| > 0) + Point(f.discount > 0.0) + Point(f.inStock)
    + Point(f.prescription != All) + Point(|f.category| > 0)
    + Point(f.priceLow > DefaultPriceLow || f.priceHigh < DefaultPriceHigh)
  }

  /** No criterion narrows the results. */
  predicate Neutral(f: Filters) {
    f.brands == [] && f.discount <= 0.0 && !f.inStock && f.prescription == All
    && f.category == [] && f.priceLow <= DefaultPriceLow && f.priceHigh >= DefaultPriceHigh
  }

  /** The count lies in 0..6 and is 0 exactly when nothing narrows the
      results; it is 6 exactly when every criterion is active. */
  lemma ActiveFilterCountBounds(f: Filters)
    ensures 0 <= ActiveFilterCount(f) <= 6
    ensures ActiveFilterCount(f) == 0 <==> Neutral(f)
    ensures ActiveFilterCount(f) == 6 <==>
      |f.brands| > 0 && f.discount > 0.0 && f.inStock && f.prescription != All && |f.category| > 0
      && (f.priceLow > DefaultPriceLow || f.priceHigh < DefaultPriceHigh)
  {
  }

  /** Toggling a brand changes the count by at most one. */
  lemma ToggleBrandCount(f: Filters, brand: string)
    ensures var g := UpdateNext(f, SetBrands(Toggle(f.brands, brand)));
      -1 <= ActiveFilterCount(g) - ActiveFilterCount(f) <= 1
      && (brand !in f.brands && f.brands == [] ==> ActiveFilterCount(g) == ActiveFilterCount(f) + 1)
  {
    ToggleShape(f.brands, brand);
  }

  /** Clearing yields a neutral state with count 0; the initial state without
      props has `inStock` set, so it counts one and differs from the cleared
      one. */
  lemma ClearedVersusInitial()
    ensures Neutral(Cleared) && ActiveFilterCount(Cleared) == 0
    ensures InitialState(NoInitialFilters).inStock
    ensures ActiveFilterCount(InitialState(NoInitialFilters)) == 1
    ensures InitialState(NoInitialFilters) == Cleared.(inStock := true)
  {
  }

  // ---------------------------------------------------------------------------
  // The component state
  // ---------------------------------------------------------------------------

  class FilterPanel {
    var filters: Filters

    constructor (init: InitialFilters)
      ensures filters == InitialState(init)
    {
      filters := InitialState(init);
    }

    /** `updateFilter`: installs the new state and reports it. */
    method UpdateFilter(u: Update) returns (notified: Filters)
      modifies this
      ensures filters == UpdateNext(old(filters), u) && notified == filters
    {
      filters := UpdateNext(filters, u);
      notified := filters;
    }

    method ToggleBrand(brand: string) returns (notified: Filters)
      modifies this
      ensures filters == old(filters).(brands := Toggle(old(filters.brands), brand)) && notified == filters
    {
      var newBrands := if brand in filters.brands then Filter(filters.brands, (b: string) => b != brand)
                       else filters.brands + [brand];
      notified := UpdateFilter(SetBrands(newBrands));
    }

    method ToggleCategory(category: string) returns (notified: Filters)
      modifies this
      ensures filters == old(filters).(category := Toggle(old(filters.category), category)) && notified == filters
    {
      var newCategories := if category in filters.category then Filter(filters.category, (c: string) => c != category)
                           else filters.category + [category];
      notified := UpdateFilter(SetCategory(newCategories));
    }

    method ClearAllFilters() returns (notified: Filters)
      modifies this
      ensures filters == Cleared && notified == Cleared
    {
      filters := Cleared;
      notified := filters;
    }

    method GetActiveFilterCount() returns (n: nat)
      ensures n == ActiveFilterCount(filters) && n <= 6
    {
      ActiveFilterCountBounds(filters);
      n := ActiveFilterCount(filters);
    }
  }
}
