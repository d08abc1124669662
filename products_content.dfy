/** The category product list of src/app/products/ProductsContent.tsx: the
    category key from the URL, the products fetched for it (or the mock list
    when the request yields nothing), and the in-place sort behind the "Sort
    by" menu. Prices are JavaScript numbers, modelled as reals; the network
    answer is a parameter. */
module ProductsContent {
  import opened Common

  datatype PharmacyRef = PharmacyRef(id: string, businessName: string)

  datatype Product = Product(
    id: string,
    name: string,
    price: real,
    mrp: Option<real>,
    category: string,
    strength: Option<string>,
    manufacturer: Option<string>,
    pharmacy: Option<PharmacyRef>)

  // ---------------------------------------------------------------------------
  // Category keys
  // ---------------------------------------------------------------------------

  /** The keys the three lookup tables define. */
  const KnownCategories: set<string> :=
    {"medicines", "healthcare", "personal-care", "baby-care", "diabetes", "ayurveda"}

  /** `searchParams.get('category') || 'medicines'` */
  function CategoryParam(param: Option<string>): (c: string)
    ensures param.Some? && param.value != "" ==> c == param.value
    ensures param.None? || param.value == "" ==> c == "medicines"
  {
    match param
    case Some(p) => if p != "" then p else "medicines"
    case None => "medicines"
  }

  /** `CATEGORY_LABELS[category] || 'Products'` */
  function CategoryLabel(category: string): string {
    if category == "medicines" then "Medicines"
    else if category == "healthcare" then "Healthcare"
    else if category == "personal-care" then "Personal Care"
    else if category == "baby-care" then "Baby Care"
    else if category == "diabetes" then "Diabetes Care"
    else if category == "ayurveda" then "Ayurveda"
    else "Products"
  }

  /** `CATEGORY_API_MAP[category] || category` */
  function ApiCategory(category: string): string {
    if category == "medicines" then "medication" else category
  }

  function Pharmacy(id: string, name: string): Option<PharmacyRef> { Some(PharmacyRef(id, name)) }

  function Item(id: string, name: string, price: real, mrp: real, category: string,
                strength: Option<string>, manufacturer: string, pharmacy: Option<PharmacyRef>): Product
  {
    Product(id, name, price, Some(mrp), category, strength, Some(manufacturer), pharmacy)
  }

  /** `MOCK_PRODUCTS[category]`, absent for an unknown key. */
  function MockProducts(category: string): Option<seq<Product>> {
    var hope := Pharmacy("1", "Hope Pharmacy");
    var apollo := Pharmacy("2", "Apollo Pharmacy");
    var medPlus := Pharmacy("3", "MedPlus");
    if category == "medicines" then Some([
      Item("med-1", "Metformin 500mg", 85.0, 120.0, "medicine", Some("500mg"), "Sun Pharma", hope),
      Item("med-2", "Amlodipine 5mg", 45.0, 60.0, "medicine", Some("5mg"), "Cipla", apollo),
      Item("med-3", "Paracetamol 650mg", 12.0, 18.0, "medicine", Some("650mg"), "Dr. Reddy's", medPlus),
      Item("med-4", "Insulin Glargine", 1850.0, 2200.0, "medicine", Some("100IU/ml"), "Sanofi", hope)])
    else if category == "healthcare" then Some([
      Item("hc-1", "Blood Pressure Monitor", 1250.0, 1500.0, "healthcare", None, "Omron", apollo),
      Item("hc-2", "Digital Thermometer", 280.0, 350.0, "healthcare", None, "Dr. Morepen", medPlus),
      Item("hc-3", "Pulse Oximeter", 1450.0, 1800.0, "healthcare", None, "Beurer", hope)])
    else if category == "personal-care" then Some([
      Item("pc-1", "Cetaphil Gentle Cleanser", 485.0, 550.0, "personal-care", Some("250ml"), "Galderma", apollo),
      Item("pc-2", "Nivea Soft Cream", 165.0, 195.0, "personal-care", Some("100ml"), "Nivea", medPlus),
      Item("pc-3", "Johnson's Baby Oil", 125.0, 145.0, "personal-care", Some("200ml"), "Johnson & Johnson", hope)])
    else if category == "baby-care" then Some([
      Item("bc-1", "Pampers Diapers", 850.0, 999.0, "baby-care", Some("Medium (46 pcs)"), "Procter & Gamble", apollo),
      Item("bc-2", "Cerelac Stage 1", 285.0, 325.0, "baby-care", Some("300g"), "Nestle", medPlus),
      Item("bc-3", "Johnson's Baby Powder", 145.0, 175.0, "baby-care", Some("200g"), "Johnson & Johnson", hope)])
    else if category == "diabetes" then Some([
      Item("db-1", "Glucometer with Strips", 1150.0, 1400.0, "diabetes", None, "Accu-Chek", apollo),
      Item("db-2", "Diabetic Protein Powder", 850.0, 999.0, "diabetes", Some("400g"), "Ensure", medPlus),
      Item("db-3", "Sugar Free Gold", 95.0, 120.0, "diabetes", Some("100 pellets"), "Zydus Wellness", hope)])
    else if category == "ayurveda" then Some([
      Item("ay-1", "Chyawanprash", 285.0, 350.0, "ayurveda", Some("500g"), "Dabur", apollo),
      Item("ay-2", "Ashwagandha Capsules", 425.0, 500.0, "ayurveda", Some("60 capsules"), "Himalaya", medPlus),
      Item("ay-3", "Triphala Churna", 125.0, 150.0, "ayurveda", Some("100g"), "Patanjali", hope)])
    else None
  }

  /** `MOCK_PRODUCTS[category] || []` */
  function MockOrEmpty(category: string): seq<Product> {
    match MockProducts(category) case Some(list) => list case None => []
  }

  /** An unknown key goes to the API unchanged, falls back to no mock
      products, and is labelled "Products"; a known key has a label of its
      own and a non-empty mock list. */
  lemma CategoryFallbacks(category: string)
    ensures category !in KnownCategories ==>
      ApiCategory(category) == category && MockOrEmpty(category) == [] && CategoryLabel(category) == "Products"
    ensures category in KnownCategories ==>
      CategoryLabel(category) != "Products" && MockOrEmpty(category) != []
  {
  }

  /** What `/api/products/by-category` answered. */
  datatype FetchOutcome = Answered(products: Option<seq<Product>>) | NotOk | Failed

  /** The list `fetchProducts` stores and whether it is the fallback: a
      non-empty server list is used as is, anything else falls back to the
      category's mock list. */
  function FetchedProducts(category: string, outcome: FetchOutcome): (r: (seq<Product>, bool))
    ensures r.1 <==> !(outcome.Answered? && outcome.products.Some? && outcome.products.value != [])
    ensures !r.1 ==> r.0 == outcome.products.value && r.0 != []
    ensures r.1 ==> r.0 == MockOrEmpty(category)
  {
    match outcome
    case Answered(Some(list)) => if |list| > 0 then (list, false) else (MockOrEmpty(category), true)
    case _ => (MockOrEmpty(category), true)
  }

  // ---------------------------------------------------------------------------
  // sortProducts
  // ---------------------------------------------------------------------------

  datatype SortOption = PriceLowHigh | PriceHighLow | ByDiscount | KeepOrder

  /** The `switch` on the option string: `'popularity'` and every unknown
      value keep the order. */
  function ParseSortOption(option: string): (r: SortOption)
    ensures r == KeepOrder <==> option != "price-low-high" && option != "price-high-low" && option != "discount"
  {
    if option == "price-low-high" then PriceLowHigh
    else if option == "price-high-low" then PriceHighLow
    else if option == "discount" then ByDiscount
    else KeepOrder
  }

  /** `a.mrp ? ((a.mrp - a.price) / a.mrp) * 100 : 0`; a missing or zero mrp
      counts as no discount. */
  function Discount(p: Product): (d: real)
    ensures p.mrp.None? || p.mrp.value == 0.0 ==> d == 0.0
    ensures p.mrp.Some? && p.mrp.value > 0.0 && 0.0 <= p.price <= p.mrp.value ==> 0.0 <= d <= 100.0
  {
    match p.mrp
    case Some(m) => if m != 0.0 then DiscountBound(m, p.price); ((m - p.price) / m) * 100.0 else 0.0
    case None => 0.0
  }

  lemma DiscountBound(m: real, price: real)
    requires m != 0.0
    ensures m > 0.0 && 0.0 <= price <= m ==> 0.0 <= ((m - price) / m) * 100.0 <= 100.0
  {
    if m > 0.0 && 0.0 <= price <= m {
      assert (m - price) / m <= 1.0 by {
        assert (m - price) / m * m == m - price;
      }
    }
  }

  /** The comparators as ascending sort keys: `a.price - b.price` sorts by
      price, `b.price - a.price` by minus the price, and the discount
      comparator by minus the discount. */
  function SortKey(option: SortOption): Product -> real {
    match option
    case PriceHighLow => (p: Product) => -p.price
    case ByDiscount => (p: Product) => -Discount(p)
    case _ => (p: Product) => p.price
  }

  predicate SortedBy(s: seq<Product>, key: Product -> real) {
    forall i, j :: 0 <= i < j < |s| ==> key(s[i]) <= key(s[j])
  }

  /** The order each option promises, in the products' own terms. */
  lemma SortKeyMeaning(s: seq<Product>, option: SortOption)
    requires option != KeepOrder && SortedBy(s, SortKey(option))
    ensures option == PriceLowHigh ==> forall i, j :: 0 <= i < j < |s| ==> s[i].price <= s[j].price
    ensures option == PriceHighLow ==> forall i, j :: 0 <= i < j < |s| ==> s[i].price >= s[j].price
    ensures option == ByDiscount ==> forall i, j :: 0 <= i < j < |s| ==> Discount(s[i]) >= Discount(s[j])
  {
    var key := SortKey(option);
    forall i, j | 0 <= i < j < |s| ensures key(s[i]) <= key(s[j]) {
    }
  }

  method Swap(a: array<Product>, i: nat, j: nat)
    requires i < a.Length && j < a.Length
    modifies a
    ensures a[i] == old(a[j]) && a[j] == old(a[i])
    ensures forall m :: 0 <= m < a.Length && m != i && m != j ==> a[m] == old(a[m])
    ensures multiset(a[..]) == multiset(old(a[..]))
  {
    a[i], a[j] := a[j], a[i];
  }

  /** `sorted.sort(compare)`: an insertion sort by ascending key. */
  method SortInPlace(a: array<Product>, key: Product -> real)
    modifies a
    ensures SortedBy(a[..], key)
    ensures multiset(a[..]) == multiset(old(a[..]))
  {
    var i := 0;
    while i < a.Length
      invariant 0 <= i <= a.Length
      invariant forall p, q :: 0 <= p < q < i ==> key(a[p]) <= key(a[q])
      invariant multiset(a[..]) == multiset(old(a[..]))
    {
      var j := i;
      while j > 0 && key(a[j - 1]) > key(a[j])
        invariant 0 <= j <= i
        invariant forall p, q :: 0 <= p < q <= i && p != j && q != j ==> key(a[p]) <= key(a[q])
        invariant forall q :: j < q <= i ==> key(a[j]) < key(a[q])
        invariant multiset(a[..]) == multiset(old(a[..]))
      {
        Swap(a, j - 1, j);
        j := j - 1;
      }
      i := i + 1;
    }
  }

  /** `sortProducts`: copies the list, sorts the copy for the three known
      options and leaves it as it is otherwise. */
  method SortProducts(products: seq<Product>, option: SortOption) returns (sorted: seq<Product>)
    ensures multiset(sorted) == multiset(products) && |sorted| == |products|
    ensures option == KeepOrder ==> sorted == products
    ensures option != KeepOrder ==> SortedBy(sorted, SortKey(option))
  {
    if option == KeepOrder {
      sorted := products;
      return;
    }
    var a := new Product[|products|](i requires 0 <= i < |products| => products[i]);
    assert a[..] == products;
    SortInPlace(a, SortKey(option));
    sorted := a[..];
  }

  /** The products page: the current list and the chosen option. */
  class ProductsPage {
    var products: seq<Product>
    var useFallback: bool
    var sortBy: string

    constructor ()
      ensures products == [] && !useFallback && sortBy == "popularity"
    {
      products, useFallback, sortBy := [], false, "popularity";
    }

    /** `fetchProducts`, with the server's answer as a parameter. */
    method FetchProducts(category: string, outcome: FetchOutcome)
      modifies this
      ensures (products, useFallback) == FetchedProducts(category, outcome)
      ensures sortBy == old(sortBy)
    {
      match outcome {
        case Answered(Some(list)) =>
          if |list| > 0 {
            products, useFallback := list, false;
            return;
          }
        case _ =>
      }
      products, useFallback := MockOrEmpty(category), true;
    }

    /** Choosing an option re-sorts a non-empty list. */
    method SetSortBy(option: string)
      modifies this
      ensures sortBy == option && useFallback == old(useFallback)
      ensures multiset(products) == multiset(old(products))
      ensures old(products) == [] || ParseSortOption(option) == KeepOrder ==> products == old(products)
      ensures ParseSortOption(option) != KeepOrder ==> SortedBy(products, SortKey(ParseSortOption(option)))
    {
      sortBy := option;
      if |products| > 0 {
        products := SortProducts(products, ParseSortOption(option));
      }
    }
  }
}
