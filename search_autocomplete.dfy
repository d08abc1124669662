/** The search box of src/components/SearchAutocomplete.tsx: the query, the
    suggestion list shown under it, the keyboard-highlighted entry and the
    most-recently-used list of searches. The network answer of
    `/api/autocomplete` and the navigation it triggers are values: the answer
    is a parameter, the navigation a result. */
module SearchAutocomplete {
  import opened Common
  import Utils
  import SearchStore

  datatype ResultType = MedicineResult | PharmacyResult | RecentResult | TrendingResult

  /** `AutocompleteResult`. */
  datatype Suggestion = Suggestion(
    id: string,
    name: string,
    kind: ResultType,
    subtitle: Option<string>,
    category: Option<string>)

  datatype Key = ArrowDown | ArrowUp | Enter | Escape | OtherKey

  /** `router.push('/search?q=…&type=…')`. */
  datatype Navigation = Navigation(searchQuery: string, searchType: SearchStore.SearchType)

  /** What `/api/autocomplete` answered: a JSON body (whose `suggestions` may
      be missing), a response that was not ok, or a failed request. */
  datatype FetchOutcome = Answered(suggestions: Option<seq<Suggestion>>) | NotOk | Failed

  const MaxRecent: nat := 10

  /** How many recent searches the default list shows. */
  const MaxRecentShown: nat := 5

  const MaxMock: nat := 10

  /** Queries shorter than this, once trimmed, show the default list. */
  const MinQueryLength: nat := 2

  function Min(a: nat, b: nat): nat { if a < b then a else b }

  // ---------------------------------------------------------------------------
  // saveRecentSearch
  // ---------------------------------------------------------------------------

  /** `[search, ...recentSearches.filter(s => s !== search)].slice(0, 10)` */
  function SaveRecentNext(recent: seq<string>, search: string): seq<string> {
    var whole := [search] + Filter(recent, (s: string) => s != search);
    whole[..Min(MaxRecent, |whole|)]
  }

  predicate Distinct(s: seq<string>) {
    forall i, j :: 0 <= i < j < |s| ==> s[i] != s[j]
  }

  /** The search comes first and nowhere else, the list holds at most ten
      entries, and it is a prefix of the search followed by the other entries
      in their old order. */
  lemma SaveRecentFront(recent: seq<string>, search: string)
    ensures var r := SaveRecentNext(recent, search);
      var whole := [search] + Filter(recent, (s: string) => s != search);
      && 1 <= |r| <= MaxRecent
      && r[0] == search
      && (forall k :: 1 <= k < |r| ==> r[k] != search)
      && r == whole[..|r|]
      && |r| == Min(MaxRecent, 1 + |Filter(recent, (s: string) => s != search)|)
  {
    var filtered := Filter(recent, (s: string) => s != search);
    var r := SaveRecentNext(recent, search);
    forall k | 1 <= k < |r| ensures r[k] != search {
      assert r[k] == filtered[k - 1];
    }
  }

  /** Every entry of the new list is the search or an old entry, and every old
      entry other than the search that fits under the cap is kept. */
  lemma SaveRecentMembers(recent: seq<string>, search: string)
    ensures forall k :: 0 <= k < |SaveRecentNext(recent, search)| ==>
      SaveRecentNext(recent, search)[k] == search || SaveRecentNext(recent, search)[k] in recent
    ensures |recent| < MaxRecent ==> forall x :: x in recent ==> x in SaveRecentNext(recent, search)
  {
    var keep := (s: string) => s != search;
    var filtered := Filter(recent, keep);
    var r := SaveRecentNext(recent, search);
    forall k | 0 <= k < |r| ensures r[k] == search || r[k] in recent {
      if k > 0 {
        assert r[k] == filtered[k - 1];
      }
    }
    if |recent| < MaxRecent {
      FilterKeeps(recent, keep);
      forall x | x in recent ensures x in r {
        if x != search {
          var i :| 0 <= i < |recent| && recent[i] == x;
          assert keep(recent[i]);
          assert x in filtered;
          var j :| 0 <= j < |filtered| && filtered[j] == x;
          assert |[search] + filtered| <= MaxRecent;
          assert r == [search] + filtered;
          assert r[j + 1] == x;
        } else {
          assert r[0] == x;
        }
      }
    }
  }

  /** Saving keeps the entries distinct. */
  lemma SaveRecentDistinct(recent: seq<string>, search: string)
    requires Distinct(recent)
    ensures Distinct(SaveRecentNext(recent, search))
  {
    var id := (s: string) => s;
    var keep := (s: string) => s != search;
    assert UniqueBy(recent, id);
    FilterKeepsUnique(recent, keep, id);
    var filtered := Filter(recent, keep);
    var r := SaveRecentNext(recent, search);
    forall i, j | 0 <= i < j < |r| ensures r[i] != r[j] {
      if i == 0 {
        assert r[j] == filtered[j - 1];
      } else {
        assert r[i] == filtered[i - 1] && r[j] == filtered[j - 1];
        assert id(filtered[i - 1]) != id(filtered[j - 1]);
      }
    }
  }

  /** Saving the same search twice is saving it once. */
  lemma SaveRecentIdempotent(recent: seq<string>, search: string)
    ensures SaveRecentNext(SaveRecentNext(recent, search), search) == SaveRecentNext(recent, search)
  {
    var r := SaveRecentNext(recent, search);
    SaveRecentFront(recent, search);
    FilterAfterFront(r, search);
  }

  /** Filtering the search out of a list that starts with it, and holds it
      nowhere else, drops the head. */
  lemma FilterAfterFront(r: seq<string>, search: string)
    requires r != [] && r[0] == search
    requires forall k :: 1 <= k < |r| ==> r[k] != search
    ensures Filter(r, (s: string) => s != search) == r[1..]
  {
    var keep := (s: string) => s != search;
    assert r == [r[0]] + r[1..];
    FilterConcat([r[0]], r[1..], keep);
    assert Filter([r[0]], keep) == [];
    forall k | 0 <= k < |r[1..]| ensures keep(r[1..][k]) {
      assert r[1..][k] == r[k + 1];
    }
    FilterKeepsAll(r[1..], keep);
  }

  // ---------------------------------------------------------------------------
  // The displayed list
  // ---------------------------------------------------------------------------

  const Trending: seq<Suggestion> := [
    Suggestion("t1", "Paracetamol 650mg", TrendingResult, None, Some("Pain Relief")),
    Suggestion("t2", "Dolo 650", TrendingResult, None, Some("Pain Relief")),
    Suggestion("t3", "Azithromycin", TrendingResult, None, Some("Antibiotic")),
    Suggestion("t4", "Vitamin D3", TrendingResult, None, Some("Vitamins")),
    Suggestion("t5", "Omeprazole", TrendingResult, None, Some("Digestive"))
  ]

  /** `r${i}`: a recent search shown as a suggestion. */
  function RecentSuggestion(search: string, i: nat): Suggestion {
    Suggestion("r" + Utils.NatToString(i), search, RecentResult, None, None)
  }

  /** `getDefaultSuggestions`: the first five recent searches, then the
      trending list. */
  function DefaultSuggestions(recent: seq<string>): seq<Suggestion> {
    var shown := recent[..Min(MaxRecentShown, |recent|)];
    seq(|shown|, i requires 0 <= i < |shown| => RecentSuggestion(shown[i], i)) + Trending
  }

  /** The defaults are at most five recent searches, in order, followed by the
      five trending entries. */
  lemma DefaultSuggestionsShape(recent: seq<string>)
    ensures var d := DefaultSuggestions(recent);
      var n := Min(MaxRecentShown, |recent|);
      && |d| == n + |Trending| && n <= 5 && |Trending| == 5
      && (forall i :: 0 <= i < n ==> d[i].kind == RecentResult && d[i].name == recent[i])
      && d[n..] == Trending
  {
  }

  /** `query.trim().length >= 2 ? suggestions : getDefaultSuggestions()` */
  function Displayed(query: string, suggestions: seq<Suggestion>, recent: seq<string>): seq<Suggestion> {
    if |Trim(query)| >= MinQueryLength then suggestions else DefaultSuggestions(recent)
  }

  /** A short query always shows the defaults, whatever was fetched before; a
      longer one shows exactly what was fetched. */
  lemma DisplayedChoice(query: string, suggestions: seq<Suggestion>, recent: seq<string>)
    ensures |Trim(query)| < MinQueryLength ==>
      Displayed(query, suggestions, recent) == DefaultSuggestions(recent)
      && |Displayed(query, suggestions, recent)| >= |Trending|
    ensures |Trim(query)| >= MinQueryLength ==> Displayed(query, suggestions, recent) == suggestions
  {
    DefaultSuggestionsShape(recent);
  }

  // ---------------------------------------------------------------------------
  // getMockSuggestions
  // ---------------------------------------------------------------------------

  datatype MockMedicine = MockMedicine(name: string, category: string, manufacturer: string)

  datatype MockPharmacy = MockPharmacy(name: string, subtitle: string)

  const MockMedicines: seq<MockMedicine> := [
    MockMedicine("Dolo 650 Tablet", "Pain Relief", "Micro Labs"),
    MockMedicine("Paracetamol 500mg", "Pain Relief", "Generic"),
    MockMedicine("Azithromycin 500mg", "Antibiotic", "Cipla"),
    MockMedicine("Crocin Advance", "Pain Relief", "GSK"),
    MockMedicine("Amoxicillin 250mg", "Antibiotic", "Ranbaxy"),
    MockMedicine("Cetirizine 10mg", "Allergy", "Cipla"),
    MockMedicine("Pantoprazole 40mg", "Digestive", "Sun Pharma"),
    MockMedicine("Metformin 500mg", "Diabetes", "USV"),
    MockMedicine("Atorvastatin 10mg", "Heart Care", "Pfizer"),
    MockMedicine("Vitamin D3 60K", "Vitamins", "Mankind")
  ]

  const MockPharmacies: seq<MockPharmacy> := [
    MockPharmacy("Apollo Pharmacy", "Koramangala, Bangalore"),
    MockPharmacy("MedPlus", "Indiranagar, Bangalore"),
    MockPharmacy("Wellness Forever", "HSR Layout, Bangalore")
  ]

  /** `name.toLowerCase().includes(q.toLowerCase())` */
  predicate NameMatches(name: string, q: string) {
    Contains(Lower(name), Lower(q))
  }

  function MedicineSuggestion(idx: nat): Suggestion
    requires idx < |MockMedicines|
  {
    var med := MockMedicines[idx];
    Suggestion("m" + Utils.NatToString(idx), med.name, MedicineResult,
               Some(med.manufacturer + " \U{2022} " + med.category), Some(med.category))
  }

  function PharmacySuggestion(idx: nat): Suggestion
    requires idx < |MockPharmacies|
  {
    var pharm := MockPharmacies[idx];
    Suggestion("p" + Utils.NatToString(idx), pharm.name, PharmacyResult, Some(pharm.subtitle), None)
  }

  /** The suggestions the medicine loop has pushed after its first `n` rounds. */
  function MedicineHits(q: string, n: nat): seq<Suggestion>
    requires n <= |MockMedicines|
  {
    if n == 0 then []
    else MedicineHits(q, n - 1) + (if NameMatches(MockMedicines[n - 1].name, q) then [MedicineSuggestion(n - 1)] else [])
  }

  /** The suggestions the pharmacy loop has pushed after its first `n` rounds. */
  function PharmacyHits(q: string, n: nat): seq<Suggestion>
    requires n <= |MockPharmacies|
  {
    if n == 0 then []
    else PharmacyHits(q, n - 1) + (if NameMatches(MockPharmacies[n - 1].name, q) then [PharmacySuggestion(n - 1)] else [])
  }

  /** What `getMockSuggestions(q)` returns. */
  function MockSuggestions(q: string): seq<Suggestion> {
    var all := MedicineHits(q, |MockMedicines|) + PharmacyHits(q, |MockPharmacies|);
    all[..Min(MaxMock, |all|)]
  }

  /** The medicine hits are exactly the matching medicines, in table order. */
  lemma MedicineHitsExact(q: string, n: nat)
    requires n <= |MockMedicines|
    ensures |MedicineHits(q, n)| <= n
    ensures forall k :: 0 <= k < |MedicineHits(q, n)| ==>
      MedicineHits(q, n)[k].kind == MedicineResult && NameMatches(MedicineHits(q, n)[k].name, q)
    ensures forall i :: 0 <= i < n ==> (MedicineSuggestion(i) in MedicineHits(q, n) <==> NameMatches(MockMedicines[i].name, q))
  {
    MedicineHitsMatch(q, n);
    MedicineHitsMembers(q, n);
  }

  lemma {:induction false} MedicineHitsMatch(q: string, n: nat)
    requires n <= |MockMedicines|
    ensures |MedicineHits(q, n)| <= n
    ensures forall k :: 0 <= k < |MedicineHits(q, n)| ==>
      MedicineHits(q, n)[k].kind == MedicineResult && NameMatches(MedicineHits(q, n)[k].name, q)
  {
    if n > 0 {
      MedicineHitsMatch(q, n - 1);
      var prev := MedicineHits(q, n - 1);
      var r := MedicineHits(q, n);
      forall k | 0 <= k < |r| ensures r[k].kind == MedicineResult && NameMatches(r[k].name, q) {
        if k < |prev| {
          assert r[k] == prev[k];
        }
      }
    }
  }

  lemma {:induction false} MedicineHitsMembers(q: string, n: nat)
    requires n <= |MockMedicines|
    ensures forall i :: 0 <= i < n ==> (MedicineSuggestion(i) in MedicineHits(q, n) <==> NameMatches(MockMedicines[i].name, q))
  {
    if n > 0 {
      MedicineHitsMembers(q, n - 1);
      forall i | 0 <= i < n ensures MedicineSuggestion(i) in MedicineHits(q, n) <==> NameMatches(MockMedicines[i].name, q) {
        MedicineHitsMemberStep(q, n, i);
      }
    }
  }

  /** One more round keeps the earlier rows' membership and settles the new row's. */
  lemma MedicineHitsMemberStep(q: string, n: nat, i: nat)
    requires 0 < n <= |MockMedicines| && i < n
    requires i < n - 1 ==> (MedicineSuggestion(i) in MedicineHits(q, n - 1) <==> NameMatches(MockMedicines[i].name, q))
    ensures MedicineSuggestion(i) in MedicineHits(q, n) <==> NameMatches(MockMedicines[i].name, q)
  {
    var prev := MedicineHits(q, n - 1);
    var last := if NameMatches(MockMedicines[n - 1].name, q) then [MedicineSuggestion(n - 1)] else [];
    assert MedicineHits(q, n) == prev + last;
    if i < n - 1 {
      MedicineIdsDiffer(i, n - 1);
      assert MedicineSuggestion(i) !in last;
    } else if !NameMatches(MockMedicines[i].name, q) {
      MedicineHitsMatch(q, n - 1);
      assert MedicineSuggestion(i).name == MockMedicines[i].name;
    }
  }

  /** Different table rows give different suggestions (their ids differ). */
  lemma MedicineIdsDiffer(i: nat, j: nat)
    requires i < j < |MockMedicines|
    ensures MedicineSuggestion(i) != MedicineSuggestion(j)
  {
    IdsDiffer("m", i, j);
  }

  lemma PharmacyIdsDiffer(i: nat, j: nat)
    requires i < j < |MockPharmacies|
    ensures PharmacySuggestion(i) != PharmacySuggestion(j)
  {
    IdsDiffer("p", i, j);
  }

  lemma IdsDiffer(prefix: string, i: nat, j: nat)
    requires i < j
    ensures prefix + Utils.NatToString(i) != prefix + Utils.NatToString(j)
  {
    var a, b := Utils.NatToString(i), Utils.NatToString(j);
    assert (prefix + a)[|prefix|..] == a;
    assert (prefix + b)[|prefix|..] == b;
    assert a != b by {
      assert Utils.Value(a) != Utils.Value(b);
    }
  }

  /** The pharmacy hits are exactly the matching pharmacies, in table order. */
  lemma PharmacyHitsExact(q: string, n: nat)
    requires n <= |MockPharmacies|
    ensures |PharmacyHits(q, n)| <= n
    ensures forall k :: 0 <= k < |PharmacyHits(q, n)| ==>
      PharmacyHits(q, n)[k].kind == PharmacyResult && NameMatches(PharmacyHits(q, n)[k].name, q)
    ensures forall i :: 0 <= i < n ==> (PharmacySuggestion(i) in PharmacyHits(q, n) <==> NameMatches(MockPharmacies[i].name, q))
  {
    PharmacyHitsMatch(q, n);
    PharmacyHitsMembers(q, n);
  }

  lemma {:induction false} PharmacyHitsMatch(q: string, n: nat)
    requires n <= |MockPharmacies|
    ensures |PharmacyHits(q, n)| <= n
    ensures forall k :: 0 <= k < |PharmacyHits(q, n)| ==>
      PharmacyHits(q, n)[k].kind == PharmacyResult && NameMatches(PharmacyHits(q, n)[k].name, q)
  {
    if n > 0 {
      PharmacyHitsMatch(q, n - 1);
      var prev := PharmacyHits(q, n - 1);
      var r := PharmacyHits(q, n);
      forall k | 0 <= k < |r| ensures r[k].kind == PharmacyResult && NameMatches(r[k].name, q) {
        if k < |prev| {
          assert r[k] == prev[k];
        }
      }
    }
  }

  lemma {:induction false} PharmacyHitsMembers(q: string, n: nat)
    requires n <= |MockPharmacies|
    ensures forall i :: 0 <= i < n ==> (PharmacySuggestion(i) in PharmacyHits(q, n) <==> NameMatches(MockPharmacies[i].name, q))
  {
    if n > 0 {
      PharmacyHitsMembers(q, n - 1);
      forall i | 0 <= i < n ensures PharmacySuggestion(i) in PharmacyHits(q, n) <==> NameMatches(MockPharmacies[i].name, q) {
        PharmacyHitsMemberStep(q, n, i);
      }
    }
  }

  /** One more round keeps the earlier rows' membership and settles the new row's. */
  lemma PharmacyHitsMemberStep(q: string, n: nat, i: nat)
    requires 0 < n <= |MockPharmacies| && i < n
    requires i < n - 1 ==> (PharmacySuggestion(i) in PharmacyHits(q, n - 1) <==> NameMatches(MockPharmacies[i].name, q))
    ensures PharmacySuggestion(i) in PharmacyHits(q, n) <==> NameMatches(MockPharmacies[i].name, q)
  {
    var prev := PharmacyHits(q, n - 1);
    var last := if NameMatches(MockPharmacies[n - 1].name, q) then [PharmacySuggestion(n - 1)] else [];
    assert PharmacyHits(q, n) == prev + last;
    if i < n - 1 {
      PharmacyIdsDiffer(i, n - 1);
      assert PharmacySuggestion(i) !in last;
    } else if !NameMatches(MockPharmacies[i].name, q) {
      PharmacyHitsMatch(q, n - 1);
      assert PharmacySuggestion(i).name == MockPharmacies[i].name;
    }
  }

  /** Every mock suggestion contains the query case-insensitively, no
      medicine comes after a pharmacy, and there are at most ten. */
  lemma MockSuggestionsShape(q: string)
    ensures var r := MockSuggestions(q);
      && |r| <= MaxMock
      && (forall k :: 0 <= k < |r| ==> NameMatches(r[k].name, q))
      && (forall k :: 0 <= k < |r| ==> r[k].kind == MedicineResult || r[k].kind == PharmacyResult)
      && (forall i, j :: 0 <= i < j < |r| && r[i].kind == PharmacyResult ==> r[j].kind == PharmacyResult)
  {
    var meds := MedicineHits(q, |MockMedicines|);
    var pharms := PharmacyHits(q, |MockPharmacies|);
    MedicineHitsExact(q, |MockMedicines|);
    PharmacyHitsExact(q, |MockPharmacies|);
    var all := meds + pharms;
    forall k | 0 <= k < |all| ensures NameMatches(all[k].name, q)
      && (all[k].kind == MedicineResult <==> k < |meds|) && (all[k].kind == PharmacyResult <==> k >= |meds|)
    {
      if k >= |meds| {
        assert all[k] == pharms[k - |meds|];
      }
    }
  }

  /** Every matching medicine is listed: the table has ten medicines, so the
      cut at ten only ever drops pharmacies. */
  lemma MockSuggestionsComplete(q: string, i: nat)
    requires i < |MockMedicines|
    ensures NameMatches(MockMedicines[i].name, q) ==> MedicineSuggestion(i) in MockSuggestions(q)
  {
    MedicineHitsExact(q, |MockMedicines|);
    var meds := MedicineHits(q, |MockMedicines|);
    var all := meds + PharmacyHits(q, |MockPharmacies|);
    if NameMatches(MockMedicines[i].name, q) {
      var k :| 0 <= k < |meds| && meds[k] == MedicineSuggestion(i);
      assert all[k] == meds[k];
      assert MockSuggestions(q)[k] == all[k];
    }
  }

  /** `medicines.forEach(…)`: pushes every matching medicine, in table order. */
  method PushMedicines(q: string, filtered: seq<Suggestion>) returns (r: seq<Suggestion>)
    ensures r == filtered + MedicineHits(q, |MockMedicines|)
  {
    r := filtered;
    var idx := 0;
    while idx < |MockMedicines|
      invariant 0 <= idx <= |MockMedicines|
      invariant r == filtered + MedicineHits(q, idx)
    {
      var hit := if NameMatches(MockMedicines[idx].name, q) then [MedicineSuggestion(idx)] else [];
      assert MedicineHits(q, idx + 1) == MedicineHits(q, idx) + hit;
      if NameMatches(MockMedicines[idx].name, q) {
        r := r + [MedicineSuggestion(idx)];
      }
      idx := idx + 1;
    }
  }

  /** `pharmacies.forEach(…)`: pushes every matching pharmacy, in table order. */
  method PushPharmacies(q: string, filtered: seq<Suggestion>) returns (r: seq<Suggestion>)
    ensures r == filtered + PharmacyHits(q, |MockPharmacies|)
  {
    r := filtered;
    var idx := 0;
    while idx < |MockPharmacies|
      invariant 0 <= idx <= |MockPharmacies|
      invariant r == filtered + PharmacyHits(q, idx)
    {
      var hit := if NameMatches(MockPharmacies[idx].name, q) then [PharmacySuggestion(idx)] else [];
      assert PharmacyHits(q, idx + 1) == PharmacyHits(q, idx) + hit;
      if NameMatches(MockPharmacies[idx].name, q) {
        r := r + [PharmacySuggestion(idx)];
      }
      idx := idx + 1;
    }
  }

  /** `getMockSuggestions`: the two loops push into `filtered`, which is then
      cut with `filtered.slice(0, 10)`. */
  method GetMockSuggestions(q: string) returns (r: seq<Suggestion>)
    ensures r == MockSuggestions(q)
    ensures |r| <= MaxMock && forall k :: 0 <= k < |r| ==> NameMatches(r[k].name, q)
  {
    var filtered := PushMedicines(q, []);
    filtered := PushPharmacies(q, filtered);
    assert filtered == MedicineHits(q, |MockMedicines|) + PharmacyHits(q, |MockPharmacies|);
    r := filtered[..Min(MaxMock, |filtered|)];
    MockSuggestionsShape(q);
  }

  // ---------------------------------------------------------------------------
  // Keyboard selection
  // ---------------------------------------------------------------------------

  /** `prev < displayedSuggestions.length - 1 ? prev + 1 : prev` */
  function ArrowDownNext(prev: int, len: nat): int {
    if prev < len - 1 then prev + 1 else prev
  }

  /** `prev > 0 ? prev - 1 : -1` */
  function ArrowUpNext(prev: int): int {
    if prev > 0 then prev - 1 else -1
  }

  /** An index is a list position or -1, "nothing highlighted". */
  predicate InRange(index: int, len: nat) {
    -1 <= index < len
  }

  /** Arrow keys keep the highlighted index within [-1, len - 1]: down moves
      one step unless the last entry is highlighted, up moves one step and
      leaves the list from its first entry. */
  lemma ArrowKeysInRange(prev: int, len: nat)
    requires InRange(prev, len)
    ensures InRange(ArrowDownNext(prev, len), len) && InRange(ArrowUpNext(prev), len)
    ensures ArrowDownNext(prev, len) == (if prev == len - 1 then prev else prev + 1)
    ensures ArrowUpNext(prev) == (if prev <= 0 then -1 else prev - 1)
    ensures ArrowDownNext(prev, len) <= len - 1 || len == 0
  {
  }

  /** Down then up comes back to where it started unless the last entry was
      highlighted. */
  lemma ArrowDownThenUp(prev: int, len: nat)
    requires -1 <= prev < len - 1
    ensures ArrowUpNext(ArrowDownNext(prev, len)) == prev
  {
  }

  /** What a key press does to the highlighted index, the open flag and the
      query, and where it navigates to (Enter only). */
  datatype Outcome = Outcome(state: State, navigation: Option<Navigation>)

  datatype State = State(
    query: string,
    suggestions: seq<Suggestion>,
    isOpen: bool,
    selectedIndex: int,
    recentSearches: seq<string>)

  const Initial: State := State("", [], false, -1, [])

  /** `item.type === 'pharmacy' ? 'pharmacy' : 'medicine'` */
  function SearchTypeOf(kind: ResultType): (t: SearchStore.SearchType)
    ensures t == SearchStore.Pharmacy <==> kind == PharmacyResult
  {
    if kind == PharmacyResult then SearchStore.Pharmacy else SearchStore.Medicine
  }

  /** `handleSelect(item)` */
  function SelectNext(s: State, item: Suggestion): Outcome {
    Outcome(s.(query := item.name, isOpen := false, recentSearches := SaveRecentNext(s.recentSearches, item.name)),
            Some(Navigation(item.name, SearchTypeOf(item.kind))))
  }

  /** `handleSearch(searchQuery)` */
  function SearchNext(s: State, searchQuery: string): Outcome {
    Outcome(s.(isOpen := false, recentSearches := SaveRecentNext(s.recentSearches, searchQuery)),
            Some(Navigation(searchQuery, SearchStore.Medicine)))
  }

  /** `handleKeyDown`, on the list displayed when the key is pressed. */
  function KeyDownNext(s: State, key: Key): Outcome {
    var shown := Displayed(s.query, s.suggestions, s.recentSearches);
    match key
    case ArrowDown => Outcome(s.(selectedIndex := ArrowDownNext(s.selectedIndex, |shown|)), None)
    case ArrowUp => Outcome(s.(selectedIndex := ArrowUpNext(s.selectedIndex)), None)
    case Enter =>
      if 0 <= s.selectedIndex < |shown| then SelectNext(s, shown[s.selectedIndex])
      else if Trim(s.query) != "" then SearchNext(s, s.query)
      else Outcome(s, None)
    case Escape => Outcome(s.(isOpen := false), None)
    case OtherKey => Outcome(s, None)
  }

  /** Enter picks the highlighted entry when the index points into the list,
      navigating with type pharmacy exactly for pharmacy entries; otherwise it
      searches the query as a medicine iff the trimmed query is non-empty;
      otherwise nothing happens. Either way a navigation saves its query as
      the most recent search and closes the list. */
  lemma EnterEffect(s: State)
    ensures var shown := Displayed(s.query, s.suggestions, s.recentSearches);
      var o := KeyDownNext(s, Enter);
      && (0 <= s.selectedIndex < |shown| ==>
            o.navigation == Some(Navigation(shown[s.selectedIndex].name,
              if shown[s.selectedIndex].kind == PharmacyResult then SearchStore.Pharmacy else SearchStore.Medicine))
            && o.state.query == shown[s.selectedIndex].name)
      && (!(0 <= s.selectedIndex < |shown|) && Trim(s.query) != "" ==>
            o.navigation == Some(Navigation(s.query, SearchStore.Medicine)) && o.state.query == s.query)
      && (!(0 <= s.selectedIndex < |shown|) && Trim(s.query) == "" ==> o == Outcome(s, None))
      && (o.navigation.Some? ==>
            !o.state.isOpen && o.state.recentSearches == SaveRecentNext(s.recentSearches, o.navigation.value.searchQuery))
  {
  }

  /** Arrow keys change only the highlighted index, and keep it in range when
      the displayed list is unchanged. */
  lemma ArrowKeysOnlyMoveIndex(s: State, key: Key)
    requires key == ArrowDown || key == ArrowUp
    requires InRange(s.selectedIndex, |Displayed(s.query, s.suggestions, s.recentSearches)|)
    ensures var o := KeyDownNext(s, key);
      && o.navigation.None?
      && o.state == s.(selectedIndex := o.state.selectedIndex)
      && InRange(o.state.selectedIndex, |Displayed(s.query, s.suggestions, s.recentSearches)|)
  {
    ArrowKeysInRange(s.selectedIndex, |Displayed(s.query, s.suggestions, s.recentSearches)|);
  }

  /** The list the fetch effect stores: nothing below two trimmed
      characters, otherwise the server's list (empty when the body has none),
      or the mock list when the request fails. */
  function Fetched(query: string, outcome: FetchOutcome): seq<Suggestion> {
    if |Trim(query)| < MinQueryLength then []
    else match outcome
      case Answered(Some(list)) => list
      case Answered(None) => []
      case _ => MockSuggestions(query)
  }

  /** The list the debounced fetch stores. */
  method FetchList(query: string, outcome: FetchOutcome) returns (next: seq<Suggestion>)
    ensures next == Fetched(query, outcome)
  {
    if |Trim(query)| < MinQueryLength {
      next := [];
    } else if outcome.Answered? {
      next := if outcome.suggestions.Some? then outcome.suggestions.value else [];
    } else {
      next := GetMockSuggestions(query);
    }
  }

  /** The fetched list is cleared below two trimmed characters, is the
      server's list when there is one, and otherwise at most ten mock entries
      that all contain the query. */
  lemma FetchedEffect(query: string, outcome: FetchOutcome)
    ensures var r := Fetched(query, outcome);
      && (|Trim(query)| < MinQueryLength ==> r == [])
      && (|Trim(query)| >= MinQueryLength && outcome.Answered? ==>
            r == match outcome.suggestions case Some(list) => list case None => [])
      && (|Trim(query)| >= MinQueryLength && !outcome.Answered? ==>
            |r| <= MaxMock && forall k :: 0 <= k < |r| ==> NameMatches(r[k].name, query))
  {
    MockSuggestionsShape(query);
  }

  class Autocomplete {
    var query: string
    var suggestions: seq<Suggestion>
    var isOpen: bool
    var selectedIndex: int
    var recentSearches: seq<string>

    function Snapshot(): State reads this {
      State(query, suggestions, isOpen, selectedIndex, recentSearches)
    }

    ghost predicate Valid() reads this {
      selectedIndex >= -1 && |recentSearches| <= MaxRecent
    }

    constructor ()
      ensures Snapshot() == Initial && Valid()
    {
      query, suggestions, isOpen, selectedIndex, recentSearches := "", [], false, -1, [];
    }

    /** The list the dropdown shows. */
    function DisplayedSuggestions(): seq<Suggestion> reads this {
      Displayed(query, suggestions, recentSearches)
    }

    /** The input's `onChange`: a new query opens the list and clears the
        highlight. */
    method OnChange(value: string)
      requires Valid()
      modifies this
      ensures Valid()
      ensures Snapshot() == old(Snapshot()).(query := value, isOpen := true, selectedIndex := -1)
    {
      query, isOpen, selectedIndex := value, true, -1;
    }

    method OnFocus()
      modifies this
      ensures Snapshot() == old(Snapshot()).(isOpen := true)
    {
      isOpen := true;
    }

    /** The clear button. */
    method ClearQuery()
      requires Valid()
      modifies this
      ensures Valid()
      ensures Snapshot() == old(Snapshot()).(query := "", suggestions := [], selectedIndex := -1)
    {
      query, suggestions, selectedIndex := "", [], -1;
    }

    /** The debounced fetch, with the server's answer as a parameter. */
    method FetchSuggestions(outcome: FetchOutcome)
      requires Valid()
      modifies this`suggestions
      ensures Valid()
      ensures suggestions == Fetched(query, outcome)
    {
      suggestions := FetchList(query, outcome);
    }

    method SaveRecentSearch(search: string)
      requires Valid()
      modifies this
      ensures Valid()
      ensures Snapshot() == old(Snapshot()).(recentSearches := SaveRecentNext(old(recentSearches), search))
    {
      SaveRecentFront(recentSearches, search);
      var updated := [search] + Filter(recentSearches, (s: string) => s != search);
      recentSearches := updated[..Min(MaxRecent, |updated|)];
    }

    method ClearRecentSearches()
      requires Valid()
      modifies this
      ensures Valid()
      ensures Snapshot() == old(Snapshot()).(recentSearches := [])
    {
      recentSearches := [];
    }

    method HandleSelect(item: Suggestion) returns (nav: Navigation)
      requires Valid()
      modifies this
      ensures Valid()
      ensures Outcome(Snapshot(), Some(nav)) == SelectNext(old(Snapshot()), item)
    {
      query, isOpen := item.name, false;
      SaveRecentSearch(item.name);
      nav := Navigation(item.name, SearchTypeOf(item.kind));
    }

    method HandleSearch(searchQuery: string) returns (nav: Navigation)
      requires Valid()
      modifies this
      ensures Valid()
      ensures Outcome(Snapshot(), Some(nav)) == SearchNext(old(Snapshot()), searchQuery)
    {
      isOpen := false;
      SaveRecentSearch(searchQuery);
      nav := Navigation(searchQuery, SearchStore.Medicine);
    }

    method KeyDown(key: Key) returns (nav: Option<Navigation>)
      requires Valid()
      modifies this
      ensures Valid()
      ensures Outcome(Snapshot(), nav) == KeyDownNext(old(Snapshot()), key)
    {
      ghost var s0 := Snapshot();
      var shown := DisplayedSuggestions();
      assert shown == Displayed(s0.query, s0.suggestions, s0.recentSearches);
      nav := None;
      match key {
        case ArrowDown => selectedIndex := ArrowDownNext(selectedIndex, |shown|);
        case ArrowUp => selectedIndex := ArrowUpNext(selectedIndex);
        case Enter =>
          if 0 <= selectedIndex < |shown| {
            var item := shown[selectedIndex];
            assert KeyDownNext(s0, key) == SelectNext(s0, item);
            var n := HandleSelect(item);
            nav := Some(n);
          } else if Trim(query) != "" {
            assert KeyDownNext(s0, key) == SearchNext(s0, s0.query);
            var n := HandleSearch(query);
            nav := Some(n);
          }
        case Escape => isOpen := false;
        case OtherKey =>
      }
    }
  }
}
