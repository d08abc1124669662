# MedsBharat client logic in Dafny

This project models the sequential logic under the MedsBharat online pharmacy web
application. The application lets patients search medicines and pharmacies, fill a
cart locked to one pharmacy, keep a wishlist and a recently viewed list, and upload
prescriptions whose OCR text is turned into medicines. The model covers the parts
of the TypeScript sources that are deterministic once time, randomness, the user's
confirmation and the network's answers are passed in as parameters:

- **State stores** (`src/store/*.ts`). Each store is a class whose methods change its
  fields as a pure transition function, or a direct equation on the fields, says. The invariants each store keeps
  are its `Valid()` predicate, and the lemmas about the transition functions state
  what every action does:
  - the cart locked to one pharmacy (`Cart`);
  - the additive cart (`CartStore`);
  - the recently viewed history (`RecentlyViewedStore`);
  - the wishlist (`WishlistStore`);
  - the search parameters (`SearchStore`).
- **String and number helpers** of `src/lib/utils.ts` (`Utils`): slugs, discount,
  pincode, phone and e-mail checks, truncation, initials and the delivery estimate.
  Shared sequence and character helpers sit in `Common`.
- **The prescription text parser** of `src/lib/medicine-parser.ts`
  (`MedicineParser`). The regular expressions are written as explicit matchers with
  the leftmost-match rule. The loops of `parseMedicines` and `parseMedicineLine` are
  methods proved against the functions `Parse` and `ParseLine`. The parser is also
  modelled as written, `lastIndex` state included; see Findings.
  `MedicineParserExample` works through the input that shows the difference.
- **Component logic**:
  - the search box's recent searches, keyboard index, mock suggestions and fetch
    effect (`SearchAutocomplete`);
  - the filter sidebar (`AdvancedFilters`);
  - the product list's category fallbacks and in-place sort (`ProductsContent`);
  - the prescription upload page's file checks, removal, add-to-cart and submit
    loop (`UploadPrescription`);
  - the time-ago label (`RecentlyViewed`);
  - the deal countdown and discount (`DealOfTheDay`).
- **The upload API route** `src/app/api/upload/prescription/route.ts`
  (`UploadRoute`): the guard sequence in front of the storage upload, whose answer
  is a parameter.

Prices and other JavaScript numbers that are not counts are `real`. Times are
integer milliseconds. `Math.floor` of a quotient by a positive integer is Dafny's
`/`. JavaScript's truncating `%` is written out. Strings are `seq<char>`, and case
mapping is ASCII only.

## Model

| member | source | states |
|---|---|---|
| Cart.CartStore.constructor | src/store/cart.ts:38-39 | The store starts with no items and no pharmacy, which satisfies the lock invariant. |
| Cart.CartStore.AddItem | src/store/cart.ts:41-76 | Keeps the invariant: pharmacy is null iff the cart is empty, every item is from that pharmacy, ids are unique, quantities are at least 1. The new state is `AddItemNext` of the old one, with the confirmation dialog's answer as a parameter. It asks whenever the cart is locked to another pharmacy, the corrected guard of the Findings table. Where the locked pharmacy id is not `""` this is the guard of line 45 as written (`AddItemAsWrittenAgrees`). |
| Cart.CartStore.RemoveItem | src/store/cart.ts:78-86 | Keeps the invariant, and the new state is `RemoveItemNext` of the old one. |
| Cart.CartStore.UpdateQuantity | src/store/cart.ts:88-99 | Keeps the invariant, and the new state is `UpdateQuantityNext` of the old one. |
| Cart.CartStore.ClearCart | src/store/cart.ts:101-103 | Empties the items, clears the pharmacy and keeps the invariant. |
| Cart.CartStore.GetTotalItems | src/store/cart.ts:105-107 | Returns the sum of the quantities, which is at least the number of lines. |
| Cart.CartStore.GetSubtotal | src/store/cart.ts:109-114 | Returns the sum of price × quantity. |
| Cart.CartStore.GetPharmacyId | src/store/cart.ts:116-118 | Returns the locked pharmacy, which is absent exactly when the cart is empty. |
| Cart.AddItemDeclined | src/store/cart.ts:45-49 | An item from another pharmacy, declined, leaves the cart unchanged. |
| Cart.AddItemConfirmed | src/store/cart.ts:45-56 | An item from another pharmacy, confirmed, replaces the cart with that item alone at quantity 1, locked to its pharmacy. |
| Cart.AddItemExisting | src/store/cart.ts:59-68 | Adding an id already present raises only that line's quantity by one. The pharmacy, the length and every other line stay the same. |
| Cart.AddItemFresh | src/store/cart.ts:69-75 | A new id is appended at the end with quantity 1, and the cart is locked to its pharmacy. |
| Cart.AddItemKeepsLock | src/store/cart.ts:41-76 | `addItem` preserves the single-pharmacy invariant. |
| Cart.RemoveItemEffect | src/store/cart.ts:78-86 | Every line with the id is removed and the rest keep their order. The pharmacy becomes null iff the cart becomes empty, and is otherwise unchanged. |
| Cart.RemoveItemKeepsLock | src/store/cart.ts:78-86 | `removeItem` preserves the invariant. |
| Cart.UpdateQuantityEffect | src/store/cart.ts:88-99 | A quantity ≤ 0 is exactly `removeItem`. A positive one sets the quantity of the matching line and changes nothing else. |
| Cart.UpdateQuantityKeepsLock | src/store/cart.ts:88-99 | `updateQuantity` preserves the invariant. |
| Cart.TotalItemsConcat | src/store/cart.ts:105-107 | The item total is additive over concatenation. |
| Cart.SubtotalConcat | src/store/cart.ts:109-114 | The subtotal is additive over concatenation. |
| Cart.TotalAtLeastLength | src/store/cart.ts:105-107 | With quantities ≥ 1, the total is at least the number of lines. |
| Cart.TotalItemsIncrement | src/store/cart.ts:60-68 | Bumping one line of a cart with unique ids adds exactly 1 to the total. |
| Cart.AddItemTotal | src/store/cart.ts:41-76 | After `addItem` the total grows by one. The exceptions are a pharmacy switch: 1 if confirmed, unchanged if declined. |
| Cart.AddItemAsWrittenAgrees | src/store/cart.ts:45 | The truthiness guard as written agrees with the intended lock test unless the cart is locked to the empty pharmacy id. |
| Cart.LockBypassedByEmptyPharmacyId | src/store/cart.ts:45-75 | As written, an item with pharmacy id `""` followed by one from another pharmacy gives a cart holding two pharmacies without asking. |
| CartStore.CartStore.constructor | src/store/cartStore.ts:25-26 | The store starts with no items and no prescription. |
| CartStore.CartStore.AddItem | src/store/cartStore.ts:28-45 | Keeps medicine ids unique, and the new state is `AddItemNext` of the old one. |
| CartStore.CartStore.RemoveItem | src/store/cartStore.ts:47-51 | Keeps ids unique, and the new state is `RemoveItemNext` of the old one. |
| CartStore.CartStore.UpdateQuantity | src/store/cartStore.ts:53-64 | Keeps ids unique, and the new state is `UpdateQuantityNext` of the old one. |
| CartStore.CartStore.SetPrescription | src/store/cartStore.ts:66-68 | Sets only the prescription URL. |
| CartStore.CartStore.ClearCart | src/store/cartStore.ts:70-72 | Empties the items and clears the prescription URL. |
| CartStore.CartStore.GetTotalItems | src/store/cartStore.ts:74-76 | Returns the sum of the quantities. |
| CartStore.CartStore.GetTotalAmount | src/store/cartStore.ts:78-80 | Returns the sum of price × quantity. |
| CartStore.CartStore.GetItemCount | src/store/cartStore.ts:82-85 | Returns the quantity of the first matching line, or 0 when there is none. |
| CartStore.AddItemKeepsUnique | src/store/cartStore.ts:28-45 | `addItem` keeps medicine ids unique. |
| CartStore.AddItemMerges | src/store/cartStore.ts:30-40 | An existing medicine gets the item's quantity (not 1) added to its line. Other lines, the length and the prescription are unchanged. |
| CartStore.AddItemAppends | src/store/cartStore.ts:41-44 | A new medicine is appended exactly as given. |
| CartStore.RemoveItemEffect | src/store/cartStore.ts:47-51 | All lines for the medicine are filtered out, and the prescription URL is kept. |
| CartStore.UpdateQuantityEffect | src/store/cartStore.ts:53-64 | A quantity ≤ 0 is exactly `removeItem`. Otherwise only the matching quantity is set. |
| CartStore.ItemCountAbsent | src/store/cartStore.ts:82-85 | An absent medicine counts 0. |
| CartStore.ItemCountFirst | src/store/cartStore.ts:82-85 | The count is the quantity of the first matching line. |
| CartStore.AddItemCount | src/store/cartStore.ts:28-45 | With unique ids, `addItem` raises that medicine's count by the item's quantity and leaves other counts alone. |
| CartStore.TotalItemsConcat | src/store/cartStore.ts:74-76 | The total is additive over concatenation. |
| CartStore.AddItemTotal | src/store/cartStore.ts:28-45 | `addItem` raises the total by exactly the item's quantity. |
| CartStore.TotalAmountConcat | src/store/cartStore.ts:78-80 | The amount is additive over concatenation. |
| CartStore.TotalAmountUpdate | src/store/cartStore.ts:78-80 | Replacing one line changes the amount by the new line's price × quantity minus the old one's. |
| CartStore.AddItemAmount | src/store/cartStore.ts:28-45 | `addItem` raises the amount by the added quantity times the price of the line it lands on. That is the price already held for the medicine, which the merge keeps, or the new item's own price. |
| CartStore.TotalItemsUpdate | src/store/cartStore.ts:74-76 | Replacing one line changes the total by the difference of the quantities. |
| RecentlyViewedStore.SliceEnd | src/store/recentlyViewedStore.ts:50-52 | The end index used by `Array.prototype.slice` is clamped to the list, and negative limits count from the end. |
| RecentlyViewedStore.RecentlyViewedStore.constructor | src/store/recentlyViewedStore.ts:30 | The history starts empty. |
| RecentlyViewedStore.RecentlyViewedStore.AddProduct | src/store/recentlyViewedStore.ts:32-44 | Keeps the list within 20 entries with unique ids, and the new list is `AddProductNext` of the old one with `now` as the timestamp. |
| RecentlyViewedStore.RecentlyViewedStore.ClearHistory | src/store/recentlyViewedStore.ts:46-48 | Empties the history. |
| RecentlyViewedStore.RecentlyViewedStore.GetRecentItems | src/store/recentlyViewedStore.ts:50-52 | Returns the first min(limit, length) entries, with a default limit of 10, and changes nothing. |
| RecentlyViewedStore.AddProductFront | src/store/recentlyViewedStore.ts:32-39 | The viewed product comes first, stamped with `now`. Its id occurs exactly once, and the list holds at most 20 entries. |
| RecentlyViewedStore.AddProductPrefix | src/store/recentlyViewedStore.ts:35-42 | The result is a prefix of `[p]` followed by the old list without `p.id`, in order. |
| RecentlyViewedStore.AddProductKeepsUnique | src/store/recentlyViewedStore.ts:35-42 | Ids stay unique. |
| RecentlyViewedStore.AddProductAgain | src/store/recentlyViewedStore.ts:32-42 | Viewing the most recent product again only refreshes its timestamp. |
| RecentlyViewedStore.RecentItemsPrefix | src/store/recentlyViewedStore.ts:50-52 | `getRecentItems` returns a prefix of the history of at most the limit. |
| WishlistStore.WishlistStore.constructor | src/store/wishlistStore.ts:27 | The wishlist starts empty. |
| WishlistStore.WishlistStore.AddToWishlist | src/store/wishlistStore.ts:29-46 | Keeps ids unique, and the new list is `AddNext` of the old one. |
| WishlistStore.WishlistStore.RemoveFromWishlist | src/store/wishlistStore.ts:48-52 | Keeps ids unique, and the new list is `RemoveNext` of the old one. |
| WishlistStore.WishlistStore.IsInWishlist | src/store/wishlistStore.ts:54-56 | True iff some item has the id. |
| WishlistStore.WishlistStore.ClearWishlist | src/store/wishlistStore.ts:58-60 | Empties the list. |
| WishlistStore.WishlistStore.GetWishlistCount | src/store/wishlistStore.ts:62-64 | Returns the list length. |
| WishlistStore.AddMembership | src/store/wishlistStore.ts:29-46 | After adding, exactly the old ids and the new one are present. The length grows by one iff the id was new. |
| WishlistStore.AddIdempotent | src/store/wishlistStore.ts:31-34 | Adding a present id changes nothing, not even its timestamp. |
| WishlistStore.AddKeepsUnique | src/store/wishlistStore.ts:36-44 | Ids stay unique. |
| WishlistStore.RemoveMembership | src/store/wishlistStore.ts:48-56 | After removing, exactly the other old ids are present. |
| WishlistStore.RemoveUndoesAdd | src/store/wishlistStore.ts:36-52 | Removing a newly added item restores the list. |
| SearchStore.SearchStore.constructor | src/store/searchStore.ts:15-17 | Starts with query `""`, type medicine and no location. |
| SearchStore.SearchStore.SetQuery | src/store/searchStore.ts:19 | Changes only the query. |
| SearchStore.SearchStore.SetSearchType | src/store/searchStore.ts:21 | Changes only the search type. |
| SearchStore.SearchStore.SetUserLocation | src/store/searchStore.ts:23 | Changes only the location. |
| SearchStore.SearchStore.ClearSearch | src/store/searchStore.ts:25 | Resets the query and the type and keeps the location. |
| SearchStore.ClearNext | src/store/searchStore.ts:25 | The cleared state has an empty query, type medicine and the old location. |
| SearchStore.ClearIdempotent | src/store/searchStore.ts:15-25 | Clearing twice equals clearing once. Clearing a store without a location gives the initial state. |
| Utils.NatToString | src/lib/utils.ts:106-109 | The decimal form of a number (``String(n)`` inside template strings) is all digits, denotes the number and has no superfluous leading zero. |
| Utils.NatToStringValue | src/lib/utils.ts:106-109 | A digit string without a superfluous leading zero prints back as itself: the inverse direction. |
| Utils.NatToStringLength | src/lib/utils.ts:106-109 | A number below 10^k and at least 10^(k-1) has k digits. |
| Utils.SlugifyIsSlug | src/lib/utils.ts:31-37 | A slug is lower-case ASCII letters, digits and `-`, with no leading, trailing or doubled `-`. |
| Utils.SlugifyIdempotent | src/lib/utils.ts:31-37 | Slugifying a slug gives it back, so `slugify` is idempotent. |
| Utils.RoundNearest | src/lib/utils.ts:41 | `Math.round` gives the nearest integer, with halves rounded up. |
| Utils.RoundMonotone | src/lib/utils.ts:41 | `Math.round` is monotone. |
| Utils.DiscountBounds | src/lib/utils.ts:39-42 | For 0 ≤ price ≤ mrp the discount is in 0..100: 0 at the MRP and 100 when free (for mrp > 0). |
| Utils.DiscountNonPositiveMrp | src/lib/utils.ts:40 | An MRP ≤ 0 gives a discount of 0, for any selling price. |
| Utils.DiscountAntitone | src/lib/utils.ts:39-42 | A lower selling price never shows a smaller discount. |
| Utils.PincodeIsSixDigitNumber | src/lib/utils.ts:44-46 | Valid iff the string is the decimal form of a number from 100000 to 999999, that is six digits with the first in 1–9. |
| Utils.PhoneIsTenDigitNumber | src/lib/utils.ts:48-50 | Valid iff ten digits whose value is at least 6000000000, that is a first digit of 6–9. |
| Utils.ValidEmailMatches | src/lib/utils.ts:52-54 | The pattern matches iff there is no whitespace, exactly one `@` with a non-empty local part, and a domain holding a `.` with text on both sides. |
| Utils.TruncateTextShape | src/lib/utils.ts:56-59 | Text that fits is returned unchanged. Longer text becomes its first `max` characters plus `...`, of length max + 3. |
| Utils.InitialsShape | src/lib/utils.ts:61-68 | At most 2 characters, none lower-case. |
| Utils.InitialsOfTwoWords | src/lib/utils.ts:61-68 | "First Last" gives the capitals of the two first letters. |
| Utils.InitialsSkipLeadingSpace | src/lib/utils.ts:61-68 | Empty words from extra spaces contribute nothing. |
| Utils.CeilBounds | src/lib/utils.ts:102 | `Math.ceil(x)` is the least integer ≥ x. |
| Utils.EstimateAccountsForMinutes | src/lib/utils.ts:101-110 | Under 60 minutes it is "N mins". Otherwise hours·60 + mins = minutes, with the minutes part omitted when it is 0. |
| Utils.DeliveryMinutesMonotone | src/lib/utils.ts:101-102 | Never under 30 minutes, and farther is never sooner. |
| Utils.EstimateExamples | src/lib/utils.ts:101-110 | 2.5 km gives "55 mins", 5 km gives "1h 20m" and 9 km gives "2h". |
| Common.Trim | src/lib/medicine-parser.ts:74-77 | `trim()` removes exactly the leading and trailing JavaScript whitespace. |
| Common.Split | src/lib/medicine-parser.ts:74 | `split(sep)` gives the separator-free pieces. |
| Common.JoinSplit | src/lib/medicine-parser.ts:163-165 | Joining the pieces of a split with the separator restores the string. |
| Common.Lower | src/lib/medicine-parser.ts:78 | `toLowerCase()` maps every character and keeps the length. |
| Common.CollapseRunsNoDoubles | src/lib/medicine-parser.ts:184 | `replace(/\s+/g, ' ')` leaves no two adjacent spaces. |
| MedicineParser.TablesNonEmpty | src/lib/medicine-parser.ts:16-67 | Every entry of the form, header, dosage-unit and frequency tables is non-empty, so no empty word can match. |
| MedicineParser.FirstMatchLeftmost | src/lib/medicine-parser.ts:110-111 | `exec` from an index finds the leftmost match at or after it, and none exactly when no position matches. |
| MedicineParser.MatcherAdvances | src/lib/medicine-parser.ts:28-41 | Every pattern's match is non-empty and stays within the string. |
| MedicineParser.FirstPatternTextSpec | src/lib/medicine-parser.ts:108-137 | Dosage and frequency are the leftmost match of the first pattern in list order that matches at all. |
| MedicineParser.FindFirstPattern | src/lib/medicine-parser.ts:108-137 | The pattern loop with `break` returns exactly `FirstPatternText`. |
| MedicineParser.FirstFormSpec | src/lib/medicine-parser.ts:119-126 | The form is the first entry of the forms list that the lower-cased line contains, and appears iff some entry is contained. |
| MedicineParser.FindForm | src/lib/medicine-parser.ts:119-126 | The forms loop returns exactly `FirstForm`. |
| MedicineParser.TabletBeatsTab | src/lib/medicine-parser.ts:119-126 | A line containing "tablet" gets form "tablet", not "tab". |
| MedicineParser.QuantityShape | src/lib/medicine-parser.ts:139-144 | A quantity is a whole run of digits right after `x`, `qty` or `quantity` (and their `[:\s]*`). |
| MedicineParser.NameShape | src/lib/medicine-parser.ts:146-165 | Every name has at least 2 characters. Each of its space-separated words is non-empty, starts with a non-lower-case character, has no upper-case letter after that, and holds only name characters. |
| MedicineParser.ParseMedicineLine | src/lib/medicine-parser.ts:106-175 | The line parser returns exactly `ParseLine`: None when the cleaned name is shorter than 2, otherwise the name, first dosage, first form, quantity, first frequency and the line. |
| MedicineParser.ScanLine | src/lib/medicine-parser.ts:77-97 | One loop round yields exactly `LineResult`. |
| MedicineParser.ParseMedicines | src/lib/medicine-parser.ts:72-101 | The loop over lines returns exactly `Parse`, the intended rule in which each dosage test starts at index 0. |
| MedicineParser.ParseConcat | src/lib/medicine-parser.ts:74-98 | Results follow the order of lines, at most one per line: the parse of `a\nb` is the parse of `a` followed by that of `b`. |
| MedicineParser.LineResultShape | src/lib/medicine-parser.ts:77-97 | A line's result keeps the trimmed line, of length ≥ 3, as `rawText`. It is not a header, and at least one indicator holds. |
| MedicineParser.RawTextIsTrimmedLine | src/lib/medicine-parser.ts:74-97 | Every result's `rawText` is a trimmed line of the input of length ≥ 3. |
| MedicineParser.HeaderSkipped | src/lib/medicine-parser.ts:82 | A line starting (any case) with rx, prescription, date, patient, dr., doctor, address, phone or mobile yields nothing. |
| MedicineParser.RxHeader | src/lib/medicine-parser.ts:82 | A trimmed line starting with "Rx" yields nothing. |
| MedicineParser.NormalizeShape | src/lib/medicine-parser.ts:180-186 | The normalized name is lower-case word characters separated by single spaces, with no space at either end. |
| MedicineParser.NormalizeIdempotent | src/lib/medicine-parser.ts:180-186 | Normalizing twice equals normalizing once. |
| MedicineParser.ResetAgrees | src/lib/medicine-parser.ts:86-90 | With both `lastIndex` values at 0, the written `test` is the intended dosage test. |
| MedicineParser.TestAsWrittenSound | src/lib/medicine-parser.ts:86 | A written `test` that succeeds from a stale `lastIndex` would also succeed from 0. |
| MedicineParser.StepAsWrittenSound | src/lib/medicine-parser.ts:76-98 | A written loop round yields nothing or the intended result for that line. |
| MedicineParser.AsWrittenFromLines | src/lib/medicine-parser.ts:72-101 | As written, the parser never invents a medicine. The k-th one reported is the intended result of line idx[k], and the indices strictly increase, so the lines are distinct and in report order. |
| MedicineParser.KeywordLineAsWritten | src/lib/medicine-parser.ts:86-111 | A keyword line right after a reset is parsed as intended and leaves the dosage pattern's `lastIndex` at the end of its dosage. |
| MedicineParser.DosageLineLost | src/lib/medicine-parser.ts:86-92 | A line whose only indicator is a unit dosage gets nothing as written when the stale `lastIndex` lies past its length. |
| MedicineParser.DosageLineKept | src/lib/medicine-parser.ts:86-96 | The intended rule keeps that line. |
| MedicineParser.LostAfterLongerDosage | src/lib/medicine-parser.ts:76-115 | For such a pair of lines, the written parser reports only the first, while the intended one reports both. |
| MedicineParserExample.DosageLineLostExample | src/lib/medicine-parser.ts:72-101 | On "Dolo 650mg\nXy 5u" the written parser returns exactly one medicine, named "Dolo". The intended one returns that medicine followed by "Xy" with dosage "5u". |
| SearchAutocomplete.SaveRecentFront | src/components/SearchAutocomplete.tsx:209-216 | The search is first and occurs once. The list holds 1..10 entries and is a prefix of the search followed by the others in their old order. |
| SearchAutocomplete.SaveRecentMembers | src/components/SearchAutocomplete.tsx:209-216 | Every entry is the search or an old one, and below ten entries every old one is kept. |
| SearchAutocomplete.SaveRecentDistinct | src/components/SearchAutocomplete.tsx:209-216 | Distinct entries stay distinct. |
| SearchAutocomplete.SaveRecentIdempotent | src/components/SearchAutocomplete.tsx:209-216 | Saving the same search twice equals saving it once. |
| SearchAutocomplete.DefaultSuggestionsShape | src/components/SearchAutocomplete.tsx:97-113 | The defaults are the first ≤ 5 recent searches, in order, followed by the 5 trending entries. |
| SearchAutocomplete.DisplayedChoice | src/components/SearchAutocomplete.tsx:223 | Under 2 trimmed characters the defaults are shown, otherwise exactly the fetched list. |
| SearchAutocomplete.FetchedEffect | src/components/SearchAutocomplete.tsx:65-94 | Below 2 trimmed characters the fetched list is cleared. An answer stores its list, or nothing when it has no suggestions. A failure stores ≤ 10 mock entries that all match. |
| SearchAutocomplete.MedicineHitsExact | src/components/SearchAutocomplete.tsx:116-150 | The medicine loop pushes exactly the medicines whose name contains the query case-insensitively, in table order. |
| SearchAutocomplete.PharmacyHitsExact | src/components/SearchAutocomplete.tsx:116-160 | The pharmacy loop pushes exactly the matching pharmacies, in table order. |
| SearchAutocomplete.MockSuggestionsShape | src/components/SearchAutocomplete.tsx:136-163 | At most 10 entries, every name contains the query case-insensitively, and no medicine comes after a pharmacy. |
| SearchAutocomplete.MockSuggestionsComplete | src/components/SearchAutocomplete.tsx:136-163 | Every matching medicine is listed. |
| SearchAutocomplete.PushMedicines | src/components/SearchAutocomplete.tsx:136-148 | The `forEach` loop appends exactly `MedicineHits`. |
| SearchAutocomplete.PushPharmacies | src/components/SearchAutocomplete.tsx:150-160 | The `forEach` loop appends exactly `PharmacyHits`. |
| SearchAutocomplete.GetMockSuggestions | src/components/SearchAutocomplete.tsx:116-163 | Returns `MockSuggestions`: at most 10 entries, all matching the query. |
| SearchAutocomplete.ArrowKeysInRange | src/components/SearchAutocomplete.tsx:169-176 | Down moves one step but never past len − 1. Up moves one step, with 0 going to −1. Both keep the index in [−1, len − 1]. |
| SearchAutocomplete.ArrowDownThenUp | src/components/SearchAutocomplete.tsx:169-176 | Down then up returns to the start unless the last entry was already highlighted. |
| SearchAutocomplete.SearchTypeOf | src/components/SearchAutocomplete.tsx:199 | The navigation type is pharmacy iff the item is a pharmacy. |
| SearchAutocomplete.EnterEffect | src/components/SearchAutocomplete.tsx:177-207 | Enter selects the highlighted entry when the index is valid. Otherwise it searches the query as a medicine iff the trimmed query is non-empty, and otherwise does nothing. A navigation saves its query and closes the list. |
| SearchAutocomplete.ArrowKeysOnlyMoveIndex | src/components/SearchAutocomplete.tsx:166-176 | Arrow keys change only the index and keep it in range. |
| SearchAutocomplete.Autocomplete.constructor | src/components/SearchAutocomplete.tsx:26-30 | Starts with an empty query, no suggestions, the list closed, no highlight (−1) and no recent searches. |
| SearchAutocomplete.Autocomplete.OnChange | src/components/SearchAutocomplete.tsx:234-237 | Sets the query, opens the list and clears the highlight. |
| SearchAutocomplete.Autocomplete.OnFocus | src/components/SearchAutocomplete.tsx:239 | Only opens the list. |
| SearchAutocomplete.Autocomplete.ClearQuery | src/components/SearchAutocomplete.tsx:251-254 | Clears the query, the suggestions and the highlight. |
| SearchAutocomplete.Autocomplete.FetchSuggestions | src/components/SearchAutocomplete.tsx:65-94 | Only the suggestions change, to `Fetched(query, answer)`. |
| SearchAutocomplete.FetchList | src/components/SearchAutocomplete.tsx:66-89 | The list to store: empty below two trimmed characters, the server's list (or empty) when it answers, and otherwise the mock list. |
| SearchAutocomplete.Autocomplete.SaveRecentSearch | src/components/SearchAutocomplete.tsx:209-216 | Only the recent list changes, to `SaveRecentNext`, and it keeps ≤ 10 entries. |
| SearchAutocomplete.Autocomplete.ClearRecentSearches | src/components/SearchAutocomplete.tsx:218-221 | Only empties the recent list. |
| SearchAutocomplete.Autocomplete.HandleSelect | src/components/SearchAutocomplete.tsx:190-201 | The state and navigation are `SelectNext`. |
| SearchAutocomplete.Autocomplete.HandleSearch | src/components/SearchAutocomplete.tsx:203-207 | The state and navigation are `SearchNext`. |
| SearchAutocomplete.Autocomplete.KeyDown | src/components/SearchAutocomplete.tsx:166-188 | The state and navigation are `KeyDownNext` on the list displayed at the key press. |
| AdvancedFilters.InitialState | src/components/patient/AdvancedFilters.tsx:56-63 | With no props `inStock` is true. A given `inStock`, even false, is kept. |
| AdvancedFilters.UpdateOnlyField | src/components/patient/AdvancedFilters.tsx:81-88 | `updateFilter(k, v)` sets field k to v and leaves every other field as it was. |
| AdvancedFilters.UpdateSameValue | src/components/patient/AdvancedFilters.tsx:81-88 | Setting a field to its current value changes nothing. |
| AdvancedFilters.ToggleMembership | src/components/patient/AdvancedFilters.tsx:90-102 | Toggling flips the value's membership and keeps every other value's. |
| AdvancedFilters.ToggleShape | src/components/patient/AdvancedFilters.tsx:90-102 | An absent value is appended at the end. A present one is removed with all its copies, and the list shrinks. |
| AdvancedFilters.ToggleTwiceAbsent | src/components/patient/AdvancedFilters.tsx:90-102 | Toggling an absent value twice restores the list exactly. |
| AdvancedFilters.ToggleTwicePresent | src/components/patient/AdvancedFilters.tsx:90-102 | Toggling a present value twice moves one copy of it to the end. |
| AdvancedFilters.ActiveFilterCountBounds | src/components/patient/AdvancedFilters.tsx:117-123 | The count is in 0..6. It is 0 iff no criterion narrows the results, and 6 iff all do. |
| AdvancedFilters.ToggleBrandCount | src/components/patient/AdvancedFilters.tsx:90-123 | A brand toggle changes the count by at most 1, and the first brand adds exactly 1. |
| AdvancedFilters.ClearedVersusInitial | src/components/patient/AdvancedFilters.tsx:104-123 | The cleared state counts 0. The initial state without props has `inStock` true, counts 1, and differs from the cleared state only there. |
| AdvancedFilters.FilterPanel.constructor | src/components/patient/AdvancedFilters.tsx:56-63 | The panel starts in `InitialState(props)`. |
| AdvancedFilters.FilterPanel.UpdateFilter | src/components/patient/AdvancedFilters.tsx:81-88 | Installs `UpdateNext` and reports the new filters to `onFilterChange`. |
| AdvancedFilters.FilterPanel.ToggleBrand | src/components/patient/AdvancedFilters.tsx:90-95 | Only the brands change, to `Toggle(brands, brand)`. |
| AdvancedFilters.FilterPanel.ToggleCategory | src/components/patient/AdvancedFilters.tsx:97-102 | Only the categories change, to the toggle. |
| AdvancedFilters.FilterPanel.ClearAllFilters | src/components/patient/AdvancedFilters.tsx:104-115 | Installs and reports the cleared state. |
| AdvancedFilters.FilterPanel.GetActiveFilterCount | src/components/patient/AdvancedFilters.tsx:117-123 | Returns the count, which is ≤ 6. |
| ProductsContent.CategoryParam | src/app/products/ProductsContent.tsx:79 | A missing or empty category parameter means "medicines". |
| ProductsContent.CategoryFallbacks | src/app/products/ProductsContent.tsx:59-76 | An unknown key goes to the API unchanged, gets no mock products and the label "Products". A known key has its own label and mock products. |
| ProductsContent.FetchedProducts | src/app/products/ProductsContent.tsx:97-122 | The fallback flag is set iff the answer brings no non-empty product list, and then the mock list is stored. Otherwise the answer's list is stored. |
| ProductsContent.ParseSortOption | src/app/products/ProductsContent.tsx:128-146 | `popularity` and every unknown option keep the order. |
| ProductsContent.Discount | src/app/products/ProductsContent.tsx:137-138 | 0 when mrp is absent or 0, and in 0..100 when 0 ≤ price ≤ mrp. |
| ProductsContent.SortKeyMeaning | src/app/products/ProductsContent.tsx:129-141 | Sorted by the comparator's key means: prices non-decreasing, prices non-increasing, or discounts non-increasing. |
| ProductsContent.SortInPlace | src/app/products/ProductsContent.tsx:129-141 | The in-place array sort leaves the array sorted by the key and a permutation of its old contents. |
| ProductsContent.SortProducts | src/app/products/ProductsContent.tsx:125-148 | Returns a permutation of the products. It is sorted by the option's key, or unchanged for `popularity` and unknown options. |
| ProductsContent.ProductsPage.constructor | src/app/products/ProductsContent.tsx:81-84 | Starts with no products, no fallback and `popularity`. |
| ProductsContent.ProductsPage.FetchProducts | src/app/products/ProductsContent.tsx:97-122 | Stores `FetchedProducts` and keeps the sort option. |
| ProductsContent.ProductsPage.SetSortBy | src/app/products/ProductsContent.tsx:125-148 | Sets the option. The products become a sorted permutation, and stay unchanged when empty or when the option keeps order. |
| UploadPrescription.Rejection | src/app/upload-prescription/page.tsx:97-106 | A skipped file always has a non-empty message. |
| UploadPrescription.RejectionMeaning | src/app/upload-prescription/page.tsx:97-106 | A file is skipped iff it fails the client rule. The type is checked before the size, and each failure has its own message. |
| UploadPrescription.AcceptedExact | src/app/upload-prescription/page.tsx:94-118 | Exactly the acceptable new files are kept, in order, without a URL yet. |
| UploadPrescription.LastRejectionMeaning | src/app/upload-prescription/page.tsx:84-106 | The error is empty iff no file was skipped. Otherwise it is the message of the last skipped file. |
| UploadPrescription.PreviewOnlyForImages | src/app/upload-prescription/page.tsx:109-111 | Of the accepted types, only images (not the PDF) get a preview. |
| UploadPrescription.FilesAfterCapped | src/app/upload-prescription/page.tsx:88-120 | Over five files in total nothing is added. Starting from ≤ 5, the list stays ≤ 5, and the old files stay in front. |
| UploadPrescription.SubmitGuard | src/app/upload-prescription/page.tsx:205-213 | "No files" is checked before "no contact number", and submission goes on iff both are present. |
| UploadPrescription.CollectUrls | src/app/upload-prescription/page.tsx:220-243 | Without a refusal there is one URL per file, in file order, and a file that has a URL reuses it. |
| UploadPrescription.CollectAttempted | src/app/upload-prescription/page.tsx:220-243 | Without a refusal exactly the files without a URL are sent, in order. |
| UploadPrescription.CollectRefusal | src/app/upload-prescription/page.tsx:235-237 | After a refusal, the last file sent is the refused one. |
| UploadPrescription.CollectStaysFailed | src/app/upload-prescription/page.tsx:235-237 | Once an upload is refused, the loop does nothing more. |
| UploadPrescription.RemoveFileEffect | src/app/upload-prescription/page.tsx:123-126 | Removing an id keeps every other file in order and leaves no file with that id. |
| UploadPrescription.UploadPage.constructor | src/app/upload-prescription/page.tsx:37-46 | The page starts with no files, no error, no OCR result and an empty added-to-cart set. |
| UploadPrescription.UploadPage.HandleFiles | src/app/upload-prescription/page.tsx:83-121 | The files become `FilesAfter`, and the OCR result is cleared. The error is the too-many message or the last rejection. Nothing else changes, and the list stays ≤ 5. |
| UploadPrescription.ScreenFiles | src/app/upload-prescription/page.tsx:94-118 | The loop keeps exactly the acceptable files, in order, and leaves the message of the last file it skipped. |
| UploadPrescription.UploadPage.RemoveFile | src/app/upload-prescription/page.tsx:123-126 | Filters out the id and clears the OCR result. Nothing else changes. |
| UploadPrescription.UploadPage.HandleAddToCart | src/app/upload-prescription/page.tsx:190-200 | The cart takes `addItem` of the medicine, and the id joins the added set, which only grows. |
| UploadPrescription.UploadPage.HandleSubmit | src/app/upload-prescription/page.tsx:202-272 | A failing guard stops before any upload with its message. Otherwise the URLs and sent files are `Collect`'s. A refusal ends with the failure message. On both, the files, name, contact number and instructions are kept for a resubmit. Success records the prescription and clears the files and the form. |
| UploadRoute.MissingFileFirst | src/app/api/upload/prescription/route.ts:10-17 | A missing file gives 400 "No file provided" before any other check, and nothing is uploaded. |
| UploadRoute.TypeBeforeSize | src/app/api/upload/prescription/route.ts:19-34 | A type outside jpeg/jpg/png/pdf gives 400 whatever the size: the type check comes first. |
| UploadRoute.SizeLimit | src/app/api/upload/prescription/route.ts:36-43 | Over 5 × 1024 × 1024 bytes gives 400, and exactly 5 MB is uploaded. |
| UploadRoute.UploadOnlyAfterGuards | src/app/api/upload/prescription/route.ts:7-66 | The upload is attempted iff every guard passes. A failed upload gives 500, success returns its URL, and a refusal otherwise is a 400, or a 500 for unreadable form data. |
| UploadRoute.AgreesWithClient | src/app/api/upload/prescription/route.ts:19-43 | A file reaches storage iff the page's own per-file rule accepts it. |
| UploadRoute.OtherFieldIgnored | src/app/api/upload/prescription/route.ts:10-17 | The route reads only the `prescription` field: a form that carries its file only under `file` is answered 400 "No file provided", and nothing is uploaded. |
| RecentlyViewed.BucketRanges | src/components/patient/RecentlyViewed.tsx:27-35 | The five buckets hold exactly <60, <3600, <86400, <604800 and the rest of the elapsed seconds: they are exclusive and exhaustive. |
| RecentlyViewed.BucketNumbers | src/components/patient/RecentlyViewed.tsx:31-34 | Minutes are 1..59, hours 1..23, days 1..6 and weeks ≥ 1. |
| RecentlyViewed.BucketRoundsDown | src/components/patient/RecentlyViewed.tsx:31-34 | The number is the elapsed time in its unit, rounded down. |
| RecentlyViewed.ElapsedSecondsRoundsDown | src/components/patient/RecentlyViewed.tsx:28 | The seconds round the elapsed milliseconds down, also when negative. |
| RecentlyViewed.RecentOrFutureIsJustNow | src/components/patient/RecentlyViewed.tsx:28-30 | A view under a minute ago, or a timestamp in the future, shows "Just now". |
| RecentlyViewed.FormatShape | src/components/patient/RecentlyViewed.tsx:27-35 | "Just now" appears iff it is the first bucket. Any other label is the number's digits, then the unit letter, then " ago". |
| DealOfTheDay.JsRem | src/components/homepage/DealOfTheDay.tsx:78-79 | JavaScript's `%` has the sign of the dividend. It agrees with the Euclidean remainder for non-negative dividends and is that remainder minus the divisor, or 0, otherwise. |
| DealOfTheDay.ToMidnight | src/components/homepage/DealOfTheDay.tsx:70-75 | The time to the next midnight is in (0, 24 h]. |
| DealOfTheDay.CountdownFieldRanges | src/components/homepage/DealOfTheDay.tsx:77-79 | For diff ≥ 0 the hours are ≥ 0, and the minutes and seconds are both in 0..59. |
| DealOfTheDay.CountdownRecomposes | src/components/homepage/DealOfTheDay.tsx:75-79 | For diff ≥ 0, hours·3600 + minutes·60 + seconds = floor(diff/1000). |
| DealOfTheDay.CountdownHoursBound | src/components/homepage/DealOfTheDay.tsx:72-77 | For 0 ≤ diff ≤ 24 h the hours are ≤ 24, and exactly 24 only at a full day. |
| DealOfTheDay.MidnightCountdownRanges | src/components/homepage/DealOfTheDay.tsx:69-80 | The countdown to midnight always shows 0..24 hours and 0..59 minutes and seconds. |
| DealOfTheDay.CountdownOverdue | src/components/homepage/DealOfTheDay.tsx:77-79 | A negative diff shows negative hours and minutes and seconds in −60..0. |
| DealOfTheDay.DealDiscount | src/components/homepage/DealOfTheDay.tsx:46-48 | The percent is the nearest integer to (mrp − price)/mrp · 100, and none when mrp is 0. |
| DealOfTheDay.DealDiscountIsCalculateDiscount | src/components/homepage/DealOfTheDay.tsx:46-48 | For a positive MRP it equals `calculateDiscount` of src/lib/utils.ts. For a negative MRP that helper gives 0, while the deal computes a number. |
| DealOfTheDay.DealDiscountBounds | src/components/homepage/DealOfTheDay.tsx:46-48 | For 0 ≤ price ≤ mrp and mrp > 0 the percent is in 0..100: 0 at full price, 100 when free. |
| DealOfTheDay.DealDiscountMonotone | src/components/homepage/DealOfTheDay.tsx:46-48 | A lower price never gives a smaller percent. |

## Left out

- JavaScript numbers: prices, discounts and distances are exact reals, not IEEE doubles, so rounding errors of floating point are not modelled. Counts and times are integers.
- Utils.NatToString: number-to-string conversion covers the natural numbers the model prints. Negative numbers and fractions are not rendered.
- Case mapping: `toLowerCase`/`toUpperCase` and the `i` flag map ASCII letters only. Other Unicode letters are left as they are.
- Persistence: zustand's `persist` middleware and `localStorage` reads and writes of the recent searches are I/O. Only the in-memory state is modelled, and a load from storage is not.
- Time and randomness: `Date.now()` is a parameter (`now`, `msIntoDay`, timestamps). `Math.random()` ids of uploaded files are given with each incoming file. The deal's random pick from the top ten medicines is not modelled.
- Network and timers: every `fetch` answer is a parameter. This covers autocomplete, products by category, the upload endpoint and storage's upload result. The 300 ms debounce, `setInterval` and the loading flags are left out.
- Navigation: `router.push` is returned as a `Navigation` value. Input blur and the click-outside handler are not modelled beyond closing the list.
- DealOfTheDay.ToMidnight: models a day of exactly 24 hours. Daylight-saving days of 23 or 25 hours, where `setHours(24)` is a different length away, are not modelled.
- The distance helpers `calculateDistance`/`formatDistance`, and the locale formatting `formatPrice`, `formatDate` and `formatRating`: floating-point trigonometry and `Intl` formatting.
- `generateOrderNumber`: random and time-based.
- ProductsContent.SortProducts: states sortedness and permutation but not the stability of `Array.prototype.sort`. The insertion sort used is stable, but equal-key order is not stated.
- ProductsContent: lookups such as `MOCK_PRODUCTS[category]` with keys like `"__proto__"`, which reach `Object.prototype`, are not modelled. Unknown keys behave as absent.
- AdvancedFilters: `toggleSection` and `expandedSections`, which only open and close sidebar panels, are not modelled.
- UploadPrescription: `handleUploadAndExtract` and `extractMedicines` are not modelled: they are the OCR request, whose answer only fills `ocrResult`. The uploading and extracting flags and the matched-medicines lists inside the OCR result are not modelled either.
- UploadPrescription: the page posts to `/api/upload-prescription`, while the route modelled here lives at `/api/upload/prescription`. The page's own upload endpoint is not part of this model, so its answers are a parameter.
- Cart.CartStore.AddItem: follows the corrected lock test (pharmacy not null), not the truthiness test of src/store/cart.ts:45. The two differ only for a cart locked to the pharmacy id `""`. The written form is `AddItemAsWritten`, see Findings.
- Text length and character access: JavaScript strings are sequences of UTF-16 code units, while Dafny strings here are sequences of characters. Utils.TruncateText (`text.length`, `substring`), Utils.GetInitials (`word[0]`, `substring(0, 2)`) and the `trimmedLine.length < 3` guard of src/lib/medicine-parser.ts:81 therefore count and cut outside the Basic Multilingual Plane differently. For example, `truncateText("😀😀", 1)` splits a surrogate pair in JavaScript, `getInitials("😀 Ann")` takes half of one, and `"😀a"` has length 3 there but 2 here.
- UploadPrescription.UploadPage.HandleSubmit: the `uploadedAt` timestamp (`new Date().toISOString()`), the `console.log` and the three-second `setTimeout` that redirects to `/cart` are not modelled. The upload endpoint's reply is a function of the file (`respond`), so the model gives identical replies to identical files, which a real endpoint need not do.
- UploadPrescription.UploadPage.HandleAddToCart: the id is added to the set even when the user declines the cart's pharmacy switch, as in the source.
- UploadRoute: the checkout page (src/app/(patient)/checkout/page.tsx), which posts its file under `prescription` to this route, is not part of this model.
- UploadRoute: the storage call (`uploadPrescription` of src/lib/cloudinary.ts) is not part of this model. Its result, or that it threw, is a parameter.
- MedicineParser: the frequency and form regular expressions are modelled for the ASCII inputs their classes describe. `\w` and `\s` follow the ECMAScript definitions.
- Rendering: all JSX, the other API routes, seeds and scripts.

## Findings

| source | as written | input that shows it | evidently intended | confidence | as-written member | corrected member |
|---|---|---|---|---|---|---|
| src/store/cart.ts:45 | `if (pharmacyId && pharmacyId !== item.pharmacyId)`: a cart locked to the empty pharmacy id `""` is falsy, so the guard never asks. | Add an item with pharmacy id `""`, then one with pharmacy id `"p1"`: the cart holds both pharmacies. | Any locked cart (pharmacy not null) asks before mixing pharmacies. | not executed | Cart.LockBypassedByEmptyPharmacyId | Cart.AddItemKeepsLock |
| src/lib/medicine-parser.ts:86-111 | The dosage patterns are global (`/gi`). `parseMedicineLine`'s `exec` leaves `lastIndex` at the end of its match, after the reset on line 90, so the next line's `test` starts mid-line. | `"Dolo 650mg\nXy 5u"`: the second line, whose only indicator is "5u", is dropped. | Each line's dosage test searches the whole line. | not executed | MedicineParserExample.DosageLineLostExample | MedicineParser.ParseMedicines |
