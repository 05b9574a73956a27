# MagrayArts storefront core in Dafny

This project models the logic at the centre of the MagrayArts storefront, a Next.js shop for Kashmiri crafts:

- **The shopping store** (`store.dfy`, module `Store`).
  - The cart and favourites state and its mutators.
  - The item-count and total aggregates.
  - The subset of the state that is persisted.
- **The pure helpers** (`utils.dfy`, module `Utils`): `generateSlug`, `truncateText`, `calculateTax` and `calculateShipping`.
- **The product listing** (`products.dfy`, module `Products`).
  - The search and category filters.
  - The five sort keys with their comparators, and an in-place sort of an array.
  - The listing effect, which sorts the shared catalogue array itself when no filter ran.
- **The admin layout** (`admin.dfy`, module `AdminLayout`).
  - The access gate.
  - Exact-path highlighting of the side bar.
  - The header title rule.

Two support modules are shared by the others:

- `seqs.dfy` (`Seqs`) holds the array methods `filter` and `some`, with their laws.
- `ascii.dfy` (`Ascii`) holds the character classes `\w` and `\s` and ASCII `toLowerCase`.

Each piece takes the form it has in the program:

- **The store is stateful.** `Store.ShopStore` is a class whose fields the mutators overwrite.
  - Each mutator's `ensures` ties the new field values to a function of the old ones.
  - Each mutator also keeps the invariant `Valid()`: one cart line per id, positive quantities, one favourite per id.
  - Each says which fields stay as they were.
- **The queries are pure functions.** `getCartTotal`, `getCartItemsCount` and `isFavorite` are functions over the sequences. Lemmas state their laws.
- **The helpers and the layout rules are pure functions.**
- **The listing sorts in place.** `Products.SortProducts` changes an `array` and is proved sorted and a permutation. `Products.FilterAndSort` returns the very catalogue array when neither filter applies, and a fresh array otherwise.

Prices, ratings, weights and money amounts are `real`, so sums are exact. Quantities and lengths are `int`.

## Model

| member | source | states |
|---|---|---|
| Seqs.Filter | magray-arts/src/lib/store.ts:73 | `filter` returns no more elements than it was given, and every one it returns passes the test |
| Seqs.FilterMembership | magray-arts/src/lib/store.ts:73 | a value is in the filtered sequence exactly when it was in the input and passes the test |
| Seqs.FilterMultiplicity | magray-arts/src/app/products/page.tsx:138-146 | the filter keeps every copy of a passing value and no copy of a failing one: nothing is added or duplicated |
| Seqs.FilterConcat | magray-arts/src/lib/store.ts:73 | filtering a concatenation is concatenating the filtered parts, so the order is kept |
| Seqs.FilterAllPass | magray-arts/src/lib/store.ts:73 | a filter that every element passes returns its input unchanged |
| Seqs.FilterCutsOne | magray-arts/src/lib/store.ts:73 | when exactly one element fails, the filter cuts that one out and keeps the order of the rest |
| Seqs.FilterIdempotent | magray-arts/src/lib/store.ts:112 | filtering twice by the same test equals filtering once |
| Seqs.Any | magray-arts/src/lib/store.ts:116 | `some` holds exactly when some element passes the test |
| Ascii.IsSpace | magray-arts/src/lib/utils.ts:18-20 | JavaScript's `\s` and the set `trim()` strips: tab through carriage return (U+0009 to U+000D), space, U+00A0, U+1680, U+2000 to U+200A, U+2028, U+2029, U+202F, U+205F, U+3000 and U+FEFF |
| Ascii.IsWordChar | magray-arts/src/lib/utils.ts:19 | `\w`: an ASCII letter of either case, a digit or the underscore |
| Ascii.LowerChar | magray-arts/src/lib/utils.ts:17 | a capital letter maps to its lower-case letter (code point + 32), any other character is unchanged, and the result is never a capital |
| Ascii.Lower | magray-arts/src/lib/utils.ts:17 | lower-casing keeps the length and lowers each character in place |
| Ascii.LowerOfLower | magray-arts/src/lib/utils.ts:17 | a string without capitals is its own lower-case form |
| Utils.TrimStartWhile | magray-arts/src/lib/utils.ts:18 | removes exactly the longest prefix satisfying the test: the result is a suffix, every removed character satisfies the test, and the result does not start with one |
| Utils.TrimEndWhile | magray-arts/src/lib/utils.ts:18 | removes exactly the longest suffix satisfying the test: the result is a prefix, every removed character satisfies the test, and the result does not end with one |
| Utils.Trim | magray-arts/src/lib/utils.ts:18 | `trim()` removes the longest white-space prefix and suffix; TrimOfUnpadded and TrimKeepsNoUpper state what it keeps |
| Utils.IsKept | magray-arts/src/lib/utils.ts:19 | `[\w\s-]`: the characters the removal stage keeps, namely word characters, white space and the dash |
| Utils.IsSeparator | magray-arts/src/lib/utils.ts:20 | `[\s_-]`: the characters whose runs the collapse turns into one dash, namely white space, the underscore and the dash |
| Utils.DropDisallowed | magray-arts/src/lib/utils.ts:19 | `replace(/[^\w\s-]/g, '')` keeps exactly the word characters, white space and dashes in order; DropLeavesSlugSource and DropOneDisallowed state its effect |
| Utils.CollapseRuns | magray-arts/src/lib/utils.ts:20 | replaces each maximal run of a separator class by one dash; CollapseShape, CollapseGivesSlugChars and CollapseKeepsSingleDashes state its effect |
| Utils.CollapseSeparators | magray-arts/src/lib/utils.ts:20 | `replace(/[\s_-]+/g, '-')`: the collapse over white space, underscore and dash |
| Utils.StripDashes | magray-arts/src/lib/utils.ts:21 | `replace(/^-+|-+$/g, '')` removes the leading and trailing dashes; StripGivesSlug and StripOfUndashed state its effect |
| Utils.CollapseShape | magray-arts/src/lib/utils.ts:20 | replacing each run of separators by one dash (for `[\s_-]` or any other separator class that contains the dash) never leaves two dashes in a row, and the result starts with a dash exactly when the input starts with a separator |
| Utils.PrependKeepsNoDoubleDash | magray-arts/src/lib/utils.ts:20 | putting a character in front of a string without double dashes keeps it so unless both are dashes |
| Utils.GenerateSlug | magray-arts/src/lib/utils.ts:15-22 | the slug holds only `a-z`, `0-9` and `-`, has no dash at either end, and never has two dashes in a row |
| Utils.TrimKeepsNoUpper | magray-arts/src/lib/utils.ts:17-18 | trimming a string without capitals leaves it without capitals |
| Utils.TrimStartKeepsNoUpper | magray-arts/src/lib/utils.ts:18 | removing leading characters never introduces a capital |
| Utils.TrimEndKeepsNoUpper | magray-arts/src/lib/utils.ts:18 | removing trailing characters never introduces a capital |
| Utils.DropLeavesSlugSource | magray-arts/src/lib/utils.ts:19 | after `[^\w\s-]` is removed from a lower-cased string, every character is a word character, white space or a dash, and none is a capital |
| Utils.CollapseGivesSlugChars | magray-arts/src/lib/utils.ts:20 | when every non-separator of the input is a lower-case letter, digit or dash, the collapse leaves only those |
| Utils.PlainKeptIsSlugChar | magray-arts/src/lib/utils.ts:19-20 | a character that survives `[^\w\s-]`, is no capital and no separator is a lower-case letter or digit |
| Utils.SliceStaysClean | magray-arts/src/lib/utils.ts:21 | any slice of a string of slug characters without double dashes is again one |
| Utils.StripGivesSlug | magray-arts/src/lib/utils.ts:21 | stripping the leading and trailing dashes of such a string yields a well-formed slug |
| Utils.StagesMakeSlug | magray-arts/src/lib/utils.ts:15-22 | the five replacement stages, composed, yield a well-formed slug for every input |
| Utils.SkipRun | magray-arts/src/lib/utils.ts:20 | a leading separator run is skipped completely, and nothing after it is |
| Utils.CollapsePlainStep | magray-arts/src/lib/utils.ts:20 | a leading non-separator is copied and the collapse goes on with the rest |
| Utils.CollapsePlainPrefix | magray-arts/src/lib/utils.ts:20 | a prefix without separators passes the collapse unchanged |
| Utils.CollapseKeepsSingleDashes | magray-arts/src/lib/utils.ts:20 | a string whose only separators are single dashes passes the collapse unchanged |
| Utils.CollapseLeadingRun | magray-arts/src/lib/utils.ts:20 | a leading run of separators followed by a non-separator becomes exactly one dash |
| Utils.TrimOfUnpadded | magray-arts/src/lib/utils.ts:18 | a string with no white space at either end is its own trim |
| Utils.StripOfUndashed | magray-arts/src/lib/utils.ts:21 | a string with no dash at either end passes the edge-dash removal unchanged |
| Utils.SlugIsFixedPoint | magray-arts/src/lib/utils.ts:15-22 | every well-formed slug is mapped to itself |
| Utils.SlugCharIsNoSeparator | magray-arts/src/lib/utils.ts:20 | a slug character other than the dash is no separator |
| Utils.GenerateSlugIdempotent | magray-arts/src/lib/utils.ts:15-22 | `generateSlug(generateSlug(s)) == generateSlug(s)` for every `s` |
| Utils.AlnumIsPlain | magray-arts/src/lib/utils.ts:19-20 | a lower-case letter or digit is kept, is no white space, no separator, no capital and no dash |
| Utils.SeparatorIsKept | magray-arts/src/lib/utils.ts:19-20 | every separator survives the removal of `[^\w\s-]` and is no capital |
| Utils.SeparatorRunBecomesOneDash | magray-arts/src/lib/utils.ts:15-22 | two lower-case alphanumeric words joined by any run of white space, underscores and dashes give the words joined by one dash |
| Utils.RunSurvivesCleaning | magray-arts/src/lib/utils.ts:17-19 | lower-casing, trimming and removing `[^\w\s-]` leave alphanumeric words around a separator run unchanged |
| Utils.RunCollapsesToOneDash | magray-arts/src/lib/utils.ts:20-21 | the collapse and the edge-dash removal turn alphanumeric words around a separator run into the words joined by one dash |
| Utils.WordsAroundRunAreKept | magray-arts/src/lib/utils.ts:18-19 | such a string survives the removal of `[^\w\s-]`, has no capitals and has no white space at either end |
| Utils.AlnumAreNoSeparators | magray-arts/src/lib/utils.ts:20 | a string of lower-case letters and digits holds no separator |
| Utils.SeparatorRunBecomesOneDashCollapse | magray-arts/src/lib/utils.ts:20 | the collapse turns `u + run + v` into `u + "-" + v` for separator-free `u` and `v` |
| Utils.CollapseOfPlain | magray-arts/src/lib/utils.ts:20 | a string without separators passes the collapse unchanged |
| Utils.SlugOfCarpetsAndRugs | magray-arts/src/lib/utils.ts:15-22 | "Carpets & Rugs" becomes "carpets-rugs" |
| Utils.CarpetsLowered | magray-arts/src/lib/utils.ts:17 | lower-casing "Carpets & Rugs" gives "carpets & rugs" |
| Utils.CarpetsTrimmed | magray-arts/src/lib/utils.ts:18 | "carpets & rugs" is its own trim |
| Utils.CarpetsKept | magray-arts/src/lib/utils.ts:19 | removing `[^\w\s-]` from "carpets & rugs" drops only the ampersand |
| Utils.LettersAndSpacesAreKept | magray-arts/src/lib/utils.ts:19 | lower-case letters and blanks all survive the removal of `[^\w\s-]` |
| Utils.DropOneDisallowed | magray-arts/src/lib/utils.ts:19 | between kept characters, the removal drops exactly the one disallowed character |
| Utils.CarpetsCollapsed | magray-arts/src/lib/utils.ts:20 | the double blank of "carpets  rugs" becomes one dash |
| Utils.CarpetsPieces | magray-arts/src/lib/utils.ts:20 | "carpets" and "rugs" hold no separator, and the double blank consists of separators |
| Utils.Clamp | magray-arts/src/lib/utils.ts:32 | `substring` clamps an index into `[0, length]` and leaves an in-range index alone |
| Utils.Substring | magray-arts/src/lib/utils.ts:32 | `substring(start, end)` on clamped indices; TruncateText states the result |
| Utils.TruncateText | magray-arts/src/lib/utils.ts:30-33 | a text that fits is returned unchanged; otherwise the result is the first `n` characters (`n` = the length, 0 when negative) followed by "...", of length `n + 3` |
| Utils.TruncateIdempotent | magray-arts/src/lib/utils.ts:30-33 | truncating an already truncated text to the same length changes nothing |
| Utils.DefaultTaxRate | magray-arts/src/lib/utils.ts:35 | the default `taxRate` of 0.1 |
| Utils.CalculateTax | magray-arts/src/lib/utils.ts:35-37 | the tax on a non-negative subtotal at a non-negative rate is non-negative |
| Utils.DefaultTaxIsOneTenth | magray-arts/src/lib/utils.ts:35 | with the default rate the tax is one tenth of the subtotal |
| Utils.TaxIsAdditive | magray-arts/src/lib/utils.ts:36 | the tax of a sum is the sum of the taxes |
| Utils.BaseShipping | magray-arts/src/lib/utils.ts:40 | `baseShipping`, 10 |
| Utils.WeightMultiplier | magray-arts/src/lib/utils.ts:41 | `weightMultiplier`, 0.5 per unit of weight |
| Utils.CalculateShipping | magray-arts/src/lib/utils.ts:39-45 | the US charge is `10 + weight/2`, any other country's is `20 + weight`, and a non-negative weight never costs less than the base 10 |
| Utils.ShippingDefaults | magray-arts/src/lib/utils.ts:39 | the default weight and country give 10 |
| Utils.InternationalShippingDoubles | magray-arts/src/lib/utils.ts:42-44 | outside the US the charge is exactly twice the US charge for the same weight |
| Utils.ShippingMonotone | magray-arts/src/lib/utils.ts:44 | a heavier parcel never costs less |
| Store.AddedToCart | magray-arts/src/lib/store.ts:53-70 | a new id is appended as its details with quantity 1, behind the unchanged earlier lines; for a known id the line count is kept and each line keeps its name, price, image, slug and position, only the matching line's quantity rising by 1 |
| Store.LineOf | magray-arts/src/lib/store.ts:67 | `{ ...item, quantity: 1 }`: the item's details with quantity one |
| Store.HasLine | magray-arts/src/lib/store.ts:55 | `items.find(i => i.id === item.id)` is truthy exactly when some line carries the id |
| Store.Incremented | magray-arts/src/lib/store.ts:59-63 | the `map` that raises the matching line's quantity by one; MapTouchesOneLine shows it touches only that line |
| Store.WithQuantity | magray-arts/src/lib/store.ts:83-85 | the `map` that sets the matching line's quantity; MapTouchesOneLine shows it touches only that line |
| Store.OtherLine | magray-arts/src/lib/store.ts:73 | the callback `item => item.id !== id`: a line passes exactly when it carries another id |
| Store.RemovedFromCart | magray-arts/src/lib/store.ts:71-75 | no remaining line carries the removed id, and the cart never grows |
| Store.UpdatedQuantity | magray-arts/src/lib/store.ts:76-87 | a quantity of 0 or less is exactly removal; a positive one sets the quantity of the line with that id and leaves every other line as it was |
| Store.ItemsCount | magray-arts/src/lib/store.ts:95-100 | when every quantity is positive the item count is at least the number of lines |
| Store.LineTotal | magray-arts/src/lib/store.ts:91 | `item.price * item.quantity`: what one line adds to the cart total; OneMoreUnit and AggregatesOfOne state its properties |
| Store.CartTotal | magray-arts/src/lib/store.ts:89-94 | `getCartTotal`, the left fold of price times quantity; TotalConcat, AggregatesPointUpdate, ClearedCartIsEmpty and CartTotalNonNegative state its properties |
| Store.CartTotalNonNegative | magray-arts/src/lib/store.ts:89-94 | with non-negative prices and positive quantities the cart total is non-negative |
| Store.CountConcat | magray-arts/src/lib/store.ts:95-100 | the item count of two carts joined is the sum of their counts |
| Store.TotalConcat | magray-arts/src/lib/store.ts:89-94 | the total of two carts joined is the sum of their totals |
| Store.AggregatesOfOne | magray-arts/src/lib/store.ts:89-100 | a single line counts its quantity and costs its price times its quantity |
| Store.AggregatesPointUpdate | magray-arts/src/lib/store.ts:89-100 | replacing one line changes the count and the total by exactly the difference of the two lines |
| Store.ClearedCartIsEmpty | magray-arts/src/lib/store.ts:88-100 | after `clearCart` both the count and the total are 0 |
| Store.MapTouchesOneLine | magray-arts/src/lib/store.ts:59-63 | with unique ids, the increment and the quantity update touch only the line with that id |
| Store.OneMoreUnit | magray-arts/src/lib/store.ts:61 | one more unit of a line adds its price to its cost |
| Store.AddRaisesCountByOne | magray-arts/src/lib/store.ts:53-70 | `addToCart` raises the item count by exactly 1; the total rises by the new item's price for a new id and by the stored line's price for a known one |
| Store.AddNewLine | magray-arts/src/lib/store.ts:65-69 | appending a new line raises the count by 1 and the total by the item's price |
| Store.AddKnownLine | magray-arts/src/lib/store.ts:57-64 | raising one line's quantity by 1 raises the count by 1 and the total by that line's price |
| Store.RemovedMembership | magray-arts/src/lib/store.ts:71-75 | a line remains after removal exactly when it was in the cart with another id |
| Store.RemoveCutsLine | magray-arts/src/lib/store.ts:71-75 | with unique ids, removing line `k`'s id cuts exactly line `k` out and keeps the others in order |
| Store.RemoveAbsentIsNoOp | magray-arts/src/lib/store.ts:71-75 | removing an id the cart does not hold leaves the cart unchanged |
| Store.UpdateAbsentIsNoOp | magray-arts/src/lib/store.ts:76-87 | updating an id the cart does not hold leaves the cart unchanged for every quantity |
| Store.UpdateSetsOneLine | magray-arts/src/lib/store.ts:82-86 | with unique ids, a positive update of line `k`'s id changes that line's quantity and nothing else |
| Store.RemoveUndoesAdd | magray-arts/src/lib/store.ts:53-75 | removing an item's id right after adding it is the same as removing it without the add |
| Store.RemoveIgnoresIncrement | magray-arts/src/lib/store.ts:59-75 | removal after the increment of the removed id equals removal alone |
| Store.RemovePreservesInvariant | magray-arts/src/lib/store.ts:71-75 | removal keeps one line per id and every quantity positive |
| Store.AddPreservesInvariant | magray-arts/src/lib/store.ts:53-70 | `addToCart` keeps one line per id and every quantity positive |
| Store.UpdatePreservesInvariant | magray-arts/src/lib/store.ts:76-87 | the quantity update keeps one line per id and every quantity positive, for every integer quantity |
| Store.AddedToFavorites | magray-arts/src/lib/store.ts:104-109 | afterwards the id is a favourite; the list is unchanged when the id was already there and has the item appended otherwise |
| Store.IsFavorite | magray-arts/src/lib/store.ts:115-117 | `some(item => item.id === id)`: true exactly when some favourite carries the id (through Seqs.Any); IsFavoriteAfterAdd and IsFavoriteAfterRemove give it after each mutator |
| Store.OtherFavorite | magray-arts/src/lib/store.ts:112 | the callback `item => item.id !== id`: a favourite passes exactly when it carries another id |
| Store.RemovedFromFavorites | magray-arts/src/lib/store.ts:110-114 | afterwards the id is no favourite, and the list never grows |
| Store.AddFavoriteIdempotent | magray-arts/src/lib/store.ts:104-109 | adding a second item with the same id, with any details, changes nothing |
| Store.AddFavoriteKeepsUnique | magray-arts/src/lib/store.ts:104-109 | adding keeps the favourite ids distinct |
| Store.RemovedFavoriteMembership | magray-arts/src/lib/store.ts:110-114 | a favourite remains after removal exactly when it has another id |
| Store.RemoveFavoriteKeepsUnique | magray-arts/src/lib/store.ts:110-114 | removing keeps the favourite ids distinct |
| Store.RemoveAbsentFavoriteIsNoOp | magray-arts/src/lib/store.ts:110-114 | removing an id that no favourite carries leaves the favourites unchanged |
| Store.RemoveFavoriteCutsOne | magray-arts/src/lib/store.ts:110-114 | with distinct ids, removing favourite `k`'s id cuts out exactly that favourite and keeps the others in their order |
| Store.IsFavoriteAfterAdd | magray-arts/src/lib/store.ts:104-117 | after adding, an id is a favourite exactly when it was one before or is the added item's id |
| Store.IsFavoriteAfterRemove | magray-arts/src/lib/store.ts:110-117 | after removing, an id is a favourite exactly when it was one before and is not the removed id |
| Store.ShopStore.constructor | magray-arts/src/lib/store.ts:50-127 | the store starts with an empty cart and no favourites, currency "USD", both panels closed, and the invariant holding |
| Store.ShopStore.AddToCart | magray-arts/src/lib/store.ts:53-70 | the cart becomes `AddedToCart` of the old cart, the count rises by 1 and the invariant holds; favourites, currency and flags are unchanged |
| Store.ShopStore.RemoveFromCart | magray-arts/src/lib/store.ts:71-75 | the cart becomes `RemovedFromCart` of the old cart and no longer holds the id; favourites, currency and flags are unchanged |
| Store.ShopStore.UpdateCartItemQuantity | magray-arts/src/lib/store.ts:76-87 | the cart becomes `UpdatedQuantity` of the old cart; a quantity of 0 or less goes through `RemoveFromCart`; nothing else changes |
| Store.ShopStore.ClearCart | magray-arts/src/lib/store.ts:88 | the cart becomes empty, with count and total 0; nothing else changes |
| Store.ShopStore.AddToFavorites | magray-arts/src/lib/store.ts:104-109 | the favourites become `AddedToFavorites` of the old ones and include the id; the cart, currency and flags are unchanged |
| Store.ShopStore.RemoveFromFavorites | magray-arts/src/lib/store.ts:110-114 | the favourites become `RemovedFromFavorites` of the old ones and exclude the id; the cart, currency and flags are unchanged |
| Store.ShopStore.SetCurrency | magray-arts/src/lib/store.ts:121 | only the currency changes |
| Store.ShopStore.SetCartOpen | magray-arts/src/lib/store.ts:125 | only the cart-panel flag changes; the persisted subset (`partialize`) is unchanged |
| Store.ShopStore.SetMobileMenuOpen | magray-arts/src/lib/store.ts:127 | only the menu flag changes; the persisted subset (`partialize`) is unchanged |
| Store.ShopStore.Persisted | magray-arts/src/lib/store.ts:131-135 | `partialize`: the cart, the favourites and the currency, without the two panel flags |
| Products.ContainsEmpty | magray-arts/src/app/products/page.tsx:139-140 | every string includes the empty string |
| Products.ContainsPiece | magray-arts/src/app/products/page.tsx:139-140 | a string includes each piece it is assembled from |
| Products.Contains | magray-arts/src/app/products/page.tsx:139-140 | `includes`: the second string occurs as a contiguous piece of the first; ContainsEmpty and ContainsPiece state its properties |
| Products.MatchesQuery | magray-arts/src/app/products/page.tsx:138-141 | the lower-cased name or description includes the lower-cased query |
| Products.Matches | magray-arts/src/app/products/page.tsx:138-141 | the search callback handed to `filter`: MatchesQuery for the current query |
| Products.InCategory | magray-arts/src/app/products/page.tsx:146 | the callback `product => product.category === selectedCategory` |
| Products.AllCategories | magray-arts/src/app/products/page.tsx:145 | the "All Categories" entry that switches the category filter off |
| Products.NameWithQueryMatches | magray-arts/src/app/products/page.tsx:138-141 | a product whose lower-cased name has the lower-cased query inside it matches the query |
| Products.SearchFiltered | magray-arts/src/app/products/page.tsx:137-142 | the search filter, applied only for a non-empty query |
| Products.CategoryFiltered | magray-arts/src/app/products/page.tsx:145-147 | the category filter, skipped for "All Categories" |
| Products.Filtered | magray-arts/src/app/products/page.tsx:134-147 | the search filter followed by the category filter; FilteredMultiplicity and FilteredMembership state the result |
| Products.FilteredMultiplicity | magray-arts/src/app/products/page.tsx:134-147 | the filters keep every copy of a product that passes the search and the category test, and none of any other |
| Products.FilteredMembership | magray-arts/src/app/products/page.tsx:134-147 | a product is listed exactly when it is in the catalogue, matches the query (or the query is empty) and is in the category (or "All Categories" is selected) |
| Products.SearchGuardIsRedundant | magray-arts/src/app/products/page.tsx:137-142 | skipping the search for an empty query gives the same list as filtering with it, since the empty query matches everything |
| Products.SearchIgnoresQueryCase | magray-arts/src/app/products/page.tsx:139-140 | the search result does not depend on the case of the query's letters |
| Products.ParseSortKey | magray-arts/src/app/products/page.tsx:150-167 | each of "price-asc", "price-desc", "newest" and "rating" selects its own comparator, and every other string selects "featured" |
| Products.Compare | magray-arts/src/app/products/page.tsx:151-166 | each comparator is the difference of a per-product rank, so it orders consistently |
| Products.Flag | magray-arts/src/app/products/page.tsx:158-165 | `x ? 1 : 0`: a flag as the number the newest and featured comparators subtract |
| Products.Rank | magray-arts/src/app/products/page.tsx:151-166 | the per-key number each comparator compares by: the price, its negation, one minus the new flag, the negated rating, or one minus the featured flag |
| Products.SortedMeans | magray-arts/src/app/products/page.tsx:150-167 | sorted by price-asc, prices never fall; by price-desc or rating, prices or ratings never rise; by newest or featured, new or featured products all come first |
| Products.SortProducts | magray-arts/src/app/products/page.tsx:150-167 | sorting reorders the array in place into rank order and keeps exactly the same elements |
| Products.InsertLast | magray-arts/src/app/products/page.tsx:150-167 | given a sorted prefix, one insertion step extends it by one element and keeps the elements |
| Products.SwapDown | magray-arts/src/app/products/page.tsx:150-167 | the exchange of two neighbours keeps the elements |
| Products.SortedPrefixStarts | magray-arts/src/app/products/page.tsx:150-167 | a sorted prefix is in order apart from the element to be inserted |
| Products.SwapKeepsOrder | magray-arts/src/app/products/page.tsx:150-167 | swapping the inserted element below a larger neighbour keeps every other pair in order |
| Products.InsertionEnds | magray-arts/src/app/products/page.tsx:150-167 | once the inserted element is no smaller than its left neighbour the prefix is sorted |
| Products.FromSeq | magray-arts/src/app/products/page.tsx:138 | the filtered products are held in a new array |
| Products.FilterAndSort | magray-arts/src/app/products/page.tsx:133-170 | the listing holds exactly the filtered products, sorted by the selected key; with neither filter it is the catalogue array itself, reordered, and otherwise a new array, with the catalogue untouched |
| AdminLayout.Gate | magray-arts/src/app/admin/layout.tsx:38-77 | loading gives the spinner whatever the session; otherwise no session gives the sign-in denial, a session whose user is not an admin gives the permission denial, and access is granted exactly for an admin's session |
| AdminLayout.IsAdminSession | magray-arts/src/app/admin/layout.tsx:63 | `session.user?.role === 'ADMIN'`: a user is present and holds the admin role |
| AdminLayout.CountActive | magray-arts/src/app/admin/layout.tsx:94-95 | no entry is highlighted exactly when no href equals the path |
| AdminLayout.IsActive | magray-arts/src/app/admin/layout.tsx:95 | `pathname === item.href`: an entry is highlighted only on exactly its own path; CountActive and AtMostOneActive state the consequences |
| AdminLayout.AtMostOneActive | magray-arts/src/app/admin/layout.tsx:95 | with distinct hrefs at most one entry is highlighted on any path |
| AdminLayout.AdminNavigation | magray-arts/src/app/admin/layout.tsx:20-28 | the seven side-bar entries in their order, each linking to a path under "/admin" |
| AdminLayout.AdminHrefsDistinct | magray-arts/src/app/admin/layout.tsx:20-28 | the seven side-bar links lead to seven different paths |
| AdminLayout.AdminAtMostOneActive | magray-arts/src/app/admin/layout.tsx:94-95 | in the admin side bar at most one entry is highlighted on any path |
| AdminLayout.FindByHref | magray-arts/src/app/admin/layout.tsx:148 | `find` returns nothing exactly when no href equals the path, and otherwise the first entry whose href does |
| AdminLayout.DefaultTitle | magray-arts/src/app/admin/layout.tsx:148 | "Admin Dashboard", the title when no named entry is on the path |
| AdminLayout.HeaderTitle | magray-arts/src/app/admin/layout.tsx:148 | the title is the name of the first entry on exactly that path when that name is non-empty, and "Admin Dashboard" when the name is empty or no entry is on the path |
| AdminLayout.TitleOfOwnPath | magray-arts/src/app/admin/layout.tsx:148 | with distinct hrefs, an entry's own path is titled with its (non-empty) name |
| AdminLayout.OrdersTitle | magray-arts/src/app/admin/layout.tsx:148 | "/admin/orders" is titled "Orders" |
| AdminLayout.NewProductPageTitle | magray-arts/src/app/admin/layout.tsx:148 | "/admin/products/new" gets "Admin Dashboard": there is no prefix matching |

## Left out

- Persistence: the `persist` middleware and its localStorage serialisation (magray-arts/src/lib/store.ts:49, 129-137) are browser I/O. `Store.ShopStore.Persisted` only records which fields `partialize` keeps.
- Rehydration: on load, the middleware can replace the state with stored data. The methods of `Store.ShopStore` require `Valid()`, so the model assumes that stored data keeps the invariant.
- `formatPrice`: it is a call into `Intl.NumberFormat`.
- `cn`: it is a call into `clsx`/`twMerge`.
- `generateOrderNumber`: it depends on the clock and on `Math.random`.
- The database seed script: it is asynchronous Prisma database I/O.
- The pages, header, cart sidebar and providers: they only render fixtures and call the store operations modelled here.
- The page's state hooks: `useEffect`/`setProducts` become the inputs and the returned array of `Products.FilterAndSort`.
- Animation, JSX and the session hook / `signOut`: these are framework behaviour. The session and its status are parameters of `AdminLayout.Gate`.
- Floating point: JavaScript `number` sums and products are rounded. The model uses exact `real` arithmetic, so totals, tax and shipping are exact.
- Store.UpdatedQuantity: quantities are integers. A fractional quantity in (0, 1) would break "every quantity ≥ 1" in the program. The model does not represent such quantities.
- Utils.TruncateText: `length` is an integer. JavaScript truncates a fractional `length` in `substring` but compares it unrounded in the length test.
- Ascii.Lower: lower-casing is ASCII only. JavaScript's `toLowerCase` also maps non-ASCII letters (and changes the length for a few, such as 'İ').
- Unicode units: strings are sequences of Unicode characters, while JavaScript lengths count UTF-16 code units. `truncateText` can therefore differ on characters outside the Basic Multilingual Plane.
- Products.SortProducts: the order among products of equal rank is not specified. Stability and the engine's particular algorithm are not modelled. It is proved only that the result is sorted by rank and is a permutation.
- Comparators: NaN prices or ratings, which make a comparator inconsistent, cannot occur with `real`.

A note on the program: when `addToCart` meets an id already in the cart, the total rises by the price stored on that line, not by the price in the new item. `Store.AddRaisesCountByOne` states this case separately.
