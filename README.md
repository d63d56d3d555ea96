# Storefront logic, modelled in Dafny

A model of the logic in a small storefront front-end, with proofs. The front-end is a
product catalog, a search page with filters and pagination, a product page, a cart and a
"random products" picker. The model covers:

- **Search engine and URL state** (`scripts/search.js`):
  - query normalisation;
  - the whitespace-to-`-` value codec and the `_`-joined selection lists;
  - the per-product filter predicate;
  - `updateURLParams` and the checkbox and clear-filters handlers;
  - the tag index behind the filter panel;
  - pagination: ten products a page, and the first/previous/next/last buttons.
- **Older filter page** (`scripts/filters.js`): `,`-joined lists and the `updateURL` delete/set rule.
- **Cart** (`scripts/cart.js`): a class whose `lines` field the operations reassign. It covers set-amount, remove, the total, and the decrease, increase and amount-field handlers.
- **Product page** (`scripts/product.js`):
  - the amount field (minus, plus, change) as a class with a `text` field;
  - the subtotal;
  - the product lookup;
  - the add-to-cart merge.
- **Random sample** (`scripts/globals.js`): `pickRandomElmsNoDupe`, a Fisher–Yates shuffle of an array copy followed by a prefix.

Every state-changing operation is a method, proved against a reference function. The
properties the pages rely on are proved as lemmas about those functions:

- round trips through the URL;
- subsequence and order preservation;
- membership characterisations;
- the cart invariant: every amount is at least 1 and there is at most one line per name;
- permutation for the shuffle.

Modelling conventions:

- A URL's query is a `map<string, string>`. Browser percent-escaping is not modelled.
- `parseInt` is written out on ASCII text: leading whitespace, a sign, then the longest digit prefix. It returns `Option<int>`, where `None` is `NaN`. `String(n)` is `Numbers.IntToString`, and the two round-trip.
- Text is ASCII. `\s` is space plus the characters tab through carriage return. Lower-casing only changes `A`..`Z`.
- The catalog is an immutable `seq<Product>`.
- `Math.random()` in the shuffle becomes a given sequence `draws` with `0 <= draws[i] <= i`.
- Integers are unbounded. The sources do arithmetic on JavaScript numbers, and no overflow is modelled.

Files: `seqs.dfy`, `text.dfy`, `numbers.dfy`, `delimited.dfy`, `lex_order.dfy`, `urls.dfy`
and `catalog.dfy` are shared primitives. `search_codec.dfy`, `search.dfy`,
`pagination.dfy` and `filter_index.dfy` model `search.js`. `legacy_filters.dfy` models
`filters.js`. `amount_input.dfy`, `cart.dfy` and `product_page.dfy` model the cart and
product pages. `random_sample.dfy` models `globals.js`.

## Model

| member | source | states |
|---|---|---|
| Text.IsSpace | scripts/search.js:5 | definition of `\s` on ASCII: space, tab, line feed, vertical tab, form feed, carriage return; used by every whitespace property below |
| Text.Lower | scripts/search.js:5 | definition of `toLowerCase()` on ASCII, character by character; `LowerEffect` states what it does |
| Text.LowerEffect | scripts/search.js:5 | lower-casing keeps the length, leaves no upper case, keeps whitespace exactly where it was, and changes nothing in a string without upper case |
| Text.ToLower | scripts/search.js:5 | a lower-cased character is never upper case and is whitespace exactly when the input was |
| Text.SkipSpaces | scripts/search.js:5 | the result is a suffix of the input; what was dropped is all whitespace, and the result does not start with whitespace |
| Text.TrimEnd | scripts/search.js:5 | the result is a prefix of the input; what was dropped is all whitespace, and the result does not end with whitespace |
| Text.ReplaceRuns | scripts/search.js:5-6 | replacing whitespace runs never lengthens the string, is empty only for the empty string, and every character is the replacement or a non-space character of the input |
| Text.CollapseIsSingleSpaced | scripts/search.js:5 | after `replace(/\s+/g, ' ')` the only whitespace is the plain space and no two spaces are adjacent |
| Text.ReplaceRunsOfSingleSpaced | scripts/search.js:6 | on a single-spaced string the run replacement maps each space to the replacement, keeps every other character and keeps the length |
| Text.Trim | scripts/search.js:5 | definition of `trim()` as the leading-whitespace strip followed by the trailing one; stated by `TrimEnds`, `TrimKeepsCharacters`, `TrimKeepsSingleSpaced` and `TrimUnchanged` |
| Text.TrimEnds | scripts/search.js:5 | `trim()` leaves no whitespace at either end |
| Text.TrimKeepsCharacters | scripts/search.js:5 | every character of `trim(s)` occurs in `s` |
| Text.TrimKeepsSingleSpaced | scripts/search.js:5 | trimming a single-spaced string leaves it single-spaced |
| Text.TrimUnchanged | scripts/search.js:5 | a string with no whitespace at either end is its own trim |
| Text.Contains | scripts/search.js:27 | definition of `includes`: some suffix of the text starts with the needle; used by the query test of `Search.FilterIncludes` |
| SearchCodec.NormalizeIsNormal | scripts/search.js:5 | `normalize` output has no upper case, no whitespace other than single spaces, and no space at either end |
| SearchCodec.NormalizeFixesNormal | scripts/search.js:5 | a string of that normal form is left unchanged by `normalize` |
| SearchCodec.NormalizeIdempotent | scripts/search.js:5 | `normalize(normalize(s)) == normalize(s)` for every `s` |
| SearchCodec.Normalize | scripts/search.js:5 | definition of `normalize` (lower-case, whitespace runs to one space, trim); what it guarantees is stated by `NormalizeIsNormal`, `NormalizeFixesNormal` and `NormalizeIdempotent` |
| SearchCodec.Encode | scripts/search.js:6 | an encoded value contains no whitespace |
| SearchCodec.Decode | scripts/search.js:7 | decoding keeps the length and leaves no `-` |
| SearchCodec.DecodeEncode | scripts/search.js:6-7 | `decode(encode(v)) == v` for every single-spaced value without `-` |
| SearchCodec.DashIsNotPreserved | scripts/search.js:6-7 | a value with `-` does not survive: `Wi-Fi` reads back as `Wi Fi` |
| SearchCodec.ParseList | scripts/search.js:14-16 | every value read from a list parameter is non-empty and free of `_` and `-` |
| SearchCodec.ParseEncodeList | scripts/search.js:14-16 | `value.map(encode).join('_')` read back with `split('_').filter(Boolean).map(decode)` gives the list back, for non-empty single-spaced values without `-` or `_` |
| SearchCodec.EncodeList | scripts/search.js:44 | definition of `value.map(encode).join('_')`; `ParseEncodeList` proves it reads back unchanged |
| Delimited.Split | scripts/search.js:14 | `split(d)` yields at least one segment and no segment contains `d` |
| Delimited.Parse | scripts/filters.js:8-9 | `split(d).filter(Boolean)` yields only non-empty segments free of `d` |
| Delimited.SplitJoin | scripts/search.js:44 | splitting a join of segments free of `d` gives the segments back |
| Delimited.JoinSplit | scripts/search.js:14 | joining the segments of a split gives the string back |
| Delimited.ParseJoin | scripts/filters.js:8-9 | joining non-empty values free of `d` and parsing the result gives the values back |
| Delimited.Join | scripts/search.js:44 | definition of `join(d)` (empty list gives the empty string); `SplitJoin`, `JoinSplit` and `ParseJoin` relate it to `split` |
| Numbers.ParseIntToString | scripts/search.js:17 | `parseInt(String(n), 10) == n` for every integer `n` |
| Numbers.ParseIntOfDigits | scripts/search.js:17 | a digit string, optionally preceded by `-`, parses to its value |
| Numbers.ParseIntNoNumber | scripts/product.js:57 | a text starting with neither a sign, a digit nor whitespace (such as `NaN`) parses to NaN |
| Numbers.ParseInt | scripts/search.js:17 | definition of `parseInt(s, 10)`: leading whitespace skipped, an optional sign, the longest digit prefix, and NaN (`None`) without digits; stated by `ParseIntToString`, `ParseIntOfDigits` and `ParseIntNoNumber` |
| Numbers.IntToString | scripts/search.js:45 | definition of `String(n)` for an integer: `-` for a negative number, then the decimal digits; `ParseIntToString` proves `parseInt` reads it back |
| Seqs.Filter | scripts/search.js:24-34 | `filter` keeps exactly the elements passing the predicate and never lengthens the sequence |
| Seqs.FilterIsSubsequence | scripts/search.js:24 | a filtered sequence is an order-preserving subsequence of the original |
| Seqs.FilterIdempotent | scripts/cart.js:32 | filtering twice with the same predicate is filtering once |
| Seqs.FilterMultiplicity | scripts/search.js:56 | filtering keeps every copy of an accepted value and none of a rejected one |
| Seqs.Dedupe | scripts/search.js:67 | `[...new Set(xs)]` has no duplicates and holds exactly the values of `xs` |
| Seqs.DedupeDistinct | scripts/search.js:67 | de-duplicating a duplicate-free list changes nothing |
| Seqs.DedupeSnoc | scripts/search.js:67 | de-duplicating `xs + [v]` appends `v` only when it is new |
| Catalog.FindProduct | scripts/cart.js:51 | the lookup fails exactly when no product has the name, and otherwise returns the first product with it |
| Catalog.GetProductFromUrl | scripts/product.js:5-9 | the product page shows the first catalog product named by the `name` parameter, and "not found" when the parameter is missing or names no product |
| Urls.Param | scripts/search.js:13 | definition of `urlParams.get(key) \|\| ''`; `AbsentReadsEmpty` states that a missing key reads as no query and an empty list |
| Search.StateQueryIsNormal | scripts/search.js:13 | the query read from any URL is in normal form |
| Search.ReadListIsWellFormed | scripts/search.js:14-16 | every selection value read from the URL is non-empty and free of `_` and `-` |
| Search.ParsedValuesAreSafe | scripts/search.js:14-16 | a single-spaced selection read from the URL can be written back and read unchanged |
| Search.ReadList | scripts/search.js:14-16 | definition of one selection read: the parameter, or `''` when it is missing, split on `_`, empty parts dropped, each part decoded; stated by `ReadListIsWellFormed` and `ListReadsBack` |
| Search.ReadPage | scripts/search.js:17 | definition of `parseInt` of the `page` parameter, with `'1'` when it is missing or empty; `PageReadsBack` proves a written page reads back |
| Search.StateFromUrl | scripts/search.js:11-19 | definition of `getStateFromURL`: normalised query, the three selections and the page; stated by `StateQueryIsNormal` and `ReadListIsWellFormed` |
| Search.SearchText | scripts/search.js:27 | definition of the searched text `name category manufacturer tags…`, normalised |
| Search.Matches | scripts/search.js:25-33 | definition of the per-product predicate; `FilterIncludes` states it as four conjoined tests |
| Search.FilterProducts | scripts/search.js:24 | the search result is an order-preserving subsequence of the catalog |
| Search.FilterIncludes | scripts/search.js:25-32 | a product is listed exactly when it is in the catalog and passes the query, category, manufacturer and any-tag tests |
| Search.InactiveFiltersListAll | scripts/search.js:24-34 | with no query and no selections the whole catalog is listed, in order |
| Search.UnmatchedQueryListsNothing | scripts/search.js:25-29 | a query that no product's text contains lists nothing |
| Search.FiltersActive | scripts/search.js:257-260 | definition of `areFiltersActive`; used by `ActiveAfterClearing`, `ClearFiltersLeavesManufacturer` and `HandleClearAllFilters` |
| Search.IsBlank | scripts/search.js:40 | definition of `value === null \|\| value === undefined \|\| value.length === 0`: null, the empty string and the empty list are blank, and a number never is; `ApplyParamsEffect` deletes exactly the blank entries' keys |
| Search.EncodeValue | scripts/search.js:43-45 | definition of the written value, `value.map(encode).join('_')` for a list and `encode(String(value))` otherwise; `PageReadsBack` and `ListReadsBack` prove it reads back |
| Search.SetParam | scripts/search.js:40-47 | definition of one entry's effect: delete the key for a blank value, otherwise set the encoded value |
| Search.ApplyParams | scripts/search.js:39-48 | definition of the entries applied in order; `ApplyParamsEffect` states the per-key result and `UpdateUrlParams` is proved equal to it |
| Search.ApplyParamsEffect | scripts/search.js:39-48 | applying the entries one after the other deletes each blank entry's key, sets every other key to its encoded value, and leaves unmentioned keys alone |
| Search.UpdateUrlParams | scripts/search.js:37-51 | the `forEach` loop deletes each null or empty entry's key, sets the others to their encoded value, and leaves every unmentioned key as it was |
| Search.PageReadsBack | scripts/search.js:17 | a `page` written as a number reads back as that number |
| Search.ListReadsBack | scripts/search.js:14-16 | a list written to a key reads back as the same list when its values are codec-safe |
| Search.Toggled | scripts/search.js:56 | definition of the category and manufacturer toggle (append when checked, filter out when not); stated by `UncheckRemovesValue` and `ToggledIsSafe` |
| Search.UpdateSelection | scripts/search.js:57 | writing a selection and `page: 1` makes the page read back as 1, makes a codec-safe selection read back unchanged, and leaves every other key alone |
| Search.ToggledIsSafe | scripts/search.js:56 | toggling a codec-safe value in a codec-safe list keeps the list codec-safe |
| Search.UncheckRemovesValue | scripts/search.js:56 | unchecking removes every occurrence of the value, keeps every other value, and keeps the rest in order |
| Search.HandleCategoryChange | scripts/search.js:53-58 | after a category checkbox change the category list reads back as the old list with the value appended or removed, the page is 1, and no other key changes |
| Search.HandleManufacturerChange | scripts/search.js:105-110 | the same for the manufacturer list |
| Search.CheckedTagsAreASet | scripts/search.js:67 | checking a tag leaves the tags duplicate-free, holding exactly the old tags and the value; on a duplicate-free list it appends only a new tag |
| Search.ToggledTags | scripts/search.js:67 | definition of the tag toggle (`[...new Set([...tags, value])]` or filter out); stated by `CheckedTagsAreASet` and `ToggledTagsIsSafe` |
| Search.ToggledTagsIsSafe | scripts/search.js:67 | toggling a codec-safe tag keeps the tag list codec-safe |
| Search.HandleTagChange | scripts/search.js:60-69 | after a tag checkbox change the tags read back as the old tags with the value added once or removed, the page is 1, and no other key changes |
| Search.AbsentReadsEmpty | scripts/search.js:13-16 | a missing parameter reads as an empty query or an empty list |
| Search.ActiveAfterClearing | scripts/search.js:257-260 | with `q`, `category` and `tags` gone, filters count as active exactly when a manufacturer is selected |
| Search.ClearParams | scripts/search.js:268 | definition of the entries `{ q: null, category: null, tags: null, page: 1 }`; `HandleClearFilters` and `ClearFiltersLeavesManufacturer` state their effect |
| Search.HandleClearFilters | scripts/search.js:267-269 | the clear button deletes `q`, `category` and `tags`, sets the page to 1, leaves every other key alone, and the manufacturer selection reads back unchanged |
| Search.ClearFiltersLeavesManufacturer | scripts/search.js:257-269 | on `?manufacturer=Intel`, filters are still active after the clear button |
| Search.ClearAllParams | scripts/search.js:268 | the entries of the corrected button, which also clear `manufacturer`; `HandleClearAllFilters` states their effect |
| Search.HandleClearAllFilters | scripts/search.js:257-269 | clearing `manufacturer` as well leaves no active filter, sets the page to 1 and leaves every other key alone |
| Pagination.TotalPages | scripts/search.js:229 | `ceil(n / 10)`: the pages hold all `n` items, one page fewer would not, and there are no pages exactly for no items |
| Pagination.PageStart | scripts/search.js:290 | page `p` starts at or past the end exactly when `p` is beyond the last page |
| Pagination.PageSlice | scripts/search.js:290-292 | the page slice holds at most 10 items, item `i` is item `(page-1)*10 + i` of the list, it is empty exactly beyond the last page, and it is full before the last page |
| Pagination.PagesArePrefix | scripts/search.js:290-292 | pages `1..k` shown in turn are the first `10 k` items |
| Pagination.AllPagesRebuildList | scripts/search.js:290-292 | pages `1..ceil(n/10)` shown in turn rebuild the whole filtered list |
| Pagination.ControlsShownForSeveralPages | scripts/search.js:231 | the buttons are drawn exactly when there are more than 10 results |
| Pagination.PaginationControls | scripts/search.js:227-251 | definition of the four buttons and their disabled flags; stated by `ControlsShownForSeveralPages`, `EnabledButtonsLeadElsewhere` and `EnabledButtonsShowProducts` |
| Pagination.EnabledButtonsLeadElsewhere | scripts/search.js:243-246 | on a page in range, first/prev are disabled exactly when the page is 1, next/last exactly when it is the last page, and each enabled button leads to another page in range |
| Pagination.EnabledButtonsShowProducts | scripts/search.js:236-246 | an enabled button leads to a page that shows some products |
| Pagination.GoToPage | scripts/search.js:236-240 | a button click makes the page read back as its target and leaves every other key alone |
| LexOrder.Less | scripts/search.js:204 | definition of the default `sort()` comparison, character by character with a proper prefix first; `LessIrreflexive`, `LessTransitive` and `LessTotal` prove it a strict total order |
| LexOrder.LessIrreflexive | scripts/search.js:204 | the sort order is irreflexive |
| LexOrder.LessTransitive | scripts/search.js:204 | the sort order is transitive |
| LexOrder.LessTotal | scripts/search.js:204 | any two different strings are ordered one way or the other |
| LexOrder.SortedIsDistinct | scripts/search.js:204 | a strictly sorted list has no duplicates |
| LexOrder.Insert | scripts/search.js:204 | inserting into a sorted list keeps it sorted and adds exactly the new value |
| LexOrder.SortedElements | scripts/search.js:204 | `[...set].sort()` is strictly sorted and holds exactly the members of the set |
| FilterIndex.CategoriesStep | scripts/search.js:196-202 | one more product adds its category to the set of categories |
| FilterIndex.CategoryTagsStep | scripts/search.js:196-202 | one more product adds its tags to its own category and changes no other category |
| FilterIndex.AddTags | scripts/search.js:200 | `forEach(add)` leaves the set holding exactly its old members and the product's tags |
| FilterIndex.GroupTags | scripts/search.js:196-202 | the `reduce` gives one entry per category, holding exactly the tags of that category's products |
| FilterIndex.SortGroups | scripts/search.js:203-205 | every entry becomes a sorted, duplicate-free list of exactly its set's members, under the same keys |
| FilterIndex.BuildTagIndex | scripts/search.js:196-206 | (the same construction as scripts/filters.js:112-124) the index has one entry per category; each entry is sorted, duplicate-free and holds exactly the tags of that category's products; the category list is sorted, duplicate-free and exactly the categories |
| FilterIndex.SortedManufacturers | scripts/search.js:207 | the manufacturer list is sorted, duplicate-free and holds exactly the catalog's manufacturers |
| LegacyFilters.ReadCommaList | scripts/filters.js:8-9 | a list read from the URL holds only non-empty values free of `,` |
| LegacyFilters.FiltersFromUrl | scripts/filters.js:6-11 | definition of `getFiltersFromURL`: the category and tag lists read with `ReadCommaList` |
| LegacyFilters.UpdateUrl | scripts/filters.js:13-22 | an empty value deletes the key, any other sets it, and every other key stays as it was |
| LegacyFilters.CommaListReadsBack | scripts/filters.js:8-32 | a list of non-empty values free of `,`, joined and written, reads back unchanged |
| LegacyFilters.ToggledIsCommaSafe | scripts/filters.js:28-30 | toggling a comma-safe value keeps a comma-safe list comma-safe |
| LegacyFilters.HandleCategoryChange | scripts/filters.js:24-33 | the category list reads back with the value appended or every copy removed, and no other key, `page` included, changes |
| LegacyFilters.HandleTagChange | scripts/filters.js:35-44 | the same for the tag list |
| LegacyFilters.CheckingKeepsDuplicates | scripts/filters.js:39-41 | checking an already selected tag selects it twice here, while the search page keeps it once |
| AmountInput.ClampAmount | scripts/cart.js:89-92 | the clamped amount is at least 1, and a valid amount is kept |
| AmountInput.ClampIsIdempotent | scripts/product.js:62-65 | clamping twice is clamping once, and the clamp gives 1 exactly for NaN or amounts up to 1 |
| AmountInput.SubtotalOf | scripts/product.js:42-43 | `price * amount` is NaN exactly when the amount is NaN, at least one price for an amount of at least 1, and at most 0 for an amount of 0 or less |
| AmountInput.SubtotalOfNext | scripts/product.js:55-59 | one item more raises the subtotal by exactly one price |
| AmountInput.SubtotalOfPrevious | scripts/product.js:47-53 | one item less lowers the subtotal by exactly one price |
| AmountInput.SubtotalOfClamped | scripts/product.js:61-67 | the subtotal of a clamped amount is a number and at least one price |
| AmountInput.AmountField.constructor | scripts/product.js:87 | the page starts with the field's text and shows the subtotal of its amount (the `updateSubtotal()` call on render) |
| AmountInput.AmountField.Amount | scripts/product.js:42 | definition of `parseInt(amountInput.value, 10)` on the field's text; the field methods are specified through it |
| AmountInput.AmountField.UpdateSubtotal | scripts/product.js:41-45 | `updateSubtotal` shows the subtotal of the amount the field holds and leaves the text alone |
| AmountInput.AmountField.WriteAmount | scripts/product.js:50-51 | writing a number and updating makes the field read back that number and show its subtotal |
| AmountInput.AmountField.WriteNaN | scripts/product.js:57-58 | writing `NaN` and updating makes the field read back no number and show a NaN subtotal |
| AmountInput.AmountField.WriteParsed | scripts/product.js:57-58 | writing a number or NaN and updating makes the field read back that value and show its subtotal |
| AmountInput.AmountField.MinusClick | scripts/product.js:47-53 | minus lowers an amount above 1 by exactly one and shows the new subtotal, one price less by `SubtotalOfPrevious`; otherwise the text and the shown subtotal stay |
| AmountInput.AmountField.PlusClick | scripts/product.js:55-59 | plus raises a number by exactly one and NaN stays NaN, and the subtotal of the new amount is shown, one price more by `SubtotalOfNext` |
| AmountInput.AmountField.Change | scripts/product.js:61-67 | after a change the field holds the clamped amount, a valid entry is kept as typed, and the subtotal of the clamped amount is shown, at least one price by `SubtotalOfClamped` |
| Cart.FirstIndex | scripts/cart.js:18 | `findIndex` returns the first line with the name, or fails exactly when there is none |
| Cart.SetAmount | scripts/cart.js:16-28 | reference definition of `updateCartItemAmount`, line by line; `SetAmountAt` proves it is the source's index update and splice |
| Cart.SetAmountOfAbsent | scripts/cart.js:18-19 | an update for a name not in the cart changes nothing |
| Cart.SetAmountAt | scripts/cart.js:18-22 | the reference update assigns the amount at the first matching index, or splices that line out for an amount of 0 or less |
| Cart.SetAmountInPlace | scripts/cart.js:18-20 | with an amount of at least 1 the reference update is the assignment at the first matching index |
| Cart.SetPositiveAmount | scripts/cart.js:18-20 | with an amount of at least 1 only the first matching line changes, only in its amount, and the length stays |
| Cart.PositiveAmountKeepsNames | scripts/cart.js:16-20 | an amount of at least 1 keeps the length and every line's name, whether the name is in the cart or not |
| Cart.SetNonPositiveAmount | scripts/cart.js:21-22 | with an amount of 0 or less the first matching line is removed and the others keep their order |
| Cart.NonPositiveAmountRemovesName | scripts/cart.js:21-22 | in a cart with one line per name, an amount of 0 or less leaves no line with that name |
| Cart.SetAmountKeepsValid | scripts/cart.js:16-28 | every amount update keeps amounts at least 1 and names unique |
| Cart.DropKeepsValid | scripts/cart.js:22 | splicing one line out keeps amounts at least 1 and names unique |
| Cart.NotNamed | scripts/cart.js:32 | definition of the callback `(item) => item.name !== name`; `RemoveNamedEffect` states what filtering with it keeps |
| Cart.RemoveNamed | scripts/cart.js:32 | reference definition of `cart.filter(item => item.name !== name)`; stated by `RemoveNamedEffect`, `RemoveIsIdempotent` and `RemoveKeepsValid` |
| Cart.RemoveNamedEffect | scripts/cart.js:32 | no line with the name is left, every other line is kept, in order |
| Cart.RemoveIsIdempotent | scripts/cart.js:32 | removing twice is removing once |
| Cart.FilterKeepsValid | scripts/cart.js:32 | filtering a valid cart keeps it valid |
| Cart.FilterKeepsAbsent | scripts/cart.js:32 | a name no line has is still absent after filtering |
| Cart.RemoveKeepsValid | scripts/cart.js:30-35 | removing keeps the cart valid |
| Cart.AddLine | scripts/product.js:74-80 | reference definition of the add-to-cart merge, line by line; `AddLineAt` proves it is the source's in-place increment or `push` |
| Cart.AddLineAt | scripts/product.js:74-79 | the reference add increments the first matching line in place, or appends `{name, price, amount}` at the end when there is none |
| Cart.AddTwiceAccumulates | scripts/product.js:74-79 | two adds of the same product are one add of the summed amount |
| Cart.AddKeepsNamesUnique | scripts/product.js:74-80 | adding any integer amount, 0 and negative ones included, keeps one line per name |
| Cart.AppendNewNameKeepsNamesUnique | scripts/product.js:79 | pushing a line whose name no line has keeps one line per name |
| Cart.AddKeepsValid | scripts/product.js:74-79 | adding a positive amount keeps amounts at least 1 and names unique |
| Cart.AddedProductIsInCart | scripts/product.js:74-79 | after an add the product has a line holding at least the added amount |
| Cart.LineSubtotal | scripts/cart.js:51-54 | definition of one line's contribution: catalog price × amount, or 0 when no product has the name |
| Cart.ResolvedSubtotal | scripts/cart.js:51-54 | a line the catalog resolves to a product costs that product's price × the line's amount |
| Cart.TotalOf | scripts/cart.js:42-55 | reference definition of the total, the sum of `LineSubtotal`; stated by `TotalOfConcat`, `TotalAfterAdd` and the others below |
| Cart.TotalOfConcat | scripts/cart.js:50-55 | the total of two carts put together is the sum of their totals |
| Cart.TotalIsNonNegative | scripts/cart.js:50-55 | a cart of non-negative amounts totals at least 0 |
| Cart.UnresolvedLinesAddNothing | scripts/cart.js:51-52 | lines whose name is in no catalog product add nothing |
| Cart.TotalOfUpdate | scripts/cart.js:54-55 | changing one line changes the total by the difference of its subtotals |
| Cart.TotalAfterIncrement | scripts/cart.js:54-55 | raising the amount of a catalog product's line by `amount` raises the total by its price × `amount` |
| Cart.TotalAfterAdd | scripts/cart.js:54-55 | adding `amount` of a catalog product raises the total by its price × `amount` |
| Cart.Cart.constructor | scripts/cart.js:9 | an empty store gives an empty cart |
| Cart.Cart.UpdateAmount | scripts/cart.js:16-28 | `updateCartItemAmount` changes the lines as the reference update does, saves exactly when a line has the name, and keeps the cart valid; an amount of 0 or less leaves no line with the name when names were unique |
| Cart.Cart.Remove | scripts/cart.js:30-35 | `removeItemFromCart` leaves exactly the lines without the name, in order, and keeps the cart valid |
| Cart.Cart.Add | scripts/product.js:74-80 | the in-place increment or `push` gives the reference add, keeps one line per name for any amount, and keeps the cart valid for a positive amount |
| Cart.Cart.Total | scripts/cart.js:42-55 | the accumulated total is the sum of catalog price × amount over lines found in the catalog, and 0 for an empty cart |
| Cart.Cart.DecreaseClicked | scripts/cart.js:76-81 | decrease writes the amount minus one only when it is above 1, and otherwise changes nothing; the cart stays valid |
| Cart.Cart.IncreaseClicked | scripts/cart.js:83-86 | increase writes the parsed amount plus one; the cart stays valid |
| Cart.Cart.AmountChanged | scripts/cart.js:88-94 | the amount field writes the clamped amount; the cart stays valid |
| Cart.ControlsKeepLines | scripts/cart.js:76-94 | for any parsed amount, neither the decrease button nor the amount field removes a line or renames one |
| ProductPage.Submit | scripts/product.js:69-85 | submitting adds the field's amount to the product's line, or appends a line, keeps one line per name for any amount, and keeps the cart valid for a positive amount |
| ProductPage.SubmitAddsProduct | scripts/product.js:61-79 | after a submit of the amount the field shows, the cart stays valid and the product has a line with at least that amount |
| RandomSample.SampleSize | scripts/globals.js:27 | `min(max(count, 0), n)`: 0 for a non-positive count, `count` within range, `n` beyond it |
| RandomSample.Swap | scripts/globals.js:32 | the swap exchanges two positions and leaves every other position alone |
| RandomSample.SwapPermutes | scripts/globals.js:32 | a swap keeps the multiset of elements |
| RandomSample.SwapKeepsDistinct | scripts/globals.js:32 | a swap keeps a duplicate-free sequence duplicate-free |
| RandomSample.ShuffleDown | scripts/globals.js:30-33 | the shuffle keeps the length |
| RandomSample.Shuffle | scripts/globals.js:29-33 | the loop from the last index down to 1 on the copy; it keeps the length, and `ShuffleDownPermutes` proves it a permutation |
| RandomSample.ShuffleDownPermutes | scripts/globals.js:30-33 | the shuffled copy is a permutation of the input, and is duplicate-free when the input is |
| RandomSample.ShuffleDownKeepsMultiset | scripts/globals.js:30-33 | every swap of the loop keeps the multiset, so the shuffled copy has the input's elements |
| RandomSample.ShuffleDownKeepsDistinct | scripts/globals.js:30-33 | every swap of the loop keeps a duplicate-free copy duplicate-free |
| RandomSample.ShuffledPrefix | scripts/globals.js:35 | `copy.slice(0, c)` takes no element more often than the input holds it, and is duplicate-free when the input is |
| RandomSample.IdentityDrawsKeepOrder | scripts/globals.js:30-33 | draws that always pick the current index leave the order unchanged |
| RandomSample.PickRandomNoDupe | scripts/globals.js:25-36 | the result has `min(max(count, 0), n)` elements, is a prefix of the shuffled copy, takes no element more often than the array holds it, and is duplicate-free when the array is |

## Left out

- DOM building, event wiring, `innerHTML` templates, icons and `scripts/templates.js`: they render and do not compute.
- `scripts/order-summary.js`: it only renders a stored record.
- The results summary text (scripts/search.js:282-288): it is rendering only.
- The checkbox sync of `handleTagChange` (scripts/search.js:63-66) and the `openStates` snapshot and restore of `renderFilters` (scripts/search.js:188-195, 216-222): they are DOM state.
- `history.pushState` and the `filtersChanged` and `cartUpdated` events: the model returns the new URL or changes the cart object.
- `URLSearchParams` percent-escaping: URL parameters are modelled as decoded strings.
- `localStorage` with `JSON.parse` and `JSON.stringify`: the cart is an in-memory object. The re-read on each call to `getCart` is not modelled.
- `formatRupiah` (scripts/globals.js:7-17): it depends on `Intl.NumberFormat` and floating point.
- Module-level side effects in scripts/globals.js (scroll handler, debug element): not logic.
- `Math.random()`: it is replaced by the `draws` argument. Uniformity of the shuffle is not stated.
- RandomSample.PickRandomNoDupe: the `Array.isArray` guard (scripts/globals.js:26) is not modelled, because the argument is typed as an array.
- Full Unicode lower-casing and `\s`: text is ASCII. JavaScript's default `sort` compares UTF-16 code units, which agrees with `LexOrder.Less` on ASCII.
- Pagination.PageSlice: requires `page >= 1`. For NaN (`slice(NaN, NaN)`) and page 0 (`slice(-10, 0)`) the source shows an empty page. For a page of -1 or less `slice` counts from the end of the list. These cases are not promised behaviour and are not modelled.
- Search.HandleCategoryChange: the new list is stated only when the old selection is single-spaced and a checked value is codec-safe. Other values change on the way through the URL: `a--b` reads as `a  b` and is written back as `a-b`, which reads as `a b`.
- Search.HandleManufacturerChange: the same condition as for categories.
- Search.HandleTagChange: the same condition as for categories.
- LegacyFilters.HandleCategoryChange: the new list is stated only when a checked value is non-empty and free of `,`. Otherwise the joined string splits differently.
- LegacyFilters.HandleTagChange: the same condition as for categories.
- Cart.Cart.IncreaseClicked: when the field holds no number, the source sets the line's amount to `NaN` (`NaN <= 0` is false, so the line stays). `JSON.stringify` (scripts/cart.js:13) saves it as `null`, the earlier amount is lost, and in the total `price * null` adds 0. The model makes no change there, because an amount is an integer.
- ProductPage.Submit: requires the field to hold a number. For a NaN amount the source makes the existing line's amount `NaN` (`amount += NaN`), or pushes a line with amount `NaN`. `JSON.stringify` (scripts/product.js:82) saves that amount as `null`, so the earlier amount is lost. An integer model cannot hold it.
- FilterIndex.BuildTagIndex: category names are plain map keys. The source groups into an object literal `{}` (scripts/search.js:196-202, scripts/filters.js:112-118). For a category named like an `Object.prototype` member (`constructor`, `toString`, `valueOf`, `__proto__`, …) `acc[category]` is already truthy, no `Set` is made, and the `add` call throws a `TypeError` that stops the filter panel from rendering. When such a category has no tags nothing throws, but the category is missing from `Object.keys`. Such names are not modelled.
- FilterIndex.GroupTags: the same assumption about category names as for `BuildTagIndex`.
- Numbers and amounts are unbounded integers: JavaScript's floating-point rounding of large prices or totals is not modelled.
- The `alert` and page reload after a submit (scripts/product.js:83-84), and the product-page rendering (scripts/product.js:28-39, 87-96): they are I/O.

## Findings

| source | as written | input that shows it | evidently intended | confidence | as-written member | corrected member |
|---|---|---|---|---|---|---|
| scripts/search.js:267-269 | the clear-filters button deletes `q`, `category` and `tags` but not `manufacturer`, while `areFiltersActive` (scripts/search.js:257-260) counts manufacturers, so the button stays shown after a click | the URL `?manufacturer=Intel`: after the click the manufacturer is still selected and filters are still active | clearing also deletes `manufacturer`, so no filter is active afterwards | medium; not executed | Search.HandleClearFilters, Search.ClearFiltersLeavesManufacturer | Search.HandleClearAllFilters |
