# NGO medical inventory and staff: a Dafny model

This project models the logic core of a small Next.js web application that an NGO uses to keep
track of its medical inventory (medicines, equipment, supplies) and of its staff (doctors,
nurses, volunteers, coordinators, admins). It covers these parts:

- **The two REST collection routes**, `/api/inventory` and `/api/staff`. `GET` filters a
  module-level mock array by the query parameters, sorts it and cuts one page. `POST` validates a
  body and appends a record with the next numeric id. Each array is a class (`InventoryStore`,
  `StaffStore`) with a `seq` field. `Post` appends to it. `Get` is proved equal to the pure
  response function `List`, and properties of `List` are proved as lemmas.
- **The shared helpers** in `src/lib/utils.ts`:
  - the e-mail and phone validators;
  - the two expiry predicates;
  - the three colour lookup tables.
- **The inventory and staff screens.** Each has a client-side filter, an expiry status (inventory)
  and an active badge (staff).
- **The dashboard.** It normalises raw stored documents with defaults and counts low-stock and
  expiring items. It keeps the five most recently created records of each kind, sorting its local
  list in place first. It shows a status by weeks to expiry.
- **The sidebar.** It filters a five-entry navigation table by the user's role and toggles the
  language between English and Hindi.

Modules follow the source files:

| module | source file |
|---|---|
| `InventoryApi` | `src/app/api/inventory/route.ts` |
| `StaffApi` | `src/app/api/staff/route.ts` |
| `Utils` | `src/lib/utils.ts` |
| `InventoryPage` | `src/app/inventory/page.tsx` |
| `StaffPage` | `src/app/staff/page.tsx` |
| `Dashboard` | `src/app/page.tsx` |
| `Sidebar` | `src/components/layout/Sidebar.tsx` |
| `Records` | `src/types`: the record types shared by the routes |

Helper modules model the JavaScript built-ins the code relies on:

- `Seqs`: `Array.prototype.filter` and `slice`, including negative indices;
- `Text`: `toLowerCase`, `includes` and `Number.prototype.toString` for ids;
- `Ordering`: `<` and `>` on numbers and strings, and a stable sort;
- `Pagination`: page arithmetic and `Math.ceil(total / limit)`;
- `Wrappers`: `Option`.

Times are integer millisecond timestamps. The current time is a parameter: `now` where one reading is made, and one parameter per `new Date()` read where the route makes several.

## Model

| member | source | states |
|---|---|---|
| InventoryApi.List | src/app/api/inventory/route.ts:54-118 | `total` is the number of stored items that pass the filters, never more than the store holds; at most `limit` items are returned |
| InventoryApi.FiltersAreOnePass | src/app/api/inventory/route.ts:67-82 | the three conditional filter passes (name search, exact category, location substring, each only when its parameter is non-empty) select exactly the items accepted by the conjunction of the active conditions, in store order |
| InventoryApi.ListReturnsMatches | src/app/api/inventory/route.ts:65-99 | every returned item is a stored item that every active filter accepts |
| InventoryApi.ListIsSorted | src/app/api/inventory/route.ts:84-94 | the returned page is ordered by the `sortBy` field, ascending for `asc` and descending for anything else |
| InventoryApi.ListPage | src/app/api/inventory/route.ts:96-110 | for page >= 1 the data is the run of the sorted matches starting at `(page-1)*limit`, at most `limit` long; it is empty when that start is past the end or the page is past `totalPages` |
| InventoryApi.AppendedMatches | src/app/api/inventory/route.ts:170 | an item pushed by POST appears in the matches of exactly the queries it satisfies, behind the earlier matches |
| InventoryApi.ApplyFilters | src/app/api/inventory/route.ts:67-82 | the route's filter steps, each applied only when its parameter is non-empty; `FiltersAreOnePass` proves them equal to `Matching` |
| InventoryApi.SortKey | src/app/api/inventory/route.ts:86-87 | `item[sortBy]`: the compared value of the named field, numbers as numbers and texts as strings, `''` for a name that is no field of the model |
| InventoryApi.DefaultListIsNewestFirst | src/app/api/inventory/route.ts:57-63 | a GET without a query string counts every item and returns the first ten of the list sorted by `createdAt`, newest first |
| InventoryApi.IdsAreUnique | src/app/api/inventory/route.ts:153-170 | while ids are `(position+1).toString()`, no two items share an id |
| InventoryApi.NewItem | src/app/api/inventory/route.ts:153-168 | the new item has id `(count+1).toString()`, `createdBy` "admin", `createdAt` and `updatedAt` from the route's two separate clock reads, and the body's fields |
| InventoryApi.InventoryStore.constructor | src/app/api/inventory/route.ts:5-51 | the store starts with the three mock items, ids "1".."3", their timestamps the six clock reads in source order |
| InventoryApi.InventoryStore.Get | src/app/api/inventory/route.ts:54-118 | GET filters a copy pass by pass, sorts it and cuts one page, which is exactly `List(items, query)`; the store is unchanged |
| InventoryApi.InventoryStore.Post | src/app/api/inventory/route.ts:121-184 | a body with a falsy required field (name, quantity — 0 included — location, expiryDate, purpose, category, unit) gets "Missing required fields" and the store is unchanged; otherwise exactly one new item is appended and returned, and ids stay positional |
| StaffApi.List | src/app/api/staff/route.ts:54-125 | `total` is the number of stored members that pass the filters, never more than the store holds; at most `limit` are returned |
| StaffApi.TextFiltersAreOnePass | src/app/api/staff/route.ts:68-83 | the conditional search, exact-role and location-substring passes equal one pass with their conjunction |
| StaffApi.FiltersAreOnePass | src/app/api/staff/route.ts:68-89 | adding the `isActive` pass, all four passes equal one pass with the full match predicate |
| StaffApi.ActiveFilterIsTriState | src/app/api/staff/route.ts:84-89 | without an `isActive` parameter (and no other filter) every member is kept; with one, every kept member's status equals `value == "true"`, so any value other than "true" selects inactive members |
| StaffApi.ListReturnsMatches | src/app/api/staff/route.ts:66-106 | every returned member is a stored member that every active filter accepts |
| StaffApi.ListIsSorted | src/app/api/staff/route.ts:91-101 | the returned page is ordered by `sortBy`, ascending for `asc`, descending otherwise |
| StaffApi.ListPage | src/app/api/staff/route.ts:103-117 | for page >= 1 the data is the run of the sorted matches starting at `(page-1)*limit`, or empty past the end or past `totalPages` |
| StaffApi.AppendedMatches | src/app/api/staff/route.ts:176 | a member pushed by POST appears in the matches of exactly the queries it satisfies, behind the earlier matches |
| StaffApi.ApplyFilters | src/app/api/staff/route.ts:68-89 | the route's four filter steps, isActive last; `FiltersAreOnePass` proves them equal to `Matching` |
| StaffApi.SortKey | src/app/api/staff/route.ts:93-94 | `member[sortBy]`: the compared value of the named field (`true` above `false`), `''` for a name that is no field of the model |
| StaffApi.DefaultListIsNewestFirst | src/app/api/staff/route.ts:57-65 | a GET without a query string counts every member and returns the first ten of the list sorted by `createdAt`, newest first |
| StaffApi.IdsAreUnique | src/app/api/staff/route.ts:160-176 | while ids are positional, no two members share an id |
| StaffApi.NewMember | src/app/api/staff/route.ts:160-174 | the new member has id `(count+1).toString()`, `createdAt` and `updatedAt` from the route's two separate clock reads, the body's fields, and `isActive` exactly when the body's value is truthy (absent means inactive) |
| StaffApi.StaffStore.constructor | src/app/api/staff/route.ts:5-51 | the store starts with the three mock members, ids "1".."3", their timestamps the six clock reads in source order |
| StaffApi.StaffStore.Get | src/app/api/staff/route.ts:54-125 | GET filters a copy pass by pass (isActive last), sorts it and cuts one page, which is exactly `List(members, query)`; the store is unchanged |
| StaffApi.StaffStore.Post | src/app/api/staff/route.ts:128-190 | a body with an empty required field (name, role, shiftStart, shiftEnd, location, contactNumber, email) gets "Missing required fields" and the store is unchanged; otherwise one new member is appended and returned, and ids stay positional |
| Pagination.TotalPages | src/app/api/inventory/route.ts:108 | `Math.ceil(total / limit)`: the least page count whose pages hold `total` items |
| Pagination.Paginate | src/app/api/inventory/route.ts:96-109 | at most `limit` items, and the pagination record carries page, limit, the full count and `TotalPages` |
| Pagination.PaginateContents | src/app/api/inventory/route.ts:96-109 | the page is the slice from `(page-1)*limit` clipped to the list, empty past the end or past `totalPages` |
| Pagination.PageContents | src/app/api/inventory/route.ts:97-99 | `slice(start, start+limit)` for page >= 1 is `s[start..min(start+limit, |s|)]`, or empty when start is past the end |
| Pagination.PagePastEndIsEmpty | src/app/api/inventory/route.ts:97-108 | a page number beyond `totalPages` returns nothing |
| Pagination.PageInRangeIsNonEmpty | src/app/api/inventory/route.ts:97-108 | every page from 1 to `totalPages` returns at least one item |
| Pagination.FirstPagesArePrefix | src/app/api/inventory/route.ts:97-99 | pages 1..k concatenated are the first `k*limit` items |
| Pagination.PagesCoverList | src/app/api/inventory/route.ts:97-108 | pages 1..`totalPages` concatenated give back the whole list, each item once, in order |
| Pagination.PageOfSortedIsSorted | src/app/api/inventory/route.ts:85-99 | a page of a sorted list is sorted |
| Seqs.JsSlice | src/app/api/inventory/route.ts:99 | `Array.prototype.slice`: the result is the run of the input from the normalised start index to the normalised end index, empty when the end is not past the start |
| Seqs.Filter | src/app/api/inventory/route.ts:69-81 | `Array.prototype.filter`: no longer than the input, every kept element satisfies the test and comes from the input, and every element that satisfies it is kept |
| Seqs.FilterMembers | src/app/api/inventory/route.ts:69-81 | an element is in the filtered list exactly when it is in the input and satisfies the test |
| Seqs.FilterCounts | src/app/api/inventory/route.ts:69-81 | filtering keeps every copy of a satisfying element and no copy of any other |
| Ordering.SortBy | src/app/api/inventory/route.ts:85-94 | the sort keeps the length and is a permutation of its input |
| Ordering.SortBySorted | src/app/api/inventory/route.ts:85-94 | the sorted list is ordered by the key in the requested direction |
| Ordering.SortBySortedIsIdentity | src/app/api/inventory/route.ts:85-94 | with the model's stable tie-break, sorting a list that is already ordered by the key returns it unchanged (the source fixes only the key order) |
| Ordering.SortByIdempotent | src/app/api/inventory/route.ts:85-94 | with the model's stable tie-break, sorting twice is sorting once (the source fixes only the key order) |
| Ordering.SortByMembers | src/app/api/inventory/route.ts:85-94 | every element of the sorted list comes from the input |
| Ordering.StrLeTotal | src/app/api/inventory/route.ts:90-92 | JavaScript string comparison orders any two strings one way or the other |
| Ordering.StrLeTransitive | src/app/api/inventory/route.ts:90-92 | string comparison is transitive |
| Ordering.StrLeAntisymmetric | src/app/api/inventory/route.ts:90-92 | two strings each no greater than the other are equal |
| Ordering.KeyLeTotal | src/app/api/inventory/route.ts:86-93 | the compared field values (numbers, strings) are totally ordered |
| Ordering.KeyLeTransitive | src/app/api/inventory/route.ts:86-93 | the order on field values is transitive |
| Text.IncludesAt | src/app/api/inventory/route.ts:70 | `hay.includes(needle)` holds exactly when the needle occurs at some position of the hay |
| Text.IncludesEmpty | src/app/inventory/page.tsx:45 | every string includes the empty search term |
| Text.DecimalString | src/app/api/inventory/route.ts:154 | `n.toString()` is a non-empty digit string without a leading zero (unless n is 0) |
| Text.DecimalRoundTrip | src/app/api/inventory/route.ts:154 | reading an id back as a number gives the number it was made from |
| Text.DecimalStringInjective | src/app/api/inventory/route.ts:154 | different numbers give different ids |
| Utils.ExpiryStatesAreExclusive | src/lib/utils.ts:19-31 | no date is both expired and expiring soon; a date equal to now is neither |
| Utils.IsExpiringSoon | src/lib/utils.ts:19-26 | the date lies strictly after now and strictly before now plus `days` days |
| Utils.IsExpired | src/lib/utils.ts:28-31 | the date lies strictly before now |
| Utils.ValidateEmail | src/lib/utils.ts:55-58 | the e-mail pattern as a predicate: non-space runs around an '@' and a later '.'; `ValidateEmailMeans` characterises it |
| Utils.ValidatePhoneNumber | src/lib/utils.ts:60-63 | the phone pattern as a predicate: ten characters, a first digit from 6 to 9, then digits; `ValidatePhoneNumberMeans` characterises it |
| Utils.NoExpiringWindowWithoutDays | src/lib/utils.ts:19-26 | with zero or fewer days nothing is expiring soon |
| Utils.ValidateEmailMeans | src/lib/utils.ts:55-58 | the e-mail pattern accepts a string exactly when it has no white space, exactly one '@' with text before it, and after the '@' a '.' with text on both sides |
| Utils.ValidEmailHasShape | src/lib/utils.ts:55-58 | the accepting direction of the characterisation |
| Utils.ShapedEmailIsValid | src/lib/utils.ts:55-58 | the converse direction of the characterisation |
| Utils.ValidatePhoneNumberMeans | src/lib/utils.ts:60-63 | the phone pattern accepts exactly the ten-digit strings that denote a number from 6000000000 to 9999999999 |
| Utils.SeverityColor | src/lib/utils.ts:65-76 | the gray default is returned exactly for strings other than low, medium and high |
| Utils.SeverityColorsAreDistinct | src/lib/utils.ts:65-76 | the three severities have three different colours |
| Utils.RoleColor | src/lib/utils.ts:78-93 | the gray default is returned exactly for strings other than the five roles |
| Utils.RoleColorsAreDistinct | src/lib/utils.ts:78-93 | the five roles have five different colours |
| Utils.CategoryColor | src/lib/utils.ts:95-106 | the gray default is returned exactly for strings other than the three categories |
| Utils.CategoryColorsAreDistinct | src/lib/utils.ts:95-106 | the three categories have three different colours |
| InventoryPage.FilteredInventory | src/app/inventory/page.tsx:44-51 | the result is an order-preserving subsequence of the fetched items; each kept item has the term in its name or its location (ignoring case) and equals a set category and location exactly; every such item is kept, each duplicate as often as it was fetched |
| InventoryPage.NoCriteriaShowsAll | src/app/inventory/page.tsx:44-51 | with all three controls cleared the screen lists everything fetched |
| InventoryPage.FilteringTwiceIsFilteringOnce | src/app/inventory/page.tsx:44-51 | filtering is idempotent |
| InventoryPage.StatusText | src/app/inventory/page.tsx:72-76 | "Expired" exactly before now, "Expiring Soon" exactly strictly between now and now + 30 days, "Good" otherwise (the instant now included) |
| InventoryPage.StatusColor | src/app/inventory/page.tsx:66-70 | the colour is the one paired with the status text; red exactly when expired |
| InventoryPage.ColorOf | src/app/inventory/page.tsx:66-76 | the three status texts get one of the three status colours |
| InventoryPage.StatusColorsAreDistinct | src/app/inventory/page.tsx:66-76 | the text-to-colour pairing is one-to-one |
| StaffPage.FilteredStaff | src/app/staff/page.tsx:44-51 | the result is an order-preserving subsequence; each kept member has the term in name or location (ignoring case) and equals a set role and location exactly; every such member is kept, each duplicate as often as it was fetched |
| StaffPage.NoCriteriaShowsAll | src/app/staff/page.tsx:44-51 | with all three controls cleared the screen lists everyone fetched |
| StaffPage.FilteringTwiceIsFilteringOnce | src/app/staff/page.tsx:44-51 | filtering is idempotent |
| StaffPage.ActiveBadge | src/app/staff/page.tsx:194-195 | "Active" in green exactly when the member is active, "Inactive" in red otherwise |
| Records.Truthy | src/app/api/staff/route.ts:171 | `Boolean(value)`: false for undefined, null, `false`, 0 and the empty string; true for `true`, any other number, any other string, and objects and arrays |
| Dashboard.FallbacksKeepPresentValues | src/app/page.tsx:52-62 | `x || ''` and `x || 0` leave a present value as it is and replace an absent one |
| Dashboard.NormaliseItem | src/app/page.tsx:48-66 | name, location, donor, purpose, unit and createdBy become their stored text or ""; quantity, expiryWeeks and minStockLevel their stored number or 0; an absent or empty category "medicine"; `createdAt` and `updatedAt` pass through; the category is never empty |
| Dashboard.NormaliseItemIsIdempotent | src/app/page.tsx:48-66 | normalising an already normalised record changes nothing |
| Dashboard.NormaliseStaff | src/app/page.tsx:69-91 | an absent or empty role becomes "volunteer"; `isActive` is the stored value when it is a boolean and true otherwise; every other text (name, the spreadsheet-style speciality, entry time, exit time and physician contact number, shift start and end, location, contact number, e-mail) is its stored value or "", and every number (patients served, number of patients, serial number) its stored value or 0; `createdAt` and `updatedAt` pass through |
| Dashboard.NormaliseStaffIsIdempotent | src/app/page.tsx:69-91 | normalising an already normalised staff record changes nothing |
| Dashboard.NormaliseItems | src/app/page.tsx:48-66 | one normalised item per document, in document order |
| Dashboard.NormaliseStaffList | src/app/page.tsx:69-91 | one normalised member per document, in document order |
| Dashboard.ComputeStats | src/app/page.tsx:93-101 | the totals are the collection sizes; the low-stock and expiring counts never exceed the inventory total |
| Dashboard.StockCountsAddUp | src/app/page.tsx:93 | low-stock items (`quantity <= minStockLevel`, equality included) and the remaining items add up to the total |
| Dashboard.ExpiringCountMatchesBadges | src/app/page.tsx:94 | the expiring counter counts exactly the items whose dashboard badge is not "Good" |
| Dashboard.StatusText | src/app/page.tsx:129-133 | "Expired" exactly at 0 weeks, "Expiring Soon" for every other value up to 4 (negatives included), "Good" above 4 |
| Dashboard.StatusColor | src/app/page.tsx:123-127 | the colour is the one the inventory screen pairs with the same status text |
| Dashboard.Recent | src/app/page.tsx:104-113 | the recent list has `min(5, n)` records |
| Dashboard.RecentAreNewest | src/app/page.tsx:104-113 | the recent list is newest-first by `createdAt` (missing counts as 0), is drawn from the input, and nothing left out is newer than anything shown |
| Dashboard.RecentInventory | src/app/page.tsx:104-108 | five (or all, if fewer) inventory records |
| Dashboard.RecentStaff | src/app/page.tsx:109-113 | five (or all, if fewer) staff records |
| Dashboard.SortAndTakeRecent | src/app/page.tsx:105-107 | the local list is reordered in place into its sorted order, and the first five of that order are returned |
| Dashboard.Load | src/app/page.tsx:46-113 | counters count the documents read; the recent lists have `min(5, n)` records |
| Dashboard.FetchDashboardData | src/app/page.tsx:39-121 | the in-place procedure (normalise into local arrays, count, sort each array, slice) yields exactly the view `Load` describes |
| Sidebar.ShownExactly | src/components/layout/Sidebar.tsx:75-77 | an entry is in the menu exactly when it is in the table, there is a user, and the user's role is in the entry's roles |
| Sidebar.FilteredNavigation | src/components/layout/Sidebar.tsx:75-77 | `navigation.filter(...)` by the user's role; `ShownExactly`, `NavigationKeepsOrder` and `FilterTable` state what it keeps |
| Sidebar.HrefsAreDistinct | src/components/layout/Sidebar.tsx:29-60 | the five entries link to five different paths |
| Sidebar.NavigationKeepsOrder | src/components/layout/Sidebar.tsx:75-77 | the menu is an order-preserving subsequence of the five-entry table |
| Sidebar.FilterTable | src/components/layout/Sidebar.tsx:29-77 | the menu is the table with each entry kept or dropped by its own role test, in table order |
| Sidebar.NoUserSeesNothing | src/components/layout/Sidebar.tsx:75-77 | without a signed-in user the menu is empty |
| Sidebar.AdminSeesAll | src/components/layout/Sidebar.tsx:29-60 | an admin sees all five entries |
| Sidebar.CoordinatorSeesAllButSettings | src/components/layout/Sidebar.tsx:29-60 | a coordinator sees Dashboard, Inventory, Staff and Reports |
| Sidebar.VolunteerSeesDashboardOnly | src/components/layout/Sidebar.tsx:29-60 | a volunteer sees only the Dashboard |
| Sidebar.ToggleLanguage | src/components/layout/Sidebar.tsx:70-73 | English switches to Hindi; every other language switches to English |
| Sidebar.ToggleTwice | src/components/layout/Sidebar.tsx:71 | toggling twice from English or Hindi returns to it; from anything else it ends on Hindi |

## Left out

- Firestore reads, axios calls, Firebase set-up and the service worker are input and output. The fetched collections are parameters of the model.
- React rendering, hooks, toasts, `confirm` dialogs, translation tables and presentational components are not modelled.
- The authentication stub always yields an admin. The sidebar takes the user's role (`admin`, `coordinator` or `volunteer`) as an `Option` instead; `None` is no signed-in user.
- The menu entries' translated names and icons are not modelled; an entry is its page, with the page's link, and its roles.
- Exceptions and the 500 "Internal server error" responses are not modelled. The model has no malformed JSON or thrown errors.
- The `[id]` routes are separate modules with their own arrays and are not part of this model.
- `cost`, `totalValue` and `formatCurrency` are floating point. `cost` is left out of the records, and the dashboard's monetary total is not computed.
- `debounce` uses timers and `generateId` uses `Math.random`; neither is modelled.
- `formatDate` and `formatDateTime` are not modelled.
- `InventoryApi.List`, `StaffApi.List`: `parseInt` of the query string (NaN, fractions, `limit` of 0 or below) is not modelled. Page and limit are integers, and `limit >= 1` is required.
- `InventoryApi.ListIsSorted`, `StaffApi.ListIsSorted`, `InventoryApi.DefaultListIsNewestFirst`, `StaffApi.DefaultListIsNewestFirst`: the source's comparator never reports two values as equal, so the order of equal keys is up to the JavaScript engine. The model uses a stable sort, so the order of equal keys in its results is the model's choice, not the source's; these lemmas state only the key order.
- `Ordering.SortBySortedIsIdentity`, `Ordering.SortByIdempotent`: both hold only because of the model's stable tie-break. The source's comparator gives equal keys no defined order, so re-sorting a list with equal keys may reorder them (V8 reverses such a run).
- InventoryApi.SortKey, StaffApi.SortKey: sorting compares the record fields by name. Names of no field compare as the empty string, so every key is equal: the model's stable sort then keeps store order, and the source leaves that order to the engine. `sortBy=cost` is different: the source orders by the numeric cost (the mock items' 2.5, 1.0 and 1500.0, and `parseFloat(cost) || 0` for posted items), while the model keeps store order, because `cost` is floating point and not part of the records. Dates compare as their timestamps, as `<` and `>` on Date objects do.
- `Text.ToLower` folds only ASCII letters. JavaScript's `toLowerCase` folds the full Unicode range.
- `Ordering.StrLe` compares strings by code point. JavaScript compares UTF-16 code units; the two differ only above U+FFFF.
- `InventoryApi.InventoryStore.Post`, `StaffApi.StaffStore.Post`:
  - POST bodies are taken as already typed: texts are strings and numbers are integers. `parseInt` of a numeric string, `parseFloat(cost)` and `new Date(expiryDate)` parsing are not modelled.
  - A missing optional text or number is "" or 0, which `|| ''` and `|| 0` map to themselves.
- `StaffApi.StaffStore.Post`: `isActive` is the only body field that keeps its JavaScript value (a `JsValue`), because `Boolean(isActive)` depends on it.
- `Records.Truthy`: JavaScript numbers are integers here. A fractional number stands as any non-zero integer, which has the same truthiness, and NaN is not modelled. Objects and arrays are one value, `JsObject`, since only their truthiness matters.
- `Utils.IsExpiringSoon`, `InventoryPage.StatusText`, `InventoryPage.StatusColor`: `addDays(now, days)` is taken as `now + days * 86400000`. Calendar days across a daylight-saving change are not modelled. `isExpired` reads the clock once and `isExpiringSoon` twice, so a row's status text and its colour make six reads between them. The model takes all of them as one `now`, so the pairing of colour and text is proved for a single instant.
- `Utils.IsExpired`: date strings are not parsed; dates are timestamps.
- The dashboard's stored documents have typed optional fields. A stored value of the wrong type is not modelled (a number in a text field, say), and neither is NaN. Only `isActive` keeps its JavaScript value, since the source tests its type.
- Dashboard.RecentAreNewest: `createdAt` is either a stored timestamp or absent. A `createdAt` of another kind yields no `getTime` and counts as 0, the same as absent.
- The mock inventory items have no `donor` field. The model gives them "", which is what the sort key sees; no filter reads `donor`.
- The mock records' timestamps are the six clock reads made at module load, passed to the store constructors as `clock`. Nothing is assumed about their order, so the order of the initial default listing is fixed only where those reads differ.
