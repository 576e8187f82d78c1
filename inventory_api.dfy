/**
 * `GET /api/inventory` and `POST /api/inventory` over the route's in-memory `mockInventory` array.
 * GET reads a copy of the array: it filters, sorts and cuts out one page. POST checks the
 * required fields and appends one item whose id is the array's new length.
 */
module InventoryApi {
  import opened Wrappers
  import opened Seqs
  import opened Text
  import opened Ordering
  import opened Records
  import opened Pagination

  /**
   * The query string of a GET, with absent parameters at their defaults and `page` and `limit`
   * already read as integers.
   */
  datatype InventoryQuery = InventoryQuery(
    page: int,
    limit: int,
    search: string,
    category: string,
    location: string,
    sortBy: string,
    sortOrder: string)

  /** The parameters of a GET without a query string. */
  const DefaultQuery: InventoryQuery := InventoryQuery(1, 10, "", "", "", "createdAt", "desc")

  /** The search term occurs in the item's name, ignoring case. */
  predicate MatchesSearch(item: InventoryItem, search: string) {
    IncludesIgnoreCase(item.name, search)
  }

  /** The location parameter occurs in the item's location, ignoring case. */
  predicate MatchesLocation(item: InventoryItem, location: string) {
    IncludesIgnoreCase(item.location, location)
  }

  /** Every active filter of the query accepts the item; an empty parameter filters nothing. */
  predicate Matches(item: InventoryItem, q: InventoryQuery) {
    && (q.search == "" || MatchesSearch(item, q.search))
    && (q.category == "" || item.category == q.category)
    && (q.location == "" || MatchesLocation(item, q.location))
  }

  /** The filter that a query stands for, as one predicate. */
  function MatchFn(q: InventoryQuery): InventoryItem -> bool {
    x => Matches(x, q)
  }

  /** The items that pass every filter, in store order: the reference the route's filter chain is held to. */
  function Matching(items: seq<InventoryItem>, q: InventoryQuery): seq<InventoryItem> {
    Filter(items, MatchFn(q))
  }

  /** The route's three filter steps, each applied only when its parameter is non-empty. */
  function ApplyFilters(items: seq<InventoryItem>, q: InventoryQuery): seq<InventoryItem> {
    var bySearch := if q.search != "" then Filter(items, SearchFn(q)) else items;
    var byCategory := if q.category != "" then Filter(bySearch, CategoryFn(q)) else bySearch;
    if q.location != "" then Filter(byCategory, LocationFn(q)) else byCategory
  }

  function SearchFn(q: InventoryQuery): InventoryItem -> bool {
    x => MatchesSearch(x, q.search)
  }

  function CategoryFn(q: InventoryQuery): InventoryItem -> bool {
    (x: InventoryItem) => x.category == q.category
  }

  function LocationFn(q: InventoryQuery): InventoryItem -> bool {
    x => MatchesLocation(x, q.location)
  }

  /** The filter chain keeps exactly the items every active filter accepts, in store order. */
  lemma FiltersAreOnePass(items: seq<InventoryItem>, q: InventoryQuery)
    ensures ApplyFilters(items, q) == Matching(items, q)
  {
    var ps := (x: InventoryItem) => q.search == "" || MatchesSearch(x, q.search);
    var pc := (x: InventoryItem) => q.category == "" || x.category == q.category;
    var pl := (x: InventoryItem) => q.location == "" || MatchesLocation(x, q.location);
    var psc := (x: InventoryItem) => ps(x) && pc(x);

    var bySearch := if q.search != "" then Filter(items, SearchFn(q)) else items;
    FilterStep(items, q.search != "", SearchFn(q), ps);
    var byCategory := if q.category != "" then Filter(bySearch, CategoryFn(q)) else bySearch;
    FilterStep(bySearch, q.category != "", CategoryFn(q), pc);
    FilterFuse(items, ps, pc, psc);
    assert byCategory == Filter(items, psc);
    FilterStep(byCategory, q.location != "", LocationFn(q), pl);
    FilterFuse(items, psc, pl, MatchFn(q));
  }

  /** `item[sortBy] ?? ''`: the compared value of a field; a name that is no field of the model compares as `''`. */
  function SortKey(sortBy: string, item: InventoryItem): Key {
    match sortBy
    case "id" => Str(item.id)
    case "name" => Str(item.name)
    case "quantity" => Num(item.quantity)
    case "location" => Str(item.location)
    case "expiryDate" => Num(item.expiryDate)
    case "donor" => Str(item.donor)
    case "purpose" => Str(item.purpose)
    case "category" => Str(item.category)
    case "minStockLevel" => Num(item.minStockLevel)
    case "unit" => Str(item.unit)
    case "createdAt" => Num(item.createdAt)
    case "updatedAt" => Num(item.updatedAt)
    case "createdBy" => Str(item.createdBy)
    case _ => Str("")
  }

  function KeyFn(sortBy: string): InventoryItem -> Key {
    x => SortKey(sortBy, x)
  }

  /** The direction is ascending only for the exact value `'asc'`. */
  predicate Ascending(sortOrder: string) {
    sortOrder == "asc"
  }

  function SortItems(items: seq<InventoryItem>, q: InventoryQuery): seq<InventoryItem> {
    SortBy(items, KeyFn(q.sortBy), Ascending(q.sortOrder))
  }

  /** The GET response: the matching records, sorted, then one page of them. */
  function List(items: seq<InventoryItem>, q: InventoryQuery): (r: ListResponse<InventoryItem>)
    requires q.limit >= 1
    ensures r.pagination.total == |Matching(items, q)| <= |items|
    ensures |r.data| <= q.limit
  {
    Paginate(SortItems(Matching(items, q), q), q.page, q.limit)
  }

  /** Every returned item is a stored item that all active filters accept. */
  lemma ListReturnsMatches(items: seq<InventoryItem>, q: InventoryQuery)
    requires q.limit >= 1
    ensures forall k :: 0 <= k < |List(items, q).data| ==>
              List(items, q).data[k] in items && Matches(List(items, q).data[k], q)
  {
    var matching := Matching(items, q);
    var sorted := SortItems(matching, q);
    SortByMembers(matching, KeyFn(q.sortBy), Ascending(q.sortOrder));
    JsSliceMembers(sorted, (q.page - 1) * q.limit, (q.page - 1) * q.limit + q.limit);
    var data := List(items, q).data;
    assert data == PageOf(sorted, q.page, q.limit);
    forall k | 0 <= k < |data|
      ensures data[k] in items && Matches(data[k], q)
    {
      assert data[k] in sorted;
      assert data[k] in matching;
    }
  }

  /**
   * For a page number of at least one, the data is the run of the sorted matching items that
   * starts at `(page - 1) * limit`, and a page past the last one is empty while `total` still
   * counts every match.
   */
  lemma ListPage(items: seq<InventoryItem>, q: InventoryQuery)
    requires q.page >= 1 && q.limit >= 1
    ensures var sorted := SortItems(Matching(items, q), q);
            var start := PageStart(q.page, q.limit);
            && (start >= |sorted| ==> List(items, q).data == [])
            && (start < |sorted| ==> List(items, q).data == sorted[start..Min(start + q.limit, |sorted|)])
    ensures q.page > List(items, q).pagination.totalPages ==> List(items, q).data == []
  {
    var sorted := SortItems(Matching(items, q), q);
    PaginateContents(sorted, q.page, q.limit);
  }

  /** The returned page is ordered by `sortBy`: ascending for `'asc'`, descending for any other value. */
  lemma ListIsSorted(items: seq<InventoryItem>, q: InventoryQuery)
    requires q.limit >= 1
    ensures SortedBy(List(items, q).data, KeyFn(q.sortBy), Ascending(q.sortOrder))
  {
    var sorted := SortItems(Matching(items, q), q);
    assert List(items, q).data == PageOf(sorted, q.page, q.limit);
    SortBySorted(Matching(items, q), KeyFn(q.sortBy), Ascending(q.sortOrder));
    PageOfSortedIsSorted(sorted, q.page, q.limit, KeyFn(q.sortBy), Ascending(q.sortOrder));
  }

  /** A GET without a query string counts every item and answers the ten most recently created, newest first. */
  lemma DefaultListIsNewestFirst(items: seq<InventoryItem>)
    ensures List(items, DefaultQuery).pagination.total == |items|
    ensures List(items, DefaultQuery).data == SortItems(items, DefaultQuery)[..Min(10, |items|)]
    ensures SortedBy(List(items, DefaultQuery).data, KeyFn("createdAt"), false)
  {
    FilterKeepsAll(items, MatchFn(DefaultQuery));
    ListPage(items, DefaultQuery);
    ListIsSorted(items, DefaultQuery);
  }

  /** A record appended by a POST joins the matches of every query it satisfies, behind the earlier ones. */
  lemma {:induction false} AppendedMatches(items: seq<InventoryItem>, item: InventoryItem, q: InventoryQuery)
    ensures Matching(items + [item], q) == Matching(items, q) + (if Matches(item, q) then [item] else [])
  {
    FilterConcat(items, [item], MatchFn(q));
    assert [item][1..] == [];
  }

  /** Ids are the decimal strings "1", "2", ... in store order. */
  predicate IdsArePositions(items: seq<InventoryItem>) {
    forall i :: 0 <= i < |items| ==> items[i].id == DecimalString(i + 1)
  }

  /** While ids follow positions, no two items share an id. */
  lemma IdsAreUnique(items: seq<InventoryItem>)
    requires IdsArePositions(items)
    ensures forall i, j :: 0 <= i < j < |items| ==> items[i].id != items[j].id
  {
    forall i, j | 0 <= i < j < |items|
      ensures items[i].id != items[j].id
    {
      DecimalStringInjective(i + 1, j + 1);
    }
  }

  /**
   * A POST body. A field the body leaves out has the falsy value of its type (`""`, `0`,
   * `None` for the date); `donor || ''` and `parseInt(minStockLevel) || 0` then give the same
   * value as the field itself.
   */
  datatype InventoryDraft = InventoryDraft(
    name: string,
    quantity: int,
    location: string,
    expiryDate: Option<int>,
    donor: string,
    purpose: string,
    category: string,
    minStockLevel: int,
    unit: string)

  /** None of the seven required fields is falsy; a quantity of 0 counts as missing. */
  predicate HasRequiredFields(body: InventoryDraft) {
    && body.name != ""
    && body.quantity != 0
    && body.location != ""
    && body.expiryDate.Some?
    && body.purpose != ""
    && body.category != ""
    && body.unit != ""
  }

  /** The item a valid POST appends to a store of `count` items; `created` and `updated` are its two `new Date()` reads. */
  function NewItem(body: InventoryDraft, count: nat, created: int, updated: int): (item: InventoryItem)
    requires HasRequiredFields(body)
    ensures item.id == DecimalString(count + 1)
    ensures item.createdBy == "admin" && item.createdAt == created && item.updatedAt == updated
    ensures item.name == body.name && item.quantity == body.quantity && item.location == body.location
    ensures item.expiryDate == body.expiryDate.value && item.purpose == body.purpose
    ensures item.category == body.category && item.unit == body.unit
    ensures item.donor == body.donor && item.minStockLevel == body.minStockLevel
  {
    InventoryItem(DecimalString(count + 1), body.name, body.quantity, body.location,
                  body.expiryDate.value, body.donor, body.purpose, body.category,
                  body.minStockLevel, body.unit, created, updated, "admin")
  }

  /**
   * The three items the route starts with. `clock` holds the six `new Date()` reads made while the
   * module was loaded, in source order: each record's `createdAt`, then its `updatedAt`.
   */
  function Seed(clock: seq<int>): seq<InventoryItem>
    requires |clock| == 6
  {
    [ InventoryItem("1", "Paracetamol 500mg", 50, "Medical Store A", 1735603200000, "",
                    "Pain relief", "medicine", 20, "tablets", clock[0], clock[1], "admin"),
      InventoryItem("2", "Surgical Masks", 200, "Medical Store B", 1751241600000, "",
                    "Protection", "supplies", 100, "pieces", clock[2], clock[3], "admin"),
      InventoryItem("3", "Blood Pressure Monitor", 5, "Equipment Room", 1798675200000, "",
                    "Patient monitoring", "equipment", 2, "units", clock[4], clock[5], "admin") ]
  }

  /** The route module's `mockInventory` array. */
  class InventoryStore {
    var items: seq<InventoryItem>

    ghost predicate Valid()
      reads this
    {
      IdsArePositions(items)
    }

    constructor (clock: seq<int>)
      requires |clock| == 6
      ensures Valid() && items == Seed(clock)
    {
      items := Seed(clock);
      assert DecimalString(1) == "1" && DecimalString(2) == "2" && DecimalString(3) == "3";
    }

    /** `GET /api/inventory`: filters a copy pass by pass, sorts it and cuts one page; the store is left as it was. */
    method Get(q: InventoryQuery) returns (r: ListResponse<InventoryItem>)
      requires q.limit >= 1
      ensures r == List(items, q)
    {
      var filteredData := items;
      filteredData := ApplyFilters(filteredData, q);
      FiltersAreOnePass(items, q);
      filteredData := SortItems(filteredData, q);
      r := Paginate(filteredData, q.page, q.limit);
    }

    /** `POST /api/inventory`: rejects a body with a missing field, or appends one new item. */
    method Post(body: InventoryDraft, created: int, updated: int) returns (r: PostResult<InventoryItem>)
      requires Valid()
      modifies this
      ensures Valid()
      ensures !HasRequiredFields(body) ==> r == BadRequest(MissingRequiredFields) && items == old(items)
      ensures HasRequiredFields(body) ==>
                r == Added(NewItem(body, |old(items)|, created, updated)) && items == old(items) + [r.record]
    {
      if !HasRequiredFields(body) {
        return BadRequest(MissingRequiredFields);
      }
      var item := NewItem(body, |items|, created, updated);
      items := items + [item];
      r := Added(item);
    }
  }
}
