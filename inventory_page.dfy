/** The inventory screen: its client-side filter and the expiry status shown for each item. */
module InventoryPage {
  import opened Seqs
  import opened Text
  import opened Records
  import opened Utils

  /** The three filter controls of the screen; `""` means the control is cleared. */
  datatype Criteria = Criteria(searchTerm: string, categoryFilter: string, locationFilter: string)

  const NoCriteria := Criteria("", "", "")

  /**
   * One item passes when the search term occurs, ignoring case, in its name or its location,
   * and the category and location controls, when set, equal the item's fields exactly.
   */
  predicate Matches(item: InventoryItem, c: Criteria) {
    && (IncludesIgnoreCase(item.name, c.searchTerm) || IncludesIgnoreCase(item.location, c.searchTerm))
    && (c.categoryFilter == "" || item.category == c.categoryFilter)
    && (c.locationFilter == "" || item.location == c.locationFilter)
  }

  function MatchFn(c: Criteria): InventoryItem -> bool {
    x => Matches(x, c)
  }

  /** `filteredInventory`: the fetched items that pass the controls, in fetched order. */
  function FilteredInventory(inventory: seq<InventoryItem>, c: Criteria): (r: seq<InventoryItem>)
    ensures IsSubsequence(r, inventory)
    ensures forall i :: 0 <= i < |r| ==> Matches(r[i], c)
    ensures forall i :: 0 <= i < |inventory| && Matches(inventory[i], c) ==> inventory[i] in r
    ensures forall x :: multiset(r)[x] == if Matches(x, c) then multiset(inventory)[x] else 0
  {
    FilterIsSubsequence(inventory, MatchFn(c));
    FilterCounts(inventory, MatchFn(c));
    Filter(inventory, MatchFn(c))
  }

  /** With every control cleared the screen lists everything it fetched. */
  lemma {:induction false} NoCriteriaShowsAll(inventory: seq<InventoryItem>)
    ensures FilteredInventory(inventory, NoCriteria) == inventory
  {
    forall i | 0 <= i < |inventory|
      ensures MatchFn(NoCriteria)(inventory[i])
    {
      IncludesEmpty(inventory[i].name);
    }
    FilterKeepsAll(inventory, MatchFn(NoCriteria));
  }

  /** Filtering what is already filtered by the same controls changes nothing. */
  lemma FilteringTwiceIsFilteringOnce(inventory: seq<InventoryItem>, c: Criteria)
    ensures FilteredInventory(FilteredInventory(inventory, c), c) == FilteredInventory(inventory, c)
  {
    FilterIdempotent(inventory, MatchFn(c));
  }

  /** `getStatusText`: expired first, then expiring within 30 days, otherwise good. */
  function StatusText(expiryDate: int, now: int): (r: string)
    ensures r == "Expired" <==> expiryDate < now
    ensures r == "Expiring Soon" <==> now < expiryDate < now + 30 * MsPerDay
    ensures r == "Good" <==> expiryDate == now || expiryDate >= now + 30 * MsPerDay
  {
    if IsExpired(expiryDate, now) then "Expired"
    else if IsExpiringSoon(expiryDate, 30, now) then "Expiring Soon"
    else "Good"
  }

  /** The colour that goes with each status text. */
  function ColorOf(status: string): (r: string)
    ensures status in ["Expired", "Expiring Soon", "Good"] ==> r in ["text-red-600", "text-yellow-600", "text-green-600"]
  {
    match status
    case "Expired" => "text-red-600"
    case "Expiring Soon" => "text-yellow-600"
    case _ => "text-green-600"
  }

  /** `getStatusColor`: the same three branches as the text, so the colour always matches it. */
  function StatusColor(expiryDate: int, now: int): (r: string)
    ensures r == ColorOf(StatusText(expiryDate, now))
    ensures r == "text-red-600" <==> expiryDate < now
  {
    if IsExpired(expiryDate, now) then "text-red-600"
    else if IsExpiringSoon(expiryDate, 30, now) then "text-yellow-600"
    else "text-green-600"
  }

  /** Different status texts have different colours. */
  lemma StatusColorsAreDistinct(a: string, b: string)
    requires a in ["Expired", "Expiring Soon", "Good"] && b in ["Expired", "Expiring Soon", "Good"]
    ensures ColorOf(a) == ColorOf(b) <==> a == b
  {
  }
}
