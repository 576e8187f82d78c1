/**
 * The dashboard: it reads the raw inventory and staff documents, fills in defaults for
 * missing fields, counts the statistics and keeps the five most recently created records of each kind.
 */
module Dashboard {
  import opened Wrappers
  import opened Seqs
  import opened Ordering
  import opened Pagination
  import opened Records
  import InventoryPage

  /** An inventory document as stored: any field may be absent. */
  datatype InventoryDoc = InventoryDoc(
    id: string, name: Option<string>, quantity: Option<int>, location: Option<string>,
    expiryWeeks: Option<int>, donor: Option<string>, purpose: Option<string>,
    category: Option<string>, minStockLevel: Option<int>, unit: Option<string>,
    createdAt: Option<int>, updatedAt: Option<int>, createdBy: Option<string>)

  /** The inventory record the dashboard works with once defaults are filled in. */
  datatype DashboardItem = DashboardItem(
    id: string, name: string, quantity: int, location: string, expiryWeeks: int,
    donor: string, purpose: string, category: string, minStockLevel: int, unit: string,
    createdAt: Option<int>, updatedAt: Option<int>, createdBy: string)

  /** A staff document as stored, with the spreadsheet-style keys some documents carry. */
  datatype StaffDoc = StaffDoc(
    id: string, name: Option<string>, role: Option<string>, speciality: Option<string>,
    shiftStart: Option<string>, shiftEnd: Option<string>, entryTime: Option<string>,
    exitTime: Option<string>, numberOfPatients: Option<int>, physicianContactNumber: Option<string>,
    serialNumber: Option<int>, patientsServed: Option<int>, location: Option<string>,
    contactNumber: Option<string>, email: Option<string>, isActive: JsValue,
    createdAt: Option<int>, updatedAt: Option<int>)

  datatype DashboardStaff = DashboardStaff(
    id: string, name: string, role: string, speciality: string, shiftStart: string,
    shiftEnd: string, entryTime: string, exitTime: string, numberOfPatients: int,
    physicianContactNumber: string, serialNumber: int, patientsServed: int, location: string,
    contactNumber: string, email: string, isActive: bool, createdAt: Option<int>, updatedAt: Option<int>)

  /** `value || fallback` for a text field: an absent or empty text gives the fallback. */
  function OrText(v: Option<string>, fallback: string): string {
    if v.Some? && v.value != "" then v.value else fallback
  }

  /** `value || 0` for a number field: an absent number or zero gives zero. */
  function OrZero(v: Option<int>): int {
    if v.Some? && v.value != 0 then v.value else 0
  }

  /** `|| ''` and `|| 0` change nothing about a value that is present. */
  lemma FallbacksKeepPresentValues(t: Option<string>, n: Option<int>)
    ensures OrText(t, "") == t.GetOr("")
    ensures OrZero(n) == n.GetOr(0)
  {
  }

  /** The inventory document mapping: empty texts and absent numbers default, the category to "medicine". */
  function NormaliseItem(doc: InventoryDoc): (r: DashboardItem)
    ensures r.id == doc.id && r.category != ""
    ensures doc.category.Some? && doc.category.value != "" ==> r.category == doc.category.value
    ensures doc.category.None? || doc.category == Some("") ==> r.category == "medicine"
    ensures r.name == doc.name.GetOr("") && r.quantity == doc.quantity.GetOr(0)
    ensures r.expiryWeeks == doc.expiryWeeks.GetOr(0) && r.minStockLevel == doc.minStockLevel.GetOr(0)
    ensures r.location == doc.location.GetOr("") && r.donor == doc.donor.GetOr("")
    ensures r.purpose == doc.purpose.GetOr("") && r.unit == doc.unit.GetOr("")
    ensures r.createdBy == doc.createdBy.GetOr("")
    ensures r.createdAt == doc.createdAt && r.updatedAt == doc.updatedAt
  {
    DashboardItem(
      doc.id, OrText(doc.name, ""), OrZero(doc.quantity), OrText(doc.location, ""),
      OrZero(doc.expiryWeeks), OrText(doc.donor, ""), OrText(doc.purpose, ""),
      OrText(doc.category, "medicine"), OrZero(doc.minStockLevel), OrText(doc.unit, ""),
      doc.createdAt, doc.updatedAt, OrText(doc.createdBy, ""))
  }

  /** A normalised record written back as a document, every field present. */
  function ItemDoc(x: DashboardItem): InventoryDoc {
    InventoryDoc(
      x.id, Some(x.name), Some(x.quantity), Some(x.location), Some(x.expiryWeeks), Some(x.donor),
      Some(x.purpose), Some(x.category), Some(x.minStockLevel), Some(x.unit), x.createdAt,
      x.updatedAt, Some(x.createdBy))
  }

  /** Reading a normalised record back gives the same record: the defaults are a fixed point. */
  lemma NormaliseItemIsIdempotent(doc: InventoryDoc)
    ensures NormaliseItem(ItemDoc(NormaliseItem(doc))) == NormaliseItem(doc)
  {
  }

  /** The staff document mapping: the role defaults to "volunteer" and a non-boolean `isActive` to true. */
  function NormaliseStaff(doc: StaffDoc): (r: DashboardStaff)
    ensures r.id == doc.id && r.role != ""
    ensures doc.role.Some? && doc.role.value != "" ==> r.role == doc.role.value
    ensures doc.role.None? || doc.role == Some("") ==> r.role == "volunteer"
    ensures r.isActive <==> (doc.isActive.JsBool? ==> doc.isActive.b)
    ensures r.name == doc.name.GetOr("") && r.patientsServed == doc.patientsServed.GetOr(0)
    ensures r.numberOfPatients == doc.numberOfPatients.GetOr(0) && r.serialNumber == doc.serialNumber.GetOr(0)
    ensures r.speciality == doc.speciality.GetOr("") && r.entryTime == doc.entryTime.GetOr("")
    ensures r.exitTime == doc.exitTime.GetOr("")
    ensures r.physicianContactNumber == doc.physicianContactNumber.GetOr("")
    ensures r.shiftStart == doc.shiftStart.GetOr("") && r.shiftEnd == doc.shiftEnd.GetOr("")
    ensures r.location == doc.location.GetOr("") && r.contactNumber == doc.contactNumber.GetOr("")
    ensures r.email == doc.email.GetOr("")
    ensures r.createdAt == doc.createdAt && r.updatedAt == doc.updatedAt
  {
    DashboardStaff(
      doc.id, OrText(doc.name, ""), OrText(doc.role, "volunteer"), OrText(doc.speciality, ""),
      OrText(doc.shiftStart, ""), OrText(doc.shiftEnd, ""), OrText(doc.entryTime, ""),
      OrText(doc.exitTime, ""), OrZero(doc.numberOfPatients), OrText(doc.physicianContactNumber, ""),
      OrZero(doc.serialNumber), OrZero(doc.patientsServed), OrText(doc.location, ""),
      OrText(doc.contactNumber, ""), OrText(doc.email, ""),
      if doc.isActive.JsBool? then doc.isActive.b else true,
      doc.createdAt, doc.updatedAt)
  }

  function StaffDocOf(x: DashboardStaff): StaffDoc {
    StaffDoc(
      x.id, Some(x.name), Some(x.role), Some(x.speciality), Some(x.shiftStart), Some(x.shiftEnd),
      Some(x.entryTime), Some(x.exitTime), Some(x.numberOfPatients), Some(x.physicianContactNumber),
      Some(x.serialNumber), Some(x.patientsServed), Some(x.location), Some(x.contactNumber),
      Some(x.email), JsBool(x.isActive), x.createdAt, x.updatedAt)
  }

  lemma NormaliseStaffIsIdempotent(doc: StaffDoc)
    ensures NormaliseStaff(StaffDocOf(NormaliseStaff(doc))) == NormaliseStaff(doc)
  {
  }

  /** The four counters of the dashboard (the monetary total is not modelled). */
  datatype Stats = Stats(totalInventory: nat, totalStaff: nat, lowStockItems: nat, expiringItems: nat)

  predicate IsLowStock(x: DashboardItem) {
    x.quantity <= x.minStockLevel
  }

  predicate IsExpiring(x: DashboardItem) {
    x.expiryWeeks <= 4
  }

  function LowStockFn(): DashboardItem -> bool {
    x => IsLowStock(x)
  }

  function WellStockedFn(): DashboardItem -> bool {
    x => !IsLowStock(x)
  }

  function ExpiringFn(): DashboardItem -> bool {
    x => IsExpiring(x)
  }

  function ComputeStats(items: seq<DashboardItem>, staff: seq<DashboardStaff>): (r: Stats)
    ensures r.totalInventory == |items| && r.totalStaff == |staff|
    ensures r.lowStockItems <= r.totalInventory && r.expiringItems <= r.totalInventory
  {
    Stats(|items|, |staff|, |Filter(items, LowStockFn())|, |Filter(items, ExpiringFn())|)
  }

  /** Low-stock and well-stocked items together are all the items. */
  lemma StockCountsAddUp(items: seq<DashboardItem>, staff: seq<DashboardStaff>)
    ensures ComputeStats(items, staff).lowStockItems + |Filter(items, WellStockedFn())| == |items|
  {
    FilterSplitCount(items, LowStockFn());
    FilterAgreeing(items, x => !LowStockFn()(x), WellStockedFn());
  }

  /** `getStatusText` on the dashboard: 0 weeks is expired, up to 4 weeks (negative ones too) expiring soon. */
  function StatusText(expiryWeeks: int): (r: string)
    ensures r == "Expired" <==> expiryWeeks == 0
    ensures r == "Expiring Soon" <==> expiryWeeks != 0 && expiryWeeks <= 4
    ensures r == "Good" <==> expiryWeeks > 4
  {
    if expiryWeeks == 0 then "Expired" else if expiryWeeks <= 4 then "Expiring Soon" else "Good"
  }

  /** `getStatusColor` on the dashboard: the same branches, hence the inventory screen's colour for the text. */
  function StatusColor(expiryWeeks: int): (r: string)
    ensures r == InventoryPage.ColorOf(StatusText(expiryWeeks))
  {
    if expiryWeeks == 0 then "text-red-600" else if expiryWeeks <= 4 then "text-yellow-600" else "text-green-600"
  }

  function NotGoodFn(): DashboardItem -> bool {
    (x: DashboardItem) => StatusText(x.expiryWeeks) != "Good"
  }

  /** The "expiring" counter counts exactly the items whose badge is not "Good". */
  lemma ExpiringCountMatchesBadges(items: seq<DashboardItem>, staff: seq<DashboardStaff>)
    ensures ComputeStats(items, staff).expiringItems == |Filter(items, NotGoodFn())|
  {
    FilterAgreeing(items, ExpiringFn(), NotGoodFn());
  }

  /** The sort key `createdAt?.getTime?.() || 0`: a missing creation time counts as 0. */
  function ItemCreatedKey(): DashboardItem -> Key {
    (x: DashboardItem) => Num(x.createdAt.GetOr(0))
  }

  function StaffCreatedKey(): DashboardStaff -> Key {
    (x: DashboardStaff) => Num(x.createdAt.GetOr(0))
  }

  /** Sort newest first by the key and keep the first five. */
  function Recent<T>(s: seq<T>, key: T -> Key): (r: seq<T>)
    ensures |r| == Min(5, |s|)
  {
    SortBy(s, key, false)[..Min(5, |s|)]
  }

  /**
   * The recent list is newest first, holds records of the input, and no record left out of it
   * was created later than one shown.
   */
  lemma RecentAreNewest<T>(s: seq<T>, key: T -> Key)
    ensures SortedBy(Recent(s, key), key, false)
    ensures multiset(Recent(s, key)) <= multiset(s)
    ensures forall x :: x in multiset(s) - multiset(Recent(s, key)) ==>
              forall i :: 0 <= i < |Recent(s, key)| ==> KeyLe(key(x), key(Recent(s, key)[i]))
  {
    var sorted, m := SortBy(s, key, false), Min(5, |s|);
    var r := sorted[..m];
    SortBySorted(s, key, false);
    SortedSlice(sorted, 0, m, key, false);
    assert sorted == r + sorted[m..];
    assert multiset(sorted) == multiset(r) + multiset(sorted[m..]);
    forall x | x in multiset(s) - multiset(r)
      ensures forall i :: 0 <= i < |r| ==> KeyLe(key(x), key(r[i]))
    {
      assert x in multiset(sorted[m..]);
      var j :| 0 <= j < |sorted[m..]| && sorted[m..][j] == x;
      forall i | 0 <= i < |r|
        ensures KeyLe(key(x), key(r[i]))
      {
        assert Precedes(key(sorted[i]), key(sorted[m + j]), false);
      }
    }
  }

  /** `recentInventory`: the five most recently created items. */
  function RecentInventory(items: seq<DashboardItem>): (r: seq<DashboardItem>)
    ensures |r| == Min(5, |items|)
  {
    Recent(items, ItemCreatedKey())
  }

  /** `recentStaff`: the five most recently created staff members. */
  function RecentStaff(staff: seq<DashboardStaff>): (r: seq<DashboardStaff>)
    ensures |r| == Min(5, |staff|)
  {
    Recent(staff, StaffCreatedKey())
  }

  /**
   * `list.sort(newest first).slice(0, 5)`: the local list is reordered in place, then its first
   * five records are taken.
   */
  method SortAndTakeRecent<T>(list: array<T>, key: T -> Key) returns (recent: seq<T>)
    modifies list
    ensures list[..] == SortBy(old(list[..]), key, false)
    ensures recent == Recent(old(list[..]), key)
  {
    var sorted := SortBy(list[..], key, false);
    forall i | 0 <= i < list.Length {
      list[i] := sorted[i];
    }
    recent := list[..Min(5, list.Length)];
  }

  /** `inventorySnap.docs.map(...)`. */
  function NormaliseItems(docs: seq<InventoryDoc>): (r: seq<DashboardItem>)
    ensures |r| == |docs| && forall i :: 0 <= i < |docs| ==> r[i] == NormaliseItem(docs[i])
  {
    seq(|docs|, i requires 0 <= i < |docs| => NormaliseItem(docs[i]))
  }

  /** `staffSnap.docs.map(...)`. */
  function NormaliseStaffList(docs: seq<StaffDoc>): (r: seq<DashboardStaff>)
    ensures |r| == |docs| && forall i :: 0 <= i < |docs| ==> r[i] == NormaliseStaff(docs[i])
  {
    seq(|docs|, i requires 0 <= i < |docs| => NormaliseStaff(docs[i]))
  }

  /** The whole dashboard read: documents in, counters and recent lists out. */
  datatype View = View(stats: Stats, recentInventory: seq<DashboardItem>, recentStaff: seq<DashboardStaff>)

  function Load(inventoryDocs: seq<InventoryDoc>, staffDocs: seq<StaffDoc>): (r: View)
    ensures r.stats.totalInventory == |inventoryDocs| && r.stats.totalStaff == |staffDocs|
    ensures |r.recentInventory| == Min(5, |inventoryDocs|) && |r.recentStaff| == Min(5, |staffDocs|)
  {
    var items, staff := NormaliseItems(inventoryDocs), NormaliseStaffList(staffDocs);
    View(ComputeStats(items, staff), RecentInventory(items), RecentStaff(staff))
  }

  /**
   * The dashboard's read: normalise both collections into local lists, count, then sort each
   * list in place and keep its first five records.
   */
  method FetchDashboardData(inventoryDocs: seq<InventoryDoc>, staffDocs: seq<StaffDoc>) returns (view: View)
    ensures view == Load(inventoryDocs, staffDocs)
  {
    var items, staff := NormaliseItems(inventoryDocs), NormaliseStaffList(staffDocs);
    var inventoryList := new DashboardItem[|items|](i requires 0 <= i < |items| => items[i]);
    var staffList := new DashboardStaff[|staff|](i requires 0 <= i < |staff| => staff[i]);
    assert inventoryList[..] == items && staffList[..] == staff;
    var stats := ComputeStats(inventoryList[..], staffList[..]);
    var recentInventory := SortAndTakeRecent(inventoryList, ItemCreatedKey());
    var recentStaff := SortAndTakeRecent(staffList, StaffCreatedKey());
    view := View(stats, recentInventory, recentStaff);
  }
}
