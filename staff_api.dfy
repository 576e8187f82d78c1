/**
 * `GET /api/staff` and `POST /api/staff` over the route's in-memory `mockStaff` array.
 * GET reads a copy: it filters (search, role, location, and the tri-state `isActive`), sorts
 * and cuts out one page. POST checks the required fields and appends one member.
 */
module StaffApi {
  import opened Wrappers
  import opened Seqs
  import opened Text
  import opened Ordering
  import opened Records
  import opened Pagination

  /**
   * The query string of a GET, with absent parameters at their defaults, `page` and `limit`
   * already read as integers, and `isActive` kept absent (`None`) when the URL lacks it.
   */
  datatype StaffQuery = StaffQuery(
    page: int,
    limit: int,
    search: string,
    role: string,
    location: string,
    isActive: Option<string>,
    sortBy: string,
    sortOrder: string)

  /** The parameters of a GET without a query string. */
  const DefaultQuery: StaffQuery := StaffQuery(1, 10, "", "", "", None, "createdAt", "desc")

  /** The search term occurs in the member's name (and only there), ignoring case. */
  predicate MatchesSearch(member: StaffMember, search: string) {
    IncludesIgnoreCase(member.name, search)
  }

  /** The location parameter occurs in the member's location, ignoring case. */
  predicate MatchesLocation(member: StaffMember, location: string) {
    IncludesIgnoreCase(member.location, location)
  }

  /** A present `isActive` parameter selects active members for `'true'` and inactive ones for any other value. */
  predicate MatchesActive(member: StaffMember, isActive: string) {
    member.isActive == (isActive == "true")
  }

  /** The search, role and location filters of the query accept the member; an empty parameter filters nothing. */
  predicate MatchesText(member: StaffMember, q: StaffQuery) {
    && (q.search == "" || MatchesSearch(member, q.search))
    && (q.role == "" || member.role == q.role)
    && (q.location == "" || MatchesLocation(member, q.location))
  }

  /** Every active filter of the query accepts the member; an empty or absent parameter filters nothing. */
  predicate Matches(member: StaffMember, q: StaffQuery) {
    MatchesText(member, q) && (q.isActive.None? || MatchesActive(member, q.isActive.value))
  }

  function MatchFn(q: StaffQuery): StaffMember -> bool {
    x => Matches(x, q)
  }

  function MatchTextFn(q: StaffQuery): StaffMember -> bool {
    x => MatchesText(x, q)
  }

  /** The members that pass every filter, in store order. */
  function Matching(members: seq<StaffMember>, q: StaffQuery): seq<StaffMember> {
    Filter(members, MatchFn(q))
  }

  /** The route's search, role and location steps, each applied only when its parameter is non-empty. */
  function ApplyTextFilters(members: seq<StaffMember>, q: StaffQuery): seq<StaffMember> {
    var bySearch := if q.search != "" then Filter(members, SearchFn(q)) else members;
    var byRole := if q.role != "" then Filter(bySearch, RoleFn(q)) else bySearch;
    if q.location != "" then Filter(byRole, LocationFn(q)) else byRole
  }

  /** The route's four filter steps; the `isActive` step runs whenever the parameter is present. */
  function ApplyFilters(members: seq<StaffMember>, q: StaffQuery): seq<StaffMember> {
    var byLocation := ApplyTextFilters(members, q);
    if q.isActive.Some? then Filter(byLocation, ActiveFn(q)) else byLocation
  }

  function SearchFn(q: StaffQuery): StaffMember -> bool {
    x => MatchesSearch(x, q.search)
  }

  function RoleFn(q: StaffQuery): StaffMember -> bool {
    (x: StaffMember) => x.role == q.role
  }

  function LocationFn(q: StaffQuery): StaffMember -> bool {
    x => MatchesLocation(x, q.location)
  }

  function ActiveFn(q: StaffQuery): StaffMember -> bool {
    x => q.isActive.Some? && MatchesActive(x, q.isActive.value)
  }

  lemma TextFiltersAreOnePass(members: seq<StaffMember>, q: StaffQuery)
    ensures ApplyTextFilters(members, q) == Filter(members, MatchTextFn(q))
  {
    var ps := (x: StaffMember) => q.search == "" || MatchesSearch(x, q.search);
    var pr := (x: StaffMember) => q.role == "" || x.role == q.role;
    var pl := (x: StaffMember) => q.location == "" || MatchesLocation(x, q.location);
    var psr := (x: StaffMember) => ps(x) && pr(x);
    var bySearch := if q.search != "" then Filter(members, SearchFn(q)) else members;
    FilterStep(members, q.search != "", SearchFn(q), ps);
    var byRole := if q.role != "" then Filter(bySearch, RoleFn(q)) else bySearch;
    FilterStep(bySearch, q.role != "", RoleFn(q), pr);
    FilterFuse(members, ps, pr, psr);
    assert byRole == Filter(members, psr);
    FilterStep(byRole, q.location != "", LocationFn(q), pl);
    FilterFuse(members, psr, pl, MatchTextFn(q));
  }

  /** The filter chain keeps exactly the members every active filter accepts, in store order. */
  lemma FiltersAreOnePass(members: seq<StaffMember>, q: StaffQuery)
    ensures ApplyFilters(members, q) == Matching(members, q)
  {
    var pa := (x: StaffMember) => q.isActive.None? || MatchesActive(x, q.isActive.value);
    var byLocation := ApplyTextFilters(members, q);
    TextFiltersAreOnePass(members, q);
    FilterStep(byLocation, q.isActive.Some?, ActiveFn(q), pa);
    FilterFuse(members, MatchTextFn(q), pa, MatchFn(q));
  }

  /** Without an `isActive` parameter no member is dropped for its status; with one, every member returned has the asked status. */
  lemma ActiveFilterIsTriState(members: seq<StaffMember>, q: StaffQuery)
    ensures q.isActive.None? && q.search == "" && q.role == "" && q.location == "" ==>
            Matching(members, q) == members
    ensures q.isActive.Some? ==>
            forall k :: 0 <= k < |Matching(members, q)| ==>
              Matching(members, q)[k].isActive == (q.isActive.value == "true")
  {
    if q.isActive.None? && q.search == "" && q.role == "" && q.location == "" {
      FilterKeepsAll(members, MatchFn(q));
    }
  }

  /** `member[sortBy] ?? ''`: the compared value of a field (`true` above `false`); an unknown name compares as `''`. */
  function SortKey(sortBy: string, member: StaffMember): Key {
    match sortBy
    case "id" => Str(member.id)
    case "name" => Str(member.name)
    case "role" => Str(member.role)
    case "specialty" => Str(member.specialty)
    case "shiftStart" => Str(member.shiftStart)
    case "shiftEnd" => Str(member.shiftEnd)
    case "patientsServed" => Num(member.patientsServed)
    case "location" => Str(member.location)
    case "contactNumber" => Str(member.contactNumber)
    case "email" => Str(member.email)
    case "isActive" => Num(if member.isActive then 1 else 0)
    case "createdAt" => Num(member.createdAt)
    case "updatedAt" => Num(member.updatedAt)
    case _ => Str("")
  }

  function KeyFn(sortBy: string): StaffMember -> Key {
    x => SortKey(sortBy, x)
  }

  /** The direction is ascending only for the exact value `'asc'`. */
  predicate Ascending(sortOrder: string) {
    sortOrder == "asc"
  }

  function SortMembers(members: seq<StaffMember>, q: StaffQuery): seq<StaffMember> {
    SortBy(members, KeyFn(q.sortBy), Ascending(q.sortOrder))
  }

  /** The GET response: the matching records, sorted, then one page of them. */
  function List(members: seq<StaffMember>, q: StaffQuery): (r: ListResponse<StaffMember>)
    requires q.limit >= 1
    ensures r.pagination.total == |Matching(members, q)| <= |members|
    ensures |r.data| <= q.limit
  {
    Paginate(SortMembers(Matching(members, q), q), q.page, q.limit)
  }

  /** Every returned member is a stored member that all active filters accept. */
  lemma ListReturnsMatches(members: seq<StaffMember>, q: StaffQuery)
    requires q.limit >= 1
    ensures forall k :: 0 <= k < |List(members, q).data| ==>
              List(members, q).data[k] in members && Matches(List(members, q).data[k], q)
  {
    var matching := Matching(members, q);
    var sorted := SortMembers(matching, q);
    SortByMembers(matching, KeyFn(q.sortBy), Ascending(q.sortOrder));
    JsSliceMembers(sorted, PageStart(q.page, q.limit), PageStart(q.page, q.limit) + q.limit);
    var data := List(members, q).data;
    assert data == PageOf(sorted, q.page, q.limit);
    forall k | 0 <= k < |data|
      ensures data[k] in members && Matches(data[k], q)
    {
      assert data[k] in sorted;
      assert data[k] in matching;
    }
  }

  /**
   * For a page number of at least one, the data is the run of the sorted matching members
   * that starts at `(page - 1) * limit`, and a page past the last one is empty.
   */
  lemma ListPage(members: seq<StaffMember>, q: StaffQuery)
    requires q.page >= 1 && q.limit >= 1
    ensures var sorted := SortMembers(Matching(members, q), q);
            var start := PageStart(q.page, q.limit);
            && (start >= |sorted| ==> List(members, q).data == [])
            && (start < |sorted| ==> List(members, q).data == sorted[start..Min(start + q.limit, |sorted|)])
    ensures q.page > List(members, q).pagination.totalPages ==> List(members, q).data == []
  {
    var sorted := SortMembers(Matching(members, q), q);
    PaginateContents(sorted, q.page, q.limit);
  }

  /** The returned page is ordered by `sortBy`: ascending for `'asc'`, descending for any other value. */
  lemma ListIsSorted(members: seq<StaffMember>, q: StaffQuery)
    requires q.limit >= 1
    ensures SortedBy(List(members, q).data, KeyFn(q.sortBy), Ascending(q.sortOrder))
  {
    var sorted := SortMembers(Matching(members, q), q);
    SortBySorted(Matching(members, q), KeyFn(q.sortBy), Ascending(q.sortOrder));
    PageOfSortedIsSorted(sorted, q.page, q.limit, KeyFn(q.sortBy), Ascending(q.sortOrder));
  }

  /** A GET without a query string counts every member and answers the ten most recently created, newest first. */
  lemma DefaultListIsNewestFirst(members: seq<StaffMember>)
    ensures List(members, DefaultQuery).pagination.total == |members|
    ensures List(members, DefaultQuery).data == SortMembers(members, DefaultQuery)[..Min(10, |members|)]
    ensures SortedBy(List(members, DefaultQuery).data, KeyFn("createdAt"), false)
  {
    FilterKeepsAll(members, MatchFn(DefaultQuery));
    ListPage(members, DefaultQuery);
    ListIsSorted(members, DefaultQuery);
  }

  /** A record appended by a POST joins the matches of every query it satisfies, behind the earlier ones. */
  lemma {:induction false} AppendedMatches(members: seq<StaffMember>, member: StaffMember, q: StaffQuery)
    ensures Matching(members + [member], q) == Matching(members, q) + (if Matches(member, q) then [member] else [])
  {
    FilterConcat(members, [member], MatchFn(q));
    assert [member][1..] == [];
  }

  /** Ids are the decimal strings "1", "2", ... in store order. */
  predicate IdsArePositions(members: seq<StaffMember>) {
    forall i :: 0 <= i < |members| ==> members[i].id == DecimalString(i + 1)
  }

  /** While ids follow positions, no two members share an id. */
  lemma IdsAreUnique(members: seq<StaffMember>)
    requires IdsArePositions(members)
    ensures forall i, j :: 0 <= i < j < |members| ==> members[i].id != members[j].id
  {
    forall i, j | 0 <= i < j < |members|
      ensures members[i].id != members[j].id
    {
      DecimalStringInjective(i + 1, j + 1);
    }
  }

  /**
   * A POST body. A string or number the body leaves out has the falsy value of its type;
   * `isActive` keeps its JSON value, since `Boolean(isActive)` reads its truthiness.
   */
  datatype StaffDraft = StaffDraft(
    name: string,
    role: string,
    specialty: string,
    shiftStart: string,
    shiftEnd: string,
    patientsServed: int,
    location: string,
    contactNumber: string,
    email: string,
    isActive: JsValue)

  /** None of the seven required fields is empty. */
  predicate HasRequiredFields(body: StaffDraft) {
    && body.name != ""
    && body.role != ""
    && body.shiftStart != ""
    && body.shiftEnd != ""
    && body.location != ""
    && body.contactNumber != ""
    && body.email != ""
  }

  /** The member a valid POST appends to a store of `count` members; `created` and `updated` are its two `new Date()` reads. */
  function NewMember(body: StaffDraft, count: nat, created: int, updated: int): (member: StaffMember)
    requires HasRequiredFields(body)
    ensures member.id == DecimalString(count + 1)
    ensures member.createdAt == created && member.updatedAt == updated
    ensures member.isActive <==> Truthy(body.isActive)
    ensures body.isActive == Undefined ==> !member.isActive
    ensures member.name == body.name && member.role == body.role && member.specialty == body.specialty
    ensures member.shiftStart == body.shiftStart && member.shiftEnd == body.shiftEnd
    ensures member.patientsServed == body.patientsServed && member.location == body.location
    ensures member.contactNumber == body.contactNumber && member.email == body.email
  {
    StaffMember(DecimalString(count + 1), body.name, body.role, body.specialty, body.shiftStart,
                body.shiftEnd, body.patientsServed, body.location, body.contactNumber, body.email,
                Truthy(body.isActive), created, updated)
  }

  /**
   * The three members the route starts with. `clock` holds the six `new Date()` reads made while the
   * module was loaded, in source order: each record's `createdAt`, then its `updatedAt`.
   */
  function Seed(clock: seq<int>): seq<StaffMember>
    requires |clock| == 6
  {
    [ StaffMember("1", "Dr. Sarah Johnson", "doctor", "General Medicine", "09:00", "17:00", 45,
                  "Clinic A", "+91-9876543210", "sarah.johnson@jsf.org", true, clock[0], clock[1]),
      StaffMember("2", "Nurse Priya Sharma", "nurse", "Emergency Care", "08:00", "16:00", 38,
                  "Clinic B", "+91-9876543211", "priya.sharma@jsf.org", true, clock[2], clock[3]),
      StaffMember("3", "Dr. Rajesh Kumar", "doctor", "Cardiology", "10:00", "18:00", 52,
                  "Clinic C", "+91-9876543212", "rajesh.kumar@jsf.org", true, clock[4], clock[5]) ]
  }

  /** The route module's `mockStaff` array. */
  class StaffStore {
    var members: seq<StaffMember>

    ghost predicate Valid()
      reads this
    {
      IdsArePositions(members)
    }

    constructor (clock: seq<int>)
      requires |clock| == 6
      ensures Valid() && members == Seed(clock)
    {
      members := Seed(clock);
      assert DecimalString(1) == "1" && DecimalString(2) == "2" && DecimalString(3) == "3";
    }

    /** `GET /api/staff`: filters a copy pass by pass, sorts it and cuts one page; the store is left as it was. */
    method Get(q: StaffQuery) returns (r: ListResponse<StaffMember>)
      requires q.limit >= 1
      ensures r == List(members, q)
    {
      var filteredData := members;
      filteredData := ApplyFilters(filteredData, q);
      FiltersAreOnePass(members, q);
      filteredData := SortMembers(filteredData, q);
      r := Paginate(filteredData, q.page, q.limit);
    }

    /** `POST /api/staff`: rejects a body with a missing field, or appends one new member. */
    method Post(body: StaffDraft, created: int, updated: int) returns (r: PostResult<StaffMember>)
      requires Valid()
      modifies this
      ensures Valid()
      ensures !HasRequiredFields(body) ==> r == BadRequest(MissingRequiredFields) && members == old(members)
      ensures HasRequiredFields(body) ==>
                r == Added(NewMember(body, |old(members)|, created, updated)) && members == old(members) + [r.record]
    {
      if !HasRequiredFields(body) {
        return BadRequest(MissingRequiredFields);
      }
      var member := NewMember(body, |members|, created, updated);
      members := members + [member];
      r := Added(member);
    }
  }
}
