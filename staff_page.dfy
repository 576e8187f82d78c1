/** The staff screen: its client-side filter and the active/inactive badge of each member. */
module StaffPage {
  import opened Seqs
  import opened Text
  import opened Records

  /** The three filter controls of the screen; `""` means the control is cleared. */
  datatype Criteria = Criteria(searchTerm: string, roleFilter: string, locationFilter: string)

  const NoCriteria := Criteria("", "", "")

  /**
   * One member passes when the search term occurs, ignoring case, in the name or the location,
   * and the role and location controls, when set, equal the member's fields exactly.
   */
  predicate Matches(member: StaffMember, c: Criteria) {
    && (IncludesIgnoreCase(member.name, c.searchTerm) || IncludesIgnoreCase(member.location, c.searchTerm))
    && (c.roleFilter == "" || member.role == c.roleFilter)
    && (c.locationFilter == "" || member.location == c.locationFilter)
  }

  function MatchFn(c: Criteria): StaffMember -> bool {
    x => Matches(x, c)
  }

  /** `filteredStaff`: the fetched members that pass the controls, in fetched order. */
  function FilteredStaff(staff: seq<StaffMember>, c: Criteria): (r: seq<StaffMember>)
    ensures IsSubsequence(r, staff)
    ensures forall i :: 0 <= i < |r| ==> Matches(r[i], c)
    ensures forall i :: 0 <= i < |staff| && Matches(staff[i], c) ==> staff[i] in r
    ensures forall x :: multiset(r)[x] == if Matches(x, c) then multiset(staff)[x] else 0
  {
    FilterIsSubsequence(staff, MatchFn(c));
    FilterCounts(staff, MatchFn(c));
    Filter(staff, MatchFn(c))
  }

  /** With every control cleared the screen lists everyone it fetched. */
  lemma {:induction false} NoCriteriaShowsAll(staff: seq<StaffMember>)
    ensures FilteredStaff(staff, NoCriteria) == staff
  {
    forall i | 0 <= i < |staff|
      ensures MatchFn(NoCriteria)(staff[i])
    {
      IncludesEmpty(staff[i].name);
    }
    FilterKeepsAll(staff, MatchFn(NoCriteria));
  }

  /** Filtering what is already filtered by the same controls changes nothing. */
  lemma FilteringTwiceIsFilteringOnce(staff: seq<StaffMember>, c: Criteria)
    ensures FilteredStaff(FilteredStaff(staff, c), c) == FilteredStaff(staff, c)
  {
    FilterIdempotent(staff, MatchFn(c));
  }

  /** The status badge: its text and its colour both follow `isActive`. */
  datatype Badge = Badge(text: string, color: string)

  function ActiveBadge(member: StaffMember): (r: Badge)
    ensures r.text == "Active" <==> member.isActive
    ensures r.text == "Inactive" <==> !member.isActive
    ensures r.color == "text-green-600" <==> r.text == "Active"
    ensures r.color == "text-red-600" <==> r.text == "Inactive"
  {
    if member.isActive then Badge("Active", "text-green-600") else Badge("Inactive", "text-red-600")
  }
}
