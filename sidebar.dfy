/** The side navigation: a fixed table of entries filtered by the signed-in user's role, and the language switch. */
module Sidebar {
  import opened Wrappers
  import opened Seqs

  /** The role of a signed-in user. */
  datatype UserRole = Admin | Coordinator | Volunteer

  /** The five pages the menu can link to. */
  datatype Page = Dashboard | Inventory | Staff | Reports | Settings

  /** The link of each page. */
  function Href(page: Page): string {
    match page
    case Dashboard => "/"
    case Inventory => "/inventory"
    case Staff => "/staff"
    case Reports => "/reports"
    case Settings => "/settings"
  }

  /** Each page has a link of its own. */
  lemma HrefsAreDistinct(a: Page, b: Page)
    ensures Href(a) == Href(b) <==> a == b
  {
  }

  /** One navigation entry: the page it links to and the roles allowed to see it. */
  datatype NavItem = NavItem(page: Page, roles: seq<UserRole>)

  const DashboardEntry := NavItem(Dashboard, [Admin, Coordinator, Volunteer])
  const InventoryEntry := NavItem(Inventory, [Admin, Coordinator])
  const StaffEntry := NavItem(Staff, [Admin, Coordinator])
  const ReportsEntry := NavItem(Reports, [Admin, Coordinator])
  const SettingsEntry := NavItem(Settings, [Admin])

  /** `navigation`: the five entries in display order. */
  const Navigation: seq<NavItem> := [DashboardEntry, InventoryEntry, StaffEntry, ReportsEntry, SettingsEntry]

  /** `user && item.roles.includes(user.role)`; `None` stands for no signed-in user. */
  predicate Shown(item: NavItem, user: Option<UserRole>) {
    user.Some? && user.value in item.roles
  }

  function ShownFn(user: Option<UserRole>): NavItem -> bool {
    x => Shown(x, user)
  }

  /** `filteredNavigation`: the entries the user may see, in table order. */
  function FilteredNavigation(user: Option<UserRole>): seq<NavItem> {
    Filter(Navigation, ShownFn(user))
  }

  /** An entry is in the menu exactly when it is in the table and the user's role is among its roles. */
  lemma ShownExactly(user: Option<UserRole>)
    ensures forall item :: item in FilteredNavigation(user) <==>
              item in Navigation && user.Some? && user.value in item.roles
  {
    FilterMembers(Navigation, ShownFn(user));
    forall item
      ensures ShownFn(user)(item) <==> user.Some? && user.value in item.roles
    {
    }
  }

  /** The menu keeps the table's order: it is a subsequence of the table. */
  lemma NavigationKeepsOrder(user: Option<UserRole>)
    ensures IsSubsequence(FilteredNavigation(user), Navigation)
  {
    FilterIsSubsequence(Navigation, ShownFn(user));
  }

  /** Without a signed-in user no entry is shown. */
  lemma NoUserSeesNothing()
    ensures FilteredNavigation(None) == []
  {
    FilterNone(Navigation, ShownFn(None));
  }

  /** An entry as the filter leaves it for `user`: kept, or dropped. */
  function Pick(item: NavItem, user: Option<UserRole>): seq<NavItem> {
    if Shown(item, user) then [item] else []
  }

  /** The filter over the table, entry by entry. */
  lemma FilterTable(user: Option<UserRole>)
    ensures FilteredNavigation(user) ==
            Pick(DashboardEntry, user) + (Pick(InventoryEntry, user) + (Pick(StaffEntry, user) +
            (Pick(ReportsEntry, user) + Pick(SettingsEntry, user))))
  {
    var p := ShownFn(user);
    var t4 := [SettingsEntry];
    var t3 := [ReportsEntry] + t4;
    var t2 := [StaffEntry] + t3;
    var t1 := [InventoryEntry] + t2;
    assert Navigation == [DashboardEntry] + t1;
    assert t4 == [SettingsEntry] + [];
    FilterCons(SettingsEntry, [], p);
    assert Filter(t4, p) == Pick(SettingsEntry, user);
    FilterCons(ReportsEntry, t4, p);
    FilterCons(StaffEntry, t3, p);
    FilterCons(InventoryEntry, t2, p);
    FilterCons(DashboardEntry, t1, p);
  }

  lemma NavigationSpelledOut()
    ensures Navigation == [DashboardEntry] + ([InventoryEntry] + ([StaffEntry] + ([ReportsEntry] + [SettingsEntry])))
  {
  }

  /** An administrator sees every entry. */
  lemma AdminSeesAll()
    ensures FilteredNavigation(Some(Admin)) == Navigation
  {
    FilterTable(Some(Admin));
    NavigationSpelledOut();
  }

  /** A coordinator sees every entry but Settings. */
  lemma CoordinatorSeesAllButSettings()
    ensures FilteredNavigation(Some(Coordinator)) == [DashboardEntry, InventoryEntry, StaffEntry, ReportsEntry]
  {
    FilterTable(Some(Coordinator));
  }

  /** A volunteer sees only the Dashboard. */
  lemma VolunteerSeesDashboardOnly()
    ensures FilteredNavigation(Some(Volunteer)) == [DashboardEntry]
  {
    FilterTable(Some(Volunteer));
  }

  /** `toggleLanguage`: English switches to Hindi and every other language to English. */
  function ToggleLanguage(language: string): (r: string)
    ensures r == "hi" <==> language == "en"
    ensures r == "en" <==> language != "en"
  {
    if language == "en" then "hi" else "en"
  }

  /** Toggling twice returns to English or Hindi; from either of them, to where it started. */
  lemma ToggleTwice(language: string)
    ensures language == "en" || language == "hi" ==> ToggleLanguage(ToggleLanguage(language)) == language
    ensures language != "en" ==> ToggleLanguage(ToggleLanguage(language)) == "hi"
  {
  }
}
