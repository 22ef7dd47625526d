/**
 The decision logic of the navigation bar: whether the current path lies under
 a route, whether a role-gated menu item is shown, and which items the desktop
 links and the mobile menu contain. The role-dominance check is a parameter
 (`hasRequiredRole`); lemmas whose names end in `UnderRank` instantiate it
 with the assumed rank order of module Security.
 */
module Navbar {
  import opened Types
  import opened Security

  /** `s.startsWith(prefix)`, character by character. */
  function StartsWith(s: string, prefix: string): (r: bool)
    ensures r <==> prefix <= s
  {
    if prefix == [] then true
    else s != [] && s[0] == prefix[0] && StartsWith(s[1..], prefix[1..])
  }

  /** `isActiveRoute(route)`: the current pathname begins with `route`. */
  function IsActiveRoute(pathname: string, route: string): (active: bool)
    ensures active <==> route <= pathname
    ensures active ==> |route| <= |pathname| && pathname[..|route|] == route
  {
    StartsWith(pathname, route)
  }

  const AnalyticsPrefix: string := "/analytics"

  /** The check a role-gated item is shown under, as the code supplies it. */
  type RoleCheck = (Role, Role) -> bool

  /**
   `showMenuItem(requiredRole)`: hidden without a role; always shown to a
   system admin; a technician sees district-engineer items, and only while the
   path is not under `/analytics`; every other role defers to `hasRequiredRole`.
   */
  function ShowMenuItem(user: Option<User>, requiredRole: Role, pathname: string,
                        hasRequiredRole: RoleCheck): (shown: bool)
    ensures shown ==> HasRole(user)
    ensures shown && UserHasRole(user, Technician) ==>
              requiredRole == DistrictEngineer && !(AnalyticsPrefix <= pathname)
    ensures UserHasRole(user, SystemAdmin) ==> shown
  {
    if !HasRole(user) then false
    else if user.value.role.value == SystemAdmin then true
    else if user.value.role.value == Technician then
      requiredRole == DistrictEngineer && !StartsWith(pathname, AnalyticsPrefix)
    else hasRequiredRole(user.value.role.value, requiredRole)
  }

  /** Without a role nothing role-gated is shown. */
  lemma NoRoleSeesNothing(user: Option<User>, requiredRole: Role, pathname: string,
                          hasRequiredRole: RoleCheck)
    requires !HasRole(user)
    ensures !ShowMenuItem(user, requiredRole, pathname, hasRequiredRole)
  {
  }

  /** A system admin sees every item on every path, whatever the dominance check says. */
  lemma AdminSeesEverything(user: Option<User>, requiredRole: Role, pathname: string,
                            hasRequiredRole: RoleCheck)
    requires UserHasRole(user, SystemAdmin)
    ensures ShowMenuItem(user, requiredRole, pathname, hasRequiredRole)
  {
  }

  /**
   The technician carve-out: an item is shown iff it requires a district
   engineer and the path does not begin with `/analytics`; so items for
   regional or global engineers and system admins are never shown, and no
   item is shown on an analytics path.
   */
  lemma TechnicianCarveOut(user: Option<User>, requiredRole: Role, pathname: string,
                           hasRequiredRole: RoleCheck)
    requires UserHasRole(user, Technician)
    ensures ShowMenuItem(user, requiredRole, pathname, hasRequiredRole) <==>
            requiredRole == DistrictEngineer && !(AnalyticsPrefix <= pathname)
    ensures requiredRole in {RegionalEngineer, GlobalEngineer, SystemAdmin} ==>
            !ShowMenuItem(user, requiredRole, pathname, hasRequiredRole)
    ensures AnalyticsPrefix <= pathname ==> !ShowMenuItem(user, requiredRole, pathname, hasRequiredRole)
  {
  }

  /** Every other role gets exactly the dominance check's answer, on any path. */
  lemma OtherRolesDeferToHierarchy(user: Option<User>, requiredRole: Role, pathname: string,
                                   otherPathname: string, hasRequiredRole: RoleCheck)
    requires HasRole(user)
    requires !UserHasRole(user, SystemAdmin) && !UserHasRole(user, Technician)
    ensures ShowMenuItem(user, requiredRole, pathname, hasRequiredRole) ==
            hasRequiredRole(user.value.role.value, requiredRole)
    ensures ShowMenuItem(user, requiredRole, pathname, hasRequiredRole) ==
            ShowMenuItem(user, requiredRole, otherPathname, hasRequiredRole)
  {
  }

  /**
   Under the rank order the carve-out is not dominance: a technician does not
   dominate a district engineer, yet sees district-engineer items away from
   the analytics pages.
   */
  lemma TechnicianCarveOutExceedsRankUnderRank(user: Option<User>, pathname: string)
    requires UserHasRole(user, Technician) && !(AnalyticsPrefix <= pathname)
    ensures ShowMenuItem(user, DistrictEngineer, pathname, RankDominates)
    ensures !RankDominates(Technician, DistrictEngineer)
  {
  }

  /** Under the rank order, items requiring a system admin are shown to system admins only. */
  lemma AdminItemsOnlyForAdminsUnderRank(user: Option<User>, pathname: string)
    ensures ShowMenuItem(user, SystemAdmin, pathname, RankDominates) <==> UserHasRole(user, SystemAdmin)
  {
  }

  /** The four asset-management pages. */
  datatype AssetPage = LoadMonitoring | SubstationInspection | VitInspection | OverheadLineInspection

  /** Where a page sits in the menus' four-item lists. */
  function PagePosition(page: AssetPage): (position: nat)
    ensures position < 4
  {
    match page
    case LoadMonitoring => 0
    case SubstationInspection => 1
    case VitInspection => 2
    case OverheadLineInspection => 3
  }

  /** The pages of the desktop Asset Management dropdown, in the order it lists them. */
  function DropdownPages(): (pages: seq<AssetPage>)
    ensures forall page :: PagePosition(page) < |pages| && pages[PagePosition(page)] == page
    ensures forall i, j :: 0 <= i < j < |pages| ==> pages[i] != pages[j]
  {
    [LoadMonitoring, SubstationInspection, VitInspection, OverheadLineInspection]
  }

  const AssetManagementRoute: string := "/asset-management"

  function AssetRoute(page: AssetPage): string
  {
    match page
    case LoadMonitoring => "/asset-management/load-monitoring"
    case SubstationInspection => "/asset-management/inspection-management"
    case VitInspection => "/asset-management/vit-inspection"
    case OverheadLineInspection => "/asset-management/overhead-line"
  }

  /** The dropdown trigger is highlighted on every asset page, since each page's route extends `/asset-management`. */
  lemma AssetPagesHighlightTheMenu(page: AssetPage)
    ensures IsActiveRoute(AssetRoute(page), AssetManagementRoute)
  {
    var r := AssetRoute(page);
    assert r[..|AssetManagementRoute|] == AssetManagementRoute;
  }

  /** The items of the navigation menus. */
  datatype NavItem =
    | Home
    | Dashboard
    | ReportFault
    | Analytics
    | AssetManagementMenu
    | DistrictPopulation
    | UserManagement
    | PermissionManagement
    | AssetLink(page: AssetPage)

  /**
   `NavLinks`, the links shared by the desktop bar and the mobile sheet, in
   order: Home always; for a signed-in user Dashboard and Report Fault, then
   Analytics and the Asset Management dropdown under the district-engineer
   check, District Population under the global-engineer check, and User and
   Permission Management under the system-admin check.
   */
  function NavLinks(isAuthenticated: bool, user: Option<User>, pathname: string,
                    hasRequiredRole: RoleCheck): (items: seq<NavItem>)
    ensures |items| >= 1 && items[0] == Home
    ensures !isAuthenticated ==> items == [Home]
    ensures forall i :: 0 <= i < |items| ==> !items[i].AssetLink?
    ensures forall i, j :: 0 <= i < j < |items| ==> items[i] != items[j]
  {
    [Home] +
    if !isAuthenticated then []
    else
      [Dashboard, ReportFault]
      + (if ShowMenuItem(user, DistrictEngineer, pathname, hasRequiredRole) then [Analytics] else [])
      + (if ShowMenuItem(user, DistrictEngineer, pathname, hasRequiredRole) then [AssetManagementMenu] else [])
      + (if ShowMenuItem(user, GlobalEngineer, pathname, hasRequiredRole) then [DistrictPopulation] else [])
      + (if ShowMenuItem(user, SystemAdmin, pathname, hasRequiredRole)
         then [UserManagement, PermissionManagement] else [])
  }

  /**
   The asset-management links of the mobile sheet: a link to every page, none
   twice, and the same pages in the same order as the desktop dropdown.
   */
  function MobileAssetLinks(): (links: seq<NavItem>)
    ensures forall page :: AssetLink(page) in links
    ensures forall i, j :: 0 <= i < j < |links| ==> links[i] != links[j]
    ensures |links| == |DropdownPages()|
    ensures forall i :: 0 <= i < |links| ==> links[i] == AssetLink(DropdownPages()[i])
  {
    var links := [AssetLink(LoadMonitoring), AssetLink(SubstationInspection),
                  AssetLink(VitInspection), AssetLink(OverheadLineInspection)];
    assert forall page: AssetPage :: links[PagePosition(page)] == AssetLink(page);
    links
  }

  /** The mobile sheet: the shared links, then the asset-management links for any signed-in user. */
  function MobileMenu(isAuthenticated: bool, user: Option<User>, pathname: string,
                      hasRequiredRole: RoleCheck): (items: seq<NavItem>)
    ensures NavLinks(isAuthenticated, user, pathname, hasRequiredRole) <= items
    ensures isAuthenticated ==> forall page :: AssetLink(page) in items
    ensures !isAuthenticated ==> items == [Home]
  {
    NavLinks(isAuthenticated, user, pathname, hasRequiredRole)
    + (if isAuthenticated then MobileAssetLinks() else [])
  }

  /** What an item of the shared links requires. */
  datatype Gate = Public | SignedIn | SignedInWithRole(required: Role) | NotShared

  /** The wiring of each menu item to what it requires. */
  function GateOf(item: NavItem): Gate
  {
    match item
    case Home => Public
    case Dashboard => SignedIn
    case ReportFault => SignedIn
    case Analytics => SignedInWithRole(DistrictEngineer)
    case AssetManagementMenu => SignedInWithRole(DistrictEngineer)
    case DistrictPopulation => SignedInWithRole(GlobalEngineer)
    case UserManagement => SignedInWithRole(SystemAdmin)
    case PermissionManagement => SignedInWithRole(SystemAdmin)
    case AssetLink(_) => NotShared
  }

  predicate GateAdmits(gate: Gate, isAuthenticated: bool, user: Option<User>, pathname: string,
                       hasRequiredRole: RoleCheck)
  {
    match gate
    case Public => true
    case SignedIn => isAuthenticated
    case SignedInWithRole(r) => isAuthenticated && ShowMenuItem(user, r, pathname, hasRequiredRole)
    case NotShared => false
  }

  /** An item is among the shared links exactly when its gate admits the viewer. */
  lemma NavLinksFollowGates(item: NavItem, isAuthenticated: bool, user: Option<User>,
                            pathname: string, hasRequiredRole: RoleCheck)
    ensures item in NavLinks(isAuthenticated, user, pathname, hasRequiredRole) <==>
            GateAdmits(GateOf(item), isAuthenticated, user, pathname, hasRequiredRole)
  {
  }

  /** Analytics and the Asset Management dropdown are shown under the same condition. */
  lemma AnalyticsAndAssetMenuTogether(isAuthenticated: bool, user: Option<User>, pathname: string,
                                      hasRequiredRole: RoleCheck)
    ensures Analytics in NavLinks(isAuthenticated, user, pathname, hasRequiredRole) <==>
            AssetManagementMenu in NavLinks(isAuthenticated, user, pathname, hasRequiredRole)
  {
  }

  /** The mobile asset-management links appear for every signed-in user and no one else, whatever the role or path. */
  lemma MobileAssetLinksNeedOnlySignIn(page: AssetPage, isAuthenticated: bool, user: Option<User>,
                                       pathname: string, hasRequiredRole: RoleCheck)
    ensures AssetLink(page) in MobileMenu(isAuthenticated, user, pathname, hasRequiredRole) <==> isAuthenticated
  {
  }

  /**
   Because the technician carve-out tests the current path rather than the
   item, a signed-in technician sees the Analytics link on every page outside
   `/analytics`, and loses the Asset Management dropdown while on one.
   */
  lemma TechnicianMenusDependOnCurrentPath(user: Option<User>, pathname: string,
                                           hasRequiredRole: RoleCheck)
    requires UserHasRole(user, Technician)
    ensures Analytics in NavLinks(true, user, pathname, hasRequiredRole) <==> !(AnalyticsPrefix <= pathname)
    ensures AssetManagementMenu in NavLinks(true, user, pathname, hasRequiredRole) <==>
            !(AnalyticsPrefix <= pathname)
    ensures DistrictPopulation !in NavLinks(true, user, pathname, hasRequiredRole)
    ensures UserManagement !in NavLinks(true, user, pathname, hasRequiredRole)
  {
  }
}
