# ECG Outage Management System: fault-card and navigation-bar decisions

This project models the decision logic inside two React components of the ECG
Outage Management System and proves properties of it in Dafny.

- **Fault card** (`src/components/dashboard/FaultCard.tsx`). It covers finding
  a fault record's region and district by id, reading the record as an OP5
  fault or a control-system outage according to the card's `type` tag, and
  totalling the affected customers. It also covers the choice between a
  computed duration and "Ongoing", the `canResolve` permission, and which
  action buttons the card offers.
- **Navigation bar** (`src/components/layout/Navbar.tsx`). It covers the
  route-prefix test `isActiveRoute`, the menu-visibility rule `showMenuItem`
  with its technician carve-out, and the wiring of each menu item to the
  role it requires. It also covers the mobile asset-management links, which
  need only sign-in.

Both files are pure decision logic, so the model is made of datatypes,
functions and lemmas.

- `types.dfy` (module `Types`): users, roles, regions, districts, and the
  two fault variants.
- `fault_card.dfy` (module `FaultCard`).
- `navbar.dfy` (module `Navbar`).
- `security.dfy` (module `Security`): an assumed rank order standing in for
  `hasRequiredRole`, used only by the lemmas whose names end in `UnderRank`
  and by `FaultCard.CanResolveIsDominanceAndScope`.

Modelling choices:

- A role text outside the five known ones is `Unrecognized`. The type of
  its text excludes the known texts, so each known text is always its own role.
- `undefined` is `None`. The test `!user?.role` is `Types.HasRole`: no user,
  no role, or the empty role text all count as "no role".
- Dates are instants in milliseconds. A date that is absent or empty is `None`.
- `Array.prototype.find` is `FaultCard.Find`. `String.prototype.startsWith` is
  `Navbar.StartsWith`, proved equal to Dafny's sequence-prefix relation.
- `canEditFault(fault)` is a boolean input to `FaultCard.OfferedActions`.
- `hasRequiredRole` is a function parameter of `Navbar.ShowMenuItem`.

Behaviours of the code that its own comments do not suggest:

- **Absent names match.** `canResolve` compares optional names with `===`
  (`FaultCard.tsx:95` and `:100`). A district engineer with no district may
  therefore resolve an active record whose district id matches no district,
  because absent equals absent (`FaultCard.DistrictEngineerAbsentMatchesAbsent`).
  The comment at `FaultCard.tsx:93` speaks of "their district".
- **No region check for district engineers.** Line 95 compares the district
  name only. A district engineer's region plays no part
  (`FaultCard.DistrictEngineerNeedsDistrictMatch`).
- **Path-based carve-out.** The comment at `Navbar.tsx:40` says technicians
  may use asset management but not analytics. The test at line 42 looks at
  the current path, not the item. A signed-in technician therefore sees the
  Analytics link on every page outside `/analytics`, and loses the Asset
  Management dropdown while on an `/analytics` page
  (`Navbar.TechnicianMenusDependOnCurrentPath`).
- **Stale comment.** The comment at `Navbar.tsx:176` names global and
  regional engineers for User Management. The code gates the item on the
  system-admin check, and under the rank order only system admins pass it
  (`Navbar.AdminItemsOnlyForAdminsUnderRank`).

The two `Security` rows and the lemmas ending in `UnderRank` check the assumed
rank order, not code of the program.

## Model

| member | source | states |
|---|---|---|
| FaultCard.Find | src/components/dashboard/FaultCard.tsx:27-28 | `find` returns an element of the list that satisfies the predicate, and returns nothing exactly when no element satisfies it |
| FaultCard.FindReturnsFirstMatch | src/components/dashboard/FaultCard.tsx:27-28 | the element `find` returns sits at an index before which no element satisfies the predicate (the first match) |
| FaultCard.RegionOf | src/components/dashboard/FaultCard.tsx:27 | the region found carries the record's `regionId` and is in the list; none is found iff no region has that id |
| FaultCard.DistrictOf | src/components/dashboard/FaultCard.tsx:28 | the district found carries the record's `districtId` and is in the list; none is found iff no district has that id |
| FaultCard.RegionNameIsFirstMatch | src/components/dashboard/FaultCard.tsx:27 | a reported `region?.name` is the name of the first listed region carrying the record's id; no earlier region carries it |
| FaultCard.DistrictNameIsFirstMatch | src/components/dashboard/FaultCard.tsx:28 | a reported `district?.name` is the name of the first listed district carrying the record's id; no earlier district carries it |
| FaultCard.RegionName | src/components/dashboard/FaultCard.tsx:100 | `region?.name` is absent iff no region carries the record's id, and otherwise is the name of a listed region with that id |
| FaultCard.DistrictName | src/components/dashboard/FaultCard.tsx:95 | `district?.name` is absent iff no district carries the record's id, and otherwise is the name of a listed district with that id |
| FaultCard.ExactlyOneView | src/components/dashboard/FaultCard.tsx:30-32 | the OP5 and outage views are mutually exclusive and one of them is always present |
| FaultCard.AsOP5 | src/components/dashboard/FaultCard.tsx:30-31 | the OP5 view is present iff the tag is `op5`, and is then the record itself |
| FaultCard.AsControlOutage | src/components/dashboard/FaultCard.tsx:30-32 | the outage view is present iff the OP5 view is absent, and is then the record itself |
| FaultCard.TotalAffectedCustomers | src/components/dashboard/FaultCard.tsx:34-45 | the total is rural + urban + metro of the population the record carries for its tag, 0 when it carries none (including a record read under the other tag), and non-negative when the counts are |
| FaultCard.Duration | src/components/dashboard/FaultCard.tsx:66-68 | the sentinel "Ongoing" appears iff either date is missing; otherwise occurrence + elapsed = restoration, and elapsed is non-negative when restoration is not before occurrence |
| FaultCard.ThreeHourOutage | src/components/dashboard/FaultCard.tsx:66-68 | a record restored three hours after it occurred shows an elapsed time of three hours |
| FaultCard.CanResolve | src/components/dashboard/FaultCard.tsx:90-105 | no user can resolve a resolved record; only a user whose role is district engineer, regional engineer, global engineer or system admin can resolve at all |
| FaultCard.DistrictEngineerNeedsDistrictMatch | src/components/dashboard/FaultCard.tsx:94-96 | a district engineer may resolve an active record iff their district equals the looked-up district's name; the region list does not matter |
| FaultCard.DistrictEngineerAbsentMatchesAbsent | src/components/dashboard/FaultCard.tsx:94-96 | a district engineer without a district may resolve an active record whose district is not found (absent equals absent) |
| FaultCard.RegionalEngineerNeedsRegionMatch | src/components/dashboard/FaultCard.tsx:99-101 | a regional engineer may resolve an active record iff their region equals the looked-up region's name; the district list does not matter |
| FaultCard.UnboundedRolesResolveAnywhere | src/components/dashboard/FaultCard.tsx:103-104 | a global engineer or system admin may resolve a record iff it is active, whatever its region or district |
| FaultCard.OtherUsersCannotResolve | src/components/dashboard/FaultCard.tsx:90-104 | with no user, a technician or any other role, resolution is refused |
| FaultCard.CanResolveIsDominanceAndScope | src/components/dashboard/FaultCard.tsx:90-105 | under the rank order, every user who may resolve ranks at least district engineer; on an active record `canResolve` equals that rank test together with `ScopeCovers`, which is the code's per-role scope rule of lines 94-104 |
| FaultCard.OfferedActions | src/components/dashboard/FaultCard.tsx:222-261 | Resolve is offered iff `canResolve` holds, so never on a resolved record; Edit and Delete are offered under the same `canEdit` flag |
| Navbar.StartsWith | src/components/layout/Navbar.tsx:33-35 | `startsWith` holds iff the prefix is a prefix of the string |
| Navbar.IsActiveRoute | src/components/layout/Navbar.tsx:33-35 | a route is active iff it is a prefix of the current pathname |
| Navbar.ShowMenuItem | src/components/layout/Navbar.tsx:37-45 | an item is shown only to a user with a role; what a technician is shown requires a district engineer and a path outside `/analytics`; a system admin is shown every item |
| Navbar.NoRoleSeesNothing | src/components/layout/Navbar.tsx:38 | without a role no role-gated item is shown |
| Navbar.AdminSeesEverything | src/components/layout/Navbar.tsx:39 | a system admin sees every item on every path, whatever the dominance check says |
| Navbar.TechnicianCarveOut | src/components/layout/Navbar.tsx:40-43 | a technician sees an item iff it requires a district engineer and the path does not begin with `/analytics`; never items for higher roles, and nothing on an analytics path |
| Navbar.OtherRolesDeferToHierarchy | src/components/layout/Navbar.tsx:44 | for every other role the answer is `hasRequiredRole(role, requiredRole)` and does not depend on the path |
| Navbar.TechnicianCarveOutExceedsRankUnderRank | src/components/layout/Navbar.tsx:40-44 | under the rank order a technician does not dominate a district engineer yet sees district-engineer items away from `/analytics` |
| Navbar.AdminItemsOnlyForAdminsUnderRank | src/components/layout/Navbar.tsx:176-186 | under the rank order, items requiring a system admin are shown to system admins only |
| Navbar.DropdownPages | src/components/layout/Navbar.tsx:91-154 | the desktop dropdown lists each of the four asset pages, none twice |
| Navbar.AssetPagesHighlightTheMenu | src/components/layout/Navbar.tsx:83-97 | the Asset Management trigger is active on every asset page, since each page's route extends `/asset-management` (a check of the four route texts) |
| Navbar.NavLinks | src/components/layout/Navbar.tsx:47-190 | the shared links start with Home, are only Home when signed out, hold no mobile asset link, and list no item twice |
| Navbar.NavLinksFollowGates | src/components/layout/Navbar.tsx:47-190 | an item is among the shared links iff its gate admits the viewer: Home always; Dashboard and Report Fault on sign-in; Analytics and Asset Management on sign-in plus the district-engineer check; District Population plus the global-engineer check; User and Permission Management plus the system-admin check |
| Navbar.AnalyticsAndAssetMenuTogether | src/components/layout/Navbar.tsx:66-78 | the Analytics link and the Asset Management dropdown are shown under the same condition |
| Navbar.MobileAssetLinks | src/components/layout/Navbar.tsx:245-275 | the mobile sheet links to every asset page, none twice, and lists the same pages in the same order as the desktop dropdown |
| Navbar.MobileMenu | src/components/layout/Navbar.tsx:240-275 | the mobile sheet begins with the shared links, holds a link to every asset page when signed in, and is only Home when signed out |
| Navbar.MobileAssetLinksNeedOnlySignIn | src/components/layout/Navbar.tsx:245-275 | each mobile asset-management link appears iff the user is signed in, whatever the role or path |
| Navbar.TechnicianMenusDependOnCurrentPath | src/components/layout/Navbar.tsx:40-78 | a signed-in technician sees Analytics and the Asset Management dropdown iff the path is not under `/analytics`, and never District Population or User Management |
| Security.RankDominatesIsTotalPreorder | src/components/layout/Navbar.tsx:44 | checks the assumption, not the program: the assumed dominance check is reflexive, transitive and total, with the system admin above every role |
| Security.KnownRanksAreDistinct | src/components/layout/Navbar.tsx:44 | checks the assumption, not the program: the assumed dominance check is antisymmetric on the five named roles |

## Left out

- Rendering is not modelled: JSX, CSS classes (`getBadgeColor`, `statusClass`), icons, dialogs, accordions and toasts.
- Which breakpoint shows the desktop dropdown or the mobile sheet is CSS and is not modelled. `Navbar.NavLinks` lists what the shared links render.
- UI state and routing effects are not modelled: the dialog flags, the mobile-menu flag, `navigate` (including the edit routes) and `logout`.
- `hasRequiredRole` lives in `src/utils/security`, which is not part of this model. It is a parameter. `Security.RankDominates` is an assumed rank order, used only where a lemma says so.
- `canEditFault`, `resolveFault` and `deleteFault` live in the data context, which is not part of this model. `canEdit` is a boolean input, and the effects of resolving and deleting are not modelled.
- The record lifecycle is not in these files: resolve, edit and delete transitions, their error outcomes, and concurrent updates.
- `formatDate`, `formatDuration` and the division into floating-point hours are not modelled. `FaultCard.Duration` gives the elapsed milliseconds.
- Parsing date strings is not modelled. An unparsable date giving NaN is not modelled either.
- FaultCard.TotalAffectedCustomers: counts are unbounded integers. JavaScript number rounding above 2^53 and a missing count giving NaN are not modelled.
- FaultCard.CanResolve: `null` and `undefined` are both `None`. The code's `===` would tell a `null` user district apart from an absent district; the model does not.
- Display-only fields are not modelled: `faultLocation`, `mttr`, `loadMW`, `reason`, `areaAffected`, `unservedEnergyMWh`, user names, and the shortened record id.
