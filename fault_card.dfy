/**
 The decision logic of the fault card: finding the record's region and
 district, viewing the record as an OP5 fault or a control-system outage,
 totalling the affected customers, choosing between an elapsed duration and
 "Ongoing", deciding who may resolve the record, and which action buttons the
 card offers.
 */
module FaultCard {
  import opened Types
  import opened Security

  /** The card's `type` prop, which says how the record is to be read. */
  datatype CardType = Op5 | Control

  /** `items.find(p)`: the first element satisfying `p`, if any. */
  function Find<T>(items: seq<T>, p: T -> bool): (r: Option<T>)
    ensures r.Some? ==> r.value in items && p(r.value)
    ensures r.None? <==> forall i :: 0 <= i < |items| ==> !p(items[i])
  {
    if items == [] then None
    else if p(items[0]) then Some(items[0])
    else Find(items[1..], p)
  }

  /** What `Find` returns is the element at the first index that satisfies `p`. */
  lemma {:induction false} FindReturnsFirstMatch<T>(items: seq<T>, p: T -> bool)
    requires Find(items, p).Some?
    ensures exists i :: 0 <= i < |items| && items[i] == Find(items, p).value
                        && forall j :: 0 <= j < i ==> !p(items[j])
  {
    if !p(items[0]) {
      var rest := items[1..];
      FindReturnsFirstMatch(rest, p);
      var i :| 0 <= i < |rest| && rest[i] == Find(rest, p).value
               && forall j :: 0 <= j < i ==> !p(rest[j]);
      assert items[i + 1] == Find(items, p).value;
      forall j | 0 <= j < i + 1
        ensures !p(items[j])
      {
        if j > 0 { assert items[j] == rest[j - 1]; }
      }
    }
  }

  /** `regions.find(r => r.id === fault.regionId)`. */
  function RegionOf(regions: seq<Region>, fault: FaultRecord): (r: Option<Region>)
    ensures r.Some? ==> r.value in regions && r.value.id == fault.regionId
    ensures r.None? <==> forall g :: g in regions ==> g.id != fault.regionId
  {
    Find(regions, (g: Region) => g.id == fault.regionId)
  }

  /** `districts.find(d => d.id === fault.districtId)`. */
  function DistrictOf(districts: seq<District>, fault: FaultRecord): (r: Option<District>)
    ensures r.Some? ==> r.value in districts && r.value.id == fault.districtId
    ensures r.None? <==> forall d :: d in districts ==> d.id != fault.districtId
  {
    Find(districts, (d: District) => d.id == fault.districtId)
  }

  /** `region?.name`: absent when no region has the record's id. */
  function RegionName(regions: seq<Region>, fault: FaultRecord): (name: Option<string>)
    ensures name.None? <==> forall g :: g in regions ==> g.id != fault.regionId
    ensures name.Some? ==> exists g :: g in regions && g.id == fault.regionId && g.name == name.value
  {
    match RegionOf(regions, fault)
    case None => None
    case Some(g) => Some(g.name)
  }

  /** `district?.name`: absent when no district has the record's id. */
  function DistrictName(districts: seq<District>, fault: FaultRecord): (name: Option<string>)
    ensures name.None? <==> forall d :: d in districts ==> d.id != fault.districtId
    ensures name.Some? ==> exists d :: d in districts && d.id == fault.districtId && d.name == name.value
  {
    match DistrictOf(districts, fault)
    case None => None
    case Some(d) => Some(d.name)
  }

  /** A reported region name is that of the first listed region carrying the record's id. */
  lemma RegionNameIsFirstMatch(regions: seq<Region>, fault: FaultRecord)
    ensures var name := RegionName(regions, fault);
            name.Some? ==> exists i :: 0 <= i < |regions| && regions[i].id == fault.regionId
                                       && regions[i].name == name.value
                                       && forall j :: 0 <= j < i ==> regions[j].id != fault.regionId
  {
    var p := (g: Region) => g.id == fault.regionId;
    assert RegionOf(regions, fault) == Find(regions, p);
    if Find(regions, p).Some? {
      FindReturnsFirstMatch(regions, p);
    }
  }

  /** A reported district name is that of the first listed district carrying the record's id. */
  lemma DistrictNameIsFirstMatch(districts: seq<District>, fault: FaultRecord)
    ensures var name := DistrictName(districts, fault);
            name.Some? ==> exists i :: 0 <= i < |districts| && districts[i].id == fault.districtId
                                       && districts[i].name == name.value
                                       && forall j :: 0 <= j < i ==> districts[j].id != fault.districtId
  {
    var p := (d: District) => d.id == fault.districtId;
    assert DistrictOf(districts, fault) == Find(districts, p);
    if Find(districts, p).Some? {
      FindReturnsFirstMatch(districts, p);
    }
  }

  /** `isOP5 ? fault as OP5Fault : null`: the record viewed as an OP5 fault. */
  function AsOP5(kind: CardType, fault: FaultRecord): (view: Option<FaultRecord>)
    ensures view.Some? <==> kind == Op5
    ensures view.Some? ==> view.value == fault
  {
    if kind == Op5 then Some(fault) else None
  }

  /** `!isOP5 ? fault as ControlSystemOutage : null`: the record viewed as an outage. */
  function AsControlOutage(kind: CardType, fault: FaultRecord): (view: Option<FaultRecord>)
    ensures view.Some? <==> AsOP5(kind, fault).None?
    ensures view.Some? ==> view.value == fault
  {
    if kind != Op5 then Some(fault) else None
  }

  /** Exactly one of the two views is present. */
  lemma ExactlyOneView(kind: CardType, fault: FaultRecord)
    ensures AsOP5(kind, fault).Some? != AsControlOutage(kind, fault).Some?
  {
  }

  /**
   The population counts the record carries for its tag: an OP5 fault read as
   OP5 carries `affectedPopulation`, an outage read as an outage carries
   `customersAffected`; a record read under the other tag carries none.
   */
  function CarriedPopulation(kind: CardType, fault: FaultRecord): Option<Population>
  {
    match fault
    case OP5Fault(_, _, _, _, _, _, _, p) => if kind == Op5 then p else None
    case ControlSystemOutage(_, _, _, _, _, _, _, p) => if kind == Control then p else None
  }

  /**
   `getTotalAffectedCustomers`: rural + urban + metro of the population the
   record carries for its tag, and 0 when it carries none.
   */
  function TotalAffectedCustomers(kind: CardType, fault: FaultRecord): (total: int)
    ensures match CarriedPopulation(kind, fault)
            case None => total == 0
            case Some(p) => total == p.rural + p.urban + p.metro
    ensures (CarriedPopulation(kind, fault).Some? ==>
               CountsNonNegative(CarriedPopulation(kind, fault).value)) ==> total >= 0
  {
    var op5 := AsOP5(kind, fault);
    var control := AsControlOutage(kind, fault);
    if kind == Op5 && op5.Some? && op5.value.OP5Fault? && op5.value.affectedPopulation.Some? then
      var p := op5.value.affectedPopulation.value;
      p.rural + p.urban + p.metro
    else if kind != Op5 && control.Some? && control.value.ControlSystemOutage?
            && control.value.customersAffected.Some? then
      var p := control.value.customersAffected.value;
      p.rural + p.urban + p.metro
    else
      0
  }

  /** The duration line: the sentinel "Ongoing" or an elapsed time in milliseconds. */
  datatype DurationText = Ongoing | Elapsed(millis: int)

  /**
   `durationText`: "Ongoing" unless both dates are present; otherwise the
   time from occurrence to restoration.
   */
  function Duration(fault: FaultRecord): (d: DurationText)
    ensures d == Ongoing <==> fault.occurrenceDate.None? || fault.restorationDate.None?
    ensures d.Elapsed? ==> fault.occurrenceDate.value + d.millis == fault.restorationDate.value
    ensures d.Elapsed? && fault.occurrenceDate.value <= fault.restorationDate.value ==> d.millis >= 0
  {
    if fault.occurrenceDate.Some? && fault.restorationDate.Some? then
      Elapsed(fault.restorationDate.value - fault.occurrenceDate.value)
    else
      Ongoing
  }

  /** A record restored three hours after it occurred shows an elapsed time of three hours. */
  lemma ThreeHourOutage(fault: FaultRecord, t0: int)
    requires fault.occurrenceDate == Some(t0) && fault.restorationDate == Some(t0 + 3 * 3600000)
    ensures Duration(fault) == Elapsed(3 * 3600000)
  {
  }

  /**
   `canResolve`: never on a resolved record; a district engineer needs the
   record's district name, a regional engineer the record's region name, a
   global engineer or system admin nothing; everyone else is refused.
   */
  function CanResolve(user: Option<User>, fault: FaultRecord, regions: seq<Region>,
                      districts: seq<District>): (can: bool)
    ensures fault.status == Resolved ==> !can
    ensures can ==> HasRole(user)
    ensures can ==> user.value.role.value in {DistrictEngineer, RegionalEngineer, GlobalEngineer, SystemAdmin}
  {
    if fault.status == Resolved then false
    else if UserHasRole(user, DistrictEngineer) then
      user.value.district == DistrictName(districts, fault)
    else if UserHasRole(user, RegionalEngineer) then
      user.value.region == RegionName(regions, fault)
    else
      UserHasRole(user, GlobalEngineer) || UserHasRole(user, SystemAdmin)
  }

  /** A district engineer may resolve an active record iff its district name equals theirs; regions play no part. */
  lemma DistrictEngineerNeedsDistrictMatch(user: Option<User>, fault: FaultRecord,
                                           regions: seq<Region>, otherRegions: seq<Region>,
                                           districts: seq<District>)
    requires UserHasRole(user, DistrictEngineer) && fault.status == Active
    ensures CanResolve(user, fault, regions, districts) <==>
            user.value.district == DistrictName(districts, fault)
    ensures CanResolve(user, fault, regions, districts) ==
            CanResolve(user, fault, otherRegions, districts)
  {
  }

  /**
   Both sides of the district comparison are optional: a district engineer
   with no district may resolve an active record whose district is not found.
   */
  lemma DistrictEngineerAbsentMatchesAbsent(user: Option<User>, fault: FaultRecord,
                                            regions: seq<Region>, districts: seq<District>)
    requires UserHasRole(user, DistrictEngineer) && user.value.district.None?
    requires fault.status == Active
    requires forall d :: d in districts ==> d.id != fault.districtId
    ensures CanResolve(user, fault, regions, districts)
  {
  }

  /** A regional engineer may resolve an active record iff its region name equals theirs; districts play no part. */
  lemma RegionalEngineerNeedsRegionMatch(user: Option<User>, fault: FaultRecord,
                                         regions: seq<Region>, districts: seq<District>,
                                         otherDistricts: seq<District>)
    requires UserHasRole(user, RegionalEngineer) && fault.status == Active
    ensures CanResolve(user, fault, regions, districts) <==>
            user.value.region == RegionName(regions, fault)
    ensures CanResolve(user, fault, regions, districts) ==
            CanResolve(user, fault, regions, otherDistricts)
  {
  }

  /** Global engineers and system admins may resolve every active record, wherever it is. */
  lemma UnboundedRolesResolveAnywhere(user: Option<User>, fault: FaultRecord,
                                      regions: seq<Region>, districts: seq<District>)
    requires UserHasRole(user, GlobalEngineer) || UserHasRole(user, SystemAdmin)
    ensures CanResolve(user, fault, regions, districts) <==> fault.status == Active
  {
  }

  /** No user, a technician, or any role outside the four engineer and admin roles can never resolve. */
  lemma OtherUsersCannotResolve(user: Option<User>, fault: FaultRecord,
                                regions: seq<Region>, districts: seq<District>)
    requires !UserHasRole(user, DistrictEngineer) && !UserHasRole(user, RegionalEngineer)
    requires !UserHasRole(user, GlobalEngineer) && !UserHasRole(user, SystemAdmin)
    ensures !CanResolve(user, fault, regions, districts)
  {
  }

  /**
   The geographic part of the resolve rule: a district engineer's district
   name or a regional engineer's region name must equal the record's, global
   engineers and system admins are unbounded, and no other role has a scope.
   */
  predicate ScopeCovers(user: User, regionName: Option<string>, districtName: Option<string>)
  {
    match user.role
    case Some(DistrictEngineer) => user.district == districtName
    case Some(RegionalEngineer) => user.region == regionName
    case Some(GlobalEngineer) => true
    case Some(SystemAdmin) => true
    case _ => false
  }

  /**
   Under the rank order every user who may resolve ranks at least a district
   engineer, and on an active record `canResolve` is exactly that rank test
   together with the per-role scope rule `ScopeCovers`.
   */
  lemma CanResolveIsDominanceAndScope(user: User, fault: FaultRecord,
                                      regions: seq<Region>, districts: seq<District>)
    ensures CanResolve(Some(user), fault, regions, districts) ==>
            user.role.Some? && RankDominates(user.role.value, DistrictEngineer)
    ensures fault.status == Active ==>
              (CanResolve(Some(user), fault, regions, districts) <==>
               && user.role.Some?
               && RankDominates(user.role.value, DistrictEngineer)
               && ScopeCovers(user, RegionName(regions, fault), DistrictName(districts, fault)))
  {
  }

  /** Which of the card's action buttons are shown. */
  datatype CardActions = CardActions(resolve: bool, edit: bool, delete: bool)

  /**
   The card footer: Resolve under `canResolve()`, Edit and Delete both under
   the `canEdit` flag supplied by the data context.
   */
  function OfferedActions(user: Option<User>, fault: FaultRecord, regions: seq<Region>,
                          districts: seq<District>, canEdit: bool): (a: CardActions)
    ensures a.resolve <==> CanResolve(user, fault, regions, districts)
    ensures a.edit == a.delete == canEdit
    ensures fault.status == Resolved ==> !a.resolve
  {
    CardActions(CanResolve(user, fault, regions, districts), canEdit, canEdit)
  }
}
