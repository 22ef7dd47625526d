/**
 The records the fault card and the navigation bar read: users with a role and
 a geographic scope, the region and district reference lists, and the two kinds
 of fault record (OP5 faults and control-system outages).
 */
module Types {

  /** An optional value; `None` stands for JavaScript's `undefined`. */
  datatype Option<+T> = None | Some(value: T)

  /** The role texts the code compares against. */
  const KnownRoleTexts: set<string> :=
    {"technician", "district_engineer", "regional_engineer", "global_engineer", "system_admin"}

  /** Role text other than the five known ones. */
  type UnknownRoleText = s: string | s !in KnownRoleTexts witness ""

  /**
   The roles of the system. Any other role text a user record may carry is
   kept as `Unrecognized`; a known text always becomes its own role.
   */
  datatype Role =
    | Technician
    | DistrictEngineer
    | RegionalEngineer
    | GlobalEngineer
    | SystemAdmin
    | Unrecognized(text: UnknownRoleText)

  /** The signed-in user: a role and an optional region and district name. */
  datatype User = User(role: Option<Role>, region: Option<string>, district: Option<string>)

  /**
   `user?.role` is truthy: there is a user, it has a role, and the role text is
   not the empty string (which JavaScript treats as false).
   */
  predicate HasRole(user: Option<User>)
  {
    user.Some? && user.value.role.Some? && user.value.role.value != Unrecognized("")
  }

  /** `user?.role === role` for one of the roles the code names. */
  predicate UserHasRole(user: Option<User>, role: Role)
  {
    user.Some? && user.value.role == Some(role)
  }

  /** Reference entities, found by id. */
  datatype Region = Region(id: string, name: string)
  datatype District = District(id: string, regionId: string, name: string)

  datatype Status = Active | Resolved

  datatype FaultType = Planned | Unplanned | Emergency | LoadShedding

  /** Customer counts per population segment. */
  datatype Population = Population(rural: int, urban: int, metro: int)

  predicate CountsNonNegative(p: Population)
  {
    p.rural >= 0 && p.urban >= 0 && p.metro >= 0
  }

  /**
   A fault record of either kind. Dates are instants in milliseconds; `None`
   is a date that is absent or empty. Only the fields the fault card's logic
   reads are kept beyond the shared ones.
   */
  datatype FaultRecord =
    | OP5Fault(id: string, regionId: string, districtId: string, faultType: FaultType,
               status: Status, occurrenceDate: Option<int>, restorationDate: Option<int>,
               affectedPopulation: Option<Population>)
    | ControlSystemOutage(id: string, regionId: string, districtId: string, faultType: FaultType,
                          status: Status, occurrenceDate: Option<int>, restorationDate: Option<int>,
                          customersAffected: Option<Population>)
}
