/**
 An assumed stand-in for the role-dominance check `hasRequiredRole`, whose
 implementation is not part of this model. The navigation bar takes the check
 as a parameter; this module supplies the rank comparison over
 technician < district engineer < regional engineer < global engineer <
 system admin, with unrecognised roles below every known one, so that
 lemmas can say what the menus show under that assumption.
 */
module Security {
  import opened Types

  function Rank(role: Role): int
  {
    match role
    case Technician => 0
    case DistrictEngineer => 1
    case RegionalEngineer => 2
    case GlobalEngineer => 3
    case SystemAdmin => 4
    case Unrecognized(_) => -1
  }

  /** `role` is at least as senior as `required`. */
  function RankDominates(role: Role, required: Role): bool
  {
    Rank(role) >= Rank(required)
  }

  /** Dominance is a total preorder with the system admin on top. */
  lemma RankDominatesIsTotalPreorder(a: Role, b: Role, c: Role)
    ensures RankDominates(a, a)
    ensures RankDominates(a, b) && RankDominates(b, c) ==> RankDominates(a, c)
    ensures RankDominates(a, b) || RankDominates(b, a)
    ensures RankDominates(SystemAdmin, a)
  {
  }

  /** Among the five named roles dominance is antisymmetric: two roles that dominate each other are the same. */
  lemma KnownRanksAreDistinct(a: Role, b: Role)
    requires !a.Unrecognized? && !b.Unrecognized?
    ensures RankDominates(a, b) && RankDominates(b, a) ==> a == b
  {
  }
}
