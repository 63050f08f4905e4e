/** Trust levels of plot members and the capabilities each grants. */
module Members {

  /** A player identity. */
  type Uuid = nat

  /** Ordered trust tiers for non-owner members: Trusted > Helper > Visitor. */
  datatype TrustLevel = Trusted | Helper | Visitor

  /** A member of a plot with the trust level granted and the time it was added. */
  datatype PlotMember = PlotMember(uuid: Uuid, trustLevel: TrustLevel, addedAt: int) {

    /** Build access: every tier except Visitor. */
    predicate CanBuild()
      ensures CanBuild() <==> trustLevel != Visitor
    {
      trustLevel == Trusted || trustLevel == Helper
    }

    /** Container access: only Trusted, so it implies build access. */
    predicate CanUseContainers()
      ensures CanUseContainers() ==> CanBuild()
      ensures CanUseContainers() <==> trustLevel != Visitor && trustLevel != Helper
    {
      trustLevel == Trusted
    }
  }

  /** A Visitor can do neither; a Helper builds but cannot use containers. */
  lemma TierCapabilities(m: PlotMember)
    ensures m.trustLevel == Visitor ==> !m.CanBuild() && !m.CanUseContainers()
    ensures m.trustLevel == Helper ==> m.CanBuild() && !m.CanUseContainers()
    ensures m.trustLevel == Trusted ==> m.CanBuild() && m.CanUseContainers()
  {
  }
}
