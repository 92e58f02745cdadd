/** The seven phases of a session and the forward steps between them. */
module Phases {
  datatype SessionPhase =
    | ProblemIntake
    | StakeholderDiscovery
    | RequirementElicitation
    | ConstraintCapture
    | ArchitectureAlignment
    | ReviewAndSignOff
    | SignedOff

  function Index(p: SessionPhase): nat
  {
    match p
    case ProblemIntake => 0
    case StakeholderDiscovery => 1
    case RequirementElicitation => 2
    case ConstraintCapture => 3
    case ArchitectureAlignment => 4
    case ReviewAndSignOff => 5
    case SignedOff => 6
  }

  const ORDER := [ProblemIntake, StakeholderDiscovery, RequirementElicitation, ConstraintCapture,
                  ArchitectureAlignment, ReviewAndSignOff, SignedOff]

  /** The index is the phase's place in the order of the interview. */
  lemma IndexIsPlace(p: SessionPhase)
    ensures Index(p) < |ORDER| == 7 && ORDER[Index(p)] == p
  {
  }

  function ValidTransitions(p: SessionPhase): (r: seq<SessionPhase>)
    ensures forall t :: t in r <==> Index(t) == Index(p) + 1
  {
    match p
    case ProblemIntake => [StakeholderDiscovery]
    case StakeholderDiscovery => [RequirementElicitation]
    case RequirementElicitation => [ConstraintCapture]
    case ConstraintCapture => [ArchitectureAlignment]
    case ArchitectureAlignment => [ReviewAndSignOff]
    case ReviewAndSignOff => [SignedOff]
    case SignedOff => []
  }

  predicate IsTerminal(p: SessionPhase)
  {
    p == SignedOff
  }
}
