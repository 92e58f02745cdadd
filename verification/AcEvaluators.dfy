/** The checks of each phase. */
module AcEvaluators {
  import opened Wrappers
  import opened Sequences
  import opened Text
  import opened Phases
  import opened AcceptanceCriteria
  import opened Sessions

  predicate IsFunctional(r: DraftRequirement)
  {
    r.requirementType.Functional?
  }

  predicate HasNonFunctional(rs: seq<DraftRequirement>)
  {
    exists i :: 0 <= i < |rs| && rs[i].requirementType.NonFunctional?
  }

  /** Every requirement names an actor, and there is one. */
  predicate AllLinked(rs: seq<DraftRequirement>)
  {
    rs != [] && forall i :: 0 <= i < |rs| ==> rs[i].actorId.Some?
  }

  predicate HasDecisionMaker(actors: seq<Actor>)
  {
    exists i :: 0 <= i < |actors| && actors[i].isDecisionMaker
  }

  predicate HasConstraint(cs: seq<DraftConstraint>, t: ConstraintType)
  {
    exists i :: 0 <= i < |cs| && cs[i].constraintType == t
  }

  function ChecksOf(p: SessionPhase, s: SessionState): (r: seq<Check>)
  {
    var inputs, captured := s.inputs, s.captured;
    var hasDocuments := inputs.documentsIndexed != [];
    match p
    case ProblemIntake => [
      Check("AC-S1-01", inputs.problemStatement.Some?),
      Check("AC-S1-02", inputs.businessDomain.Some?),
      Check("AC-S1-03", inputs.primaryGoal.Some?),
      Check("AC-S1-04", inputs.painPoints != []),
      Check("AC-S1-05", inputs.scopeBoundaries != []),
      Check("AC-S1-U1", hasDocuments)]
    case StakeholderDiscovery => [
      Check("AC-S2-01", |captured.actors| >= 2),
      Check("AC-S2-02", HasDecisionMaker(captured.actors)),
      Check("AC-S2-03", inputs.externalSystems != []),
      Check("AC-S2-04", inputs.successDefinition.Some?),
      Check("AC-S2-05", inputs.regulatoryContext.Some?),
      Check("AC-S2-U1", hasDocuments)]
    case RequirementElicitation => [
      Check("AC-S3-01", |Retain(captured.requirements, IsFunctional)| >= 5),
      Check("AC-S3-02", HasNonFunctional(captured.requirements)),
      Check("AC-S3-03", AllLinked(captured.requirements)),
      Check("AC-S3-04", false),
      Check("AC-S3-05", false),
      Check("AC-S3-U1", hasDocuments || "AC-S3-U1" in s.ac.waived),
      Check("AC-S3-U2", hasDocuments)]
    case ConstraintCapture => [
      Check("AC-S4-01", HasConstraint(captured.constraints, Budget)),
      Check("AC-S4-02", HasConstraint(captured.constraints, Timeline)),
      Check("AC-S4-03", HasConstraint(captured.constraints, Technology)),
      Check("AC-S4-04", HasConstraint(captured.constraints, DataResidency)),
      Check("AC-S4-05", captured.assumptions != []),
      Check("AC-S4-U1", hasDocuments),
      Check("AC-S4-U2", hasDocuments)]
    case ArchitectureAlignment => [
      Check("AC-S5-01", inputs.architectureApproach.Some?),
      Check("AC-S5-02", inputs.deploymentEnvironment.Some?),
      Check("AC-S5-03", inputs.externalSystems != []),
      Check("AC-S5-04", false),
      Check("AC-S5-05", false),
      Check("AC-S5-U1", false),
      Check("AC-S5-U2", hasDocuments)]
    case ReviewAndSignOff => [
      Check("AC-S6-01", inputs.brdArtifactId.Some?),
      Check("AC-S6-02", inputs.hldArtifactId.Some?),
      Check("AC-S6-03", inputs.clientSignatureConfirmed),
      Check("AC-S6-04", false),
      Check("AC-S6-05", false),
      Check("AC-S6-U1", inputs.clientSignatureConfirmed)]
    case SignedOff => []
  }

  /** `evaluate_ac`; the terminal phase is never ready. */
  function EvaluateAc(p: SessionPhase, s: SessionState): AcResult
  {
    if p == SignedOff then AcResult([], [], false) else FromChecks(ChecksOf(p, s), s.ac.met, s.ac.waived)
  }

  predicate Ready(s: SessionState)
  {
    EvaluateAc(s.currentPhase, s).transitionReady
  }

  lemma MarkAtSix(id: string)
    requires |id| == 8 && id[6] == 'U' && id[5] == '-'
    ensures Optional(id)
  {
    assert id[5..5 + |"-U"|] == "-U";
    assert OccursAt(id, "-U", 5);
  }

  lemma NoMark(id: string)
    requires |id| == 8 && forall k :: 0 <= k < 8 ==> id[k] != 'U'
    ensures !Optional(id)
  {
    forall k | 0 <= k <= |id| ensures !OccursAt(id, "-U", k) {
      assert k + 2 <= |id| ==> id[k..k + 2][1] == id[k + 1] != "-U"[1];
    }
  }

  predicate MarkedFromSix(ids: seq<Check>)
  {
    forall i :: 0 <= i < |ids| ==> |ids[i].id| == 8 && (if i >= 5 then ids[i].id[5] == '-' && ids[i].id[6] == 'U'
                                                       else forall k :: 0 <= k < 8 ==> ids[i].id[k] != 'U')
  }

  lemma IdsMarked(p: SessionPhase, s: SessionState)
    ensures MarkedFromSix(ChecksOf(p, s))
  {
    hide Retain, IsFunctional, HasDecisionMaker, HasNonFunctional, HasConstraint, AllLinked;
  }

  /** In every phase exactly the first five criteria are mandatory. */
  lemma {:induction false} FiveMandatory(p: SessionPhase, s: SessionState, i: nat)
    requires i < |ChecksOf(p, s)|
    ensures Optional(ChecksOf(p, s)[i].id) <==> i >= 5
    ensures |ChecksOf(p, s)[i].id| == 8
  {
    hide Optional, Contains, OccursAt, ChecksOf;
    IdsMarked(p, s);
    var id := ChecksOf(p, s)[i].id;
    if i >= 5 { MarkAtSix(id); } else { NoMark(id); }
  }

  /** Ready means: not signed off, and each of the five mandatory criteria covered. */
  lemma {:induction false} ReadyIffCovered(p: SessionPhase, s: SessionState)
    ensures EvaluateAc(p, s).transitionReady
            <==> p != SignedOff && forall i :: 0 <= i < 5 ==> Covered(ChecksOf(p, s)[i], s.ac.met, s.ac.waived)
  {
    var checks := ChecksOf(p, s);
    if p != SignedOff {
      ReadyIff(checks, s.ac.met, s.ac.waived);
      forall i | 0 <= i < |checks| ensures Optional(checks[i].id) <==> i >= 5 {
        FiveMandatory(p, s, i);
      }
    }
  }
}
