/** What each phase asks for, in terms of the session's own fields and lists. */
module ReadyConditions {
  import opened Wrappers
  import opened Sequences
  import opened Phases
  import opened AcceptanceCriteria
  import opened Sessions
  import opened AcEvaluators
  import opened Gates

  /** The checks from the i-th on that are not covered. */
  function UnmetFrom(checks: seq<Check>, ac: AcLists, i: nat): nat
    decreases |checks| - i
  {
    if i >= |checks| then 0 else Count(!Covered(checks[i], ac.met, ac.waived)) + UnmetFrom(checks, ac, i + 1)
  }

  lemma {:induction false} UnmetFromCounts(checks: seq<Check>, ac: AcLists, i: nat)
    requires i <= |checks|
    ensures |Retain(Criteria(checks, ac.met, ac.waived)[i..], IsUnmet)| == UnmetFrom(checks, ac, i)
    decreases |checks| - i
  {
    if i < |checks| {
      var rest := Criteria(checks, ac.met, ac.waived)[i..];
      assert rest[1..] == Criteria(checks, ac.met, ac.waived)[i + 1..];
      UnmetFromCounts(checks, ac, i + 1);
    }
  }

  /** An answer's unmet count, and its readiness, from the coverage of its checks. */
  lemma {:induction false} AnswerFromChecks(p: SessionPhase, s: SessionState)
    requires p != SignedOff
    ensures |ChecksOf(p, s)| >= 5
    ensures UnmetCount(EvaluateAc(p, s)) == UnmetFrom(ChecksOf(p, s), s.ac, 0)
    ensures EvaluateAc(p, s).transitionReady <==>
      forall i :: 0 <= i < 5 ==> Covered(ChecksOf(p, s)[i], s.ac.met, s.ac.waived)
  {
    hide Retain, ChecksOf, IsUnmet;
    ReadyIffCovered(p, s);
    var criteria := Criteria(ChecksOf(p, s), s.ac.met, s.ac.waived);
    assert criteria[0..] == criteria;
    UnmetFromCounts(ChecksOf(p, s), s.ac, 0);
    FiveChecks(p, s);
  }

  lemma FiveChecks(p: SessionPhase, s: SessionState)
    requires p != SignedOff
    ensures |ChecksOf(p, s)| >= 5
  {
  }

  lemma SixUnmet(checks: seq<Check>, ac: AcLists)
    requires |checks| == 6
    ensures UnmetFrom(checks, ac, 0) ==
      Count(!Covered(checks[0], ac.met, ac.waived)) + Count(!Covered(checks[1], ac.met, ac.waived))
      + Count(!Covered(checks[2], ac.met, ac.waived)) + Count(!Covered(checks[3], ac.met, ac.waived))
      + Count(!Covered(checks[4], ac.met, ac.waived)) + Count(!Covered(checks[5], ac.met, ac.waived))
  {
    hide Covered;
    assert UnmetFrom(checks, ac, 6) == 0;
    assert UnmetFrom(checks, ac, 4) == Count(!Covered(checks[4], ac.met, ac.waived)) + Count(!Covered(checks[5], ac.met, ac.waived));
    assert UnmetFrom(checks, ac, 2) == Count(!Covered(checks[2], ac.met, ac.waived)) + Count(!Covered(checks[3], ac.met, ac.waived)) + UnmetFrom(checks, ac, 4);
  }

  lemma SevenUnmet(checks: seq<Check>, ac: AcLists)
    requires |checks| == 7
    ensures UnmetFrom(checks, ac, 0) ==
      Count(!Covered(checks[0], ac.met, ac.waived)) + Count(!Covered(checks[1], ac.met, ac.waived))
      + Count(!Covered(checks[2], ac.met, ac.waived)) + Count(!Covered(checks[3], ac.met, ac.waived))
      + Count(!Covered(checks[4], ac.met, ac.waived)) + Count(!Covered(checks[5], ac.met, ac.waived))
      + Count(!Covered(checks[6], ac.met, ac.waived))
  {
    hide Covered;
    assert UnmetFrom(checks, ac, 7) == 0;
    assert UnmetFrom(checks, ac, 5) == Count(!Covered(checks[5], ac.met, ac.waived)) + Count(!Covered(checks[6], ac.met, ac.waived));
    assert UnmetFrom(checks, ac, 3) == Count(!Covered(checks[3], ac.met, ac.waived)) + Count(!Covered(checks[4], ac.met, ac.waived)) + UnmetFrom(checks, ac, 5);
    assert UnmetFrom(checks, ac, 1) == Count(!Covered(checks[1], ac.met, ac.waived)) + Count(!Covered(checks[2], ac.met, ac.waived)) + UnmetFrom(checks, ac, 3);
  }

  /** Five statements hold for all five positions exactly when each holds. */
  lemma AllFive(p: SessionPhase, s: SessionState)
    requires p != SignedOff
    ensures |ChecksOf(p, s)| >= 5
    ensures EvaluateAc(p, s).transitionReady <==>
      && Covered(ChecksOf(p, s)[0], s.ac.met, s.ac.waived) && Covered(ChecksOf(p, s)[1], s.ac.met, s.ac.waived)
      && Covered(ChecksOf(p, s)[2], s.ac.met, s.ac.waived) && Covered(ChecksOf(p, s)[3], s.ac.met, s.ac.waived)
      && Covered(ChecksOf(p, s)[4], s.ac.met, s.ac.waived)
  {
    hide ChecksOf, Covered, EvaluateAc;
    AnswerFromChecks(p, s);
  }

  // ------------------------------------------------------------------------
  // Phase by phase
  // ------------------------------------------------------------------------

  /** Intake asks for problem, domain, goal, a pain point and a scope boundary; each can be listed instead. */
  lemma {:induction false} IntakeIff(s: SessionState)
    requires s.currentPhase == ProblemIntake
    ensures var i, listed := s.inputs, s.ac.met + s.ac.waived;
            var c1 := i.problemStatement != None || "AC-S1-01" in listed;
            var c2 := i.businessDomain != None || "AC-S1-02" in listed;
            var c3 := i.primaryGoal != None || "AC-S1-03" in listed;
            var c4 := |i.painPoints| >= 1 || "AC-S1-04" in listed;
            var c5 := |i.scopeBoundaries| >= 1 || "AC-S1-05" in listed;
            var u1 := |i.documentsIndexed| >= 1 || "AC-S1-U1" in listed;
            && (Ready(s) <==> c1 && c2 && c3 && c4 && c5)
            && UnmetCount(EvaluateAc(ProblemIntake, s)) == Count(!c1) + Count(!c2) + Count(!c3) + Count(!c4) + Count(!c5) + Count(!u1)
  {
    hide EvaluateAc, UnmetCount, UnmetFrom;
    AllFive(ProblemIntake, s);
    AnswerFromChecks(ProblemIntake, s);
    SixUnmet(ChecksOf(ProblemIntake, s), s.ac);
  }

  /** Discovery asks for two actors, a decision maker, an external system, a success definition and a regulatory context. */
  lemma {:induction false} DiscoveryIff(s: SessionState)
    requires s.currentPhase == StakeholderDiscovery
    ensures var i, listed := s.inputs, s.ac.met + s.ac.waived;
            var c1 := |s.captured.actors| >= 2 || "AC-S2-01" in listed;
            var c2 := (exists a :: a in s.captured.actors && a.isDecisionMaker) || "AC-S2-02" in listed;
            var c3 := |i.externalSystems| >= 1 || "AC-S2-03" in listed;
            var c4 := i.successDefinition != None || "AC-S2-04" in listed;
            var c5 := i.regulatoryContext != None || "AC-S2-05" in listed;
            var u1 := |i.documentsIndexed| >= 1 || "AC-S2-U1" in listed;
            && (Ready(s) <==> c1 && c2 && c3 && c4 && c5)
            && UnmetCount(EvaluateAc(StakeholderDiscovery, s))
               == Count(!c1) + Count(!c2) + Count(!c3) + Count(!c4) + Count(!c5) + Count(!u1)
  {
    hide EvaluateAc, UnmetCount, UnmetFrom, HasDecisionMaker;
    DecisionMakerIff(s.captured.actors);
    AllFive(StakeholderDiscovery, s);
    AnswerFromChecks(StakeholderDiscovery, s);
    SixUnmet(ChecksOf(StakeholderDiscovery, s), s.ac);
  }

  lemma DecisionMakerIff(actors: seq<Actor>)
    ensures HasDecisionMaker(actors) <==> exists a :: a in actors && a.isDecisionMaker
  {
    if a :| a in actors && a.isDecisionMaker {
      var i :| 0 <= i < |actors| && actors[i] == a;
      assert actors[i].isDecisionMaker;
    }
  }

  /**
   Elicitation asks for five functional requirements, a non-functional one, and an actor
   behind every requirement there is; that conflicts are resolved and that an acceptance
   criterion exists can only be listed.
   */
  lemma {:induction false} ElicitationIff(s: SessionState)
    requires s.currentPhase == RequirementElicitation
    ensures var rs, listed := s.captured.requirements, s.ac.met + s.ac.waived;
            var c1 := |set k | 0 <= k < |rs| && rs[k].requirementType == Functional| >= 5 || "AC-S3-01" in listed;
            var c2 := (exists r :: r in rs && r.requirementType == NonFunctional) || "AC-S3-02" in listed;
            var c3 := (|rs| >= 1 && forall r :: r in rs ==> r.actorId != None) || "AC-S3-03" in listed;
            var c4 := "AC-S3-04" in listed;
            var c5 := "AC-S3-05" in listed;
            var u1 := |s.inputs.documentsIndexed| >= 1 || "AC-S3-U1" in listed;
            var u2 := |s.inputs.documentsIndexed| >= 1 || "AC-S3-U2" in listed;
            && (Ready(s) <==> c1 && c2 && c3 && c4 && c5)
            && UnmetCount(EvaluateAc(RequirementElicitation, s))
               == Count(!c1) + Count(!c2) + Count(!c3) + Count(!c4) + Count(!c5) + Count(!u1) + Count(!u2)
  {
    hide EvaluateAc, UnmetCount, UnmetFrom, HasNonFunctional, AllLinked, Retain, IsFunctional;
    RequirementsIff(s.captured.requirements);
    AllFive(RequirementElicitation, s);
    AnswerFromChecks(RequirementElicitation, s);
    SevenUnmet(ChecksOf(RequirementElicitation, s), s.ac);
  }

  lemma RequirementsIff(rs: seq<DraftRequirement>)
    ensures |Retain(rs, IsFunctional)| == |set k | 0 <= k < |rs| && rs[k].requirementType == Functional|
    ensures HasNonFunctional(rs) <==> exists r :: r in rs && r.requirementType == NonFunctional
    ensures AllLinked(rs) <==> |rs| >= 1 && forall r :: r in rs ==> r.actorId != None
  {
    RetainCounts(rs, IsFunctional);
    assert Positions(rs, IsFunctional) == set k | 0 <= k < |rs| && rs[k].requirementType == Functional;
    if r :| r in rs && r.requirementType == NonFunctional {
      var i :| 0 <= i < |rs| && rs[i] == r;
      assert rs[i].requirementType.NonFunctional?;
    }
  }

  /** Capture asks for a budget, a timeline, a technology and a data residency constraint, and an assumption. */
  lemma {:induction false} CaptureIff(s: SessionState)
    requires s.currentPhase == ConstraintCapture
    ensures var cs, listed := s.captured.constraints, s.ac.met + s.ac.waived;
            var c1 := (exists c :: c in cs && c.constraintType == Budget) || "AC-S4-01" in listed;
            var c2 := (exists c :: c in cs && c.constraintType == Timeline) || "AC-S4-02" in listed;
            var c3 := (exists c :: c in cs && c.constraintType == Technology) || "AC-S4-03" in listed;
            var c4 := (exists c :: c in cs && c.constraintType == DataResidency) || "AC-S4-04" in listed;
            var c5 := |s.captured.assumptions| >= 1 || "AC-S4-05" in listed;
            var u1 := |s.inputs.documentsIndexed| >= 1 || "AC-S4-U1" in listed;
            var u2 := |s.inputs.documentsIndexed| >= 1 || "AC-S4-U2" in listed;
            && (Ready(s) <==> c1 && c2 && c3 && c4 && c5)
            && UnmetCount(EvaluateAc(ConstraintCapture, s))
               == Count(!c1) + Count(!c2) + Count(!c3) + Count(!c4) + Count(!c5) + Count(!u1) + Count(!u2)
  {
    hide EvaluateAc, UnmetCount, UnmetFrom, HasConstraint;
    ConstraintIff(s.captured.constraints, Budget);
    ConstraintIff(s.captured.constraints, Timeline);
    ConstraintIff(s.captured.constraints, Technology);
    ConstraintIff(s.captured.constraints, DataResidency);
    AllFive(ConstraintCapture, s);
    AnswerFromChecks(ConstraintCapture, s);
    SevenUnmet(ChecksOf(ConstraintCapture, s), s.ac);
  }

  lemma ConstraintIff(cs: seq<DraftConstraint>, t: ConstraintType)
    ensures HasConstraint(cs, t) <==> exists c :: c in cs && c.constraintType == t
  {
    if c :| c in cs && c.constraintType == t {
      var i :| 0 <= i < |cs| && cs[i] == c;
      assert cs[i].constraintType == t;
    }
  }

  /** Alignment asks for an approach, an environment and an external system; the data model and the uploads can only be listed. */
  lemma {:induction false} AlignmentIff(s: SessionState)
    requires s.currentPhase == ArchitectureAlignment
    ensures var i, listed := s.inputs, s.ac.met + s.ac.waived;
            var c1 := i.architectureApproach != None || "AC-S5-01" in listed;
            var c2 := i.deploymentEnvironment != None || "AC-S5-02" in listed;
            var c3 := |i.externalSystems| >= 1 || "AC-S5-03" in listed;
            var c4 := "AC-S5-04" in listed;
            var c5 := "AC-S5-05" in listed;
            var u1 := "AC-S5-U1" in listed;
            var u2 := |i.documentsIndexed| >= 1 || "AC-S5-U2" in listed;
            && (Ready(s) <==> c1 && c2 && c3 && c4 && c5)
            && UnmetCount(EvaluateAc(ArchitectureAlignment, s))
               == Count(!c1) + Count(!c2) + Count(!c3) + Count(!c4) + Count(!c5) + Count(!u1) + Count(!u2)
  {
    hide EvaluateAc, UnmetCount, UnmetFrom;
    AllFive(ArchitectureAlignment, s);
    AnswerFromChecks(ArchitectureAlignment, s);
    SevenUnmet(ChecksOf(ArchitectureAlignment, s), s.ac);
  }

  /** Review asks for BRD, HLD and signature; that flagged items and conflicts are settled can only be listed. */
  lemma {:induction false} ReviewIff(s: SessionState)
    requires s.currentPhase == ReviewAndSignOff
    ensures var i, listed := s.inputs, s.ac.met + s.ac.waived;
            var c1 := i.brdArtifactId != None || "AC-S6-01" in listed;
            var c2 := i.hldArtifactId != None || "AC-S6-02" in listed;
            var c3 := i.clientSignatureConfirmed || "AC-S6-03" in listed;
            var c4 := "AC-S6-04" in listed;
            var c5 := "AC-S6-05" in listed;
            var u1 := i.clientSignatureConfirmed || "AC-S6-U1" in listed;
            && (Ready(s) <==> c1 && c2 && c3 && c4 && c5)
            && UnmetCount(EvaluateAc(ReviewAndSignOff, s))
               == Count(!c1) + Count(!c2) + Count(!c3) + Count(!c4) + Count(!c5) + Count(!u1)
  {
    hide EvaluateAc, UnmetCount, UnmetFrom;
    AllFive(ReviewAndSignOff, s);
    AnswerFromChecks(ReviewAndSignOff, s);
    SixUnmet(ChecksOf(ReviewAndSignOff, s), s.ac);
  }

  /** A signed-off session is never ready, and has nothing unmet. */
  lemma SignedOffNeverReady(s: SessionState)
    requires s.currentPhase == SignedOff
    ensures !Ready(s) && UnmetCount(EvaluateAc(SignedOff, s)) == 0
  {
  }
}
