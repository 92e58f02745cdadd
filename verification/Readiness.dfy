/** Whether a phase that is ready stays ready when a turn is applied. */
module Readiness {
  import opened Wrappers
  import opened Sequences
  import opened Phases
  import opened AcceptanceCriteria
  import opened Sessions
  import opened AcEvaluators
  import opened SessionUpdates

  /** Every list of `c'` continues that of `c`. */
  predicate Grows(c: Captured, c': Captured)
  {
    c.actors <= c'.actors && c.requirements <= c'.requirements && c.constraints <= c'.constraints && c.assumptions <= c'.assumptions
  }

  lemma TurnGrows(c: Captured, es: seq<ExtractedEntity>)
    ensures Grows(c, CaptureAll(c, es))
  {
    CaptureFactors(c, es);
    AddAllOnceMeaning(c.assumptions, ValuesOf(es, "assumption"));
  }

  lemma FunctionalGrows(rs: seq<DraftRequirement>, rs': seq<DraftRequirement>)
    requires rs <= rs'
    ensures |Retain(rs, IsFunctional)| <= |Retain(rs', IsFunctional)|
  {
    assert rs' == rs + rs'[|rs|..];
    RetainConcat(rs, rs'[|rs|..], IsFunctional);
  }

  lemma AnyGrows(c: Captured, c': Captured, t: ConstraintType)
    requires Grows(c, c')
    ensures HasDecisionMaker(c.actors) ==> HasDecisionMaker(c'.actors)
    ensures HasNonFunctional(c.requirements) ==> HasNonFunctional(c'.requirements)
    ensures HasConstraint(c.constraints, t) ==> HasConstraint(c'.constraints, t)
  {
    assert forall i :: 0 <= i < |c.actors| ==> c'.actors[i] == c.actors[i];
    assert forall i :: 0 <= i < |c.requirements| ==> c'.requirements[i] == c.requirements[i];
    assert forall i :: 0 <= i < |c.constraints| ==> c'.constraints[i] == c.constraints[i];
  }

  /** Of the mandatory field checks only "every requirement names an actor" can turn false as lists grow. */
  lemma {:induction false} FieldsMonotone(p: SessionPhase, s: SessionState, s': SessionState, i: nat)
    requires p != SignedOff && i < 5 && !(p == RequirementElicitation && i == 2)
    requires s'.inputs == s.inputs && Grows(s.captured, s'.captured)
    requires ChecksOf(p, s)[i].fieldMet
    ensures ChecksOf(p, s')[i].fieldMet && ChecksOf(p, s')[i].id == ChecksOf(p, s)[i].id
  {
    hide Retain, IsFunctional, HasDecisionMaker, HasNonFunctional, HasConstraint, AllLinked;
    FunctionalGrows(s.captured.requirements, s'.captured.requirements);
    AnyGrows(s.captured, s'.captured, Budget);
    AnyGrows(s.captured, s'.captured, Timeline);
    AnyGrows(s.captured, s'.captured, Technology);
    AnyGrows(s.captured, s'.captured, DataResidency);
  }

  /** AC-S3-03 no longer rests on the requirements: it was listed, or this turn lists it. */
  predicate LinkageSettled(ac: AcLists, us: seq<AcUpdate>)
  {
    "AC-S3-03" in ac.met || "AC-S3-03" in ac.waived || EverMet(us, "AC-S3-03")
  }

  /** A turn leaves every requirement linked exactly when it was so and the turn brings no requirement. */
  lemma {:induction false} LinkedAfterTurn(c: Captured, es: seq<ExtractedEntity>)
    ensures AllLinked(CaptureAll(c, es).requirements) <==> AllLinked(c.requirements) && ValuesOf(es, "requirement") == []
  {
    CaptureFactors(c, es);
    var values := ValuesOf(es, "requirement");
    var rs := CaptureAll(c, es).requirements;
    assert rs == c.requirements + Mapped(values, RequirementFromValue);
    if values != [] {
      assert rs[|rs| - 1] == RequirementFromValue(values[|values| - 1]);
    } else {
      assert rs == c.requirements;
    }
  }

  lemma StaysCovered(s: SessionState, es: seq<ExtractedEntity>, us: seq<AcUpdate>, cost: real, delta: int, i: nat)
    requires (forall u :: u in us ==> u.met) && s.currentPhase != SignedOff && i < 5
    requires s.currentPhase == RequirementElicitation && i == 2 ==> ValuesOf(es, "requirement") == []
    requires Covered(ChecksOf(s.currentPhase, s)[i], s.ac.met, s.ac.waived)
    ensures var t := TurnApplied(s, es, us, cost, delta);
            Covered(ChecksOf(s.currentPhase, t)[i], t.ac.met, t.ac.waived)
  {
    hide Retain, IsFunctional, HasDecisionMaker, HasNonFunctional, HasConstraint, AllLinked, CaptureAll, ApplyUpdates, Grows;
    var t := TurnApplied(s, es, us, cost, delta);
    TurnGrows(s.captured, es);
    LinkedAfterTurn(s.captured, es);
    MetUpdatesOnlyAdd(s.ac, us, ChecksOf(s.currentPhase, s)[i].id);
    if ChecksOf(s.currentPhase, s)[i].fieldMet && !(s.currentPhase == RequirementElicitation && i == 2) {
      FieldsMonotone(s.currentPhase, s, t, i);
    }
  }

  lemma LinkageDecides(s: SessionState, es: seq<ExtractedEntity>, us: seq<AcUpdate>, cost: real, delta: int)
    requires (forall u :: u in us ==> u.met) && ValuesOf(es, "requirement") != []
    ensures var t := TurnApplied(s, es, us, cost, delta);
            Covered(ChecksOf(RequirementElicitation, t)[2], t.ac.met, t.ac.waived) <==> LinkageSettled(s.ac, us)
  {
    hide Retain, IsFunctional, HasNonFunctional, AllLinked, CaptureAll, ApplyUpdates;
    LinkedAfterTurn(s.captured, es);
    MetUpdatesOnlyAdd(s.ac, us, "AC-S3-03");
  }

  /**
   A ready phase stays ready under a turn whose updates are all met - in requirement
   elicitation exactly when the turn brings no requirement or AC-S3-03 is settled explicitly.
   */
  lemma {:induction false} ReadinessStableIff(s: SessionState, es: seq<ExtractedEntity>, us: seq<AcUpdate>, cost: real, delta: int)
    requires Ready(s) && forall u :: u in us ==> u.met
    ensures Ready(TurnApplied(s, es, us, cost, delta))
            <==> s.currentPhase != RequirementElicitation || ValuesOf(es, "requirement") == [] || LinkageSettled(s.ac, us)
  {
    hide ChecksOf, Covered, EvaluateAc, LinkageSettled, CaptureAll, ApplyUpdates, ValuesOf;
    var p, t := s.currentPhase, TurnApplied(s, es, us, cost, delta);
    ReadyIffCovered(p, s);
    ReadyIffCovered(p, t);
    ChecksCount(p, s);
    ChecksCount(p, t);
    forall i: nat | i < 5 && !(p == RequirementElicitation && i == 2 && ValuesOf(es, "requirement") != [])
      ensures Covered(ChecksOf(p, t)[i], t.ac.met, t.ac.waived)
    {
      StaysCovered(s, es, us, cost, delta, i);
    }
    if p == RequirementElicitation && ValuesOf(es, "requirement") != [] {
      LinkageDecides(s, es, us, cost, delta);
    }
  }

  lemma ChecksCount(p: SessionPhase, s: SessionState)
    ensures p != SignedOff ==> |ChecksOf(p, s)| >= 5
  {
  }

  /** Four criteria confirmed, the fifth resting on a requirement that names its actor. */
  const LINKED_STATE :=
    NEW_STATE.(currentPhase := RequirementElicitation,
              captured := NEW_STATE.captured.(requirements := [DraftRequirement("Export to PDF", Some(1), Functional)]),
              ac := AcLists(["AC-S3-01", "AC-S3-02", "AC-S3-04", "AC-S3-05"], []))

  lemma LinkedStateReady()
    ensures Ready(LINKED_STATE)
  {
    hide Retain, HasNonFunctional, Blocks, FromChecks;
    ReadyIffCovered(RequirementElicitation, LINKED_STATE);
    assert AllLinked(LINKED_STATE.captured.requirements);
  }

  /** One more requirement, and no update at all, takes readiness away. */
  lemma {:induction false} ReadinessCanBeLost()
    ensures Ready(LINKED_STATE)
    ensures !Ready(TurnApplied(LINKED_STATE, [ExtractedEntity("requirement", "Import from CSV")], [], 0.0, 1))
  {
    hide Ready, TurnApplied;
    var e := ExtractedEntity("requirement", "Import from CSV");
    LinkedStateReady();
    ValuesOfAppend([], e, "requirement");
    assert [] + [e] == [e];
    ReadinessStableIff(LINKED_STATE, [e], [], 0.0, 1);
  }
}
