/** The session record, its in-place updates, and the specification of each as a function of values. */
module Sessions {
  import opened Wrappers
  import opened Sequences
  import opened Text
  import opened Phases

  type Uuid = nat

  datatype RequirementType = Functional | NonFunctional | ConstraintRequirement

  datatype ConstraintType = Budget | Timeline | Technology | Regulatory | DataResidency | OtherConstraint

  /** Generated ids of actors, requirements and constraints are not kept: nothing reads them. */
  datatype Actor = Actor(name: string, role: string, isDecisionMaker: bool)

  datatype DraftRequirement = DraftRequirement(description: string, actorId: Option<Uuid>, requirementType: RequirementType)

  datatype DraftConstraint = DraftConstraint(description: string, constraintType: ConstraintType)

  datatype AcUpdate = AcUpdate(criterionId: string, met: bool)

  datatype ExtractedEntity = ExtractedEntity(entityType: string, value: string)

  datatype RevisitRecord = RevisitRecord(fromPhase: SessionPhase, toPhase: SessionPhase)

  /** The fields that no request of the service ever writes. */
  datatype Inputs = Inputs(
    problemStatement: Option<string>, businessDomain: Option<string>, primaryGoal: Option<string>,
    painPoints: seq<string>, scopeBoundaries: seq<string>, externalSystems: seq<string>,
    successDefinition: Option<string>, regulatoryContext: Option<string>,
    architectureApproach: Option<string>, deploymentEnvironment: Option<string>,
    documentsIndexed: seq<Uuid>, brdArtifactId: Option<Uuid>, hldArtifactId: Option<Uuid>, clientSignatureConfirmed: bool)

  const NO_INPUTS := Inputs(None, None, None, [], [], [], None, None, None, None, [], None, None, false)

  /** What entities fill. */
  datatype Captured = Captured(
    actors: seq<Actor>, requirements: seq<DraftRequirement>, constraints: seq<DraftConstraint>,
    assumptions: seq<string>, openQuestions: seq<string>)

  /** The two explicit criterion lists. */
  datatype AcLists = AcLists(met: seq<string>, waived: seq<string>)

  datatype SessionState = SessionState(
    currentPhase: SessionPhase, inputs: Inputs, captured: Captured, ac: AcLists,
    revisitTarget: Option<SessionPhase>, revisitHistory: seq<RevisitRecord>, totalCostUsd: real, turnCount: nat)

  const NEW_STATE :=
    SessionState(ProblemIntake, NO_INPUTS, Captured([], [], [], [], []), AcLists([], []), None, [], 0.0, 0)

  // ------------------------------------------------------------------------
  // Entity conversion
  // ------------------------------------------------------------------------

  predicate ContainsAny(s: string, parts: seq<string>)
  {
    exists i :: 0 <= i < |parts| && Contains(s, parts[i])
  }

  function CommaAt(s: string): (k: nat)
    ensures k <= |s|
  {
    if s == [] || s[0] == ',' then 0 else 1 + CommaAt(s[1..])
  }

  function TrimDashes(s: string): string
  {
    if s != [] && s[0] == '\U{2014}' then TrimDashes(s[1..]) else s
  }

  function ActorFromValue(value: string): Actor
  {
    var k := CommaAt(value);
    Actor(
      Strip(value[..k]),
      if k == |value| then "" else Strip(TrimDashes(Strip(value[k + 1..]))),
      ContainsAny(Lower(value), ["final approver", "decision maker", "decision_maker", "sign-off", "sign off"]))
  }

  /** A requirement made from an entity never names an actor. */
  function RequirementFromValue(value: string): (r: DraftRequirement)
    ensures r.actorId.None?
  {
    DraftRequirement(value, None,
      if ContainsAny(Lower(value), ["non_functional", "non-functional", "performance", "response time", "availability",
                                    "concurrent", "uptime", "sla", "latency"])
      then NonFunctional else Functional)
  }

  function ConstraintFromValue(value: string): DraftConstraint
  {
    var lower := Lower(value);
    DraftConstraint(value,
      if ContainsAny(lower, ["timeline", "deadline", "delivery", "q1", "q2", "q3", "q4", "end of"]) then Timeline
      else if ContainsAny(lower, ["budget", " \U{00A3}", " $", "cost"]) then Budget
      else if ContainsAny(lower, ["gdpr", "hipaa", "fca", "regulatory", "compliance", "iso "]) then Regulatory
      else if ContainsAny(lower, ["data residency", "sovereignty", "must reside"]) then DataResidency
      else if ContainsAny(lower, ["technology", "platform", "stack", "azure", "aws ", "gcp"]) then Technology
      else OtherConstraint)
  }

  lemma {:induction false} AnyOfList(s: string, parts: seq<string>)
    ensures parts == [] ==> !ContainsAny(s, parts)
    ensures parts != [] ==> (ContainsAny(s, parts) <==> Contains(s, parts[0]) || ContainsAny(s, parts[1..]))
  {
    hide Contains;
    if parts != [] {
      if i :| 0 <= i < |parts| && Contains(s, parts[i]) {
        if i > 0 { assert Contains(s, parts[1..][i - 1]); }
      }
      if i :| 0 <= i < |parts[1..]| && Contains(s, parts[1..][i]) {
        assert Contains(s, parts[i + 1]);
      }
    }
  }

  /** Name and role are what stands before and after the first comma, trimmed; without a comma there is no role. */
  lemma {:induction false} ActorParts(value: string, k: nat)
    requires k <= |value| && ',' !in value[..k] && (k < |value| ==> value[k] == ',')
    ensures ActorFromValue(value).name == Strip(value[..k])
    ensures ActorFromValue(value).role == if k == |value| then "" else Strip(TrimDashes(Strip(value[k + 1..])))
  {
    hide Strip, TrimDashes, ContainsAny;
    FirstComma(value, k);
  }

  lemma {:induction false} FirstComma(s: string, k: nat)
    requires k <= |s| && ',' !in s[..k] && (k < |s| ==> s[k] == ',')
    ensures CommaAt(s) == k
  {
    if k > 0 {
      assert s[0] == s[..k][0];
      assert s[1..][..k - 1] == s[..k][1..];
      FirstComma(s[1..], k - 1);
    }
  }

  /** Trimming takes all leading dashes and nothing else. */
  lemma {:induction false} TrimmedDashes(s: string) returns (n: nat)
    ensures n <= |s| && TrimDashes(s) == s[n..]
    ensures forall i :: 0 <= i < n ==> s[i] == '\U{2014}'
    ensures n < |s| ==> s[n] != '\U{2014}'
  {
    n := 0;
    if s != [] && s[0] == '\U{2014}' {
      n := TrimmedDashes(s[1..]);
      forall i | 0 <= i < n + 1 ensures s[i] == '\U{2014}' {
        if i > 0 { assert s[i] == s[1..][i - 1]; }
      }
      n := n + 1;
    }
  }

  /** Who decides: five phrases, in any case. */
  lemma {:induction false} DecidesIff(value: string)
    ensures var v := Lower(value);
            ActorFromValue(value).isDecisionMaker <==>
              || Contains(v, "final approver") || Contains(v, "decision maker") || Contains(v, "decision_maker")
              || Contains(v, "sign-off") || Contains(v, "sign off")
  {
    hide Contains, ContainsAny, Lower, Strip, CommaAt, TrimDashes;
    var parts := ["final approver", "decision maker", "decision_maker", "sign-off", "sign off"];
    var v := Lower(value);
    AnyOfList(v, parts);
    AnyOfList(v, parts[1..]);
    AnyOfList(v, parts[2..]);
    AnyOfList(v, parts[3..]);
    AnyOfList(v, parts[4..]);
    AnyOfList(v, parts[5..]);
  }

  /** A requirement keeps its text and is non-functional exactly when it names one of nine concerns. */
  lemma {:induction false} RequirementIff(value: string)
    ensures var v, r := Lower(value), RequirementFromValue(value);
            && r.description == value && r.actorId == None
            && (r.requirementType == Functional || r.requirementType == NonFunctional)
            && (r.requirementType == NonFunctional <==>
                  || Contains(v, "non_functional") || Contains(v, "non-functional") || Contains(v, "performance")
                  || Contains(v, "response time") || Contains(v, "availability") || Contains(v, "concurrent")
                  || Contains(v, "uptime") || Contains(v, "sla") || Contains(v, "latency"))
  {
    hide Contains, ContainsAny, Lower;
    var parts := ["non_functional", "non-functional", "performance", "response time", "availability",
                  "concurrent", "uptime", "sla", "latency"];
    var v := Lower(value);
    AnyOfList(v, parts);
    AnyOfList(v, parts[1..]);
    AnyOfList(v, parts[2..]);
    AnyOfList(v, parts[3..]);
    AnyOfList(v, parts[4..]);
    AnyOfList(v, parts[5..]);
    AnyOfList(v, parts[6..]);
    AnyOfList(v, parts[7..]);
    AnyOfList(v, parts[8..]);
    AnyOfList(v, parts[9..]);
  }

  /** A constraint keeps its text; of the kinds whose words it contains it takes the first in the order timeline, budget, regulatory, residency, technology. */
  lemma {:induction false} ConstraintIff(value: string)
    ensures var v, c := Lower(value), ConstraintFromValue(value);
            var timeline := ContainsAny(v, ["timeline", "deadline", "delivery", "q1", "q2", "q3", "q4", "end of"]);
            var budget := ContainsAny(v, ["budget", " \U{00A3}", " $", "cost"]);
            var regulatory := ContainsAny(v, ["gdpr", "hipaa", "fca", "regulatory", "compliance", "iso "]);
            var residency := ContainsAny(v, ["data residency", "sovereignty", "must reside"]);
            var technology := ContainsAny(v, ["technology", "platform", "stack", "azure", "aws ", "gcp"]);
            && c.description == value
            && (c.constraintType == Timeline <==> timeline)
            && (c.constraintType == Budget <==> budget && !timeline)
            && (c.constraintType == Regulatory <==> regulatory && !budget && !timeline)
            && (c.constraintType == DataResidency <==> residency && !regulatory && !budget && !timeline)
            && (c.constraintType == Technology <==> technology && !residency && !regulatory && !budget && !timeline)
            && (c.constraintType == OtherConstraint <==> !technology && !residency && !regulatory && !budget && !timeline)
  {
    hide Contains, ContainsAny, Lower;
  }

  // ------------------------------------------------------------------------
  // Updates on values
  // ------------------------------------------------------------------------

  /** `retain(|id| id != x)`. */
  function Without(ids: seq<string>, x: string): (r: seq<string>)
  {
    Retain(ids, (id: string) => id != x)
  }

  function AddOnce(ids: seq<string>, x: string): (r: seq<string>)
  {
    if x in ids then ids else ids + [x]
  }

  function ApplyUpdate(ac: AcLists, u: AcUpdate): AcLists
  {
    if u.met then AcLists(AddOnce(ac.met, u.criterionId), Without(ac.waived, u.criterionId))
    else ac.(met := Without(ac.met, u.criterionId))
  }

  function ApplyUpdates(ac: AcLists, us: seq<AcUpdate>): (r: AcLists)
    decreases |us|
  {
    if us == [] then ac else ApplyUpdate(ApplyUpdates(ac, us[..|us| - 1]), us[|us| - 1])
  }

  predicate KnownType(entityType: string)
  {
    entityType == "actor" || entityType == "requirement" || entityType == "constraint" || entityType == "assumption" || entityType == "gap"
  }

  function Capture(c: Captured, e: ExtractedEntity): Captured
  {
    if e.entityType == "actor" then c.(actors := c.actors + [ActorFromValue(e.value)])
    else if e.entityType == "requirement" then c.(requirements := c.requirements + [RequirementFromValue(e.value)])
    else if e.entityType == "constraint" then c.(constraints := c.constraints + [ConstraintFromValue(e.value)])
    else if e.entityType == "assumption" then c.(assumptions := AddOnce(c.assumptions, e.value))
    else if e.entityType == "gap" then c.(openQuestions := AddOnce(c.openQuestions, e.value))
    else c
  }

  function CaptureAll(c: Captured, es: seq<ExtractedEntity>): (r: Captured)
    decreases |es|
  {
    if es == [] then c else Capture(CaptureAll(c, es[..|es| - 1]), es[|es| - 1])
  }

  const U32_RANGE := 0x1_0000_0000

  /** One turn's result: entities, then updates, then the cost and the 32-bit turn counter. */
  function TurnApplied(s: SessionState, es: seq<ExtractedEntity>, us: seq<AcUpdate>, cost: real, delta: int): SessionState
  {
    s.(captured := CaptureAll(s.captured, es), ac := ApplyUpdates(s.ac, us), totalCostUsd := s.totalCostUsd + cost,
       turnCount := (s.turnCount + if delta > 0 then delta else 0) % U32_RANGE)
  }

  predicate RevisitAllowed(phase: SessionPhase, target: SessionPhase)
  {
    target != SignedOff && target != phase
  }

  function Revisited(s: SessionState, target: SessionPhase): SessionState
  {
    s.(currentPhase := target, revisitTarget := Some(target),
       revisitHistory := s.revisitHistory + [RevisitRecord(s.currentPhase, target)])
  }

  // ------------------------------------------------------------------------
  // The session object
  // ------------------------------------------------------------------------

  class Session {
    var currentPhase: SessionPhase
    var inputs: Inputs
    var actors: seq<Actor>
    var requirements: seq<DraftRequirement>
    var constraints: seq<DraftConstraint>
    var assumptions: seq<string>
    var openQuestions: seq<string>
    var acMet: seq<string>
    var acWaived: seq<string>
    var revisitTarget: Option<SessionPhase>
    var revisitHistory: seq<RevisitRecord>
    var totalCostUsd: real
    var turnCount: nat

    constructor ()
      ensures State() == NEW_STATE
      ensures currentPhase == ProblemIntake && inputs == NO_INPUTS
      ensures actors == [] && requirements == [] && constraints == [] && assumptions == [] && openQuestions == []
      ensures acMet == acWaived == [] && revisitTarget == None && revisitHistory == [] && totalCostUsd == 0.0 && turnCount == 0
      ensures inputs.problemStatement == inputs.businessDomain == inputs.primaryGoal == inputs.successDefinition == None
      ensures inputs.regulatoryContext == inputs.architectureApproach == inputs.deploymentEnvironment == None
      ensures inputs.painPoints == inputs.scopeBoundaries == inputs.externalSystems == [] && inputs.documentsIndexed == []
      ensures inputs.brdArtifactId == inputs.hldArtifactId == None && !inputs.clientSignatureConfirmed
    {
      currentPhase, inputs := ProblemIntake, NO_INPUTS;
      actors, requirements, constraints, assumptions, openQuestions := [], [], [], [], [];
      acMet, acWaived := [], [];
      revisitTarget, revisitHistory := None, [];
      totalCostUsd, turnCount := 0.0, 0;
    }

    function State(): SessionState
      reads this
    {
      SessionState(currentPhase, inputs, Captured(actors, requirements, constraints, assumptions, openQuestions),
                   AcLists(acMet, acWaived), revisitTarget, revisitHistory, totalCostUsd, turnCount)
    }

    /** `apply_ac_update`. */
    method ApplyAcUpdate(u: AcUpdate)
      modifies `acMet, `acWaived
      ensures State() == old(State()).(ac := ApplyUpdate(old(State()).ac, u))
    {
      if u.met {
        if u.criterionId !in acMet {
          acMet := acMet + [u.criterionId];
        }
        acWaived := Without(acWaived, u.criterionId);
      } else {
        acMet := Without(acMet, u.criterionId);
      }
    }

    /** `apply_entity`: false for an unknown type, which changes nothing. */
    method ApplyEntity(e: ExtractedEntity) returns (known: bool)
      modifies `actors, `requirements, `constraints, `assumptions, `openQuestions
      ensures known == KnownType(e.entityType)
      ensures State() == old(State()).(captured := Capture(old(State()).captured, e))
    {
      known := true;
      if e.entityType == "actor" {
        actors := actors + [ActorFromValue(e.value)];
      } else if e.entityType == "requirement" {
        requirements := requirements + [RequirementFromValue(e.value)];
      } else if e.entityType == "constraint" {
        constraints := constraints + [ConstraintFromValue(e.value)];
      } else if e.entityType == "assumption" {
        if e.value !in assumptions {
          assumptions := assumptions + [e.value];
        }
      } else if e.entityType == "gap" {
        if e.value !in openQuestions {
          openQuestions := openQuestions + [e.value];
        }
      } else {
        known := false;
      }
    }

    /** `TransitionEngine::revisit`: only the target is examined. */
    method Revisit(target: SessionPhase) returns (ok: bool)
      modifies `currentPhase, `revisitTarget, `revisitHistory
      ensures ok == (target != SignedOff && target != old(currentPhase))
      ensures State() == if ok then old(State()).(
          currentPhase := target, revisitTarget := Some(target),
          revisitHistory := old(revisitHistory) + [RevisitRecord(old(currentPhase), target)])
        else old(State())
    {
      if target == SignedOff {
        return false;
      }
      if target == currentPhase {
        return false;
      }
      revisitHistory := revisitHistory + [RevisitRecord(currentPhase, target)];
      revisitTarget := Some(target);
      currentPhase := target;
      ok := true;
    }
  }
}
