/** The guard of a forward transition. */
module Transitions {
  import opened Wrappers
  import Sequences
  import opened Phases
  import opened AcceptanceCriteria
  import opened Sessions
  import opened AcEvaluators
  import opened Gates

  datatype StateError =
    | SessionTerminated
    | InvalidTransition(from: SessionPhase, to: SessionPhase)
    | HardGateBlocking(gateCount: nat)
    | AcNotMet(unmetCount: nat)

  /** `TransitionEngine::attempt`: the four tests, in the order the source makes them. */
  function Attempt(s: SessionState, target: SessionPhase): Result<(), StateError>
  {
    if IsTerminal(s.currentPhase) then Err(SessionTerminated)
    else if target !in ValidTransitions(s.currentPhase) then Err(InvalidTransition(s.currentPhase, target))
    else if OpenHardGates(s.inputs) != [] then Err(HardGateBlocking(|OpenHardGates(s.inputs)|))
    else
      var ac := EvaluateAc(s.currentPhase, s);
      if !ac.transitionReady then Err(AcNotMet(UnmetCount(ac))) else Ok(())
  }

  /**
   A transition is approved exactly when it goes one phase forward, the current phase is
   ready, BRD, HLD and signature are there, and a regulatory context that is not empty comes
   with a document.
   */
  lemma {:induction false} ApprovedIff(s: SessionState, target: SessionPhase)
    ensures Attempt(s, target).Ok? <==>
      && Index(target) == Index(s.currentPhase) + 1
      && Ready(s)
      && s.inputs.brdArtifactId != None && s.inputs.hldArtifactId != None && s.inputs.clientSignatureConfirmed
      && (s.inputs.regulatoryContext == None || s.inputs.regulatoryContext == Some("") || s.inputs.documentsIndexed != [])
  {
    hide OpenHardGates, EvaluateAc, UnmetCount;
    GatesClosedIff(s.inputs);
  }

  /** A phase that is not ready, and not signed off, has an unmet criterion. */
  lemma NotReadyHasUnmet(p: SessionPhase, s: SessionState)
    requires p != SignedOff && !EvaluateAc(p, s).transitionReady
    ensures UnmetCount(EvaluateAc(p, s)) >= 1
  {
    hide ChecksOf, Criteria, Gaps, Optional;
    var criteria := EvaluateAc(p, s).criteria;
    var i :| 0 <= i < |criteria| && Blocks(criteria[i]);
    assert criteria[i] in Sequences.Retain(criteria, IsUnmet);
  }

  /**
   Which error a rejection names, and its count: the terminal phase first, then the order of
   the phases, then the missing pieces of evidence, then the unmet criteria.
   */
  lemma {:induction false} RejectionIff(s: SessionState, target: SessionPhase)
    ensures var answer, inputs := Attempt(s, target), s.inputs;
            var missing := Count(inputs.brdArtifactId == None) + Count(inputs.hldArtifactId == None) + Count(!inputs.clientSignatureConfirmed)
              + Count(inputs.regulatoryContext != None && inputs.regulatoryContext != Some("") && inputs.documentsIndexed == []);
            if s.currentPhase == SignedOff then answer == Err(SessionTerminated)
            else if Index(target) != Index(s.currentPhase) + 1 then answer == Err(InvalidTransition(s.currentPhase, target))
            else if missing > 0 then answer == Err(HardGateBlocking(missing))
            else if !Ready(s) then answer == Err(AcNotMet(UnmetCount(EvaluateAc(s.currentPhase, s)))) && answer.error.unmetCount >= 1
            else answer == Ok(())
  {
    hide EvaluateAc, OpenHardGates, UnmetCount;
    GatesClosedIff(s.inputs);
    if s.currentPhase != SignedOff && !Ready(s) {
      NotReadyHasUnmet(s.currentPhase, s);
    }
  }

  /** A revisit that is not the return to a prior phase its comment speaks of. */
  predicate GoesForward(fromPhase: SessionPhase, toPhase: SessionPhase)
  {
    Index(fromPhase) < Index(toPhase)
  }
}
