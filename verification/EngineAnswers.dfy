/** What each request answers and does, told from the stored session's own fields. */
module EngineAnswers {
  import opened Wrappers
  import opened Phases
  import opened AcceptanceCriteria
  import opened Sessions
  import opened AcEvaluators
  import opened Gates
  import opened Transitions
  import opened StateEngines
  import opened SessionRuns
  import opened SignOff

  /** Text that does not parse is refused before the session is looked up; neither refusal changes anything. */
  lemma {:induction false} RefusedIff(store: Store, req: Request)
    ensures Handle(store, req).1 == InvalidArgument <==>
      match req
      case CreateSession(w, p, _) => w == None || p == None
      case GetSessionState(id) => id == None
      case ApplyTurnResult(id, _, _, _, _) => id == None
      case RequestTransition(id, target) => id == None || target == None
      case RevisitPhase(id, target) => id == None || target == None
    ensures Handle(store, req).1 == NotFound <==>
      match req
      case CreateSession(_, _, _) => false
      case GetSessionState(id) => id != None && id.value !in store
      case ApplyTurnResult(id, _, _, _, _) => id != None && id.value !in store
      case RequestTransition(id, target) => id != None && target != None && id.value !in store
      case RevisitPhase(id, target) => id != None && target != None && id.value !in store
    ensures Handle(store, req).1 == InvalidArgument || Handle(store, req).1 == NotFound ==> Handle(store, req).0 == store
  {
    hide Attempt, TurnApplied, EvaluateAc, UnmetCount, RevisitAllowed, Revisited;
  }

  /** A created session is in problem intake, with nothing captured, listed or recorded, and no other session changes. */
  lemma {:induction false} CreateAnswer(store: Store, workspaceId: Uuid, projectId: Uuid, freshId: Uuid)
    ensures var (store', answer) := Handle(store, CreateSession(Some(workspaceId), Some(projectId), freshId));
            && answer == Created(freshId, ProblemIntake)
            && store'.Keys == store.Keys + {freshId}
            && (forall id :: id in store && id != freshId ==> store'[id] == store[id])
            && store'[freshId].currentPhase == ProblemIntake
            && store'[freshId].inputs == Inputs(None, None, None, [], [], [], None, None, None, None, [], None, None, false)
            && store'[freshId].captured == Captured([], [], [], [], [])
            && store'[freshId].ac == AcLists([], [])
            && store'[freshId].revisitTarget == None && store'[freshId].revisitHistory == []
            && store'[freshId].totalCostUsd == 0.0 && store'[freshId].turnCount == 0
  {
    hide OnSession;
  }

  /** Reading answers the stored session. */
  lemma {:induction false} GetAnswer(store: Store, id: Uuid)
    requires id in store
    ensures Handle(store, GetSessionState(Some(id))) == (store, StateOf(store[id]))
  {
    assert store[id := store[id]] == store;
  }

  /**
   A turn changes the captured lists, the two criterion lists, the cost and the turn count of
   its session and nothing else; the answer is the readiness and the unmet count afterwards.
   */
  lemma {:induction false} TurnAnswer(
    store: Store, id: Uuid, es: seq<ExtractedEntity>, us: seq<AcUpdate>, cost: real, delta: int)
    requires id in store
    ensures var (store', answer) := Handle(store, ApplyTurnResult(Some(id), es, us, cost, delta));
            var s := store[id];
            && store'.Keys == store.Keys
            && (forall other :: other in store && other != id ==> store'[other] == store[other])
            && var t := store'[id];
            && t == s.(captured := CaptureAll(s.captured, es), ac := ApplyUpdates(s.ac, us),
                       totalCostUsd := s.totalCostUsd + cost,
                       turnCount := (if delta <= 0 then s.turnCount else s.turnCount + delta) % 0x1_0000_0000)
            && answer == TurnOutcome(s.currentPhase, Ready(t), UnmetCount(EvaluateAc(t.currentPhase, t)))
  {
    hide CaptureAll, ApplyUpdates, EvaluateAc, UnmetCount;
  }

  /**
   A transition is answered without an error, and the phase alone changed to the target,
   exactly when the target is the next phase, the current one is ready, BRD, HLD and signature
   are there, and a non-empty regulatory context comes with a document. Otherwise nothing
   changes and the answer names the current phase.
   */
  lemma {:induction false} TransitionAnswer(store: Store, id: Uuid, target: SessionPhase)
    requires id in store
    ensures var (store', answer) := Handle(store, RequestTransition(Some(id), Some(target)));
            var s := store[id];
            var approved :=
              && Index(target) == Index(s.currentPhase) + 1
              && Ready(s)
              && s.inputs.brdArtifactId != None && s.inputs.hldArtifactId != None && s.inputs.clientSignatureConfirmed
              && (s.inputs.regulatoryContext == None || s.inputs.regulatoryContext == Some("") || s.inputs.documentsIndexed != []);
            && answer.TransitionOutcome?
            && (answer.error == None <==> approved)
            && answer.phase == (if approved then target else s.currentPhase)
            && store' == (if approved then store[id := s.(currentPhase := target)] else store)
  {
    hide Attempt, Ready;
    ApprovedIff(store[id], target);
    assert store[id := store[id]] == store;
  }

  /**
   A revisit is accepted exactly when its target is neither SignedOff nor the current phase,
   whichever way it goes; then phase and revisit target are the target, the history has one
   more record, and nothing else changed. Otherwise nothing changed at all.
   */
  lemma {:induction false} RevisitAnswer(store: Store, id: Uuid, target: SessionPhase)
    requires id in store
    ensures var s := store[id];
            Handle(store, RevisitPhase(Some(id), Some(target))) ==
              if target != SignedOff && target != s.currentPhase then
                (store[id := s.(currentPhase := target, revisitTarget := Some(target),
                                revisitHistory := s.revisitHistory + [RevisitRecord(s.currentPhase, target)])],
                 RevisitOutcome(true, target))
              else (store, RevisitOutcome(false, s.currentPhase))
  {
    assert store[id := store[id]] == store;
  }

  /**
   Every return to a prior phase is accepted; beyond those, exactly the revisits forward to a
   phase other than SignedOff are, and there is one from every phase before review.
   */
  lemma {:induction false} ForwardRevisitIff(store: Store, id: Uuid, target: SessionPhase)
    requires id in store
    ensures var s, answer := store[id], Handle(store, RevisitPhase(Some(id), Some(target))).1;
            && (Index(target) < Index(s.currentPhase) ==> answer == RevisitOutcome(true, target))
            && (answer == RevisitOutcome(true, target) && !(Index(target) < Index(s.currentPhase))
                <==> target != SignedOff && Index(s.currentPhase) < Index(target))
    ensures (exists t :: Handle(store, RevisitPhase(Some(id), Some(t))).1 == RevisitOutcome(true, t)
                         && Index(store[id].currentPhase) < Index(t))
            <==> Index(store[id].currentPhase) < Index(ReviewAndSignOff)
  {
    hide Handle;
    forall t ensures Handle(store, RevisitPhase(Some(id), Some(t))).1 == RevisitOutcome(true, t) <==>
                     t != SignedOff && t != store[id].currentPhase
    {
      RevisitAnswer(store, id, t);
    }
    IndexIsPlace(target);
    IndexIsPlace(store[id].currentPhase);
    if Index(store[id].currentPhase) < Index(ReviewAndSignOff) {
      assert Handle(store, RevisitPhase(Some(id), Some(ReviewAndSignOff))).1 == RevisitOutcome(true, ReviewAndSignOff);
    }
  }

  /** From every reachable state, SignedOff included, every phase but SignedOff is at most one request away. */
  lemma {:induction false} EveryPhaseOneRequestAway(steps: seq<Step>, id: Uuid, target: SessionPhase)
    requires id in Run(steps) && target != SignedOff
    ensures AtPhase(steps, id, target) || AtPhase(steps + [Rpc(RevisitPhase(Some(id), Some(target)))], id, target)
  {
    hide Handle;
    RevisitAnswer(Run(steps), id, target);
    RunAppend(steps, Rpc(RevisitPhase(Some(id), Some(target))));
  }
}
