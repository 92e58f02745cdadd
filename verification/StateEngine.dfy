/** The state engine service: five requests on a table of sessions, each under one lock and so one atomic step. */
module StateEngines {
  import opened Wrappers
  import opened Phases
  import opened AcceptanceCriteria
  import opened Sessions
  import opened AcEvaluators
  import opened Transitions

  /** Ids and phases arrive as text; `None` stands for text that does not parse. */
  datatype Request =
    | CreateSession(workspaceId: Option<Uuid>, projectId: Option<Uuid>, freshId: Uuid)
    | GetSessionState(id: Option<Uuid>)
    | ApplyTurnResult(id: Option<Uuid>, entities: seq<ExtractedEntity>, updates: seq<AcUpdate>, costUsd: real, turnDelta: int)
    | RequestTransition(id: Option<Uuid>, target: Option<SessionPhase>)
    | RevisitPhase(id: Option<Uuid>, target: Option<SessionPhase>)

  datatype Response =
    | InvalidArgument
    | NotFound
    | Created(id: Uuid, phase: SessionPhase)
    | StateOf(state: SessionState)
    | TurnOutcome(phase: SessionPhase, transitionReady: bool, unmetCount: nat)
    | TransitionOutcome(error: Option<StateError>, phase: SessionPhase)
    | RevisitOutcome(ok: bool, phase: SessionPhase)

  type Store = map<Uuid, SessionState>

  function Outcome(s: SessionState): Response
  {
    var ac := EvaluateAc(s.currentPhase, s);
    TurnOutcome(s.currentPhase, ac.transitionReady, UnmetCount(ac))
  }

  /** What a request that found its session does to it, and its response. */
  function OnSession(s: SessionState, req: Request): (SessionState, Response)
  {
    match req
    case ApplyTurnResult(_, es, us, cost, delta) =>
      var t := TurnApplied(s, es, us, cost, delta);
      (t, Outcome(t))
    case RequestTransition(_, Some(target)) =>
      (match Attempt(s, target)
       case Ok(_) => (s.(currentPhase := target), TransitionOutcome(None, target))
       case Err(e) => (s, TransitionOutcome(Some(e), s.currentPhase)))
    case RevisitPhase(_, Some(target)) =>
      if RevisitAllowed(s.currentPhase, target) then (Revisited(s, target), RevisitOutcome(true, target))
      else (s, RevisitOutcome(false, s.currentPhase))
    case _ => (s, StateOf(s))
  }

  /** Whether the texts of a request parse. */
  predicate Parses(req: Request)
  {
    match req
    case CreateSession(w, p, _) => w.Some? && p.Some?
    case GetSessionState(id) => id.Some?
    case ApplyTurnResult(id, _, _, _, _) => id.Some?
    case RequestTransition(id, target) => id.Some? && target.Some?
    case RevisitPhase(id, target) => id.Some? && target.Some?
  }

  function Handle(store: Store, req: Request): (Store, Response)
  {
    if !Parses(req) then (store, InvalidArgument)
    else if req.CreateSession? then (store[req.freshId := NEW_STATE], Created(req.freshId, ProblemIntake))
    else if req.id.value !in store then (store, NotFound)
    else
      var r := OnSession(store[req.id.value], req);
      (store[req.id.value := r.0], r.1)
  }

  class StateEngineService {
    var sessions: map<Uuid, Session>

    /** No session object is filed under two ids. */
    ghost predicate Valid()
      reads this
    {
      forall a, b :: a in sessions && b in sessions && a != b ==> sessions[a] != sessions[b]
    }

    ghost function View(): Store
      reads this, sessions.Values
    {
      map id | id in sessions :: sessions[id].State()
    }

    constructor ()
      ensures Valid() && View() == map[]
    {
      sessions := map[];
    }

    /** `create_session`: the fresh id is the random number drawn for the session. */
    method Create(workspaceId: Option<Uuid>, projectId: Option<Uuid>, freshId: Uuid) returns (response: Response)
      requires Valid()
      modifies `sessions
      ensures Valid()
      ensures (View(), response) == Handle(old(View()), CreateSession(workspaceId, projectId, freshId))
    {
      if workspaceId.None? || projectId.None? {
        return InvalidArgument;
      }
      var session := new Session();
      sessions := sessions[freshId := session];
      assert View() == old(View())[freshId := NEW_STATE];
      response := Created(freshId, session.currentPhase);
    }

    /** `get_session_state`. */
    method Get(id: Option<Uuid>) returns (response: Response)
      ensures (View(), response) == Handle(old(View()), GetSessionState(id))
    {
      if id.None? {
        return InvalidArgument;
      }
      if id.value !in sessions {
        return NotFound;
      }
      assert View() == View()[id.value := sessions[id.value].State()];
      response := StateOf(sessions[id.value].State());
    }

    static method RunEntities(session: Session, entities: seq<ExtractedEntity>)
      modifies session
      ensures session.State() == old(session.State()).(captured := CaptureAll(old(session.State()).captured, entities))
    {
      hide Capture;
      for i := 0 to |entities|
        invariant session.State() == old(session.State()).(captured := CaptureAll(old(session.State()).captured, entities[..i]))
      {
        assert entities[..i + 1][..i] == entities[..i];
        // an unknown type is an error here, and the loop goes on
        var known := session.ApplyEntity(entities[i]);
      }
      assert entities[..|entities|] == entities;
    }

    static method RunUpdates(session: Session, updates: seq<AcUpdate>)
      modifies session
      ensures session.State() == old(session.State()).(ac := ApplyUpdates(old(session.State()).ac, updates))
    {
      hide ApplyUpdate;
      for i := 0 to |updates|
        invariant session.State() == old(session.State()).(ac := ApplyUpdates(old(session.State()).ac, updates[..i]))
      {
        assert updates[..i + 1][..i] == updates[..i];
        session.ApplyAcUpdate(updates[i]);
      }
      assert updates[..|updates|] == updates;
    }

    static method RunTurn(session: Session, entities: seq<ExtractedEntity>, updates: seq<AcUpdate>, costUsd: real, turnDelta: int)
      modifies session
      ensures session.State() == TurnApplied(old(session.State()), entities, updates, costUsd, turnDelta)
    {
      hide CaptureAll, ApplyUpdates;
      RunEntities(session, entities);
      RunUpdates(session, updates);
      session.totalCostUsd := session.totalCostUsd + costUsd;
      session.turnCount := (session.turnCount + if turnDelta > 0 then turnDelta else 0) % U32_RANGE;
    }

    /** `apply_turn_result`: one loop over the entities, one over the updates, then the counters. */
    method ApplyTurn(id: Option<Uuid>, entities: seq<ExtractedEntity>, updates: seq<AcUpdate>, costUsd: real, turnDelta: int)
      returns (response: Response)
      requires Valid()
      modifies sessions.Values
      ensures Valid()
      ensures (View(), response) == Handle(old(View()), ApplyTurnResult(id, entities, updates, costUsd, turnDelta))
    {
      hide TurnApplied, Outcome;
      if id.None? {
        return InvalidArgument;
      }
      if id.value !in sessions {
        return NotFound;
      }
      var session := sessions[id.value];
      ghost var was := session.State();
      RunTurn(session, entities, updates, costUsd, turnDelta);
      assert View() == old(View())[id.value := TurnApplied(was, entities, updates, costUsd, turnDelta)];
      response := Outcome(session.State());
    }

    /** `request_transition`. */
    method Transition(id: Option<Uuid>, target: Option<SessionPhase>) returns (response: Response)
      requires Valid()
      modifies sessions.Values
      ensures Valid()
      ensures (View(), response) == Handle(old(View()), RequestTransition(id, target))
    {
      if id.None? || target.None? {
        return InvalidArgument;
      }
      if id.value !in sessions {
        return NotFound;
      }
      var session := sessions[id.value];
      ghost var was := session.State();
      var attempt := Attempt(session.State(), target.value);
      match attempt {
        case Ok(_) =>
          session.currentPhase := target.value;
          response := TransitionOutcome(None, target.value);
          assert View() == old(View())[id.value := was.(currentPhase := target.value)];
        case Err(error) =>
          response := TransitionOutcome(Some(error), session.currentPhase);
          assert View() == old(View())[id.value := was];
      }
    }

    /** `revisit_phase`. */
    method Revisit(id: Option<Uuid>, target: Option<SessionPhase>) returns (response: Response)
      requires Valid()
      modifies sessions.Values
      ensures Valid()
      ensures (View(), response) == Handle(old(View()), RevisitPhase(id, target))
    {
      if id.None? || target.None? {
        return InvalidArgument;
      }
      if id.value !in sessions {
        return NotFound;
      }
      var session := sessions[id.value];
      ghost var was := session.State();
      var ok := session.Revisit(target.value);
      response := RevisitOutcome(ok, session.currentPhase);
      assert View() == old(View())[id.value := session.State()];
    }
  }
}
