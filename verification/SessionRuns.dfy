/** Whole runs of the state engine: requests interleaved with whatever else writes a session's other fields. */
module SessionRuns {
  import opened Wrappers
  import opened Phases
  import opened Sessions
  import opened AcEvaluators
  import opened Transitions
  import opened StateEngines

  /**
   `Edit` is the environment: artifact generation, uploads, signature, waivers. It may rewrite
   every field but the phase, the revisit target and the revisit history.
   */
  datatype Step =
    | Rpc(request: Request)
    | Edit(id: Uuid, inputs: Inputs, captured: Captured, ac: AcLists, totalCostUsd: real, turnCount: nat)

  function Next(store: Store, step: Step): Store
  {
    match step
    case Rpc(request) => Handle(store, request).0
    case Edit(id, inputs, captured, ac, cost, turns) =>
      if id !in store then store
      else store[id := store[id].(inputs := inputs, captured := captured, ac := ac, totalCostUsd := cost, turnCount := turns)]
  }

  function Run(steps: seq<Step>): Store
    decreases |steps|
  {
    if steps == [] then map[] else Next(Run(steps[..|steps| - 1]), steps[|steps| - 1])
  }

  /** What happened to a session's phase, as the responses tell it. */
  datatype Event = Approved(from: SessionPhase, to: SessionPhase) | WentBack(from: SessionPhase, to: SessionPhase)

  predicate Names(step: Step, id: Uuid)
  {
    match step
    case Rpc(request) => !request.CreateSession? && request.id == Some(id)
    case Edit(i, _, _, _, _, _) => i == id
  }

  predicate Restarts(step: Step, id: Uuid)
  {
    step.Rpc? && step.request.CreateSession? && Parses(step.request) && step.request.freshId == id
  }

  function EventsOf(store: Store, step: Step, id: Uuid): seq<Event>
  {
    if step.Rpc? && Names(step, id) && id in store then
      match Handle(store, step.request).1
      case TransitionOutcome(None, to) => [Approved(store[id].currentPhase, to)]
      case RevisitOutcome(true, to) => [WentBack(store[id].currentPhase, to)]
      case _ => []
    else []
  }

  /** The events of a session since it was last created. */
  function Log(steps: seq<Step>, id: Uuid): (log: seq<Event>)
    decreases |steps|
  {
    if steps == [] || Restarts(steps[|steps| - 1], id) then []
    else Log(steps[..|steps| - 1], id) + EventsOf(Run(steps[..|steps| - 1]), steps[|steps| - 1], id)
  }

  /** A run without the environment. */
  predicate RpcOnly(steps: seq<Step>)
  {
    forall i :: 0 <= i < |steps| ==> steps[i].Rpc?
  }

  // ------------------------------------------------------------------------
  // One step
  // ------------------------------------------------------------------------

  /** Only the session a step names, or creates, can change. */
  lemma {:induction false} OthersUntouched(store: Store, step: Step, id: Uuid)
    requires !Names(step, id) && !Restarts(step, id)
    ensures id in Next(store, step) <==> id in store
    ensures id in store ==> Next(store, step)[id] == store[id]
  {
    hide OnSession;
  }

  predicate SamePhase(s: SessionState, t: SessionState)
  {
    t.currentPhase == s.currentPhase && t.revisitTarget == s.revisitTarget && t.revisitHistory == s.revisitHistory
  }

  /** One step on a session is a creation, an approval, a revisit, or leaves phase and revisit fields alone. */
  predicate StepOn(s: SessionState, t: SessionState, events: seq<Event>)
  {
    || (events == [] && SamePhase(s, t))
    || (exists to :: events == [Approved(s.currentPhase, to)] && Attempt(s, to).Ok? && t == s.(currentPhase := to))
    || (exists to :: events == [WentBack(s.currentPhase, to)] && RevisitAllowed(s.currentPhase, to) && t == Revisited(s, to))
  }

  lemma OnSessionSteps(s: SessionState, req: Request)
    requires !req.CreateSession? && Parses(req)
    ensures var r := OnSession(s, req);
            match r.1
            case TransitionOutcome(None, to) => Attempt(s, to).Ok? && r.0 == s.(currentPhase := to)
            case RevisitOutcome(true, to) => RevisitAllowed(s.currentPhase, to) && r.0 == Revisited(s, to)
            case _ => SamePhase(s, r.0)
  {
    hide Attempt, RevisitAllowed, Revisited;
    match req
    case GetSessionState(_) =>
    case ApplyTurnResult(_, es, us, cost, delta) =>
    case RequestTransition(_, target) =>
      assert target == Some(target.value);
    case RevisitPhase(_, target) =>
      assert target == Some(target.value);
  }

  lemma {:induction false} StepCharacterised(store: Store, step: Step, id: Uuid)
    requires id in Next(store, step)
    ensures Restarts(step, id) ==> Next(store, step)[id] == NEW_STATE
    ensures !Restarts(step, id) ==> id in store && StepOn(store[id], Next(store, step)[id], EventsOf(store, step, id))
  {
    hide OnSession, Attempt, RevisitAllowed, Revisited;
    if !Restarts(step, id) {
      if Names(step, id) {
        if step.Rpc? && id in store && Parses(step.request) {
          OnSessionSteps(store[id], step.request);
        }
      } else {
        OthersUntouched(store, step, id);
      }
    }
  }

  // ------------------------------------------------------------------------
  // The log of a run
  // ------------------------------------------------------------------------

  function Revisits(log: seq<Event>): (h: seq<RevisitRecord>)
    ensures |h| <= |log|
    decreases |log|
  {
    if log == [] then []
    else
      var init, last := log[..|log| - 1], log[|log| - 1];
      Revisits(init) + if last.WentBack? then [RevisitRecord(last.from, last.to)] else []
  }

  function Approvals(log: seq<Event>): nat
    decreases |log|
  {
    if log == [] then 0 else Approvals(log[..|log| - 1]) + if log[|log| - 1].Approved? then 1 else 0
  }

  /** The events lead from problem intake to `p`, each from where the one before ended; approvals go one phase forward. */
  predicate LeadsTo(log: seq<Event>, p: SessionPhase)
    decreases |log|
  {
    if log == [] then p == ProblemIntake
    else
      var last := log[|log| - 1];
      && last.to == p
      && (last.Approved? ==> Index(p) == Index(last.from) + 1)
      && (last.WentBack? ==> RevisitAllowed(last.from, p))
      && LeadsTo(log[..|log| - 1], last.from)
  }

  predicate LogTellsState(s: SessionState, log: seq<Event>)
  {
    && LeadsTo(log, s.currentPhase)
    && s.revisitHistory == Revisits(log)
    && s.revisitTarget == (if s.revisitHistory == [] then None else Some(s.revisitHistory[|s.revisitHistory| - 1].toPhase))
  }

  lemma LogAppend(log: seq<Event>, e: Event)
    ensures (log + [e])[..|log + [e]| - 1] == log && (log + [e])[|log + [e]| - 1] == e
  {
  }

  lemma LogStep(s: SessionState, t: SessionState, log: seq<Event>, events: seq<Event>)
    requires LogTellsState(s, log) && StepOn(s, t, events)
    ensures LogTellsState(t, log + events)
  {
    hide Attempt, RevisitAllowed, Ready;
    if events == [] {
      assert log + events == log;
    } else {
      var e := events[0];
      LogAppend(log, e);
      if e.Approved? {
        ApprovedIff(s, e.to);
      }
    }
  }

  /** In every run the log alone gives a session's phase, its revisit history and its revisit target. */
  lemma {:induction false} LogTellsAll(steps: seq<Step>, id: Uuid)
    requires id in Run(steps)
    ensures LogTellsState(Run(steps)[id], Log(steps, id))
    decreases |steps|
  {
    hide Next, LogTellsState, StepOn, EventsOf;
    var init, step := steps[..|steps| - 1], steps[|steps| - 1];
    StepCharacterised(Run(init), step, id);
    if Restarts(step, id) {
      LogOfNew();
    } else {
      LogTellsAll(init, id);
      LogStep(Run(init)[id], Run(steps)[id], Log(init, id), EventsOf(Run(init), step, id));
    }
  }

  lemma LogOfNew()
    ensures LogTellsState(NEW_STATE, [])
  {
  }

  // ------------------------------------------------------------------------
  // Phase conservation
  // ------------------------------------------------------------------------

  /** The phases gained, or lost, by revisits. */
  function Shift(history: seq<RevisitRecord>): int
    decreases |history|
  {
    if history == [] then 0
    else
      var r := history[|history| - 1];
      Shift(history[..|history| - 1]) + Index(r.toPhase) - Index(r.fromPhase)
  }

  /** The approvals before the j-th revisit; all of them when there is no j-th revisit. */
  function ApprovalsBefore(log: seq<Event>, j: nat): (n: nat)
    decreases |log|
  {
    if log == [] then 0
    else
      var init := log[..|log| - 1];
      ApprovalsBefore(init, j) + if log[|log| - 1].Approved? && |Revisits(init)| <= j then 1 else 0
  }

  lemma {:induction false} IndexOfLog(log: seq<Event>, p: SessionPhase)
    requires LeadsTo(log, p)
    ensures Index(p) == Approvals(log) + Shift(Revisits(log))
    decreases |log|
  {
    if log != [] {
      var init, last := log[..|log| - 1], log[|log| - 1];
      IndexOfLog(init, last.from);
      if last.WentBack? {
        assert Revisits(log)[..|Revisits(log)| - 1] == Revisits(init);
      } else {
        assert Revisits(log) == Revisits(init);
      }
    }
  }

  /** The same balance at every revisit: where it started, from the approvals and revisits before it. */
  lemma {:induction false} IndexAtRevisit(log: seq<Event>, p: SessionPhase, j: nat)
    requires LeadsTo(log, p) && j < |Revisits(log)|
    ensures Index(Revisits(log)[j].fromPhase) == ApprovalsBefore(log, j) + Shift(Revisits(log)[..j])
    decreases |log|
  {
    var init, last := log[..|log| - 1], log[|log| - 1];
    var h, k := Revisits(init), |Revisits(init)|;
    if j < k {
      IndexAtRevisit(init, last.from, j);
      assert Revisits(log)[..j] == h[..j];
    } else {
      IndexOfLog(init, last.from);
      AllBefore(init, j);
      assert Revisits(log)[..j] == h;
    }
  }

  lemma {:induction false} AllBefore(log: seq<Event>, j: nat)
    requires |Revisits(log)| <= j
    ensures ApprovalsBefore(log, j) == Approvals(log)
    decreases |log|
  {
    if log != [] {
      AllBefore(log[..|log| - 1], j);
    }
  }

  lemma {:induction false} BeforeGrows(log: seq<Event>, j: nat)
    ensures ApprovalsBefore(log, j) <= ApprovalsBefore(log, j + 1)
    decreases |log|
  {
    if log != [] {
      BeforeGrows(log[..|log| - 1], j);
    }
  }

  /**
   In every run, for every session: the phase index is the number of approved transitions
   plus what the recorded revisits gained or lost; the record of revisits is complete; the
   revisit target is the last record's.
   */
  lemma {:induction false} PhaseConservation(steps: seq<Step>, id: Uuid)
    requires id in Run(steps)
    ensures var s := Run(steps)[id];
            && Index(s.currentPhase) == Approvals(Log(steps, id)) + Shift(s.revisitHistory)
            && s.revisitHistory == Revisits(Log(steps, id))
            && s.revisitTarget == (if s.revisitHistory == [] then None else Some(s.revisitHistory[|s.revisitHistory| - 1].toPhase))
  {
    LogTellsAll(steps, id);
    IndexOfLog(Log(steps, id), Run(steps)[id].currentPhase);
  }

  /**
   Between one revisit and the next the phase only rises, by exactly the approvals between
   them; before the first it rises from problem intake, after the last up to the current phase.
   */
  lemma {:induction false} GapsAreApprovals(steps: seq<Step>, id: Uuid, j: nat)
    requires id in Run(steps) && j <= |Run(steps)[id].revisitHistory|
    ensures var s, log := Run(steps)[id], Log(steps, id);
            var h := s.revisitHistory;
            var left := if j == 0 then 0 else Index(h[j - 1].toPhase);
            var before := if j == 0 then 0 else ApprovalsBefore(log, j - 1);
            var reached := if j < |h| then Index(h[j].fromPhase) else Index(s.currentPhase);
            reached - left == ApprovalsBefore(log, j) - before >= 0
  {
    var s, log := Run(steps)[id], Log(steps, id);
    var h := s.revisitHistory;
    LogTellsAll(steps, id);
    if j < |h| {
      IndexAtRevisit(log, s.currentPhase, j);
    } else {
      IndexOfLog(log, s.currentPhase);
      AllBefore(log, j);
      assert h[..j] == h;
    }
    if j > 0 {
      IndexAtRevisit(log, s.currentPhase, j - 1);
      BeforeGrows(log, j - 1);
      assert h[..j][..j - 1] == h[..j - 1];
    }
  }

  // ------------------------------------------------------------------------
  // Revisits that go forward
  // ------------------------------------------------------------------------

  predicate NoneForward(history: seq<RevisitRecord>)
  {
    forall i :: 0 <= i < |history| ==> !GoesForward(history[i].fromPhase, history[i].toPhase)
  }

  lemma {:induction false} BackwardLog(log: seq<Event>, p: SessionPhase)
    requires LeadsTo(log, p) && NoneForward(Revisits(log))
    ensures Index(p) + |Revisits(log)| <= Approvals(log)
    decreases |log|
  {
    if log != [] {
      var init, last := log[..|log| - 1], log[|log| - 1];
      var h := Revisits(log);
      assert forall i :: 0 <= i < |Revisits(init)| ==> h[i] == Revisits(init)[i];
      BackwardLog(init, last.from);
      if last.WentBack? {
        assert h[|h| - 1] == RevisitRecord(last.from, last.to);
        assert Index(last.to) < Index(last.from);
      }
    }
  }

  /**
   A session whose recorded revisits all went back has paid for its phase, and for every
   revisit, with approvals; one that has fewer approvals records a revisit that went forward.
   */
  lemma {:induction false} PhasesArePaidUnlessForward(steps: seq<Step>, id: Uuid)
    requires id in Run(steps)
    ensures var s := Run(steps)[id];
            NoneForward(s.revisitHistory) ==> Index(s.currentPhase) + |s.revisitHistory| <= Approvals(Log(steps, id))
  {
    LogTellsAll(steps, id);
    if NoneForward(Run(steps)[id].revisitHistory) {
      BackwardLog(Log(steps, id), Run(steps)[id].currentPhase);
    }
  }

  /** A session leaves SignedOff only by a revisit that is recorded, or by being created anew under its id. */
  lemma {:induction false} SignedOffLeftOnlyByRevisit(store: Store, step: Step, id: Uuid)
    requires id in store && store[id].currentPhase == SignedOff
    requires id !in Next(store, step) || Next(store, step)[id].currentPhase != SignedOff
    ensures id in Next(store, step)
    ensures !Restarts(step, id) ==>
              && step.Rpc? && step.request.RevisitPhase? && step.request.id == Some(id) && step.request.target.Some?
              && Next(store, step)[id] == Revisited(store[id], step.request.target.value)
  {
    hide Attempt, Revisited;
    if !Restarts(step, id) {
      if Names(step, id) {
        if step.Rpc? {
          NoApprovalFromSignedOff(store[id], step.request);
        }
      } else {
        OthersUntouched(store, step, id);
      }
    }
  }

  lemma NoApprovalFromSignedOff(s: SessionState, req: Request)
    requires s.currentPhase == SignedOff && Parses(req)
    ensures !req.RevisitPhase? ==> OnSession(s, req).0.currentPhase == SignedOff
    ensures req.RevisitPhase? ==> OnSession(s, req).0 in {s, Revisited(s, req.target.value)}
  {
  }

  // ------------------------------------------------------------------------
  // Cost and turn accounting
  // ------------------------------------------------------------------------

  /** The turn result a step brings for `id`, if any: its cost and its non-negative count of turns. */
  function TurnOf(step: Step, id: Uuid): (real, nat)
  {
    if step.Rpc? && step.request.ApplyTurnResult? && step.request.id == Some(id)
    then (step.request.costUsd, if step.request.turnDelta > 0 then step.request.turnDelta else 0)
    else (0.0, 0)
  }

  /** Summed over all steps since the session was last created. */
  function TurnsSince(steps: seq<Step>, id: Uuid): (real, nat)
    decreases |steps|
  {
    if steps == [] || Restarts(steps[|steps| - 1], id) then (0.0, 0)
    else if id !in Run(steps[..|steps| - 1]) then TurnsSince(steps[..|steps| - 1], id)
    else
      var before, turn := TurnsSince(steps[..|steps| - 1], id), TurnOf(steps[|steps| - 1], id);
      (before.0 + turn.0, before.1 + turn.1)
  }

  lemma AddModulo(a: nat, b: nat)
    ensures (a % U32_RANGE + b) % U32_RANGE == (a + b) % U32_RANGE
  {
  }

  predicate Accounted(s: SessionState, turns: (real, nat))
  {
    s.totalCostUsd == turns.0 && s.turnCount == turns.1 % U32_RANGE
  }

  lemma TurnAccounts(s: SessionState, es: seq<ExtractedEntity>, us: seq<AcUpdate>, cost: real, delta: int, before: (real, nat))
    requires Accounted(s, before)
    ensures Accounted(TurnApplied(s, es, us, cost, delta), (before.0 + cost, before.1 + if delta > 0 then delta else 0))
  {
    hide CaptureAll, ApplyUpdates;
    AddModulo(before.1, if delta > 0 then delta else 0);
  }

  lemma RequestAccounts(s: SessionState, req: Request, id: Uuid, before: (real, nat))
    requires Accounted(s, before) && !req.CreateSession? && req.id == Some(id)
    ensures var turn := TurnOf(Rpc(req), id); Accounted(OnSession(s, req).0, (before.0 + turn.0, before.1 + turn.1))
  {
    hide Attempt, TurnApplied, Accounted, RevisitAllowed;
    if req.ApplyTurnResult? {
      TurnAccounts(s, req.entities, req.updates, req.costUsd, req.turnDelta, before);
    } else {
      SameAccounts(s, OnSession(s, req).0, before);
    }
  }

  lemma SameAccounts(s: SessionState, t: SessionState, turns: (real, nat))
    requires Accounted(s, turns) && t.totalCostUsd == s.totalCostUsd && t.turnCount == s.turnCount
    ensures Accounted(t, (turns.0 + 0.0, turns.1 + 0))
  {
  }

  /** In runs of the requests alone a session's cost is the sum of the costs of its turns, and its turn count their number modulo 2^32. */
  lemma {:induction false} CostsAddUp(steps: seq<Step>, id: Uuid)
    requires RpcOnly(steps) && id in Run(steps)
    ensures Run(steps)[id].totalCostUsd == TurnsSince(steps, id).0
    ensures Run(steps)[id].turnCount == TurnsSince(steps, id).1 % U32_RANGE
    decreases |steps|
  {
    hide OnSession;
    var init, step := steps[..|steps| - 1], steps[|steps| - 1];
    StepCharacterised(Run(init), step, id);
    if !Restarts(step, id) {
      CostsAddUp(init, id);
      var before := TurnsSince(init, id);
      if Names(step, id) {
        RequestAccounts(Run(init)[id], step.request, id, before);
      } else {
        OthersUntouched(Run(init), step, id);
      }
    }
  }
}
