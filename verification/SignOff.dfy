/** What it takes to reach SignedOff, with the environment and without it. */
module SignOff {
  import opened Wrappers
  import opened Sequences
  import opened Phases
  import opened AcceptanceCriteria
  import opened Sessions
  import opened AcEvaluators
  import opened ReadyConditions
  import opened Transitions
  import opened SessionUpdates
  import opened StateEngines
  import opened SessionRuns

  // ------------------------------------------------------------------------
  // The evidence behind every sign-off
  // ------------------------------------------------------------------------

  /** What a session must show when it is signed off. */
  predicate ReadyToSign(s: SessionState)
  {
    && s.currentPhase == ReviewAndSignOff
    && s.inputs.brdArtifactId != None && s.inputs.hldArtifactId != None && s.inputs.clientSignatureConfirmed
    && (s.inputs.regulatoryContext == None || s.inputs.regulatoryContext == Some("") || s.inputs.documentsIndexed != [])
    && "AC-S6-04" in s.ac.met + s.ac.waived
    && "AC-S6-05" in s.ac.met + s.ac.waived
  }

  predicate AtPhase(steps: seq<Step>, id: Uuid, p: SessionPhase)
  {
    id in Run(steps) && Run(steps)[id].currentPhase == p
  }

  /** Step k signed the session off, rightly, and it has been signed off since. */
  predicate SignedOffAt(steps: seq<Step>, id: Uuid, k: nat)
  {
    && k < |steps|
    && steps[k] == Rpc(RequestTransition(Some(id), Some(SignedOff)))
    && id in Run(steps[..k]) && ReadyToSign(Run(steps[..k])[id])
    && forall m :: k < m <= |steps| ==> AtPhase(steps[..m], id, SignedOff)
  }

  lemma {:induction false} ApprovalIntoSignedOff(s: SessionState)
    requires Attempt(s, SignedOff).Ok?
    ensures ReadyToSign(s)
  {
    hide Attempt, Ready;
    ApprovedIff(s, SignedOff);
    IndexIsPlace(s.currentPhase);
    ReviewIff(s);
  }

  lemma OnlyApprovalEnters(s: SessionState, req: Request)
    requires s.currentPhase != SignedOff && OnSession(s, req).0.currentPhase == SignedOff
    ensures req.RequestTransition? && req.target == Some(SignedOff) && Attempt(s, SignedOff).Ok?
  {
    hide Attempt;
  }

  /** A step into SignedOff is an approved request to go there, with the evidence at hand. */
  lemma {:induction false} EntryNeedsEvidence(store: Store, step: Step, id: Uuid)
    requires id in Next(store, step) && Next(store, step)[id].currentPhase == SignedOff
    requires !(id in store && store[id].currentPhase == SignedOff)
    ensures step == Rpc(RequestTransition(Some(id), Some(SignedOff)))
    ensures id in store && ReadyToSign(store[id])
  {
    hide OnSession, ReadyToSign;
    if Names(step, id) {
      if step.Rpc? && id in store && Parses(step.request) {
        OnlyApprovalEnters(store[id], step.request);
        ApprovalIntoSignedOff(store[id]);
      }
    } else if !Restarts(step, id) {
      OthersUntouched(store, step, id);
    }
  }

  lemma SignedOffLater(steps: seq<Step>, id: Uuid, k: nat)
    requires steps != [] && SignedOffAt(steps[..|steps| - 1], id, k) && AtPhase(steps, id, SignedOff)
    ensures SignedOffAt(steps, id, k)
  {
    hide Run, ReadyToSign;
    var init := steps[..|steps| - 1];
    assert init[..k] == steps[..k];
    forall m | k < m <= |steps| ensures AtPhase(steps[..m], id, SignedOff) {
      if m == |steps| {
        assert steps[..m] == steps;
      } else {
        assert init[..m] == steps[..m];
      }
    }
  }

  /** Behind every signed-off session of every run stands one moment at which it was signed off with all the evidence. */
  lemma {:induction false} SignOffEvidence(steps: seq<Step>, id: Uuid)
    requires AtPhase(steps, id, SignedOff)
    ensures exists k :: SignedOffAt(steps, id, k)
    decreases |steps|
  {
    hide Next, ReadyToSign;
    var k := |steps| - 1;
    var init := steps[..k];
    if AtPhase(init, id, SignedOff) {
      SignOffEvidence(init, id);
      var j :| SignedOffAt(init, id, j);
      SignedOffLater(steps, id, j);
    } else {
      EntryNeedsEvidence(Run(init), steps[k], id);
      assert steps[..|steps|] == steps;
      assert SignedOffAt(steps, id, k);
    }
  }

  // ------------------------------------------------------------------------
  // The requests alone
  // ------------------------------------------------------------------------

  /** What no request ever changes. */
  predicate Bare(s: SessionState)
  {
    && s.inputs == NO_INPUTS
    && s.ac.waived == []
    && s.currentPhase != SignedOff
    && forall i :: 0 <= i < |s.captured.requirements| ==> s.captured.requirements[i].actorId.None?
  }

  predicate NoApproval(r: Response)
  {
    !(r.TransitionOutcome? && r.error.None?)
  }

  lemma BareNeverApproved(s: SessionState, target: SessionPhase)
    requires Bare(s)
    ensures Attempt(s, target).Err?
  {
    hide Attempt;
    ApprovedIff(s, target);
  }

  lemma BareAfterTurn(s: SessionState, es: seq<ExtractedEntity>, us: seq<AcUpdate>, cost: real, delta: int)
    requires Bare(s)
    ensures Bare(TurnApplied(s, es, us, cost, delta))
  {
    hide CaptureAll, ApplyUpdates, ActorFromValue, ConstraintFromValue, AddAllOnce;
    CaptureFactors(s.captured, es);
    WaivedAfterUpdates(s.ac, us);
    var values := ValuesOf(es, "requirement");
    var rs := CaptureAll(s.captured, es).requirements;
    assert rs == s.captured.requirements + Mapped(values, RequirementFromValue);
    forall i | 0 <= i < |rs| ensures rs[i].actorId.None? {
      assert i >= |s.captured.requirements| ==> rs[i] == RequirementFromValue(values[i - |s.captured.requirements|]);
    }
  }

  lemma {:induction false} RequestKeepsBare(s: SessionState, req: Request)
    requires Bare(s) && Parses(req)
    ensures Bare(OnSession(s, req).0) && NoApproval(OnSession(s, req).1)
  {
    hide Bare, TurnApplied, Attempt;
    match req
    case ApplyTurnResult(_, es, us, cost, delta) =>
      BareAfterTurn(s, es, us, cost, delta);
    case RequestTransition(_, target) =>
      BareNeverApproved(s, target.value);
    case RevisitPhase(_, target) =>
      assert target == Some(target.value);
      BareAfterRevisit(s, target.value);
    case _ =>
  }

  lemma BareAfterRevisit(s: SessionState, target: SessionPhase)
    requires Bare(s)
    ensures RevisitAllowed(s.currentPhase, target) ==> Bare(Revisited(s, target))
  {
  }

  lemma BareNew()
    ensures Bare(NEW_STATE)
  {
  }

  lemma {:induction false} HandleKeepsBare(store: Store, req: Request)
    requires forall id :: id in store ==> Bare(store[id])
    ensures NoApproval(Handle(store, req).1)
    ensures forall id :: id in Handle(store, req).0 ==> Bare(Handle(store, req).0[id])
  {
    hide Bare, OnSession;
    BareNew();
    if Parses(req) && !req.CreateSession? && req.id.value in store {
      RequestKeepsBare(store[req.id.value], req);
    }
  }

  lemma {:induction false} RpcRunsStayBare(steps: seq<Step>, id: Uuid)
    requires RpcOnly(steps)
    ensures forall i :: i in Run(steps) ==> Bare(Run(steps)[i])
    ensures Approvals(Log(steps, id)) == 0
    decreases |steps|
  {
    hide Bare, Handle;
    if steps != [] {
      var init, step := steps[..|steps| - 1], steps[|steps| - 1];
      RpcRunsStayBare(init, id);
      HandleKeepsBare(Run(init), step.request);
      NoApprovalEvents(Log(init, id), EventsOf(Run(init), step, id));
    }
  }

  lemma NoApprovalEvents(log: seq<Event>, events: seq<Event>)
    requires |events| <= 1 && (events != [] ==> events[0].WentBack?)
    ensures Approvals(log + events) == Approvals(log)
  {
    if events == [] {
      assert log + events == log;
    } else {
      assert (log + events)[..|log + events| - 1] == log;
    }
  }

  /** The records form one chain from problem intake to `p`. */
  predicate Linked(h: seq<RevisitRecord>, p: SessionPhase)
  {
    if h == [] then p == ProblemIntake
    else
      && h[0].fromPhase == ProblemIntake
      && h[|h| - 1].toPhase == p
      && forall i :: 0 <= i < |h| - 1 ==> h[i].toPhase == h[i + 1].fromPhase
  }

  lemma {:induction false} RevisitsLink(log: seq<Event>, p: SessionPhase)
    requires LeadsTo(log, p) && Approvals(log) == 0
    ensures Linked(Revisits(log), p)
    decreases |log|
  {
    if log != [] {
      var init, last := log[..|log| - 1], log[|log| - 1];
      RevisitsLink(init, last.from);
      assert Revisits(log) == Revisits(init) + [RevisitRecord(last.from, last.to)];
    }
  }

  /**
   In runs of the requests alone no transition is approved, no session is signed off, the
   other inputs stay empty, and the revisit history is a chain from problem intake to the
   current phase.
   */
  lemma {:induction false} RequestsAloneNeverAdvance(steps: seq<Step>, id: Uuid)
    requires RpcOnly(steps)
    ensures forall k :: 0 <= k < |steps| ==> NoApproval(Handle(Run(steps[..k]), steps[k].request).1)
    ensures id in Run(steps) ==> Bare(Run(steps)[id]) && Linked(Run(steps)[id].revisitHistory, Run(steps)[id].currentPhase)
  {
    hide Bare, Handle, Linked;
    forall k | 0 <= k < |steps| ensures NoApproval(Handle(Run(steps[..k]), steps[k].request).1) {
      RpcRunsStayBare(steps[..k], id);
      HandleKeepsBare(Run(steps[..k]), steps[k].request);
    }
    RpcRunsStayBare(steps, id);
    if id in Run(steps) {
      LogTellsAll(steps, id);
      RevisitsLink(Log(steps, id), Run(steps)[id].currentPhase);
    }
  }

  lemma {:induction false} FirstRevisit(log: seq<Event>, p: SessionPhase)
    requires LeadsTo(log, p) && Approvals(log) == 0 && Revisits(log) != []
    ensures Revisits(log)[0].fromPhase == ProblemIntake != Revisits(log)[0].toPhase
    decreases |log|
  {
    var init, last := log[..|log| - 1], log[|log| - 1];
    RevisitsLink(log, p);
    if Revisits(init) != [] {
      FirstRevisit(init, last.from);
    }
  }

  /** In runs of the requests alone the first revisit of a session always goes forward. */
  lemma {:induction false} RequestsAloneJumpForward(steps: seq<Step>, id: Uuid)
    requires RpcOnly(steps) && id in Run(steps) && Run(steps)[id].revisitHistory != []
    ensures var r := Run(steps)[id].revisitHistory[0]; GoesForward(r.fromPhase, r.toPhase)
  {
    hide Run, LeadsTo, Revisits, Approvals, Log, RpcOnly;
    RpcRunsStayBare(steps, id);
    LogTellsAll(steps, id);
    FirstRevisit(Log(steps, id), Run(steps)[id].currentPhase);
  }

  // ------------------------------------------------------------------------
  // What can be reached
  // ------------------------------------------------------------------------

  ghost predicate RpcReachable(p: SessionPhase)
  {
    exists steps, id :: RpcOnly(steps) && AtPhase(steps, id, p)
  }

  ghost predicate Reachable(p: SessionPhase)
  {
    exists steps, id :: AtPhase(steps, id, p)
  }

  const CREATE := Rpc(CreateSession(Some(0), Some(0), 0))

  lemma RunOfOne(step: Step)
    ensures Run([step]) == Next(map[], step)
  {
    assert [step][..|[step]| - 1] == [];
  }

  lemma RunAppend(steps: seq<Step>, step: Step)
    ensures Run(steps + [step]) == Next(Run(steps), step)
  {
    assert (steps + [step])[..|steps + [step]| - 1] == steps;
  }

  /** The requests alone reach every phase but SignedOff, the later ones by revisits that jump forward. */
  lemma {:induction false} RpcReachableIff(p: SessionPhase)
    ensures RpcReachable(p) <==> p != SignedOff
  {
    RunOfOne(CREATE);
    if p == SignedOff {
      forall steps, id | RpcOnly(steps) && AtPhase(steps, id, p) ensures false {
        RpcRunsStayBare(steps, id);
      }
    } else if p == ProblemIntake {
      assert RpcOnly([CREATE]) && AtPhase([CREATE], 0, p);
    } else {
      var jump := Rpc(RevisitPhase(Some(0), Some(p)));
      RunAppend([CREATE], jump);
      assert RpcOnly([CREATE] + [jump]) && AtPhase([CREATE] + [jump], 0, p);
    }
  }

  const FULL_INPUTS := NO_INPUTS.(brdArtifactId := Some(1), hldArtifactId := Some(2), clientSignatureConfirmed := true)

  /** The environment prepares a session: artifacts, signature, and the mandatory criteria of its phase confirmed. */
  function Prepare(id: Uuid, s: SessionState): Step
    requires s.currentPhase != SignedOff
  {
    var checks := ChecksOf(s.currentPhase, s);
    Edit(id, FULL_INPUTS, s.captured,
         AcLists([checks[0].id, checks[1].id, checks[2].id, checks[3].id, checks[4].id], []), s.totalCostUsd, s.turnCount)
  }

  lemma IdsOfPhase(p: SessionPhase, s: SessionState, t: SessionState)
    ensures |ChecksOf(p, s)| == |ChecksOf(p, t)| && (p != SignedOff ==> |ChecksOf(p, s)| >= 5)
    ensures forall i :: 0 <= i < |ChecksOf(p, s)| ==> ChecksOf(p, s)[i].id == ChecksOf(p, t)[i].id
  {
  }

  lemma PreparedIsReady(s: SessionState, t: SessionState)
    requires s.currentPhase == t.currentPhase != SignedOff && t.ac == Prepare(0, s).ac
    ensures Ready(t)
  {
    hide ChecksOf;
    IdsOfPhase(s.currentPhase, s, s);
    IdsOfPhase(s.currentPhase, s, t);
    assert forall i :: 0 <= i < 5 ==> ChecksOf(s.currentPhase, s)[i].id in t.ac.met;
    ReadyIffCovered(t.currentPhase, t);
  }

  lemma PreparedIsApproved(s: SessionState, target: SessionPhase)
    requires s.currentPhase != SignedOff && Index(target) == Index(s.currentPhase) + 1
    ensures var e := Prepare(0, s); Attempt(s.(inputs := e.inputs, captured := e.captured, ac := e.ac), target).Ok?
  {
    hide ChecksOf, Attempt, Ready;
    IdsOfPhase(s.currentPhase, s, s);
    var e := Prepare(0, s);
    var t := s.(inputs := e.inputs, captured := e.captured, ac := e.ac);
    PreparedIsReady(s, t);
    ApprovedIff(t, target);
  }

  /** With the environment's help every phase can be reached, SignedOff included. */
  lemma {:induction false} EveryPhaseReachable(p: SessionPhase)
    ensures Reachable(p)
    decreases Index(p)
  {
    hide Attempt, Prepare;
    if p == ProblemIntake {
      RunOfOne(CREATE);
      assert AtPhase([CREATE], 0, p);
    } else {
      var q: SessionPhase :| Index(q) + 1 == Index(p);
      EveryPhaseReachable(q);
      var steps, id :| AtPhase(steps, id, q);
      ReachNext(steps, id, p);
    }
  }

  lemma ReachNext(steps: seq<Step>, id: Uuid, p: SessionPhase)
    requires id in Run(steps) && Index(p) == Index(Run(steps)[id].currentPhase) + 1
    ensures Reachable(p)
  {
    hide Attempt, ChecksOf;
    var s := Run(steps)[id];
    var prepared := steps + [Prepare(id, s)];
    RunAppend(steps, Prepare(id, s));
    var asked := prepared + [Rpc(RequestTransition(Some(id), Some(p)))];
    RunAppend(prepared, Rpc(RequestTransition(Some(id), Some(p))));
    PreparedIsApproved(s, p);
    assert AtPhase(asked, id, p);
  }

  lemma SignedOffByApproval(log: seq<Event>)
    requires LeadsTo(log, SignedOff)
    ensures Approvals(log) >= 1
  {
  }

  /** A signed-off session shows at least one approval, and at least six if no revisit of its went forward. */
  lemma {:induction false} SignOffTakesApprovals(steps: seq<Step>, id: Uuid)
    requires AtPhase(steps, id, SignedOff)
    ensures Approvals(Log(steps, id)) >= 1
    ensures NoneForward(Run(steps)[id].revisitHistory) ==> Approvals(Log(steps, id)) >= 6 + |Run(steps)[id].revisitHistory|
  {
    hide Run, LeadsTo, Revisits, Approvals, Log, NoneForward;
    LogTellsAll(steps, id);
    SignedOffByApproval(Log(steps, id));
    PhasesArePaidUnlessForward(steps, id);
  }

  ghost predicate SignedOffAfter(steps: seq<Step>, id: Uuid, approvals: nat)
  {
    AtPhase(steps, id, SignedOff) && Approvals(Log(steps, id)) == approvals
  }

  /** One is enough: a revisit forward to review skips the criteria of the five phases before it. */
  lemma {:induction false} OneApprovalCanSuffice()
    ensures exists steps, id :: SignedOffAfter(steps, id, 1)
  {
    hide Attempt, ChecksOf;
    var jump := Rpc(RevisitPhase(Some(0), Some(ReviewAndSignOff)));
    RunOfOne(CREATE);
    RunAppend([CREATE], jump);
    var jumped := [CREATE] + [jump];
    var s := Run(jumped)[0];
    var prepared := jumped + [Prepare(0, s)];
    RunAppend(jumped, Prepare(0, s));
    var sign := Rpc(RequestTransition(Some(0), Some(SignedOff)));
    RunAppend(prepared, sign);
    PreparedIsApproved(s, SignedOff);
    var steps := prepared + [sign];
    assert AtPhase(steps, 0, SignedOff);
    LogTellsAll(steps, 0);
    IndexOfLog(Log(steps, 0), SignedOff);
    ShiftOfOne(ProblemIntake, ReviewAndSignOff);
    assert SignedOffAfter(steps, 0, 1);
  }

  lemma ShiftOfOne(fromPhase: SessionPhase, toPhase: SessionPhase)
    ensures Shift([RevisitRecord(fromPhase, toPhase)]) == Index(toPhase) - Index(fromPhase)
  {
    var r := RevisitRecord(fromPhase, toPhase);
    assert [r][..|[r]| - 1] == [];
  }
}
