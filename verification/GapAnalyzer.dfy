/** The deterministic next-question choice, and its agreement with the state engine's criteria. */
module GapAnalyzers {
  import opened Wrappers
  import opened Sequences
  import opened Phases
  import opened AcceptanceCriteria
  import opened Sessions
  import opened AcEvaluators

  datatype GapResult = GapResult(criterionId: string, priority: int, isTerminal: bool, unmetCount: int)

  const TERMINAL_GAP := GapResult("TERMINAL", 0, true, 0)

  /** The name of a phase in the serialised session. */
  function PhaseKey(p: SessionPhase): string
  {
    match p
    case ProblemIntake => "ProblemIntake"
    case StakeholderDiscovery => "StakeholderDiscovery"
    case RequirementElicitation => "RequirementElicitation"
    case ConstraintCapture => "ConstraintCapture"
    case ArchitectureAlignment => "ArchitectureAlignment"
    case ReviewAndSignOff => "ReviewAndSignOff"
    case SignedOff => "SignedOff"
  }

  /** The name of a phase in the message field beside the serialised session. */
  function DisplayName(p: SessionPhase): string
  {
    match p
    case ProblemIntake => "Problem Intake"
    case StakeholderDiscovery => "Stakeholder Discovery"
    case RequirementElicitation => "Requirement Elicitation"
    case ConstraintCapture => "Constraint Capture"
    case ArchitectureAlignment => "Architecture Alignment"
    case ReviewAndSignOff => "Review & Sign-Off"
    case SignedOff => "Signed Off"
  }

  /** The criterion ids of `_PHASE_AC_FALLBACKS.get(phase, [])`. */
  function Table(phase: string): seq<string>
  {
    if phase == "ProblemIntake" then ["AC-S1-01", "AC-S1-02", "AC-S1-03", "AC-S1-04", "AC-S1-05"]
    else if phase == "StakeholderDiscovery" then ["AC-S2-01", "AC-S2-02", "AC-S2-03", "AC-S2-04", "AC-S2-05"]
    else if phase == "RequirementElicitation" then ["AC-S3-01", "AC-S3-02", "AC-S3-03", "AC-S3-04", "AC-S3-05"]
    else if phase == "ConstraintCapture" then ["AC-S4-01", "AC-S4-02", "AC-S4-03", "AC-S4-04", "AC-S4-05"]
    else []
  }

  function Open(ac: AcLists): (r: string -> bool)
    ensures forall id :: r(id) <==> id !in ac.met && id !in ac.waived
  {
    (id: string) => id !in ac.met && id !in ac.waived
  }

  function Unmet(phase: string, ac: AcLists): seq<string>
  {
    Retain(Table(phase), Open(ac))
  }

  /** `_deterministic_fallback`. */
  function Fallback(phase: string, ac: AcLists): GapResult
  {
    var unmet := Unmet(phase, ac);
    if unmet == [] then TERMINAL_GAP else GapResult(unmet[0], 1, false, |unmet|)
  }

  // ------------------------------------------------------------------------
  // The guided interview
  // ------------------------------------------------------------------------

  /** The lists after n rounds of asking the fallback's question and recording its criterion as met. */
  function AfterRounds(phase: string, ac: AcLists, n: nat): AcLists
  {
    if n == 0 then ac
    else
      var before := AfterRounds(phase, ac, n - 1);
      var gap := Fallback(phase, before);
      if gap.isTerminal then before else ApplyUpdate(before, AcUpdate(gap.criterionId, true))
  }

  lemma TableDistinct(phase: string)
    ensures NoDuplicates(Table(phase))
  {
    var t := Table(phase);
    assert forall i :: 0 <= i < |t| ==> |t[i]| == 8 && t[i][7] == ['1', '2', '3', '4', '5'][i];
  }

  lemma MetCloses(ac: AcLists, asked: string, id: string)
    ensures Open(ApplyUpdate(ac, AcUpdate(asked, true)))(id) <==> Open(ac)(id) && id != asked
  {
  }

  /** A round settles the criterion it asked about and no other. */
  lemma {:induction false} RoundSettlesFirst(phase: string, ac: AcLists)
    requires Unmet(phase, ac) != []
    ensures Unmet(phase, ApplyUpdate(ac, AcUpdate(Unmet(phase, ac)[0], true))) == Unmet(phase, ac)[1..]
  {
    hide Table, ApplyUpdate, Retain, Open;
    TableDistinct(phase);
    var first := Unmet(phase, ac)[0];
    forall id | id in Table(phase)
      ensures Open(ApplyUpdate(ac, AcUpdate(first, true)))(id) <==> Open(ac)(id) && id != first
    {
      MetCloses(ac, first, id);
    }
    RetainWithoutFirst(Table(phase), Open(ac), Open(ApplyUpdate(ac, AcUpdate(first, true))));
  }

  lemma UnmetDistinct(phase: string, ac: AcLists)
    ensures NoDuplicates(Unmet(phase, ac))
  {
    hide Table, Retain;
    TableDistinct(phase);
    RetainNoDuplicates(Table(phase), Open(ac));
  }

  /**
   After n rounds the first n unmet criteria are settled and the others are not: round n asks
   about the n-th, each is asked once and in table order, and the interview ends after exactly
   as many rounds as there were unmet criteria.
   */
  lemma {:induction false} InterviewInTableOrder(phase: string, ac: AcLists, n: nat)
    ensures NoDuplicates(Unmet(phase, ac))
    ensures var m := |Unmet(phase, ac)|;
            && Unmet(phase, AfterRounds(phase, ac, n)) == Unmet(phase, ac)[if n < m then n else m..]
            && (n < m ==> Fallback(phase, AfterRounds(phase, ac, n)) == GapResult(Unmet(phase, ac)[n], 1, false, m - n))
            && (n >= m ==> Fallback(phase, AfterRounds(phase, ac, n)) == TERMINAL_GAP)
  {
    hide Unmet, ApplyUpdate;
    UnmetDistinct(phase, ac);
    if n > 0 {
      InterviewInTableOrder(phase, ac, n - 1);
      var before := AfterRounds(phase, ac, n - 1);
      if n - 1 < |Unmet(phase, ac)| {
        RoundSettlesFirst(phase, before);
      }
    }
  }

  // ------------------------------------------------------------------------
  // Agreement with the state engine
  // ------------------------------------------------------------------------

  /** The phases with a table. */
  predicate Tabled(p: SessionPhase)
  {
    Index(p) <= 3
  }

  lemma {:induction false} TableMatchesChecks(p: SessionPhase, s: SessionState)
    ensures !Tabled(p) ==> Table(PhaseKey(p)) == []
    ensures Tabled(p) ==> |Table(PhaseKey(p))| == 5 && |ChecksOf(p, s)| >= 5
    ensures Tabled(p) ==> forall i :: 0 <= i < 5 ==> Table(PhaseKey(p))[i] == ChecksOf(p, s)[i].id
  {
    hide HasDecisionMaker, HasNonFunctional, HasConstraint, AllLinked, Retain, IsFunctional;
  }

  /** In a tabled phase the fallback is terminal exactly when all five mandatory criteria are listed. */
  lemma TerminalIffListed(p: SessionPhase, s: SessionState)
    requires Tabled(p)
    ensures |ChecksOf(p, s)| >= 5
    ensures Fallback(PhaseKey(p), s.ac).isTerminal
            <==> forall i :: 0 <= i < 5 ==> ChecksOf(p, s)[i].id in s.ac.met || ChecksOf(p, s)[i].id in s.ac.waived
  {
    hide ChecksOf, Table, PhaseKey, Retain;
    TableMatchesChecks(p, s);
    var t := Table(PhaseKey(p));
    NoneKeptIff(t, Open(s.ac));
    if Fallback(PhaseKey(p), s.ac).isTerminal {
      forall i | 0 <= i < 5 ensures ChecksOf(p, s)[i].id in s.ac.met || ChecksOf(p, s)[i].id in s.ac.waived {
        assert t[i] in t;
      }
    }
  }

  /** The phase name the picker sees: from the serialised session, or from the message fields when there is none. */
  function PhaseText(p: SessionPhase, serialised: bool): string
  {
    if serialised then PhaseKey(p) else DisplayName(p)
  }

  /** No display name is a table key, so the picker finds nothing to ask under one. */
  lemma DisplayNamesAreNotKeys(p: SessionPhase, ac: AcLists)
    ensures Fallback(DisplayName(p), ac) == TERMINAL_GAP
  {
    assert Table(DisplayName(p)) == [];
  }

  /** The interview's end can be trusted at `p`: whenever the fallback is terminal, the engine is ready. */
  ghost predicate TerminalMeansReady(p: SessionPhase, serialised: bool)
  {
    forall s: SessionState | s.currentPhase == p :: Fallback(PhaseText(p, serialised), s.ac).isTerminal ==> Ready(s)
  }

  /**
   A terminal fallback implies readiness exactly when the session arrives serialised and its
   phase is one of the four that have a table.
   */
  lemma {:induction false} TerminalMeansReadyIff(p: SessionPhase, serialised: bool)
    ensures TerminalMeansReady(p, serialised) <==> serialised && Tabled(p)
  {
    hide ChecksOf, Ready, EvaluateAc, Fallback, PhaseText;
    if serialised && Tabled(p) {
      forall s: SessionState | s.currentPhase == p && Fallback(PhaseText(p, serialised), s.ac).isTerminal ensures Ready(s) {
        ListedMeansReady(s);
      }
    } else {
      TerminalTooEarly(p, serialised);
      assert NEW_STATE.(currentPhase := p).currentPhase == p;
    }
  }

  lemma ListedMeansReady(s: SessionState)
    requires Tabled(s.currentPhase) && Fallback(PhaseText(s.currentPhase, true), s.ac).isTerminal
    ensures Ready(s)
  {
    hide ChecksOf, EvaluateAc, Fallback, PhaseKey;
    TerminalIffListed(s.currentPhase, s);
    ReadyIffCovered(s.currentPhase, s);
  }

  /** An empty session is not ready in any phase. */
  lemma {:induction false} EmptyNeverReady(p: SessionPhase)
    ensures !Ready(NEW_STATE.(currentPhase := p))
  {
    hide EvaluateAc;
    var s := NEW_STATE.(currentPhase := p);
    ReadyIffCovered(p, s);
    if p != SignedOff {
      assert !Covered(ChecksOf(p, s)[3], [], []);
    }
  }

  /**
   Otherwise even an empty session is declared complete though the engine lets nothing pass:
   in the three phases without a table, and in every phase under its display name.
   */
  lemma {:induction false} TerminalTooEarly(p: SessionPhase, serialised: bool)
    requires !(serialised && Tabled(p))
    ensures Fallback(PhaseText(p, serialised), NEW_STATE.ac) == TERMINAL_GAP
    ensures !Ready(NEW_STATE.(currentPhase := p))
  {
    hide Ready, Table, PhaseKey, DisplayName;
    EmptyNeverReady(p);
    if serialised {
      TableMatchesChecks(p, NEW_STATE);
    } else {
      DisplayNamesAreNotKeys(p, NEW_STATE.ac);
    }
  }

  lemma OptionalNeverBlocks(p: SessionPhase, s: SessionState, i: nat)
    requires 5 <= i < |EvaluateAc(p, s).criteria|
    ensures !Blocks(EvaluateAc(p, s).criteria[i])
  {
    hide ChecksOf, Optional;
    FiveMandatory(p, s, i);
  }

  lemma CriteriaCount(p: SessionPhase, s: SessionState)
    requires Tabled(p)
    ensures |EvaluateAc(p, s).criteria| == |ChecksOf(p, s)| >= 5
  {
    hide ChecksOf;
    TableMatchesChecks(p, s);
  }

  lemma {:induction false} OnlyFirstFiveBlock(p: SessionPhase, s: SessionState)
    requires Tabled(p)
    ensures |EvaluateAc(p, s).criteria| >= 5
    ensures BlockingCount(EvaluateAc(p, s)) == |Retain(EvaluateAc(p, s).criteria[..5], Blocks)|
  {
    hide ChecksOf, Retain, EvaluateAc, Blocks;
    CriteriaCount(p, s);
    forall i | 5 <= i < |EvaluateAc(p, s).criteria| ensures !Blocks(EvaluateAc(p, s).criteria[i]) {
      OptionalNeverBlocks(p, s, i);
    }
    RetainPrefix(EvaluateAc(p, s).criteria, 5, Blocks);
  }

  lemma BlockingIsOpen(p: SessionPhase, s: SessionState, i: nat)
    requires i < |EvaluateAc(p, s).criteria| && Blocks(EvaluateAc(p, s).criteria[i])
    ensures EvaluateAc(p, s).criteria[i].id == ChecksOf(p, s)[i].id && Open(s.ac)(ChecksOf(p, s)[i].id)
  {
    hide ChecksOf, Optional;
  }

  /** In a tabled phase the interview never has fewer questions left than the engine has blocking criteria. */
  lemma {:induction false} NeverAsksTooFew(p: SessionPhase, s: SessionState)
    requires Tabled(p)
    ensures |Unmet(PhaseKey(p), s.ac)| >= BlockingCount(EvaluateAc(p, s))
    ensures Fallback(PhaseKey(p), s.ac).unmetCount >= BlockingCount(EvaluateAc(p, s))
  {
    hide ChecksOf, Table, PhaseKey, Retain, EvaluateAc, Blocks, BlockingCount;
    TableMatchesChecks(p, s);
    OnlyFirstFiveBlock(p, s);
    var five := EvaluateAc(p, s).criteria[..5];
    forall i | 0 <= i < 5 && Blocks(five[i]) ensures Open(s.ac)(Table(PhaseKey(p))[i]) {
      BlockingIsOpen(p, s, i);
    }
    RetainNoFewer(five, Blocks, Table(PhaseKey(p)), Open(s.ac));
  }
}
