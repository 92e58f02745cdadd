/**
 Many turns on one executor, whose `last_result` field they share.

 Every `RunPipeline` call streams its own turn, and after the stream writes the shared
 field, reads it back and reports what it read. Tasks switch only at an `await` (or a
 `yield` to the caller), so the stretch from the end of `await pipeline_task` to the yield
 of the completion event belongs to one task; `running` names that task. With
 `preemptive` set, a switch may happen anywhere, which is what the code does not survive.
 */
module PipelineExecutors {
  import opened Wrappers
  import opened Sequences
  import opened TokenStream
  import opened StreamingTurns

  /** Where a `RunPipeline` call is after its stream. */
  datatype Report =
    | Pending                                // nothing written yet
    | Written                                // own result stored in the shared field
    | ReadBack(seen: Option<TurnResult>)     // shared field read
    | Reported(result: TurnResult)           // completion event sent
    | Silent                                 // no result was there to report

  datatype Executor = Executor(
    turns: seq<Turn>, reports: seq<Report>, lastResult: Option<TurnResult>, running: Option<nat>)

  datatype Move =
    | Stream(i: nat, a: Action)
    | Write(i: nat)
    | Read(i: nat)
    | Emit(i: nat)

  function Initial(maxsize: int, scripts: seq<Script>): Executor
  {
    Executor(
      seq(|scripts|, i requires 0 <= i < |scripts| => Start(maxsize, scripts[i])),
      seq(|scripts|, i => Pending), None, None)
  }

  predicate WellFormed(e: Executor)
  {
    |e.turns| == |e.reports|
  }

  predicate MayRun(e: Executor, i: nat, preemptive: bool)
  {
    preemptive || e.running == Some(i)
  }

  predicate CanMove(e: Executor, m: Move, preemptive: bool)
    requires WellFormed(e)
  {
    && m.i < |e.turns|
    && match m
       case Stream(i, a) => (preemptive || e.running.None?) && Enabled(e.turns[i], a)
       case Write(i) => MayRun(e, i, preemptive) && e.turns[i].consumer.Ended? && e.reports[i].Pending?
       case Read(i) => MayRun(e, i, preemptive) && e.reports[i].Written?
       case Emit(i) => MayRun(e, i, preemptive) && e.reports[i].ReadBack?
  }

  /** A turn that has just left `await pipeline_task` with a result keeps the processor; every other step ends at a suspension. */
  function Apply(e: Executor, m: Move, preemptive: bool): (r: Executor)
    requires WellFormed(e) && CanMove(e, m, preemptive)
    ensures WellFormed(r)
  {
    match m
    case Stream(i, a) =>
      var t := Step(e.turns[i], a);
      e.(turns := e.turns[i := t], running := if t.consumer.Ended? && !e.turns[i].consumer.Ended? then Some(i) else e.running)
    case Write(i) =>
      e.(lastResult := Some(e.turns[i].consumer.result), reports := e.reports[i := Written])
    case Read(i) =>
      e.(reports := e.reports[i := ReadBack(e.lastResult)])
    case Emit(i) =>
      var seen := e.reports[i].seen;
      e.(reports := e.reports[i := if seen.Some? then Reported(seen.value) else Silent], running := None)
  }

  predicate CanRun(e: Executor, moves: seq<Move>, preemptive: bool)
    requires WellFormed(e)
    decreases |moves|
  {
    moves == [] || (CanMove(e, moves[0], preemptive) && CanRun(Apply(e, moves[0], preemptive), moves[1..], preemptive))
  }

  function Run(e: Executor, moves: seq<Move>, preemptive: bool): (r: Executor)
    requires WellFormed(e) && CanRun(e, moves, preemptive)
    ensures WellFormed(r)
    decreases |moves|
  {
    if moves == [] then e else Run(Apply(e, moves[0], preemptive), moves[1..], preemptive)
  }

  // ------------------------------------------------------------------------
  // The invariant of cooperative scheduling
  // ------------------------------------------------------------------------

  ghost predicate CallInv(e: Executor, i: nat)
    requires WellFormed(e) && i < |e.turns|
  {
    var t := e.turns[i];
    && Inv(t)
    && (e.reports[i].Pending? && t.consumer.Ended? ==> e.running == Some(i))
    && (!e.reports[i].Pending? ==> t.consumer.Ended?)
    && (e.reports[i].Written? ==> e.running == Some(i) && e.lastResult == Some(t.consumer.result))
    && (e.reports[i].ReadBack? ==> e.running == Some(i) && e.reports[i].seen == Some(t.consumer.result))
    && (e.reports[i].Reported? ==> e.reports[i].result == t.consumer.result)
    && !e.reports[i].Silent?
  }

  ghost predicate ExecutorInv(e: Executor)
  {
    && WellFormed(e)
    && (forall i: nat :: i < |e.turns| ==> CallInv(e, i))
    && (e.running.Some? ==> e.running.value < |e.turns| && e.turns[e.running.value].consumer.Ended?
                            && !e.reports[e.running.value].Reported?)
  }

  lemma {:induction false} InitialInv(maxsize: int, scripts: seq<Script>)
    ensures ExecutorInv(Initial(maxsize, scripts))
  {
    forall i: nat | i < |scripts| ensures CallInv(Initial(maxsize, scripts), i) {
      StartInv(maxsize, scripts[i]);
    }
  }

  lemma {:induction false} MoveKeepsInv(e: Executor, m: Move)
    requires ExecutorInv(e) && CanMove(e, m, false)
    ensures ExecutorInv(Apply(e, m, false))
  {
    var f := Apply(e, m, false);
    assert CallInv(e, m.i);
    if m.Stream? {
      StepKeepsInv(e.turns[m.i], m.a);
    }
    forall j: nat | j < |f.turns| ensures CallInv(f, j) {
      assert CallInv(e, j);
    }
  }

  lemma {:induction false} RunsKeepInv(e: Executor, moves: seq<Move>)
    requires ExecutorInv(e) && CanRun(e, moves, false)
    ensures ExecutorInv(Run(e, moves, false))
    decreases |moves|
  {
    if moves != [] {
      MoveKeepsInv(e, moves[0]);
      RunsKeepInv(Apply(e, moves[0], false), moves[1..]);
    }
  }

  // ------------------------------------------------------------------------
  // Turns do not disturb each other
  // ------------------------------------------------------------------------

  /** The steps of turn i among the moves. */
  function ActsOf(moves: seq<Move>, i: nat): (acts: seq<Action>)
    ensures forall a :: a in acts <==> Stream(i, a) in moves
  {
    if moves == [] then []
    else
      var rest := ActsOf(moves[1..], i);
      assert moves == [moves[0]] + moves[1..];
      if moves[0].Stream? && moves[0].i == i then [moves[0].a] + rest else rest
  }

  lemma MoveOfTurn(e: Executor, m: Move, i: nat, preemptive: bool)
    requires WellFormed(e) && CanMove(e, m, preemptive) && i < |e.turns|
    ensures |Apply(e, m, preemptive).turns| == |e.turns|
    ensures Apply(e, m, preemptive).turns[i] == if m.Stream? && m.i == i then Step(e.turns[i], m.a) else e.turns[i]
    ensures m.Stream? && m.i == i ==> Enabled(e.turns[i], m.a)
  {
    hide Step, Enabled;
  }

  /** On every schedule of any number of turns, preemptive or not, each turn goes through a run of its own. */
  lemma {:induction false} TurnIsItsOwnRun(e: Executor, moves: seq<Move>, i: nat, preemptive: bool)
    requires WellFormed(e) && CanRun(e, moves, preemptive) && i < |e.turns|
    ensures |Run(e, moves, preemptive).turns| == |e.turns|
    ensures Schedulable(e.turns[i], ActsOf(moves, i))
    ensures Run(e, moves, preemptive).turns[i] == Exec(e.turns[i], ActsOf(moves, i))
    decreases |moves|
  {
    hide CanMove, Apply, Step, Enabled;
    if moves != [] {
      var m := moves[0];
      MoveOfTurn(e, m, i, preemptive);
      TurnIsItsOwnRun(Apply(e, m, preemptive), moves[1..], i, preemptive);
      if m.Stream? && m.i == i {
        assert ActsOf(moves, i)[1..] == ActsOf(moves[1..], i);
      }
    }
  }

  /**
   Results do not cross: on every cooperative schedule of any number of turns, a call that
   reports a completion reports the result of its own turn. That is aborted exactly when this
   turn's own model call or graph failed, and otherwise lists exactly the tokens its caller
   has received, which are its own script's.
   */
  lemma {:induction false} ResultsDoNotCross(maxsize: int, scripts: seq<Script>, moves: seq<Move>, i: nat)
    requires i < |scripts| && CanRun(Initial(maxsize, scripts), moves, false)
    ensures var e := Run(Initial(maxsize, scripts), moves, false);
            && |e.turns| == |e.reports| == |scripts|
            && (e.reports[i].Reported? ==>
                  && e.turns[i].consumer == Ended(e.reports[i].result)
                  && (e.reports[i].result.aborted <==> Stream(i, StreamFail) in moves || Stream(i, GraphRaise) in moves)
                  && (!e.reports[i].result.aborted ==>
                        e.turns[i].yielded == e.reports[i].result.guidanceTokens == scripts[i].tokens))
  {
    hide CanRun, Run, Exec, Schedulable;
    var e0 := Initial(maxsize, scripts);
    InitialInv(maxsize, scripts);
    RunsKeepInv(e0, moves);
    TurnIsItsOwnRun(e0, moves, i, false);
    assert CallInv(Run(e0, moves, false), i);
    ExactDelivery(maxsize, scripts[i], ActsOf(moves, i));
  }

  // ------------------------------------------------------------------------
  // Every call reports
  // ------------------------------------------------------------------------

  predicate CallOver(e: Executor, i: nat)
    requires WellFormed(e) && i < |e.turns|
  {
    e.turns[i].consumer.Interrupted? || e.reports[i].Reported?
  }

  lemma {:induction false} CallProgress(e: Executor, i: nat) returns (m: Move)
    requires ExecutorInv(e) && i < |e.turns| && !CallOver(e, i)
    ensures CanMove(e, m, false) && (m.Stream? ==> !m.a.Timeout?)
  {
    if e.running.Some? {
      var r := e.running.value;
      assert CallInv(e, r);
      m := if e.reports[r].Pending? then Write(r) else if e.reports[r].Written? then Read(r) else Emit(r);
    } else {
      assert CallInv(e, i);
      var a := Progress(e.turns[i]);
      m := Stream(i, a);
    }
  }

  function CallWork(t: Turn, r: Report): int
  {
    Measure(t) + match r
                 case Pending => 3
                 case Written => 2
                 case ReadBack(_) => 1
                 case _ => 0
  }

  function Work(e: Executor): seq<int>
    requires WellFormed(e)
  {
    seq(|e.turns|, i requires 0 <= i < |e.turns| => CallWork(e.turns[i], e.reports[i]))
  }

  lemma {:induction false} SumNonNegative(s: seq<int>)
    requires forall i :: 0 <= i < |s| ==> 0 <= s[i]
    ensures 0 <= Sum(s)
  {
    if s != [] {
      SumNonNegative(s[1..]);
    }
  }

  lemma {:induction false} WorkNonNegative(e: Executor)
    requires ExecutorInv(e)
    ensures 0 <= Sum(Work(e))
  {
    forall i | 0 <= i < |e.turns| ensures 0 <= Work(e)[i] {
      assert CallInv(e, i);
      RunLowersMeasure(e.turns[i], []);
    }
    SumNonNegative(Work(e));
  }

  lemma {:induction false} MoveLowersWork(e: Executor, m: Move)
    requires ExecutorInv(e) && CanMove(e, m, false)
    ensures Sum(Work(Apply(e, m, false))) < Sum(Work(e))
  {
    var f := Apply(e, m, false);
    assert CallInv(e, m.i);
    if m.Stream? {
      StepLowersMeasure(e.turns[m.i], m.a);
    }
    assert Work(f) == Work(e)[m.i := Work(f)[m.i]];
    SumUpdate(Work(e), m.i, Work(f)[m.i]);
  }

  lemma {:induction false} RunsLowerWork(e: Executor, moves: seq<Move>)
    requires ExecutorInv(e) && CanRun(e, moves, false)
    ensures |moves| + Sum(Work(Run(e, moves, false))) <= Sum(Work(e))
    decreases |moves|
  {
    if moves != [] {
      MoveLowersWork(e, moves[0]);
      MoveKeepsInv(e, moves[0]);
      RunsLowerWork(Apply(e, moves[0], false), moves[1..]);
    }
  }

  function Budgets(scripts: seq<Script>): seq<int>
  {
    seq(|scripts|, i requires 0 <= i < |scripts| => 4 * |scripts[i].tokens| + 13)
  }

  /**
   The executor never stalls and every schedule is bounded: while some call is unfinished a
   move other than a timeout exists, and no schedule is longer than 4n + 13 moves a turn of
   n tokens, so every maximal schedule finishes every call.
   */
  lemma {:induction false} EveryCallFinishes(maxsize: int, scripts: seq<Script>, moves: seq<Move>)
    requires CanRun(Initial(maxsize, scripts), moves, false)
    ensures |moves| <= Sum(Budgets(scripts))
    ensures var e := Run(Initial(maxsize, scripts), moves, false);
            (exists i: nat :: i < |e.turns| && !CallOver(e, i)) ==>
              exists m: Move :: CanMove(e, m, false) && (m.Stream? ==> !m.a.Timeout?)
  {
    hide ExecutorInv, CanMove, Apply;
    var e0 := Initial(maxsize, scripts);
    InitialInv(maxsize, scripts);
    RunsKeepInv(e0, moves);
    RunsLowerWork(e0, moves);
    var e := Run(e0, moves, false);
    WorkNonNegative(e);
    assert Work(e0) == Budgets(scripts);
    if i: nat :| i < |e.turns| && !CallOver(e, i) {
      var m := CallProgress(e, i);
    }
  }

  // ------------------------------------------------------------------------
  // When a call ends without a completion event
  // ------------------------------------------------------------------------

  /** A finished call has sent its completion event exactly when the ceiling of its own drain loop never expired. */
  lemma {:induction false} CompletionSentIff(maxsize: int, scripts: seq<Script>, moves: seq<Move>, i: nat)
    requires i < |scripts| && CanRun(Initial(maxsize, scripts), moves, false)
    requires i < |Run(Initial(maxsize, scripts), moves, false).turns| && CallOver(Run(Initial(maxsize, scripts), moves, false), i)
    ensures Run(Initial(maxsize, scripts), moves, false).reports[i].Reported? <==> Stream(i, Timeout) !in moves
  {
    hide CanRun, Run, Exec, Schedulable;
    var e0 := Initial(maxsize, scripts);
    InitialInv(maxsize, scripts);
    RunsKeepInv(e0, moves);
    TurnIsItsOwnRun(e0, moves, i, false);
    assert CallInv(Run(e0, moves, false), i);
    OutcomeOfRun(maxsize, scripts[i], ActsOf(moves, i));
  }

  // ------------------------------------------------------------------------
  // What the absence of an await buys
  // ------------------------------------------------------------------------

  lemma {:induction false} RunConcat(e: Executor, a: seq<Move>, b: seq<Move>, preemptive: bool)
    requires WellFormed(e) && CanRun(e, a, preemptive) && CanRun(Run(e, a, preemptive), b, preemptive)
    ensures CanRun(e, a + b, preemptive)
    ensures Run(e, a + b, preemptive) == Run(Run(e, a, preemptive), b, preemptive)
    decreases |a|
  {
    if a == [] {
      assert a + b == b;
    } else {
      assert (a + b)[0] == a[0] && (a + b)[1..] == a[1..] + b;
      RunConcat(Apply(e, a[0], preemptive), a[1..], b, preemptive);
    }
  }

  lemma {:induction false} RunOne(e: Executor, m: Move, preemptive: bool)
    requires WellFormed(e) && CanMove(e, m, preemptive)
    ensures CanRun(e, [m], preemptive) && Run(e, [m], preemptive) == Apply(e, m, preemptive)
  {
    assert [m][1..] == [];
    assert CanRun(Apply(e, m, preemptive), [], preemptive);
  }

  /** One more move at the end of a run. */
  lemma {:induction false} Extend(e: Executor, moves: seq<Move>, m: Move, preemptive: bool)
    requires WellFormed(e) && CanRun(e, moves, preemptive) && CanMove(Run(e, moves, preemptive), m, preemptive)
    ensures CanRun(e, moves + [m], preemptive)
    ensures Run(e, moves + [m], preemptive) == Apply(Run(e, moves, preemptive), m, preemptive)
  {
    RunOne(Run(e, moves, preemptive), m, preemptive);
    RunConcat(e, moves, [m], preemptive);
  }

  /** The three steps of a turn whose nodes raise at once. */
  lemma RaisedTurn(t: Turn)
    requires t == Start(t.maxsize, t.script)
    ensures var r := RaisedResult(t.script);
            var t1 := Turn(t.maxsize, t.script, [StreamDone], Finished(r), Waiting, [], []);
            var t2 := t1.(queue := [], consumer := Drained);
            && Enabled(t, GraphRaise) && Step(t, GraphRaise) == t1
            && Enabled(t1, Get) && Step(t1, Get) == t2
            && Enabled(t2, Join) && Step(t2, Join) == t2.(consumer := Ended(r))
  {
    assert [] + [StreamDone] == [StreamDone];
    assert [StreamDone][1..] == [];
  }

  lemma StreamMove(e: Executor, i: nat, a: Action)
    requires WellFormed(e) && i < |e.turns| && Enabled(e.turns[i], a)
    ensures CanMove(e, Stream(i, a), true)
    ensures var t := Step(e.turns[i], a);
            Apply(e, Stream(i, a), true)
            == e.(turns := e.turns[i := t], running := if t.consumer.Ended? && !e.turns[i].consumer.Ended? then Some(i) else e.running)
  {
  }

  /** Run turn `i`, whose nodes raise at once, up to the end of its `await pipeline_task`. */
  lemma {:induction false} RaiseAndEnd(e: Executor, i: nat, moves0: seq<Move>, e1: Executor) returns (moves: seq<Move>)
    requires WellFormed(e) && CanRun(e, moves0, true) && e1 == Run(e, moves0, true)
    requires i < |e1.turns| && e1.turns[i] == Start(e1.turns[i].maxsize, e1.turns[i].script)
    ensures CanRun(e, moves, true)
    ensures var r := RaisedResult(e1.turns[i].script);
            Run(e, moves, true) == e1.(
              turns := e1.turns[i := e1.turns[i].(producer := Finished(r), consumer := Ended(r))], running := Some(i))
  {
    hide CanRun, Run, CanMove, Apply, Step, Enabled, RaisedResult;
    RaisedTurn(e1.turns[i]);
    StreamMove(e1, i, GraphRaise);
    Extend(e, moves0, Stream(i, GraphRaise), true);
    var m1 := moves0 + [Stream(i, GraphRaise)];
    StreamMove(Run(e, m1, true), i, Get);
    Extend(e, m1, Stream(i, Get), true);
    var m2 := m1 + [Stream(i, Get)];
    StreamMove(Run(e, m2, true), i, Join);
    Extend(e, m2, Stream(i, Join), true);
    moves := m2 + [Stream(i, Join)];
  }

  /**
   If a task switch could fall between the write of `last_result` and its read, two turns
   with different results would cross: the first would report the second's.
   */
  lemma {:induction false} PreemptionWouldCrossResults(maxsize: int, scripts: seq<Script>) returns (moves: seq<Move>)
    requires |scripts| == 2 && scripts[0].graphError != scripts[1].graphError
    ensures CanRun(Initial(maxsize, scripts), moves, true)
    ensures var e := Run(Initial(maxsize, scripts), moves, true);
            && |e.turns| == |e.reports| == 2
            && e.turns[0].consumer == Ended(RaisedResult(scripts[0]))
            && e.reports[0] == Reported(RaisedResult(scripts[1]))
            && RaisedResult(scripts[0]) != RaisedResult(scripts[1])
  {
    var e0 := Initial(maxsize, scripts);
    var r0, r1 := RaisedResult(scripts[0]), RaisedResult(scripts[1]);
    moves := RaiseAndEnd(e0, 0, [], e0);
    moves := RaiseAndEnd(e0, 1, moves, Run(e0, moves, true));
    Extend(e0, moves, Write(0), true);
    moves := moves + [Write(0)];
    Extend(e0, moves, Write(1), true);
    moves := moves + [Write(1)];
    Extend(e0, moves, Read(0), true);
    moves := moves + [Read(0)];
    assert Run(e0, moves, true).reports[0] == ReadBack(Some(r1));
    Extend(e0, moves, Emit(0), true);
    moves := moves + [Emit(0)];
    assert r0.nodeErrors["pipeline"] != r1.nodeErrors["pipeline"];
  }

  // ------------------------------------------------------------------------
  // One call in the form the service runs it
  // ------------------------------------------------------------------------

  /** How `run` ends for the code that iterates over it. */
  datatype Outcome = Completed | PipelineAborted | CancelledError

  class PipelineExecutor {
    var lastResult: Option<TurnResult>

    constructor ()
      ensures lastResult == None
    {
      lastResult := None;
    }

    /**
     Run one turn, through the steps `acts`; `outcome` is what the generator's caller sees.
     When the drain loop's ceiling expires, CancelledError leaves `run` before the shared field
     is written.
     */
    method Run(maxsize: int, script: Script) returns (yielded: seq<Token>, outcome: Outcome, ghost acts: seq<Action>)
      modifies this
      ensures Schedulable(Start(maxsize, script), acts) && yielded == Exec(Start(maxsize, script), acts).yielded <= script.tokens
      ensures outcome == if Timeout in acts then CancelledError
                         else if StreamFail in acts || GraphRaise in acts then PipelineAborted
                         else Completed
      ensures if outcome.CancelledError? then lastResult == old(lastResult)
              else
                && lastResult.Some? && Exec(Start(maxsize, script), acts).consumer == Ended(lastResult.value)
                && lastResult.value.aborted == outcome.PipelineAborted?
                && lastResult.value.guidanceTokens == if outcome.Completed? then script.tokens else []
      ensures outcome.Completed? ==> yielded == script.tokens
    {
      hide Schedulable, Exec;
      var turn := new StreamingTurn(maxsize, script);
      var result;
      result, acts := turn.RunToEnd();
      yielded := turn.yielded;
      assert turn.View().consumer == turn.consumer && turn.View().yielded == turn.yielded;
      if result.None? {
        return yielded, CancelledError, acts;
      }
      lastResult := result;
      outcome := if result.value.aborted then PipelineAborted else Completed;
    }

    /** The servicer's call: stream, then report whatever the shared field holds; a cancelled turn reports nothing. */
    method RunPipeline(maxsize: int, script: Script)
      returns (tokens: seq<Token>, complete: Option<TurnResult>, ghost acts: seq<Action>)
      modifies this
      ensures Schedulable(Start(maxsize, script), acts) && tokens == Exec(Start(maxsize, script), acts).yielded <= script.tokens
      ensures complete.None? <==> Timeout in acts
      ensures lastResult == if complete.Some? then complete else old(lastResult)
      ensures complete.Some? ==>
        && Exec(Start(maxsize, script), acts).consumer == Ended(complete.value)
        && (complete.value.aborted <==> StreamFail in acts || GraphRaise in acts)
        && (!complete.value.aborted ==> tokens == complete.value.guidanceTokens == script.tokens)
    {
      hide Schedulable, Exec;
      var outcome;
      tokens, outcome, acts := Run(maxsize, script);
      complete := if outcome.CancelledError? then None else lastResult;
    }
  }
}
