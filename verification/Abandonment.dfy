/**
 A turn whose caller stops iterating at a `yield`. Nothing cancels the graph task then: it
 goes on alone, with nobody to make room in the queue.
 */
module Abandonment {
  import opened TokenStream

  predicate GraphOnly(acts: seq<Action>)
  {
    forall i :: 0 <= i < |acts| ==> !IsConsumerAction(acts[i])
  }

  /** The graph task cannot take another step by itself. */
  ghost predicate AtRest(t: Turn)
  {
    forall a :: !IsConsumerAction(a) ==> !Enabled(t, a)
  }

  /** `acts` does not leave the graph task waiting for room that nobody makes. */
  ghost predicate NotLeftBlocked(t: Turn, acts: seq<Action>)
  {
    GraphOnly(acts) && Schedulable(t, acts) && AtRest(Exec(t, acts)) ==> ProducerDone(Exec(t, acts).producer)
  }

  /** Left alone from `t` on, the graph task ends, whichever of its steps it takes. */
  ghost predicate FinishesAlone(t: Turn)
  {
    forall acts :: NotLeftBlocked(t, acts)
  }

  /** The puts the guidance node still makes if the model call does not fail. */
  function PutsLeft(t: Turn): int
  {
    var n := |t.script.tokens|;
    match t.producer
    case Nodes => n + 1
    case Streaming(i) => n - i + 1
    case Putting(i) => n - i + 1
    case Closing(_) => 1
    case _ => 0
  }

  predicate Fits(t: Turn)
  {
    PutsLeft(t) == 0 || t.maxsize <= 0 || |t.queue| + PutsLeft(t) <= t.maxsize
  }

  lemma FitsKept(t: Turn, a: Action)
    requires Inv(t) && Fits(t) && Enabled(t, a) && !IsConsumerAction(a) && !t.consumer.TimedOut?
    ensures Fits(Step(t, a)) && !Step(t, a).consumer.TimedOut?
  {
    hide Holds;
  }

  lemma {:induction false} FittingRun(t: Turn, acts: seq<Action>)
    requires Inv(t) && Fits(t) && !t.consumer.TimedOut? && GraphOnly(acts) && Schedulable(t, acts)
    ensures var u := Exec(t, acts); Inv(u) && Fits(u) && !u.consumer.TimedOut?
    decreases |acts|
  {
    hide Inv, Fits, Step, Enabled;
    if acts != [] {
      FitsKept(t, acts[0]);
      StepKeepsInv(t, acts[0]);
      FittingRun(Step(t, acts[0]), acts[1..]);
    }
  }

  lemma FittingRestIsDone(t: Turn)
    requires Inv(t) && Fits(t) && !t.consumer.TimedOut? && AtRest(t)
    ensures ProducerDone(t.producer)
  {
    hide Holds;
    match t.producer
    case Nodes => assert Enabled(t, NodesFinish);
    case Streaming(_) => assert Enabled(t, StreamFail);
    case Putting(_) => assert Enabled(t, PutText);
    case Closing(_) => assert Enabled(t, PutDone);
    case Returned(_) => assert Enabled(t, GraphReturn);
    case _ =>
  }

  /** While it is not blocked, a step that brings the graph task no closer to fitting. */
  lemma {:induction false} WayToPut(t: Turn) returns (a: Action)
    requires Inv(t) && !Fits(t) && !t.consumer.TimedOut?
    requires !(Full(t.maxsize, t.queue) && (t.producer.Putting? || t.producer.Closing?))
    ensures !IsConsumerAction(a) && Enabled(t, a)
    ensures !Fits(Step(t, a)) && !Step(t, a).consumer.TimedOut?
  {
    hide Holds;
    match t.producer
    case Nodes => a := NodesFinish;
    case Streaming(i) => a := if i < |t.script.tokens| then StreamText else StreamEnd;
    case _ => a := PutText;
  }

  lemma {:induction false} BlockingSchedule(t: Turn) returns (acts: seq<Action>)
    requires Inv(t) && !Fits(t) && !t.consumer.TimedOut?
    ensures !NotLeftBlocked(t, acts)
    decreases Measure(t)
  {
    if Full(t.maxsize, t.queue) && (t.producer.Putting? || t.producer.Closing?) {
      acts := [];
    } else {
      var a := WayToPut(t);
      StepLowersMeasure(t, a);
      StepKeepsInv(t, a);
      var rest := BlockingSchedule(Step(t, a));
      acts := [a] + rest;
      assert acts[1..] == rest;
    }
  }

  lemma {:induction false} FinishesAloneIff(t: Turn)
    requires Inv(t) && !t.consumer.TimedOut?
    ensures FinishesAlone(t) <==> Fits(t)
  {
    hide Inv, Fits, AtRest;
    if Fits(t) {
      forall acts ensures NotLeftBlocked(t, acts) {
        if GraphOnly(acts) && Schedulable(t, acts) && AtRest(Exec(t, acts)) {
          FittingRun(t, acts);
          FittingRestIsDone(Exec(t, acts));
        }
      }
    } else {
      var acts := BlockingSchedule(t);
      assert !NotLeftBlocked(t, acts);
    }
  }

  /**
   On every run: a turn abandoned at a `yield` while the model is still streaming has a graph
   task that surely ends, exactly when the queue is unbounded or has room for all tokens not
   yet received and the sentinel.
   */
  lemma {:induction false} AbandonedMidStreamFinishesIff(maxsize: int, script: Script, acts: seq<Action>)
    requires Schedulable(Start(maxsize, script), acts)
    requires var t := Exec(Start(maxsize, script), acts);
             t.consumer.Yielding? && (t.producer.Streaming? || t.producer.Putting?)
    ensures var t := Exec(Start(maxsize, script), acts);
            FinishesAlone(t) <==> maxsize <= 0 || |script.tokens| - |t.yielded| + 1 <= maxsize
  {
    hide FinishesAlone;
    StartInv(maxsize, script);
    RunKeepsInv(Start(maxsize, script), acts);
    RunKeepsConfig(Start(maxsize, script), acts);
    FinishesAloneIff(Exec(Start(maxsize, script), acts));
  }

  /** Abandoned after the stream was closed it surely ends; abandoned while closing, exactly when the sentinel has room. */
  lemma {:induction false} AbandonedAtCloseFinishesIff(maxsize: int, script: Script, acts: seq<Action>)
    requires Schedulable(Start(maxsize, script), acts)
    requires var t := Exec(Start(maxsize, script), acts);
             t.consumer.Yielding? && !t.producer.Streaming? && !t.producer.Putting? && !t.producer.Nodes?
    ensures var t := Exec(Start(maxsize, script), acts);
            FinishesAlone(t) <==> (t.producer.Closing? ==> !Full(maxsize, t.queue))
  {
    hide FinishesAlone;
    StartInv(maxsize, script);
    RunKeepsInv(Start(maxsize, script), acts);
    RunKeepsConfig(Start(maxsize, script), acts);
    FinishesAloneIff(Exec(Start(maxsize, script), acts));
  }
}
