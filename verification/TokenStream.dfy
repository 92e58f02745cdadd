/**
 One turn's token stream: a graph task that puts tokens on a bounded queue and a
 generator that drains it up to a sentinel.

 `Turn` is the joint state at the points where either task may be suspended.
 `Enabled` and `Step` give the atomic steps between two such points, and a run is any
 list of enabled actions, so every theorem ranges over every interleaving, every
 token script, every failure point and every queue size.
 */
module TokenStream {
  import opened Wrappers

  type Token = string

  /** A queue entry: a text token, or the `None` that closes the stream. */
  datatype Item = Text(token: Token) | StreamDone

  datatype TurnResult = TurnResult(
    intent: string, guidanceTokens: seq<Token>, nodeErrors: map<string, string>, aborted: bool, costUsd: real)

  /** What the nodes of this turn compute: the model's tokens, the other outputs and the errors raised if they fail. */
  datatype Script = Script(
    tokens: seq<Token>, intent: Option<string>, upstreamErrors: map<string, string>, costUsd: real,
    guidanceError: string, graphError: string)

  /** Where the graph task is suspended. */
  datatype Producer =
    | Nodes                          // in the nodes before guidance
    | Streaming(next: nat)           // awaiting the model's text number `next`
    | Putting(next: nat)             // awaiting put(text number `next`)
    | Closing(failed: bool)          // awaiting put(None)
    | Returned(failed: bool)         // the guidance node has returned, the graph has not
    | Finished(result: TurnResult)
    | Cancelled

  /** Where the generator `run` is suspended. */
  datatype Consumer =
    | Waiting                        // awaiting queue.get()
    | Yielding                       // a token has been handed to the caller
    | Drained                        // sentinel seen, awaiting the graph task
    | TimedOut                       // ceiling exceeded, awaiting the cancelled graph task
    | Ended(result: TurnResult)
    | Interrupted                    // CancelledError left `run`

  datatype Turn = Turn(
    maxsize: int, script: Script, queue: seq<Item>, producer: Producer, consumer: Consumer,
    sent: seq<Token>,                // history: tokens the guidance node has put
    yielded: seq<Token>)             // history: tokens handed to the caller

  datatype Action =
    | NodesFinish | StreamText | StreamEnd | StreamFail | PutText | PutDone | GraphReturn | GraphRaise | CancelDelivered
    | Get | Resume | Timeout | Join

  function Start(maxsize: int, script: Script): Turn
  {
    Turn(maxsize, script, [], Nodes, Waiting, [], [])
  }

  /** asyncio.Queue.full(): a queue whose maxsize is not positive is never full. */
  predicate Full(maxsize: int, queue: seq<Item>)
  {
    0 < maxsize <= |queue|
  }

  /** The `finally` block: put_nowait(None) with QueueFull swallowed. */
  function FinallyPut(maxsize: int, queue: seq<Item>): seq<Item>
  {
    if Full(maxsize, queue) then queue else queue + [StreamDone]
  }

  const CLARIFICATION: string := "Clarification"

  function CompletedResult(s: Script, failed: bool): TurnResult
  {
    TurnResult(
      if s.intent.Some? && s.intent.value != "" then s.intent.value else CLARIFICATION,
      if failed then [] else s.tokens,
      if failed then s.upstreamErrors["GuidanceGeneratorNode" := s.guidanceError] else s.upstreamErrors,
      failed, s.costUsd)
  }

  function RaisedResult(s: Script): TurnResult
  {
    TurnResult(CLARIFICATION, [], map["pipeline" := s.graphError], true, 0.0)
  }

  predicate ProducerDone(p: Producer)
  {
    p.Finished? || p.Cancelled?
  }

  predicate IsConsumerAction(a: Action)
  {
    a.Get? || a.Resume? || a.Timeout? || a.Join?
  }

  /** After cancel() the graph task's next resumption raises, so only CancelDelivered is left to it. */
  predicate Enabled(t: Turn, a: Action)
  {
    if IsConsumerAction(a) then
      match a
      case Get => t.consumer.Waiting? && t.queue != []
      case Resume => t.consumer.Yielding?
      case Timeout => t.consumer.Waiting? && t.queue == []
      case _ => (t.consumer.Drained? || t.consumer.TimedOut?) && ProducerDone(t.producer)
    else if a.CancelDelivered? then
      t.consumer.TimedOut? && !ProducerDone(t.producer)
    else
      && !t.consumer.TimedOut?
      && match a
         case NodesFinish => t.producer.Nodes?
         case StreamText => t.producer.Streaming? && t.producer.next < |t.script.tokens|
         case StreamEnd => t.producer.Streaming? && t.producer.next == |t.script.tokens|
         case StreamFail => t.producer.Streaming?
         case PutText => t.producer.Putting? && t.producer.next < |t.script.tokens| && !Full(t.maxsize, t.queue)
         case PutDone => t.producer.Closing? && !Full(t.maxsize, t.queue)
         case GraphReturn => t.producer.Returned?
         case _ => t.producer.Nodes? || t.producer.Returned?
  }

  function Step(t: Turn, a: Action): Turn
    requires Enabled(t, a)
  {
    match a
    case NodesFinish => t.(producer := Streaming(0))
    case StreamText => t.(producer := Putting(t.producer.next))
    case StreamEnd => t.(producer := Closing(false))
    case StreamFail => t.(producer := Closing(true))
    case PutText =>
      var text := t.script.tokens[t.producer.next];
      t.(queue := t.queue + [Text(text)], sent := t.sent + [text], producer := Streaming(t.producer.next + 1))
    case PutDone => t.(queue := t.queue + [StreamDone], producer := Returned(t.producer.failed))
    case GraphReturn =>
      t.(queue := FinallyPut(t.maxsize, t.queue), producer := Finished(CompletedResult(t.script, t.producer.failed)))
    case GraphRaise =>
      t.(queue := FinallyPut(t.maxsize, t.queue), producer := Finished(RaisedResult(t.script)))
    case CancelDelivered => t.(queue := FinallyPut(t.maxsize, t.queue), producer := Cancelled)
    case Get =>
      if t.queue[0].StreamDone? then t.(queue := t.queue[1..], consumer := Drained)
      else t.(queue := t.queue[1..], consumer := Yielding, yielded := t.yielded + [t.queue[0].token])
    case Resume => t.(consumer := Waiting)
    case Timeout => t.(consumer := TimedOut)
    case Join => t.(consumer := if t.producer.Finished? then Ended(t.producer.result) else Interrupted)
  }

  /** `acts` can be taken one after the other from `t`. */
  predicate Schedulable(t: Turn, acts: seq<Action>)
    decreases |acts|
  {
    acts == [] || (Enabled(t, acts[0]) && Schedulable(Step(t, acts[0]), acts[1..]))
  }

  function Exec(t: Turn, acts: seq<Action>): Turn
    requires Schedulable(t, acts)
    decreases |acts|
  {
    if acts == [] then t else Exec(Step(t, acts[0]), acts[1..])
  }

  predicate RunOver(t: Turn)
  {
    t.consumer.Ended? || t.consumer.Interrupted?
  }

  // ------------------------------------------------------------------------
  // The invariant
  // ------------------------------------------------------------------------

  /** The queue is the tokens `rest` followed by `lo` to `hi` sentinels. */
  ghost predicate Holds(queue: seq<Item>, rest: seq<Token>, lo: nat, hi: nat)
  {
    && |rest| + lo <= |queue| <= |rest| + hi
    && (forall k :: 0 <= k < |rest| ==> queue[k] == Text(rest[k]))
    && (forall k :: |rest| <= k < |queue| ==> queue[k] == StreamDone)
  }

  ghost predicate ProducerInv(t: Turn)
  {
    && t.sent <= t.script.tokens
    && match t.producer
       case Nodes => t.sent == []
       case Streaming(i) => |t.sent| == i
       case Putting(i) => |t.sent| == i < |t.script.tokens|
       case Closing(failed) => failed || t.sent == t.script.tokens
       case Returned(failed) => failed || t.sent == t.script.tokens
       case Finished(r) => if r.aborted then r.guidanceTokens == [] else t.sent == t.script.tokens == r.guidanceTokens
       case Cancelled => t.consumer.TimedOut? || t.consumer.Interrupted?
  }

  ghost predicate Inv(t: Turn)
  {
    && ProducerInv(t)
    && t.yielded <= t.sent
    && match t.consumer
       case Waiting | Yielding =>
         var closed := t.producer.Returned? || t.producer.Finished?;
         Holds(t.queue, t.sent[|t.yielded|..], if closed then 1 else 0, if t.producer.Finished? then 2 else if closed then 1 else 0)
       case Drained =>
         && t.yielded == t.sent
         && (t.producer.Returned? || t.producer.Finished?)
         && Holds(t.queue, [], 0, if t.producer.Finished? then 1 else 0)
       case Ended(r) =>
         t.yielded == t.sent && t.producer == Finished(r) && Holds(t.queue, [], 0, 1)
       case TimedOut =>
         && t.yielded == t.sent && !t.producer.Returned? && !t.producer.Finished?
         && Holds(t.queue, [], 0, if t.producer.Cancelled? then 1 else 0)
       case Interrupted =>
         t.yielded == t.sent && t.producer.Cancelled? && Holds(t.queue, [], 0, 1)
  }

  lemma StartInv(maxsize: int, script: Script)
    ensures Inv(Start(maxsize, script))
  {
  }

  lemma {:induction false} ProducerStepKeepsInv(t: Turn, a: Action)
    requires Inv(t) && Enabled(t, a) && !IsConsumerAction(a)
    ensures Inv(Step(t, a))
  {
    if a.PutText? {
      PutKeepsInv(t);
    }
  }

  lemma PutKeepsInv(t: Turn)
    requires Inv(t) && Enabled(t, PutText)
    ensures Inv(Step(t, PutText))
  {
    var u := Step(t, PutText);
    assert u.sent[|u.yielded|..] == t.sent[|t.yielded|..] + [t.script.tokens[t.producer.next]];
  }

  lemma {:induction false} ConsumerStepKeepsInv(t: Turn, a: Action)
    requires Inv(t) && Enabled(t, a) && IsConsumerAction(a)
    ensures Inv(Step(t, a))
  {
    var u := Step(t, a);
    var rest := t.sent[|t.yielded|..];
    if a.Get? {
      if t.queue[0].StreamDone? {
        assert rest == [];
      } else {
        assert rest != [] && t.queue[0] == Text(rest[0]);
        assert u.sent[|u.yielded|..] == rest[1..];
        assert t.sent == t.yielded + rest;
      }
    } else if a.Timeout? {
      assert rest == [];
    }
  }

  lemma {:induction false} StepKeepsInv(t: Turn, a: Action)
    requires Inv(t) && Enabled(t, a)
    ensures Inv(Step(t, a))
  {
    if IsConsumerAction(a) { ConsumerStepKeepsInv(t, a); } else { ProducerStepKeepsInv(t, a); }
  }

  lemma {:induction false} RunKeepsInv(t: Turn, acts: seq<Action>)
    requires Inv(t) && Schedulable(t, acts)
    ensures Inv(Exec(t, acts))
    decreases |acts|
  {
    if acts != [] {
      StepKeepsInv(t, acts[0]);
      RunKeepsInv(Step(t, acts[0]), acts[1..]);
    }
  }

  lemma {:induction false} ExecAppend(t: Turn, acts: seq<Action>, a: Action)
    requires Schedulable(t, acts) && Enabled(Exec(t, acts), a)
    ensures Schedulable(t, acts + [a]) && Exec(t, acts + [a]) == Step(Exec(t, acts), a)
    decreases |acts|
  {
    hide Enabled, Step;
    if acts == [] {
      assert acts + [a] == [a] && [a][1..] == [];
    } else {
      assert (acts + [a])[0] == acts[0] && (acts + [a])[1..] == acts[1..] + [a];
      ExecAppend(Step(t, acts[0]), acts[1..], a);
    }
  }

  lemma {:induction false} RunKeepsConfig(t: Turn, acts: seq<Action>)
    requires Schedulable(t, acts)
    ensures Exec(t, acts).maxsize == t.maxsize && Exec(t, acts).script == t.script
    decreases |acts|
  {
    if acts != [] {
      RunKeepsConfig(Step(t, acts[0]), acts[1..]);
    }
  }

  // ------------------------------------------------------------------------
  // Exact delivery
  // ------------------------------------------------------------------------

  /**
   On every run: what the caller has received is a prefix of what the guidance node put,
   which is a prefix of the model's tokens; once the drain loop has stopped nothing put is
   missing; a turn that ends is aborted exactly when the model call or the graph failed, and
   then reports no tokens; any other delivered exactly its `guidance_tokens`, which are all
   the model's tokens.
   */
  lemma {:induction false} ExactDelivery(maxsize: int, script: Script, acts: seq<Action>)
    requires Schedulable(Start(maxsize, script), acts)
    ensures var t := Exec(Start(maxsize, script), acts);
            && t.yielded <= t.sent <= script.tokens
            && (!t.consumer.Waiting? && !t.consumer.Yielding? ==> t.yielded == t.sent)
            && (t.consumer.Ended? && !t.consumer.result.aborted ==>
                  t.yielded == t.consumer.result.guidanceTokens == script.tokens)
            && (t.consumer.Ended? && t.consumer.result.aborted ==> t.consumer.result.guidanceTokens == [])
            && (t.consumer.Ended? ==> (t.consumer.result.aborted <==> StreamFail in acts || GraphRaise in acts))
            && (RunOver(t) ==> t.queue == [] || t.queue == [StreamDone])
  {
    StartInv(maxsize, script);
    RunKeepsInv(Start(maxsize, script), acts);
    RunKeepsConfig(Start(maxsize, script), acts);
    if Exec(Start(maxsize, script), acts).consumer.Ended? {
      TurnResultIff(maxsize, script, acts);
    }
  }

  /** Between steps nothing is lost, duplicated or reordered: received ++ queued == put. */
  lemma {:induction false} TokensConserved(maxsize: int, script: Script, acts: seq<Action>)
    requires Schedulable(Start(maxsize, script), acts)
    ensures var t := Exec(Start(maxsize, script), acts);
            t.yielded + QueuedTokens(t.queue) == t.sent
  {
    var t := Exec(Start(maxsize, script), acts);
    StartInv(maxsize, script);
    RunKeepsInv(Start(maxsize, script), acts);
    var rest := t.sent[|t.yielded|..];
    assert Holds(t.queue, rest, 0, 2);
    QueuedTokensOf(t.queue, rest);
    assert t.sent == t.yielded + rest;
  }

  function QueuedTokens(queue: seq<Item>): seq<Token>
  {
    if queue == [] then []
    else if queue[0].Text? then [queue[0].token] + QueuedTokens(queue[1..])
    else QueuedTokens(queue[1..])
  }

  lemma HoldsRest(queue: seq<Item>, rest: seq<Token>)
    requires Holds(queue, rest, 0, 2) && queue != []
    ensures if rest == [] then queue[0] == StreamDone && Holds(queue[1..], [], 0, 2)
            else queue[0] == Text(rest[0]) && Holds(queue[1..], rest[1..], 0, 2)
  {
  }

  lemma {:induction false} QueuedTokensOf(queue: seq<Item>, rest: seq<Token>)
    requires Holds(queue, rest, 0, 2)
    ensures QueuedTokens(queue) == rest
    decreases |queue|
  {
    if queue == [] {
      assert rest == [];
    } else {
      HoldsRest(queue, rest);
      QueuedTokensOf(queue[1..], if rest == [] then [] else rest[1..]);
    }
  }

  /** The queue never holds more than its maximum size, when it has one. */
  lemma {:induction false} QueueStaysBounded(t: Turn, acts: seq<Action>)
    requires Schedulable(t, acts) && (t.maxsize > 0 ==> |t.queue| <= t.maxsize)
    ensures t.maxsize > 0 ==> |Exec(t, acts).queue| <= t.maxsize
    decreases |acts|
  {
    if acts != [] {
      QueueStaysBounded(Step(t, acts[0]), acts[1..]);
    }
  }

  // ------------------------------------------------------------------------
  // The result of a turn
  // ------------------------------------------------------------------------

  /** What is known of the producer once the model call has failed, or not, and the graph has raised, or not. */
  ghost predicate ResultSoFar(t: Turn, failed: bool, raised: bool)
  {
    match t.producer
    case Nodes => !failed && !raised
    case Streaming(_) => !failed && !raised
    case Putting(_) => !failed && !raised
    case Closing(f) => f == failed && !raised
    case Returned(f) => f == failed && !raised
    case Finished(r) => r == if raised then RaisedResult(t.script) else CompletedResult(t.script, failed)
    case Cancelled => true
  }

  lemma {:induction false} ResultOfRun(t: Turn, acts: seq<Action>, failed: bool, raised: bool)
    requires Schedulable(t, acts) && ResultSoFar(t, failed, raised)
    ensures ResultSoFar(Exec(t, acts), failed || StreamFail in acts, raised || GraphRaise in acts)
    decreases |acts|
  {
    hide CompletedResult, RaisedResult;
    if acts != [] {
      var a := acts[0];
      ResultOfRun(Step(t, a), acts[1..], failed || a.StreamFail?, raised || a.GraphRaise?);
      assert acts == [a] + acts[1..];
    }
  }

  lemma ResultOfEnded(maxsize: int, script: Script, acts: seq<Action>)
    requires Schedulable(Start(maxsize, script), acts) && Exec(Start(maxsize, script), acts).consumer.Ended?
    ensures Exec(Start(maxsize, script), acts).consumer.result
            == if GraphRaise in acts then RaisedResult(script) else CompletedResult(script, StreamFail in acts)
  {
    hide CompletedResult, RaisedResult, Step, Enabled;
    StartInv(maxsize, script);
    RunKeepsInv(Start(maxsize, script), acts);
    RunKeepsConfig(Start(maxsize, script), acts);
    ResultOfRun(Start(maxsize, script), acts, false, false);
  }

  /**
   On every run a turn that ends is aborted exactly when the model call or the graph failed.
   Otherwise its result lists all the model's tokens; unless the graph failed, it carries the
   intent (a default for none), the cost and the errors the nodes left, and the guidance
   node's own error exactly when that node failed.
   */
  lemma {:induction false} TurnResultIff(maxsize: int, script: Script, acts: seq<Action>)
    requires Schedulable(Start(maxsize, script), acts) && Exec(Start(maxsize, script), acts).consumer.Ended?
    ensures var r := Exec(Start(maxsize, script), acts).consumer.result;
            && (r.aborted <==> StreamFail in acts || GraphRaise in acts)
            && r.guidanceTokens == (if r.aborted then [] else script.tokens)
    ensures var r := Exec(Start(maxsize, script), acts).consumer.result;
            if GraphRaise in acts then
              r.intent == "Clarification" && r.nodeErrors == map["pipeline" := script.graphError] && r.costUsd == 0.0
            else
              && r.costUsd == script.costUsd
              && r.intent == (if script.intent == None || script.intent == Some("") then "Clarification" else script.intent.value)
              && (forall node :: node != "GuidanceGeneratorNode" ==>
                    (node in r.nodeErrors <==> node in script.upstreamErrors)
                    && (node in r.nodeErrors ==> r.nodeErrors[node] == script.upstreamErrors[node]))
              && (StreamFail in acts ==>
                    "GuidanceGeneratorNode" in r.nodeErrors && r.nodeErrors["GuidanceGeneratorNode"] == script.guidanceError)
              && (StreamFail !in acts ==> r.nodeErrors == script.upstreamErrors)
  {
    hide Exec, Schedulable;
    ResultOfEnded(maxsize, script, acts);
  }

  predicate Expired(t: Turn)
  {
    t.consumer.TimedOut? || t.consumer.Interrupted?
  }

  lemma StepExpires(t: Turn, a: Action)
    requires Inv(t) && Enabled(t, a)
    ensures Expired(Step(t, a)) <==> Expired(t) || a.Timeout?
  {
  }

  /** The turn is cancelled exactly when the ceiling expires. */
  lemma {:induction false} RunExpires(t: Turn, acts: seq<Action>)
    requires Inv(t) && Schedulable(t, acts)
    ensures Expired(Exec(t, acts)) <==> Expired(t) || Timeout in acts
    decreases |acts|
  {
    hide Inv, Expired, Step, Enabled;
    if acts != [] {
      StepExpires(t, acts[0]);
      StepKeepsInv(t, acts[0]);
      RunExpires(Step(t, acts[0]), acts[1..]);
      assert acts == [acts[0]] + acts[1..];
    }
  }

  /** How a run that is over ended, told from its steps: cancelled, aborted or completed. */
  lemma OutcomeOfRun(maxsize: int, script: Script, acts: seq<Action>)
    requires Schedulable(Start(maxsize, script), acts) && RunOver(Exec(Start(maxsize, script), acts))
    ensures var t := Exec(Start(maxsize, script), acts);
            && (t.consumer.Interrupted? <==> Timeout in acts)
            && (t.consumer.Ended? ==> (t.consumer.result.aborted <==> StreamFail in acts || GraphRaise in acts))
  {
    hide Step, Enabled, CompletedResult, RaisedResult;
    StartInv(maxsize, script);
    RunExpires(Start(maxsize, script), acts);
    if Exec(Start(maxsize, script), acts).consumer.Ended? {
      TurnResultIff(maxsize, script, acts);
    }
  }

  // ------------------------------------------------------------------------
  // No deadlock, and termination
  // ------------------------------------------------------------------------

  /** A `QueueFull` swallowed in the `finally` block never loses the only sentinel. */
  lemma {:induction false} SwallowedQueueFullIsHarmless(maxsize: int, script: Script, acts: seq<Action>)
    requires Schedulable(Start(maxsize, script), acts)
    ensures var t := Exec(Start(maxsize, script), acts);
            (t.producer.Nodes? || t.producer.Returned? || t.consumer.TimedOut?) && Full(maxsize, t.queue) ==> StreamDone in t.queue
  {
    var t := Exec(Start(maxsize, script), acts);
    StartInv(maxsize, script);
    RunKeepsInv(Start(maxsize, script), acts);
    RunKeepsConfig(Start(maxsize, script), acts);
    if t.queue != [] && (t.producer.Nodes? || t.producer.Returned? || t.consumer.TimedOut?) {
      assert t.queue[|t.queue| - 1] == StreamDone;
    }
  }

  /**
   However the graph task ends - by returning, by a failure, by cancellation - it leaves a
   sentinel at the end of the queue, one more than before exactly if there was room.
   */
  lemma {:induction false} GraphEndLeavesSentinel(t: Turn, a: Action)
    requires Inv(t) && Enabled(t, a) && (a.GraphReturn? || a.GraphRaise? || a.CancelDelivered?)
    ensures var queue := Step(t, a).queue;
            && queue != [] && queue[|queue| - 1] == StreamDone
            && queue == if 0 < t.maxsize <= |t.queue| then t.queue else t.queue + [StreamDone]
  {
    if 0 < t.maxsize <= |t.queue| {
      assert t.queue[|t.queue| - 1] == StreamDone;
    }
  }

  /** Once a sentinel has been put, the graph task has no blocking put left. */
  lemma {:induction false} NoBlockingPutAfterSentinel(maxsize: int, script: Script, acts: seq<Action>)
    requires Schedulable(Start(maxsize, script), acts)
    ensures var t := Exec(Start(maxsize, script), acts);
            StreamDone in t.queue || t.consumer.Drained? || t.consumer.Ended? ==>
              t.producer.Returned? || ProducerDone(t.producer)
  {
    StartInv(maxsize, script);
    RunKeepsInv(Start(maxsize, script), acts);
  }

  /** In every reachable unfinished state some step other than the timeout can be taken. */
  lemma {:induction false} NeverStuck(maxsize: int, script: Script, acts: seq<Action>) returns (a: Action)
    requires Schedulable(Start(maxsize, script), acts)
    requires !RunOver(Exec(Start(maxsize, script), acts))
    ensures Enabled(Exec(Start(maxsize, script), acts), a) && !a.Timeout?
  {
    StartInv(maxsize, script);
    RunKeepsInv(Start(maxsize, script), acts);
    a := Progress(Exec(Start(maxsize, script), acts));
  }

  lemma {:induction false} Progress(t: Turn) returns (a: Action)
    requires Inv(t) && !RunOver(t)
    ensures Enabled(t, a) && !a.Timeout?
  {
    match t.consumer {
      case Yielding => a := Resume;
      case Waiting =>
        if t.queue != [] {
          a := Get;
        } else {
          a := match t.producer
            case Nodes => NodesFinish
            case Streaming(i) => if i < |t.script.tokens| then StreamText else StreamEnd
            case Putting(_) => PutText
            case Closing(_) => PutDone
            case _ => GraphReturn;
        }
      case Drained => a := if t.producer.Finished? then Join else GraphReturn;
      case TimedOut => a := if t.producer.Cancelled? then Join else CancelDelivered;
    }
  }

  function ProducerWork(t: Turn): int
  {
    var n := |t.script.tokens|;
    match t.producer
    case Nodes => 8 + 4 * n
    case Streaming(i) => 7 + 4 * (n - i)
    case Putting(i) => 6 + 4 * (n - i)
    case Closing(_) => 6
    case Returned(_) => 3
    case _ => 0
  }

  function ConsumerWork(t: Turn): int
  {
    match t.consumer
    case Yielding => 3
    case Waiting => 2
    case Drained | TimedOut => 1
    case _ => 0
  }

  function Measure(t: Turn): int
  {
    ProducerWork(t) + 2 * |t.queue| + ConsumerWork(t)
  }

  lemma MeasureNonNegative(t: Turn)
    requires Inv(t)
    ensures 0 <= Measure(t)
  {
    hide Holds;
    assert |t.sent| <= |t.script.tokens|;
  }

  /** Every step of the protocol is progress. */
  lemma {:induction false} StepLowersMeasure(t: Turn, a: Action)
    requires Inv(t) && Enabled(t, a)
    ensures 0 <= Measure(Step(t, a)) < Measure(t)
  {
    hide Holds;
    StepKeepsInv(t, a);
    MeasureNonNegative(Step(t, a));
  }

  lemma {:induction false} RunLowersMeasure(t: Turn, acts: seq<Action>)
    requires Inv(t) && Schedulable(t, acts)
    ensures |acts| + Measure(Exec(t, acts)) <= Measure(t)
    ensures 0 <= Measure(Exec(t, acts))
    decreases |acts|
  {
    if acts == [] {
      assert |t.sent| <= |t.script.tokens|;
    } else {
      StepLowersMeasure(t, acts[0]);
      StepKeepsInv(t, acts[0]);
      RunLowersMeasure(Step(t, acts[0]), acts[1..]);
    }
  }

  /** Every schedule, fair or not, ends after at most four steps a token and ten more. */
  lemma {:induction false} AlwaysEnds(maxsize: int, script: Script, acts: seq<Action>)
    requires Schedulable(Start(maxsize, script), acts)
    ensures |acts| <= 4 * |script.tokens| + 10
  {
    StartInv(maxsize, script);
    RunLowersMeasure(Start(maxsize, script), acts);
  }

  // ------------------------------------------------------------------------
  // Is the graph task done when the drain loop exits?
  // ------------------------------------------------------------------------

  /** The graph task is done at the end of `acts` if the drain loop has exited by then and the turn is not over. */
  predicate DoneIfDrained(maxsize: int, script: Script, acts: seq<Action>)
  {
    Schedulable(Start(maxsize, script), acts) && Exec(Start(maxsize, script), acts).consumer.Drained?
    ==> ProducerDone(Exec(Start(maxsize, script), acts).producer)
  }

  /** The model call fails before its first text, the stream is closed, and the sentinel is received at once. */
  const EARLY_EXIT := [NodesFinish, StreamFail, PutDone, Get]

  lemma EarlyExit(maxsize: int, script: Script)
    ensures !DoneIfDrained(maxsize, script, EARLY_EXIT)
  {
    var t0 := Start(maxsize, script);
    assert EARLY_EXIT[1..] == [StreamFail, PutDone, Get];
    assert EARLY_EXIT[1..][1..] == [PutDone, Get];
    assert EARLY_EXIT[1..][1..][1..] == [Get];
    assert EARLY_EXIT[1..][1..][1..][1..] == [];
    var t3 := Step(Step(Step(t0, NodesFinish), StreamFail), PutDone);
    assert Exec(t3, [Get]) == Step(t3, Get);
  }

  /**
   For no queue size and no script is the graph task guaranteed to be done when the drain
   loop exits: the guidance node closes the stream before the graph returns, so the `await`
   after the loop can suspend.
   */
  lemma {:induction false} DrainMayExitBeforeGraphIsDone(maxsize: int, script: Script)
    ensures !(forall acts :: DoneIfDrained(maxsize, script, acts))
  {
    EarlyExit(maxsize, script);
  }

  lemma {:induction false} FinishedIff(t: Turn, acts: seq<Action>)
    requires Schedulable(t, acts)
    ensures Exec(t, acts).producer.Finished? <==> t.producer.Finished? || GraphReturn in acts || GraphRaise in acts
    decreases |acts|
  {
    if acts != [] {
      FinishedIff(Step(t, acts[0]), acts[1..]);
      assert acts == [acts[0]] + acts[1..];
    }
  }

  /** Between that exit and the end of the turn it is done exactly when the graph's last step, its return or its failure, has been taken. */
  lemma {:induction false} GraphDoneAtExitIff(maxsize: int, script: Script, acts: seq<Action>)
    requires Schedulable(Start(maxsize, script), acts) && Exec(Start(maxsize, script), acts).consumer.Drained?
    ensures ProducerDone(Exec(Start(maxsize, script), acts).producer) <==> GraphReturn in acts || GraphRaise in acts
  {
    StartInv(maxsize, script);
    RunKeepsInv(Start(maxsize, script), acts);
    FinishedIff(Start(maxsize, script), acts);
  }

  /** Seen from the state: receiving the sentinel finds the graph task done exactly when it had finished already. */
  lemma {:induction false} ExitFindsGraphDoneIff(t: Turn)
    requires Inv(t) && t.consumer.Waiting? && t.queue != [] && t.queue[0] == StreamDone
    ensures Step(t, Get).consumer.Drained?
    ensures ProducerDone(Step(t, Get).producer) <==> t.producer.Finished?
  {
  }
}
