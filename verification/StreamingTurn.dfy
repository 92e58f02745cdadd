/**
 The streaming turn in the form the executor runs it: an object whose queue and task
 positions are updated in place, driven by an arbitrary scheduler.
 */
module StreamingTurns {
  import opened Wrappers
  import opened TokenStream

  /** What the invariant says of a turn that is over. */
  lemma EndMeans(t: Turn)
    requires Inv(t) && RunOver(t)
    ensures t.yielded <= t.script.tokens && (t.queue == [] || t.queue == [StreamDone])
    ensures t.consumer.Interrupted? ==> t.producer.Cancelled?
    ensures t.consumer.Ended? ==>
      var result := t.consumer.result;
      && t.producer == Finished(result)
      && (!result.aborted ==> t.yielded == result.guidanceTokens == t.script.tokens)
      && (result.aborted ==> result.guidanceTokens == [])
  {
  }

  lemma NoSteps(t: Turn)
    ensures Schedulable(t, []) && Exec(t, []) == t
  {
  }

  class StreamingTurn {
    const maxsize: int
    const script: Script
    var queue: seq<Item>
    var producer: Producer
    var consumer: Consumer
    var sent: seq<Token>
    var yielded: seq<Token>

    constructor (maxsize: int, script: Script)
      ensures View() == Start(maxsize, script)
    {
      this.maxsize, this.script := maxsize, script;
      queue, producer, consumer, sent, yielded := [], Nodes, Waiting, [], [];
    }

    function View(): Turn
      reads this
    {
      Turn(maxsize, script, queue, producer, consumer, sent, yielded)
    }

    /** put_nowait(None), with QueueFull swallowed. */
    method CloseQueue()
      modifies `queue
      ensures queue == if 0 < maxsize <= |old(queue)| then old(queue) else old(queue) + [StreamDone]
    {
      if !Full(maxsize, queue) {
        queue := queue + [StreamDone];
      }
    }

    /** One step of the graph task. */
    method ProducerStep(a: Action)
      requires Enabled(View(), a) && !IsConsumerAction(a)
      modifies `queue, `producer, `sent
      ensures View() == Step(old(View()), a)
    {
      match a {
        case NodesFinish => producer := Streaming(0);
        case StreamText => producer := Putting(producer.next);
        case StreamEnd => producer := Closing(false);
        case StreamFail => producer := Closing(true);
        case PutText =>
          var text := script.tokens[producer.next];
          queue := queue + [Text(text)];
          sent := sent + [text];
          producer := Streaming(producer.next + 1);
        case PutDone =>
          queue := queue + [StreamDone];
          producer := Returned(producer.failed);
        case GraphReturn =>
          CloseQueue();
          producer := Finished(CompletedResult(script, producer.failed));
        case GraphRaise =>
          CloseQueue();
          producer := Finished(RaisedResult(script));
        case CancelDelivered =>
          CloseQueue();
          producer := Cancelled;
      }
    }

    /** One step of the generator: `_drain_queue`, then the `await` of the graph task. */
    method ConsumerStep(a: Action)
      requires Enabled(View(), a) && IsConsumerAction(a)
      modifies `queue, `consumer, `yielded
      ensures View() == Step(old(View()), a)
    {
      match a {
        case Get =>
          var item := queue[0];
          queue := queue[1..];
          if item.StreamDone? {
            consumer := Drained;
          } else {
            consumer := Yielding;
            yielded := yielded + [item.token];
          }
        case Resume => consumer := Waiting;
        case Timeout => consumer := TimedOut;
        case Join =>
          if producer.Finished? {
            consumer := Ended(producer.result);
          } else {
            consumer := Interrupted;
          }
      }
    }

    /**
     Drive both tasks to the end, picking any enabled step each time, the expiry of the
     ceiling included; `acts` is what was picked. The loop terminates whatever that is;
     without a result the turn was cancelled.
     */
    method RunToEnd() returns (result: Option<TurnResult>, ghost acts: seq<Action>)
      requires View() == Start(maxsize, script)
      modifies this
      ensures Schedulable(Start(maxsize, script), acts) && View() == Exec(Start(maxsize, script), acts)
      ensures result.Some? ==> consumer == Ended(result.value) && producer == Finished(result.value)
      ensures result.None? ==> consumer == Interrupted && producer == Cancelled && Timeout in acts
      ensures result.Some? ==> (result.value.aborted <==> StreamFail in acts || GraphRaise in acts) && Timeout !in acts
      ensures result.Some? && !result.value.aborted ==> yielded == result.value.guidanceTokens == script.tokens
      ensures result.Some? && result.value.aborted ==> result.value.guidanceTokens == []
      ensures yielded <= script.tokens && (queue == [] || queue == [StreamDone])
    {
      hide Inv, Step, Enabled, Measure, Schedulable, Exec, CompletedResult, RaisedResult;
      StartInv(maxsize, script);
      acts := [];
      NoSteps(View());
      while !RunOver(View())
        invariant Inv(View())
        invariant maxsize == View().maxsize && script == View().script
        invariant Schedulable(Start(maxsize, script), acts) && View() == Exec(Start(maxsize, script), acts)
        decreases Measure(View())
      {
        ghost var t := View();
        ghost var enabled := Progress(t);
        var a: Action :| Enabled(View(), a);
        StepLowersMeasure(t, a);
        StepKeepsInv(t, a);
        ExecAppend(Start(maxsize, script), acts, a);
        if IsConsumerAction(a) { ConsumerStep(a); } else { ProducerStep(a); }
        acts := acts + [a];
      }
      EndMeans(View());
      OutcomeOfRun(maxsize, script, acts);
      result := if consumer.Ended? then Some(consumer.result) else None;
    }
  }
}
