/**
 * InMemoryTransport as the source writes it: fields updated in place around calls on the shared
 * broker. Contracts tie the broker's and the transport's new state to the model.
 */
module InMemory {
  import opened Wrappers
  import opened Seam
  import opened BrokerModel
  import opened BrokerClass
  import opened TransportModel

  class InMemoryTransport {
    const broker: Broker
    ghost const who: nat

    var connected: bool
    var subscribed: bool
    var topic: Topic
    var outstanding: map<nat, Held>
    var stats: Stats
    ghost var returned: nat
    ghost var failed: nat

    ghost function State(): Transport
      reads this
    {
      Transport(connected, subscribed, topic, outstanding, stats, returned, failed)
    }

    constructor (broker: Broker, ghost who: nat)
      ensures State() == NEW_TRANSPORT && this.broker == broker && this.who == who
    {
      this.broker, this.who := broker, who;
      connected, subscribed, topic, outstanding, stats := false, false, "", map[], NO_STATS;
      returned, failed := 0, 0;
    }

    method Connect()
      modifies this
      ensures State() == TransportModel.Connect(old(State()))
    {
      connected := true;
    }

    method EnsureTopic(topic: Topic, options: TopicOptions) returns (outcome: DeclareOutcome)
      modifies broker
      ensures (broker.State(), outcome) == Declare(old(broker.State()), State(), topic, options)
    {
      if !connected {
        return DeclaredBeforeConnect;
      }
      if options.deadLetter {
        var forensic := broker.EnsureTopic(DeadLetterTopic(topic), ForensicTopicOptions(topic));
        if forensic != Declared {
          return ForensicRefused(forensic);
        }
      }
      var result := broker.EnsureTopic(topic, options);
      return Answered(result);
    }

    method TopicDepth(topic: Topic) returns (depth: Option<nat>)
      ensures depth == if connected then Some(|Queue(broker.State(), topic)|) else None
    {
      if !connected {
        return None;
      }
      var waiting := broker.Depth(topic);
      return Some(waiting);
    }

    method PurgeTopic(topic: Topic) returns (removed: Option<nat>)
      modifies broker
      ensures !connected ==> removed == None && broker.State() == old(broker.State())
      ensures connected ==>
                (broker.State(), removed) == (Purge(old(broker.State()), topic).0, Some(|Queue(old(broker.State()), topic)|))
    {
      if !connected {
        return None;
      }
      var gone := broker.Purge(topic);
      return Some(gone);
    }

    method Send(topic: Topic, payload: string, durable: bool, route: string) returns (result: SendResult)
      modifies this, broker
      ensures (broker.State(), State(), result)
           == TransportModel.Send(old(broker.State()), old(State()), topic, payload, durable, route)
    {
      if !connected {
        return SentBeforeConnect;
      }
      if durable {
        return DurableUnsupported;
      }
      var verdict := broker.Publish(topic, payload, route);
      if verdict == Verdict.Failed {
        return SendThrew;
      }
      stats := stats.(sent := stats.sent + 1, bytesSent := stats.bytesSent + |payload|);
      return Sent(verdict == Accepted);
    }

    method Subscribe(topic: Topic) returns (result: SubscribeResult)
      modifies this
      ensures (State(), result) == TransportModel.Subscribe(old(State()), topic)
    {
      if !connected {
        return SubscribedBeforeConnect;
      }
      if subscribed {
        return AlreadySubscribed;
      }
      this.topic, subscribed := topic, true;
      return Subscribed;
    }

    /** `answer` is what the handler, called from inside, came back with. */
    method Pump(attempts: nat, handler: Delivery -> HandlerResult) returns (result: PumpResult, answer: Option<HandlerResult>)
      modifies this, broker
      ensures (broker.State(), State(), result) == TransportModel.Pump(old(broker.State()), old(State()), who, attempts, handler)
      ensures answer == HandlerAnswer(old(broker.State()), old(State()), who, attempts, handler)
    {
      if !connected {
        return Gone, None;
      }
      if !subscribed {
        return Alive, None;
      }
      var turn := 0;
      while turn < attempts
        invariant turn <= attempts
        invariant broker.State() == old(broker.State()) && State() == old(State())
        invariant turn > 0 ==> Deliver(broker.State(), State(), who).2 == None
      {
        turn := turn + 1;
        if outstanding != map[] {
          continue;
        }
        var taken := broker.Take(topic, who);
        if taken == None {
          continue;
        }
        var message := taken.value;
        var delivery := Delivery(message.body, message.redelivered, message.sequence);
        stats := stats.(received := stats.received + 1, bytesReceived := stats.bytesReceived + |message.body|);
        outstanding := outstanding[message.sequence := message];
        answer := Some(handler(delivery));
        var completion := Finish(message.sequence, answer.value);
        return if completion == Done then Alive else PumpThrew(completion), answer;
      }
      return Alive, None;
    }

    /** pump from the handler's answer on. */
    method Finish(tag: nat, result: HandlerResult) returns (completion: Completion)
      requires tag in outstanding
      modifies this, broker
      ensures (broker.State(), State(), completion)
           == TransportModel.Finish(old(broker.State()), old(State()), who, tag, result)
    {
      match result
      case Threw =>
        stats := stats.(abandoned := stats.abandoned + 1);
        return Rethrown;
      case Returned(disposition) =>
        if disposition == Deferred {
          return Done;
        }
        completion := Perform(tag, disposition);
    }

    /** Erase the delivery and carry out its disposition; the shared tail of pump and settle. */
    method Perform(tag: nat, disposition: Disposition) returns (completion: Completion)
      requires tag in outstanding && disposition != Deferred
      modifies this, broker
      ensures (broker.State(), State(), completion)
           == Resolve(old(broker.State()), old(State()), who, tag, disposition)
    {
      var message := outstanding[tag];
      outstanding := Drop(outstanding, tag);
      broker.Unrecord(message.sequence);
      match disposition {
        case Ack =>
          broker.Record(message.sequence, Ended(Acked(who)));
          stats := stats.(acksPerformed := stats.acksPerformed + 1);
        case Requeue =>
          broker.Requeue(topic, message);
          stats := stats.(requeuesPerformed := stats.requeuesPerformed + 1);
        case Reject =>
          var kept := broker.DeadLetter(topic, message);
          if !kept {
            failed := failed + 1;
            return DeadLetterThrew;
          }
          stats := stats.(rejectsPerformed := stats.rejectsPerformed + 1);
      }
      return Done;
    }

    method Settle(tag: nat, disposition: Disposition) returns (result: SettleResult)
      modifies this, broker
      ensures (broker.State(), State(), result)
           == TransportModel.Settle(old(broker.State()), old(State()), who, tag, disposition)
    {
      if !connected {
        return SettledBeforeConnect;
      }
      if disposition == Deferred {
        return CannotDeferAgain;
      }
      if tag !in outstanding {
        return UnknownTag;
      }
      var completion := Perform(tag, disposition);
      return Resolved(completion);
    }

    /** Walks `_outstanding` from the highest tag down, then clears it. */
    method ReturnOutstanding()
      modifies this, broker
      ensures (broker.State(), State()) == ReturnAll(old(broker.State()), old(State()))
    {
      var remaining := outstanding;
      while remaining != map[]
        invariant outstanding == old(outstanding)
        invariant ReturnAll(old(broker.State()), old(State()))
               == ReturnAll(broker.State(), State().(outstanding := remaining))
        decreases remaining.Keys
      {
        GreatestExists(remaining.Keys);
        var tag: nat :| IsGreatest(tag, remaining.Keys);
        ReturnAllStep(broker.State(), State().(outstanding := remaining), tag);
        hide ReturnAll;
        broker.Unrecord(remaining[tag].sequence);
        broker.Requeue(topic, remaining[tag]);
        remaining := Drop(remaining, tag);
        returned := returned + 1;
      }
      outstanding := map[];
    }

    method Close()
      modifies this, broker
      ensures (broker.State(), State()) == TransportModel.Close(old(broker.State()), old(State()))
    {
      ReturnOutstanding();
      connected, subscribed, topic := false, false, "";
    }
  }
}
