/**
 * The process-wide broker as the source writes it: an object whose fields its methods update.
 * Every method is one critical section; its contract ties the new state to the model.
 */
module BrokerClass {
  import opened Wrappers
  import opened Seam
  import opened Names
  import opened BrokerModel

  class Broker {
    var topics: map<Topic, TopicState>
    var groups: map<string, Routing>
    var sequence: nat
    ghost var history: History

    ghost function State(): BrokerState
      reads this
    {
      BrokerState(topics, groups, sequence, history)
    }

    constructor ()
      ensures State() == EMPTY_BROKER
    {
      topics, groups, sequence := map[], map[], 0;
      history := EMPTY_BROKER.history;
    }

    method EnsureTopic(topic: Topic, options: TopicOptions) returns (result: DeclareResult)
      modifies this
      ensures (State(), result) == BrokerModel.EnsureTopic(old(State()), topic, options)
    {
      if options.group != "" {
        if options.group !in groups {
          groups := groups[options.group := options.routing];
        } else if groups[options.group] != options.routing {
          return GroupConflict;
        }
        assert groups == old(groups)[options.group := options.routing];
      }
      if topic !in topics {
        topics := topics[topic := TopicState([], options, BindingOf(topic, options))];
        return Declared;
      }
      return if SameProperties(topics[topic].options, options) then Declared else PropertyConflict;
    }

    method Publish(topic: Topic, body: string, routeOverride: string) returns (verdict: Verdict)
      modifies this
      ensures (State(), verdict) == BrokerModel.Publish(old(State()), topic, body, routeOverride)
    {
      var group := if topic in topics then topics[topic].options.group else "";
      if group == "" {
        if topic !in topics {
          topics := topics[topic := TopicState([], DEFAULT_OPTIONS, "")];
        }
        verdict := Stamp(topic, body);
        return;
      }
      if group !in groups {
        groups := groups[group := Exact];
      }
      ghost var before := State();
      var routing := groups[group];
      var key := if routeOverride == "" then topics[topic].binding else routeOverride;
      var accepted, remaining := true, topics.Keys;
      while remaining != {}
        invariant remaining <= topics.Keys
        invariant Fanout(before, before.topics.Keys, group, routing, key, body, true)
               == Fanout(State(), remaining, group, routing, key, body, accepted)
        decreases remaining
      {
        LeastExists(remaining);
        var name: Topic :| IsLeast(name, remaining);
        LeastIsUnique(name, remaining);
        if Selects(topics[name], group, routing, key) {
          var offered := Stamp(name, body);
          if offered == Failed {
            return Failed;
          }
          accepted := offered == Accepted && accepted;
        }
        remaining := remaining - {name};
      }
      return if accepted then Accepted else Rejected;
    }

    /** `enqueueLocked(name, state, Held{++_sequence, body, false})` */
    method Stamp(topic: Topic, body: string) returns (verdict: Verdict)
      requires topic in topics
      modifies this
      ensures (State(), verdict) == PublishTo(old(State()), topic, body)
      ensures topics.Keys == old(topics.Keys) && groups == old(groups)
    {
      sequence := sequence + 1;
      history := history.(stamps := history.stamps[sequence := BrokerModel.Stamp(topic, body)]);
      verdict := EnqueueLocked(topic, Held(sequence, body, false));
    }

    method EnqueueLocked(topic: Topic, held: Held) returns (verdict: Verdict)
      requires topic in topics
      modifies this
      ensures (State(), verdict) == Enqueue(old(State()), topic, held)
      ensures topics.Keys == old(topics.Keys)
      decreases LongerNames(State(), topic), 1
    {
      var state := topics[topic];
      if state.options.maxLength > 0 && |state.messages| >= state.options.maxLength {
        match state.options.overflow
        case DropHead =>
          var evicted := state.messages[0];
          topics := topics[topic := state.(messages := state.messages[1..])];
          history := history.(places := history.places - {evicted.sequence});
          if state.options.deadLetter {
            var kept := DeadLetterLocked(topic, evicted);
            if !kept {
              Record(held.sequence, Ended(Lost));
              return Failed;
            }
          } else {
            Record(evicted.sequence, Ended(Dropped));
          }
        case RejectPublish =>
          Record(held.sequence, Ended(Refused(|state.messages|)));
          return Rejected;
        case RejectPublishDlx =>
          if state.options.deadLetter {
            var kept := DeadLetterLocked(topic, held);
            return if kept then Rejected else Failed;
          }
          Record(held.sequence, Ended(Refused(|state.messages|)));
          return Rejected;
      }
      topics := topics[topic := topics[topic].(messages := topics[topic].messages + [held])];
      history := history.(admitted := history.admitted + {held.sequence});
      Record(held.sequence, Waiting(topic));
      return Accepted;
    }

    /** False stands for the logic_error about a missing forensic destination. */
    method DeadLetterLocked(source: Topic, held: Held) returns (kept: bool)
      modifies this
      ensures (State(), kept) == BrokerModel.DeadLetter(old(State()), source, held)
      ensures topics.Keys == old(topics.Keys)
      decreases LongerNames(State(), source), 0
    {
      if source !in topics || !topics[source].options.deadLetter {
        Record(held.sequence, Ended(Dropped));
        return true;
      }
      var forensic := DeadLetterTopic(source);
      if forensic !in topics {
        Record(held.sequence, Ended(Lost));
        return false;
      }
      hide EndsWith, SameShape;
      Record(held.sequence, Ended(DeadLettered(sequence + 1)));
      sequence := sequence + 1;
      history := history.(stamps := history.stamps[sequence := BrokerModel.Stamp(forensic, held.body)]);
      NamesShrink(old(State()), State(), source);
      assert State() == Restamp(End(old(State()), held.sequence, DeadLettered(old(sequence) + 1)), forensic, held.body);
      var verdict := EnqueueLocked(forensic, Held(sequence, held.body, false));
      return verdict != Failed;
    }

    method Take(topic: Topic, ghost who: nat) returns (held: Option<Held>)
      modifies this
      ensures (State(), held) == BrokerModel.Take(old(State()), topic, who)
    {
      if topic !in topics || topics[topic].messages == [] {
        return None;
      }
      var front := topics[topic].messages[0];
      topics := topics[topic := topics[topic].(messages := topics[topic].messages[1..])];
      Unrecord(front.sequence);
      Record(front.sequence, With(who));
      if !front.redelivered {
        history := history.(firsts := history.firsts[topic := Firsts(old(State()), topic) + [front.sequence]]);
      }
      return Some(front);
    }

    method Requeue(topic: Topic, held: Held)
      modifies this
      ensures State() == RequeueFront(old(State()), topic, held)
    {
      var message := held.(redelivered := true);
      if topic !in topics {
        topics := topics[topic := TopicState([], DEFAULT_OPTIONS, "")];
      }
      topics := topics[topic := topics[topic].(messages := [message] + topics[topic].messages)];
      Record(held.sequence, Waiting(topic));
    }

    method DeadLetter(source: Topic, held: Held) returns (kept: bool)
      modifies this
      ensures (State(), kept) == BrokerModel.DeadLetter(old(State()), source, held)
    {
      kept := DeadLetterLocked(source, held);
    }

    method Depth(topic: Topic) returns (depth: nat)
      ensures depth == |Queue(State(), topic)|
    {
      return if topic in topics then |topics[topic].messages| else 0;
    }

    method Purge(topic: Topic) returns (removed: nat)
      modifies this
      ensures (State(), removed) == BrokerModel.Purge(old(State()), topic)
    {
      if topic !in topics {
        return 0;
      }
      removed := |topics[topic].messages|;
      ghost var purged := map n | n in Numbers(topics[topic].messages) :: Ended(Purged);
      topics := topics[topic := topics[topic].(messages := [])];
      history := history.(places := history.places + purged);
    }

    // ---------------------------------------------------------------- bookkeeping in the ghost history

    ghost method Record(n: nat, place: Place)
      modifies this`history
      ensures history == old(history).(places := old(history).places[n := place])
    {
      history := history.(places := history.places[n := place]);
    }

    ghost method Unrecord(n: nat)
      modifies this`history
      ensures history == old(history).(places := old(history).places - {n})
    {
      history := history.(places := history.places - {n});
    }
  }
}
