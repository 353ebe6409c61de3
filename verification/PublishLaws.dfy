/** Publishing, overflow and dead-lettering keep the invariant, and lose a copy only where nothing was provisioned. */
module PublishLaws {
  import opened Seam
  import opened Names
  import opened BrokerModel
  import opened QueueLaws
  import opened BrokerLaws

  lemma ProvisionedByShape(b: BrokerState, c: BrokerState, topic: Topic)
    requires SameShape(b, c)
    ensures Provisioned(b, topic) <==> Provisioned(c, topic)
  {
  }

  /** Pushing after an eviction, or below the bound, leaves the queue within its bound. */
  lemma EvolvesThenPush(b: BrokerState, c: BrokerState, topic: Topic, held: Held)
    requires Evolves(b, c) && topic in b.topics && topic in c.topics
    requires held.sequence !in b.history.places && !held.redelivered
    requires var bound := b.topics[topic].options.maxLength;
             bound == 0 || |Queue(c, topic)| < bound || |Queue(c, topic)| < |Queue(b, topic)|
    requires held.sequence !in c.history.places
    ensures Evolves(b, PushBack(c, topic, held))
  {
    var d := PushBack(c, topic, held);
    RetriesAppend(c.topics[topic].messages, held);
    forall t | t in b.topics ensures TopicKept(b, d, t) {
      assert TopicKept(b, c, t);
    }
  }

  // The next two hand on single facts where the definitions themselves stay hidden.

  lemma OpenIsStamped(b: BrokerState, open: set<nat>, n: nat)
    requires Sound(b, open) && n in open
    ensures Evolves(b, b) && n !in b.history.places && n in b.history.stamps && b.sequence + 1 !in open
  {
    assert forall topic | topic in b.topics :: TopicKept(b, b, topic);
  }

  lemma EvolvedFacts(b: BrokerState, c: BrokerState, n: nat)
    requires Evolves(b, c) && n in b.history.stamps
    ensures n in c.history.stamps && c.history.stamps[n] == b.history.stamps[n]
    ensures Settled(b.history, n) ==> Settled(c.history, n) && c.history.places[n] == b.history.places[n]
  {
  }

  lemma DroppedKeeps(b: BrokerState, open: set<nat>, topic: Topic, n: nat)
    requires Sound(b, open) && n in open && b.history.stamps[n].topic == topic
    requires topic in b.topics && !b.topics[topic].options.deadLetter
    ensures Sound(End(b, n, Dropped), open - {n}) && Evolves(b, End(b, n, Dropped))
  {
    hide QueueBooks, Numbers, Sorted, Evolves;
    EndKeeps(b, open, n, Dropped);
  }

  lemma LostKeeps(b: BrokerState, open: set<nat>, topic: Topic, n: nat)
    requires Sound(b, open) && n in open && b.history.stamps[n].topic == topic && !Provisioned(b, topic)
    ensures Sound(End(b, n, Lost), open - {n}) && Evolves(b, End(b, n, Lost))
  {
    hide QueueBooks, Numbers, Sorted, Evolves;
    EndKeeps(b, open, n, Lost);
  }

  /** enqueueLocked: the copy handed in ends up waiting exactly when the call answers true. */
  lemma {:induction false} EnqueueKeeps(b: BrokerState, open: set<nat>, topic: Topic, held: Held)
    requires Sound(b, open) && held.sequence in open
    requires topic in b.topics && b.history.stamps[held.sequence] == Stamp(topic, held.body)
    requires !held.redelivered && Newest(held.sequence, b.topics[topic].messages, Firsts(b, topic))
    ensures var (c, verdict) := Enqueue(b, topic, held);
            && Sound(c, open - {held.sequence})
            && Evolves(b, c)
            && held.sequence in c.history.places
            && (verdict == Accepted <==> c.history.places[held.sequence] == Waiting(topic))
            && (verdict != Accepted ==> c.history.places[held.sequence].Ended?)
            && (verdict == Failed ==> !Provisioned(b, topic))
    decreases LongerNames(b, topic), 1
  {
    hide Sound, Evolves, Provisioned, DeadLetter, Newest, EndsWith, Sorted;
    var n := held.sequence;
    OpenIsStamped(b, open, n);
    var TopicState(messages, options, _) := b.topics[topic];
    if options.maxLength == 0 || |messages| < options.maxLength {
      PushBackKeeps(b, open, topic, held);
      EvolvesThenPush(b, b, topic, held);
    } else {
      match options.overflow
      case DropHead => EvictionKeeps(b, open, topic, held);
      case RejectPublish =>
        EndKeeps(b, open, n, Refused(|messages|));
      case RejectPublishDlx =>
        if options.deadLetter {
          DeadLetterKeeps(b, open, topic, held);
        } else {
          EndKeeps(b, open, n, Refused(|messages|));
        }
    }
  }

  /** The drop-head branch of enqueueLocked. */
  lemma {:induction false} EvictionKeeps(b: BrokerState, open: set<nat>, topic: Topic, held: Held)
    requires Sound(b, open) && held.sequence in open
    requires topic in b.topics && b.history.stamps[held.sequence] == Stamp(topic, held.body)
    requires !held.redelivered && Newest(held.sequence, b.topics[topic].messages, Firsts(b, topic))
    requires var options := b.topics[topic].options;
             0 < options.maxLength <= |b.topics[topic].messages| && options.overflow == DropHead
    ensures var (c, verdict) := Enqueue(b, topic, held);
            && Sound(c, open - {held.sequence})
            && Evolves(b, c)
            && held.sequence in c.history.places
            && (verdict == Accepted <==> c.history.places[held.sequence] == Waiting(topic))
            && (verdict != Accepted ==> c.history.places[held.sequence].Ended?)
            && (verdict == Failed ==> !Provisioned(b, topic))
    decreases LongerNames(b, topic), 0, 1
  {
    hide Sound, Evolves, Provisioned, DeadLetter, Newest, EndsWith, Sorted, FateHonest, LongerNames;
    var n, evicted := held.sequence, b.topics[topic].messages[0];
    var b1, open1 := DropFront(b, topic), open + {evicted.sequence};
    SameNames(b, b1, topic);
    OpenIsStamped(b, open, n);
    DropFrontKeeps(b, open, topic);
    OpenIsStamped(b1, open1, evicted.sequence);
    var (c, kept) :=
      if b.topics[topic].options.deadLetter then DeadLetter(b1, topic, evicted) else (End(b1, evicted.sequence, Dropped), true);
    if b.topics[topic].options.deadLetter {
      DeadLetterKeeps(b1, open1, topic, evicted);
    } else {
      DroppedKeeps(b1, open1, topic, evicted.sequence);
    }
    assert open1 - {evicted.sequence} == open;
    EvolvesTransitively(b, b1, c);
    EvolvedFacts(b, c, n);
    OpenIsStamped(c, open, n);
    ProvisionedByShape(b, b1, topic);
    ProvisionedByShape(b1, c, topic);
    assert SameShape(b1, c);
    NewestOfTail(n, b.topics[topic].messages, Firsts(b, topic));
    if kept {
      assert Firsts(c, topic) == Firsts(b, topic);
      PushBackKeeps(c, open, topic, held);
      EvolvesThenPush(b, c, topic, held);
    } else {
      LostKeeps(c, open, topic, n);
      EvolvesTransitively(b, c, End(c, n, Lost));
    }
  }

  lemma NewestOfTail(n: nat, q: seq<Held>, firsts: seq<nat>)
    requires Newest(n, q, firsts) && q != []
    ensures Newest(n, q[1..], firsts)
  {
  }

  /** The three ways a rejected or evicted copy can end. */
  predicate RejectedEnd(place: Place) {
    place.Ended? && (place.fate.DeadLettered? || place.fate.Dropped? || place.fate.Lost?)
  }

  /** deadLetterLocked: the copy handed in ends, and its replacement is accounted for. */
  lemma {:induction false} DeadLetterKeeps(b: BrokerState, open: set<nat>, source: Topic, held: Held)
    requires Sound(b, open) && held.sequence in open
    requires source in b.topics && b.history.stamps[held.sequence] == Stamp(source, held.body)
    ensures var (c, kept) := DeadLetter(b, source, held);
            && Sound(c, open - {held.sequence})
            && Evolves(b, c)
            && held.sequence in c.history.places && RejectedEnd(c.history.places[held.sequence])
            && (!kept ==> !Provisioned(b, source))
    decreases LongerNames(b, source), 0, 0
  {
    hide Sound, Evolves, Enqueue, Newest, EndsWith, Sorted;
    var n, forensic := held.sequence, DeadLetterTopic(source);
    OpenIsStamped(b, open, n);
    if !b.topics[source].options.deadLetter {
      DroppedKeeps(b, open, source, n);
    } else if forensic !in b.topics {
      LostKeeps(b, open, source, n);
    } else {
      var b1 := Replace(b, source, held);
      var copy := Held(b1.sequence, held.body, false);
      var open1 := open - {n} + {copy.sequence};
      ReplaceKeeps(b, open, source, held);
      NextIsNewest(b, open, forensic);
      assert forensic in LongerNames(b, source) && forensic !in LongerNames(b1, forensic);
      EnqueueKeeps(b1, open1, forensic, copy);
      EvolvesTransitively(b, b1, Enqueue(b1, forensic, copy).0);
      EvolvedFacts(b1, Enqueue(b1, forensic, copy).0, n);
      assert open1 - {copy.sequence} == open - {n};
    }
  }

  // ---------------------------------------------------------------- publish

  /** One stamped copy is offered to one destination; it waits there exactly when the answer is true. */
  lemma PublishToKeeps(b: BrokerState, topic: Topic, body: string)
    requires Sound(b, {}) && topic in b.topics
    ensures var (c, verdict) := PublishTo(b, topic, body);
            var n := b.sequence + 1;
            && Sound(c, {})
            && Evolves(b, c)
            && n in c.history.stamps && c.history.stamps[n] == Stamp(topic, body)
            && n in c.history.places && (verdict == Accepted <==> c.history.places[n] == Waiting(topic))
            && (verdict == Failed ==> !Provisioned(b, topic))
  {
    hide Sound, Evolves, Provisioned, Enqueue, Newest, EndsWith, Sorted;
    var n, b1 := b.sequence + 1, Restamp(b, topic, body);
    var held := Held(n, body, false);
    RestampKeeps(b, {}, topic, body);
    NextIsNewest(b, {}, topic);
    assert {} + {n} == {n};
    EnqueueKeeps(b1, {n}, topic, held);
    assert {n} - {n} == {};
    EvolvesTransitively(b, b1, Enqueue(b1, topic, held).0);
    EvolvedFacts(b1, Enqueue(b1, topic, held).0, n);
    ProvisionedByShape(b, b1, topic);
  }

  lemma {:induction false} FanoutKeeps(b: BrokerState, names: set<Topic>, group: string, routing: Routing, key: string,
                                       body: string, accepted: bool)
    requires Sound(b, {}) && names <= b.topics.Keys
    ensures var (c, verdict) := Fanout(b, names, group, routing, key, body, accepted);
            && Sound(c, {})
            && Evolves(b, c)
            && (verdict == Failed ==> exists name :: name in names && !Provisioned(b, name))
    decreases names
  {
    hide Sound, Evolves, Provisioned, PublishTo, Selects;
    if names == {} {
      Unchanged(b);
    } else {
      var name := Least(names);
      var rest := names - {name};
      if Selects(b.topics[name], group, routing, key) {
        var (b1, verdict) := PublishTo(b, name, body);
        PublishToKeeps(b, name, body);
        if verdict != Failed {
          var (c, last) := Fanout(b1, rest, group, routing, key, body, verdict == Accepted && accepted);
          FanoutKeeps(b1, rest, group, routing, key, body, verdict == Accepted && accepted);
          EvolvesTransitively(b, b1, c);
          if last == Failed {
            var other :| other in rest && !Provisioned(b1, other);
            ProvisionedByShape(b, b1, other);
          }
        }
      } else {
        FanoutKeeps(b, rest, group, routing, key, body, accepted);
      }
    }
  }

  lemma Unchanged(b: BrokerState)
    ensures Evolves(b, b)
  {
    assert forall topic | topic in b.topics :: TopicKept(b, b, topic);
  }

  /** New empty topics and new groups disturb nothing. */
  lemma AddingKeeps(b: BrokerState, c: BrokerState)
    requires Sound(b, {}) && c.history == b.history && c.sequence == b.sequence
    requires forall topic | topic in b.topics :: topic in c.topics && c.topics[topic] == b.topics[topic]
    requires forall topic | topic in c.topics && topic !in b.topics :: c.topics[topic].messages == []
    ensures Sound(c, {}) && Evolves(b, c)
  {
    hide Sorted, QueueBooks, Numbers, FateHonest, Ascending, Above, Evolves;
    EmptyQueue();
    forall topic ensures Filed(b, topic) <= Filed(c, topic) && Firsts(c, topic) == Firsts(b, topic) {
      assert Queue(b, topic) == Queue(c, topic) || Queue(b, topic) == [];
    }
    FatesKept(b, c);
    AddingEvolves(b, c);
  }

  lemma EmptyQueue()
    ensures forall firsts: seq<nat> :: Sorted([], firsts)
    ensures forall h: History, topic: Topic :: QueueBooks(h, topic, [])
    ensures Numbers([]) == {}
  {
  }

  lemma AddingEvolves(b: BrokerState, c: BrokerState)
    requires c.history == b.history && c.sequence == b.sequence
    requires forall topic | topic in b.topics :: topic in c.topics && c.topics[topic] == b.topics[topic]
    ensures Evolves(b, c)
  {
    assert forall topic | topic in b.topics :: TopicKept(b, c, topic);
  }

  /**
   * Publishing keeps the invariant whatever it is sent to. It throws only if a destination it
   * reaches has no forensic topic to dead-letter into.
   */
  lemma PublishKeeps(b: BrokerState, topic: Topic, body: string, routeOverride: string)
    requires Sound(b, {})
    ensures var (c, verdict) := Publish(b, topic, body, routeOverride);
            && Sound(c, {})
            && Evolves(b, c)
            && topic in c.topics
            && (verdict == Failed ==> exists name :: name in b.topics && !Provisioned(b, name))
  {
    hide Sound, Evolves, PublishTo, Selects, Fanout;
    var group := GroupOf(b, topic);
    if group == "" {
      var b1 := Touch(b, topic);
      AddingKeeps(b, b1);
      PublishToKeeps(b1, topic, body);
      var (c, verdict) := PublishTo(b1, topic, body);
      EvolvesTransitively(b, b1, c);
      TopicsStay(b1, c);
      if verdict == Failed && topic !in b.topics {
        UnboundedNeverFails(b1, topic, body);
      }
    } else {
      var b1 := TouchGroup(b, group);
      var key := if routeOverride == "" then b.topics[topic].binding else routeOverride;
      AddingKeeps(b, b1);
      FanoutKeeps(b1, b1.topics.Keys, group, b1.groups[group], key, body, true);
      EvolvesTransitively(b, b1, Fanout(b1, b1.topics.Keys, group, b1.groups[group], key, body, true).0);
    }
  }

  lemma TopicsStay(b: BrokerState, c: BrokerState)
    requires Evolves(b, c)
    ensures b.topics.Keys <= c.topics.Keys
  {
    assert forall topic | topic in b.topics :: TopicKept(b, c, topic);
  }

  lemma UnboundedNeverFails(b: BrokerState, topic: Topic, body: string)
    requires topic in b.topics && b.topics[topic].options.maxLength == 0
    ensures PublishTo(b, topic, body).1 == Accepted
  {
  }

  /** The publish that creates a topic: accepted, alone in its queue, under the default options, whatever the route. */
  lemma UndeclaredNeverFails(b: BrokerState, topic: Topic, body: string, route: string)
    requires topic !in b.topics
    ensures var (c, verdict) := Publish(b, topic, body, route);
            && verdict == Accepted
            && c.topics == b.topics[topic := TopicState([Held(b.sequence + 1, body, false)], DEFAULT_OPTIONS, "")]
  {
    hide EndsWith, DeadLetter;
    var held := Held(b.sequence + 1, body, false);
    assert [] + [held] == [held];
    assert Publish(b, topic, body, route).0.topics
        == b.topics[topic := TopicState([], DEFAULT_OPTIONS, "")][topic := TopicState([held], DEFAULT_OPTIONS, "")];
  }
}
