/** Exactly when dead-lettering throws, and when it keeps the bytes, read off the broker before the call. */
module ChainLaws {
  import opened Wrappers
  import opened Seam
  import opened BrokerModel
  import opened QueueLaws
  import opened BrokerLaws
  import opened PublishLaws
  import opened TransportModel
  import opened Fleet
  import opened FleetLaws

  predicate Full(state: TopicState) {
    state.options.maxLength > 0 && |state.messages| >= state.options.maxLength
  }

  /**
   * The chain of forensic destinations from `source` is cut: the next one is missing, or it is full,
   * would sacrifice a message of its own, and its chain is cut.
   */
  predicate Broken(b: BrokerState, source: Topic)
    decreases LongerNames(b, source)
  {
    && source in b.topics && b.topics[source].options.deadLetter
    && var forensic := DeadLetterTopic(source);
       if forensic !in b.topics then true
       else
         assert forensic in LongerNames(b, source) && forensic !in LongerNames(b, forensic);
         Full(b.topics[forensic]) && b.topics[forensic].options.overflow != RejectPublish && Broken(b, forensic)
  }

  predicate AlikeFrom(b: BrokerState, c: BrokerState, source: Topic) {
    && (source in b.topics <==> source in c.topics)
    && (source in b.topics ==> c.topics[source].options == b.topics[source].options)
    && (forall name | name in b.topics && |name| > |source| :: name in c.topics
          && c.topics[name].options == b.topics[name].options && |c.topics[name].messages| == |b.topics[name].messages|)
    && (forall name | name in c.topics && |name| > |source| :: name in b.topics)
  }

  /** Whether the chain is cut depends on longer names only, and on their lengths and options. */
  lemma {:induction false} BrokenFrame(b: BrokerState, c: BrokerState, source: Topic)
    requires AlikeFrom(b, c, source)
    ensures Broken(b, source) <==> Broken(c, source)
    decreases LongerNames(b, source)
  {
    var forensic := DeadLetterTopic(source);
    if source in b.topics && forensic in b.topics {
      assert forensic in LongerNames(b, source) && forensic !in LongerNames(b, forensic);
      BrokenFrame(b, c, forensic);
    }
  }

  lemma {:induction false} EnqueueFailsIff(b: BrokerState, topic: Topic, held: Held)
    requires topic in b.topics
    ensures Enqueue(b, topic, held).1 == Failed
            <==> Full(b.topics[topic]) && b.topics[topic].options.overflow != RejectPublish && Broken(b, topic)
    decreases LongerNames(b, topic), 1
  {
    hide EndsWith, SameShape, DeadLetter, LongerNames;
    var TopicState(messages, options, _) := b.topics[topic];
    if Full(b.topics[topic]) && options.deadLetter {
      match options.overflow
      case DropHead =>
        var b1 := DropFront(b, topic);
        SameNames(b, b1, topic);
        DeadLetterFailsIff(b1, topic, messages[0]);
        BrokenFrame(b, b1, topic);
      case RejectPublish =>
      case RejectPublishDlx => DeadLetterFailsIff(b, topic, held);
    }
  }

  /** deadLetterLocked throws exactly when the chain is cut. */
  lemma {:induction false} DeadLetterFailsIff(b: BrokerState, source: Topic, held: Held)
    ensures DeadLetter(b, source, held).1 <==> !Broken(b, source)
    decreases LongerNames(b, source), 0
  {
    hide EndsWith, SameShape, Enqueue, LongerNames;
    var forensic := DeadLetterTopic(source);
    if source in b.topics && b.topics[source].options.deadLetter && forensic in b.topics {
      var b1 := Restamp(End(b, held.sequence, DeadLettered(b.sequence + 1)), forensic, held.body);
      NamesShrink(b, b1, source);
      EnqueueFailsIff(b1, forensic, Held(b1.sequence, held.body, false));
      BrokenFrame(b, b1, forensic);
    }
  }

  /** Offering one more message to the topic throws: it is full, would dead-letter, and its chain is cut. */
  predicate Overwhelmed(b: BrokerState, topic: Topic) {
    topic in b.topics && Full(b.topics[topic]) && b.topics[topic].options.overflow != RejectPublish && Broken(b, topic)
  }

  lemma OfferFailsIff(b: BrokerState, topic: Topic, body: string)
    requires topic in b.topics
    ensures PublishTo(b, topic, body).1 == Failed <==> Overwhelmed(b, topic)
  {
    var b1 := Restamp(b, topic, body);
    EnqueueFailsIff(b1, topic, Held(b1.sequence, body, false));
    hide Enqueue;
    BrokenFrame(b, b1, topic);
  }

  /** A publish to one destination throws exactly when that is overwhelmed; a topic it creates never is. */
  lemma PublishFailsIff(b: BrokerState, topic: Topic, body: string, route: string)
    requires GroupOf(b, topic) == ""
    ensures Publish(b, topic, body, route).1 == Failed <==> Overwhelmed(b, topic)
  {
    hide PublishTo, Broken;
    OfferFailsIff(Touch(b, topic), topic, body);
  }

  /** Rejecting a delivery throws exactly when its topic's chain is cut. */
  lemma RejectThrowsIff(b: BrokerState, t: Transport, who: nat, tag: nat)
    requires tag in t.outstanding
    ensures Resolve(b, t, who, tag, Reject).2 == DeadLetterThrew <==> Broken(b, t.topic)
  {
    var b1 := Release(b, t.outstanding[tag].sequence);
    DeadLetterFailsIff(b1, t.topic, t.outstanding[tag]);
    hide DeadLetter;
    BrokenFrame(b, b1, t.topic);
  }

  // ---------------------------------------------------------------- when the rejected bytes are kept

  /** What `source` dead-letters ends in some forensic queue. */
  predicate Kept(b: BrokerState, source: Topic)
    decreases LongerNames(b, source), 0
  {
    && source in b.topics && b.topics[source].options.deadLetter
    && var forensic := DeadLetterTopic(source);
       forensic in b.topics
       && (assert LongerNames(b, forensic) < LongerNames(b, source) by { NamesShrink(b, b, source); } TakesIn(b, forensic))
  }

  /**
   * What is offered to `topic` ends in its queue or in one further down its chain: it has room, or makes
   * room and what that sacrifices does not throw, or passes the new message on and it is kept there.
   */
  predicate TakesIn(b: BrokerState, topic: Topic)
    requires topic in b.topics
    decreases LongerNames(b, topic), 1
  {
    !Full(b.topics[topic]) ||
    match b.topics[topic].options.overflow
    case DropHead => !Broken(b, topic)
    case RejectPublish => false
    case RejectPublishDlx => Kept(b, topic)
  }

  /** No queue has a number that was not given out yet. */
  ghost predicate NoneAhead(b: BrokerState, limit: nat) {
    forall name, i | name in b.topics && 0 <= i < |b.topics[name].messages| :: b.topics[name].messages[i].sequence <= limit
  }

  predicate IsNewAt(b: BrokerState, name: Topic, i: nat, body: string, limit: nat) {
    && name in b.topics && i < |b.topics[name].messages|
    && b.topics[name].messages[i].sequence > limit && b.topics[name].messages[i].body == body
  }

  /** Some queue has a message of these bytes stamped after `limit`. */
  ghost predicate HasNew(b: BrokerState, body: string, limit: nat) {
    exists name, i :: IsNewAt(b, name, i, body, limit)
  }

  lemma {:induction false} KeptFrame(b: BrokerState, c: BrokerState, source: Topic)
    requires AlikeFrom(b, c, source)
    ensures Kept(b, source) <==> Kept(c, source)
    decreases LongerNames(b, source)
  {
    var forensic := DeadLetterTopic(source);
    if source in b.topics && forensic in b.topics {
      NamesShrink(b, b, source);
      KeptFrame(b, c, forensic);
      BrokenFrame(b, c, forensic);
    }
  }

  lemma PushedIsNew(b: BrokerState, topic: Topic, held: Held, limit: nat)
    requires topic in b.topics && held.sequence > limit
    ensures HasNew(PushBack(b, topic, held), held.body, limit)
  {
    var q := Queue(b, topic);
    assert IsNewAt(PushBack(b, topic, held), topic, |q|, held.body, limit);
  }

  lemma NoneAheadNone(b: BrokerState, body: string, limit: nat)
    requires NoneAhead(b, limit)
    ensures !HasNew(b, body, limit)
  {
  }

  lemma DropFrontNone(b: BrokerState, topic: Topic, limit: nat)
    requires NoneAhead(b, limit) && topic in b.topics && b.topics[topic].messages != []
    ensures NoneAhead(DropFront(b, topic), limit)
  {
    var c := DropFront(b, topic);
    forall name, i | name in c.topics && 0 <= i < |c.topics[name].messages|
      ensures c.topics[name].messages[i].sequence <= limit
    {
      assert c.topics[name].messages[i] == b.topics[name].messages[if name == topic then i + 1 else i];
    }
  }

  /** A dead-lettering that throws leaves no queue with anything new. */
  lemma {:induction false} BrokenAddsNothing(b: BrokerState, source: Topic, held: Held, limit: nat)
    requires Broken(b, source) && NoneAhead(b, limit)
    ensures NoneAhead(DeadLetter(b, source, held).0, limit)
    decreases LongerNames(b, source)
  {
    hide EndsWith, SameShape, LongerNames;
    var forensic := DeadLetterTopic(source);
    if forensic in b.topics {
      var b1 := Restamp(End(b, held.sequence, DeadLettered(b.sequence + 1)), forensic, held.body);
      NamesShrink(b, b1, source);
      BrokenFrame(b, b1, forensic);
      var copy := Held(b1.sequence, held.body, false);
      if b.topics[forensic].options.overflow == DropHead {
        var b2 := DropFront(b1, forensic);
        SameNames(b1, b2, forensic);
        BrokenFrame(b1, b2, forensic);
        DropFrontNone(b1, forensic, limit);
        DeadLetterFailsIff(b2, forensic, b.topics[forensic].messages[0]);
        BrokenAddsNothing(b2, forensic, b.topics[forensic].messages[0], limit);
        hide DeadLetter;
      } else {
        DeadLetterFailsIff(b1, forensic, copy);
        BrokenAddsNothing(b1, forensic, copy, limit);
      }
    }
  }

  lemma {:induction false} EnqueueTakesInIff(b: BrokerState, topic: Topic, held: Held, limit: nat)
    requires topic in b.topics && NoneAhead(b, limit) && limit < held.sequence && limit <= b.sequence
    ensures TakesIn(b, topic) ==> HasNew(Enqueue(b, topic, held).0, held.body, limit)
    ensures !TakesIn(b, topic) ==> NoneAhead(Enqueue(b, topic, held).0, limit)
    decreases LongerNames(b, topic), 1
  {
    hide EndsWith, SameShape, DeadLetter, LongerNames, Kept, HasNew;
    var TopicState(messages, options, _) := b.topics[topic];
    if !Full(b.topics[topic]) {
      PushedIsNew(b, topic, held, limit);
    } else {
      match options.overflow
      case DropHead =>
        var b1, evicted := DropFront(b, topic), messages[0];
        SameNames(b, b1, topic);
        BrokenFrame(b, b1, topic);
        DropFrontNone(b, topic, limit);
        DeadLetterFailsIff(b1, topic, evicted);
        hide NoneAhead;
        if options.deadLetter {
          if Broken(b, topic) {
            BrokenAddsNothing(b1, topic, evicted, limit);
            EndAddsNothing(DeadLetter(b1, topic, evicted).0, held.sequence, Lost, limit);
          } else {
            TopicsStay(b1, topic, evicted);
            PushedIsNew(DeadLetter(b1, topic, evicted).0, topic, held, limit);
          }
        } else {
          PushedIsNew(End(b1, evicted.sequence, Dropped), topic, held, limit);
        }
      case RejectPublish =>
      case RejectPublishDlx =>
        if options.deadLetter {
          DeadLetterKeptIff(b, topic, held, limit);
        } else {
          assert !Kept(b, topic) by { NotKept(b, topic); }
        }
    }
  }

  lemma TopicsStay(b: BrokerState, source: Topic, held: Held)
    ensures DeadLetter(b, source, held).0.topics.Keys == b.topics.Keys
  {
  }

  lemma EndAddsNothing(b: BrokerState, n: nat, fate: Fate, limit: nat)
    requires NoneAhead(b, limit)
    ensures NoneAhead(End(b, n, fate), limit)
  {
  }

  lemma NotKept(b: BrokerState, source: Topic)
    requires source !in b.topics || !b.topics[source].options.deadLetter
    ensures !Kept(b, source)
  {
  }

  /** Dead-lettering keeps the bytes exactly when the chain takes them in; otherwise no queue gains anything. */
  lemma {:induction false} DeadLetterKeptIff(b: BrokerState, source: Topic, held: Held, limit: nat)
    requires NoneAhead(b, limit) && limit <= b.sequence
    ensures Kept(b, source) ==> HasNew(DeadLetter(b, source, held).0, held.body, limit)
    ensures !Kept(b, source) ==> NoneAhead(DeadLetter(b, source, held).0, limit)
    decreases LongerNames(b, source), 0
  {
    hide EndsWith, SameShape, Enqueue, LongerNames, HasNew, NoneAhead;
    var forensic := DeadLetterTopic(source);
    if source in b.topics && b.topics[source].options.deadLetter && forensic in b.topics {
      var b1 := Restamp(End(b, held.sequence, DeadLettered(b.sequence + 1)), forensic, held.body);
      NamesShrink(b, b1, source);
      SameQueuesNone(b, b1, limit);
      TakesInFrame(b, b1, forensic);
      EnqueueTakesInIff(b1, forensic, Held(b1.sequence, held.body, false), limit);
    } else {
      SameQueuesNone(b, DeadLetter(b, source, held).0, limit);
    }
  }

  lemma SameQueuesNone(b: BrokerState, c: BrokerState, limit: nat)
    requires NoneAhead(b, limit) && c.topics == b.topics
    ensures NoneAhead(c, limit)
  {
  }

  lemma TakesInFrame(b: BrokerState, c: BrokerState, topic: Topic)
    requires topic in b.topics && c.topics == b.topics
    ensures TakesIn(c, topic) <==> TakesIn(b, topic)
  {
    KeptFrame(b, c, topic);
    BrokenFrame(b, c, topic);
  }

  lemma BooksNoneAhead(b: BrokerState, open: set<nat>)
    requires Books(b, open)
    ensures NoneAhead(b, b.sequence)
  {
    forall name, i | name in b.topics && 0 <= i < |b.topics[name].messages|
      ensures b.topics[name].messages[i].sequence <= b.sequence
    {
      assert Recorded(b.history, name, b.topics[name].messages[i]);
    }
  }

  /** With the forensic topic a declaration provides, exactly while that holds fewer than 2000. */
  lemma KeptIfReady(b: BrokerState, topic: Topic)
    requires topic in b.topics && b.topics[topic].options.deadLetter && ForensicReady(b, topic)
    ensures Kept(b, topic) <==> |Queue(b, DeadLetterTopic(topic))| < FORENSIC_MAX_LENGTH
  {
  }

  /**
   * In every reachable state, rejecting a delivery leaves a newly stamped message of its bytes in some
   * queue exactly when the chain of forensic topics takes it in; otherwise no queue has any new message.
   */
  lemma RejectedBytesAreKeptIff(count: nat, actions: seq<Action>, id: nat, tag: nat)
    requires var w := Run(Start(count), actions); id < |w.transports| && tag in w.transports[id].outstanding
    ensures var w := Run(Start(count), actions);
            var t := w.transports[id];
            var c := Resolve(w.broker, t, id, tag, Reject).0;
            && (HasNew(c, t.outstanding[tag].body, w.broker.sequence) <==> Kept(w.broker, t.topic))
            && (!Kept(w.broker, t.topic) ==> NoneAhead(c, w.broker.sequence))
            && tag !in Resolve(w.broker, t, id, tag, Reject).1.outstanding
  {
    var w := Run(Start(count), actions);
    var b, t := w.broker, w.transports[id];
    Reachable(count, actions);
    BooksNoneAhead(b, {});
    hide WorldOk, Run, DeadLetter, HasNew, NoneAhead, Kept;
    var b1 := Release(b, t.outstanding[tag].sequence);
    SameQueuesNone(b, b1, b.sequence);
    KeptFrame(b, b1, t.topic);
    DeadLetterKeptIff(b1, t.topic, t.outstanding[tag], b.sequence);
    if !Kept(b, t.topic) {
      NoneAheadNone(DeadLetter(b1, t.topic, t.outstanding[tag]).0, t.outstanding[tag].body, b.sequence);
    }
  }

  /** In the history, the rejected copy itself is gone with the throw exactly when its own forensic destination is missing. */
  lemma MarkedLostIff(b: BrokerState, open: set<nat>, source: Topic, held: Held)
    requires Sound(b, open) && held.sequence in open
    requires source in b.topics && b.history.stamps[held.sequence] == Stamp(source, held.body)
    ensures var h := DeadLetter(b, source, held).0.history;
            && held.sequence in h.places
            && (h.places[held.sequence] == Ended(Lost)
                <==> b.topics[source].options.deadLetter && DeadLetterTopic(source) !in b.topics)
  {
    hide Sound, Evolves, Enqueue, Newest, EndsWith, Sorted;
    var n, forensic := held.sequence, DeadLetterTopic(source);
    if b.topics[source].options.deadLetter && forensic in b.topics {
      var b1 := Replace(b, source, held);
      OpenIsStamped(b, open, n);
      ReplaceKeeps(b, open, source, held);
      NextIsNewest(b, open, forensic);
      EnqueueKeeps(b1, open - {n} + {b1.sequence}, forensic, Held(b1.sequence, held.body, false));
      EvolvedFacts(b1, Enqueue(b1, forensic, Held(b1.sequence, held.body, false)).0, n);
    }
  }

  /** pump reports dead-lettering's exception exactly when its handler rejects and the chain is cut. */
  lemma PumpThrowsIff(b: BrokerState, t: Transport, who: nat, attempts: nat, handler: Delivery -> HandlerResult)
    ensures Pump(b, t, who, attempts, handler).2 == PumpThrew(DeadLetterThrew)
            <==> HandlerAnswer(b, t, who, attempts, handler) == Some(Returned(Reject)) && Broken(b, t.topic)
  {
    if t.connected && attempts != 0 {
      var (b1, t1, taken) := Deliver(b, t, who);
      if taken.Some? {
        TakeIsAlike(b, t.topic, who);
        RejectThrowsIff(b1, t1, who, taken.value.tag);
        hide Broken;
        assert Broken(b1, t.topic) <==> Broken(b, t.topic);
        hide Take, DeadLetter, RequeueFront, Release, End;
      }
    }
  }

  lemma TakeIsAlike(b: BrokerState, topic: Topic, who: nat)
    ensures Broken(Take(b, topic, who).0, topic) <==> Broken(b, topic)
  {
    hide Broken;
    TakeKeepsOthers(b, topic, who);
    hide Take;
    BrokenFrame(b, Take(b, topic, who).0, topic);
  }

  lemma TakeKeepsOthers(b: BrokerState, topic: Topic, who: nat)
    ensures AlikeFrom(b, Take(b, topic, who).0, topic)
  {
  }
}
