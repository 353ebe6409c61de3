/** Where the obvious stronger claims about the broker fail: the calls that show it, and exactly when they hold. */
module Limits {
  import opened Wrappers
  import opened Seam
  import opened BrokerModel
  import opened BrokerLaws
  import opened PublishLaws
  import opened StepLaws
  import opened TransportModel
  import opened Fleet
  import opened FleetLaws
  import opened SessionLaws
  import opened DeclarationLaws

  lemma PublishUngrouped(b: BrokerState, topic: Topic, body: string)
    requires topic in b.topics && b.topics[topic].options.group == ""
    requires var options := b.topics[topic].options; options.maxLength == 0 || |Queue(b, topic)| < options.maxLength
    ensures var (c, verdict) := Publish(b, topic, body, "");
            && verdict == Accepted
            && c.topics == b.topics[topic := b.topics[topic].(messages := Queue(b, topic) + [Held(b.sequence + 1, body, false)])]
  {
    hide EndsWith, DeadLetter;
  }

  /**
   * maxLength does not bound the queue: while one delivery of a full topic is in hand a publish takes
   * its place, and the requeue that follows makes the queue m + 1 long.
   */
  lemma RequeueExceedsMaxLength(b: BrokerState, t: Transport, who: nat, body: string)
    requires Idle(t) && t.topic in b.topics && b.topics[t.topic].options.group == ""
    requires |Queue(b, t.topic)| == b.topics[t.topic].options.maxLength > 0
    ensures var (b1, t1, delivery) := Deliver(b, t, who);
            var (b2, verdict) := Publish(b1, t.topic, body, "");
            && delivery.Some? && verdict == Accepted
            && delivery.value.tag in t1.outstanding
            && var b3 := Finish(b2, t1, who, delivery.value.tag, Returned(Requeue)).0;
               |Queue(b3, t.topic)| == b.topics[t.topic].options.maxLength + 1
  {
    var (b1, t1, delivery) := Deliver(b, t, who);
    DeliverShrinks(b, t, who);
    PublishUngrouped(b1, t.topic, body);
    var b2 := Publish(b1, t.topic, body, "").0;
    RequeueGrows(b2, t1, who, delivery.value.tag);
    hide Publish, Deliver, Finish;
  }

  lemma DeliverShrinks(b: BrokerState, t: Transport, who: nat)
    requires Idle(t) && t.topic in b.topics && Queue(b, t.topic) != []
    ensures var (b1, t1, delivery) := Deliver(b, t, who);
            && delivery.Some? && delivery.value.tag in t1.outstanding && t1.topic == t.topic
            && t.topic in b1.topics && b1.topics[t.topic].options == b.topics[t.topic].options
            && |Queue(b1, t.topic)| == |Queue(b, t.topic)| - 1
  {
  }

  lemma RequeueGrows(b: BrokerState, t: Transport, who: nat, tag: nat)
    requires tag in t.outstanding && t.topic in b.topics
    ensures |Queue(Finish(b, t, who, tag, Returned(Requeue)).0, t.topic)| == |Queue(b, t.topic)| + 1
  {
  }

  /**
   * A topic nobody declared takes messages under the default options, deadLetter among them, but has no
   * forensic destination: rejecting one throws, and neither a queue nor the transport has it any more.
   */
  lemma UndeclaredTopicLoses(b: BrokerState, t: Transport, who: nat, body: string)
    requires Idle(t) && t.topic !in b.topics && DeadLetterTopic(t.topic) !in b.topics
    ensures var (b1, verdict) := Publish(b, t.topic, body, "");
            var (b2, t2, delivery) := Deliver(b1, t, who);
            && verdict == Accepted
            && delivery == Some(Delivery(body, false, b.sequence + 1)) && b.sequence + 1 in t2.outstanding
            && var (b3, t3, completion) := Finish(b2, t2, who, b.sequence + 1, Returned(Reject));
               && completion == DeadLetterThrew
               && b.sequence + 1 in b3.history.places && b3.history.places[b.sequence + 1] == Ended(Lost)
               && t3.outstanding == t.outstanding
               && b3.topics == b.topics[t.topic := TopicState([], DEFAULT_OPTIONS, "")]
  {
    var b0 := Touch(b, t.topic);
    PublishUngrouped(b0, t.topic, body);
    assert Publish(b, t.topic, body, "") == Publish(b0, t.topic, body, "");
    hide Publish, Finish, EndsWith;
    var b1 := Publish(b, t.topic, body, "").0;
    var held := Held(b.sequence + 1, body, false);
    DeliverOnly(b1, t, who, held);
    var (b2, t2, _) := Deliver(b1, t, who);
    hide Deliver;
    RejectUnforeseen(b2, t2, who, held);
    assert Drop(t.outstanding[held.sequence := held], held.sequence) == t.outstanding;
    assert b2.topics == b.topics[t.topic := TopicState([], DEFAULT_OPTIONS, "")];
  }

  lemma DeliverOnly(b: BrokerState, t: Transport, who: nat, held: Held)
    requires Idle(t) && t.topic in b.topics && Queue(b, t.topic) == [held]
    ensures var (c, t1, delivery) := Deliver(b, t, who);
            && delivery == Some(Delivery(held.body, held.redelivered, held.sequence))
            && c.topics == b.topics[t.topic := b.topics[t.topic].(messages := [])]
            && t1.topic == t.topic && t1.outstanding == t.outstanding[held.sequence := held]
  {
    assert [held][1..] == [];
    assert Queue(b, t.topic)[1..] == [];
  }

  /** Rejecting on a topic with deadLetter but no forensic topic. */
  lemma RejectUnforeseen(b: BrokerState, t: Transport, who: nat, held: Held)
    requires held.sequence in t.outstanding && t.outstanding[held.sequence] == held
    requires t.topic in b.topics && b.topics[t.topic].options.deadLetter && DeadLetterTopic(t.topic) !in b.topics
    ensures var (c, t1, completion) := Finish(b, t, who, held.sequence, Returned(Reject));
            && completion == DeadLetterThrew
            && held.sequence in c.history.places && c.history.places[held.sequence] == Ended(Lost)
            && c.topics == b.topics && t1.outstanding == Drop(t.outstanding, held.sequence)
  {
  }

  // ---------------------------------------------------------------- what a refused declaration leaves behind

  /** Within one critical section: a refusal changes nothing exactly when it names no new group. */
  lemma RefusalLeavesBrokerIff(b: BrokerState, topic: Topic, options: TopicOptions)
    requires EnsureTopic(b, topic, options).1 != Declared
    ensures EnsureTopic(b, topic, options).0 == b <==> options.group == "" || options.group in b.groups
    ensures EnsureTopic(b, topic, options).0.topics == b.topics
  {
    var c := EnsureTopic(b, topic, options).0;
    if options.group in b.groups && b.groups[options.group] == options.routing {
      assert b.groups[options.group := options.routing] == b.groups;
    }
    if options.group != "" && options.group !in b.groups {
      assert options.group in c.groups;
    }
  }

  /** All that a declaration would create before the half that refuses it is there already. */
  predicate NothingToCreate(b: BrokerState, topic: Topic, options: TopicOptions) {
    var forensic := DeadLetterTopic(topic);
    if options.deadLetter && !Fits(b, forensic, ForensicTopicOptions(topic)) then DEAD_LETTER_EXCHANGE in b.groups
    else
      && (options.deadLetter ==> DEAD_LETTER_EXCHANGE in b.groups && forensic in b.topics)
      && (options.group == "" || options.group in b.groups)
  }

  /** The call users make: its forensic half has taken effect by the time the topic itself is refused. */
  lemma RefusedDeclarationIsIdleIff(b: BrokerState, t: Transport, topic: Topic, options: TopicOptions)
    requires t.connected && Declare(b, t, topic, options).1 != Answered(Declared)
    ensures Declare(b, t, topic, options).0 == b <==> NothingToCreate(b, topic, options)
  {
    hide SameProperties;
    var forensic, wanted := DeadLetterTopic(topic), ForensicTopicOptions(topic);
    var (b1, first) := if options.deadLetter then EnsureTopic(b, forensic, wanted) else (b, Declared);
    if first == Declared {
      RefusalLeavesBrokerIff(b1, topic, options);
      if options.deadLetter {
        FittingSucceeds(b, forensic, wanted);
        assert forensic in b.topics && DEAD_LETTER_EXCHANGE in b.groups ==> b1 == b;
      }
    } else {
      RefusalLeavesBrokerIff(b, forensic, wanted);
    }
  }

  /** A declaration that disagrees with an undeclared topic is refused, and has created the topic's forensic destination. */
  lemma RefusedDeclarationProvisions(b: BrokerState, t: Transport, topic: Topic, body: string, m: nat)
    requires t.connected && topic !in b.topics && DeadLetterTopic(topic) !in b.topics && DEAD_LETTER_EXCHANGE !in b.groups
    requires m > 0
    ensures var (b1, verdict) := Publish(b, topic, body, "");
            var (c, outcome) := Declare(b1, t, topic, DEFAULT_OPTIONS.(maxLength := m));
            && verdict == Accepted && outcome == Answered(PropertyConflict)
            && DeadLetterTopic(topic) !in b1.topics && DeadLetterTopic(topic) in c.topics
            && DEAD_LETTER_EXCHANGE !in b1.groups && DEAD_LETTER_EXCHANGE in c.groups
            && topic in c.topics && c.topics[topic] == b1.topics[topic]
  {
    var b0 := Touch(b, topic);
    PublishUngrouped(b0, topic, body);
    assert Publish(b, topic, body, "") == Publish(b0, topic, body, "");
    hide Enqueue;
  }

  // ---------------------------------------------------------------- exactly what overfills a bounded queue

  /** The action gives a delivery of the topic back to the front of its queue. */
  predicate HandsBack(w: World, a: Action, topic: Topic) {
    && a.id < |w.transports| && w.transports[a.id].topic == topic
    && var t := w.transports[a.id];
       match a
       case Finishing(_, tag, result) => tag in t.outstanding && result == Returned(Requeue)
       case Settling(_, tag, disposition) => t.connected && tag in t.outstanding && disposition == Requeue
       case Returning(_) => t.outstanding != map[]
       case _ => false
  }

  /** One action breaks the bound exactly by handing a delivery back to a full queue. */
  lemma OverfillsIff(w: World, a: Action, topic: Topic)
    requires WorldOk(w) && topic in w.broker.topics
    requires 0 < w.broker.topics[topic].options.maxLength && |Queue(w.broker, topic)| <= w.broker.topics[topic].options.maxLength
    ensures var m := w.broker.topics[topic].options.maxLength;
            |Queue(Apply(w, a).broker, topic)| > m <==> |Queue(w.broker, topic)| == m && HandsBack(w, a, topic)
  {
    if a.id < |w.transports| {
      if a.Finishing? || a.Settling? || a.Returning? {
        HandsOverfill(w, a, topic);
      } else {
        SoundOf(w);
        OthersStayWithin(w, a, topic);
      }
    }
  }

  lemma GivenBack(b: BrokerState, topic: Topic, held: Held, name: Topic)
    ensures |Queue(RequeueFront(b, topic, held), name)| == |Queue(b, name)| + if name == topic then 1 else 0
  {
  }

  lemma RejectedStays(b: BrokerState, source: Topic, held: Held, open: set<nat>, topic: Topic)
    requires Sound(b, open) && held.sequence in open && topic in b.topics
    requires source in b.topics && b.history.stamps[held.sequence] == Stamp(source, held.body)
    requires 0 < b.topics[topic].options.maxLength && |Queue(b, topic)| <= b.topics[topic].options.maxLength
    ensures |Queue(DeadLetter(b, source, held).0, topic)| <= b.topics[topic].options.maxLength
  {
    hide Sound, DeadLetter;
    DeadLetterKeeps(b, open, source, held);
    assert TopicKept(b, DeadLetter(b, source, held).0, topic);
  }

  lemma ResolvedWithin(w: World, id: nat, tag: nat, disposition: Disposition, topic: Topic)
    requires WorldOk(w) && id < |w.transports| && tag in w.transports[id].outstanding && disposition != Deferred
    requires topic in w.broker.topics
    requires 0 < w.broker.topics[topic].options.maxLength && |Queue(w.broker, topic)| <= w.broker.topics[topic].options.maxLength
    ensures var m, t := w.broker.topics[topic].options.maxLength, w.transports[id];
            |Queue(Resolve(w.broker, t, id, tag, disposition).0, topic)| > m
            <==> |Queue(w.broker, topic)| == m && t.topic == topic && disposition == Requeue
  {
    var b, t := w.broker, w.transports[id];
    assert TransportOk(b, t, id) && HeldOk(b, t, id, tag);
    var held, b1 := t.outstanding[tag], Release(b, tag);
    hide WorldOk, DeadLetter, RequeueFront;
    match disposition
    case Ack =>
    case Requeue => GivenBack(b1, t.topic, held, topic);
    case Reject =>
      ReleaseKeeps(b, tag) by { assert WorldOk(w); SoundOf(w); }
      RejectedStays(b1, t.topic, held, {tag}, topic);
  }

  lemma SoundOf(w: World)
    requires WorldOk(w)
    ensures Sound(w.broker, {})
  {
    hide Sound;
  }

  lemma HandsOverfill(w: World, a: Action, topic: Topic)
    requires WorldOk(w) && topic in w.broker.topics && a.id < |w.transports|
    requires a.Finishing? || a.Settling? || a.Returning?
    requires 0 < w.broker.topics[topic].options.maxLength && |Queue(w.broker, topic)| <= w.broker.topics[topic].options.maxLength
    ensures var m := w.broker.topics[topic].options.maxLength;
            |Queue(Apply(w, a).broker, topic)| > m <==> |Queue(w.broker, topic)| == m && HandsBack(w, a, topic)
  {
    hide WorldOk, Resolve, RequeueFront;
    var t := w.transports[a.id];
    match a
    case Finishing(id, tag, result) =>
      if tag in t.outstanding && result.Returned? && result.disposition != Deferred {
        ResolvedWithin(w, id, tag, result.disposition, topic);
      }
    case Settling(id, tag, disposition) =>
      if t.connected && tag in t.outstanding && disposition != Deferred {
        ResolvedWithin(w, id, tag, disposition, topic);
      }
    case Returning(id) =>
      if t.outstanding != map[] {
        var tag := Greatest(t.outstanding.Keys);
        GivenBack(Release(w.broker, t.outstanding[tag].sequence), t.topic, t.outstanding[tag], topic);
      }
  }

  predicate Within(b: BrokerState, topic: Topic) {
    topic in b.topics && 0 < b.topics[topic].options.maxLength && |Queue(b, topic)| <= b.topics[topic].options.maxLength
  }

  predicate StillWithin(b: BrokerState, c: BrokerState, topic: Topic) {
    topic in b.topics && |Queue(c, topic)| <= b.topics[topic].options.maxLength
  }

  lemma OthersStayWithin(w: World, a: Action, topic: Topic)
    requires Sound(w.broker, {}) && Within(w.broker, topic) && a.id < |w.transports|
    requires !a.Finishing? && !a.Settling? && !a.Returning?
    ensures StillWithin(w.broker, Apply(w, a).broker, topic)
  {
    SameStaysWithin(w.broker, topic);
    hide Sound, Publish, Take, Purge, EnsureTopic, ForensicTopicOptions, Within, StillWithin;
    var b, t := w.broker, w.transports[a.id];
    match a
    case Sending(_, name, payload, _, route) => PublishedWithin(b, name, payload, route, topic);
    case Delivering(id) => TakenWithin(b, t.topic, id, topic);
    case Purging(_, name) => PurgedWithin(b, name, topic);
    case Provisioning(_, name) => DeclaredWithin(b, DeadLetterTopic(name), ForensicTopicOptions(name), topic);
    case Declaring(_, name, options) => DeclaredWithin(b, name, options, topic);
    case _ =>
  }

  lemma SameStaysWithin(b: BrokerState, topic: Topic)
    requires Within(b, topic)
    ensures StillWithin(b, b, topic)
  {
  }

  lemma PublishedWithin(b: BrokerState, name: Topic, body: string, route: string, topic: Topic)
    requires Sound(b, {}) && Within(b, topic)
    ensures StillWithin(b, Publish(b, name, body, route).0, topic)
  {
    hide Sound, Publish;
    PublishKeeps(b, name, body, route);
    assert TopicKept(b, Publish(b, name, body, route).0, topic);
  }

  lemma DeclaredWithin(b: BrokerState, name: Topic, options: TopicOptions, topic: Topic)
    requires Within(b, topic)
    ensures StillWithin(b, EnsureTopic(b, name, options).0, topic)
  {
  }

  lemma TakenWithin(b: BrokerState, topic: Topic, who: nat, name: Topic)
    requires Within(b, name)
    ensures StillWithin(b, Take(b, topic, who).0, name)
  {
  }

  lemma PurgedWithin(b: BrokerState, topic: Topic, name: Topic)
    requires Within(b, name)
    ensures StillWithin(b, Purge(b, topic).0, name)
  {
  }

  /** The queue keeps within `m` in every state of the run. */
  ghost predicate KeepsWithin(w: World, actions: seq<Action>, topic: Topic, m: nat)
    decreases |actions|
  {
    |Queue(w.broker, topic)| <= m && (actions != [] ==> KeepsWithin(Apply(w, actions[0]), actions[1..], topic, m))
  }

  /** No action of the run hands a delivery back to a full queue. */
  ghost predicate NeverOverfilled(w: World, actions: seq<Action>, topic: Topic, m: nat)
    decreases |actions|
  {
    actions != [] ==>
      && !(|Queue(w.broker, topic)| == m && HandsBack(w, actions[0], topic))
      && NeverOverfilled(Apply(w, actions[0]), actions[1..], topic, m)
  }

  /**
   * Exactly when maxLength is respected: over any run from a state within the bound, the queue stays
   * within it if and only if no delivery of the topic is ever handed back while the queue is full.
   */
  lemma {:induction false} BoundKeptIff(w: World, actions: seq<Action>, topic: Topic, m: nat)
    requires WorldOk(w) && topic in w.broker.topics && w.broker.topics[topic].options.maxLength == m > 0
    requires |Queue(w.broker, topic)| <= m
    ensures KeepsWithin(w, actions, topic, m) <==> NeverOverfilled(w, actions, topic, m)
    decreases |actions|
  {
    if actions != [] {
      OverfillsIff(w, actions[0], topic);
      ApplyKeeps(w, actions[0]);
      hide WorldOk, Apply, HandsBack;
      var v := Apply(w, actions[0]);
      if |Queue(v.broker, topic)| <= m {
        BoundKeptIff(v, actions[1..], topic, m);
      } else {
        OverDepthIsNotWithin(v, actions[1..], topic, m);
      }
    }
  }

  lemma OverDepthIsNotWithin(w: World, actions: seq<Action>, topic: Topic, m: nat)
    requires |Queue(w.broker, topic)| > m
    ensures !KeepsWithin(w, actions, topic, m)
  {
  }

  // ---------------------------------------------------------------- what is not bounded

  /**
   * Throwing past std::exception and closing can go on for ever: after the throw, a restart hands the
   * same message out again, flagged, and leaves everything as it was before the throw.
   */
  lemma ThrowAndRestartRepeats(b: BrokerState, t: Transport, who: nat, tag: nat)
    requires t.connected && t.subscribed && t.topic in b.topics
    requires t.outstanding.Keys == {tag} && t.outstanding[tag].sequence == tag
    ensures var (b1, t1, _) := Finish(b, t, who, tag, Threw);
            var (b2, t2) := Close(b1, t1);
            var t3 := Subscribe(Connect(t2), t.topic).0;
            var (b4, t4, delivery) := Deliver(b2, t3, who);
            && delivery == Some(Delivery(t.outstanding[tag].body, true, tag))
            && t4.outstanding == map[tag := t.outstanding[tag].(redelivered := true)]
            && t4.topic == t.topic && t4.connected && t4.subscribed
            && b4.topics == b.topics && b4.groups == b.groups && b4.sequence == b.sequence
  {
    var (b1, t1, _) := Finish(b, t, who, tag, Threw);
    assert t1.outstanding == t.outstanding;
    OneReturned(b1, t1);
    var held := t.outstanding[tag];
    assert Greatest(t1.outstanding.Keys) == tag;
    assert ([held.(redelivered := true)] + Queue(b, t.topic))[1..] == Queue(b, t.topic);
    var b2 := ReturnLatest(b1, t1).0;
    assert b2 == RequeueFront(Release(b, tag), t.topic, held);
    hide ReturnAll, ReturnLatest;
    assert b2.topics == b.topics[t.topic := b.topics[t.topic].(messages := [held.(redelivered := true)] + Queue(b, t.topic))];
  }
}
