/** What a transport's calls answer, what they give to a handler, and what they leave behind. */
module PumpLaws {
  import opened Wrappers
  import opened Seam
  import opened BrokerModel
  import opened TransportModel
  import opened ChainLaws
  import opened FanoutLaws

  // ---------------------------------------------------------------- pump

  /** The handler is called exactly when there is time, free hands and a message; with that message as it waited. */
  lemma HandlerGetsTheFront(b: BrokerState, t: Transport, who: nat, attempts: nat, handler: Delivery -> HandlerResult)
    ensures var q := Queue(b, t.topic);
            HandlerAnswer(b, t, who, attempts, handler)
            == if t.connected && t.subscribed && t.outstanding == map[] && attempts > 0 && q != []
               then Some(handler(Delivery(q[0].body, q[0].redelivered, q[0].sequence))) else None
  {
    hide DropFront, Move;
  }

  /**
   * pump's three answers. The peer is gone exactly when the transport is not connected; an exception is
   * the handler's own, or dead-lettering's after a rejection on a cut chain; and everything else, an
   * empty slice and a deferral included, is a live peer.
   */
  lemma PumpAnswers(b: BrokerState, t: Transport, who: nat, attempts: nat, handler: Delivery -> HandlerResult)
    ensures var result := Pump(b, t, who, attempts, handler).2;
            var answer := HandlerAnswer(b, t, who, attempts, handler);
            var cut := answer == Some(Returned(Reject)) && Broken(b, t.topic);
            && (result == Gone <==> !t.connected)
            && (result == PumpThrew(Rethrown) <==> answer == Some(Threw))
            && (result == PumpThrew(DeadLetterThrew) <==> cut)
            && (result == Alive <==> t.connected && answer != Some(Threw) && !cut)
  {
    PumpThrowsIff(b, t, who, attempts, handler);
    hide Take, DeadLetter, RequeueFront, Broken;
  }

  /** A pump that calls no handler changes nothing. */
  lemma IdlePumpIsIdle(b: BrokerState, t: Transport, who: nat, attempts: nat, handler: Delivery -> HandlerResult)
    requires HandlerAnswer(b, t, who, attempts, handler) == None
    ensures var (c, t1, _) := Pump(b, t, who, attempts, handler); c == b && t1 == t
  {
    hide DropFront, Move, Resolve;
  }

  /** The statistics after a disposition was performed; dead-lettering that throws is not counted. */
  function Counted(k: Stats, disposition: Disposition, cut: bool): Stats {
    match disposition
    case Ack => k.(acksPerformed := k.acksPerformed + 1)
    case Requeue => k.(requeuesPerformed := k.requeuesPerformed + 1)
    case Reject => if cut then k else k.(rejectsPerformed := k.rejectsPerformed + 1)
    case Deferred => k
  }

  /** Only a requeue puts the message back, flagged; only a rejection touches other topics, on the forensic chain. */
  ghost predicate QueuesAfter(b: BrokerState, c: BrokerState, topic: Topic, front: Held, rest: seq<Held>, disposition: Disposition) {
    && Queue(c, topic) == (if disposition == Requeue then [front.(redelivered := true)] else []) + rest
    && (forall name | name in b.topics && name != topic && (disposition == Reject ==> !IsForensicOf(name, topic)) ::
          name in c.topics && c.topics[name] == b.topics[name])
  }

  lemma ResolveCounts(b: BrokerState, t: Transport, who: nat, tag: nat, disposition: Disposition)
    requires tag in t.outstanding && disposition != Deferred
    ensures var (c, t1, _) := Resolve(b, t, who, tag, disposition);
            var cut := disposition == Reject && Broken(b, t.topic);
            && t1 == t.(outstanding := t.outstanding - {tag}, stats := Counted(t.stats, disposition, cut),
                        failed := t.failed + if cut then 1 else 0)
  {
    RejectThrowsIff(b, t, who, tag);
    hide DeadLetter, Broken, RequeueFront, Release, End;
  }

  lemma ResolveQueues(b: BrokerState, t: Transport, who: nat, tag: nat, disposition: Disposition)
    requires tag in t.outstanding && disposition != Deferred && t.topic in b.topics
    ensures var (c, _, _) := Resolve(b, t, who, tag, disposition);
            QueuesAfter(b, c, t.topic, t.outstanding[tag], Queue(b, t.topic), disposition)
  {
    hide DeadLetter, IsForensicOf;
    var b1, held := Release(b, t.outstanding[tag].sequence), t.outstanding[tag];
    if disposition == Reject {
      SourceStays(b1, t.topic, held);
      forall name | name in b.topics && name != t.topic && !IsForensicOf(name, t.topic)
        ensures DeadLetter(b1, t.topic, held).0.topics[name] == b1.topics[name]
      {
        DeadLetterFrame(b1, t.topic, held, name);
      }
    }
  }

  lemma SourceStays(b: BrokerState, source: Topic, held: Held)
    ensures var c := DeadLetter(b, source, held).0;
            c.topics.Keys == b.topics.Keys && (source in b.topics ==> c.topics[source] == b.topics[source])
  {
  }

  /** Only an acknowledged message is gone for good, with this transport as the one that acknowledged it. */
  lemma AckEnds(b: BrokerState, t: Transport, who: nat, tag: nat)
    requires tag in t.outstanding && t.outstanding[tag].sequence == tag
    ensures var h := Resolve(b, t, who, tag, Ack).0.history; tag in h.places && h.places[tag] == Ended(Acked(who))
  {
  }

  /** Every answer of a handler has exactly the effect the contract gives it: on the queue, in hand, and in the statistics. */
  lemma PumpCarriesOut(b: BrokerState, t: Transport, who: nat, attempts: nat, handler: Delivery -> HandlerResult)
    requires HandlerAnswer(b, t, who, attempts, handler).Some?
    ensures Queue(b, t.topic) != []
    ensures var (c, t1, _) := Pump(b, t, who, attempts, handler);
            var answer := HandlerAnswer(b, t, who, attempts, handler).value;
            var q := Queue(b, t.topic);
            var held := q[0];
            var k := t.stats.(received := t.stats.received + 1, bytesReceived := t.stats.bytesReceived + |held.body|);
            var cut := answer == Returned(Reject) && Broken(b, t.topic);
            && QueuesAfter(b, c, t.topic, held, q[1..], if answer == Threw then Deferred else answer.disposition)
            && t1 == t.(outstanding := if answer == Threw || answer == Returned(Deferred) then map[held.sequence := held] else map[],
                        stats := if answer == Threw then k.(abandoned := k.abandoned + 1) else Counted(k, answer.disposition, cut),
                        failed := t.failed + if cut then 1 else 0)
            && (answer == Returned(Ack) ==>
                  held.sequence in c.history.places && c.history.places[held.sequence] == Ended(Acked(who)))
  {
    hide Broken, Resolve, Take, QueuesAfter, IsForensicOf;
    HandlerGetsTheFront(b, t, who, attempts, handler);
    TakenIs(b, t, who);
    BrokenAfterTake(b, t, who);
    var (b1, t1, taken) := Deliver(b, t, who);
    var answer, held := handler(taken.value), Queue(b, t.topic)[0];
    NothingLeft(held);
    if answer.Returned? && answer.disposition != Deferred {
      ResolveCounts(b1, t1, who, held.sequence, answer.disposition);
      ResolveQueues(b1, t1, who, held.sequence, answer.disposition);
      AckEnds(b1, t1, who, held.sequence);
      QueuesBefore(b, b1, Resolve(b1, t1, who, held.sequence, answer.disposition).0, t.topic, held, answer.disposition);
    } else {
      TakenQueues(b, b1, t.topic, held);
    }
  }

  lemma NothingLeft(held: Held)
    ensures map[held.sequence := held] - {held.sequence} == map[]
  {
  }

  lemma QueuesBefore(b: BrokerState, b1: BrokerState, c: BrokerState, topic: Topic, held: Held, disposition: Disposition)
    requires topic in b.topics && b1.topics == b.topics[topic := b.topics[topic].(messages := Queue(b1, topic))]
    requires QueuesAfter(b1, c, topic, held, Queue(b1, topic), disposition)
    ensures QueuesAfter(b, c, topic, held, Queue(b1, topic), disposition)
  {
    hide IsForensicOf;
  }

  lemma TakenQueues(b: BrokerState, b1: BrokerState, topic: Topic, held: Held)
    requires topic in b.topics && b1.topics == b.topics[topic := b.topics[topic].(messages := Queue(b1, topic))]
    ensures QueuesAfter(b, b1, topic, held, Queue(b1, topic), Deferred)
  {
    hide IsForensicOf;
  }

  lemma TakenIs(b: BrokerState, t: Transport, who: nat)
    requires Idle(t) && Queue(b, t.topic) != []
    ensures var (c, t1, delivery) := Deliver(b, t, who);
            var held := Queue(b, t.topic)[0];
            && delivery == Some(Delivery(held.body, held.redelivered, held.sequence))
            && t.topic in c.topics && c.topics == b.topics[t.topic := b.topics[t.topic].(messages := Queue(b, t.topic)[1..])]
            && t1 == t.(outstanding := map[held.sequence := held],
                        stats := t.stats.(received := t.stats.received + 1, bytesReceived := t.stats.bytesReceived + |held.body|))
  {
  }

  lemma BrokenAfterTake(b: BrokerState, t: Transport, who: nat)
    ensures Broken(Deliver(b, t, who).0, t.topic) <==> Broken(b, t.topic)
  {
    TakeIsAlike(b, t.topic, who);
    hide Broken, Take;
  }

  // ---------------------------------------------------------------- the other calls

  /** settle's refusals in their order, and what it reports when it resolves. */
  lemma SettleAnswers(b: BrokerState, t: Transport, who: nat, tag: nat, disposition: Disposition)
    ensures var (c, t1, result) := Settle(b, t, who, tag, disposition);
            && (result == SettledBeforeConnect <==> !t.connected)
            && (result == CannotDeferAgain <==> t.connected && disposition == Deferred)
            && (result == UnknownTag <==> t.connected && disposition != Deferred && tag !in t.outstanding)
            && (result == Resolved(DeadLetterThrew) <==>
                  t.connected && tag in t.outstanding && disposition == Reject && Broken(b, t.topic))
            && (result == Resolved(Done) <==>
                  && t.connected && tag in t.outstanding && disposition != Deferred
                  && !(disposition == Reject && Broken(b, t.topic)))
            && (!result.Resolved? ==> c == b && t1 == t)
  {
    if tag in t.outstanding {
      RejectThrowsIff(b, t, who, tag);
    }
    hide DeadLetter, RequeueFront, Broken;
  }

  /** subscribe is refused before connect and when a subscription exists, and then changes nothing; connect is all it takes. */
  lemma SubscribeAnswers(t: Transport, topic: Topic)
    ensures Connect(t) == t.(connected := true) && (Subscribe(Connect(t), topic).1 == Subscribed <==> !t.subscribed)
    ensures var (t1, result) := Subscribe(t, topic);
            && (result == SubscribedBeforeConnect <==> !t.connected)
            && (result == AlreadySubscribed <==> t.connected && t.subscribed)
            && (result == Subscribed <==> t.connected && !t.subscribed)
            && t1 == if result == Subscribed then t.(topic := topic, subscribed := true) else t
  {
  }

  /** ensureTopic names the half that refused, and the topic itself is not declared when its forensic half is refused. */
  lemma DeclareAnswers(b: BrokerState, t: Transport, topic: Topic, options: TopicOptions)
    ensures var (c, outcome) := Declare(b, t, topic, options);
            var (b1, first) := EnsureTopic(b, DeadLetterTopic(topic), ForensicTopicOptions(topic));
            && (outcome == DeclaredBeforeConnect <==> !t.connected)
            && (outcome.ForensicRefused? <==> t.connected && options.deadLetter && first != Declared)
            && (outcome.ForensicRefused? ==> outcome.reason == first && c == b1)
            && (outcome.Answered? ==>
                  (c, outcome.result) == EnsureTopic(if options.deadLetter then b1 else b, topic, options))
            && (!t.connected ==> c == b)
  {
    hide EnsureTopic, ForensicTopicOptions;
  }

  /** After close nothing is connected, subscribed or in hand, whatever was; what was counted stays counted. */
  lemma {:induction false} CloseForgets(b: BrokerState, t: Transport)
    ensures var t1 := Close(b, t).1;
            && !t1.connected && !t1.subscribed && t1.topic == "" && t1.outstanding == map[]
            && t1.stats == t.stats && t1.failed == t.failed && t1.returned == t.returned + |t.outstanding|
    decreases t.outstanding.Keys
  {
    hide RequeueFront, Release;
    if t.outstanding != map[] {
      var tag := Greatest(t.outstanding.Keys);
      assert Drop(t.outstanding, tag).Keys == t.outstanding.Keys - {tag};
      assert |Drop(t.outstanding, tag).Keys| == |t.outstanding.Keys| - 1;
      var (b1, t1) := ReturnLatest(b, t);
      assert ReturnAll(b, t) == ReturnAll(b1, t1);
      CloseForgets(b1, t1);
    }
  }
}
