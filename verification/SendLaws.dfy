/** What a send hands to the broker, what it answers and what it counts. */
module SendLaws {
  import opened Wrappers
  import opened Seam
  import opened BrokerModel
  import opened TransportModel
  import opened ChainLaws
  import opened FanoutLaws

  /** The refusals come before anything happens; an accepted or refused publish is counted, one that threw is not. */
  lemma SendCounts(b: BrokerState, t: Transport, topic: Topic, payload: string, durable: bool, route: string)
    ensures var (c, t1, result) := Send(b, t, topic, payload, durable, route);
            && (result == SentBeforeConnect <==> !t.connected)
            && (result == DurableUnsupported <==> t.connected && durable)
            && (result == SentBeforeConnect || result == DurableUnsupported ==> c == b)
            && (result.Sent? ==>
                  && t1.stats.sent == t.stats.sent + 1 && t1.stats.bytesSent == t.stats.bytesSent + |payload|
                  && t1 == t.(stats := t.stats.(sent := t1.stats.sent, bytesSent := t1.stats.bytesSent)))
            && (!result.Sent? ==> t1 == t)
  {
    hide Publish;
  }

  predicate HasRoom(b: BrokerState, topic: Topic) {
    topic in b.topics ==>
      b.topics[topic].options.maxLength == 0 || |b.topics[topic].messages| < b.topics[topic].options.maxLength
  }

  /** To a topic outside any group with room, declared or not: one fresh message with exactly this payload at its end. */
  lemma SendStores(b: BrokerState, t: Transport, topic: Topic, payload: string, route: string)
    requires t.connected && GroupOf(b, topic) == "" && HasRoom(b, topic)
    ensures var (c, _, result) := Send(b, t, topic, payload, false, route);
            && result == Sent(true)
            && Queue(c, topic) == Queue(b, topic) + [Held(b.sequence + 1, payload, false)]
            && c.topics.Keys == b.topics.Keys + {topic}
            && (forall name | name in b.topics && name != topic :: c.topics[name] == b.topics[name])
            && (topic in b.topics ==> c.topics[topic].options == b.topics[topic].options)
  {
    RoomMeansPush(Touch(b, topic), topic, payload);
    hide PublishTo;
  }

  /**
   * To any ungrouped topic that can take its dead letters: it is offered exactly this payload, and the
   * answer is yes unless it is full and not DropHead.
   */
  lemma SendOffers(b: BrokerState, t: Transport, topic: Topic, payload: string, route: string)
    requires t.connected && GroupOf(b, topic) == "" && Ready(b, topic)
    ensures var (c, _, result) := Send(b, t, topic, payload, false, route);
            && result == Sent(HasRoom(b, topic) || b.topics[topic].options.overflow == DropHead)
            && c.topics.Keys == b.topics.Keys && OneOffered(b, c, topic, payload)
  {
    OfferOne(b, topic, payload);
    hide PublishTo, OneOffered, Ready;
  }

  /** To a grouped topic: every destination its route reaches is offered exactly this payload, and yes means each took it. */
  lemma SendDistributes(b: BrokerState, t: Transport, topic: Topic, payload: string, route: string)
    requires t.connected && topic in b.topics && b.topics[topic].options.group != ""
    requires Unrelated(Reached(b, topic, route)) && forall name | name in Reached(b, topic, route) :: Ready(b, name)
    ensures var (c, _, result) := Send(b, t, topic, payload, false, route);
            && result == Sent(forall name | name in Reached(b, topic, route) ::
                                HasRoom(b, name) || b.topics[name].options.overflow == DropHead)
            && Distributed(b, c, Reached(b, topic, route), payload)
  {
    hide *;
    GroupedPublishIsExact(b, topic, payload, route);
    ReachedExist(b, topic, route);
    AdmissionTold(b, Reached(b, topic, route));
    SendPublishes(b, t, topic, payload, route);
  }

  lemma ReachedExist(b: BrokerState, topic: Topic, route: string)
    requires topic in b.topics
    ensures Reached(b, topic, route) <= b.topics.Keys
  {
  }

  lemma AdmissionTold(b: BrokerState, names: set<Topic>)
    requires names <= b.topics.Keys
    ensures AllAdmit(b, names) <==> forall name | name in names :: HasRoom(b, name) || b.topics[name].options.overflow == DropHead
  {
  }

  lemma SendPublishes(b: BrokerState, t: Transport, topic: Topic, payload: string, route: string)
    requires t.connected
    ensures var (c, verdict) := Publish(b, topic, payload, route);
            && Send(b, t, topic, payload, false, route).0 == c
            && Send(b, t, topic, payload, false, route).2 == if verdict == Failed then SendThrew else Sent(verdict == Accepted)
  {
    hide Publish;
  }

  /** A send throws exactly when its one destination is overwhelmed, or one the loop comes to is. */
  lemma SendThrowsIff(b: BrokerState, t: Transport, topic: Topic, payload: string, route: string)
    requires t.connected
    ensures Send(b, t, topic, payload, false, route).2 == SendThrew
            <==> if GroupOf(b, topic) == "" then Overwhelmed(b, topic)
                 else
                   var group, key := GroupOf(b, topic), KeyOf(b, topic, route);
                   var b1 := TouchGroup(b, group);
                   exists name :: StopsAt(b1, b1.topics.Keys, group, b1.groups[group], key, payload, name)
  {
    hide Publish, StopsAt, Overwhelmed;
    if GroupOf(b, topic) == "" {
      PublishFailsIff(b, topic, payload, route);
    } else {
      GroupedPublishFailsIff(b, topic, payload, route);
    }
  }

  /** From send to handler: what one transport sends to an empty topic is what a consumer of it is given next. */
  lemma SentIsDelivered(b: BrokerState, sender: Transport, consumer: Transport, who: nat, payload: string, route: string)
    requires sender.connected && Idle(consumer) && GroupOf(b, consumer.topic) == "" && Queue(b, consumer.topic) == []
    ensures var (c, _, result) := Send(b, sender, consumer.topic, payload, false, route);
            && result == Sent(true)
            && Deliver(c, consumer, who).2 == Some(Delivery(payload, false, b.sequence + 1))
  {
    SendStores(b, sender, consumer.topic, payload, route);
    hide Send;
  }
}
