/**
 * How far a queue can grow, and how many copies can be under way, when transports compete.
 *
 * requeue ignores maxLength, so the length alone is not bounded by it; counting the deliveries
 * under way as well, it is.
 */
module FleetBounds {
  import opened Seam
  import opened BrokerModel
  import opened QueueLaws
  import opened BrokerLaws
  import opened PublishLaws
  import opened StepLaws
  import opened TransportModel
  import opened Fleet
  import opened FleetLaws

  // ---------------------------------------------------------------- sums over the transports

  function Total(ts: seq<Transport>, f: Transport -> nat): nat {
    if ts == [] then 0 else f(ts[0]) + Total(ts[1..], f)
  }

  lemma {:induction false} TotalUpdate(ts: seq<Transport>, f: Transport -> nat, id: nat, t: Transport)
    requires id < |ts|
    ensures Total(ts[id := t], f) + f(ts[id]) == Total(ts, f) + f(t)
    decreases |ts|
  {
    if id == 0 {
      assert ts[0 := t][1..] == ts[1..];
    } else {
      assert ts[id := t][1..] == ts[1..][id - 1 := t];
      TotalUpdate(ts[1..], f, id - 1, t);
    }
  }

  lemma {:induction false} TotalAtMost(ts: seq<Transport>, f: Transport -> nat, g: Transport -> nat)
    requires forall i | 0 <= i < |ts| :: f(ts[i]) <= g(ts[i])
    ensures Total(ts, f) <= Total(ts, g)
    decreases |ts|
  {
    if ts != [] {
      forall i | 0 <= i < |ts| - 1 ensures f(ts[1..][i]) <= g(ts[1..][i]) {
        assert ts[1..][i] == ts[i + 1];
      }
      TotalAtMost(ts[1..], f, g);
    }
  }

  lemma {:induction false} TotalOfOnes(ts: seq<Transport>, f: Transport -> nat)
    requires forall t :: f(t) <= 1
    ensures Total(ts, f) <= |ts|
    decreases |ts|
  {
    if ts != [] {
      TotalOfOnes(ts[1..], f);
    }
  }

  function Holding(topic: Topic): Transport -> nat {
    (t: Transport) => if t.topic == topic && t.outstanding != map[] then 1 else 0
  }

  function Listening(topic: Topic): Transport -> nat {
    (t: Transport) => if t.topic == topic && t.subscribed then 1 else 0
  }

  /** Deliveries of the topic under way. */
  function Holders(w: World, topic: Topic): nat {
    Total(w.transports, Holding(topic))
  }

  function Subscribers(w: World, topic: Topic): nat {
    Total(w.transports, Listening(topic))
  }

  lemma HoldersSubscribe(w: World, topic: Topic)
    requires HoldersOk(w)
    ensures Holders(w, topic) <= Subscribers(w, topic) <= |w.transports|
  {
    forall i | 0 <= i < |w.transports| ensures Holding(topic)(w.transports[i]) <= Listening(topic)(w.transports[i]) {
      assert TransportOk(w.broker, w.transports[i], i);
    }
    TotalAtMost(w.transports, Holding(topic), Listening(topic));
    TotalOfOnes(w.transports, Listening(topic));
  }

  lemma {:induction false} HoldsSome(ts: seq<Transport>, topic: Topic, id: nat)
    requires id < |ts| && ts[id].topic == topic && ts[id].outstanding != map[]
    ensures Total(ts, Holding(topic)) >= 1
    decreases |ts|
  {
    if id > 0 {
      HoldsSome(ts[1..], topic, id - 1);
    }
  }

  // ---------------------------------------------------------------- the bounds

  /** With at most `c` subscribers: redelivered copies and deliveries under way, then everything. */
  predicate Bounded(w: World, topic: Topic, c: nat) {
    && Retries(Queue(w.broker, topic)) + Holders(w, topic) <= c
    && (topic in w.broker.topics && w.broker.topics[topic].options.maxLength > 0 ==>
          |Queue(w.broker, topic)| + Holders(w, topic) <= w.broker.topics[topic].options.maxLength + c)
  }

  /** In every state of the run at most `c` transports subscribe to the topic. */
  ghost predicate AtMost(w: World, actions: seq<Action>, topic: Topic, c: nat)
    decreases |actions|
  {
    Subscribers(w, topic) <= c && (actions != [] ==> AtMost(Apply(w, actions[0]), actions[1..], topic, c))
  }

  predicate NewTopicOk(b: BrokerState, c: BrokerState, topic: Topic) {
    topic !in b.topics && topic in c.topics ==>
      Retries(Queue(c, topic)) == 0 && (c.topics[topic].options.maxLength == 0 || Queue(c, topic) == [])
  }

  /** The broker evolved while every transport kept what it holds. */
  lemma BoundedByEvolving(w: World, v: World, topic: Topic, c: nat)
    requires Bounded(w, topic, c) && Evolves(w.broker, v.broker) && NewTopicOk(w.broker, v.broker, topic)
    requires Holders(v, topic) <= Holders(w, topic) && Holders(v, topic) <= c
    ensures Bounded(v, topic, c)
  {
    if topic in w.broker.topics {
      assert TopicKept(w.broker, v.broker, topic);
    }
  }

  lemma PublishNewTopic(b: BrokerState, topic: Topic, body: string, route: string, name: Topic)
    ensures NewTopicOk(b, Publish(b, topic, body, route).0, name)
  {
    hide EndsWith, Enqueue, Fanout;
    var c := Publish(b, topic, body, route).0;
    if topic in b.topics {
      var b1 := if GroupOf(b, topic) == "" then b else TouchGroup(b, GroupOf(b, topic));
      assert SameShape(b1, c) && b1.topics == b.topics;
    } else {
      var b1 := Restamp(Touch(b, topic), topic, body);
      var held := Held(b1.sequence, body, false);
      UnboundedPush(b1, topic, held);
      assert c == PushBack(b1, topic, held);
      assert Queue(c, topic) == [held] && [held][1..] == [] && Retries([held]) == 0;
    }
  }

  lemma UnboundedPush(b: BrokerState, topic: Topic, held: Held)
    requires topic in b.topics && b.topics[topic].options.maxLength == 0
    ensures Enqueue(b, topic, held) == (PushBack(b, topic, held), Accepted)
  {
  }

  // ---------------------------------------------------------------- step by step

  lemma QuietBound(w: World, v: World, id: nat, t: Transport, topic: Topic, c: nat)
    requires HoldersOk(v) && id < |w.transports|
    requires v.transports == w.transports[id := t]
    requires Holding(topic)(t) <= Holding(topic)(w.transports[id])
    requires Bounded(w, topic, c) && Evolves(w.broker, v.broker) && NewTopicOk(w.broker, v.broker, topic)
    requires Subscribers(v, topic) <= c
    ensures Bounded(v, topic, c)
  {
    hide HoldersOk, Evolves, Bounded, NewTopicOk;
    TotalUpdate(w.transports, Holding(topic), id, t);
    HoldersSubscribe(v, topic);
    BoundedByEvolving(w, v, topic, c);
  }

  lemma DeliveringBound(w: World, id: nat, topic: Topic, c: nat)
    requires Sound(w.broker, {}) && id < |w.transports| && Idle(w.transports[id])
    requires Queue(w.broker, w.transports[id].topic) != []
    requires Bounded(w, topic, c) && Holders(Apply(w, Delivering(id)), topic) <= c
    ensures Bounded(Apply(w, Delivering(id)), topic, c)
  {
    hide Sound, Newest, Sorted, Above, Take, OnlyPlaceDiffers, Total;
    var b, t := w.broker, w.transports[id];
    var v := Apply(w, Delivering(id));
    var q := Queue(b, t.topic);
    TakeKeeps(b, t.topic, id);
    TotalUpdate(w.transports, Holding(topic), id, v.transports[id]);
    assert q[0].sequence in v.transports[id].outstanding;
    if topic == t.topic && !q[0].redelivered {
      FreshFrontOf(b, topic);
    }
  }

  lemma FreshFrontOf(b: BrokerState, topic: Topic)
    requires Sound(b, {}) && topic in b.topics
    requires Queue(b, topic) != [] ==> !Queue(b, topic)[0].redelivered
    ensures Retries(Queue(b, topic)) == 0
  {
    hide Books, Fates;
    FreshFront(Queue(b, topic), Firsts(b, topic));
  }

  lemma ReturningBound(w: World, v: World, id: nat, t: Transport, tag: nat, topic: Topic, c: nat)
    requires WorldOk(w) && id < |w.transports| && tag in w.transports[id].outstanding
    requires v.broker == RequeueFront(Release(w.broker, tag), w.transports[id].topic, w.transports[id].outstanding[tag])
    requires v.transports == w.transports[id := t] && t.outstanding == map[]
    requires Bounded(w, topic, c)
    ensures Bounded(v, topic, c)
  {
    hide Sound, DeclarationsOk, LossesOk, Release, RequeueFront;
    var t0 := w.transports[id];
    assert TransportOk(w.broker, t0, id);
    GiveBackKeeps(w.broker, t0, id, tag);
    TotalUpdate(w.transports, Holding(topic), id, t);
    RetriesPrepend(Queue(w.broker, t0.topic), t0.outstanding[tag].(redelivered := true));
  }

  lemma ResolvingBound(w: World, id: nat, tag: nat, disposition: Disposition, topic: Topic, c: nat)
    requires WorldOk(w) && id < |w.transports| && tag in w.transports[id].outstanding && disposition != Deferred
    requires Bounded(w, topic, c)
    ensures var (b, t, _) := Resolve(w.broker, w.transports[id], id, tag, disposition);
            Bounded(Put(w, id, b, t), topic, c)
  {
    hide Sound, DeclarationsOk, LossesOk, Changes, DeadLetter, Evolves;
    var t0 := w.transports[id];
    var (b, t, _) := Resolve(w.broker, t0, id, tag, disposition);
    var v := Put(w, id, b, t);
    assert TransportOk(w.broker, t0, id) && HeldOk(w.broker, t0, id, tag);
    ResolveKeeps(w.broker, t0, id, tag, disposition);
    TotalUpdate(w.transports, Holding(topic), id, t);
    match disposition
    case Ack =>
    case Requeue => ReturningBound(w, v, id, t, tag, topic, c);
    case Reject =>
      ReleaseKeeps(w.broker, tag);
      DeadLetterKeeps(Release(w.broker, tag), {tag}, t0.topic, t0.outstanding[tag]);
      RejectBound(w, v, tag, t0.topic, t0.outstanding[tag], topic, c);
  }

  lemma RejectBound(w: World, v: World, tag: nat, source: Topic, held: Held, topic: Topic, c: nat)
    requires v.broker == DeadLetter(Release(w.broker, tag), source, held).0
    requires Evolves(Release(w.broker, tag), v.broker) && Bounded(w, topic, c)
    requires Holders(v, topic) <= Holders(w, topic)
    ensures Bounded(v, topic, c)
  {
    var w1 := w.(broker := Release(w.broker, tag));
    assert Bounded(w1, topic, c);
    BoundedByEvolving(w1, v, topic, c);
  }

  lemma PurgingBound(w: World, v: World, source: Topic, topic: Topic, c: nat)
    requires v == w.(broker := Purge(w.broker, source).0) && Bounded(w, topic, c)
    ensures Bounded(v, topic, c)
  {
  }

  lemma SendingBound(w: World, a: Action, topic: Topic, c: nat)
    requires WorldOk(w) && a.id < |w.transports| && HoldersOk(Apply(w, a)) && a.Sending?
    requires Bounded(w, topic, c) && Subscribers(Apply(w, a), topic) <= c
    ensures Bounded(Apply(w, a), topic, c)
  {
    hide HoldersOk, Sound, Evolves, Publish, Bounded, Subscribers, NewTopicOk;
    var v, b, id := Apply(w, a), w.broker, a.id;
    Unchanged(b);
    AlwaysNew(b, topic);
    PublishKeeps(b, a.topic, a.payload, a.route);
    PublishNewTopic(b, a.topic, a.payload, a.route, topic);
    QuietBound(w, v, id, v.transports[id], topic, c);
  }

  /** Connecting, subscribing and disconnecting start and end no delivery. */
  lemma CalmBound(w: World, a: Action, topic: Topic, c: nat)
    requires WorldOk(w) && a.id < |w.transports| && HoldersOk(Apply(w, a))
    requires a.Connecting? || a.Subscribing? || a.Disconnecting?
    requires Bounded(w, topic, c) && Subscribers(Apply(w, a), topic) <= c
    ensures Bounded(Apply(w, a), topic, c)
  {
    assert TransportOk(w.broker, w.transports[a.id], a.id);
    hide WorldOk, HoldersOk, Evolves, Bounded, Subscribers, NewTopicOk;
    CalmTransports(w, a, topic);
    hide Apply, Holding;
    Unchanged(w.broker);
    AlwaysNew(w.broker, topic);
    QuietBound(w, Apply(w, a), a.id, Apply(w, a).transports[a.id], topic, c);
  }

  lemma CalmTransports(w: World, a: Action, topic: Topic)
    requires a.id < |w.transports| && TransportOk(w.broker, w.transports[a.id], a.id)
    requires a.Connecting? || a.Subscribing? || a.Disconnecting?
    ensures var v := Apply(w, a);
            && v.broker == w.broker && a.id < |v.transports| && v.transports == w.transports[a.id := v.transports[a.id]]
            && Holding(topic)(v.transports[a.id]) <= Holding(topic)(w.transports[a.id])
  {
    hide HeldOk;
  }

  lemma AlwaysNew(b: BrokerState, topic: Topic)
    ensures NewTopicOk(b, b, topic)
  {
  }

  lemma SameBound(w: World, v: World, id: nat, topic: Topic, c: nat)
    requires HoldersOk(v) && id < |w.transports| && v.broker == w.broker && |v.transports| == |w.transports|
    requires v.transports == w.transports[id := w.transports[id].(stats := v.transports[id].stats)]
    requires Bounded(w, topic, c) && Subscribers(v, topic) <= c
    ensures Bounded(v, topic, c)
  {
    hide HoldersOk, Evolves, Bounded, Subscribers, NewTopicOk;
    Unchanged(w.broker);
    AlwaysNew(w.broker, topic);
    QuietBound(w, v, id, v.transports[id], topic, c);
  }

  lemma HandBound(w: World, a: Action, topic: Topic, c: nat)
    requires WorldOk(w) && a.id < |w.transports| && HoldersOk(Apply(w, a))
    requires a.Finishing? || a.Settling?
    requires Bounded(w, topic, c) && Subscribers(Apply(w, a), topic) <= c
    ensures Bounded(Apply(w, a), topic, c)
  {
    hide WorldOk, HoldersOk, Resolve, Bounded, Subscribers;
    var v, t, id := Apply(w, a), w.transports[a.id], a.id;
    assert w.transports[id := t] == w.transports && t.(stats := t.stats) == t;
    if a.tag !in t.outstanding {
      SameBound(w, v, id, topic, c);
    } else if a.Finishing? {
      if a.result.Returned? && a.result.disposition != Deferred {
        ResolvingBound(w, id, a.tag, a.result.disposition, topic, c);
      } else {
        SameBound(w, v, id, topic, c);
      }
    } else if t.connected && a.disposition != Deferred {
      ResolvingBound(w, id, a.tag, a.disposition, topic, c);
    } else {
      SameBound(w, v, id, topic, c);
    }
  }

  lemma MoveBound(w: World, a: Action, topic: Topic, c: nat)
    requires WorldOk(w) && a.id < |w.transports| && HoldersOk(Apply(w, a))
    requires a.Delivering? || a.Returning? || a.Purging?
    requires Bounded(w, topic, c) && Subscribers(Apply(w, a), topic) <= c
    ensures Bounded(Apply(w, a), topic, c)
  {
    hide Numbers, QueueBooks, Sorted, FateHonest, Above;
    var v, t, id := Apply(w, a), w.transports[a.id], a.id;
    assert TransportOk(w.broker, t, id);
    hide Sound, DeclarationsOk, LossesOk, HoldersOk, Bounded, Subscribers, Release, RequeueFront, Take, Purge,
         EnsureTopic, Send, Finish, Settle, Subscribe;
    assert w.transports[id := t] == w.transports && t.(stats := t.stats) == t;
    match a
    case Delivering(_) =>
      if Idle(t) && Queue(w.broker, t.topic) != [] {
        HoldersSubscribe(v, topic);
        DeliveringBound(w, id, topic, c);
      } else {
        NothingToTake(w.broker, t, id);
        SameBound(w, v, id, topic, c);
      }
    case Returning(_) =>
      if t.outstanding != map[] {
        var tag := Greatest(t.outstanding.Keys);
        assert HeldOk(w.broker, t, id, tag);
        assert v.transports[id].outstanding == map[];
        ReturningBound(w, v, id, v.transports[id], tag, topic, c);
      } else {
        SameBound(w, v, id, topic, c);
      }
    case Purging(_, name) =>
      if t.connected {
        PurgingBound(w, v, name, topic, c);
      } else {
        SameBound(w, v, id, topic, c);
      }
    case _ =>
  }

  lemma ApplyBound(w: World, a: Action, topic: Topic, c: nat)
    requires WorldOk(w) && Bounded(w, topic, c) && Subscribers(Apply(w, a), topic) <= c
    ensures Bounded(Apply(w, a), topic, c)
  {
    hide Sound, HoldersOk, DeclarationsOk, LossesOk, Bounded, Subscribers, EnsureTopic;
    if a.id < |w.transports| {
      ApplyKeeps(w, a);
      if a.Connecting? || a.Subscribing? || a.Disconnecting? {
        hide Apply;
        CalmBound(w, a, topic, c);
      } else if a.Sending? {
        hide Apply;
        SendingBound(w, a, topic, c);
      } else if a.Finishing? || a.Settling? {
        hide Apply;
        HandBound(w, a, topic, c);
      } else if a.Provisioning? {
        EnsureTopicBound(w, Apply(w, a), DeadLetterTopic(a.topic), ForensicTopicOptions(a.topic), a.id, topic, c);
      } else if a.Declaring? {
        EnsureTopicBound(w, Apply(w, a), a.topic, a.options, a.id, topic, c);
      } else {
        hide Apply;
        MoveBound(w, a, topic, c);
      }
    }
  }

  lemma EnsureTopicBound(w: World, v: World, name: Topic, options: TopicOptions, id: nat, topic: Topic, c: nat)
    requires WorldOk(w) && HoldersOk(v) && id < |w.transports| && v.transports == w.transports
    requires v.broker == EnsureTopic(w.broker, name, options).0 || v.broker == w.broker
    requires Bounded(w, topic, c) && Subscribers(v, topic) <= c
    ensures Bounded(v, topic, c)
  {
    hide Sound, HoldersOk, Evolves, Bounded, Subscribers;
    Unchanged(w.broker);
    AlwaysNew(w.broker, topic);
    EnsureTopicKeeps(w.broker, name, options);
    assert w.transports[id := w.transports[id]] == w.transports;
    QuietBound(w, v, id, w.transports[id], topic, c);
  }

  lemma {:induction false} RunBound(w: World, actions: seq<Action>, topic: Topic, c: nat)
    requires WorldOk(w) && Bounded(w, topic, c) && AtMost(w, actions, topic, c)
    ensures Bounded(Run(w, actions), topic, c) && Subscribers(Run(w, actions), topic) <= c
    decreases |actions|
  {
    hide WorldOk, Bounded, Apply, Subscribers;
    if actions != [] {
      var v := Apply(w, actions[0]);
      assert AtMost(v, actions[1..], topic, c);
      ApplyBound(w, actions[0], topic, c) by {
        assert Subscribers(v, topic) <= c;
      }
      ApplyKeeps(w, actions[0]);
      RunBound(v, actions[1..], topic, c);
    }
  }
}
