/**
 * Working off a topic: consumers that retry a failure once, and only once, need at most two
 * deliveries per waiting message, however many of them compete and however their handlers fail.
 */
module FleetDrain {
  import opened Wrappers
  import opened Seam
  import opened BrokerModel
  import opened QueueLaws
  import opened BrokerLaws
  import opened PublishLaws
  import opened StepLaws
  import opened TransportModel
  import opened Fleet
  import opened FleetLaws
  import opened FleetBounds
  import opened FanoutLaws

  // ---------------------------------------------------------------- schedules

  /** What the bounded-retry policy may make of a delivery: never a second requeue, never a deferral. A throw decides nothing. */
  predicate BoundedRetry(redelivered: bool, result: HandlerResult) {
    match result
    case Threw => true
    case Returned(Requeue) => !redelivered
    case Returned(Deferred) => false
    case Returned(_) => true
  }

  /** A consumer of the topic takes a message, or its handler comes back. */
  predicate DrainAction(w: World, topic: Topic, a: Action) {
    && a.id < |w.transports| && w.transports[a.id].topic == topic
    && match a
       case Delivering(_) => true
       case Finishing(id, tag, result) =>
         tag in w.transports[id].outstanding && BoundedRetry(w.transports[id].outstanding[tag].redelivered, result)
       case _ => false
  }

  /** The topic's messages this transport has in hand. */
  function Hands(t: Transport, topic: Topic): map<nat, Held> {
    if t.topic == topic then t.outstanding else map[]
  }

  /** Whatever anybody does that leaves the topic's queue, and the deliveries taken from it, as they are. */
  ghost predicate Aside(w: World, topic: Topic, a: Action) {
    var v := Apply(w, a);
    && Queue(v.broker, topic) == Queue(w.broker, topic)
    && |v.transports| == |w.transports|
    && forall i | 0 <= i < |w.transports| :: Hands(v.transports[i], topic) == Hands(w.transports[i], topic)
  }

  /** No publish or dead letter that the action may cause reaches the topic. */
  predicate KeepsAway(w: World, topic: Topic, a: Action) {
    a.id < |w.transports| ==>
      match a
      case Sending(_, name, _, _, route) =>
        && name != topic && !IsForensicOf(topic, name)
        && (GroupOf(w.broker, name) != "" ==>
              && topic !in Reached(w.broker, name, route)
              && forall t | t in Reached(w.broker, name, route) :: !IsForensicOf(topic, t))
      case Purging(_, name) => name != topic
      case Delivering(id) => w.transports[id].topic != topic
      case Finishing(id, _, _) => w.transports[id].topic != topic && !IsForensicOf(topic, w.transports[id].topic)
      case Settling(id, _, _) => w.transports[id].topic != topic && !IsForensicOf(topic, w.transports[id].topic)
      case Returning(id) => w.transports[id].topic != topic
      case _ => true
  }

  lemma SendingKeepsAway(b: BrokerState, name: Topic, body: string, route: string, topic: Topic)
    requires name != topic && !IsForensicOf(topic, name)
    requires GroupOf(b, name) != "" ==>
               topic !in Reached(b, name, route) && forall t | t in Reached(b, name, route) :: !IsForensicOf(topic, t)
    ensures Queue(Publish(b, name, body, route).0, topic) == Queue(b, topic)
  {
    hide PublishTo, Fanout, Reached, IsForensicOf;
    if topic in b.topics {
      if name in b.topics {
        PublishFrame(b, name, body, route, topic);
      } else {
        PublishToFrame(Touch(b, name), name, body, topic);
      }
    }
  }

  lemma ResolvingKeepsAway(b: BrokerState, t: Transport, id: nat, tag: nat, disposition: Disposition, topic: Topic)
    requires tag in t.outstanding && disposition != Deferred && t.topic != topic && !IsForensicOf(topic, t.topic)
    ensures var (c, t1, _) := Resolve(b, t, id, tag, disposition);
            Queue(c, topic) == Queue(b, topic) && t1.topic == t.topic
  {
    hide DeadLetter, IsForensicOf;
    var b1 := Release(b, t.outstanding[tag].sequence);
    if disposition == Reject {
      DeadLetterNames(b1, t.topic, t.outstanding[tag]);
      if topic in b.topics {
        DeadLetterFrame(b1, t.topic, t.outstanding[tag], topic);
      }
    }
  }

  lemma DeadLetterNames(b: BrokerState, source: Topic, held: Held)
    ensures DeadLetter(b, source, held).0.topics.Keys == b.topics.Keys
  {
  }

  lemma OneTransportAside(w: World, topic: Topic, a: Action)
    requires a.id < |w.transports|
    requires var v := Apply(w, a);
             && Queue(v.broker, topic) == Queue(w.broker, topic)
             && v.transports == w.transports[a.id := v.transports[a.id]]
             && Hands(v.transports[a.id], topic) == Hands(w.transports[a.id], topic)
    ensures Aside(w, topic, a)
  {
    hide Apply, Hands;
  }

  lemma HandsKeepAway(w: World, topic: Topic, a: Action)
    requires a.id < |w.transports| && KeepsAway(w, topic, a) && (a.Finishing? || a.Settling? || a.Returning?)
    ensures Aside(w, topic, a)
  {
    hide Resolve, RequeueFront, IsForensicOf;
    var b, t := w.broker, w.transports[a.id];
    match a
    case Finishing(id, tag, result) =>
      if tag in t.outstanding && result.Returned? && result.disposition != Deferred {
        ResolvingKeepsAway(b, t, id, tag, result.disposition, topic);
      }
      OneTransportAside(w, topic, a);
    case Settling(id, tag, disposition) =>
      if tag in t.outstanding && disposition != Deferred {
        ResolvingKeepsAway(b, t, id, tag, disposition, topic);
      }
      OneTransportAside(w, topic, a);
    case Returning(id) =>
      if t.outstanding != map[] {
        var held := t.outstanding[Greatest(t.outstanding.Keys)];
        GivingBackKeepsAway(Release(b, held.sequence), t.topic, held, topic);
      }
      OneTransportAside(w, topic, a);
  }

  lemma OthersKeepAway(w: World, topic: Topic, a: Action)
    requires a.id < |w.transports| && KeepsAway(w, topic, a) && !a.Finishing? && !a.Settling? && !a.Returning?
    requires w.transports[a.id].outstanding != map[] ==> w.transports[a.id].subscribed
    ensures Aside(w, topic, a)
  {
    hide Publish, Take, EnsureTopic, Purge, ForensicTopicOptions, IsForensicOf, Reached;
    var b, t := w.broker, w.transports[a.id];
    match a
    case Sending(_, name, payload, _, route) => SendingKeepsAway(b, name, payload, route, topic);
    case Delivering(id) => TakingKeepsAway(b, t.topic, id, topic);
    case Purging(_, name) => PurgingKeepsAway(b, name, topic);
    case Provisioning(_, name) => DeclaringKeepsAway(b, DeadLetterTopic(name), ForensicTopicOptions(name), topic);
    case Declaring(_, name, options) => DeclaringKeepsAway(b, name, options, topic);
    case _ =>
    OneTransportAside(w, topic, a);
  }

  /** What keeps away from the topic is aside: declarations, connections and all business of other topics. */
  lemma KeepingAwayIsAside(w: World, topic: Topic, a: Action)
    requires WorldOk(w) && KeepsAway(w, topic, a)
    ensures Aside(w, topic, a)
  {
    if a.id < |w.transports| {
      assert TransportOk(w.broker, w.transports[a.id], a.id);
      hide Sound, LossesOk, DeclarationsOk, Aside, KeepsAway;
      if a.Finishing? || a.Settling? || a.Returning? {
        HandsKeepAway(w, topic, a);
      } else {
        OthersKeepAway(w, topic, a);
      }
    }
  }

  lemma TakingKeepsAway(b: BrokerState, source: Topic, who: nat, topic: Topic)
    requires source != topic
    ensures Queue(Take(b, source, who).0, topic) == Queue(b, topic)
  {
  }

  lemma GivingBackKeepsAway(b: BrokerState, source: Topic, held: Held, topic: Topic)
    requires source != topic
    ensures Queue(RequeueFront(b, source, held), topic) == Queue(b, topic)
  {
  }

  lemma PurgingKeepsAway(b: BrokerState, name: Topic, topic: Topic)
    requires name != topic
    ensures Queue(Purge(b, name).0, topic) == Queue(b, topic)
  {
  }

  lemma DeclaringKeepsAway(b: BrokerState, name: Topic, options: TopicOptions, topic: Topic)
    ensures Queue(EnsureTopic(b, name, options).0, topic) == Queue(b, topic)
  {
  }

  /** The consumers of the topic work, and others act aside. */
  ghost predicate Draining(w: World, actions: seq<Action>, topic: Topic)
    decreases |actions|
  {
    actions != [] ==>
      && (DrainAction(w, topic, actions[0]) || Aside(w, topic, actions[0]))
      && Draining(Apply(w, actions[0]), actions[1..], topic)
  }

  /** A message of the topic is taken. */
  predicate IsDelivery(w: World, topic: Topic, a: Action) {
    && a.Delivering? && a.id < |w.transports| && w.transports[a.id].topic == topic
    && Deliver(w.broker, w.transports[a.id], a.id).2.Some?
  }

  ghost function Deliveries(w: World, actions: seq<Action>, topic: Topic): nat
    decreases |actions|
  {
    if actions == [] then 0
    else (if IsDelivery(w, topic, actions[0]) then 1 else 0) + Deliveries(Apply(w, actions[0]), actions[1..], topic)
  }

  // ---------------------------------------------------------------- the measure

  function HoldsFresh(topic: Topic): Transport -> nat {
    (t: Transport) =>
      if t.topic == topic && exists tag | tag in t.outstanding :: !t.outstanding[tag].redelivered then 1 else 0
  }

  lemma {:induction false} RetriesFit(q: seq<Held>)
    ensures Retries(q) <= |q|
    decreases |q|
  {
    if q != [] {
      RetriesFit(q[1..]);
    }
  }

  /** 2 per fresh waiting message, 1 per redelivered one, 1 per fresh one in a consumer's hands. */
  function Credit(w: World, topic: Topic): nat {
    RetriesFit(Queue(w.broker, topic));
    2 * |Queue(w.broker, topic)| - Retries(Queue(w.broker, topic)) + Total(w.transports, HoldsFresh(topic))
  }

  lemma DeliveringSpends(w: World, id: nat, topic: Topic)
    requires Sound(w.broker, {}) && id < |w.transports| && w.transports[id].topic == topic
    requires Idle(w.transports[id]) && Queue(w.broker, topic) != []
    ensures Credit(Apply(w, Delivering(id)), topic) + 1 == Credit(w, topic)
    ensures IsDelivery(w, topic, Delivering(id))
  {
    hide Sound, OnlyPlaceDiffers, OnlyQueueDiffers, Above, Total, Take;
    var t, v := w.transports[id], Apply(w, Delivering(id));
    var q := Queue(w.broker, topic);
    TakeKeeps(w.broker, topic, id);
    TotalUpdate(w.transports, HoldsFresh(topic), id, v.transports[id]);
    assert v.transports[id].outstanding == map[q[0].sequence := q[0]];
    assert q[0].sequence in v.transports[id].outstanding;
  }

  lemma FinishingSpends(w: World, id: nat, tag: nat, result: HandlerResult, topic: Topic)
    requires WorldOk(w) && DrainAction(w, topic, Finishing(id, tag, result))
    ensures Credit(Apply(w, Finishing(id, tag, result)), topic) <= Credit(w, topic)
  {
    var t, v := w.transports[id], Apply(w, Finishing(id, tag, result));
    assert TransportOk(w.broker, t, id) && HeldOk(w.broker, t, id, tag);
    hide WorldOk, Sound, Above, Total, DeadLetter, Release, RequeueFront;
    TotalUpdate(w.transports, HoldsFresh(topic), id, v.transports[id]);
    match result
    case Threw =>
    case Returned(disposition) =>
      ResolveKeeps(w.broker, t, id, tag, disposition);
      if disposition == Requeue {
        RetriesPrepend(Queue(w.broker, topic), t.outstanding[tag].(redelivered := true));
        assert !t.outstanding[tag].redelivered;
      } else {
        QueueUntouched(w.broker, t, id, tag, disposition);
      }
  }

  lemma QueueUntouched(b: BrokerState, t: Transport, id: nat, tag: nat, disposition: Disposition)
    requires tag in t.outstanding && t.topic in b.topics && (disposition == Ack || disposition == Reject)
    ensures Queue(Resolve(b, t, id, tag, disposition).0, t.topic) == Queue(b, t.topic)
  {
    hide EndsWith;
  }

  lemma {:induction false} TotalAlike(ts: seq<Transport>, ts': seq<Transport>, f: Transport -> nat)
    requires |ts| == |ts'| && forall i | 0 <= i < |ts| :: f(ts[i]) == f(ts'[i])
    ensures Total(ts, f) == Total(ts', f)
    decreases |ts|
  {
    if ts != [] {
      TotalAlike(ts[1..], ts'[1..], f);
    }
  }

  lemma SameHandsCount(t: Transport, t': Transport, topic: Topic)
    requires Hands(t, topic) == Hands(t', topic)
    ensures HoldsFresh(topic)(t) == HoldsFresh(topic)(t') && Holding(topic)(t) == Holding(topic)(t')
  {
  }

  lemma AsideKeepsCredit(w: World, topic: Topic, a: Action)
    requires Aside(w, topic, a)
    ensures Credit(Apply(w, a), topic) == Credit(w, topic) && Holders(Apply(w, a), topic) == Holders(w, topic)
  {
    hide Apply, Total, Hands;
    var v := Apply(w, a);
    forall i | 0 <= i < |w.transports|
      ensures HoldsFresh(topic)(w.transports[i]) == HoldsFresh(topic)(v.transports[i])
      ensures Holding(topic)(w.transports[i]) == Holding(topic)(v.transports[i])
    {
      SameHandsCount(w.transports[i], v.transports[i], topic);
    }
    TotalAlike(w.transports, v.transports, HoldsFresh(topic));
    TotalAlike(w.transports, v.transports, Holding(topic));
  }

  // ---------------------------------------------------------------- the bound

  lemma {:induction false} DrainBound(w: World, actions: seq<Action>, topic: Topic)
    requires WorldOk(w) && Draining(w, actions, topic)
    ensures Deliveries(w, actions, topic) + Credit(Run(w, actions), topic) <= Credit(w, topic)
    decreases |actions|
  {
    hide Sound, HoldersOk, DeclarationsOk, LossesOk, Credit, Apply;
    if actions != [] {
      var a := actions[0];
      var v := Apply(w, a);
      ApplyKeeps(w, a);
      if !DrainAction(w, topic, a) {
        AsideKeepsCredit(w, topic, a);
      } else if a.Finishing? {
        FinishingSpends(w, a.id, a.tag, a.result, topic);
      } else if Idle(w.transports[a.id]) && Queue(w.broker, topic) != [] {
        DeliveringSpends(w, a.id, topic);
      } else {
        NothingToTake(w.broker, w.transports[a.id], a.id);
        IdleTurn(w, a.id);
      }
      DrainBound(v, actions[1..], topic);
    }
  }

  lemma IdleTurn(w: World, id: nat)
    requires id < |w.transports| && Deliver(w.broker, w.transports[id], id) == (w.broker, w.transports[id], None)
    ensures Apply(w, Delivering(id)) == w
  {
    assert w.transports[id := w.transports[id]] == w.transports;
  }

  lemma {:induction false} NobodyHolds(ts: seq<Transport>, topic: Topic)
    requires Total(ts, Holding(topic)) == 0
    ensures Total(ts, HoldsFresh(topic)) == 0
    decreases |ts|
  {
    if ts != [] {
      NobodyHolds(ts[1..], topic);
    }
  }

  /** M waiting messages need at most 2M deliveries, in every reachable state and every schedule of consumers. */
  lemma TwoDeliveriesPerMessage(count: nat, before: seq<Action>, actions: seq<Action>, topic: Topic)
    requires var w := Run(Start(count), before); Draining(w, actions, topic) && Holders(w, topic) == 0
    ensures var w := Run(Start(count), before); Deliveries(w, actions, topic) <= 2 * |Queue(w.broker, topic)|
  {
    var w := Run(Start(count), before);
    Reachable(count, before);
    hide WorldOk, Run;
    DrainBound(w, actions, topic);
    NobodyHolds(w.transports, topic);
  }

  // ---------------------------------------------------------------- how the copies end

  predicate WorkedOff(place: Place) {
    RejectedEnd(place) || (place.Ended? && place.fate.Acked?)
  }

  /** A copy of the topic that is waiting, in hand, or was acked or rejected. */
  predicate OnPath(h: History, topic: Topic, n: nat) {
    && n in h.stamps && h.stamps[n].topic == topic
    && n in h.places && (h.places[n].Ended? ==> WorkedOff(h.places[n]))
  }

  lemma WaitingIffFiled(b: BrokerState, topic: Topic, n: nat)
    requires Books(b, {}) && n in b.history.places && topic in b.topics
    ensures b.history.places[n] == Waiting(topic) <==> n in Filed(b, topic)
  {
    if n in Filed(b, topic) {
      var q := Queue(b, topic);
      var i: nat :| i < |q| && q[i].sequence == n;
      assert Recorded(b.history, topic, q[i]);
    }
  }

  /** Of the topic's copies, at most the one in question moves. */
  lemma OthersStayOnPath(b: BrokerState, c: BrokerState, topic: Topic, n: nat, moved: nat)
    requires Sound(b, {}) && Sound(c, {}) && Changes(b, c, {moved}) && topic in b.topics
    requires Filed(b, topic) - {moved} <= Filed(c, topic)
    requires OnPath(b.history, topic, n) && n != moved
    requires b.history.places[n].Waiting? ==> b.history.places[n].topic == topic
    ensures OnPath(c.history, topic, n)
  {
    hide Order, Fates, QueueBooks, Numbers;
    if b.history.places[n].Waiting? {
      WaitingIffFiled(b, topic, n);
      WaitingIffFiled(c, topic, n);
    } else {
      assert Settled(b.history, n);
    }
  }

  lemma WaitingAtItsTopic(b: BrokerState, topic: Topic, n: nat)
    requires Books(b, {}) && OnPath(b.history, topic, n) && b.history.places[n].Waiting?
    ensures b.history.places[n].topic == topic && topic in b.topics
  {
    var at := b.history.places[n].topic;
    assert n in Filed(b, at);
    var q := Queue(b, at);
    var i: nat :| i < |q| && q[i].sequence == n;
    assert Recorded(b.history, at, q[i]);
  }

  lemma DeliverFiles(b: BrokerState, t: Transport, id: nat)
    requires Books(b, {}) && Idle(t) && Queue(b, t.topic) != []
    ensures Filed(Deliver(b, t, id).0, t.topic) == Filed(b, t.topic) - {Queue(b, t.topic)[0].sequence}
  {
    hide Numbers;
    assert Distinct(Queue(b, t.topic));
    NumbersTail(Queue(b, t.topic));
  }

  lemma DeliveringStaysOnPath(w: World, id: nat, topic: Topic, n: nat)
    requires WorldOk(w) && id < |w.transports| && w.transports[id].topic == topic
    requires OnPath(w.broker.history, topic, n)
    ensures OnPath(Apply(w, Delivering(id)).broker.history, topic, n)
  {
    var t, b, c := w.transports[id], w.broker, Apply(w, Delivering(id)).broker;
    if Idle(t) && Queue(b, topic) != [] {
      var moved := Queue(b, topic)[0].sequence;
      if b.history.places[n].Waiting? {
        WaitingAtItsTopic(b, topic, n);
      }
      hide Sound, Changes, Numbers, Deliver;
      DeliverKeeps(b, t, id);
      DeliverFiles(b, t, id);
      if n != moved {
        OthersStayOnPath(b, c, topic, n, moved);
      }
    }
  }

  lemma FinishingStaysOnPath(w: World, id: nat, tag: nat, result: HandlerResult, topic: Topic, n: nat)
    requires WorldOk(w) && DrainAction(w, topic, Finishing(id, tag, result))
    requires OnPath(w.broker.history, topic, n)
    ensures OnPath(Apply(w, Finishing(id, tag, result)).broker.history, topic, n)
  {
    var t, b, c := w.transports[id], w.broker, Apply(w, Finishing(id, tag, result)).broker;
    assert TransportOk(b, t, id) && HeldOk(b, t, id, tag);
    if b.history.places[n].Waiting? {
      WaitingAtItsTopic(b, topic, n);
    }
    if result.Returned? {
      ResolveKeeps(b, t, id, tag, result.disposition);
      if result.disposition == Requeue {
        NumbersPrepend(Queue(b, topic), t.outstanding[tag].(redelivered := true));
      } else {
        QueueUntouched(b, t, id, tag, result.disposition);
      }
      hide Sound, Changes, Numbers, Resolve;
      if n != tag {
        OthersStayOnPath(b, c, topic, n, tag);
      } else {
        StampKept(b, c, n);
      }
    }
  }

  lemma HeldStaysHeld(w: World, v: World, topic: Topic, n: nat)
    requires HoldersOk(w) && HoldersOk(v) && |v.transports| == |w.transports|
    requires forall i | 0 <= i < |w.transports| :: Hands(v.transports[i], topic) == Hands(w.transports[i], topic)
    requires n in w.broker.history.places && w.broker.history.places[n].With?
    requires n in w.broker.history.stamps && w.broker.history.stamps[n].topic == topic
    ensures n in v.broker.history.places && v.broker.history.places[n].With?
  {
    var id := w.broker.history.places[n].holder;
    assert TransportOk(w.broker, w.transports[id], id) && HeldOk(w.broker, w.transports[id], id, n);
    assert n in Hands(w.transports[id], topic) && n in Hands(v.transports[id], topic);
    assert TransportOk(v.broker, v.transports[id], id) && HeldOk(v.broker, v.transports[id], id, n);
  }

  lemma WaitingStaysWaiting(b: BrokerState, c: BrokerState, topic: Topic, n: nat)
    requires Books(b, {}) && Books(c, {}) && topic in c.topics && Queue(c, topic) == Queue(b, topic)
    requires OnPath(b.history, topic, n) && b.history.places[n].Waiting?
    requires n in c.history.places
    ensures c.history.places[n].Waiting?
  {
    hide QueueBooks, Numbers;
    WaitingAtItsTopic(b, topic, n);
    WaitingIffFiled(b, topic, n);
    WaitingIffFiled(c, topic, n);
  }

  /** What waits or is held of the topic stays where it is while others act aside. */
  lemma AsideStaysOnPath(w: World, topic: Topic, a: Action, n: nat)
    requires WorldOk(w) && Aside(w, topic, a) && OnPath(w.broker.history, topic, n)
    ensures OnPath(Apply(w, a).broker.history, topic, n)
  {
    ApplyKeeps(w, a);
    hide Apply, Order, Fates, QueueBooks, Numbers, DeclarationsOk, LossesOk, HoldersOk, Hands;
    var b, v := w.broker, Apply(w, a);
    match b.history.places[n]
    case Waiting(_) =>
      WaitingAtItsTopic(b, topic, n);
      WaitingStaysWaiting(b, v.broker, topic, n);
    case With(_) => HeldStaysHeld(w, v, topic, n);
    case Ended(_) => assert EndedIn(b.history, n);
  }

  lemma StampKept(b: BrokerState, c: BrokerState, n: nat)
    requires Changes(b, c, {n}) && n in b.history.stamps
    ensures n in c.history.stamps && c.history.stamps[n] == b.history.stamps[n]
  {
  }

  lemma {:induction false} StaysOnPath(w: World, actions: seq<Action>, topic: Topic, n: nat)
    requires WorldOk(w) && Draining(w, actions, topic) && OnPath(w.broker.history, topic, n)
    ensures OnPath(Run(w, actions).broker.history, topic, n)
    decreases |actions|
  {
    hide WorldOk, OnPath, Apply, Aside;
    if actions != [] {
      var a := actions[0];
      ApplyKeeps(w, a);
      if !DrainAction(w, topic, a) {
        AsideStaysOnPath(w, topic, a, n);
      } else if a.Finishing? {
        FinishingStaysOnPath(w, a.id, a.tag, a.result, topic, n);
      } else {
        DeliveringStaysOnPath(w, a.id, topic, n);
      }
      StaysOnPath(Apply(w, a), actions[1..], topic, n);
    }
  }

  // ---------------------------------------------------------------- draining comes to an end

  /** A step of work: a message is taken, or a handler that did not throw a foreign exception comes back. */
  predicate Moves(w: World, topic: Topic, a: Action) {
    DrainAction(w, topic, a) && (IsDelivery(w, topic, a) || (a.Finishing? && a.result.Returned?))
  }

  /** The consumers of the topic make steps of work only, and others act aside. */
  ghost predicate AllMove(w: World, actions: seq<Action>, topic: Topic)
    decreases |actions|
  {
    actions != [] ==>
      && (Moves(w, topic, actions[0]) || Aside(w, topic, actions[0]))
      && AllMove(Apply(w, actions[0]), actions[1..], topic)
  }

  /** The steps of work in a run. */
  ghost function Steps(w: World, actions: seq<Action>, topic: Topic): nat
    decreases |actions|
  {
    if actions == [] then 0
    else (if Moves(w, topic, actions[0]) then 1 else 0) + Steps(Apply(w, actions[0]), actions[1..], topic)
  }

  /** An upper bound on the steps of work left. */
  function WorkLeft(w: World, topic: Topic): nat {
    2 * Credit(w, topic) + Holders(w, topic)
  }

  lemma TakingWorks(w: World, id: nat, topic: Topic)
    requires WorldOk(w) && DrainAction(w, topic, Delivering(id)) && IsDelivery(w, topic, Delivering(id))
    ensures WorkLeft(Apply(w, Delivering(id)), topic) < WorkLeft(w, topic)
  {
    hide Sound, HoldersOk, DeclarationsOk, LossesOk, Credit, Total;
    var t, v := w.transports[id], Apply(w, Delivering(id));
    if !Idle(t) || Queue(w.broker, topic) == [] {
      NothingToTake(w.broker, t, id);
    }
    DeliveringSpends(w, id, topic);
    TotalUpdate(w.transports, Holding(topic), id, v.transports[id]);
  }

  lemma FinishingWorks(w: World, id: nat, tag: nat, result: HandlerResult, topic: Topic)
    requires WorldOk(w) && DrainAction(w, topic, Finishing(id, tag, result)) && result.Returned?
    ensures WorkLeft(Apply(w, Finishing(id, tag, result)), topic) < WorkLeft(w, topic)
  {
    FinishingSpends(w, id, tag, result, topic);
    var t, v := w.transports[id], Apply(w, Finishing(id, tag, result));
    assert TransportOk(w.broker, t, id);
    ResolveKeeps(w.broker, t, id, tag, result.disposition);
    hide WorldOk, Credit, Total, Resolve, TransportOk, Changes;
    assert t.outstanding != map[] && v.transports == w.transports[id := v.transports[id]];
    TotalUpdate(w.transports, Holding(topic), id, v.transports[id]);
  }

  lemma {:induction false} WorkIsBounded(w: World, actions: seq<Action>, topic: Topic)
    requires WorldOk(w) && AllMove(w, actions, topic)
    ensures Steps(w, actions, topic) + WorkLeft(Run(w, actions), topic) <= WorkLeft(w, topic)
    ensures Draining(w, actions, topic)
    decreases |actions|
  {
    hide WorldOk, Credit, Holders, Apply, Aside;
    if actions != [] {
      var a := actions[0];
      ApplyKeeps(w, a);
      if !Moves(w, topic, a) {
        AsideKeepsCredit(w, topic, a);
      } else if a.Finishing? {
        FinishingWorks(w, a.id, a.tag, a.result, topic);
      } else {
        TakingWorks(w, a.id, topic);
      }
      WorkIsBounded(Apply(w, a), actions[1..], topic);
    }
  }

  /** A consumer of the topic that could take a message once its hands are free. */
  predicate Consumes(w: World, id: nat, topic: Topic) {
    id < |w.transports| && w.transports[id].topic == topic && w.transports[id].connected && w.transports[id].subscribed
  }

  /** Nobody but itself, closing, stops a consumer from being one. */
  lemma {:induction false} ConsumersStay(w: World, actions: seq<Action>, id: nat, topic: Topic)
    requires Disconnecting(id) !in actions && Consumes(w, id, topic)
    ensures Consumes(Run(w, actions), id, topic)
    decreases |actions|
  {
    if actions != [] {
      ConsumerStays(w, actions[0], id, topic);
      hide Consumes, Apply;
      ConsumersStay(Apply(w, actions[0]), actions[1..], id, topic);
    }
  }

  lemma ConsumerStays(w: World, a: Action, id: nat, topic: Topic)
    requires a != Disconnecting(id) && Consumes(w, id, topic)
    ensures Consumes(Apply(w, a), id, topic)
  {
    hide Take, DeadLetter, RequeueFront, Release, End, EnsureTopic, Publish, Purge;
  }

  lemma {:induction false} NoneHold(ts: seq<Transport>, topic: Topic)
    requires forall i | 0 <= i < |ts| :: ts[i].topic == topic ==> ts[i].outstanding == map[]
    ensures Total(ts, Holding(topic)) == 0
    decreases |ts|
  {
    if ts != [] {
      NoneHold(ts[1..], topic);
    }
  }

  lemma HolderCanMove(v: World, topic: Topic, id: nat)
    requires id < |v.transports| && v.transports[id].topic == topic && v.transports[id].outstanding != map[]
    ensures exists a :: Moves(v, topic, a)
  {
    var tag :| tag in v.transports[id].outstanding;
    assert Moves(v, topic, Finishing(id, tag, Returned(Ack)));
  }

  lemma IdleCanMove(v: World, topic: Topic, id: nat)
    requires WorldOk(v) && Consumes(v, id, topic) && v.transports[id].outstanding == map[] && Queue(v.broker, topic) != []
    ensures exists a :: Moves(v, topic, a)
  {
    IdleConsumersDeliver(v, id);
    assert Moves(v, topic, Delivering(id));
  }

  /** A consumer with free hands always takes something while anything waits, and only then. */
  lemma IdleConsumersDeliver(w: World, id: nat)
    requires WorldOk(w) && id < |w.transports| && Idle(w.transports[id])
    ensures IsDelivery(w, w.transports[id].topic, Delivering(id)) <==> Queue(w.broker, w.transports[id].topic) != []
  {
    if Queue(w.broker, w.transports[id].topic) != [] {
      hide HoldersOk, DeclarationsOk, LossesOk;
      DeliveringSpends(w, id, w.transports[id].topic);
    }
  }

  /** With a consumer there, no step of work is possible only when the topic is empty and nothing is in hand. */
  lemma StuckMeansEmpty(v: World, topic: Topic, id: nat)
    requires WorldOk(v) && Consumes(v, id, topic) && forall a :: !Moves(v, topic, a)
    ensures Queue(v.broker, topic) == [] && Holders(v, topic) == 0
  {
    hide WorldOk, Moves;
    forall i | 0 <= i < |v.transports| && v.transports[i].topic == topic ensures v.transports[i].outstanding == map[] {
      if v.transports[i].outstanding != map[] {
        HolderCanMove(v, topic, i);
      }
    }
    NoneHold(v.transports, topic);
    if Queue(v.broker, topic) != [] {
      IdleCanMove(v, topic, id);
    }
  }

  lemma DeclaredIsProvisioned(w: World, topic: Topic)
    requires DeclarationsOk(w) && topic in w.declared
    ensures Provisioned(w.broker, topic)
  {
    if w.broker.topics[topic].options.deadLetter {
      assert ForensicReady(w.broker, topic);
    }
  }

  /** Acknowledged, kept as evidence, or discarded because the topic keeps none. */
  predicate Concluded(place: Place) {
    place.Ended? && (place.fate.Acked? || place.fate.DeadLettered? || place.fate.Dropped?)
  }

  /**
   * Draining terminates. M messages wait, nothing is in hand, and consumers take and handle in any
   * order, none of their handlers throwing anything but std::exceptions, while others do what they like
   * aside: the consumers make at most 4M steps, 2M of them deliveries. Where no further step is possible,
   * and one consumer has not closed, the topic is empty and every message that waited was acknowledged or
   * rejected; on a declared topic none was lost.
   */
  lemma EveryMessageIsWorkedOff(count: nat, before: seq<Action>, actions: seq<Action>, topic: Topic, id: nat, n: nat)
    requires var w := Run(Start(count), before);
             && AllMove(w, actions, topic) && Holders(w, topic) == 0
             && Consumes(w, id, topic) && Disconnecting(id) !in actions
             && n in w.broker.history.places && w.broker.history.places[n] == Waiting(topic)
    ensures var w, v := Run(Start(count), before), Run(Run(Start(count), before), actions);
            && Steps(w, actions, topic) <= 4 * |Queue(w.broker, topic)|
            && Deliveries(w, actions, topic) <= 2 * |Queue(w.broker, topic)|
            && ((forall a :: !Moves(v, topic, a)) ==>
                  && Queue(v.broker, topic) == [] && Holders(v, topic) == 0
                  && n in v.broker.history.places && WorkedOff(v.broker.history.places[n])
                  && (topic in w.declared ==> Concluded(v.broker.history.places[n])))
  {
    var w := Run(Start(count), before);
    var v := Run(w, actions);
    Reachable(count, before);
    RunKeeps(w, actions);
    hide Run, Moves, Holders;
    NobodyHoldsFresh(w, topic);
    WorkIsBounded(w, actions, topic);
    DrainBound(w, actions, topic);
    ConsumersStay(w, actions, id, topic);
    WaitingOnPath(w.broker, topic, n);
    StaysOnPath(w, actions, topic, n);
    if topic in w.declared {
      DeclaredIsProvisioned(w, topic);
      assert !LostIn(w.broker.history, n);
      assert !LostIn(v.broker.history, n);
    }
    if forall a :: !Moves(v, topic, a) {
      StuckMeansEmpty(v, topic, id);
      NoneLeft(v, topic, n);
    }
  }

  lemma NobodyHoldsFresh(w: World, topic: Topic)
    requires Holders(w, topic) == 0
    ensures Credit(w, topic) <= 2 * |Queue(w.broker, topic)|
    ensures WorkLeft(w, topic) <= 4 * |Queue(w.broker, topic)|
  {
    NobodyHolds(w.transports, topic);
  }

  /** Two deliveries for each message that waited leave none waiting, however they were spread over the consumers. */
  lemma TwoDeliveriesEachAreEnough(w: World, actions: seq<Action>, topic: Topic)
    requires WorldOk(w) && Draining(w, actions, topic) && Holders(w, topic) == 0
    requires Deliveries(w, actions, topic) >= 2 * |Queue(w.broker, topic)|
    ensures Queue(Run(w, actions).broker, topic) == []
  {
    hide WorldOk, Run;
    NobodyHoldsFresh(w, topic);
    DrainBound(w, actions, topic);
    RetriesFit(Queue(Run(w, actions).broker, topic));
  }

  lemma WaitingOnPath(b: BrokerState, topic: Topic, n: nat)
    requires Books(b, {}) && n in b.history.places && b.history.places[n] == Waiting(topic)
    ensures OnPath(b.history, topic, n)
  {
    assert n in Filed(b, topic);
    var q := Queue(b, topic);
    var i: nat :| i < |q| && q[i].sequence == n;
    assert Recorded(b.history, topic, q[i]);
  }

  lemma NoneLeft(v: World, topic: Topic, n: nat)
    requires WorldOk(v) && OnPath(v.broker.history, topic, n)
    requires Queue(v.broker, topic) == [] && Holders(v, topic) == 0
    ensures WorkedOff(v.broker.history.places[n])
  {
    hide Order, Fates, DeclarationsOk, LossesOk;
    var place := v.broker.history.places[n];
    assert place.Waiting? ==> n in Filed(v.broker, place.topic);
    assert Filed(v.broker, topic) == {};
    if place.Waiting? {
      WaitingAtItsTopic(v.broker, topic, n);
    } else if place.With? {
      var t := v.transports[place.holder];
      assert TransportOk(v.broker, t, place.holder) && HeldOk(v.broker, t, place.holder, n);
      assert t.outstanding != map[];
      HoldsSome(v.transports, topic, place.holder);
    }
  }
}
