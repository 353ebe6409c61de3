/** Which copies a queue ever took: what is refused never was in one, and what was in one is never refused. */
module AdmissionLaws {
  import opened Seam
  import opened Names
  import opened BrokerModel
  import opened BrokerLaws
  import opened TransportModel
  import opened Fleet
  import opened FleetLaws

  // ---------------------------------------------------------------- the invariant

  /** A refused copy was never admitted; a waiting, held, acknowledged, purged or dropped one was. */
  predicate PlaceAdmitted(h: History, n: nat, place: Place) {
    match place
    case Waiting(_) => n in h.admitted
    case With(_) => n in h.admitted
    case Ended(Acked(_)) => n in h.admitted
    case Ended(Purged) => n in h.admitted
    case Ended(Dropped) => n in h.admitted
    case Ended(Refused(_)) => n !in h.admitted
    case Ended(DeadLettered(_)) => true
    case Ended(Lost) => true
  }

  predicate AllAdmitted(q: seq<Held>, admitted: set<nat>) {
    forall i | 0 <= i < |q| :: q[i].sequence in admitted
  }

  ghost predicate Admissions(b: BrokerState) {
    && (forall n | n in b.history.admitted :: n <= b.sequence)
    && (forall topic | topic in b.topics :: AllAdmitted(b.topics[topic].messages, b.history.admitted))
    && (forall n | n in b.history.places :: PlaceAdmitted(b.history, n, b.history.places[n]))
  }

  /** Whatever has been replaced by a forensic copy since was replaced by one stamped since. */
  ghost predicate ReplacedByNew(b: BrokerState, c: BrokerState) {
    && b.sequence <= c.sequence
    && forall n: nat, copy: nat | ReplacedBy(c.history, n, copy) && !ReplacedBy(b.history, n, copy) :: copy > b.sequence
  }

  /** Admissions hold, none was forgotten, and replacements are new. */
  ghost predicate Admits(b: BrokerState, c: BrokerState) {
    Admissions(c) && b.history.admitted <= c.history.admitted && ReplacedByNew(b, c)
  }

  // ---------------------------------------------------------------- elementary changes

  lemma MoveAdmits(b: BrokerState, n: nat, place: Place)
    requires Admissions(b) && PlaceAdmitted(b.history, n, place)
    requires place.Ended? && place.fate.DeadLettered? ==> place.fate.copy > b.sequence
    ensures Admits(b, Move(b, n, place))
  {
    var c := Move(b, n, place);
    forall m | m in c.history.places ensures PlaceAdmitted(c.history, m, c.history.places[m]) {
      assert m != n ==> PlaceAdmitted(b.history, m, b.history.places[m]);
    }
    forall topic | topic in c.topics ensures AllAdmitted(c.topics[topic].messages, c.history.admitted) {
      assert AllAdmitted(b.topics[topic].messages, b.history.admitted);
    }
  }

  lemma RestampAdmits(b: BrokerState, topic: Topic, body: string)
    requires Admissions(b)
    ensures Admits(b, Restamp(b, topic, body)) && b.sequence + 1 !in Restamp(b, topic, body).history.admitted
  {
    var c := Restamp(b, topic, body);
    forall t | t in c.topics ensures AllAdmitted(c.topics[t].messages, c.history.admitted) {
      assert AllAdmitted(b.topics[t].messages, b.history.admitted);
    }
    forall m | m in c.history.places ensures PlaceAdmitted(c.history, m, c.history.places[m]) {
      assert PlaceAdmitted(b.history, m, b.history.places[m]);
    }
  }

  lemma PushBackAdmits(b: BrokerState, topic: Topic, held: Held)
    requires Admissions(b) && topic in b.topics && held.sequence <= b.sequence
    ensures Admits(b, PushBack(b, topic, held))
  {
    var c := PushBack(b, topic, held);
    forall t | t in c.topics ensures AllAdmitted(c.topics[t].messages, c.history.admitted) {
      assert AllAdmitted(b.topics[t].messages, b.history.admitted);
    }
    forall m | m in c.history.places ensures PlaceAdmitted(c.history, m, c.history.places[m]) {
      assert m != held.sequence ==> PlaceAdmitted(b.history, m, b.history.places[m]);
    }
  }

  lemma PushFrontAdmits(b: BrokerState, topic: Topic, held: Held)
    requires Admissions(b) && held.sequence in b.history.admitted
    ensures Admits(b, RequeueFront(b, topic, held))
  {
    var c := RequeueFront(b, topic, held);
    forall t | t in c.topics ensures AllAdmitted(c.topics[t].messages, c.history.admitted) {
      assert t in b.topics ==> AllAdmitted(b.topics[t].messages, b.history.admitted);
    }
    forall m | m in c.history.places ensures PlaceAdmitted(c.history, m, c.history.places[m]) {
      assert m != held.sequence ==> PlaceAdmitted(b.history, m, b.history.places[m]);
    }
  }

  lemma DropFrontAdmits(b: BrokerState, topic: Topic)
    requires Admissions(b) && topic in b.topics && b.topics[topic].messages != []
    ensures Admits(b, DropFront(b, topic)) && b.topics[topic].messages[0].sequence in b.history.admitted
  {
    var c := DropFront(b, topic);
    assert AllAdmitted(b.topics[topic].messages, b.history.admitted);
    forall t | t in c.topics ensures AllAdmitted(c.topics[t].messages, c.history.admitted) {
      assert AllAdmitted(b.topics[t].messages, b.history.admitted);
    }
    forall m | m in c.history.places ensures PlaceAdmitted(c.history, m, c.history.places[m]) {
      assert PlaceAdmitted(b.history, m, b.history.places[m]);
    }
  }

  lemma ReleaseAdmits(b: BrokerState, n: nat)
    requires Admissions(b)
    ensures Admits(b, Release(b, n))
  {
    var c := Release(b, n);
    forall t | t in c.topics ensures AllAdmitted(c.topics[t].messages, c.history.admitted) {
      assert AllAdmitted(b.topics[t].messages, b.history.admitted);
    }
    forall m | m in c.history.places ensures PlaceAdmitted(c.history, m, c.history.places[m]) {
      assert PlaceAdmitted(b.history, m, b.history.places[m]);
    }
  }

  lemma AddingAdmits(b: BrokerState, c: BrokerState)
    requires Admissions(b) && c.history == b.history && c.sequence == b.sequence
    requires forall topic | topic in b.topics :: topic in c.topics && c.topics[topic] == b.topics[topic]
    requires forall topic | topic in c.topics && topic !in b.topics :: c.topics[topic].messages == []
    ensures Admits(b, c)
  {
    forall t | t in c.topics ensures AllAdmitted(c.topics[t].messages, c.history.admitted) {
      assert t in b.topics ==> AllAdmitted(b.topics[t].messages, b.history.admitted);
    }
  }

  // ---------------------------------------------------------------- overflow and dead-lettering

  /** A new copy is offered: it is admitted, or refused without ever having been in a queue. */
  lemma {:induction false} EnqueueAdmits(b: BrokerState, topic: Topic, held: Held)
    requires Admissions(b) && topic in b.topics && held.sequence <= b.sequence && held.sequence !in b.history.admitted
    ensures Admits(b, Enqueue(b, topic, held).0)
    decreases LongerNames(b, topic), 1
  {
    hide Admissions, EndsWith, SameShape, PlaceAdmitted, DeadLetter;
    var TopicState(messages, options, _) := b.topics[topic];
    if options.maxLength == 0 || |messages| < options.maxLength {
      PushBackAdmits(b, topic, held);
    } else {
      match options.overflow
      case DropHead => EvictionAdmits(b, topic, held);
      case RejectPublish => RefusalAdmits(b, held.sequence, |messages|);
      case RejectPublishDlx =>
        if options.deadLetter {
          DeadLetterAdmits(b, topic, held);
        } else {
          RefusalAdmits(b, held.sequence, |messages|);
        }
    }
  }

  lemma RefusalAdmits(b: BrokerState, n: nat, depth: nat)
    requires Admissions(b) && n !in b.history.admitted
    ensures Admits(b, End(b, n, Refused(depth)))
  {
    MoveAdmits(b, n, Ended(Refused(depth)));
  }

  lemma LossAdmits(b: BrokerState, n: nat)
    requires Admissions(b)
    ensures Admits(b, End(b, n, Lost))
  {
    MoveAdmits(b, n, Ended(Lost));
  }

  lemma {:induction false} EvictionAdmits(b: BrokerState, topic: Topic, held: Held)
    requires Admissions(b) && topic in b.topics && held.sequence <= b.sequence && held.sequence !in b.history.admitted
    requires var options := b.topics[topic].options;
             0 < options.maxLength <= |b.topics[topic].messages| && options.overflow == DropHead
    ensures Admits(b, Enqueue(b, topic, held).0)
    decreases LongerNames(b, topic), 0, 1
  {
    hide Admissions, EndsWith, PlaceAdmitted, DeadLetter;
    var b1, evicted := DropFront(b, topic), b.topics[topic].messages[0];
    DropFrontAdmits(b, topic);
    var (c, kept) :=
      if b.topics[topic].options.deadLetter then DeadLetter(b1, topic, evicted) else (End(b1, evicted.sequence, Dropped), true);
    if b.topics[topic].options.deadLetter {
      DeadLetterAdmits(b1, topic, evicted);
    } else {
      DropAdmits(b1, evicted.sequence);
    }
    assert SameShape(b1, c);
    if kept {
      PushBackAdmits(c, topic, held);
    } else {
      LossAdmits(c, held.sequence);
    }
  }

  lemma DropAdmits(b: BrokerState, n: nat)
    requires Admissions(b) && n in b.history.admitted
    ensures Admits(b, End(b, n, Dropped))
  {
    MoveAdmits(b, n, Ended(Dropped));
  }

  lemma {:induction false} DeadLetterAdmits(b: BrokerState, source: Topic, held: Held)
    requires Admissions(b)
    requires held.sequence in b.history.admitted || (source in b.topics && b.topics[source].options.deadLetter)
    ensures Admits(b, DeadLetter(b, source, held).0)
    decreases LongerNames(b, source), 0, 0
  {
    hide Admissions, EndsWith, SameShape, PlaceAdmitted, Enqueue;
    var forensic := DeadLetterTopic(source);
    if source !in b.topics || !b.topics[source].options.deadLetter {
      DropAdmits(b, held.sequence);
    } else if forensic !in b.topics {
      LossAdmits(b, held.sequence);
    } else {
      var b0 := End(b, held.sequence, DeadLettered(b.sequence + 1));
      var b1 := Restamp(b0, forensic, held.body);
      ReplacedAdmits(b, held.sequence);
      RestampAdmits(b0, forensic, held.body);
      assert forensic in LongerNames(b, source) && forensic !in LongerNames(b1, forensic);
      EnqueueAdmits(b1, forensic, Held(b1.sequence, held.body, false));
    }
  }

  lemma ReplacedAdmits(b: BrokerState, n: nat)
    requires Admissions(b)
    ensures Admits(b, End(b, n, DeadLettered(b.sequence + 1)))
  {
    MoveAdmits(b, n, Ended(DeadLettered(b.sequence + 1)));
  }

  // ---------------------------------------------------------------- critical sections

  lemma PublishToAdmits(b: BrokerState, topic: Topic, body: string)
    requires Admissions(b) && topic in b.topics
    ensures Admits(b, PublishTo(b, topic, body).0)
  {
    hide Admissions, Enqueue;
    RestampAdmits(b, topic, body);
    var b1 := Restamp(b, topic, body);
    EnqueueAdmits(b1, topic, Held(b1.sequence, body, false));
  }

  lemma {:induction false} FanoutAdmits(b: BrokerState, names: set<Topic>, group: string, routing: Routing, key: string,
                                        body: string, accepted: bool)
    requires Admissions(b) && names <= b.topics.Keys
    ensures Admits(b, Fanout(b, names, group, routing, key, body, accepted).0)
    decreases names
  {
    hide Admissions, PublishTo, Selects;
    if names != {} {
      var name := Least(names);
      if Selects(b.topics[name], group, routing, key) {
        var (b1, verdict) := PublishTo(b, name, body);
        PublishToAdmits(b, name, body);
        if verdict != Failed {
          FanoutAdmits(b1, names - {name}, group, routing, key, body, verdict == Accepted && accepted);
        }
      } else {
        FanoutAdmits(b, names - {name}, group, routing, key, body, accepted);
      }
    }
  }

  lemma PublishAdmits(b: BrokerState, topic: Topic, body: string, route: string)
    requires Admissions(b)
    ensures Admits(b, Publish(b, topic, body, route).0)
  {
    hide Admissions, PublishTo, Fanout;
    var group := GroupOf(b, topic);
    if group == "" {
      AddingAdmits(b, Touch(b, topic));
      PublishToAdmits(Touch(b, topic), topic, body);
    } else {
      var b1 := TouchGroup(b, group);
      var key := if route == "" then b.topics[topic].binding else route;
      AddingAdmits(b, b1);
      FanoutAdmits(b1, b1.topics.Keys, group, b1.groups[group], key, body, true);
    }
  }

  lemma TakeAdmits(b: BrokerState, topic: Topic, who: nat)
    requires Admissions(b)
    ensures Admits(b, Take(b, topic, who).0)
  {
    if Queue(b, topic) != [] {
      var n := Queue(b, topic)[0].sequence;
      DropFrontAdmits(b, topic);
      MoveAdmits(DropFront(b, topic), n, With(who));
      LoggingAdmits(Move(DropFront(b, topic), n, With(who)), Take(b, topic, who).0);
    }
  }

  lemma LoggingAdmits(b: BrokerState, c: BrokerState)
    requires Admissions(b) && c == b.(history := b.history.(firsts := c.history.firsts))
    ensures Admits(b, c) && c.history.admitted == b.history.admitted
  {
    forall t | t in c.topics ensures AllAdmitted(c.topics[t].messages, c.history.admitted) {
      assert AllAdmitted(b.topics[t].messages, b.history.admitted);
    }
    forall m | m in c.history.places ensures PlaceAdmitted(c.history, m, c.history.places[m]) {
      assert PlaceAdmitted(b.history, m, b.history.places[m]);
    }
  }

  lemma PurgeAdmits(b: BrokerState, topic: Topic)
    requires Admissions(b)
    ensures Admits(b, Purge(b, topic).0)
  {
    if topic in b.topics {
      var c := Purge(b, topic).0;
      assert AllAdmitted(b.topics[topic].messages, b.history.admitted);
      forall t | t in c.topics ensures AllAdmitted(c.topics[t].messages, c.history.admitted) {
        assert AllAdmitted(b.topics[t].messages, b.history.admitted);
      }
      forall m | m in c.history.places ensures PlaceAdmitted(c.history, m, c.history.places[m]) {
        assert m !in Numbers(Queue(b, topic)) ==> PlaceAdmitted(b.history, m, b.history.places[m]);
      }
    }
  }

  lemma ResolveAdmits(b: BrokerState, t: Transport, who: nat, tag: nat, disposition: Disposition)
    requires Admissions(b) && TransportOk(b, t, who) && tag in t.outstanding && disposition != Deferred
    ensures Admits(b, Resolve(b, t, who, tag, disposition).0)
  {
    assert HeldOk(b, t, who, tag);
    assert PlaceAdmitted(b.history, tag, b.history.places[tag]);
    hide Admissions, DeadLetter, HeldOk;
    var held, b1 := t.outstanding[tag], Release(b, tag);
    ReleaseAdmits(b, tag);
    match disposition
    case Ack => AckAdmits(b1, tag, who);
    case Requeue => PushFrontAdmits(b1, t.topic, held);
    case Reject => DeadLetterAdmits(b1, t.topic, held);
  }

  lemma AckAdmits(b: BrokerState, n: nat, who: nat)
    requires Admissions(b) && n in b.history.admitted
    ensures Admits(b, End(b, n, Acked(who)))
  {
    MoveAdmits(b, n, Ended(Acked(who)));
  }

  // ---------------------------------------------------------------- every schedule

  lemma ReturnAdmits(w: World, id: nat)
    requires WorldOk(w) && Admissions(w.broker) && id < |w.transports| && w.transports[id].outstanding != map[]
    ensures Admits(w.broker, ReturnLatest(w.broker, w.transports[id]).0)
  {
    var b, t := w.broker, w.transports[id];
    var tag := Greatest(t.outstanding.Keys);
    assert TransportOk(b, t, id) && HeldOk(b, t, id, tag);
    assert PlaceAdmitted(b.history, tag, b.history.places[tag]);
    hide Admissions, WorldOk;
    ReleaseAdmits(b, tag);
    PushFrontAdmits(Release(b, tag), t.topic, t.outstanding[tag]);
  }

  lemma FinishAdmits(b: BrokerState, t: Transport, who: nat, tag: nat, result: HandlerResult)
    requires Admissions(b) && TransportOk(b, t, who) && tag in t.outstanding
    ensures Admits(b, Finish(b, t, who, tag, result).0)
  {
    hide Admissions, Resolve, TransportOk;
    if result.Returned? && result.disposition != Deferred {
      ResolveAdmits(b, t, who, tag, result.disposition);
    }
  }

  lemma SettleAdmits(b: BrokerState, t: Transport, who: nat, tag: nat, disposition: Disposition)
    requires Admissions(b) && TransportOk(b, t, who)
    ensures Admits(b, Settle(b, t, who, tag, disposition).0)
  {
    hide Admissions, Resolve, TransportOk;
    if tag in t.outstanding && disposition != Deferred {
      ResolveAdmits(b, t, who, tag, disposition);
    }
  }

  lemma HandsAdmit(w: World, a: Action)
    requires WorldOk(w) && Admissions(w.broker) && a.id < |w.transports|
    requires a.Finishing? || a.Settling? || a.Returning?
    ensures Admits(w.broker, Apply(w, a).broker)
  {
    var b, t, id := w.broker, w.transports[a.id], a.id;
    assert TransportOk(b, t, id);
    hide Admissions, Finish, Settle, ReturnLatest, WorldOk, TransportOk;
    match a
    case Finishing(_, tag, result) =>
      if tag in t.outstanding {
        FinishAdmits(b, t, id, tag, result);
      }
    case Settling(_, tag, disposition) => SettleAdmits(b, t, id, tag, disposition);
    case Returning(_) =>
      if t.outstanding != map[] {
        ReturnAdmits(w, id);
      }
  }

  lemma DeclarationAdmits(b: BrokerState, topic: Topic, options: TopicOptions)
    requires Admissions(b)
    ensures Admits(b, EnsureTopic(b, topic, options).0)
  {
    hide Admissions;
    AddingAdmits(b, EnsureTopic(b, topic, options).0);
  }

  lemma OthersAdmit(w: World, a: Action)
    requires Admissions(w.broker) && a.id < |w.transports|
    requires !a.Finishing? && !a.Settling? && !a.Returning?
    ensures Admits(w.broker, Apply(w, a).broker)
  {
    hide Admissions, Publish, Take, Purge, EnsureTopic, ForensicTopicOptions;
    var b, t := w.broker, w.transports[a.id];
    match a
    case Sending(_, topic, payload, _, route) => PublishAdmits(b, topic, payload, route);
    case Delivering(_) => TakeAdmits(b, t.topic, a.id);
    case Purging(_, topic) => PurgeAdmits(b, topic);
    case Provisioning(_, topic) => DeclarationAdmits(b, DeadLetterTopic(topic), ForensicTopicOptions(topic));
    case Declaring(_, topic, options) => DeclarationAdmits(b, topic, options);
    case _ =>
  }

  lemma ApplyAdmits(w: World, a: Action)
    requires WorldOk(w) && Admissions(w.broker)
    ensures Admits(w.broker, Apply(w, a).broker)
  {
    hide Admissions, WorldOk;
    if a.id < |w.transports| {
      hide Apply;
      if a.Finishing? || a.Settling? || a.Returning? {
        HandsAdmit(w, a);
      } else {
        OthersAdmit(w, a);
      }
    }
  }

  lemma {:induction false} RunAdmits(w: World, actions: seq<Action>)
    requires WorldOk(w) && Admissions(w.broker)
    ensures Admits(w.broker, Run(w, actions).broker)
    decreases |actions|
  {
    hide WorldOk, Admissions, Apply;
    if actions != [] {
      ApplyKeeps(w, actions[0]);
      ApplyAdmits(w, actions[0]);
      RunAdmits(Apply(w, actions[0]), actions[1..]);
    }
  }

  lemma ReachableAdmissions(count: nat, actions: seq<Action>)
    ensures Admissions(Run(Start(count), actions).broker)
  {
    StartOk(count);
    assert Admissions(Start(count).broker);
    hide Admissions, WorldOk, Run;
    RunAdmits(Start(count), actions);
  }
}
