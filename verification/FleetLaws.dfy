/** What every interleaving of any number of transports keeps. */
module FleetLaws {
  import opened Wrappers
  import opened Seam
  import opened BrokerModel
  import opened QueueLaws
  import opened BrokerLaws
  import opened PublishLaws
  import opened StepLaws
  import opened TransportModel
  import opened Fleet

  // ---------------------------------------------------------------- the invariant

  /** A delivery in a transport's hands: the history says so, and its bytes are the published ones. */
  predicate HeldOk(b: BrokerState, t: Transport, id: nat, tag: nat)
    requires tag in t.outstanding
  {
    && t.outstanding[tag].sequence == tag
    && tag in b.history.places && b.history.places[tag] == With(id)
    && tag in b.history.stamps && b.history.stamps[tag] == Stamp(t.topic, t.outstanding[tag].body)
    && t.topic in b.topics && tag in Firsts(b, t.topic)
  }

  ghost predicate TransportOk(b: BrokerState, t: Transport, id: nat) {
    && (forall tag | tag in t.outstanding :: HeldOk(b, t, id, tag))
    && (forall x, y | x in t.outstanding && y in t.outstanding :: x == y)
    && (t.outstanding != map[] ==> t.connected && t.subscribed)
  }

  ghost predicate HoldersOk(w: World) {
    && (forall id | 0 <= id < |w.transports| :: TransportOk(w.broker, w.transports[id], id))
    && (forall n | n in w.broker.history.places && w.broker.history.places[n].With? ::
          var holder := w.broker.history.places[n].holder;
          holder < |w.transports| && n in w.transports[holder].outstanding)
  }

  predicate ForensicReady(b: BrokerState, source: Topic) {
    && DeadLetterTopic(source) in b.topics
    && SameProperties(b.topics[DeadLetterTopic(source)].options, ForensicTopicOptions(source))
  }

  ghost predicate DeclarationsOk(w: World) {
    && (forall topic | topic in w.provisioned ::
          ForensicReady(w.broker, topic) && w.provisioned[topic] <= w.broker.sequence)
    && (forall topic | topic in w.declared ::
          && topic in w.broker.topics && w.declared[topic] <= w.broker.sequence
          && (w.broker.topics[topic].options.deadLetter ==>
                topic in w.provisioned && w.provisioned[topic] <= w.declared[topic]))
  }

  /** Number `n` is later than the declaration of `topic`, or of the source `topic` is the forensic topic of. */
  ghost predicate Covered(w: World, topic: Topic, n: nat) {
    || (topic in w.declared && w.declared[topic] < n)
    || (exists source :: topic == DeadLetterTopic(source) && source in w.provisioned && w.provisioned[source] < n)
  }

  /** Only copies published before their topic was declared can have been lost to a throw. */
  ghost predicate LossesOk(w: World) {
    forall n | LostIn(w.broker.history, n) ::
      n in w.broker.history.stamps && !Covered(w, w.broker.history.stamps[n].topic, n)
  }

  ghost predicate WorldOk(w: World) {
    Sound(w.broker, {}) && HoldersOk(w) && DeclarationsOk(w) && LossesOk(w)
  }

  predicate EndedIn(h: History, n: nat) {
    n in h.places && h.places[n].Ended?
  }

  /**
   * What can never be undone: an ended copy stays ended, with the same fate; stamps and options
   * stay; logs of first deliveries only grow at their end; and only topics without a forensic
   * destination lose a copy.
   */
  ghost predicate Advances(w: World, v: World) {
    && |v.transports| == |w.transports|
    && w.broker.sequence <= v.broker.sequence
    && (forall topic | topic in w.broker.topics ::
          topic in v.broker.topics && v.broker.topics[topic].options == w.broker.topics[topic].options)
    && (forall topic :: Firsts(w.broker, topic) <= Firsts(v.broker, topic))
    && (forall n | n in w.broker.history.stamps ::
          n in v.broker.history.stamps && v.broker.history.stamps[n] == w.broker.history.stamps[n])
    && (forall n | EndedIn(w.broker.history, n) ::
          EndedIn(v.broker.history, n) && v.broker.history.places[n] == w.broker.history.places[n])
    && (forall n | LostIn(v.broker.history, n) && !LostIn(w.broker.history, n) ::
          n in v.broker.history.stamps && !Provisioned(w.broker, v.broker.history.stamps[n].topic))
    && (forall topic | topic in w.declared :: topic in v.declared && v.declared[topic] == w.declared[topic])
    && (forall topic | topic in w.provisioned :: topic in v.provisioned && v.provisioned[topic] == w.provisioned[topic])
  }

  lemma AdvancesTransitively(u: World, v: World, w: World)
    requires Advances(u, v) && Advances(v, w)
    ensures Advances(u, w)
  {
  }

  // ---------------------------------------------------------------- how one action changes the broker

  /** The broker changed, and of the copies in transports' hands at most `moved` changed place. */
  ghost predicate Changes(b: BrokerState, c: BrokerState, moved: set<nat>) {
    && (forall topic | topic in b.topics :: topic in c.topics && c.topics[topic].options == b.topics[topic].options)
    && b.sequence <= c.sequence
    && (forall topic :: Firsts(b, topic) <= Firsts(c, topic))
    && (forall n | n in b.history.stamps :: n in c.history.stamps && c.history.stamps[n] == b.history.stamps[n])
    && (forall n | n !in moved && Settled(b.history, n) :: Settled(c.history, n) && c.history.places[n] == b.history.places[n])
    && (forall n | n !in moved && ByTransport(c.history, n) :: Settled(b.history, n))
    && (forall n | LostIn(c.history, n) && !LostIn(b.history, n) ::
          n in c.history.stamps && !Provisioned(b, c.history.stamps[n].topic))
  }

  lemma EvolvingChanges(b: BrokerState, c: BrokerState)
    requires Evolves(b, c)
    ensures Changes(b, c, {})
  {
    assert forall topic | topic in b.topics :: TopicKept(b, c, topic);
    assert forall topic :: Firsts(c, topic) == Firsts(b, topic);
  }

  lemma CoveredIsProvisioned(w: World, topic: Topic, n: nat)
    requires DeclarationsOk(w) && Covered(w, topic, n)
    ensures Provisioned(w.broker, topic)
  {
    if topic in w.declared && w.declared[topic] < n {
      assert topic in w.provisioned ==> ForensicReady(w.broker, topic);
    } else {
      var source :| topic == DeadLetterTopic(source) && source in w.provisioned && w.provisioned[source] < n;
      assert ForensicReady(w.broker, source);
    }
  }

  lemma DeclarationsStay(w: World, v: World, moved: set<nat>)
    requires DeclarationsOk(w) && LossesOk(w) && Changes(w.broker, v.broker, moved)
    requires forall n | n in w.broker.history.places :: n in w.broker.history.stamps
    requires v.provisioned == w.provisioned && v.declared == w.declared
    ensures DeclarationsOk(v) && LossesOk(v)
  {
    forall topic | topic in v.provisioned ensures ForensicReady(v.broker, topic) {
      assert ForensicReady(w.broker, topic);
    }
    forall n | LostIn(v.broker.history, n)
      ensures n in v.broker.history.stamps && !Covered(v, v.broker.history.stamps[n].topic, n)
    {
      var topic := v.broker.history.stamps[n].topic;
      if LostIn(w.broker.history, n) {
        assert !Covered(w, topic, n);
      } else if Covered(w, topic, n) {
        CoveredIsProvisioned(w, topic, n);
      }
    }
  }

  /** Transport `id` alone may gain or lose `moved`; everyone else's deliveries are untouched. */
  lemma HoldersStay(w: World, c: BrokerState, id: nat, t: Transport, moved: set<nat>)
    requires HoldersOk(w) && id < |w.transports| && Changes(w.broker, c, moved)
    requires forall n | n in moved && n in w.broker.history.places && w.broker.history.places[n].With? ::
               w.broker.history.places[n].holder == id
    requires forall n | n in moved && n in c.history.places && c.history.places[n].With? ::
               c.history.places[n].holder == id && n in t.outstanding
    requires forall n | n in w.transports[id].outstanding && n !in moved :: n in t.outstanding
    requires TransportOk(c, t, id)
    ensures HoldersOk(Put(w, id, c, t))
  {
    var v := Put(w, id, c, t);
    forall j | 0 <= j < |v.transports| ensures TransportOk(c, v.transports[j], j) {
      if j != id {
        var other := w.transports[j];
        assert TransportOk(w.broker, other, j);
        forall tag | tag in other.outstanding ensures HeldOk(c, other, j, tag) {
          assert HeldOk(w.broker, other, j, tag);
          assert Settled(w.broker.history, tag);
        }
      }
    }
  }

  lemma StampedPlaces(b: BrokerState)
    requires Sound(b, {})
    ensures forall n | n in b.history.places :: n in b.history.stamps
  {
  }

  lemma ChangesAdvance(w: World, c: BrokerState, id: nat, t: Transport, moved: set<nat>)
    requires id < |w.transports| && Changes(w.broker, c, moved)
    requires forall n | n in moved :: !EndedIn(w.broker.history, n)
    ensures Advances(w, Put(w, id, c, t))
  {
    forall n | EndedIn(w.broker.history, n)
      ensures EndedIn(c.history, n) && c.history.places[n] == w.broker.history.places[n]
    {
      assert Settled(w.broker.history, n);
    }
  }

  lemma WorldStays(w: World, c: BrokerState, id: nat, t: Transport, moved: set<nat>)
    requires WorldOk(w) && id < |w.transports| && Sound(c, {}) && Changes(w.broker, c, moved)
    requires forall n | n in moved :: !EndedIn(w.broker.history, n)
    requires forall n | n in moved && n in w.broker.history.places && w.broker.history.places[n].With? ::
               w.broker.history.places[n].holder == id
    requires forall n | n in moved && n in c.history.places && c.history.places[n].With? ::
               c.history.places[n].holder == id && n in t.outstanding
    requires forall n | n in w.transports[id].outstanding && n !in moved :: n in t.outstanding
    requires TransportOk(c, t, id)
    ensures WorldOk(Put(w, id, c, t)) && Advances(w, Put(w, id, c, t))
  {
    hide Sound, Changes, HoldersOk, DeclarationsOk, LossesOk, TransportOk, Advances;
    ChangesAdvance(w, c, id, t, moved);
    StampedPlaces(w.broker);
    HoldersStay(w, c, id, t, moved);
    DeclarationsStay(w, Put(w, id, c, t), moved);
  }

  /** A transport with the same deliveries on the same topic is as good on the changed broker. */
  lemma SameHands(b: BrokerState, c: BrokerState, t: Transport, t': Transport, id: nat)
    requires TransportOk(b, t, id) && Changes(b, c, {})
    requires t'.outstanding == t.outstanding
    requires t.outstanding != map[] ==> t'.topic == t.topic && t'.connected && t'.subscribed
    ensures TransportOk(c, t', id)
  {
    forall tag | tag in t.outstanding ensures HeldOk(c, t', id, tag) {
      assert HeldOk(b, t, id, tag) && Settled(b.history, tag);
    }
  }

  lemma QuietStep(w: World, c: BrokerState, id: nat, t: Transport)
    requires WorldOk(w) && id < |w.transports| && Sound(c, {}) && Changes(w.broker, c, {})
    requires t.outstanding == w.transports[id].outstanding
    requires t.outstanding != map[] ==> t.topic == w.transports[id].topic && t.connected && t.subscribed
    ensures WorldOk(Put(w, id, c, t)) && Advances(w, Put(w, id, c, t))
  {
    hide Sound, Changes, DeclarationsOk, LossesOk, TransportOk, Advances;
    SameHands(w.broker, c, w.transports[id], t, id);
    WorldStays(w, c, id, t, {});
  }

  // ---------------------------------------------------------------- one delivery, taken and given back

  lemma DifferenceChanges(b: BrokerState, c: BrokerState, n: nat)
    requires OnlyPlaceDiffers(b, c, n) && !LostIn(c.history, n)
    requires forall topic | topic in b.topics :: topic in c.topics && c.topics[topic].options == b.topics[topic].options
    requires forall topic :: Firsts(b, topic) <= Firsts(c, topic)
    ensures Changes(b, c, {n})
  {
  }

  /** Changes of one copy compose: released first, then moved on. */
  lemma ReleasedThenChanged(b: BrokerState, c: BrokerState, d: BrokerState, n: nat)
    requires OnlyPlaceDiffers(b, c, n) && c.topics == b.topics && c.history.firsts == b.history.firsts
    requires n !in c.history.places && Changes(c, d, {n})
    ensures Changes(b, d, {n})
  {
    assert forall topic :: Firsts(c, topic) == Firsts(b, topic);
  }

  lemma MayMove(b: BrokerState, c: BrokerState, n: nat)
    requires Changes(b, c, {})
    ensures Changes(b, c, {n})
  {
  }

  lemma DeliverKeeps(b: BrokerState, t: Transport, id: nat)
    requires Sound(b, {}) && Idle(t) && Queue(b, t.topic) != []
    ensures var (c, t', delivery) := Deliver(b, t, id);
            var Held(n, body, redelivered) := Queue(b, t.topic)[0];
            && Sound(c, {}) && TransportOk(c, t', id) && Changes(b, c, {n})
            && delivery == Some(Delivery(body, redelivered, n))
            && n in b.history.places && b.history.places[n] == Waiting(t.topic)
            && t'.outstanding.Keys == {n} && t'.topic == t.topic
  {
    hide Sound, Newest, Sorted, Above;
    var n := Queue(b, t.topic)[0].sequence;
    TakeKeeps(b, t.topic, id);
    var c := Take(b, t.topic, id).0;
    DifferenceChanges(b, c, n);
    var t' := Deliver(b, t, id).1;
    assert HeldOk(c, t', id, n);
  }

  /** Handing a delivery back to the front of its topic. */
  lemma GiveBackKeeps(b: BrokerState, t: Transport, id: nat, tag: nat)
    requires Sound(b, {}) && TransportOk(b, t, id) && tag in t.outstanding
    ensures var c := RequeueFront(Release(b, tag), t.topic, t.outstanding[tag]);
            && Sound(c, {}) && Changes(b, c, {tag})
            && tag in c.history.places && c.history.places[tag] == Waiting(t.topic)
            && Queue(c, t.topic) == [t.outstanding[tag].(redelivered := true)] + Queue(b, t.topic)
            && OnlyQueueDiffers(b, c, t.topic)
  {
    hide Sound, Newest, Sorted, Above;
    assert HeldOk(b, t, id, tag);
    var b1 := Release(b, tag);
    ReleaseKeeps(b, tag);
    assert Firsts(b1, t.topic) == Firsts(b, t.topic);
    RequeueKeeps(b1, t.topic, t.outstanding[tag]);
    DifferenceChanges(b1, RequeueFront(b1, t.topic, t.outstanding[tag]), tag);
    ReleasedThenChanged(b, b1, RequeueFront(b1, t.topic, t.outstanding[tag]), tag);
  }

  /** A disposition is performed on exactly the delivery named, which then is nobody's any more. */
  lemma ResolveKeeps(b: BrokerState, t: Transport, id: nat, tag: nat, disposition: Disposition)
    requires Sound(b, {}) && TransportOk(b, t, id) && tag in t.outstanding && disposition != Deferred
    ensures var (c, t', completion) := Resolve(b, t, id, tag, disposition);
            && Sound(c, {}) && Changes(b, c, {tag})
            && t'.outstanding == map[] && t'.topic == t.topic
            && tag in c.history.places
            && match disposition
               case Ack => c.history.places[tag] == Ended(Acked(id)) && c.topics == b.topics
               case Requeue =>
                 && c.history.places[tag] == Waiting(t.topic)
                 && Queue(c, t.topic) == [t.outstanding[tag].(redelivered := true)] + Queue(b, t.topic)
               case Reject => RejectedEnd(c.history.places[tag]) && (completion == DeadLetterThrew ==> !Provisioned(b, t.topic))
               case Deferred => true
  {
    hide Sound, Newest, Sorted, Above, DeadLetter, Evolves;
    var held, b1 := t.outstanding[tag], Release(b, tag);
    assert HeldOk(b, t, id, tag);
    assert Drop(t.outstanding, tag) == map[];
    match disposition
    case Ack =>
      ReleaseKeeps(b, tag);
      AckKeeps(b1, tag, id);
      DifferenceChanges(b1, End(b1, tag, Acked(id)), tag);
      ReleasedThenChanged(b, b1, End(b1, tag, Acked(id)), tag);
    case Requeue =>
      GiveBackKeeps(b, t, id, tag);
    case Reject =>
      var c := DeadLetter(b1, t.topic, held).0;
      ReleaseKeeps(b, tag);
      DeadLetterKeeps(b1, {tag}, t.topic, held);
      assert {tag} - {tag} == {};
      EvolvingChanges(b1, c);
      MayMove(b1, c, tag);
      ReleasedThenChanged(b, b1, c, tag);
      assert Provisioned(b, t.topic) <==> Provisioned(b1, t.topic);
  }

  lemma PurgeChanges(b: BrokerState, topic: Topic)
    requires Sound(b, {})
    ensures Sound(Purge(b, topic).0, {}) && Changes(b, Purge(b, topic).0, {})
  {
    hide Sound, Purge;
    PurgeKeeps(b, topic);
    forall t: Topic ensures Firsts(Purge(b, topic).0, t) == Firsts(b, t) {}
    hide Firsts;
  }

  // ---------------------------------------------------------------- every action keeps the invariant

  lemma NoChange(b: BrokerState)
    ensures Changes(b, b, {})
  {
    Unchanged(b);
    EvolvingChanges(b, b);
  }

  lemma SameWorld(w: World)
    ensures Advances(w, w)
  {
  }

  lemma DeclaringKeeps(w: World, a: Action)
    requires WorldOk(w) && (a.Provisioning? || a.Declaring?)
    ensures WorldOk(Apply(w, a)) && Advances(w, Apply(w, a))
  {
    hide Sound, Changes, Evolves, SameProperties, EnsureTopic, Advances;
    SameWorld(w);
    if a.id < |w.transports| && w.transports[a.id].connected {
      var b := w.broker;
      assert TransportOk(b, w.transports[a.id], a.id);
      var options := if a.Provisioning? then ForensicTopicOptions(a.topic) else a.options;
      var name := if a.Provisioning? then DeadLetterTopic(a.topic) else a.topic;
      var (c, result) := EnsureTopic(b, name, options);
      EnsureTopicKeeps(b, name, options);
      EvolvingChanges(b, c);
      QuietStep(w, c, a.id, w.transports[a.id]);
      var v := Put(w, a.id, c, w.transports[a.id]);
      assert v == w.(broker := c);
      if a.Provisioning? {
        FreshProvision(v, Apply(w, a), a.topic, b.sequence, result);
        AdvancesTransitively(w, v, Apply(w, a));
      } else if options.deadLetter ==> a.topic in w.provisioned {
        FreshDeclaration(v, Apply(w, a), a.topic, options, b.sequence, result);
        AdvancesTransitively(w, v, Apply(w, a));
      }
    }
  }

  lemma FreshProvision(v: World, w: World, topic: Topic, now: nat, result: DeclareResult)
    requires WorldOk(v)
    requires now == v.broker.sequence
    requires w == v.(provisioned := if result == Declared then Note(v.provisioned, topic, now) else v.provisioned)
    requires result == Declared ==> ForensicReady(v.broker, topic)
    ensures WorldOk(w) && Advances(v, w)
  {
    hide FateHonest, QueueBooks, Numbers, Sorted, TransportOk, ForensicReady;
  }

  /** A topic declared just now has lost nothing since. */
  lemma FreshDeclaration(v: World, w: World, topic: Topic, options: TopicOptions, now: nat, result: DeclareResult)
    requires WorldOk(v) && now == v.broker.sequence
    requires w == v.(declared := if result == Declared then Note(v.declared, topic, now) else v.declared)
    requires result == Declared ==> topic in v.broker.topics && SameProperties(v.broker.topics[topic].options, options)
    requires options.deadLetter ==> topic in v.provisioned
    ensures WorldOk(w) && Advances(v, w)
  {
    hide FateHonest, QueueBooks, Numbers, Sorted, TransportOk;
  }

  /** Every critical section of every transport keeps the invariant and undoes nothing. */
  lemma ApplyKeeps(w: World, a: Action)
    requires WorldOk(w)
    ensures WorldOk(Apply(w, a)) && Advances(w, Apply(w, a))
  {
    SameWorld(w);
    hide Advances, Sound, Changes, DeclarationsOk, LossesOk, Evolves, Publish, Resolve, Take, EnsureTopic, RequeueFront, Purge, Release;
    if a.id < |w.transports| {
      var b, t, id := w.broker, w.transports[a.id], a.id;
      NoChange(b);
      assert TransportOk(b, t, id);
      match a
      case Connecting(_) => QuietStep(w, b, id, Connect(t));
      case Provisioning(_, _) => DeclaringKeeps(w, a);
      case Declaring(_, _, _) => DeclaringKeeps(w, a);
      case Sending(_, topic, payload, durable, route) =>
        PublishKeeps(b, topic, payload, route);
        EvolvingChanges(b, Publish(b, topic, payload, route).0);
        var (c, t1, _) := Send(b, t, topic, payload, durable, route);
        QuietStep(w, c, id, t1);
      case Subscribing(_, topic) => QuietStep(w, b, id, Subscribe(t, topic).0);
      case Delivering(_) =>
        var (c, t1, _) := Deliver(b, t, id);
        if Idle(t) && Queue(b, t.topic) != [] {
          DeliverKeeps(b, t, id);
          WorldStays(w, c, id, t1, {Queue(b, t.topic)[0].sequence});
        } else {
          NothingToTake(b, t, id);
          QuietStep(w, b, id, t);
        }
      case Finishing(_, tag, result) =>
        if tag in t.outstanding {
          FinishingKeeps(w, id, tag, result);
        }
      case Settling(_, tag, disposition) =>
        if t.connected && disposition != Deferred && tag in t.outstanding {
          ResolvingKeeps(w, id, tag, disposition);
        } else {
          QuietStep(w, b, id, t);
        }
      case Returning(_) =>
        if t.outstanding != map[] {
          ReturningKeeps(w, id);
        }
      case Disconnecting(_) =>
        if t.outstanding == map[] {
          QuietStep(w, b, id, Disconnect(t));
        }
      case Purging(_, topic) =>
        PurgeChanges(b, topic);
        QuietStep(w, Purge(b, topic).0, id, t);
    }
  }

  lemma NothingToTake(b: BrokerState, t: Transport, id: nat)
    requires !Idle(t) || Queue(b, t.topic) == []
    ensures Deliver(b, t, id) == (b, t, None)
  {
  }

  lemma ResolvingKeeps(w: World, id: nat, tag: nat, disposition: Disposition)
    requires WorldOk(w) && id < |w.transports| && tag in w.transports[id].outstanding && disposition != Deferred
    ensures var (c, t1, _) := Resolve(w.broker, w.transports[id], id, tag, disposition);
            WorldOk(Put(w, id, c, t1)) && Advances(w, Put(w, id, c, t1))
  {
    hide Sound, Changes, DeclarationsOk, LossesOk, Resolve, Advances;
    var t := w.transports[id];
    assert TransportOk(w.broker, t, id) && HeldOk(w.broker, t, id, tag);
    ResolveKeeps(w.broker, t, id, tag, disposition);
    var (c, t1, _) := Resolve(w.broker, t, id, tag, disposition);
    WorldStays(w, c, id, t1, {tag});
  }

  lemma FinishingKeeps(w: World, id: nat, tag: nat, result: HandlerResult)
    requires WorldOk(w) && id < |w.transports| && tag in w.transports[id].outstanding
    ensures var (c, t1, _) := Finish(w.broker, w.transports[id], id, tag, result);
            WorldOk(Put(w, id, c, t1)) && Advances(w, Put(w, id, c, t1))
  {
    hide WorldOk, Resolve, Advances;
    var (c, t1, _) := Finish(w.broker, w.transports[id], id, tag, result);
    if result.Returned? && result.disposition != Deferred {
      ResolvingKeeps(w, id, tag, result.disposition);
    } else {
      HandsUnchanged(w, id, t1);
    }
  }

  lemma HandsUnchanged(w: World, id: nat, t: Transport)
    requires WorldOk(w) && id < |w.transports|
    requires t == w.transports[id].(stats := t.stats)
    ensures WorldOk(Put(w, id, w.broker, t)) && Advances(w, Put(w, id, w.broker, t))
  {
    hide Sound, Changes, DeclarationsOk, LossesOk, Advances;
    NoChange(w.broker);
    assert TransportOk(w.broker, w.transports[id], id);
    QuietStep(w, w.broker, id, t);
  }

  lemma ReturningKeeps(w: World, id: nat)
    requires WorldOk(w) && id < |w.transports| && w.transports[id].outstanding != map[]
    ensures WorldOk(Apply(w, Returning(id))) && Advances(w, Apply(w, Returning(id)))
  {
    hide Sound, Changes, DeclarationsOk, LossesOk, RequeueFront, Release, Advances;
    var t := w.transports[id];
    var tag := Greatest(t.outstanding.Keys);
    assert TransportOk(w.broker, t, id) && HeldOk(w.broker, t, id, tag);
    GiveBackKeeps(w.broker, t, id, tag);
    var (c, t1) := ReturnLatest(w.broker, t);
    assert t1.outstanding == map[];
    WorldStays(w, c, id, t1, {tag});
  }

  lemma {:induction false} RunKeeps(w: World, actions: seq<Action>)
    requires WorldOk(w)
    ensures WorldOk(Run(w, actions)) && Advances(w, Run(w, actions))
    decreases |actions|
  {
    SameWorld(w);
    hide WorldOk, Apply, Advances;
    if actions != [] {
      var v := Apply(w, actions[0]);
      ApplyKeeps(w, actions[0]);
      RunKeeps(v, actions[1..]);
      AdvancesTransitively(w, v, Run(v, actions[1..]));
    }
  }

  lemma StartOk(count: nat)
    ensures WorldOk(Start(count))
  {
  }

  /** The invariant holds after every schedule of every number of transports. */
  lemma Reachable(count: nat, actions: seq<Action>)
    ensures WorldOk(Run(Start(count), actions))
  {
    StartOk(count);
    RunKeeps(Start(count), actions);
  }
}
