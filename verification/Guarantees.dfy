/**
 * What users of the broker rely on, after every schedule of every number of transports.
 * A schedule is any sequence of actions, so every interleaving of every program is covered.
 */
module Guarantees {
  import opened Seam
  import opened BrokerModel
  import opened QueueLaws
  import opened BrokerLaws
  import opened TransportModel
  import opened Fleet
  import opened FleetLaws
  import opened AdmissionLaws
  import opened FleetBounds

  // ---------------------------------------------------------------- conservation

  predicate WaitsAt(w: World, n: nat, topic: Topic, i: nat) {
    i < |Queue(w.broker, topic)| && Queue(w.broker, topic)[i].sequence == n
  }

  predicate IsHeldBy(w: World, n: nat, id: nat) {
    id < |w.transports| && n in w.transports[id].outstanding
  }

  ghost predicate IsWaiting(w: World, n: nat) {
    exists topic, i :: WaitsAt(w, n, topic, i)
  }

  ghost predicate IsHeld(w: World, n: nat) {
    exists id :: IsHeldBy(w, n, id)
  }

  lemma WaitingIsWaiting(w: World, n: nat)
    requires Books(w.broker, {})
    ensures forall topic, i | WaitsAt(w, n, topic, i) :: n in w.broker.history.places && w.broker.history.places[n] == Waiting(topic)
    ensures n in w.broker.history.places && w.broker.history.places[n].Waiting? ==> IsWaiting(w, n)
  {
    var b := w.broker;
    forall topic, i: nat | WaitsAt(w, n, topic, i) ensures n in b.history.places && b.history.places[n] == Waiting(topic) {
      assert Recorded(b.history, topic, Queue(b, topic)[i]);
    }
    if n in b.history.places && b.history.places[n].Waiting? {
      var topic := b.history.places[n].topic;
      assert n in Filed(b, topic);
      var i: nat :| i < |Queue(b, topic)| && Queue(b, topic)[i].sequence == n;
      assert WaitsAt(w, n, topic, i);
    }
  }

  /**
   * Conservation: every number ever stamped is in exactly one of a queue, a transport's hands and
   * its recorded end; in one queue at one position, in the hands of one transport.
   */
  lemma ExactlyOnePlace(count: nat, actions: seq<Action>, n: nat)
    requires 1 <= n <= Run(Start(count), actions).broker.sequence
    ensures var w := Run(Start(count), actions);
            && (IsWaiting(w, n) <==> !IsHeld(w, n) && !EndedIn(w.broker.history, n))
            && (IsHeld(w, n) <==> !IsWaiting(w, n) && !EndedIn(w.broker.history, n))
            && (forall topic, i, topic', i' | WaitsAt(w, n, topic, i) && WaitsAt(w, n, topic', i') :: topic == topic' && i == i')
            && (forall id, id' | IsHeldBy(w, n, id) && IsHeldBy(w, n, id') :: id == id')
  {
    var w := Run(Start(count), actions);
    Reachable(count, actions);
    WaitingIsWaiting(w, n);
    HeldIsHeld(w, n);
    assert n in w.broker.history.places;
    forall topic, i, i' | WaitsAt(w, n, topic, i) && WaitsAt(w, n, topic, i') ensures i == i' {
      assert Distinct(Queue(w.broker, topic));
    }
  }

  lemma HeldIsHeld(w: World, n: nat)
    requires HoldersOk(w)
    ensures forall id | IsHeldBy(w, n, id) :: n in w.broker.history.places && w.broker.history.places[n] == With(id)
    ensures n in w.broker.history.places && w.broker.history.places[n].With? ==> IsHeld(w, n)
  {
    forall id: nat | IsHeldBy(w, n, id) ensures n in w.broker.history.places && w.broker.history.places[n] == With(id) {
      assert TransportOk(w.broker, w.transports[id], id);
      assert HeldOk(w.broker, w.transports[id], id, n);
    }
    if n in w.broker.history.places && w.broker.history.places[n].With? {
      assert IsHeldBy(w, n, w.broker.history.places[n].holder);
    }
  }

  /** Nothing that was never stamped is ever waiting or held. */
  lemma NothingInvented(count: nat, actions: seq<Action>, n: nat)
    requires var w := Run(Start(count), actions); IsWaiting(w, n) || IsHeld(w, n)
    ensures 1 <= n <= Run(Start(count), actions).broker.sequence
  {
    var w := Run(Start(count), actions);
    Reachable(count, actions);
    WaitingIsWaiting(w, n);
    HeldIsHeld(w, n);
  }

  /** The end of a copy is final: no later schedule makes it wait, be held, or end differently. */
  lemma EndsAreFinal(count: nat, actions: seq<Action>, more: seq<Action>, n: nat)
    requires EndedIn(Run(Start(count), actions).broker.history, n)
    ensures var w, v := Run(Start(count), actions), Run(Run(Start(count), actions), more);
            && EndedIn(v.broker.history, n) && v.broker.history.places[n] == w.broker.history.places[n]
            && !IsWaiting(v, n) && !IsHeld(v, n)
  {
    var w := Run(Start(count), actions);
    Reachable(count, actions);
    RunKeeps(w, more);
    WaitingIsWaiting(Run(w, more), n);
    HeldIsHeld(Run(w, more), n);
  }

  // ---------------------------------------------------------------- no silent loss

  /** The topic's queue has copy `n`, with these bytes. */
  predicate WaitsIntact(w: World, n: nat, topic: Topic, body: string) {
    exists i | 0 <= i < |Queue(w.broker, topic)| ::
      Queue(w.broker, topic)[i].sequence == n && Queue(w.broker, topic)[i].body == body
  }

  /** A consumer of the topic has copy `n` in hand, with these bytes. */
  predicate HeldIntact(w: World, n: nat, id: nat, topic: Topic, body: string) {
    && id < |w.transports| && w.transports[id].topic == topic
    && n in w.transports[id].outstanding && w.transports[id].outstanding[n].body == body
  }

  /**
   * The forensic copy waits or is held, intact; or it was acknowledged, purged or rejected there; or the
   * forensic queue refused it while it held 2000.
   */
  predicate KeptAsEvidence(w: World, copy: nat, topic: Topic, body: string) {
    var h, forensic := w.broker.history, DeadLetterTopic(topic);
    && copy in h.stamps && h.stamps[copy] == Stamp(forensic, body)
    && copy in h.places
    && if copy in h.admitted then
         match h.places[copy]
         case Waiting(at) => at == forensic && WaitsIntact(w, copy, forensic, body)
         case With(id) => HeldIntact(w, copy, id, forensic, body)
         case Ended(fate) => fate.Acked? || fate.Purged? || fate.Dropped?
       else h.places[copy].Ended? && h.places[copy].fate.Refused? && h.places[copy].fate.depth >= FORENSIC_MAX_LENGTH
  }

  /** Where a copy its topic accepted may be, with its bytes intact. */
  predicate Safe(w: World, n: nat, topic: Topic, body: string) {
    var h := w.broker.history;
    && n in h.places
    && match h.places[n]
       case Waiting(at) => at == topic && WaitsIntact(w, n, topic, body)
       case With(id) => HeldIntact(w, n, id, topic, body)
       case Ended(Acked(_)) => true
       case Ended(Purged) => true
       case Ended(DeadLettered(copy)) => KeptAsEvidence(w, copy, topic, body)
       case Ended(Refused(_)) => false
       case Ended(Dropped) => false
       case Ended(Lost) => false
  }

  /** What became of a copy its topic did not accept: the topic was at its bound, or the copy is kept as evidence too. */
  predicate RefusedOpenly(w: World, n: nat, topic: Topic, body: string) {
    var h := w.broker.history;
    && n in h.places
    && match h.places[n]
       case Ended(Refused(depth)) => topic in w.broker.topics && 0 < w.broker.topics[topic].options.maxLength <= depth
       case Ended(DeadLettered(copy)) => KeptAsEvidence(w, copy, topic, body)
       case _ => false
  }

  /** Copy `n` was published to `topic` after the topic was declared with deadLetter. */
  ghost predicate PublishedTo(w: World, n: nat, topic: Topic) {
    && n in w.broker.history.stamps && w.broker.history.stamps[n].topic == topic
    && topic in w.declared && w.declared[topic] < n
    && topic in w.broker.topics && w.broker.topics[topic].options.deadLetter
  }

  /**
   * No silent loss: a copy a queue ever took is waiting there, held, acknowledged or purged; or one
   * byte-identical copy was stamped for the forensic topic, and the forensic queue took it unless it
   * held 2000. An accepted copy is never refused, dropped or lost.
   */
  lemma NoSilentLoss(count: nat, actions: seq<Action>, n: nat, topic: Topic)
    requires PublishedTo(Run(Start(count), actions), n, topic)
    requires n in Run(Start(count), actions).broker.history.admitted
    ensures var w := Run(Start(count), actions); Safe(w, n, topic, w.broker.history.stamps[n].body)
  {
    Reachable(count, actions);
    ReachableAdmissions(count, actions);
    PublishedIsUnlost(Run(Start(count), actions), n, topic);
    hide WorldOk, Admissions, Run, PublishedTo, Unlost, Safe;
    SafeInWorld(Run(Start(count), actions), n, topic);
  }

  /** Copy `n` waits at the topic, or a transport has it, at a moment when the topic is declared with deadLetter. */
  ghost predicate PresentAt(w: World, n: nat, topic: Topic) {
    && n in w.broker.history.stamps && w.broker.history.stamps[n].topic == topic
    && topic in w.declared && topic in w.broker.topics && w.broker.topics[topic].options.deadLetter
    && n in w.broker.history.places && !w.broker.history.places[n].Ended?
  }

  /** Nor is a copy lost that was published before its topic was declared, and is still there when that happens. */
  lemma NoSilentLossOnceDeclared(count: nat, before: seq<Action>, more: seq<Action>, n: nat, topic: Topic)
    requires PresentAt(Run(Start(count), before), n, topic)
    ensures var v := Run(Run(Start(count), before), more);
            n in v.broker.history.stamps && Safe(v, n, topic, v.broker.history.stamps[n].body)
  {
    var w := Run(Start(count), before);
    var v := Run(w, more);
    Reachable(count, before);
    ReachableAdmissions(count, before);
    RunKeeps(w, more);
    RunAdmits(w, more);
    assert PlaceAdmitted(w.broker.history, n, w.broker.history.places[n]);
    hide Run, Safe;
    PresentStaysUnlost(w, v, n, topic);
    hide WorldOk, Admissions, Advances, Admits, Unlost;
    SafeInWorld(v, n, topic);
  }

  /** A copy no queue ever took was refused by its full topic, or is kept as evidence. */
  lemma RefusalsAreAccounted(count: nat, actions: seq<Action>, n: nat, topic: Topic)
    requires PublishedTo(Run(Start(count), actions), n, topic)
    requires n !in Run(Start(count), actions).broker.history.admitted
    ensures var w := Run(Start(count), actions); RefusedOpenly(w, n, topic, w.broker.history.stamps[n].body)
  {
    Reachable(count, actions);
    ReachableAdmissions(count, actions);
    PublishedIsUnlost(Run(Start(count), actions), n, topic);
    hide WorldOk, Admissions, Run, PublishedTo, Unlost, RefusedOpenly;
    RefusedInWorld(Run(Start(count), actions), n, topic);
  }

  /** What ever waited was taken by its queue, and from then on no schedule makes it count as refused. */
  lemma AcceptedIsNeverRefused(count: nat, actions: seq<Action>, more: seq<Action>, n: nat)
    requires IsWaiting(Run(Start(count), actions), n)
    ensures var h := Run(Run(Start(count), actions), more).broker.history;
            n in h.admitted && n in h.places && !(h.places[n].Ended? && h.places[n].fate.Refused?)
  {
    var w := Run(Start(count), actions);
    Reachable(count, actions);
    ReachableAdmissions(count, actions);
    WaitingIsWaiting(w, n);
    assert PlaceAdmitted(w.broker.history, n, w.broker.history.places[n]);
    NothingInvented(count, actions, n);
    RunKeeps(w, more);
    RunAdmits(w, more);
    var h := Run(w, more).broker.history;
    assert n in h.places;
    assert PlaceAdmitted(h, n, h.places[n]);
  }

  /** The topic can take dead letters, and neither copy `n` nor its replacement is lost. */
  ghost predicate Unlost(w: World, n: nat, topic: Topic) {
    && n in w.broker.history.stamps && w.broker.history.stamps[n].topic == topic
    && topic in w.broker.topics && w.broker.topics[topic].options.deadLetter && ForensicReady(w.broker, topic)
    && !LostIn(w.broker.history, n)
    && (forall copy: nat | ReplacedBy(w.broker.history, n, copy) :: !LostIn(w.broker.history, copy))
  }

  lemma PublishedIsUnlost(w: World, n: nat, topic: Topic)
    requires WorldOk(w) && PublishedTo(w, n, topic)
    ensures Unlost(w, n, topic)
  {
    hide Order, QueueBooks, Numbers, HoldersOk, ForensicReady;
    assert Covered(w, topic, n);
    forall copy: nat | ReplacedBy(w.broker.history, n, copy) ensures !LostIn(w.broker.history, copy) {
      assert FateHonest(w.broker, n, DeadLettered(copy));
      assert Covered(w, DeadLetterTopic(topic), copy);
    }
  }

  /** What is lost later was lost on a topic without forensic destination, and replacements are new. */
  lemma PresentStaysUnlost(w: World, v: World, n: nat, topic: Topic)
    requires WorldOk(w) && WorldOk(v) && Advances(w, v) && Admits(w.broker, v.broker) && PresentAt(w, n, topic)
    ensures Unlost(v, n, topic)
  {
    hide Order, QueueBooks, Numbers, HoldersOk, LossesOk, Admissions;
    assert ForensicReady(w.broker, topic);
    forall copy: nat | ReplacedBy(v.broker.history, n, copy) ensures !LostIn(v.broker.history, copy) {
      assert FateHonest(v.broker, n, DeadLettered(copy));
      assert !ReplacedBy(w.broker.history, n, copy);
    }
  }

  lemma PlacedHonestly(w: World, n: nat)
    requires Sound(w.broker, {}) && Admissions(w.broker) && n in w.broker.history.stamps
    ensures var h := w.broker.history;
            && n in h.places && PlaceAdmitted(h, n, h.places[n])
            && (h.places[n].Ended? ==> FateHonest(w.broker, n, h.places[n].fate))
  {
    hide Order, QueueBooks, Numbers, FateHonest;
  }

  lemma SafeInWorld(w: World, n: nat, topic: Topic)
    requires WorldOk(w) && Admissions(w.broker) && Unlost(w, n, topic) && n in w.broker.history.admitted
    ensures Safe(w, n, topic, w.broker.history.stamps[n].body)
  {
    var b := w.broker;
    PlacedHonestly(w, n);
    hide Order, QueueBooks, Numbers, ForensicReady, HeldOk, Admissions, KeptAsEvidence;
    match b.history.places[n]
    case Waiting(at) => WaitingIntact(b, n);
    case With(id) => HandsIntact(w, n);
    case Ended(fate) =>
      if fate.DeadLettered? {
        EvidenceKept(w, n, fate.copy, topic);
      }
  }

  lemma RefusedInWorld(w: World, n: nat, topic: Topic)
    requires WorldOk(w) && Admissions(w.broker) && Unlost(w, n, topic) && n !in w.broker.history.admitted
    ensures RefusedOpenly(w, n, topic, w.broker.history.stamps[n].body)
  {
    hide Sound, HoldersOk, DeclarationsOk, LossesOk, ForensicReady, Admissions, KeptAsEvidence;
    PlacedHonestly(w, n);
    var place := w.broker.history.places[n];
    if place.Ended? && place.fate.DeadLettered? {
      EvidenceKept(w, n, place.fate.copy, topic);
    }
  }

  lemma HandsIntact(w: World, n: nat)
    requires HoldersOk(w) && n in w.broker.history.places && w.broker.history.places[n].With?
    ensures n in w.broker.history.stamps
    ensures var Stamp(topic, body) := w.broker.history.stamps[n];
            HeldIntact(w, n, w.broker.history.places[n].holder, topic, body)
  {
    var id := w.broker.history.places[n].holder;
    assert TransportOk(w.broker, w.transports[id], id) && HeldOk(w.broker, w.transports[id], id, n);
  }

  lemma WaitingIntact(b: BrokerState, n: nat)
    requires Books(b, {}) && n in b.history.places && b.history.places[n].Waiting? && n in b.history.stamps
    ensures var at := b.history.places[n].topic;
            && b.history.stamps[n].topic == at
            && exists i | 0 <= i < |Queue(b, at)| ::
                 Queue(b, at)[i].sequence == n && Queue(b, at)[i].body == b.history.stamps[n].body
  {
    var at := b.history.places[n].topic;
    assert n in Filed(b, at);
    var i: nat :| i < |Queue(b, at)| && Queue(b, at)[i].sequence == n;
    assert Recorded(b.history, at, Queue(b, at)[i]);
  }

  lemma EvidenceKept(w: World, n: nat, copy: nat, topic: Topic)
    requires WorldOk(w) && Admissions(w.broker) && Unlost(w, n, topic)
    requires ReplacedBy(w.broker.history, n, copy) && FateHonest(w.broker, n, DeadLettered(copy))
    ensures KeptAsEvidence(w, copy, topic, w.broker.history.stamps[n].body)
  {
    hide Order, Fates, QueueBooks, Numbers, HoldersOk, Admissions, DeclarationsOk, LossesOk;
    var b, forensic := w.broker, DeadLetterTopic(topic);
    assert !LostIn(b.history, copy);
    PlacedHonestly(w, copy);
    if b.history.places[copy].Waiting? {
      WaitingIntact(b, copy);
    } else if b.history.places[copy].With? {
      HandsIntact(w, copy);
    }
  }

  /** A forensic copy replaces one original only, so evidence is never counted twice. */
  lemma ForensicCopiesAreDistinct(count: nat, actions: seq<Action>, n: nat, m: nat, copy: nat)
    requires var h := Run(Start(count), actions).broker.history; ReplacedBy(h, n, copy) && ReplacedBy(h, m, copy)
    ensures n == m
  {
    Reachable(count, actions);
  }

  // ---------------------------------------------------------------- order

  /**
   * Whoever consumes a topic, and however many do: its first deliveries are in publication order,
   * and its queue is a block of copies delivered before, then fresh copies in publication order,
   * all later than every first delivery.
   */
  lemma FirstDeliveriesFollowPublication(count: nat, actions: seq<Action>, topic: Topic)
    ensures var b := Run(Start(count), actions).broker;
            Ascending(Firsts(b, topic)) && Sorted(Queue(b, topic), Firsts(b, topic))
  {
    hide Books, Fates;
    Reachable(count, actions);
  }

  /** A fresh delivery is later than every first delivery before it, and is logged as one. */
  lemma FreshDeliveryIsNext(count: nat, actions: seq<Action>, id: nat)
    requires id < |Run(Start(count), actions).transports|
    ensures var w := Run(Start(count), actions);
            var t := w.transports[id];
            var (b, _, delivery) := Deliver(w.broker, t, id);
            delivery.Some? ==>
              if delivery.value.redelivered then delivery.value.tag in Firsts(w.broker, t.topic)
              else Above(delivery.value.tag, Firsts(w.broker, t.topic))
                   && Firsts(b, t.topic) == Firsts(w.broker, t.topic) + [delivery.value.tag]
  {
    var w := Run(Start(count), actions);
    var t := w.transports[id];
    Reachable(count, actions);
    if Idle(t) && Queue(w.broker, t.topic) != [] {
      hide Books, Fates, Above;
      assert Sorted(Queue(w.broker, t.topic), Firsts(w.broker, t.topic));
    }
  }

  // ---------------------------------------------------------------- bounds

  lemma {:induction false} NobodyYet(count: nat, topic: Topic)
    ensures Holders(Start(count), topic) == 0 && Subscribers(Start(count), topic) == 0
  {
    NoneAmong(Start(count).transports, topic);
  }

  lemma {:induction false} NoneAmong(ts: seq<Transport>, topic: Topic)
    requires forall i | 0 <= i < |ts| :: ts[i] == NEW_TRANSPORT
    ensures Total(ts, Holding(topic)) == 0 && Total(ts, Listening(topic)) == 0
    decreases |ts|
  {
    if ts != [] {
      NoneAmong(ts[1..], topic);
    }
  }

  /**
   * The true depth bound: if never more than `c` transports subscribe to a topic of length m, its
   * queue and the deliveries under way together never exceed m + c, although requeue ignores m.
   * And at most `c` of its copies are under way or waiting to be retried at any time.
   */
  lemma DepthBound(count: nat, actions: seq<Action>, topic: Topic, c: nat)
    requires AtMost(Start(count), actions, topic, c)
    ensures var w := Run(Start(count), actions);
            && Retries(Queue(w.broker, topic)) + Holders(w, topic) <= c
            && (topic in w.broker.topics && w.broker.topics[topic].options.maxLength > 0 ==>
                  |Queue(w.broker, topic)| + Holders(w, topic) <= w.broker.topics[topic].options.maxLength + c)
  {
    NobodyYet(count, topic);
    StartOk(count);
    hide WorldOk, Holders, Subscribers;
    RunBound(Start(count), actions, topic, c);
  }

  lemma {:induction false} SubscribersFit(w: World, actions: seq<Action>, topic: Topic)
    requires WorldOk(w)
    ensures AtMost(w, actions, topic, |w.transports|)
    decreases |actions|
  {
    HoldersSubscribe(w, topic);
    hide WorldOk, Apply, Subscribers;
    if actions != [] {
      ApplyKeeps(w, actions[0]);
      SubscribersFit(Apply(w, actions[0]), actions[1..], topic);
    }
  }

  /** For any fixed set of N transports the bound is m + N. */
  lemma DepthBoundForAll(count: nat, actions: seq<Action>, topic: Topic)
    ensures var w := Run(Start(count), actions);
            topic in w.broker.topics && w.broker.topics[topic].options.maxLength > 0 ==>
              |Queue(w.broker, topic)| + Holders(w, topic) <= w.broker.topics[topic].options.maxLength + count
  {
    StartOk(count);
    hide WorldOk, Holders;
    SubscribersFit(Start(count), actions, topic);
    DepthBound(count, actions, topic, count);
  }

  /** Tags in a transport's hands, then the queue: publication order throughout. */
  predicate WhollySorted(w: World, topic: Topic) {
    var q := Queue(w.broker, topic);
    && (forall i, j | 0 <= i < j < |q| :: q[i].sequence < q[j].sequence)
    && (forall id, tag, i | 0 <= id < |w.transports| && w.transports[id].topic == topic
                            && tag in w.transports[id].outstanding && 0 <= i < |q| :: tag < q[i].sequence)
  }

  /** A single subscriber sees publication order across retries, throwing handlers, closes and restarts. */
  lemma SoleSubscriberSeesOrder(count: nat, actions: seq<Action>, topic: Topic)
    requires AtMost(Start(count), actions, topic, 1)
    ensures WhollySorted(Run(Start(count), actions), topic)
  {
    DepthBound(count, actions, topic, 1);
    Reachable(count, actions);
    hide WorldOk, Run, Holders, WhollySorted;
    SortedInWorld(Run(Start(count), actions), topic);
  }

  lemma SortedInWorld(w: World, topic: Topic)
    requires WorldOk(w) && Retries(Queue(w.broker, topic)) + Holders(w, topic) <= 1
    ensures WhollySorted(w, topic)
  {
    var q, firsts := Queue(w.broker, topic), Firsts(w.broker, topic);
    assert Sorted(q, firsts);
    hide Sound, LossesOk, DeclarationsOk;
    OneRetry(q, firsts);
    forall id, tag, i | 0 <= id < |w.transports| && w.transports[id].topic == topic
                        && tag in w.transports[id].outstanding && 0 <= i < |q|
      ensures tag < q[i].sequence
    {
      assert TransportOk(w.broker, w.transports[id], id) && HeldOk(w.broker, w.transports[id], id, tag);
      HoldsSome(w.transports, topic, id);
      NoRetry(q);
      assert Above(q[i].sequence, firsts);
    }
  }

  lemma {:induction false} NoRetry(q: seq<Held>)
    requires Retries(q) == 0
    ensures forall i | 0 <= i < |q| :: !q[i].redelivered
    decreases |q|
  {
    if q != [] {
      NoRetry(q[1..]);
      forall i | 0 < i < |q| ensures !q[i].redelivered {
        assert q[i] == q[1..][i - 1];
      }
    }
  }

  lemma OneRetry(q: seq<Held>, firsts: seq<nat>)
    requires Sorted(q, firsts) && Retries(q) <= 1
    ensures forall i, j | 0 <= i < j < |q| :: q[i].sequence < q[j].sequence
  {
    if q != [] && q[0].redelivered {
      NoRetry(q[1..]);
      forall j | 0 < j < |q| ensures !q[j].redelivered && Above(q[j].sequence, firsts) {
        assert q[j] == q[1..][j - 1];
      }
    }
  }

  // ---------------------------------------------------------------- forensic destinations

  /**
   * A topic declared with deadLetter always has its forensic topic, with deadLetter off, length
   * 2000 and RejectPublish; so dead-lettering for it never throws and never recurses further.
   */
  lemma DeclaredTopicsAreProvisioned(count: nat, actions: seq<Action>, topic: Topic, held: Held)
    requires var w := Run(Start(count), actions);
             topic in w.declared && topic in w.broker.topics && w.broker.topics[topic].options.deadLetter
    ensures var b, forensic := Run(Start(count), actions).broker, DeadLetterTopic(topic);
            && forensic in b.topics && !b.topics[forensic].options.deadLetter
            && b.topics[forensic].options.maxLength == 2000 && b.topics[forensic].options.overflow == RejectPublish
    ensures TakenOrRefused(Run(Start(count), actions).broker, topic, held)
  {
    var w := Run(Start(count), actions);
    Reachable(count, actions);
    assert ForensicReady(w.broker, topic);
    hide WorldOk, Run;
    ForensicTakes(w.broker, topic, held);
  }

  /** Dead-lettering stamps one copy and appends it to the forensic queue, unless that is AtCap. */
  predicate TakenOrRefused(b: BrokerState, topic: Topic, held: Held) {
    var (c, kept) := DeadLetter(b, topic, held);
    var forensic := DeadLetterTopic(topic);
    var full := Pressure(|Queue(b, forensic)|, FORENSIC_MAX_LENGTH) == AtCap;
    && kept && c.sequence == b.sequence + 1
    && Queue(c, forensic) == (if full then Queue(b, forensic) else Queue(b, forensic) + [Held(b.sequence + 1, held.body, false)])
    && (forall name | name in b.topics && name != forensic :: c.topics[name] == b.topics[name])
  }

  lemma ForensicTakes(b: BrokerState, topic: Topic, held: Held)
    requires topic in b.topics && b.topics[topic].options.deadLetter && ForensicReady(b, topic)
    ensures TakenOrRefused(b, topic, held)
  {
  }
}
