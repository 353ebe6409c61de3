/** What the broker's critical sections keep: the state invariant and the elementary changes. */
module BrokerLaws {
  import opened Seam
  import opened BrokerModel
  import opened QueueLaws

  // ---------------------------------------------------------------- the invariant

  ghost function Filed(b: BrokerState, topic: Topic): set<nat> {
    Numbers(Queue(b, topic))
  }

  /**
   * Every number ever stamped is in exactly one place, and the queues agree: a copy is Waiting at a
   * topic exactly when that topic's queue holds it, once, with the bytes it was stamped with.
   * `open` are the numbers in the hands of a running critical section.
   */
  ghost predicate Books(b: BrokerState, open: set<nat>) {
    && (forall n | n in open :: 1 <= n <= b.sequence)
    && (forall n :: n in b.history.stamps <==> 1 <= n <= b.sequence)
    && (forall n :: n in b.history.places <==> 1 <= n <= b.sequence && n !in open)
    && (forall topic | topic in b.topics :: QueueBooks(b.history, topic, b.topics[topic].messages))
    && (forall n | n in b.history.places && b.history.places[n].Waiting? :: n in Filed(b, b.history.places[n].topic))
  }

  /** Every queue is in order, and every topic's first deliveries follow publication order. */
  ghost predicate Order(b: BrokerState) {
    && (forall topic | topic in b.topics :: Sorted(b.topics[topic].messages, Firsts(b, topic)))
    && (forall topic | topic in b.history.firsts :: Ascending(b.history.firsts[topic]))
    && (forall topic | topic in b.history.firsts :: Above(b.sequence + 1, b.history.firsts[topic]))
  }

  /** What is known of a copy whose life ended this way. */
  ghost predicate FateHonest(b: BrokerState, n: nat, fate: Fate) {
    && n in b.history.stamps
    && var Stamp(topic, body) := b.history.stamps[n];
       match fate
       case DeadLettered(copy) =>
         && copy in b.history.stamps && n < copy && b.history.stamps[copy] == Stamp(DeadLetterTopic(topic), body)
         && topic in b.topics && b.topics[topic].options.deadLetter
       case Refused(depth) => topic in b.topics && 0 < b.topics[topic].options.maxLength <= depth
       case Dropped => topic in b.topics && !b.topics[topic].options.deadLetter
       case _ => true
  }

  predicate ReplacedBy(h: History, n: nat, copy: nat) {
    n in h.places && h.places[n] == Ended(DeadLettered(copy))
  }

  /** Every ended copy has an honest fate, and no two copies share a replacement. */
  ghost predicate Fates(b: BrokerState) {
    && (forall n | n in b.history.places && b.history.places[n].Ended? :: FateHonest(b, n, b.history.places[n].fate))
    && (forall n, m, copy | ReplacedBy(b.history, n, copy) && ReplacedBy(b.history, m, copy) :: n == m)
  }

  ghost predicate Sound(b: BrokerState, open: set<nat>) {
    Books(b, open) && Order(b) && Fates(b)
  }

  // ---------------------------------------------------------------- how publishing evolves a broker

  /** The forensic destination is there and ends the chain of dead-lettering. */
  predicate Provisioned(b: BrokerState, topic: Topic) {
    && topic in b.topics
    && (b.topics[topic].options.deadLetter ==>
          DeadLetterTopic(topic) in b.topics && !b.topics[DeadLetterTopic(topic)].options.deadLetter)
  }

  ghost predicate TopicKept(b: BrokerState, c: BrokerState, topic: Topic)
    requires topic in b.topics
  {
    && topic in c.topics
    && c.topics[topic].options == b.topics[topic].options
    && c.topics[topic].binding == b.topics[topic].binding
    && var bound := b.topics[topic].options.maxLength;
       var before, after := b.topics[topic].messages, c.topics[topic].messages;
       (bound == 0 || |after| <= bound || |after| <= |before|) && Retries(after) <= Retries(before)
  }

  /** Places a transport holds or that are final. */
  predicate Settled(h: History, n: nat) {
    n in h.places && !h.places[n].Waiting?
  }

  /** Places only a transport's own calls produce: held, or acknowledged. */
  predicate ByTransport(h: History, n: nat) {
    n in h.places && (h.places[n].With? || (h.places[n].Ended? && h.places[n].fate.Acked?))
  }

  predicate LostIn(h: History, n: nat) {
    n in h.places && h.places[n] == Ended(Lost)
  }

  /**
   * Publishing and dead-lettering forget nothing: stamps stay, copies held or ended stay where they
   * are, no copy gets held or acknowledged, bounded queues do not grow past their bound, no queue
   * gains redelivered copies, and only topics without a forensic destination lose a copy.
   */
  ghost predicate Evolves(b: BrokerState, c: BrokerState) {
    && (forall topic | topic in b.topics :: TopicKept(b, c, topic))
    && b.sequence <= c.sequence
    && b.history.firsts == c.history.firsts
    && (forall n | n in b.history.stamps :: n in c.history.stamps && c.history.stamps[n] == b.history.stamps[n])
    && (forall n | Settled(b.history, n) :: Settled(c.history, n) && c.history.places[n] == b.history.places[n])
    && (forall n | ByTransport(c.history, n) :: Settled(b.history, n))
    && (forall n | LostIn(c.history, n) && !LostIn(b.history, n) ::
          n in c.history.stamps && !Provisioned(b, c.history.stamps[n].topic))
  }

  lemma ProvisionedStays(b: BrokerState, c: BrokerState, topic: Topic)
    requires Evolves(b, c) && Provisioned(b, topic)
    ensures Provisioned(c, topic)
  {
    assert TopicKept(b, c, topic);
    assert b.topics[topic].options.deadLetter ==> TopicKept(b, c, DeadLetterTopic(topic));
  }

  lemma EvolvesTransitively(b: BrokerState, c: BrokerState, d: BrokerState)
    requires Evolves(b, c) && Evolves(c, d)
    ensures Evolves(b, d)
  {
    forall topic | topic in b.topics ensures TopicKept(b, d, topic) {
      assert TopicKept(b, c, topic) && TopicKept(c, d, topic);
    }
    forall n | LostIn(d.history, n) && !LostIn(b.history, n)
      ensures n in d.history.stamps && !Provisioned(b, d.history.stamps[n].topic)
    {
      if LostIn(c.history, n) {
        assert c.history.stamps[n] == d.history.stamps[n];
      } else if Provisioned(b, d.history.stamps[n].topic) {
        ProvisionedStays(b, c, d.history.stamps[n].topic);
      }
    }
  }

  // ---------------------------------------------------------------- Books under elementary changes

  lemma BooksElsewhere(b: BrokerState, c: BrokerState, except: set<Topic>)
    requires forall topic | topic in b.topics :: QueueBooks(b.history, topic, b.topics[topic].messages)
    requires forall topic | topic in c.topics && topic !in except ::
               topic in b.topics && c.topics[topic].messages == b.topics[topic].messages
    requires forall n | n in b.history.places && b.history.places[n].Waiting? && b.history.places[n].topic !in except ::
               n in c.history.places && c.history.places[n] == b.history.places[n]
    requires forall n | n in b.history.stamps :: n in c.history.stamps && c.history.stamps[n] == b.history.stamps[n]
    ensures forall topic | topic in c.topics && topic !in except :: QueueBooks(c.history, topic, c.topics[topic].messages)
  {
    forall topic | topic in c.topics && topic !in except
      ensures QueueBooks(c.history, topic, c.topics[topic].messages)
    {
      BooksFrame(b.history, c.history, topic, b.topics[topic].messages);
    }
  }

  lemma RestampBooks(b: BrokerState, open: set<nat>, topic: Topic, body: string)
    requires Books(b, open)
    ensures Books(Restamp(b, topic, body), open + {b.sequence + 1})
  {
    hide QueueBooks, Numbers;
    BooksElsewhere(b, Restamp(b, topic, body), {});
  }

  /** An open number gets a place outside the queues. */
  lemma MoveBooks(b: BrokerState, open: set<nat>, n: nat, place: Place)
    requires Books(b, open) && n in open && !place.Waiting?
    ensures Books(Move(b, n, place), open - {n})
  {
    hide QueueBooks, Numbers;
    BooksElsewhere(b, Move(b, n, place), {});
  }

  lemma PushBooks(b: BrokerState, open: set<nat>, topic: Topic, held: Held)
    requires Books(b, open) && held.sequence in open
    requires topic in b.topics && b.history.stamps[held.sequence] == Stamp(topic, held.body)
    ensures Books(PushBack(b, topic, held), open - {held.sequence})
    ensures Books(PushFront(b, topic, held), open - {held.sequence})
  {
    hide QueueBooks, Numbers;
    var q := b.topics[topic].messages;
    BooksAppend(b.history, topic, q, held);
    BooksFrame(PlaceAt(b.history, held.sequence, Waiting(topic)), PushBack(b, topic, held).history, topic, q + [held]);
    BooksPrepend(b.history, topic, q, held);
    NumbersAppend(q, held);
    NumbersPrepend(q, held);
    BooksElsewhere(b, PushBack(b, topic, held), {topic});
    BooksElsewhere(b, PushFront(b, topic, held), {topic});
  }

  lemma DropFrontBooks(b: BrokerState, open: set<nat>, topic: Topic)
    requires Books(b, open) && topic in b.topics && b.topics[topic].messages != []
    ensures Books(DropFront(b, topic), open + {b.topics[topic].messages[0].sequence})
  {
    hide Numbers;
    var q := b.topics[topic].messages;
    BooksTail(b.history, topic, q);
    NumbersTail(q);
    hide QueueBooks;
    BooksElsewhere(b, DropFront(b, topic), {topic});
  }

  // ---------------------------------------------------------------- Order under elementary changes

  /** Order depends on the queues, the log of first deliveries and the counter only. */
  lemma OrderKept(b: BrokerState, c: BrokerState)
    requires Order(b)
    requires c.topics == b.topics && c.history.firsts == b.history.firsts && b.sequence <= c.sequence
    ensures Order(c)
  {
    hide Sorted;
    forall t | t in c.topics ensures Sorted(c.topics[t].messages, Firsts(c, t)) {
      assert Firsts(c, t) == Firsts(b, t);
    }
  }

  lemma OrderElsewhere(b: BrokerState, c: BrokerState, topic: Topic)
    requires Order(b)
    requires c.topics.Keys == b.topics.Keys + {topic}
    requires forall t | t in c.topics && t != topic :: c.topics[t] == b.topics[t] && Firsts(c, t) == Firsts(b, t)
    requires Sorted(c.topics[topic].messages, Firsts(c, topic))
    requires c.history.firsts == b.history.firsts && b.sequence <= c.sequence
    ensures Order(c)
  {
    hide Sorted;
  }

  lemma PushBackOrder(b: BrokerState, topic: Topic, held: Held)
    requires Order(b) && topic in b.topics
    requires !held.redelivered && Newest(held.sequence, b.topics[topic].messages, Firsts(b, topic))
    ensures Order(PushBack(b, topic, held))
  {
    hide Sorted, Newest, Above, Ascending;
    SortedAppend(b.topics[topic].messages, Firsts(b, topic), held);
    OrderElsewhere(b, PushBack(b, topic, held), topic);
  }

  lemma PushFrontOrder(b: BrokerState, topic: Topic, held: Held)
    requires Order(b) && topic in b.topics
    requires held.redelivered && held.sequence in Firsts(b, topic)
    ensures Order(PushFront(b, topic, held))
  {
    hide Sorted, Above, Ascending;
    SortedPrepend(b.topics[topic].messages, Firsts(b, topic), held);
    OrderElsewhere(b, PushFront(b, topic, held), topic);
  }

  lemma DropFrontOrder(b: BrokerState, topic: Topic)
    requires Order(b) && topic in b.topics && b.topics[topic].messages != []
    ensures Order(DropFront(b, topic))
  {
    hide Sorted, Above, Ascending;
    SortedTail(b.topics[topic].messages, Firsts(b, topic));
    OrderElsewhere(b, DropFront(b, topic), topic);
  }

  /** The next number is later than everything waiting at a topic or delivered from it. */
  lemma NextIsNewest(b: BrokerState, open: set<nat>, topic: Topic)
    requires Sound(b, open) && topic in b.topics
    ensures Newest(b.sequence + 1, b.topics[topic].messages, Firsts(b, topic))
  {
    var q := b.topics[topic].messages;
    forall i | 0 <= i < |q| ensures q[i].sequence <= b.sequence {
      assert Recorded(b.history, topic, q[i]);
    }
  }

  // ---------------------------------------------------------------- Fates under elementary changes

  /** Fates depend on the options, the stamps and the ended places only. */
  lemma FatesKept(b: BrokerState, c: BrokerState)
    requires Fates(b)
    requires forall topic | topic in b.topics :: topic in c.topics && c.topics[topic].options == b.topics[topic].options
    requires forall n | n in b.history.stamps :: n in c.history.stamps && c.history.stamps[n] == b.history.stamps[n]
    requires forall n | n in c.history.places && c.history.places[n].Ended? ::
               n in b.history.places && b.history.places[n] == c.history.places[n]
    ensures Fates(c)
  {
    forall n | n in c.history.places && c.history.places[n].Ended? ensures FateHonest(c, n, c.history.places[n].fate) {
      assert FateHonest(b, n, b.history.places[n].fate);
    }
    forall n: nat, copy: nat | ReplacedBy(c.history, n, copy) ensures ReplacedBy(b.history, n, copy) {}
  }

  lemma EndFates(b: BrokerState, n: nat, fate: Fate)
    requires Fates(b) && n !in b.history.places
    requires !fate.DeadLettered? && FateHonest(b, n, fate)
    ensures Fates(End(b, n, fate))
  {
    var c := End(b, n, fate);
    forall m | m in c.history.places && c.history.places[m].Ended? ensures FateHonest(c, m, c.history.places[m].fate) {
      assert m != n ==> FateHonest(b, m, b.history.places[m].fate);
    }
    forall m: nat, copy: nat | ReplacedBy(c.history, m, copy) ensures ReplacedBy(b.history, m, copy) {}
  }

  /** Replacing a copy by one newly stamped for the forensic topic. */
  function Replace(b: BrokerState, source: Topic, held: Held): BrokerState {
    Restamp(End(b, held.sequence, DeadLettered(b.sequence + 1)), DeadLetterTopic(source), held.body)
  }

  lemma ReplaceFates(b: BrokerState, source: Topic, held: Held)
    requires Fates(b) && held.sequence !in b.history.places
    requires forall n | n in b.history.stamps :: n <= b.sequence
    requires held.sequence in b.history.stamps && b.history.stamps[held.sequence] == Stamp(source, held.body)
    requires source in b.topics && b.topics[source].options.deadLetter
    ensures Fates(Replace(b, source, held))
  {
    var n, c := held.sequence, Replace(b, source, held);
    forall m | m in c.history.places && c.history.places[m].Ended? ensures FateHonest(c, m, c.history.places[m].fate) {
      assert m != n ==> FateHonest(b, m, b.history.places[m].fate);
    }
    forall m: nat, copy: nat | ReplacedBy(c.history, m, copy) && m != n ensures ReplacedBy(b.history, m, copy) && copy <= b.sequence {
      assert FateHonest(b, m, b.history.places[m].fate);
    }
  }

  // ---------------------------------------------------------------- Sound and Evolves, step by step

  lemma SamePlacesEvolve(b: BrokerState, c: BrokerState)
    requires c.topics == b.topics && c.history.firsts == b.history.firsts && b.sequence <= c.sequence
    requires forall n | n in b.history.stamps :: n in c.history.stamps && c.history.stamps[n] == b.history.stamps[n]
    requires c.history.places == b.history.places
    ensures Evolves(b, c)
  {
    assert forall t | t in b.topics :: TopicKept(b, c, t);
  }

  lemma RestampKeeps(b: BrokerState, open: set<nat>, topic: Topic, body: string)
    requires Sound(b, open)
    ensures Sound(Restamp(b, topic, body), open + {b.sequence + 1})
    ensures Evolves(b, Restamp(b, topic, body))
  {
    hide QueueBooks, Numbers, Sorted;
    var c := Restamp(b, topic, body);
    RestampBooks(b, open, topic, body);
    OrderKept(b, c);
    FatesKept(b, c);
    SamePlacesEvolve(b, c);
  }

  lemma EndEvolves(b: BrokerState, n: nat, fate: Fate)
    requires n !in b.history.places && n in b.history.stamps && !fate.Acked?
    requires fate == Lost ==> !Provisioned(b, b.history.stamps[n].topic)
    ensures Evolves(b, End(b, n, fate))
  {
    assert forall t | t in b.topics :: TopicKept(b, End(b, n, fate), t);
  }

  lemma EndKeeps(b: BrokerState, open: set<nat>, n: nat, fate: Fate)
    requires Sound(b, open) && n in open
    requires !fate.DeadLettered? && FateHonest(b, n, fate)
    requires fate == Lost ==> !Provisioned(b, b.history.stamps[n].topic)
    ensures Sound(End(b, n, fate), open - {n})
    ensures !fate.Acked? ==> Evolves(b, End(b, n, fate))
  {
    hide QueueBooks, Numbers, Sorted, FateHonest, Evolves;
    MoveBooks(b, open, n, Ended(fate));
    OrderKept(b, End(b, n, fate));
    EndFates(b, n, fate);
    if !fate.Acked? {
      EndEvolves(b, n, fate);
    }
  }

  lemma ReplaceEvolves(b: BrokerState, source: Topic, held: Held)
    requires held.sequence !in b.history.places && held.sequence in b.history.stamps && b.sequence + 1 !in b.history.stamps
    ensures Evolves(b, Replace(b, source, held))
  {
    EndEvolves(b, held.sequence, DeadLettered(b.sequence + 1));
    SamePlacesEvolve(End(b, held.sequence, DeadLettered(b.sequence + 1)), Replace(b, source, held));
    EvolvesTransitively(b, End(b, held.sequence, DeadLettered(b.sequence + 1)), Replace(b, source, held));
  }

  lemma ReplaceKeeps(b: BrokerState, open: set<nat>, source: Topic, held: Held)
    requires Sound(b, open) && held.sequence in open
    requires b.history.stamps[held.sequence] == Stamp(source, held.body)
    requires source in b.topics && b.topics[source].options.deadLetter
    ensures Sound(Replace(b, source, held), open - {held.sequence} + {b.sequence + 1})
    ensures Evolves(b, Replace(b, source, held))
  {
    hide QueueBooks, Numbers, Sorted, FateHonest, Evolves;
    var n, fate := held.sequence, DeadLettered(b.sequence + 1);
    MoveBooks(b, open, n, Ended(fate));
    RestampBooks(End(b, n, fate), open - {n}, DeadLetterTopic(source), held.body);
    OrderKept(b, Replace(b, source, held));
    ReplaceFates(b, source, held);
    ReplaceEvolves(b, source, held);
  }

  lemma PushBackKeeps(b: BrokerState, open: set<nat>, topic: Topic, held: Held)
    requires Sound(b, open) && held.sequence in open
    requires topic in b.topics && b.history.stamps[held.sequence] == Stamp(topic, held.body)
    requires !held.redelivered && Newest(held.sequence, b.topics[topic].messages, Firsts(b, topic))
    ensures Sound(PushBack(b, topic, held), open - {held.sequence})
  {
    hide QueueBooks, Numbers, Sorted, FateHonest, Newest;
    PushBooks(b, open, topic, held);
    PushBackOrder(b, topic, held);
    FatesKept(b, PushBack(b, topic, held));
  }

  lemma DropFrontKeeps(b: BrokerState, open: set<nat>, topic: Topic)
    requires Sound(b, open) && topic in b.topics && b.topics[topic].messages != []
    ensures var Held(n, body, _) := b.topics[topic].messages[0];
            && n !in open && n in b.history.stamps && b.history.stamps[n] == Stamp(topic, body)
            && Sound(DropFront(b, topic), open + {n})
            && Evolves(b, DropFront(b, topic))
  {
    hide Numbers, Sorted, FateHonest, Evolves;
    BooksTail(b.history, topic, b.topics[topic].messages);
    hide QueueBooks;
    DropFrontBooks(b, open, topic);
    DropFrontOrder(b, topic);
    FatesKept(b, DropFront(b, topic));
    DropFrontEvolves(b, topic);
  }

  lemma DropFrontEvolves(b: BrokerState, topic: Topic)
    requires topic in b.topics && b.topics[topic].messages != []
    requires var n := b.topics[topic].messages[0].sequence; n in b.history.places && b.history.places[n].Waiting?
    ensures Evolves(b, DropFront(b, topic))
  {
    assert forall t | t in b.topics :: TopicKept(b, DropFront(b, topic), t);
  }
}
