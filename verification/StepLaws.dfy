/** The critical sections beside publishing keep the invariant: take, requeue, purge, ensureTopic. */
module StepLaws {
  import opened Wrappers
  import opened Seam
  import opened BrokerModel
  import opened QueueLaws
  import opened BrokerLaws
  import opened PublishLaws

  /** All of the history except the place of copy `n` is as before. */
  ghost predicate OnlyPlaceDiffers(b: BrokerState, c: BrokerState, n: nat) {
    && c.sequence == b.sequence
    && c.history.stamps == b.history.stamps
    && (forall m | m != n && m in b.history.places :: m in c.history.places && c.history.places[m] == b.history.places[m])
    && (forall m | m != n && m in c.history.places :: m in b.history.places)
  }

  /** Only the queue of `topic` changed. */
  ghost predicate OnlyQueueDiffers(b: BrokerState, c: BrokerState, topic: Topic) {
    && c.groups == b.groups
    && b.topics.Keys == c.topics.Keys
    && (forall t | t in b.topics && t != topic :: c.topics[t] == b.topics[t])
    && (topic in b.topics ==> c.topics[topic] == b.topics[topic].(messages := c.topics[topic].messages))
  }

  // ---------------------------------------------------------------- take

  /**
   * take hands the front copy to the transport, with the bytes it was published with. A copy that
   * was never delivered before is later than every first delivery of the topic so far.
   */
  lemma TakeKeeps(b: BrokerState, topic: Topic, who: nat)
    requires Sound(b, {}) && Queue(b, topic) != []
    ensures var (c, taken) := Take(b, topic, who);
            && taken == Some(Queue(b, topic)[0])
            && var Held(n, body, redelivered) := taken.value;
            && Sound(c, {})
            && OnlyPlaceDiffers(b, c, n) && OnlyQueueDiffers(b, c, topic)
            && Queue(c, topic) == Queue(b, topic)[1..]
            && n in b.history.places && b.history.places[n] == Waiting(topic)
            && n in c.history.places && c.history.places[n] == With(who)
            && n in c.history.stamps && c.history.stamps[n] == Stamp(topic, body)
            && n in Firsts(c, topic)
            && (if redelivered then c.history.firsts == b.history.firsts
                else Above(n, Firsts(b, topic)) && c.history.firsts == b.history.firsts[topic := Firsts(b, topic) + [n]])
  {
    hide Sorted, Numbers, FateHonest, Ascending, Above;
    var q, c := Queue(b, topic), Take(b, topic, who).0;
    BooksTail(b.history, topic, q);
    TakeFacts(b, topic, who);
    hide QueueBooks, Recorded, OnlyPlaceDiffers, OnlyQueueDiffers, Take;
    TakeBooks(b, topic, who);
    TakeOrder(b, topic, who);
  }

  lemma TakeFacts(b: BrokerState, topic: Topic, who: nat)
    requires Fates(b) && Queue(b, topic) != [] && Recorded(b.history, topic, Queue(b, topic)[0])
    ensures var (c, taken) := Take(b, topic, who);
            && taken == Some(Queue(b, topic)[0])
            && var Held(n, body, redelivered) := taken.value;
            && Fates(c)
            && OnlyPlaceDiffers(b, c, n) && OnlyQueueDiffers(b, c, topic)
            && Queue(c, topic) == Queue(b, topic)[1..]
            && n in c.history.places && c.history.places[n] == With(who)
            && n in c.history.stamps && c.history.stamps[n] == Stamp(topic, body)
            && c.history.firsts ==
               if redelivered then b.history.firsts else b.history.firsts[topic := Firsts(b, topic) + [n]]
  {
    FatesKept(b, Take(b, topic, who).0);
  }

  lemma TakeBooks(b: BrokerState, topic: Topic, who: nat)
    requires Books(b, {}) && Queue(b, topic) != []
    ensures Books(Take(b, topic, who).0, {})
  {
    var n, b1 := Queue(b, topic)[0].sequence, DropFront(b, topic);
    DropFrontBooks(b, {}, topic);
    hide QueueBooks, Numbers, Books;
    assert {} + {n} == {n} && {n} - {n} == {};
    MoveBooks(b1, {n}, n, With(who));
    LoggingKeepsBooks(Move(b1, n, With(who)), Take(b, topic, who).0);
  }

  lemma LoggingKeepsBooks(b: BrokerState, c: BrokerState)
    requires Books(b, {}) && c == b.(history := b.history.(firsts := c.history.firsts))
    ensures Books(c, {})
  {
    hide Numbers;
    BooksElsewhere(b, c, {});
    assert forall topic :: Queue(b, topic) == Queue(c, topic);
  }

  lemma TakeOrder(b: BrokerState, topic: Topic, who: nat)
    requires Books(b, {}) && Order(b) && Queue(b, topic) != []
    ensures Order(Take(b, topic, who).0)
    ensures Queue(b, topic)[0].sequence in Firsts(Take(b, topic, who).0, topic)
    ensures !Queue(b, topic)[0].redelivered ==> Above(Queue(b, topic)[0].sequence, Firsts(b, topic))
  {
    var q, firsts, c := Queue(b, topic), Firsts(b, topic), Take(b, topic, who).0;
    var n := q[0].sequence;
    assert Recorded(b.history, topic, q[0]);
    assert Ascending(firsts) && Above(b.sequence + 1, firsts);
    if q[0].redelivered {
      SortedTail(q, firsts);
    } else {
      SortedTakeFresh(q, firsts);
      assert Above(b.sequence + 1, firsts + [n]);
      assert (firsts + [n])[|firsts|] == n;
    }
    hide Sorted, Ascending, Above;
    forall t | t in c.topics && t != topic ensures Sorted(c.topics[t].messages, Firsts(c, t)) {
      assert Firsts(c, t) == Firsts(b, t);
    }
  }

  // ---------------------------------------------------------------- what a transport gives back

  lemma ReleaseKeeps(b: BrokerState, n: nat)
    requires Sound(b, {}) && n in b.history.places && b.history.places[n].With?
    ensures Sound(Release(b, n), {n})
    ensures OnlyPlaceDiffers(b, Release(b, n), n)
  {
    hide Sorted, QueueBooks, Numbers, FateHonest, Ascending, Above;
    var c := Release(b, n);
    BooksElsewhere(b, c, {});
    OrderKept(b, c);
    FatesKept(b, c);
    assert forall topic :: Queue(b, topic) == Queue(c, topic);
  }

  /** A copy taken before goes back to the front of its topic, flagged as redelivered. */
  lemma RequeueKeeps(b: BrokerState, topic: Topic, held: Held)
    requires Sound(b, {held.sequence}) && topic in b.topics
    requires b.history.stamps[held.sequence] == Stamp(topic, held.body) && held.sequence in Firsts(b, topic)
    ensures var c, n := RequeueFront(b, topic, held), held.sequence;
            && Sound(c, {})
            && OnlyPlaceDiffers(b, c, n) && OnlyQueueDiffers(b, c, topic)
            && Queue(c, topic) == [held.(redelivered := true)] + Queue(b, topic)
            && n in c.history.places && c.history.places[n] == Waiting(topic)
            && c.history.firsts == b.history.firsts
  {
    hide Sorted, QueueBooks, Numbers, FateHonest, Ascending, Above;
    var flagged := held.(redelivered := true);
    PushBooks(b, {held.sequence}, topic, flagged);
    PushFrontOrder(b, topic, flagged);
    FatesKept(b, RequeueFront(b, topic, held));
    assert {held.sequence} - {held.sequence} == {};
  }

  lemma AckKeeps(b: BrokerState, n: nat, who: nat)
    requires Sound(b, {n})
    ensures var c := End(b, n, Acked(who));
            Sound(c, {}) && OnlyPlaceDiffers(b, c, n) && c.topics == b.topics && c.groups == b.groups
            && c.history.firsts == b.history.firsts
  {
    hide Sorted, QueueBooks, Numbers, Ascending, Above, Evolves;
    EndKeeps(b, {n}, n, Acked(who));
    assert {n} - {n} == {};
  }

  // ---------------------------------------------------------------- purge

  /** purge ends exactly the waiting copies of the topic. */
  lemma PurgeKeeps(b: BrokerState, topic: Topic)
    requires Sound(b, {})
    ensures var (c, removed) := Purge(b, topic);
            && Sound(c, {})
            && removed == |Queue(b, topic)| && Queue(c, topic) == []
            && OnlyQueueDiffers(b, c, topic)
            && c.sequence == b.sequence && c.history.stamps == b.history.stamps && c.history.firsts == b.history.firsts
            && (forall n | n in b.history.places :: n in c.history.places && c.history.places[n] ==
                  if b.history.places[n] == Waiting(topic) then Ended(Purged) else b.history.places[n])
            && (forall n | n in c.history.places :: n in b.history.places)
  {
    hide QueueBooks, Numbers, Sorted, Ascending, Above, FateHonest;
    if topic in b.topics {
      FiledWaits(b, topic);
      PurgePlaces(b, topic);
      PurgeBooks(b, topic);
      PurgeOrder(b, topic);
      PurgeFates(b, topic);
    } else {
      EmptyQueue();
      assert Filed(b, topic) == {};
    }
  }

  lemma FiledWaits(b: BrokerState, topic: Topic)
    requires Books(b, {}) && topic in b.topics
    ensures forall n | n in Filed(b, topic) :: n in b.history.places && b.history.places[n] == Waiting(topic)
  {
    var q := Queue(b, topic);
    forall n | n in Numbers(q) ensures n in b.history.places && b.history.places[n] == Waiting(topic) {
      var i :| 0 <= i < |q| && q[i].sequence == n;
      assert Recorded(b.history, topic, q[i]);
    }
  }

  lemma PurgePlaces(b: BrokerState, topic: Topic)
    requires topic in b.topics
    requires forall n | n in Filed(b, topic) :: n in b.history.places && b.history.places[n] == Waiting(topic)
    requires forall n | n in b.history.places && b.history.places[n].Waiting? :: n in Filed(b, b.history.places[n].topic)
    ensures var c := Purge(b, topic).0;
            && (forall n | n in b.history.places :: n in c.history.places && c.history.places[n] ==
                  if b.history.places[n] == Waiting(topic) then Ended(Purged) else b.history.places[n])
            && (forall n | n in c.history.places :: n in b.history.places)
  {
    hide Numbers;
  }

  lemma PurgeBooks(b: BrokerState, topic: Topic)
    requires Books(b, {}) && topic in b.topics
    requires forall n | n in Filed(b, topic) :: n in b.history.places && b.history.places[n] == Waiting(topic)
    ensures Books(Purge(b, topic).0, {})
  {
    hide QueueBooks, Numbers;
    EmptyQueue();
    BooksElsewhere(b, Purge(b, topic).0, {topic});
  }

  lemma PurgeOrder(b: BrokerState, topic: Topic)
    requires Order(b) && topic in b.topics
    ensures Order(Purge(b, topic).0)
  {
    hide Sorted, Ascending, Above;
    EmptyQueue();
    OrderElsewhere(b, Purge(b, topic).0, topic);
  }

  lemma PurgeFates(b: BrokerState, topic: Topic)
    requires Books(b, {}) && Fates(b) && topic in b.topics
    requires forall n | n in Filed(b, topic) :: n in b.history.places && b.history.places[n] == Waiting(topic)
    ensures Fates(Purge(b, topic).0)
  {
    hide QueueBooks, Numbers;
    var c := Purge(b, topic).0;
    forall n | n in c.history.places && c.history.places[n].Ended? ensures FateHonest(c, n, c.history.places[n].fate) {
      assert n !in Filed(b, topic) ==> FateHonest(b, n, b.history.places[n].fate);
    }
    forall n: nat, copy: nat | ReplacedBy(c.history, n, copy) ensures ReplacedBy(b.history, n, copy) {}
  }

  // ---------------------------------------------------------------- ensureTopic

  lemma EnsureTopicKeeps(b: BrokerState, topic: Topic, options: TopicOptions)
    requires Sound(b, {})
    ensures var (c, result) := EnsureTopic(b, topic, options);
            && Sound(c, {}) && Evolves(b, c) && c.history == b.history && c.sequence == b.sequence
            && (result == Declared ==> topic in c.topics && SameProperties(c.topics[topic].options, options))
            && (forall t | t in b.topics :: t in c.topics && c.topics[t] == b.topics[t])
  {
    hide Sound, Evolves;
    AddingKeeps(b, EnsureTopic(b, topic, options).0);
  }
}
