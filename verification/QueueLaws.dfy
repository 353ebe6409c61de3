/** The invariants of one queue, and what adding or removing one message does to them. */
module QueueLaws {
  import opened Seam
  import opened BrokerModel

  // ---------------------------------------------------------------- agreement with the history

  predicate Recorded(h: History, topic: Topic, held: Held) {
    && held.sequence in h.places && h.places[held.sequence] == Waiting(topic)
    && held.sequence in h.stamps && h.stamps[held.sequence] == Stamp(topic, held.body)
  }

  predicate Distinct(q: seq<Held>) {
    forall i, j | 0 <= i < j < |q| :: q[i].sequence != q[j].sequence
  }

  /** The history has every message of the queue waiting here, with these bytes, and none twice. */
  ghost predicate QueueBooks(h: History, topic: Topic, q: seq<Held>) {
    && (forall i | 0 <= i < |q| :: Recorded(h, topic, q[i]))
    && Distinct(q)
  }

  function PlaceAt(h: History, n: nat, place: Place): History {
    h.(places := h.places[n := place])
  }

  function Unplace(h: History, n: nat): History {
    h.(places := h.places - {n})
  }

  lemma BooksFrame(h: History, h': History, topic: Topic, q: seq<Held>)
    requires QueueBooks(h, topic, q)
    requires forall n | n in h.places && h.places[n] == Waiting(topic) :: n in h'.places && h'.places[n] == Waiting(topic)
    requires forall n | n in h.stamps :: n in h'.stamps && h'.stamps[n] == h.stamps[n]
    ensures QueueBooks(h', topic, q)
  {
    forall i | 0 <= i < |q| ensures Recorded(h', topic, q[i]) {
      assert Recorded(h, topic, q[i]);
    }
  }

  lemma BooksAppend(h: History, topic: Topic, q: seq<Held>, held: Held)
    requires QueueBooks(h, topic, q) && held.sequence !in h.places
    requires held.sequence in h.stamps && h.stamps[held.sequence] == Stamp(topic, held.body)
    ensures QueueBooks(PlaceAt(h, held.sequence, Waiting(topic)), topic, q + [held])
  {
    var h', q' := PlaceAt(h, held.sequence, Waiting(topic)), q + [held];
    forall i | 0 <= i < |q'| ensures Recorded(h', topic, q'[i]) && (i < |q| ==> q'[i].sequence != held.sequence) {
      assert i < |q| ==> Recorded(h, topic, q[i]);
    }
  }

  lemma BooksPrepend(h: History, topic: Topic, q: seq<Held>, held: Held)
    requires QueueBooks(h, topic, q) && held.sequence !in h.places
    requires held.sequence in h.stamps && h.stamps[held.sequence] == Stamp(topic, held.body)
    ensures QueueBooks(PlaceAt(h, held.sequence, Waiting(topic)), topic, [held] + q)
  {
    var h', q' := PlaceAt(h, held.sequence, Waiting(topic)), [held] + q;
    forall i | 0 <= i < |q'| ensures Recorded(h', topic, q'[i]) && (i > 0 ==> q'[i].sequence != held.sequence) {
      assert i > 0 ==> q'[i] == q[i - 1] && Recorded(h, topic, q[i - 1]);
    }
    forall i, j | 0 <= i < j < |q'| ensures q'[i].sequence != q'[j].sequence {
      assert i > 0 ==> q'[i] == q[i - 1] && q'[j] == q[j - 1];
    }
  }

  lemma BooksTail(h: History, topic: Topic, q: seq<Held>)
    requires QueueBooks(h, topic, q) && q != []
    ensures Recorded(h, topic, q[0])
    ensures QueueBooks(Unplace(h, q[0].sequence), topic, q[1..])
  {
    var h', q' := Unplace(h, q[0].sequence), q[1..];
    forall i | 0 <= i < |q'| ensures Recorded(h', topic, q'[i]) {
      assert q'[i] == q[i + 1] && Recorded(h, topic, q[i + 1]);
    }
  }

  // ---------------------------------------------------------------- the numbers in a queue

  lemma NumbersAppend(q: seq<Held>, held: Held)
    ensures Numbers(q + [held]) == Numbers(q) + {held.sequence}
  {
    var q' := q + [held];
    assert q'[|q|] == held;
    forall i | 0 <= i < |q| ensures q[i].sequence in Numbers(q') {
      assert q'[i].sequence == q[i].sequence;
    }
  }

  lemma NumbersPrepend(q: seq<Held>, held: Held)
    ensures Numbers([held] + q) == Numbers(q) + {held.sequence}
  {
    var q' := [held] + q;
    assert q'[0] == held;
    forall i | 0 <= i < |q| ensures q[i].sequence in Numbers(q') {
      assert q'[i + 1].sequence == q[i].sequence;
    }
  }

  lemma NumbersTail(q: seq<Held>)
    requires q != [] && Distinct(q)
    ensures Numbers(q[1..]) == Numbers(q) - {q[0].sequence}
    ensures q[0].sequence in Numbers(q)
  {
    var q' := q[1..];
    forall n | n in Numbers(q) && n != q[0].sequence ensures n in Numbers(q') {
      var i :| 0 <= i < |q| && q[i].sequence == n;
      assert q'[i - 1].sequence == n;
    }
    forall i | 0 <= i < |q'| ensures q'[i].sequence in Numbers(q) && q'[i].sequence != q[0].sequence {
      assert q'[i] == q[i + 1];
    }
  }

  // ---------------------------------------------------------------- order

  predicate Ascending(numbers: seq<nat>) {
    forall i, j | 0 <= i < j < |numbers| :: numbers[i] < numbers[j]
  }

  predicate Above(n: nat, numbers: seq<nat>) {
    forall m | m in numbers :: m < n
  }

  /**
   * A block of redelivered messages, all taken before, then fresh ones in publication order, all
   * later than every first delivery so far.
   */
  predicate Sorted(q: seq<Held>, firsts: seq<nat>) {
    && (forall i | 0 <= i < |q| :: if q[i].redelivered then q[i].sequence in firsts else Above(q[i].sequence, firsts))
    && (forall i, j | 0 <= i < j < |q| && !q[i].redelivered :: !q[j].redelivered && q[i].sequence < q[j].sequence)
  }

  /** A number later than everything waiting and everything delivered. */
  predicate Newest(n: nat, q: seq<Held>, firsts: seq<nat>) {
    Above(n, firsts) && forall i | 0 <= i < |q| :: q[i].sequence < n
  }

  lemma SortedAppend(q: seq<Held>, firsts: seq<nat>, held: Held)
    requires Sorted(q, firsts) && !held.redelivered && Newest(held.sequence, q, firsts)
    ensures Sorted(q + [held], firsts)
  {
  }

  lemma SortedPrepend(q: seq<Held>, firsts: seq<nat>, held: Held)
    requires Sorted(q, firsts) && held.redelivered && held.sequence in firsts
    ensures Sorted([held] + q, firsts)
  {
    var q' := [held] + q;
    forall i, j | 0 <= i < j < |q'| && !q'[i].redelivered ensures !q'[j].redelivered && q'[i].sequence < q'[j].sequence {
      assert q'[i] == q[i - 1] && q'[j] == q[j - 1];
    }
    forall i | 0 < i < |q'| ensures q'[i] == q[i - 1] {}
  }

  lemma SortedTail(q: seq<Held>, firsts: seq<nat>)
    requires Sorted(q, firsts) && q != []
    ensures Sorted(q[1..], firsts)
  {
    forall i | 0 <= i < |q| - 1 ensures q[1..][i] == q[i + 1] {}
  }

  /** Delivering a fresh front message: the log of first deliveries stays ascending. */
  lemma SortedTakeFresh(q: seq<Held>, firsts: seq<nat>)
    requires Sorted(q, firsts) && Ascending(firsts) && q != [] && !q[0].redelivered
    ensures Sorted(q[1..], firsts + [q[0].sequence]) && Ascending(firsts + [q[0].sequence])
  {
    var q', firsts' := q[1..], firsts + [q[0].sequence];
    forall i | 0 <= i < |q'| ensures q'[i] == q[i + 1] && !q'[i].redelivered && Above(q'[i].sequence, firsts') {
      assert q[0].sequence < q[i + 1].sequence;
    }
    assert forall i | 0 <= i < |firsts| :: firsts[i] in firsts;
  }

  // ---------------------------------------------------------------- redelivered messages

  /** How many messages of the queue have been delivered before. */
  function Retries(q: seq<Held>): nat {
    if q == [] then 0 else (if q[0].redelivered then 1 else 0) + Retries(q[1..])
  }

  lemma {:induction false} RetriesAppend(q: seq<Held>, held: Held)
    ensures Retries(q + [held]) == Retries(q) + if held.redelivered then 1 else 0
    decreases |q|
  {
    if q == [] {
      assert q + [held] == [held];
    } else {
      RetriesAppend(q[1..], held);
      assert (q + [held])[1..] == q[1..] + [held];
    }
  }

  lemma RetriesPrepend(q: seq<Held>, held: Held)
    ensures Retries([held] + q) == Retries(q) + if held.redelivered then 1 else 0
  {
    assert ([held] + q)[1..] == q;
  }

  /** A queue in order with a fresh front holds no redelivered message. */
  lemma {:induction false} FreshFront(q: seq<Held>, firsts: seq<nat>)
    requires Sorted(q, firsts) && (q != [] ==> !q[0].redelivered)
    ensures Retries(q) == 0
    decreases |q|
  {
    if q != [] {
      SortedTail(q, firsts);
      if |q| > 1 {
        assert !q[0].redelivered && !q[1].redelivered;
      }
      FreshFront(q[1..], firsts);
    }
  }
}
