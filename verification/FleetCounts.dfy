/** What the transports count against what happened to the copies. */
module FleetCounts {
  import opened Seam
  import opened BrokerModel
  import opened BrokerLaws
  import opened PublishLaws
  import opened StepLaws
  import opened TransportModel
  import opened Fleet
  import opened FleetLaws

  /** The copies transport `id` acknowledged. */
  ghost function AckedBy(b: BrokerState, id: nat): set<nat> {
    set n | n in b.history.places && b.history.places[n] == Ended(Acked(id))
  }

  /** Every delivery received was acknowledged, rejected, requeued, handed back, failed, or is still held. */
  predicate Tally(t: Transport) {
    t.stats.received == t.stats.acksPerformed + t.stats.rejectsPerformed + t.stats.requeuesPerformed
                        + |t.outstanding| + t.returned + t.failed
  }

  ghost predicate CountsOk(w: World) {
    forall id | 0 <= id < |w.transports| ::
      |AckedBy(w.broker, id)| == w.transports[id].stats.acksPerformed && Tally(w.transports[id])
  }

  lemma AckedSame(b: BrokerState, c: BrokerState, moved: set<nat>, id: nat)
    requires Changes(b, c, moved)
    requires forall n | n in moved :: n !in AckedBy(b, id) && n !in AckedBy(c, id)
    ensures AckedBy(c, id) == AckedBy(b, id)
  {
    forall n | n in AckedBy(b, id) ensures n in AckedBy(c, id) {
      assert Settled(b.history, n);
    }
    forall n | n in AckedBy(c, id) ensures n in AckedBy(b, id) {
      assert ByTransport(c.history, n);
    }
  }

  /** The broker changed without an acknowledgement, and transport `id` counted none. */
  lemma CountsWithoutAck(w: World, v: World, moved: set<nat>, id: nat)
    requires CountsOk(w) && id < |w.transports| && Changes(w.broker, v.broker, moved)
    requires forall n, j: nat | n in moved :: n !in AckedBy(w.broker, j) && n !in AckedBy(v.broker, j)
    requires |v.transports| == |w.transports| && v.transports == w.transports[id := v.transports[id]]
    requires Tally(w.transports[id]) ==> Tally(v.transports[id])
    requires v.transports[id].stats.acksPerformed == w.transports[id].stats.acksPerformed
    ensures CountsOk(v)
  {
    hide Changes;
    forall j | 0 <= j < |v.transports|
      ensures |AckedBy(v.broker, j)| == v.transports[j].stats.acksPerformed && Tally(v.transports[j])
    {
      AckedSame(w.broker, v.broker, moved, j);
    }
  }

  lemma AckAdds(b: BrokerState, tag: nat, id: nat, j: nat)
    requires tag in b.history.places && b.history.places[tag].With?
    ensures AckedBy(End(Release(b, tag), tag, Acked(id)), j) == if j == id then AckedBy(b, j) + {tag} else AckedBy(b, j)
    ensures tag !in AckedBy(b, j)
  {
  }

  lemma CountsWithAck(w: World, id: nat, tag: nat)
    requires CountsOk(w) && HoldersOk(w) && id < |w.transports| && tag in w.transports[id].outstanding
    requires Drop(w.transports[id].outstanding, tag) == map[] && |w.transports[id].outstanding| == 1
    ensures var (b, t, _) := Resolve(w.broker, w.transports[id], id, tag, Ack); CountsOk(Put(w, id, b, t))
  {
    var t0 := w.transports[id];
    var (b, t, _) := Resolve(w.broker, t0, id, tag, Ack);
    assert TransportOk(w.broker, t0, id) && HeldOk(w.broker, t0, id, tag);
    hide HoldersOk, TransportOk, AckedBy;
    forall j | 0 <= j < |w.transports|
      ensures |AckedBy(b, j)| == Put(w, id, b, t).transports[j].stats.acksPerformed
    {
      AckAdds(w.broker, tag, id, j);
    }
  }

  lemma HeldNotAcked(b: BrokerState, t: Transport, id: nat, tag: nat)
    requires tag in t.outstanding && HeldOk(b, t, id, tag)
    ensures forall j: nat :: tag !in AckedBy(b, j)
  {
  }

  lemma RejectNotAcked(b: BrokerState, t: Transport, id: nat, tag: nat)
    requires Sound(b, {}) && TransportOk(b, t, id) && tag in t.outstanding
    ensures forall j: nat :: tag !in AckedBy(Resolve(b, t, id, tag, Reject).0, j)
  {
    hide Sound, DeadLetter;
    assert HeldOk(b, t, id, tag);
    var c := DeadLetter(Release(b, tag), t.topic, t.outstanding[tag]).0;
    ReleaseKeeps(b, tag);
    DeadLetterKeeps(Release(b, tag), {tag}, t.topic, t.outstanding[tag]);
    assert !ByTransport(c.history, tag);
  }

  lemma OneOutstanding(t: Transport, tag: nat)
    requires tag in t.outstanding && forall x, y | x in t.outstanding && y in t.outstanding :: x == y
    ensures t.outstanding == map[tag := t.outstanding[tag]] && |t.outstanding| == 1
    ensures Drop(t.outstanding, tag) == map[]
  {
    assert t.outstanding == map[tag := t.outstanding[tag]];
  }

  lemma ResolvingCounts(w: World, id: nat, tag: nat, disposition: Disposition)
    requires WorldOk(w) && CountsOk(w) && id < |w.transports|
    requires tag in w.transports[id].outstanding && disposition != Deferred
    ensures var (b, t, _) := Resolve(w.broker, w.transports[id], id, tag, disposition); CountsOk(Put(w, id, b, t))
  {
    hide Sound, DeclarationsOk, LossesOk, CountsOk, Changes, AckedBy, DeadLetter, RequeueFront, Release;
    var t0 := w.transports[id];
    var (b, t, _) := Resolve(w.broker, t0, id, tag, disposition);
    assert TransportOk(w.broker, t0, id);
    OneOutstanding(t0, tag);
    if disposition == Ack {
      CountsWithAck(w, id, tag);
    } else {
      ResolveKeeps(w.broker, t0, id, tag, disposition);
      HeldNotAcked(w.broker, t0, id, tag);
      if disposition == Reject {
        RejectNotAcked(w.broker, t0, id, tag);
      } else {
        WaitingNotAcked(b, tag);
      }
      CountsWithoutAck(w, Put(w, id, b, t), {tag}, id);
    }
  }

  lemma WaitingNotAcked(b: BrokerState, n: nat)
    requires n in b.history.places && !b.history.places[n].Ended?
    ensures forall j: nat :: n !in AckedBy(b, j)
  {
  }

  lemma DeliveringCounts(w: World, id: nat)
    requires WorldOk(w) && CountsOk(w) && id < |w.transports|
    ensures CountsOk(Apply(w, Delivering(id)))
  {
    hide Sound, DeclarationsOk, LossesOk, CountsOk, Changes, AckedBy, Take, HoldersOk;
    var t, v := w.transports[id], Apply(w, Delivering(id));
    if Idle(t) && Queue(w.broker, t.topic) != [] {
      var n := Queue(w.broker, t.topic)[0].sequence;
      DeliverKeeps(w.broker, t, id);
      TakeKeeps(w.broker, t.topic, id);
      WaitingNotAcked(w.broker, n);
      WaitingNotAcked(v.broker, n);
      assert v.transports[id].outstanding == map[n := Queue(w.broker, t.topic)[0]];
      CountsWithoutAck(w, v, {n}, id);
    } else {
      NothingToTake(w.broker, t, id);
      NoChange(w.broker);
      CountsWithoutAck(w, v, {}, id);
    }
  }

  lemma ReturningCounts(w: World, id: nat)
    requires WorldOk(w) && CountsOk(w) && id < |w.transports| && w.transports[id].outstanding != map[]
    ensures CountsOk(Apply(w, Returning(id)))
  {
    hide Sound, DeclarationsOk, LossesOk, CountsOk, Changes, AckedBy, RequeueFront, Release;
    var t, v := w.transports[id], Apply(w, Returning(id));
    var tag := Greatest(t.outstanding.Keys);
    assert TransportOk(w.broker, t, id) && HeldOk(w.broker, t, id, tag);
    OneOutstanding(t, tag);
    GiveBackKeeps(w.broker, t, id, tag);
    HeldNotAcked(w.broker, t, id, tag);
    WaitingNotAcked(v.broker, tag);
    CountsWithoutAck(w, v, {tag}, id);
  }

  /** Actions that resolve nothing. */
  lemma OtherCounts(w: World, a: Action)
    requires WorldOk(w) && CountsOk(w) && a.id < |w.transports|
    requires !a.Delivering? && !a.Finishing? && !a.Settling? && !a.Returning?
    ensures CountsOk(Apply(w, a))
  {
    hide Sound, HoldersOk, DeclarationsOk, LossesOk, CountsOk, Changes, AckedBy, Evolves, Publish, EnsureTopic, Purge;
    var b, v, id := w.broker, Apply(w, a), a.id;
    NoChange(b);
    match a
    case Provisioning(_, topic) =>
      EnsureTopicKeeps(b, DeadLetterTopic(topic), ForensicTopicOptions(topic));
      EvolvingChanges(b, EnsureTopic(b, DeadLetterTopic(topic), ForensicTopicOptions(topic)).0);
      CountsWithoutAck(w, v, {}, id);
    case Declaring(_, topic, options) =>
      EnsureTopicKeeps(b, topic, options);
      EvolvingChanges(b, EnsureTopic(b, topic, options).0);
      CountsWithoutAck(w, v, {}, id);
    case Sending(_, topic, payload, _, route) =>
      PublishKeeps(b, topic, payload, route);
      EvolvingChanges(b, Publish(b, topic, payload, route).0);
      CountsWithoutAck(w, v, {}, id);
    case Purging(_, topic) =>
      PurgeChanges(b, topic);
      CountsWithoutAck(w, v, {}, id);
    case _ =>
      CountsWithoutAck(w, v, {}, id);
  }

  lemma ApplyCounts(w: World, a: Action)
    requires WorldOk(w) && CountsOk(w)
    ensures CountsOk(Apply(w, a))
  {
    hide WorldOk, AckedBy, Resolve, ReturnLatest;
    if a.id < |w.transports| {
      var t := w.transports[a.id];
      if a.Delivering? {
        DeliveringCounts(w, a.id);
      } else if a.Finishing? {
        if a.tag in t.outstanding && a.result.Returned? && a.result.disposition != Deferred {
          ResolvingCounts(w, a.id, a.tag, a.result.disposition);
        }
      } else if a.Settling? {
        if t.connected && a.tag in t.outstanding && a.disposition != Deferred {
          ResolvingCounts(w, a.id, a.tag, a.disposition);
        }
      } else if a.Returning? {
        if t.outstanding != map[] {
          ReturningCounts(w, a.id);
        }
      } else {
        OtherCounts(w, a);
      }
    }
  }

  lemma {:induction false} RunCounts(w: World, actions: seq<Action>)
    requires WorldOk(w) && CountsOk(w)
    ensures CountsOk(Run(w, actions))
    decreases |actions|
  {
    hide WorldOk, CountsOk, Apply;
    if actions != [] {
      ApplyKeeps(w, actions[0]);
      ApplyCounts(w, actions[0]);
      RunCounts(Apply(w, actions[0]), actions[1..]);
    }
  }

  lemma ReachableCounts(count: nat, actions: seq<Action>)
    ensures CountsOk(Run(Start(count), actions))
  {
    StartOk(count);
    assert CountsOk(Start(count)) by {
      forall j | 0 <= j < count ensures AckedBy(EMPTY_BROKER, j) == {} {}
    }
    hide WorldOk;
    RunCounts(Start(count), actions);
  }

  /**
   * Acknowledgements are exactly-once: what a transport counted as acked is the number of distinct
   * copies that ended acknowledged by it, no copy counts for two transports, and every delivery it
   * received is accounted for.
   */
  lemma AcksAreDistinctCopies(count: nat, actions: seq<Action>, id: nat, other: nat)
    requires id < count
    ensures var w := Run(Start(count), actions);
            && |w.transports| == count
            && w.transports[id].stats.acksPerformed == |AckedBy(w.broker, id)|
            && (other != id ==> AckedBy(w.broker, id) !! AckedBy(w.broker, other))
            && Tally(w.transports[id])
  {
    ReachableCounts(count, actions);
    StartOk(count);
    RunKeeps(Start(count), actions);
  }
}
