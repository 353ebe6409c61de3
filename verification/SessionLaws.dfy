/** The life of deliveries in one transport's hands, and its methods as schedules of the interleaving model. */
module SessionLaws {
  import opened Wrappers
  import opened Seam
  import opened BrokerModel
  import opened QueueLaws
  import opened BrokerLaws
  import opened TransportModel
  import opened Fleet
  import opened FleetLaws

  // ---------------------------------------------------------------- close hands back in order

  /** The outstanding deliveries by ascending tag, flagged as they come back. */
  ghost function InOrder(m: map<nat, Held>): seq<Held>
    decreases m.Keys
  {
    if m == map[] then []
    else
      var tag := Greatest(m.Keys);
      assert Drop(m, tag).Keys == m.Keys - {tag};
      InOrder(Drop(m, tag)) + [m[tag].(redelivered := true)]
  }

  predicate TagsMatch(m: map<nat, Held>) {
    forall tag | tag in m :: m[tag].sequence == tag
  }

  predicate AscendingTags(q: seq<Held>) {
    forall i, j | 0 <= i < j < |q| :: q[i].sequence < q[j].sequence
  }

  predicate FlaggedFrom(q: seq<Held>, m: map<nat, Held>) {
    forall i | 0 <= i < |q| :: q[i].sequence in m && q[i] == m[q[i].sequence].(redelivered := true)
  }

  /** InOrder lists every outstanding delivery once, strictly ascending, flagged and otherwise unchanged. */
  lemma {:induction false} InOrderIsAscending(m: map<nat, Held>)
    requires TagsMatch(m)
    ensures AscendingTags(InOrder(m)) && FlaggedFrom(InOrder(m), m) && Numbers(InOrder(m)) == m.Keys
    decreases m.Keys
  {
    if m != map[] {
      var tag := Greatest(m.Keys);
      var rest, q := Drop(m, tag), InOrder(Drop(m, tag));
      assert rest.Keys == m.Keys - {tag};
      InOrderIsAscending(rest);
      hide Numbers, AscendingTags, FlaggedFrom;
      NumbersAppend(q, m[tag].(redelivered := true));
      LatestComesLast(q, m, tag);
    }
  }

  lemma LatestComesLast(q: seq<Held>, m: map<nat, Held>, tag: nat)
    requires IsGreatest(tag, m.Keys) && m[tag].sequence == tag
    requires AscendingTags(q) && FlaggedFrom(q, Drop(m, tag))
    ensures AscendingTags(q + [m[tag].(redelivered := true)]) && FlaggedFrom(q + [m[tag].(redelivered := true)], m)
  {
    forall i | 0 <= i < |q| ensures q[i].sequence < tag && q[i] == m[q[i].sequence].(redelivered := true) {
      assert q[i].sequence in Drop(m, tag);
    }
  }

  lemma LatestGoesFirst(b: BrokerState, t: Transport)
    requires t.topic in b.topics && t.outstanding != map[]
    ensures var (c, t') := ReturnLatest(b, t);
            var tag := Greatest(t.outstanding.Keys);
            && Queue(c, t.topic) == [t.outstanding[tag].(redelivered := true)] + Queue(b, t.topic)
            && c.topics.Keys == b.topics.Keys
            && (forall name | name in b.topics && name != t.topic :: c.topics[name] == b.topics[name])
            && c.sequence == b.sequence && c.groups == b.groups
            && t' == t.(outstanding := Drop(t.outstanding, tag), returned := t.returned + 1)
            && |t.outstanding| == |t'.outstanding| + 1
  {
    var tag := Greatest(t.outstanding.Keys);
    assert Drop(t.outstanding, tag).Keys == t.outstanding.Keys - {tag};
    assert |Drop(t.outstanding, tag).Keys| == |t.outstanding.Keys| - 1;
  }

  /**
   * Whatever is outstanding when a transport closes goes back in front of its queue in ascending
   * order; everything else at the broker is untouched.
   */
  lemma {:induction false} ReturnedInOrder(b: BrokerState, t: Transport)
    requires t.topic in b.topics
    ensures var (c, t') := ReturnAll(b, t);
            && Queue(c, t.topic) == InOrder(t.outstanding) + Queue(b, t.topic)
            && c.topics.Keys == b.topics.Keys
            && (forall name | name in b.topics && name != t.topic :: c.topics[name] == b.topics[name])
            && c.sequence == b.sequence && c.groups == b.groups
            && t'.outstanding == map[] && t'.returned == t.returned + |t.outstanding|
            && t'.stats == t.stats
    decreases t.outstanding.Keys
  {
    if t.outstanding != map[] {
      var tag := Greatest(t.outstanding.Keys);
      assert Drop(t.outstanding, tag).Keys == t.outstanding.Keys - {tag};
      var (b1, t1) := ReturnLatest(b, t);
      var flagged := t.outstanding[tag].(redelivered := true);
      assert ReturnAll(b, t) == ReturnAll(b1, t1);
      assert InOrder(t.outstanding) == InOrder(Drop(t.outstanding, tag)) + [flagged];
      hide *;
      LatestGoesFirst(b, t);
      ReturnedInOrder(b1, t1);
      assert InOrder(t1.outstanding) + ([flagged] + Queue(b, t.topic)) == InOrder(t1.outstanding) + [flagged] + Queue(b, t.topic);
    }
  }

  // ---------------------------------------------------------------- deferral

  /** In every reachable state a transport has at most one unresolved delivery, and then takes no other. */
  lemma OneUnresolvedDelivery(count: nat, actions: seq<Action>, id: nat)
    requires id < |Run(Start(count), actions).transports|
    ensures var w := Run(Start(count), actions);
            var t := w.transports[id];
            && |t.outstanding| <= 1
            && (t.outstanding != map[] ==> Deliver(w.broker, t, id) == (w.broker, t, None))
  {
    var w := Run(Start(count), actions);
    Reachable(count, actions);
    assert TransportOk(w.broker, w.transports[id], id);
    hide WorldOk, Run;
    AtMostOneEntry(w.transports[id].outstanding);
  }

  lemma AtMostOneEntry(m: map<nat, Held>)
    requires forall x, y | x in m && y in m :: x == y
    ensures |m| <= 1
  {
    if m != map[] {
      var x :| x in m;
      assert m.Keys == {x};
      assert |m.Keys| == 1;
    }
  }

  /** A requeued copy can only come back flagged; so a tag that was settled returns, if ever, as a redelivery. */
  lemma RequeueFlags(b: BrokerState, t: Transport, who: nat, tag: nat)
    requires t.connected && tag in t.outstanding && t.outstanding[tag].sequence == tag
    ensures var b1 := Settle(b, t, who, tag, Requeue).0;
            Queue(b1, t.topic) != [] && Queue(b1, t.topic)[0] == t.outstanding[tag].(redelivered := true)
  {
  }

  // ---------------------------------------------------------------- purge

  /** purge ends exactly what waits at the topic and reports how many; other topics and deliveries in hand stay. */
  lemma PurgeTakesWhatWaits(b: BrokerState, topic: Topic, n: nat)
    requires Books(b, {}) && n in b.history.places
    ensures var (c, removed) := Purge(b, topic);
            && removed == |Queue(b, topic)| && Queue(c, topic) == []
            && (forall name | name in b.topics && name != topic :: name in c.topics && c.topics[name] == b.topics[name])
            && n in c.history.places
            && c.history.places[n] == if b.history.places[n] == Waiting(topic) then Ended(Purged) else b.history.places[n]
  {
    hide QueueBooks;
    if topic in b.topics && n in Filed(b, topic) {
      var i: nat :| i < |Queue(b, topic)| && Queue(b, topic)[i].sequence == n;
      FiledIsWaiting(b, topic, i);
    }
  }

  lemma FiledIsWaiting(b: BrokerState, topic: Topic, i: nat)
    requires Books(b, {}) && i < |Queue(b, topic)|
    ensures var n := Queue(b, topic)[i].sequence; n in b.history.places && b.history.places[n] == Waiting(topic)
  {
    assert Recorded(b.history, topic, Queue(b, topic)[i]);
  }

  // ---------------------------------------------------------------- methods as schedules

  lemma OneStep(w: World, a: Action, v: World)
    requires v == Apply(w, a)
    ensures Run(w, [a]) == v
  {
    assert [a][1..] == [];
  }

  lemma TwoSteps(w: World, a: Action, v: World, a': Action, u: World)
    requires v == Apply(w, a) && u == Apply(v, a')
    ensures Run(w, [a, a']) == u
  {
    assert [a, a'][1..] == [a'];
    OneStep(v, a', u);
  }

  /** The actions one call of pump stands for. */
  function PumpActions(w: World, id: nat, attempts: nat, handler: Delivery -> HandlerResult): seq<Action>
    requires id < |w.transports|
  {
    var t := w.transports[id];
    if !t.connected || attempts == 0 then []
    else
      match Deliver(w.broker, t, id).2
      case None => [Delivering(id)]
      case Some(delivery) => [Delivering(id), Finishing(id, delivery.tag, handler(delivery))]
  }

  /** pump is one turn of the delivering action, then the matching handler's return. */
  lemma PumpIsASchedule(w: World, id: nat, attempts: nat, handler: Delivery -> HandlerResult)
    requires id < |w.transports|
    ensures var (b, t, _) := Pump(w.broker, w.transports[id], id, attempts, handler);
            Put(w, id, b, t) == Run(w, PumpActions(w, id, attempts, handler))
  {
    var t0 := w.transports[id];
    if !t0.connected || attempts == 0 {
      assert w.transports[id := t0] == w.transports;
    } else {
      var (b1, t1, taken) := Deliver(w.broker, t0, id);
      var v := Put(w, id, b1, t1);
      if taken.None? {
        OneStep(w, Delivering(id), v);
      } else {
        PumpDelivers(w, id, attempts, handler);
      }
    }
  }

  lemma DeliveringIs(w: World, id: nat)
    requires id < |w.transports|
    ensures var (b, t, _) := Deliver(w.broker, w.transports[id], id); Apply(w, Delivering(id)) == Put(w, id, b, t)
  {
    hide Deliver;
  }

  lemma FinishingIs(w: World, id: nat, tag: nat, result: HandlerResult)
    requires id < |w.transports| && tag in w.transports[id].outstanding
    ensures var (b, t, _) := Finish(w.broker, w.transports[id], id, tag, result); Apply(w, Finishing(id, tag, result)) == Put(w, id, b, t)
  {
    hide Finish;
  }

  lemma PumpDelivers(w: World, id: nat, attempts: nat, handler: Delivery -> HandlerResult)
    requires id < |w.transports| && w.transports[id].connected && attempts > 0
    requires Deliver(w.broker, w.transports[id], id).2.Some?
    ensures var (b, t, _) := Pump(w.broker, w.transports[id], id, attempts, handler);
            Put(w, id, b, t) == Run(w, PumpActions(w, id, attempts, handler))
  {
    var (b1, t1, taken) := Deliver(w.broker, w.transports[id], id);
    var v, tag, result := Put(w, id, b1, t1), taken.value.tag, handler(taken.value);
    assert tag in t1.outstanding;
    hide Apply, Run, Deliver, Finish;
    var (b2, t2, _) := Finish(b1, t1, id, tag, result);
    DeliveringIs(w, id);
    FinishingIs(v, id, tag, result);
    assert Put(v, id, b2, t2) == Put(w, id, b2, t2);
    TwoSteps(w, Delivering(id), v, Finishing(id, tag, result), Put(w, id, b2, t2));
  }

  /**
   * pump as others see it: before each turn of its loop, and while the handler runs, other transports
   * act. `before` has one entry for every turn there is time for.
   */
  ghost function PumpAmong(w: World, id: nat, before: seq<seq<Action>>, during: seq<Action>, handler: Delivery -> HandlerResult): World
    decreases |before|
  {
    if before == [] then w
    else
      var v := Run(w, before[0]);
      if id >= |v.transports| then v
      else
        match Deliver(v.broker, v.transports[id], id).2
        case None => PumpAmong(v, id, before[1..], during, handler)
        case Some(delivery) => Run(Run(Apply(v, Delivering(id)), during), [Finishing(id, delivery.tag, handler(delivery))])
  }

  /** The interleaved schedule such a pump amounts to. */
  ghost function AmongActions(w: World, id: nat, before: seq<seq<Action>>, during: seq<Action>, handler: Delivery -> HandlerResult)
    : seq<Action>
    decreases |before|
  {
    if before == [] then []
    else
      var v := Run(w, before[0]);
      if id >= |v.transports| then before[0]
      else
        match Deliver(v.broker, v.transports[id], id).2
        case None => before[0] + AmongActions(v, id, before[1..], during, handler)
        case Some(delivery) => before[0] + ([Delivering(id)] + (during + [Finishing(id, delivery.tag, handler(delivery))]))
  }

  lemma {:induction false} RunConcat(w: World, first: seq<Action>, second: seq<Action>)
    ensures Run(w, first + second) == Run(Run(w, first), second)
    decreases |first|
  {
    hide Apply;
    if first == [] {
      assert first + second == second;
    } else {
      assert (first + second)[1..] == first[1..] + second;
      RunConcat(Apply(w, first[0]), first[1..], second);
    }
  }

  /** Even with others acting between its turns and during its handler, pump is a schedule. */
  lemma {:induction false} PumpAmongIsASchedule(w: World, id: nat, before: seq<seq<Action>>, during: seq<Action>,
                                                handler: Delivery -> HandlerResult)
    ensures PumpAmong(w, id, before, during, handler) == Run(w, AmongActions(w, id, before, during, handler))
    decreases |before|
  {
    hide Apply, Deliver;
    if before != [] {
      var v := Run(w, before[0]);
      if id < |v.transports| {
        var taken := Deliver(v.broker, v.transports[id], id).2;
        if taken.None? {
          RunConcat(w, before[0], AmongActions(v, id, before[1..], during, handler));
          PumpAmongIsASchedule(v, id, before[1..], during, handler);
        } else {
          var last := [Finishing(id, taken.value.tag, handler(taken.value))];
          RunConcat(w, before[0], [Delivering(id)] + (during + last));
          RunConcat(v, [Delivering(id)], during + last);
          OneStep(v, Delivering(id), Apply(v, Delivering(id)));
          RunConcat(Apply(v, Delivering(id)), during, last);
        }
      }
    }
  }

  /** Undisturbed, it is the pump of the transport class. */
  lemma {:induction false} PumpAmongNobody(w: World, id: nat, turns: nat, handler: Delivery -> HandlerResult)
    requires id < |w.transports| && w.transports[id].connected
    ensures var (b, t, _) := Pump(w.broker, w.transports[id], id, turns, handler);
            PumpAmong(w, id, seq(turns, i => []), [], handler) == Put(w, id, b, t)
    decreases turns
  {
    var before: seq<seq<Action>> := seq(turns, i => []);
    var t0 := w.transports[id];
    if turns == 0 {
      assert w.transports[id := t0] == w.transports;
    } else {
      assert before[0] == [] && Run(w, []) == w;
      var (b1, t1, taken) := Deliver(w.broker, t0, id);
      DeliveringIs(w, id);
      if taken.None? {
        assert before[1..] == seq(turns - 1, i => []);
        assert (b1, t1) == (w.broker, t0);
        hide Deliver;
        PumpAmongNobody(w, id, turns - 1, handler);
      } else {
        var v, tag, result := Put(w, id, b1, t1), taken.value.tag, handler(taken.value);
        assert tag in t1.outstanding;
        hide Deliver, Apply, Finish;
        var (b2, t2, _) := Finish(b1, t1, id, tag, result);
        FinishingIs(v, id, tag, result);
        assert Put(v, id, b2, t2) == Put(w, id, b2, t2);
        OneStep(v, Finishing(id, tag, result), Put(v, id, b2, t2));
      }
    }
  }

  function CloseActions(t: Transport, id: nat): seq<Action> {
    if t.outstanding == map[] then [Disconnecting(id)] else [Returning(id), Disconnecting(id)]
  }

  /** In a reachable state close is at most one return, then the disconnection. */
  lemma CloseIsASchedule(w: World, id: nat)
    requires WorldOk(w) && id < |w.transports|
    ensures var (b, t) := Close(w.broker, w.transports[id]);
            Put(w, id, b, t) == Run(w, CloseActions(w.transports[id], id))
  {
    assert TransportOk(w.broker, w.transports[id], id);
    hide WorldOk;
    CloseOfOne(w, id);
  }

  lemma CloseOfOne(w: World, id: nat)
    requires id < |w.transports|
    requires forall x, y | x in w.transports[id].outstanding && y in w.transports[id].outstanding :: x == y
    ensures var (b, t) := Close(w.broker, w.transports[id]);
            Put(w, id, b, t) == Run(w, CloseActions(w.transports[id], id))
  {
    hide Run, ReturnAll, ReturnLatest;
    var t0 := w.transports[id];
    if t0.outstanding == map[] {
      NothingReturned(w.broker, t0);
      OneStep(w, Disconnecting(id), Put(w, id, w.broker, Disconnect(t0)));
    } else {
      OneReturned(w.broker, t0);
      var (b1, t1) := ReturnLatest(w.broker, t0);
      assert Put(Put(w, id, b1, t1), id, b1, Disconnect(t1)) == Put(w, id, b1, Disconnect(t1));
      TwoSteps(w, Returning(id), Put(w, id, b1, t1), Disconnecting(id), Put(w, id, b1, Disconnect(t1)));
    }
  }

  lemma NothingReturned(b: BrokerState, t: Transport)
    requires t.outstanding == map[]
    ensures ReturnAll(b, t) == (b, t)
  {
  }

  lemma OneReturned(b: BrokerState, t: Transport)
    requires t.outstanding != map[] && forall x, y | x in t.outstanding && y in t.outstanding :: x == y
    ensures ReturnAll(b, t) == ReturnLatest(b, t) && ReturnLatest(b, t).1.outstanding == map[]
  {
    hide RequeueFront, Release;
    var (b1, t1) := ReturnLatest(b, t);
    assert t1.outstanding == map[];
    NothingReturned(b1, t1);
  }

  /** ensureTopic is its forensic half, if asked for, then the topic itself. */
  lemma DeclareIsASchedule(w: World, id: nat, topic: Topic, options: TopicOptions)
    requires id < |w.transports|
    ensures var (b, outcome) := Declare(w.broker, w.transports[id], topic, options);
            var v := Run(w, [Provisioning(id, topic), Declaring(id, topic, options)]);
            var u := Run(w, if options.deadLetter then [Provisioning(id, topic)] else [Declaring(id, topic, options)]);
            if !options.deadLetter || !outcome.Answered? then u.broker == b && u.transports == w.transports
            else v.broker == b && v.transports == w.transports
                 && (outcome == Answered(Declared) ==> topic in v.declared && topic in v.provisioned)
  {
    hide EnsureTopic, ForensicTopicOptions;
    var first, second := Provisioning(id, topic), Declaring(id, topic, options);
    OneStep(w, first, Apply(w, first));
    OneStep(w, second, Apply(w, second));
    TwoSteps(w, first, Apply(w, first), second, Apply(Apply(w, first), second));
  }
}
