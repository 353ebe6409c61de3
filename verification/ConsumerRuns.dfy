/**
 * A started consumer among any number of other transports. Its thread is cut into the steps between
 * which others can act: one settlement, one take, the handler's decision, carrying it out.
 */
module ConsumerRuns {
  import opened Wrappers
  import opened Seam
  import opened BrokerModel
  import opened TransportModel
  import opened ConsumerModel
  import opened ConsumerLaws
  import opened Fleet
  import opened FleetLaws
  import opened FleetCounts
  import opened FanoutLaws
  import opened Guarantees
  import opened SessionLaws

  // ---------------------------------------------------------------- events

  /** Where the consumer's thread is: outside a delivery, in the handler, or about to do what it decided and counted. */
  datatype Thread =
    | Outside
    | Handling(delivery: Delivery)
    | Performing(tag: nat, result: HandlerResult)

  datatype Consuming = Consuming(state: ConsumerState, thread: Thread)

  datatype Event =
    | Elsewhere(action: Action)                    // another transport acts, or this one's owner beside poll
    | Pushed(tag: nat, disposition: Disposition)   // any thread reports finished work
    | Settles                                      // one turn of poll's settling loop
    | Takes                                        // one turn of pump's loop
    | Decides(handlers: Handlers)                  // the handler comes back and its decision is counted
    | Performs                                     // pump carries the decision out

  /**
   * A transport is used by its own consumer only. Its owner closes it only between deliveries, and may
   * connect and start the consumer again, on this or another topic: a start subscribes only once its
   * declaration has succeeded, which leaves the topic ready for dead letters (StartIsReady).
   */
  predicate Permitted(w: World, c: Consuming, id: nat, e: Event) {
    e.Elsewhere? ==>
      || e.action.id != id
      || e.action.Connecting? || e.action.Provisioning? || e.action.Declaring? || e.action.Sending? || e.action.Purging?
      || ((e.action.Returning? || e.action.Disconnecting?) && c.thread.Outside?)
      || (e.action.Subscribing? && Ready(w.broker, e.action.topic))
  }

  /** A step the thread is not at changes nothing. */
  ghost function Happen(w: World, c: Consuming, id: nat, e: Event): (World, Consuming)
    requires id < |w.transports|
  {
    var s := c.state;
    match e
    case Elsewhere(action) => (Apply(w, action), c)
    case Pushed(tag, disposition) => (w, c.(state := s.(pending := s.pending + [(tag, disposition)])))
    case Settles =>
      if !c.thread.Outside? || s.pending == [] then (w, c)
      else
        var (tag, disposition) := s.pending[0];
        var result := Settle(w.broker, w.transports[id], id, tag, disposition).2;
        var counters := if result == Resolved(Done) then Count(s.counters, disposition) else s.counters;
        (Apply(w, Settling(id, tag, disposition)), c.(state := ConsumerState(counters, s.pending[1..])))
    case Takes =>
      if !c.thread.Outside? then (w, c)
      else
        var taken := Deliver(w.broker, w.transports[id], id).2;
        (Apply(w, Delivering(id)), if taken.Some? then c.(thread := Handling(taken.value)) else c)
    case Decides(handlers) =>
      if !c.thread.Handling? then (w, c)
      else
        var result := OnDelivery(handlers)(c.thread.delivery);
        (w, Consuming(s.(counters := CountAnswer(s.counters, Some(result))), Performing(c.thread.delivery.tag, result)))
    case Performs =>
      if !c.thread.Performing? then (w, c)
      else (Apply(w, Finishing(id, c.thread.tag, c.thread.result)), c.(thread := Outside))
  }

  ghost function RunConsumer(w: World, c: Consuming, id: nat, events: seq<Event>): (World, Consuming)
    decreases |events|
  {
    if events == [] || id >= |w.transports| then (w, c)
    else
      var (v, c1) := Happen(w, c, id, events[0]);
      RunConsumer(v, c1, id, events[1..])
  }

  ghost predicate PermittedRun(w: World, c: Consuming, id: nat, events: seq<Event>)
    decreases |events|
  {
    events == [] || id >= |w.transports|
    || (Permitted(w, c, id, events[0])
        && var (v, c1) := Happen(w, c, id, events[0]); PermittedRun(v, c1, id, events[1..]))
  }

  // ---------------------------------------------------------------- rejections are always carried out

  /** The topic this transport consumes can take its dead letters, and none has been lost so far. */
  ghost predicate SafeHands(w: World, id: nat) {
    && WorldOk(w) && id < |w.transports|
    && w.transports[id].failed == 0
    && (w.transports[id].subscribed ==> Ready(w.broker, w.transports[id].topic))
  }

  predicate OwnAction(id: nat, a: Action) {
    a.id == id && (a.Settling? || a.Delivering? || a.Finishing?)
  }

  lemma ResolveNeverFails(b: BrokerState, t: Transport, who: nat, tag: nat, disposition: Disposition)
    requires tag in t.outstanding && disposition != Deferred && Ready(b, t.topic)
    ensures var t1 := Resolve(b, t, who, tag, disposition).1;
            t1.failed == t.failed && t1.topic == t.topic && t1.subscribed == t.subscribed
  {
    var held := t.outstanding[tag];
    var b1 := Release(b, held.sequence);
    hide RequeueFront, End;
    if b.topics[t.topic].options.deadLetter {
      ForensicTakes(b1, t.topic, held);
    }
  }

  lemma ReadyAdvances(w: World, v: World, topic: Topic)
    requires Advances(w, v) && Ready(w.broker, topic)
    ensures Ready(v.broker, topic)
  {
    if w.broker.topics[topic].options.deadLetter {
      assert DeadLetterTopic(topic) in v.broker.topics;
    }
  }

  lemma OwnActionNeverFails(w: World, id: nat, a: Action)
    requires OwnAction(id, a) && id < |w.transports|
    requires w.transports[id].outstanding != map[] ==> Ready(w.broker, w.transports[id].topic)
    ensures |Apply(w, a).transports| == |w.transports|
    ensures var t, t1 := w.transports[id], Apply(w, a).transports[id];
            t1.failed == t.failed && t1.topic == t.topic && t1.subscribed == t.subscribed
  {
    var t := w.transports[id];
    hide Take, Resolve, Ready;
    if a.Finishing? && a.tag in t.outstanding && a.result.Returned? && a.result.disposition != Deferred {
      ResolveNeverFails(w.broker, t, id, a.tag, a.result.disposition);
    } else if a.Settling? && t.connected && a.tag in t.outstanding && a.disposition != Deferred {
      ResolveNeverFails(w.broker, t, id, a.tag, a.disposition);
    }
  }

  lemma OwnActionIsSafe(w: World, id: nat, a: Action)
    requires SafeHands(w, id) && OwnAction(id, a)
    ensures SafeHands(Apply(w, a), id)
  {
    assert TransportOk(w.broker, w.transports[id], id);
    ApplyKeeps(w, a);
    hide WorldOk, Advances, Apply, Ready, OwnAction, TransportOk;
    OwnActionNeverFails(w, id, a);
    if w.transports[id].subscribed {
      ReadyAdvances(w, Apply(w, a), w.transports[id].topic);
    }
  }

  // ---------------------------------------------------------------- the invariant

  /** A decision counted but not carried out yet. */
  function Owing(thread: Thread, disposition: Disposition): nat {
    if thread.Performing? && thread.result == Returned(disposition) then 1 else 0
  }

  /** The consumer is ahead of its transport by the decision it is about to carry out, and by nothing else. */
  predicate Ahead(c: Consuming, stats: Stats) {
    var k := c.state.counters;
    && k.acked == stats.acksPerformed + Owing(c.thread, Ack)
    && k.rejected == stats.rejectsPerformed + Owing(c.thread, Reject)
    && k.requeued == stats.requeuesPerformed + Owing(c.thread, Requeue)
  }

  /** A delivery the thread is busy with is in its transport's hands. */
  predicate InHand(c: Consuming, t: Transport) {
    match c.thread
    case Outside => true
    case Handling(delivery) => delivery.tag in t.outstanding
    case Performing(tag, _) => tag in t.outstanding
  }

  /** The consumer's books and its transport's agree, and every delivery is accounted for. */
  predicate InStep(c: Consuming, t: Transport) {
    && Ahead(c, t.stats)
    && t.stats.received == t.stats.acksPerformed + t.stats.rejectsPerformed + t.stats.requeuesPerformed
                           + |t.outstanding| + t.returned
  }

  ghost predicate Following(w: World, c: Consuming, id: nat) {
    id < |w.transports| && SafeHands(w, id) && CountsOk(w) && Ahead(c, w.transports[id].stats) && InHand(c, w.transports[id])
  }

  // ---------------------------------------------------------------- event by event

  /** What one resolution adds to the statistics when dead-lettering cannot fail. */
  predicate Performed(t: Transport, t1: Transport, tag: nat, disposition: Disposition) {
    && t1.stats.acksPerformed == t.stats.acksPerformed + (if disposition == Ack then 1 else 0)
    && t1.stats.rejectsPerformed == t.stats.rejectsPerformed + (if disposition == Reject then 1 else 0)
    && t1.stats.requeuesPerformed == t.stats.requeuesPerformed + (if disposition == Requeue then 1 else 0)
    && t1.outstanding == Drop(t.outstanding, tag)
  }

  lemma ResolvePerforms(b: BrokerState, t: Transport, who: nat, tag: nat, disposition: Disposition)
    requires tag in t.outstanding && disposition != Deferred && Ready(b, t.topic)
    ensures var (_, t1, completion) := Resolve(b, t, who, tag, disposition);
            completion == Done && Performed(t, t1, tag, disposition)
  {
    ResolveNeverFails(b, t, who, tag, disposition);
    hide DeadLetter, RequeueFront, Release, End, Ready;
  }

  lemma OwnStep(w: World, id: nat, a: Action)
    requires SafeHands(w, id) && CountsOk(w) && OwnAction(id, a)
    ensures SafeHands(Apply(w, a), id) && CountsOk(Apply(w, a))
  {
    OwnActionIsSafe(w, id, a);
    ApplyCounts(w, a);
  }

  lemma HandsReady(w: World, id: nat)
    requires SafeHands(w, id)
    ensures w.transports[id].outstanding != map[] ==> Ready(w.broker, w.transports[id].topic)
  {
    assert TransportOk(w.broker, w.transports[id], id);
  }

  predicate SameCounts(t: Transport, t1: Transport) {
    && t1.stats.acksPerformed == t.stats.acksPerformed && t1.stats.rejectsPerformed == t.stats.rejectsPerformed
    && t1.stats.requeuesPerformed == t.stats.requeuesPerformed
  }

  lemma SettlingCounts(w: World, id: nat, tag: nat, disposition: Disposition)
    requires id < |w.transports|
    requires w.transports[id].outstanding != map[] ==> Ready(w.broker, w.transports[id].topic)
    ensures |Apply(w, Settling(id, tag, disposition)).transports| == |w.transports|
    ensures var t, t1 := w.transports[id], Apply(w, Settling(id, tag, disposition)).transports[id];
            if Settle(w.broker, t, id, tag, disposition).2 == Resolved(Done)
            then Performed(t, t1, tag, disposition) && disposition != Deferred
            else SameCounts(t, t1)
  {
    hide Resolve, Ready;
    var t := w.transports[id];
    if t.connected && disposition != Deferred && tag in t.outstanding {
      ResolvePerforms(w.broker, t, id, tag, disposition);
    }
  }

  lemma TakingCounts(w: World, id: nat)
    requires id < |w.transports|
    ensures |Apply(w, Delivering(id)).transports| == |w.transports|
    ensures var t, t1, taken := w.transports[id], Apply(w, Delivering(id)).transports[id], Deliver(w.broker, w.transports[id], id).2;
            SameCounts(t, t1) && (taken.Some? ==> taken.value.tag in t1.outstanding)
  {
    hide Take;
  }

  lemma FinishingCounts(w: World, id: nat, tag: nat, result: HandlerResult)
    requires id < |w.transports| && tag in w.transports[id].outstanding && Ready(w.broker, w.transports[id].topic)
    ensures |Apply(w, Finishing(id, tag, result)).transports| == |w.transports|
    ensures var t, t1 := w.transports[id], Apply(w, Finishing(id, tag, result)).transports[id];
            if result.Returned? && result.disposition != Deferred then Performed(t, t1, tag, result.disposition)
            else SameCounts(t, t1)
  {
    hide Resolve, Ready;
    if result.Returned? && result.disposition != Deferred {
      ResolvePerforms(w.broker, w.transports[id], id, tag, result.disposition);
    }
  }

  lemma SettlesFollows(w: World, c: Consuming, id: nat)
    requires id < |w.transports| && Following(w, c, id)
    ensures var (v, c1) := Happen(w, c, id, Settles); Following(v, c1, id)
  {
    hide SafeHands, CountsOk, Settle, Apply, Ready;
    if c.thread.Outside? && c.state.pending != [] {
      var (tag, disposition) := c.state.pending[0];
      HandsReady(w, id);
      OwnStep(w, id, Settling(id, tag, disposition));
      SettlingCounts(w, id, tag, disposition);
    }
  }

  lemma TakesFollows(w: World, c: Consuming, id: nat)
    requires id < |w.transports| && Following(w, c, id)
    ensures var (v, c1) := Happen(w, c, id, Takes); Following(v, c1, id)
  {
    hide SafeHands, CountsOk, Deliver, Apply;
    if c.thread.Outside? {
      OwnStep(w, id, Delivering(id));
      TakingCounts(w, id);
    }
  }

  lemma DecidesFollows(w: World, c: Consuming, id: nat, handlers: Handlers)
    requires id < |w.transports| && Following(w, c, id)
    ensures var (v, c1) := Happen(w, c, id, Decides(handlers)); Following(v, c1, id)
  {
    hide SafeHands, CountsOk, OnDelivery;
  }

  lemma PerformsFollows(w: World, c: Consuming, id: nat)
    requires id < |w.transports| && Following(w, c, id)
    ensures var (v, c1) := Happen(w, c, id, Performs); Following(v, c1, id)
  {
    hide SafeHands, CountsOk, Apply, Ready;
    if c.thread.Performing? {
      HandsReady(w, id);
      OwnStep(w, id, Finishing(id, c.thread.tag, c.thread.result));
      FinishingCounts(w, id, c.thread.tag, c.thread.result);
    }
  }

  lemma ElsewhereFollows(w: World, c: Consuming, id: nat, a: Action)
    requires id < |w.transports| && Following(w, c, id) && Permitted(w, c, id, Elsewhere(a))
    ensures Following(Apply(w, a), c, id)
  {
    hide WorldOk, CountsOk, Advances, Ready, Apply, Permitted;
    ApplyKeeps(w, a);
    ApplyCounts(w, a);
    SameTransport(w, c, id, a);
    var t1 := Apply(w, a).transports[id];
    if t1.subscribed {
      ReadyAdvances(w, Apply(w, a), t1.topic);
    }
  }

  lemma SameTransport(w: World, c: Consuming, id: nat, a: Action)
    requires id < |w.transports| && Permitted(w, c, id, Elsewhere(a))
    ensures |Apply(w, a).transports| == |w.transports|
    ensures var t, t1 := w.transports[id], Apply(w, a).transports[id];
            && t1.stats.acksPerformed == t.stats.acksPerformed && t1.stats.rejectsPerformed == t.stats.rejectsPerformed
            && t1.stats.requeuesPerformed == t.stats.requeuesPerformed && t1.failed == t.failed
            && (t1.subscribed ==> (t.subscribed && t1.topic == t.topic) || Ready(w.broker, t1.topic))
            && (!c.thread.Outside? ==> t1.outstanding == t.outstanding)
  {
    hide EnsureTopic, Publish, Deliver, Finish, Settle, Purge, RequeueFront, Release, Ready;
  }

  lemma HappenFollows(w: World, c: Consuming, id: nat, e: Event)
    requires id < |w.transports| && Following(w, c, id) && Permitted(w, c, id, e)
    ensures var (v, c1) := Happen(w, c, id, e); Following(v, c1, id)
  {
    match e
    case Elsewhere(action) => ElsewhereFollows(w, c, id, action);
    case Pushed(_, _) =>
    case Settles => SettlesFollows(w, c, id);
    case Takes => TakesFollows(w, c, id);
    case Decides(handlers) => DecidesFollows(w, c, id, handlers);
    case Performs => PerformsFollows(w, c, id);
  }

  lemma {:induction false} RunFollows(w: World, c: Consuming, id: nat, events: seq<Event>)
    requires id < |w.transports| && Following(w, c, id) && PermittedRun(w, c, id, events)
    ensures var (v, c1) := RunConsumer(w, c, id, events); Following(v, c1, id)
    decreases |events|
  {
    if events != [] {
      hide Following, Happen, Permitted;
      HappenFollows(w, c, id, events[0]);
      var (v, c1) := Happen(w, c, id, events[0]);
      FollowingHasTransport(v, c1, id);
      RunFollows(v, c1, id, events[1..]);
    }
  }

  lemma FollowingIsInStep(w: World, c: Consuming, id: nat)
    requires id < |w.transports| && Following(w, c, id)
    ensures id < |w.transports| && InStep(c, w.transports[id])
  {
    hide WorldOk, Ready, Ahead;
    assert Tally(w.transports[id]);
  }

  lemma FollowingHasTransport(w: World, c: Consuming, id: nat)
    requires Following(w, c, id)
    ensures id < |w.transports|
  {
    hide SafeHands, CountsOk;
  }

  // ---------------------------------------------------------------- poll is such a run

  /** The steps of one call of poll that nobody disturbs. */
  function PollEvents(w: World, id: nat, s: ConsumerState, attempts: nat, handlers: Handlers): seq<Event>
    requires id < |w.transports|
  {
    seq(Attempted(w.broker, w.transports[id], id, s.pending), i => Settles)
    + if DrainSettlements(w.broker, w.transports[id], id, s).3.Some? || attempts == 0 then []
      else [Takes, Decides(handlers), Performs]
  }

  lemma {:induction false} SettlingRun(w: World, id: nat, s: ConsumerState, rest: seq<Event>)
    requires id < |w.transports|
    ensures var (b, t, s1, _) := DrainSettlements(w.broker, w.transports[id], id, s);
            var n := Attempted(w.broker, w.transports[id], id, s.pending);
            RunConsumer(w, Consuming(s, Outside), id, seq(n, i => Settles) + rest)
            == RunConsumer(Put(w, id, b, t), Consuming(s1, Outside), id, rest)
    decreases |s.pending|
  {
    var t0 := w.transports[id];
    var n := Attempted(w.broker, t0, id, s.pending);
    var events := seq(n, i => Settles) + rest;
    if s.pending == [] {
      assert w.transports[id := t0] == w.transports;
      assert events == rest;
    } else {
      var (tag, disposition) := s.pending[0];
      hide Settle;
      var (b1, t1, result) := Settle(w.broker, t0, id, tag, disposition);
      var v := Put(w, id, b1, t1);
      assert Apply(w, Settling(id, tag, disposition)) == v;
      var s1 := ConsumerState(if result == Resolved(Done) then Count(s.counters, disposition) else s.counters, s.pending[1..]);
      assert Happen(w, Consuming(s, Outside), id, Settles) == (v, Consuming(s1, Outside));
      assert events[0] == Settles && events[1..] == seq(n - 1, i => Settles) + rest;
      hide Apply, Happen;
      if result == Resolved(Done) {
        SettlingRun(v, id, s1, rest);
        var (b2, t2, _, _) := DrainSettlements(b1, t1, id, s1);
        assert Put(v, id, b2, t2) == Put(w, id, b2, t2);
      } else {
        assert events[1..] == rest;
      }
    }
  }

  lemma ThreeSteps(w: World, c: Consuming, id: nat, e: Event, e': Event, e'': Event)
    requires id < |w.transports|
    requires var (v, c1) := Happen(w, c, id, e);
             |v.transports| == |w.transports|
             && var (v', _) := Happen(v, c1, id, e'); |v'.transports| == |w.transports|
    ensures var (v, c1) := Happen(w, c, id, e);
            var (v', c2) := Happen(v, c1, id, e');
            RunConsumer(w, c, id, [e, e', e'']) == Happen(v', c2, id, e'')
  {
    hide Happen;
    var (v, c1) := Happen(w, c, id, e);
    var (v', c2) := Happen(v, c1, id, e');
    assert [e, e', e''][1..] == [e', e''] && [e', e''][1..] == [e''] && [e''][1..] == [];
    assert RunConsumer(v', c2, id, [e'']) == Happen(v', c2, id, e'');
  }

  lemma PumpingRun(w: World, id: nat, s: ConsumerState, attempts: nat, handlers: Handlers)
    requires id < |w.transports| && attempts > 0
    ensures var handler := OnDelivery(handlers);
            var (b, t, _) := Pump(w.broker, w.transports[id], id, attempts, handler);
            var answer := HandlerAnswer(w.broker, w.transports[id], id, attempts, handler);
            RunConsumer(w, Consuming(s, Outside), id, [Takes, Decides(handlers), Performs])
            == (Put(w, id, b, t), Consuming(s.(counters := CountAnswer(s.counters, answer)), Outside))
  {
    var t0, c := w.transports[id], Consuming(s, Outside);
    hide OnDelivery, CountAnswer;
    var (b1, t1, taken) := Deliver(w.broker, t0, id);
    var v := Put(w, id, b1, t1);
    DeliveringIs(w, id);
    if taken.None? {
      assert w.transports[id := t0] == w.transports;
      assert Deliver(w.broker, t0, id) == (w.broker, t0, None);
      assert v == w;
      hide Apply, Deliver;
      assert CountAnswer(s.counters, None) == s.counters by { NoAnswer(s.counters); }
      ThreeSteps(w, c, id, Takes, Decides(handlers), Performs);
    } else {
      assert taken.value.tag in t1.outstanding;
      var result := OnDelivery(handlers)(taken.value);
      hide Deliver, Apply, Finish;
      FinishingIs(v, id, taken.value.tag, result);
      var (b2, t2, _) := Finish(b1, t1, id, taken.value.tag, result);
      assert Put(v, id, b2, t2) == Put(w, id, b2, t2);
      ThreeSteps(w, c, id, Takes, Decides(handlers), Performs);
    }
  }

  lemma NoAnswer(k: Counters)
    ensures CountAnswer(k, None) == k
  {
  }

  /** The consumer class's poll, which nothing disturbs, is one run of these steps; others may act between any two of them. */
  lemma PollIsARun(w: World, id: nat, s: ConsumerState, attempts: nat, handlers: Handlers)
    requires id < |w.transports|
    ensures var (b, t, s1, _) := Poll(w.broker, w.transports[id], id, s, attempts, handlers);
            RunConsumer(w, Consuming(s, Outside), id, PollEvents(w, id, s, attempts, handlers))
            == (Put(w, id, b, t), Consuming(s1, Outside))
  {
    var (b, t, s1, thrown) := DrainSettlements(w.broker, w.transports[id], id, s);
    var v := Put(w, id, b, t);
    var rest := if thrown.Some? || attempts == 0 then [] else [Takes, Decides(handlers), Performs];
    SettlingRun(w, id, s, rest);
    hide DrainSettlements, Attempted, OnDelivery;
    if thrown.None? {
      if attempts > 0 {
        PumpingRun(v, id, s1, attempts, handlers);
        hide Pump, HandlerAnswer, RunConsumer;
        var (b2, t2, _) := Pump(b, t, id, attempts, OnDelivery(handlers));
        assert Put(v, id, b2, t2) == Put(w, id, b2, t2);
      } else {
        NoAnswer(s1.counters);
      }
    }
  }

  // ---------------------------------------------------------------- from start on

  /** The world after the actions a successful start stands for. */
  ghost function AfterStart(w: World, id: nat, topic: Topic, options: TopicOptions): World {
    var declaring := Declaring(id, topic, options);
    Apply(Run(w, if options.deadLetter then [Provisioning(id, topic), declaring] else [declaring]), Subscribing(id, topic))
  }

  /** A start that succeeds, on whatever broker it finds, leaves a topic that can take its dead letters. */
  lemma StartIsReady(b: BrokerState, t: Transport, topic: Topic, options: TopicOptions, allowAsymmetric: bool)
    ensures var (c, t1, result) := StartOn(b, t, topic, options, allowAsymmetric);
            result == StartResult.Started ==> Ready(c, topic) && t1 == t.(topic := topic, subscribed := true)
  {
  }

  lemma StartIsASchedule(w: World, id: nat, topic: Topic, options: TopicOptions, allowAsymmetric: bool)
    requires id < |w.transports|
    requires StartOn(w.broker, w.transports[id], topic, options, allowAsymmetric).2 == StartResult.Started
    ensures var (c, t1, _) := StartOn(w.broker, w.transports[id], topic, options, allowAsymmetric);
            var v := AfterStart(w, id, topic, options);
            v.broker == c && v.transports == w.transports[id := t1]
  {
    hide CheckTopicOptions, Declare, Run;
    DeclareIsASchedule(w, id, topic, options);
  }

  lemma StartKeeps(w: World, id: nat, topic: Topic, options: TopicOptions)
    requires WorldOk(w) && CountsOk(w)
    ensures WorldOk(AfterStart(w, id, topic, options)) && CountsOk(AfterStart(w, id, topic, options))
  {
    var declaring := Declaring(id, topic, options);
    var actions := if options.deadLetter then [Provisioning(id, topic), declaring] else [declaring];
    hide WorldOk, CountsOk, Apply, Run, Advances;
    RunKeeps(w, actions);
    RunCounts(w, actions);
    ApplyKeeps(Run(w, actions), Subscribing(id, topic));
    ApplyCounts(Run(w, actions), Subscribing(id, topic));
  }

  lemma StartFollows(count: nat, before: seq<Action>, id: nat, topic: Topic, options: TopicOptions, allowAsymmetric: bool)
    requires var w := Run(Start(count), before);
             && id < |w.transports| && w.transports[id].failed == 0
             && InStep(AT_REST, w.transports[id])
             && StartOn(w.broker, w.transports[id], topic, options, allowAsymmetric).2 == StartResult.Started
    ensures Following(AfterStart(Run(Start(count), before), id, topic, options), AT_REST, id)
  {
    hide WorldOk, CountsOk, Run, AfterStart, StartOn, Ready;
    var w := Run(Start(count), before);
    Reachable(count, before);
    ReachableCounts(count, before);
    StartIsReady(w.broker, w.transports[id], topic, options, allowAsymmetric);
    StartIsASchedule(w, id, topic, options, allowAsymmetric);
    StartKeeps(w, id, topic, options);
  }

  /** The steps of a successful start on a transport that is connected. */
  function StartEvents(id: nat, topic: Topic, options: TopicOptions): seq<Event> {
    (if options.deadLetter then [Elsewhere(Provisioning(id, topic))] else [])
    + [Elsewhere(Declaring(id, topic, options)), Elsewhere(Subscribing(id, topic))]
  }

  lemma TwoSteps(w: World, c: Consuming, id: nat, a: Action, a': Action)
    requires id < |w.transports| == |Apply(w, a).transports|
    ensures RunConsumer(w, c, id, [Elsewhere(a), Elsewhere(a')]) == (Apply(Apply(w, a), a'), c)
    ensures PermittedRun(w, c, id, [Elsewhere(a), Elsewhere(a')])
            <==> Permitted(w, c, id, Elsewhere(a)) && Permitted(Apply(w, a), c, id, Elsewhere(a'))
  {
    hide Apply, Permitted;
    var e, e' := Elsewhere(a), Elsewhere(a');
    assert [e, e'][1..] == [e'] && [e'][1..] == [];
    assert RunConsumer(Apply(w, a), c, id, [e']) == (Apply(Apply(w, a), a'), c);
    if |Apply(Apply(w, a), a').transports| > id {
      assert PermittedRun(Apply(Apply(w, a), a'), c, id, []);
    }
    assert PermittedRun(Apply(w, a), c, id, [e']) <==> Permitted(Apply(w, a), c, id, e');
  }

  /** Starting again is a permitted run of events, so whatever holds of these runs survives restarts. */
  lemma RestartIsARun(w: World, c: Consuming, id: nat, topic: Topic, options: TopicOptions, allowAsymmetric: bool)
    requires id < |w.transports|
    requires StartOn(w.broker, w.transports[id], topic, options, allowAsymmetric).2 == StartResult.Started
    ensures PermittedRun(w, c, id, StartEvents(id, topic, options))
    ensures RunConsumer(w, c, id, StartEvents(id, topic, options)) == (AfterStart(w, id, topic, options), c)
  {
    var declaring, subscribing := Declaring(id, topic, options), Subscribing(id, topic);
    var v := if options.deadLetter then Apply(w, Provisioning(id, topic)) else w;
    StartIsReady(w.broker, w.transports[id], topic, options, allowAsymmetric);
    StartIsASchedule(w, id, topic, options, allowAsymmetric);
    RunOfTwo(w, Provisioning(id, topic), declaring);
    SubscribingKeepsBroker(Apply(v, declaring), id, topic);
    hide StartOn, Ready, RunConsumer, PermittedRun;
    TwoSteps(v, c, id, declaring, subscribing);
    hide Apply;
    if options.deadLetter {
      var events := [Elsewhere(declaring), Elsewhere(subscribing)];
      assert StartEvents(id, topic, options) == [Elsewhere(Provisioning(id, topic))] + events;
      OneMore(w, c, id, Provisioning(id, topic), events);
    } else {
      assert StartEvents(id, topic, options) == [Elsewhere(declaring), Elsewhere(subscribing)];
    }
  }

  lemma SubscribingKeepsBroker(w: World, id: nat, topic: Topic)
    ensures Apply(w, Subscribing(id, topic)).broker == w.broker
  {
  }

  lemma RunOfTwo(w: World, a: Action, a': Action)
    ensures Run(w, [a']) == Apply(w, a') && Run(w, [a, a']) == Apply(Apply(w, a), a')
  {
    hide Apply;
    assert [a, a'][1..] == [a'] && [a'][1..] == [];
    assert Run(Apply(w, a), [a']) == Apply(Apply(w, a), a');
  }

  lemma OneMore(w: World, c: Consuming, id: nat, a: Action, rest: seq<Event>)
    requires id < |w.transports|
    ensures RunConsumer(w, c, id, [Elsewhere(a)] + rest) == RunConsumer(Apply(w, a), c, id, rest)
    ensures PermittedRun(w, c, id, [Elsewhere(a)] + rest)
            <==> Permitted(w, c, id, Elsewhere(a)) && PermittedRun(Apply(w, a), c, id, rest)
  {
    hide Apply, Permitted;
    assert ([Elsewhere(a)] + rest)[1..] == rest;
  }

  const AT_REST := Consuming(NEW_CONSUMER, Outside)

  /**
   * Decided equals performed, for the whole life of a consumer started on a transport that has not
   * consumed before, through closes and restarts. Whatever other transports do between any two steps of
   * its thread, inside a poll or not, in whatever order work is settled, whatever its handlers do and
   * whether its polls return or throw: its counters are its transport's, plus the one decision it is just
   * carrying out, and received = acks + rejects + requeues + outstanding + returned.
   */
  lemma ConsumersKeepStep(count: nat, before: seq<Action>, id: nat, topic: Topic, options: TopicOptions,
                          allowAsymmetric: bool, events: seq<Event>)
    requires var w := Run(Start(count), before);
             && id < |w.transports| && w.transports[id].failed == 0
             && InStep(AT_REST, w.transports[id])
             && StartOn(w.broker, w.transports[id], topic, options, allowAsymmetric).2 == StartResult.Started
    requires PermittedRun(AfterStart(Run(Start(count), before), id, topic, options), AT_REST, id, events)
    ensures var w := AfterStart(Run(Start(count), before), id, topic, options);
            var (v, c) := RunConsumer(w, AT_REST, id, events);
            id < |v.transports| && InStep(c, v.transports[id])
  {
    var v := AfterStart(Run(Start(count), before), id, topic, options);
    StartFollows(count, before, id, topic, options, allowAsymmetric);
    hide *;
    FollowingHasTransport(v, AT_REST, id);
    RunFollows(v, AT_REST, id, events);
    FollowingHasTransport(RunConsumer(v, AT_REST, id, events).0, RunConsumer(v, AT_REST, id, events).1, id);
    FollowingIsInStep(RunConsumer(v, AT_REST, id, events).0, RunConsumer(v, AT_REST, id, events).1, id);
  }
}
