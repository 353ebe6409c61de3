/** The retry policy, and that what a consumer decided is what its transport performed. */
module ConsumerLaws {
  import opened Wrappers
  import opened Seam
  import opened BrokerModel
  import opened TransportModel
  import opened ConsumerModel
  import opened Fleet
  import opened FleetLaws
  import opened FleetDrain
  import opened ChainLaws
  import opened FanoutLaws
  import opened Guarantees
  import opened SessionLaws
  import opened PumpLaws

  // ---------------------------------------------------------------- policy

  predicate Understood(body: string) {
    Envelope.Decode(Envelope.FORMAT_VERSION, body).Ok?
  }

  function PayloadOf(body: string): string
    requires Understood(body)
  {
    Envelope.Decode(Envelope.FORMAT_VERSION, body).value
  }

  /**
   * The three ways a handler can make a message come back without bound: it defers, it requeues what
   * already came back, or it throws past std::exception, which leaves the delivery to the next close.
   */
  predicate Unbounded(body: string, handlers: Handlers, redelivered: bool, tag: nat) {
    Understood(body) &&
    if handlers.onDeferred.Some? then
      var decided := handlers.onDeferred.value(PayloadOf(body), tag);
      decided == Ok(Deferred) || (decided == Ok(Requeue) && redelivered) || decided == Err(ForeignException)
    else handlers.onMessage.Some? && handlers.onMessage.value(PayloadOf(body)) == Some(ForeignException)
  }

  /**
   * Retry is bounded to one attempt, except exactly where the handler is unbounded in that sense: then
   * alone may a first delivery do more than requeue, and a redelivered message be neither acked nor rejected.
   */
  lemma RetryIsBounded(body: string, handlers: Handlers, redelivered: bool, tag: nat)
    ensures var result := Dispatch(body, handlers, redelivered, tag);
            && (BoundedRetry(redelivered, result) && result != Threw <==> !Unbounded(body, handlers, redelivered, tag))
            && (redelivered ==>
                  (result == Returned(Ack) || result == Returned(Reject) <==> !Unbounded(body, handlers, redelivered, tag)))
  {
  }

  /** The onMessage handler never throws past std::exception. */
  ghost predicate NoForeignException(handlers: Handlers) {
    handlers.onMessage.Some? ==> forall payload :: handlers.onMessage.value(payload) != Some(ForeignException)
  }

  /** Consumers with an onMessage handler only follow the drain rule, and each decision is a step of work. */
  lemma MessageConsumersDrain(w: World, id: nat, tag: nat, handlers: Handlers)
    requires WorldOk(w) && id < |w.transports| && tag in w.transports[id].outstanding
    requires handlers.onDeferred.None?
    ensures var held := w.transports[id].outstanding[tag];
            var decision := OnDelivery(handlers)(Delivery(held.body, held.redelivered, held.sequence));
            && DrainAction(w, w.transports[id].topic, Finishing(id, tag, decision)) && decision != Returned(Deferred)
            && (NoForeignException(handlers) ==> Moves(w, w.transports[id].topic, Finishing(id, tag, decision)))
  {
    hide WorldOk;
  }

  /** Exactly the bodies this build cannot read are rejected whatever the handlers would do; those never see them. */
  lemma PoisonIsRejected(body: string, redelivered: bool, tag: nat)
    ensures (forall handlers :: Dispatch(body, handlers, redelivered, tag) == Returned(Reject)) <==> !Understood(body)
  {
    var content := Handlers(Some((payload: string) => None), None);
    assert Understood(body) ==> Dispatch(body, content, redelivered, tag) == Returned(Ack);
  }

  /** The policy for an onMessage handler: what each way of coming back from the payload means. */
  lemma MessagePolicy(body: string, handlers: Handlers, redelivered: bool, tag: nat)
    requires Understood(body) && handlers.onDeferred.None? && handlers.onMessage.Some?
    ensures var result := Dispatch(body, handlers, redelivered, tag);
            var thrown := handlers.onMessage.value(PayloadOf(body));
            && (result == Returned(Ack) <==> thrown == None)
            && (result == Returned(Requeue) <==> thrown == Some(TransientFailure) && !redelivered)
            && (result == Threw <==> thrown == Some(ForeignException))
            && (result == Returned(Reject) <==>
                  thrown == Some(StdException) || (thrown == Some(TransientFailure) && redelivered))
    ensures Dispatch(body, Handlers(None, None), redelivered, tag) == Returned(Reject)
  {
  }

  /** For an onDeferred handler, which comes first: its answer is the decision; its exceptions mean the same. */
  lemma DeferredPolicy(body: string, handlers: Handlers, redelivered: bool, tag: nat)
    requires Understood(body) && handlers.onDeferred.Some?
    ensures var result := Dispatch(body, handlers, redelivered, tag);
            var decided := handlers.onDeferred.value(PayloadOf(body), tag);
            && (decided.Ok? ==> result == Returned(decided.value))
            && (decided.Err? ==>
                  && (result == Returned(Requeue) <==> decided.error == TransientFailure && !redelivered)
                  && (result == Threw <==> decided.error == ForeignException)
                  && (result == Returned(Reject) <==>
                        decided.error == StdException || (decided.error == TransientFailure && redelivered)))
  {
  }

  /** What a producer puts into the shipped envelope is what the handler is given. */
  lemma HandlersSeeThePayload(payload: string)
    requires |payload| + 8 <= 4194304
    ensures Envelope.Serialize(Envelope.FORMAT_VERSION, payload) == Ok("motus:1:" + payload)
    ensures Understood("motus:1:" + payload) && PayloadOf("motus:1:" + payload) == payload
  {
    Envelope.RoundTrip(payload);
  }

  /** A backend that cannot requeue gets a rejection where another would requeue; nothing else is changed. */
  lemma RequeueFallsBack(caps: Capabilities, handlers: Handlers, delivery: Delivery)
    ensures var wanted := Dispatch(delivery.body, handlers, delivery.redelivered, delivery.tag);
            var decision := Decide(caps, handlers, delivery);
            && (decision == Returned(Requeue) <==> wanted == Returned(Requeue) && caps.requeue)
            && (wanted == Returned(Requeue) && !caps.requeue ==> decision == Returned(Reject))
            && (wanted != Returned(Requeue) ==> decision == wanted)
            && (caps == IN_MEMORY_CAPABILITIES ==> decision == wanted)
  {
  }

  /** Each decision has its own counter. */
  lemma CountsItsOwn(c: Counters, disposition: Disposition)
    ensures var k := Count(c, disposition);
            && k.acked == c.acked + (if disposition == Ack then 1 else 0)
            && k.rejected == c.rejected + (if disposition == Reject then 1 else 0)
            && k.requeued == c.requeued + (if disposition == Requeue then 1 else 0)
            && k.deferred == c.deferred + (if disposition == Deferred then 1 else 0)
  {
  }

  /** What a poll with one waiting message and nothing to settle does, by how its onMessage handler came back. */
  ghost predicate Carried(b: BrokerState, t: Transport, who: nat, s: ConsumerState, thrown: Option<Exception>,
                          c: BrokerState, t1: Transport, s1: ConsumerState, result: PollResult)
    requires Queue(b, t.topic) != []
  {
    var held, rest, k := Queue(b, t.topic)[0], Queue(b, t.topic)[1..], s.counters;
    && (thrown == None ==>
          && result == Pumped(Alive) && s1.counters == k.(acked := k.acked + 1)
          && Queue(c, t.topic) == rest && t1.outstanding == map[]
          && held.sequence in c.history.places && c.history.places[held.sequence] == Ended(Acked(who)))
    && (thrown == Some(TransientFailure) && !held.redelivered ==>
          && result == Pumped(Alive) && s1.counters == k.(requeued := k.requeued + 1)
          && Queue(c, t.topic) == [held.(redelivered := true)] + rest && t1.outstanding == map[])
    && (thrown == Some(StdException) || (thrown == Some(TransientFailure) && held.redelivered) ==>
          && (result == Pumped(Alive) <==> !Broken(b, t.topic))
          && s1.counters == k.(rejected := k.rejected + 1)
          && Queue(c, t.topic) == rest && t1.outstanding == map[])
    && (thrown == Some(ForeignException) ==>
          && result == Pumped(PumpThrew(Rethrown)) && s1.counters == k
          && Queue(c, t.topic) == rest && t1.outstanding == map[held.sequence := held])
  }

  /**
   * From handler to broker: a message whose handler returned is acknowledged and gone; one it failed on for
   * the moment is back in front, flagged, the first time; one it failed on otherwise is rejected; and a
   * foreign exception leaves it in hand. Each is counted as what it was.
   */
  lemma PollCarriesOut(b: BrokerState, t: Transport, who: nat, s: ConsumerState, attempts: nat, handlers: Handlers)
    requires s.pending == [] && Idle(t) && attempts > 0
    requires Queue(b, t.topic) != [] && Understood(Queue(b, t.topic)[0].body)
    requires handlers.onDeferred.None? && handlers.onMessage.Some?
    ensures var (c, t1, s1, result) := Poll(b, t, who, s, attempts, handlers);
            Carried(b, t, who, s, handlers.onMessage.value(PayloadOf(Queue(b, t.topic)[0].body)), c, t1, s1, result)
  {
    hide Broken, Pump, HandlerAnswer, Dispatch, Understood, PayloadOf, IsForensicOf;
    var held, handler := Queue(b, t.topic)[0], OnDelivery(handlers);
    HandlerGetsTheFront(b, t, who, attempts, handler);
    RequeueFallsBack(IN_MEMORY_CAPABILITIES, handlers, Delivery(held.body, held.redelivered, held.sequence));
    MessagePolicy(held.body, handlers, held.redelivered, held.sequence);
    PumpAnswers(b, t, who, attempts, handler);
    PumpCarriesOut(b, t, who, attempts, handler);
  }

  /** In every reachable state: a message whose handler returned is in no queue and in nobody's hands ever after. */
  lemma HandledIsGone(count: nat, actions: seq<Action>, id: nat, s: ConsumerState, attempts: nat, handlers: Handlers)
    requires id < |Run(Start(count), actions).transports| && s.pending == [] && attempts > 0
    requires handlers.onDeferred.None? && handlers.onMessage.Some?
    requires var w := Run(Start(count), actions);
             var q := Queue(w.broker, w.transports[id].topic);
             && Idle(w.transports[id]) && q != [] && Understood(q[0].body)
             && handlers.onMessage.value(PayloadOf(q[0].body)) == None
    ensures var w := Run(Start(count), actions);
            var n := Queue(w.broker, w.transports[id].topic)[0].sequence;
            var (c, t1, _, _) := Poll(w.broker, w.transports[id], id, s, attempts, handlers);
            forall more :: !IsWaiting(Run(Put(w, id, c, t1), more), n) && !IsHeld(Run(Put(w, id, c, t1), more), n)
  {
    var w := Run(Start(count), actions);
    var n := Queue(w.broker, w.transports[id].topic)[0].sequence;
    var poll := PollActions(w, id, s, attempts, handlers);
    var (c, t1, _, _) := Poll(w.broker, w.transports[id], id, s, attempts, handlers);
    PollCarriesOut(w.broker, w.transports[id], id, s, attempts, handlers);
    PollIsASchedule(w, id, s, attempts, handlers);
    RunConcat(Start(count), actions, poll);
    hide Poll, PollActions, Understood, PayloadOf, IsWaiting, IsHeld, Run;
    forall more ensures !IsWaiting(Run(Put(w, id, c, t1), more), n) && !IsHeld(Run(Put(w, id, c, t1), more), n) {
      EndsAreFinal(count, actions + poll, more, n);
    }
  }

  // ---------------------------------------------------------------- construction and start

  /** A consumer is refused for having no handler, for a backend that cannot acknowledge, or cannot defer, in this order. */
  lemma BuildSays(caps: Capabilities, hasMessage: bool, hasDeferred: bool)
    ensures var result := CheckHandlers(caps, hasMessage, hasDeferred);
            && (result == Err(NoHandler) <==> !hasMessage && !hasDeferred)
            && (result == Err(NoManualAcknowledgement) <==> (hasMessage || hasDeferred) && !caps.manualAcknowledgement)
            && (result == Err(NoDeferredAcknowledgement) <==>
                  hasDeferred && caps.manualAcknowledgement && !caps.deferredAcknowledgement)
  {
  }

  /**
   * Start is refused for the options, then for the declaration, then for the subscription, and stops at the
   * first: a start refused for its options has touched nothing, one refused later has declared all it could.
   */
  lemma StartSays(b: BrokerState, t: Transport, topic: Topic, options: TopicOptions, allowAsymmetric: bool)
    ensures var (c, t1, result) := StartOn(b, t, topic, options, allowAsymmetric);
            var check := CheckTopicOptions(IN_MEMORY_CAPABILITIES, options, allowAsymmetric);
            var (declared, outcome) := Declare(b, t, topic, options);
            && (result.OptionsRefused? <==> check.Err?)
            && (result.OptionsRefused? ==> c == b && t1 == t && result.reason == check.error)
            && (result.NotDeclared? <==> check.Ok? && outcome != Answered(Declared))
            && (result.NotDeclared? ==> result.outcome == outcome && t1 == t)
            && (result == NotSubscribed(AlreadySubscribed) <==> check.Ok? && outcome == Answered(Declared) && t.subscribed)
            && (result == StartResult.Started <==> check.Ok? && outcome == Answered(Declared) && !t.subscribed)
            && (check.Ok? ==> c == declared)
            && (result == StartResult.Started ==> t1 == t.(topic := topic, subscribed := true))
            && (result != StartResult.Started ==> t1 == t)
  {
    hide EnsureTopic, CheckTopicOptions, ForensicTopicOptions;
  }

  // ---------------------------------------------------------------- decided equals performed, one poll

  /** Acknowledgements and requeues agree; `gap` rejections were decided but not carried out. */
  predicate Agree(c: Counters, stats: Stats, gap: nat) {
    && c.acked == stats.acksPerformed
    && c.requeued == stats.requeuesPerformed
    && c.rejected == stats.rejectsPerformed + gap
  }

  lemma ResolveAgrees(b: BrokerState, t: Transport, who: nat, tag: nat, disposition: Disposition, c: Counters, gap: nat)
    requires tag in t.outstanding && disposition != Deferred && Agree(c, t.stats, gap)
    ensures var (_, t1, completion) := Resolve(b, t, who, tag, disposition);
            && t1.topic == t.topic && t1.subscribed == t.subscribed
            && (completion == Done ==> Agree(Count(c, disposition), t1.stats, gap))
            && (completion != Done ==> completion == DeadLetterThrew && disposition == Reject && t1.stats == t.stats)
  {
    hide DeadLetter, RequeueFront, Release, End;
  }

  /** A settlement is counted exactly when it was performed. */
  lemma {:induction false} DrainAgrees(b: BrokerState, t: Transport, who: nat, s: ConsumerState, gap: nat)
    requires Agree(s.counters, t.stats, gap)
    ensures var (_, t1, s1, thrown) := DrainSettlements(b, t, who, s);
            && Agree(s1.counters, t1.stats, gap) && t1.topic == t.topic && t1.subscribed == t.subscribed
            && (thrown.None? ==> s1.pending == [])
    decreases |s.pending|
  {
    if s.pending != [] {
      var (tag, disposition) := s.pending[0];
      var (b1, t1, result) := Settle(b, t, who, tag, disposition);
      if t.connected && disposition != Deferred && tag in t.outstanding {
        ResolveAgrees(b, t, who, tag, disposition, s.counters, gap);
      }
      hide Resolve;
      if result == Resolved(Done) {
        DrainAgrees(b1, t1, who, ConsumerState(Count(s.counters, disposition), s.pending[1..]), gap);
      }
    }
  }

  /** A rejection that pump is going to decide on but cannot carry out, told from the state it finds. */
  function Unperformable(b: BrokerState, t: Transport, who: nat, attempts: nat, handler: Delivery -> HandlerResult): nat {
    if HandlerAnswer(b, t, who, attempts, handler) == Some(Returned(Reject)) && Broken(b, t.topic) then 1 else 0
  }

  lemma PumpAgrees(b: BrokerState, t: Transport, who: nat, attempts: nat, handler: Delivery -> HandlerResult, c: Counters, gap: nat)
    requires Agree(c, t.stats, gap)
    ensures var (_, t1, result) := Pump(b, t, who, attempts, handler);
            && t1.topic == t.topic && t1.subscribed == t.subscribed
            && Agree(CountAnswer(c, HandlerAnswer(b, t, who, attempts, handler)), t1.stats,
                     gap + Unperformable(b, t, who, attempts, handler))
            && (result == PumpThrew(DeadLetterThrew) <==> Unperformable(b, t, who, attempts, handler) == 1)
  {
    PumpThrowsIff(b, t, who, attempts, handler);
    hide Take, Resolve, Broken;
    if t.connected && attempts != 0 {
      var (b1, t1, taken) := Deliver(b, t, who);
      if taken.Some? {
        var answer := handler(taken.value);
        if answer.Returned? && answer.disposition != Deferred {
          ResolveAgrees(b1, t1, who, taken.value.tag, answer.disposition, c, gap);
        }
      }
    }
  }

  /**
   * Decided equals performed, and exactly when not. A poll keeps the consumer's counters agreeing with the
   * transport's, except that it counts one rejection too many precisely if its settlements went through,
   * its handler rejects, and the topic's forensic chain is cut in the state pump finds. A poll that
   * returns normally never opens a gap, and has settled everything pushed.
   */
  lemma PollAgrees(b: BrokerState, t: Transport, who: nat, s: ConsumerState, attempts: nat, handlers: Handlers, gap: nat)
    requires Agree(s.counters, t.stats, gap)
    ensures var (_, t1, s1, result) := Poll(b, t, who, s, attempts, handlers);
            var (b0, t0, _, thrown) := DrainSettlements(b, t, who, s);
            var excess := if thrown.Some? then 0 else Unperformable(b0, t0, who, attempts, OnDelivery(handlers));
            && t1.topic == t.topic && t1.subscribed == t.subscribed
            && Agree(s1.counters, t1.stats, gap + excess)
            && (result == Pumped(PumpThrew(DeadLetterThrew)) <==> excess == 1)
            && (ReturnsNormally(result) ==> Agree(s1.counters, t1.stats, gap) && s1.pending == [])
  {
    DrainAgrees(b, t, who, s, gap);
    var (b1, t1, s1, thrown) := DrainSettlements(b, t, who, s);
    hide DrainSettlements, Pump, HandlerAnswer, OnDelivery, CountAnswer, Unperformable;
    PumpAgrees(b1, t1, who, attempts, OnDelivery(handlers), s1.counters, gap);
  }

  // ---------------------------------------------------------------- settlement order

  /**
   * Settling what was pushed in two batches is settling the first batch, then, unless settle threw, the
   * second: so what is pushed while the loop runs is settled as if it had been there from the start.
   */
  lemma {:induction false} DrainInPushOrder(b: BrokerState, t: Transport, who: nat, s: ConsumerState, later: seq<Settlement>)
    ensures var (b1, t1, s1, thrown) := DrainSettlements(b, t, who, s);
            DrainSettlements(b, t, who, s.(pending := s.pending + later))
            == if thrown.Some? then (b1, t1, s1.(pending := s1.pending + later), thrown)
               else DrainSettlements(b1, t1, who, s1.(pending := later))
    decreases |s.pending|
  {
    var all := s.pending + later;
    if s.pending == [] {
      assert all == later;
    } else {
      assert all[0] == s.pending[0] && all[1..] == s.pending[1..] + later;
      var (tag, disposition) := s.pending[0];
      hide Settle;
      var (b1, t1, result) := Settle(b, t, who, tag, disposition);
      if result == Resolved(Done) {
        DrainInPushOrder(b1, t1, who, ConsumerState(Count(s.counters, disposition), s.pending[1..]), later);
      }
    }
  }

  /** With one unresolved delivery at most, only the first of several settlements can succeed. */
  lemma OneSettlementPerPoll(w: World, id: nat, s: ConsumerState, attempts: nat, handlers: Handlers)
    requires WorldOk(w) && id < |w.transports|
    ensures var result := Poll(w.broker, w.transports[id], id, s, attempts, handlers).3;
            |s.pending| >= 2 ==> result.SettleThrew?
  {
    assert TransportOk(w.broker, w.transports[id], id);
    hide WorldOk, DrainSettlements, Pump, HandlerAnswer;
    if |s.pending| >= 2 {
      SecondThrows(w.broker, w.transports[id], id, s);
    }
  }

  lemma SecondThrows(b: BrokerState, t: Transport, who: nat, s: ConsumerState)
    requires |s.pending| >= 2 && forall x, y | x in t.outstanding && y in t.outstanding :: x == y
    ensures DrainSettlements(b, t, who, s).3.Some?
  {
    var (tag, disposition) := s.pending[0];
    var (b1, t1, result) := Settle(b, t, who, tag, disposition);
    if t.connected && disposition != Deferred && tag in t.outstanding {
      ResolveEmpties(b, t, who, tag, disposition);
    }
    assert result == Resolved(Done) ==> t1.outstanding == map[];
    hide Settle;
    if result == Resolved(Done) {
      EmptyHandsThrow(b1, t1, who, ConsumerState(Count(s.counters, disposition), s.pending[1..]));
    }
  }

  lemma EmptyHandsThrow(b: BrokerState, t: Transport, who: nat, s: ConsumerState)
    requires s.pending != [] && t.outstanding == map[]
    ensures DrainSettlements(b, t, who, s).3.Some?
  {
    hide Resolve;
    assert s.pending[0].0 !in t.outstanding;
  }

  lemma ResolveEmpties(b: BrokerState, t: Transport, who: nat, tag: nat, disposition: Disposition)
    requires tag in t.outstanding && disposition != Deferred && forall other | other in t.outstanding :: other == tag
    ensures Resolve(b, t, who, tag, disposition).1.outstanding == map[]
  {
    hide DeadLetter, RequeueFront, Release, End;
    assert Drop(t.outstanding, tag) == map[];
  }

  /** What was attempted is off the queue, the settlement that threw included; what came after it is still there, in order. */
  lemma {:induction false} DrainLeavesTheRest(b: BrokerState, t: Transport, who: nat, s: ConsumerState)
    ensures var (_, _, s1, thrown) := DrainSettlements(b, t, who, s);
            var n := Attempted(b, t, who, s.pending);
            && n <= |s.pending| && s1.pending == s.pending[n..]
            && (thrown.None? ==> n == |s.pending|)
    decreases |s.pending|
  {
    hide Settle;
    if s.pending != [] {
      var (tag, disposition) := s.pending[0];
      var (b1, t1, result) := Settle(b, t, who, tag, disposition);
      if result == Resolved(Done) {
        DrainLeavesTheRest(b1, t1, who, ConsumerState(Count(s.counters, disposition), s.pending[1..]));
      }
    }
  }

  /** poll reports the first settlement's exception as it came, with what that settlement left, and does not pump. */
  lemma ThrownSettlementIsReported(b: BrokerState, t: Transport, who: nat, s: ConsumerState, attempts: nat, handlers: Handlers)
    requires s.pending != []
    ensures var (b1, t1, answer) := Settle(b, t, who, s.pending[0].0, s.pending[0].1);
            var (c, t2, s2, result) := Poll(b, t, who, s, attempts, handlers);
            answer != Resolved(Done) ==>
              result == SettleThrew(answer) && c == b1 && t2 == t1
              && s2.counters == s.counters && s2.pending == s.pending[1..]
  {
    hide Settle, Pump, HandlerAnswer, OnDelivery;
  }

  lemma AckingOne(b: BrokerState, t: Transport, who: nat, s: ConsumerState, tag: nat)
    requires t.connected && t.outstanding.Keys == {tag} && s.pending == [(tag, Ack)]
    ensures var (b1, t1, _) := Settle(b, t, who, tag, Ack);
            && DrainSettlements(b, t, who, s) == (b1, t1, ConsumerState(s.counters.(acked := s.counters.acked + 1), []), None)
            && b1.topics == b.topics && t1 == t.(outstanding := map[], stats := t1.stats)
            && t1.stats.received == t.stats.received
  {
    assert Drop(t.outstanding, tag) == map[];
    assert s.pending[1..] == [];
    var (b1, t1, _) := Settle(b, t, who, tag, Ack);
    var s1 := ConsumerState(s.counters.(acked := s.counters.acked + 1), []);
    assert DrainSettlements(b1, t1, who, s1) == (b1, t1, s1, None);
  }

  /** poll settles before it pumps: the hand a settlement frees takes the next message in the same call. */
  lemma SettlingMakesRoom(b: BrokerState, t: Transport, who: nat, s: ConsumerState, tag: nat, attempts: nat, handlers: Handlers)
    requires t.connected && t.subscribed && t.outstanding.Keys == {tag} && s.pending == [(tag, Ack)]
    requires attempts > 0 && Queue(b, t.topic) != []
    ensures var (c, t1, s1, result) := Poll(b, t, who, s, attempts, handlers);
            && t1.stats.received == t.stats.received + 1 && s1.pending == []
            && s1.counters.acked >= s.counters.acked + 1 && result.Pumped?
  {
    hide Broken, Pump, HandlerAnswer, Decide, IsForensicOf, QueuesAfter, DrainSettlements, Settle;
    var (b1, t1, _) := Settle(b, t, who, tag, Ack);
    AckingOne(b, t, who, s, tag);
    HandlerGetsTheFront(b1, t1, who, attempts, OnDelivery(handlers));
    PumpCarriesOut(b1, t1, who, attempts, OnDelivery(handlers));
  }

  // ---------------------------------------------------------------- poll as a schedule

  /** The actions a drain stands for. */
  function SettlingActions(id: nat, pending: seq<Settlement>): seq<Action> {
    if pending == [] then [] else [Settling(id, pending[0].0, pending[0].1)] + SettlingActions(id, pending[1..])
  }

  /** The settlements a drain gets to, the throwing one included. */
  function Attempted(b: BrokerState, t: Transport, who: nat, pending: seq<Settlement>): nat
    decreases |pending|
  {
    if pending == [] then 0
    else
      var (b1, t1, result) := Settle(b, t, who, pending[0].0, pending[0].1);
      if result == Resolved(Done) then 1 + Attempted(b1, t1, who, pending[1..]) else 1
  }

  lemma {:induction false} AttemptedFits(b: BrokerState, t: Transport, who: nat, pending: seq<Settlement>)
    ensures Attempted(b, t, who, pending) <= |pending|
    decreases |pending|
  {
    hide Settle;
    if pending != [] {
      var (b1, t1, result) := Settle(b, t, who, pending[0].0, pending[0].1);
      AttemptedFits(b1, t1, who, pending[1..]);
    }
  }

  lemma {:induction false} DrainIsASchedule(w: World, id: nat, s: ConsumerState)
    requires id < |w.transports|
    ensures var (b, t, _, _) := DrainSettlements(w.broker, w.transports[id], id, s);
            var n := Attempted(w.broker, w.transports[id], id, s.pending);
            n <= |s.pending| && Put(w, id, b, t) == Run(w, SettlingActions(id, s.pending[..n]))
    decreases |s.pending|
  {
    var t0 := w.transports[id];
    AttemptedFits(w.broker, t0, id, s.pending);
    if s.pending == [] {
      assert w.transports[id := t0] == w.transports;
    } else {
      var (tag, disposition) := s.pending[0];
      hide Settle;
      var (b1, t1, result) := Settle(w.broker, t0, id, tag, disposition);
      var v := Put(w, id, b1, t1);
      var n := Attempted(w.broker, t0, id, s.pending);
      var first := Settling(id, tag, disposition);
      assert Apply(w, first) == v;
      assert s.pending[..n][1..] == s.pending[1..][..n - 1];
      var actions := SettlingActions(id, s.pending[..n]);
      assert actions == [first] + SettlingActions(id, s.pending[1..][..n - 1]);
      assert actions[1..] == SettlingActions(id, s.pending[1..][..n - 1]);
      if result == Resolved(Done) {
        var s1 := ConsumerState(Count(s.counters, disposition), s.pending[1..]);
        DrainIsASchedule(v, id, s1);
        hide Apply;
        var (b2, t2, _, _) := DrainSettlements(b1, t1, id, s1);
        assert Put(v, id, b2, t2) == Put(w, id, b2, t2);
      } else {
        assert s.pending[1..][..0] == [];
      }
    }
  }

  /** The actions one poll stands for: its settlements, then its pump. */
  function PollActions(w: World, id: nat, s: ConsumerState, attempts: nat, handlers: Handlers): seq<Action>
    requires id < |w.transports|
  {
    var (b, t, _, thrown) := DrainSettlements(w.broker, w.transports[id], id, s);
    var n := Attempted(w.broker, w.transports[id], id, s.pending);
    AttemptedFits(w.broker, w.transports[id], id, s.pending);
    SettlingActions(id, s.pending[..n])
    + if thrown.Some? then [] else PumpActions(Put(w, id, b, t), id, attempts, OnDelivery(handlers))
  }

  /** Poll takes no step of its own: it is a schedule, so every guarantee about schedules covers it. */
  lemma PollIsASchedule(w: World, id: nat, s: ConsumerState, attempts: nat, handlers: Handlers)
    requires id < |w.transports|
    ensures var (b, t, _, _) := Poll(w.broker, w.transports[id], id, s, attempts, handlers);
            Put(w, id, b, t) == Run(w, PollActions(w, id, s, attempts, handlers))
  {
    var (b, t, s1, thrown) := DrainSettlements(w.broker, w.transports[id], id, s);
    DrainIsASchedule(w, id, s);
    var v, n := Put(w, id, b, t), Attempted(w.broker, w.transports[id], id, s.pending);
    var settling := SettlingActions(id, s.pending[..n]);
    hide DrainSettlements, Attempted, SettlingActions, OnDelivery;
    if thrown.Some? {
      assert settling + [] == settling;
    } else {
      PumpIsASchedule(v, id, attempts, OnDelivery(handlers));
      RunConcat(w, settling, PumpActions(v, id, attempts, OnDelivery(handlers)));
      hide Pump, PumpActions, Run;
      var (b2, t2, _) := Pump(b, t, id, attempts, OnDelivery(handlers));
      assert Put(v, id, b2, t2) == Put(w, id, b2, t2);
    }
  }
}
