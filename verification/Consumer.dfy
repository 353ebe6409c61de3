/** Consumer and SettlementQueue as the source writes them. */
module ConsumerClass {
  import opened Wrappers
  import opened Seam
  import opened BrokerModel
  import opened TransportModel
  import opened ConsumerModel
  import opened InMemory

  class SettlementQueue {
    var pending: seq<Settlement>

    constructor ()
      ensures pending == []
    {
      pending := [];
    }

    method Push(tag: nat, disposition: Disposition)
      modifies this
      ensures pending == old(pending) + [(tag, disposition)]
    {
      pending := pending + [(tag, disposition)];
    }

    /** None once nothing is pending. */
    method TryPop() returns (settlement: Option<Settlement>)
      modifies this
      ensures old(pending) == [] ==> settlement == None && pending == []
      ensures old(pending) != [] ==> settlement == Some(old(pending)[0]) && pending == old(pending)[1..]
    {
      if pending == [] {
        return None;
      }
      settlement := Some(pending[0]);
      pending := pending[1..];
    }
  }

  class Consumer {
    const transport: InMemoryTransport
    const hasMessage: bool
    const hasDeferred: bool
    var acked: nat
    var rejected: nat
    var requeued: nat
    var deferred: nat
    var settlements: SettlementQueue?

    ghost function State(): ConsumerState
      reads this, settlements
    {
      ConsumerState(Counters(acked, rejected, requeued, deferred), if settlements == null then [] else settlements.pending)
    }

    constructor (transport: InMemoryTransport, hasMessage: bool, hasDeferred: bool)
      requires CheckHandlers(IN_MEMORY_CAPABILITIES, hasMessage, hasDeferred).Ok?
      ensures State() == NEW_CONSUMER && this.transport == transport && settlements == null
      ensures this.hasMessage == hasMessage && this.hasDeferred == hasDeferred
    {
      this.transport, this.hasMessage, this.hasDeferred := transport, hasMessage, hasDeferred;
      acked, rejected, requeued, deferred, settlements := 0, 0, 0, 0, null;
    }

    /** Construction with its refusals: over this backend, only having no handler at all is refused. */
    static method Create(transport: InMemoryTransport, hasMessage: bool, hasDeferred: bool)
      returns (consumer: Result<Consumer, BuildError>)
      ensures consumer.Ok? <==> hasMessage || hasDeferred
      ensures consumer.Ok? ==> fresh(consumer.value) && consumer.value.transport == transport
                               && consumer.value.State() == NEW_CONSUMER
      ensures consumer.Err? ==> consumer.error == NoHandler
    {
      var check := CheckHandlers(IN_MEMORY_CAPABILITIES, hasMessage, hasDeferred);
      if check.Err? {
        return Err(check.error);
      }
      var built := new Consumer(transport, hasMessage, hasDeferred);
      return Ok(built);
    }

    method AttachSettlementQueue(queue: SettlementQueue)
      modifies this
      ensures State() == old(State()).(pending := queue.pending) && settlements == queue
    {
      settlements := queue;
    }

    method Start(topic: Topic, options: TopicOptions, allowAsymmetric: bool) returns (result: StartResult)
      modifies transport, transport.broker
      ensures (transport.broker.State(), transport.State(), result)
           == StartOn(old(transport.broker.State()), old(transport.State()), topic, options, allowAsymmetric)
    {
      var check := CheckTopicOptions(IN_MEMORY_CAPABILITIES, options, allowAsymmetric);
      if check.Err? {
        return OptionsRefused(check.error);
      }
      var outcome := transport.EnsureTopic(topic, options);
      if outcome != Answered(Declared) {
        return NotDeclared(outcome);
      }
      var answer := transport.Subscribe(topic);
      return if answer == Subscribed then Started else NotSubscribed(answer);
    }

    /**
     * `handlers` is what the configured handlers do during this call. The closure given to subscribe
     * counts its decision; pump hands it back, and nothing reads the counters in between.
     */
    method Poll(attempts: nat, handlers: Handlers) returns (result: PollResult)
      requires handlers.onMessage.Some? == hasMessage && handlers.onDeferred.Some? == hasDeferred
      modifies this, transport, transport.broker, settlements
      ensures settlements == old(settlements)
      ensures (transport.broker.State(), transport.State(), State(), result)
           == ConsumerModel.Poll(old(transport.broker.State()), old(transport.State()), transport.who, old(State()), attempts, handlers)
    {
      if settlements != null {
        var thrown := SettleAll();
        if thrown.Some? {
          return SettleThrew(thrown.value);
        }
      }
      var pumped, answer := transport.Pump(attempts, OnDelivery(handlers));
      if answer.Some? && answer.value.Returned? {
        Tick(answer.value.disposition);
      }
      return Pumped(pumped);
    }

    /** The settling loop of poll; Some is the exception settle threw. */
    method SettleAll() returns (thrown: Option<SettleResult>)
      requires settlements != null
      modifies this, transport, transport.broker, settlements
      ensures settlements == old(settlements)
      ensures (transport.broker.State(), transport.State(), State(), thrown)
           == DrainSettlements(old(transport.broker.State()), old(transport.State()), transport.who, old(State()))
    {
      var next := settlements.TryPop();
      while next.Some?
        invariant settlements == old(settlements)
        invariant DrainSettlements(old(transport.broker.State()), old(transport.State()), transport.who, old(State()))
               == DrainSettlements(transport.broker.State(), transport.State(), transport.who,
                                   State().(pending := (if next.Some? then [next.value] else []) + settlements.pending))
        invariant next.None? ==> settlements.pending == []
        decreases |settlements.pending| + if next.Some? then 1 else 0
      {
        var (tag, disposition) := next.value;
        ghost var queued := [next.value] + settlements.pending;
        assert queued[1..] == settlements.pending;
        var result := transport.Settle(tag, disposition);
        if result != Resolved(Done) {
          return Some(result);
        }
        Tick(disposition);
        next := settlements.TryPop();
        assert next.Some? ==> [next.value] + settlements.pending == queued[1..];
      }
      return None;
    }

    method Tick(disposition: Disposition)
      modifies `acked, `rejected, `requeued, `deferred
      ensures Counters(acked, rejected, requeued, deferred) == Count(old(Counters(acked, rejected, requeued, deferred)), disposition)
    {
      match disposition
      case Ack => acked := acked + 1;
      case Reject => rejected := rejected + 1;
      case Requeue => requeued := requeued + 1;
      case Deferred => deferred := deferred + 1;
    }
  }
}
