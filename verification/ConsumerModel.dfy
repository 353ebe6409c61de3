/** The policy above the transports: what becomes of a delivery, and how a consumer counts it. */
module ConsumerModel {
  import opened Wrappers
  import opened Seam
  import opened BrokerModel
  import opened TransportModel
  import Envelope

  // ---------------------------------------------------------------- dispatch

  /** What a handler may throw: TransientFailure, another std::exception, or anything else. */
  datatype Exception = TransientFailure | StdException | ForeignException

  /** None: the handler returned. */
  type MessageHandler = string -> Option<Exception>

  type DeferredHandler = (string, nat) -> Result<Disposition, Exception>

  datatype Handlers = Handlers(onMessage: Option<MessageHandler>, onDeferred: Option<DeferredHandler>)

  function ClassifyTransient(redelivered: bool): Disposition {
    if redelivered then Reject else Requeue
  }

  /** Only exceptions derived from std::exception are caught. */
  function Caught(exception: Exception, redelivered: bool): HandlerResult {
    match exception
    case TransientFailure => Returned(ClassifyTransient(redelivered))
    case StdException => Returned(Reject)
    case ForeignException => Threw
  }

  /** `Threw` is a foreign exception passing through. */
  function Dispatch(body: string, handlers: Handlers, redelivered: bool, tag: nat): HandlerResult {
    match Envelope.Decode(Envelope.FORMAT_VERSION, body)
    case Err(_) => Returned(Reject)
    case Ok(payload) =>
      if handlers.onDeferred.Some? then
        match handlers.onDeferred.value(payload, tag)
        case Ok(disposition) => Returned(disposition)
        case Err(exception) => Caught(exception, redelivered)
      else if handlers.onMessage.None? then Returned(Reject)
      else
        match handlers.onMessage.value(payload)
        case None => Returned(Ack)
        case Some(exception) => Caught(exception, redelivered)
  }

  /** The subscription's handler: dispatch, then a backend that cannot requeue gets a rejection instead. */
  function Decide(caps: Capabilities, handlers: Handlers, delivery: Delivery): HandlerResult {
    var result := Dispatch(delivery.body, handlers, delivery.redelivered, delivery.tag);
    if result == Returned(Requeue) && !caps.requeue then Returned(Reject) else result
  }

  function OnDelivery(handlers: Handlers): Delivery -> HandlerResult {
    (delivery: Delivery) => Decide(IN_MEMORY_CAPABILITIES, handlers, delivery)
  }

  // ---------------------------------------------------------------- the consumer's own state

  datatype Counters = Counters(acked: nat, rejected: nat, requeued: nat, deferred: nat)

  type Settlement = (nat, Disposition)

  datatype ConsumerState = ConsumerState(counters: Counters, pending: seq<Settlement>)

  const NEW_CONSUMER := ConsumerState(Counters(0, 0, 0, 0), [])

  function Count(c: Counters, disposition: Disposition): Counters {
    match disposition
    case Ack => c.(acked := c.acked + 1)
    case Reject => c.(rejected := c.rejected + 1)
    case Requeue => c.(requeued := c.requeued + 1)
    case Deferred => c.(deferred := c.deferred + 1)
  }

  /** The counters after pump came back: whatever the handler decided has been counted. */
  function CountAnswer(c: Counters, answer: Option<HandlerResult>): Counters {
    match answer
    case Some(Returned(disposition)) => Count(c, disposition)
    case _ => c
  }

  datatype BuildError = NoHandler | NoManualAcknowledgement | NoDeferredAcknowledgement

  /** The refusals of Consumer's constructor, in order. */
  function CheckHandlers(caps: Capabilities, hasMessage: bool, hasDeferred: bool): Result<(), BuildError> {
    if !hasMessage && !hasDeferred then Err(NoHandler)
    else if !caps.manualAcknowledgement then Err(NoManualAcknowledgement)
    else if hasDeferred && !caps.deferredAcknowledgement then Err(NoDeferredAcknowledgement)
    else Ok(())
  }

  datatype StartResult = OptionsRefused(reason: OptionsError) | NotDeclared(outcome: DeclareOutcome)
    | NotSubscribed(result: SubscribeResult) | Started

  function StartOn(b: BrokerState, t: Transport, topic: Topic, options: TopicOptions, allowAsymmetric: bool)
    : (BrokerState, Transport, StartResult)
  {
    match CheckTopicOptions(IN_MEMORY_CAPABILITIES, options, allowAsymmetric)
    case Err(reason) => (b, t, OptionsRefused(reason))
    case Ok(_) =>
      var (b1, outcome) := Declare(b, t, topic, options);
      if outcome != Answered(Declared) then (b1, t, NotDeclared(outcome))
      else
        var (t1, result) := Subscribe(t, topic);
        (b1, t1, if result == Subscribed then Started else NotSubscribed(result))
  }

  // ---------------------------------------------------------------- poll

  /** Settlements in the order they were pushed, until none is left or settle throws. */
  function DrainSettlements(b: BrokerState, t: Transport, who: nat, s: ConsumerState)
    : (BrokerState, Transport, ConsumerState, Option<SettleResult>)
    decreases |s.pending|
  {
    if s.pending == [] then (b, t, s, None)
    else
      var (tag, disposition) := s.pending[0];
      var (b1, t1, result) := Settle(b, t, who, tag, disposition);
      if result == Resolved(Done) then
        DrainSettlements(b1, t1, who, ConsumerState(Count(s.counters, disposition), s.pending[1..]))
      else (b1, t1, s.(pending := s.pending[1..]), Some(result))
  }

  datatype PollResult = Pumped(result: PumpResult) | SettleThrew(reason: SettleResult)

  predicate ReturnsNormally(result: PollResult) {
    result == Pumped(Alive) || result == Pumped(Gone)
  }

  function Poll(b: BrokerState, t: Transport, who: nat, s: ConsumerState, attempts: nat, handlers: Handlers)
    : (BrokerState, Transport, ConsumerState, PollResult)
  {
    var (b1, t1, s1, thrown) := DrainSettlements(b, t, who, s);
    if thrown.Some? then (b1, t1, s1, SettleThrew(thrown.value))
    else
      var (b2, t2, result) := Pump(b1, t1, who, attempts, OnDelivery(handlers));
      var answer := HandlerAnswer(b1, t1, who, attempts, OnDelivery(handlers));
      (b2, t2, s1.(counters := CountAnswer(s1.counters, answer)), Pumped(result))
  }
}
