/** The vocabulary every layer shares: dispositions, options, stats and the forensic naming rule. */
module Seam {
  import opened Wrappers

  type Topic = string

  datatype Disposition = Ack | Reject | Requeue | Deferred

  datatype Routing = Exact | Pattern | Broadcast

  datatype OverflowPolicy = DropHead | RejectPublish | RejectPublishDlx

  datatype TopicOptions = TopicOptions(
    durable: bool,
    shared: bool,
    deleteWhenUnused: bool,
    deadLetter: bool,
    maxLength: nat,
    overflow: OverflowPolicy,
    group: string,
    route: string,
    routing: Routing)

  const DEFAULT_OPTIONS := TopicOptions(true, true, false, true, 0, DropHead, "", "", Pattern)

  /** The six properties every declarer of a destination must agree on. */
  predicate SameProperties(a: TopicOptions, b: TopicOptions) {
    && a.durable == b.durable
    && a.shared == b.shared
    && a.deleteWhenUnused == b.deleteWhenUnused
    && a.deadLetter == b.deadLetter
    && a.maxLength == b.maxLength
    && a.overflow == b.overflow
  }

  const DEAD_LETTER_EXCHANGE := "motus.dead-letter"
  const DEAD_LETTER_PREFIX := "motus.dead-letter."
  const FORENSIC_MAX_LENGTH: nat := 2000

  function DeadLetterTopic(source: Topic): (forensic: Topic)
    ensures |forensic| > |source|
  {
    DEAD_LETTER_PREFIX + source
  }

  function ForensicTopicOptions(source: Topic): TopicOptions {
    DEFAULT_OPTIONS.(
      group := DEAD_LETTER_EXCHANGE,
      route := source,
      routing := Exact,
      deadLetter := false,
      maxLength := FORENSIC_MAX_LENGTH,
      overflow := RejectPublish)
  }

  datatype ForensicPressure = Normal | NearCap | AtCap

  function Pressure(depth: nat, cap: nat): ForensicPressure {
    if cap == 0 then Normal
    else if depth >= cap then AtCap
    else if depth * 10 >= cap * 9 then NearCap
    else Normal
  }

  datatype Capabilities = Capabilities(
    manualAcknowledgement: bool,
    deadLetter: bool,
    routingGroups: bool,
    requeue: bool,
    deferredAcknowledgement: bool,
    boundedQueue: bool)

  const IN_MEMORY_CAPABILITIES := Capabilities(true, true, true, true, true, true)

  datatype OptionsError = NoDeadLetter | NoRoutingGroups | NoBoundedQueue | Asymmetric

  /** checkTopicOptions: capabilities first, then agreement with the defaults unless opted out. */
  function CheckTopicOptions(caps: Capabilities, options: TopicOptions, allowAsymmetric: bool): Result<(), OptionsError> {
    if options.deadLetter && !caps.deadLetter then Err(NoDeadLetter)
    else if options.group != "" && !caps.routingGroups then Err(NoRoutingGroups)
    else if options.maxLength > 0 && !caps.boundedQueue then Err(NoBoundedQueue)
    else if !allowAsymmetric && !SameProperties(options, DEFAULT_OPTIONS) then Err(Asymmetric)
    else Ok(())
  }

  /** One message in, or taken from, a topic. */
  datatype Held = Held(sequence: nat, body: string, redelivered: bool)

  /** What the transport presents to a handler. */
  datatype Delivery = Delivery(body: string, redelivered: bool, tag: nat)

  datatype Stats = Stats(
    bytesSent: nat,
    bytesReceived: nat,
    sent: nat,
    received: nat,
    acksPerformed: nat,
    rejectsPerformed: nat,
    requeuesPerformed: nat,
    abandoned: nat)

  const NO_STATS := Stats(0, 0, 0, 0, 0, 0, 0, 0)
}
