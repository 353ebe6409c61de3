/**
 * One InMemoryTransport as a value, and its methods as functions on it and the broker.
 *
 * A handler is present exactly while `subscribed` holds. `returned` and `failed` are not in the
 * program: they count deliveries handed back on close, and rejections whose dead-lettering threw.
 */
module TransportModel {
  import opened Wrappers
  import opened Seam
  import opened BrokerModel

  datatype Transport = Transport(
    connected: bool,
    subscribed: bool,
    topic: Topic,
    outstanding: map<nat, Held>,
    stats: Stats,
    returned: nat,
    failed: nat)

  const NEW_TRANSPORT := Transport(false, false, "", map[], NO_STATS, 0, 0)

  // ---------------------------------------------------------------- connection and declaration

  function Connect(t: Transport): Transport {
    t.(connected := true)
  }

  datatype SubscribeResult = Subscribed | SubscribedBeforeConnect | AlreadySubscribed

  function Subscribe(t: Transport, topic: Topic): (Transport, SubscribeResult) {
    if !t.connected then (t, SubscribedBeforeConnect)
    else if t.subscribed then (t, AlreadySubscribed)
    else (t.(topic := topic, subscribed := true), Subscribed)
  }

  datatype DeclareOutcome = DeclaredBeforeConnect | ForensicRefused(reason: DeclareResult) | Answered(result: DeclareResult)

  /** The forensic destination first, then the topic itself: two critical sections. */
  function Declare(b: BrokerState, t: Transport, topic: Topic, options: TopicOptions): (BrokerState, DeclareOutcome) {
    if !t.connected then (b, DeclaredBeforeConnect)
    else
      var (b1, forensic) :=
        if options.deadLetter then EnsureTopic(b, DeadLetterTopic(topic), ForensicTopicOptions(topic)) else (b, Declared);
      if forensic != Declared then (b1, ForensicRefused(forensic))
      else
        var (b2, result) := EnsureTopic(b1, topic, options);
        (b2, Answered(result))
  }

  // ---------------------------------------------------------------- send

  datatype SendResult = SentBeforeConnect | DurableUnsupported | SendThrew | Sent(accepted: bool)

  ghost function Send(b: BrokerState, t: Transport, topic: Topic, payload: string, durable: bool, route: string)
    : (BrokerState, Transport, SendResult)
  {
    if !t.connected then (b, t, SentBeforeConnect)
    else if durable then (b, t, DurableUnsupported)
    else
      var (b1, verdict) := Publish(b, topic, payload, route);
      if verdict == Failed then (b1, t, SendThrew)
      else
        var stats := t.stats.(sent := t.stats.sent + 1, bytesSent := t.stats.bytesSent + |payload|);
        (b1, t.(stats := stats), Sent(verdict == Accepted))
  }

  // ---------------------------------------------------------------- pump

  /** Whether pump's loop would try to take a message. */
  predicate Idle(t: Transport) {
    t.connected && t.subscribed && t.outstanding == map[]
  }

  /** One turn of pump's loop up to the handler call. */
  function Deliver(b: BrokerState, t: Transport, who: nat): (BrokerState, Transport, Option<Delivery>) {
    if !Idle(t) then (b, t, None)
    else
      match Take(b, t.topic, who)
      case (_, None) => (b, t, None)
      case (b1, Some(held)) =>
        var stats := t.stats.(received := t.stats.received + 1, bytesReceived := t.stats.bytesReceived + |held.body|);
        (b1,
         t.(stats := stats, outstanding := t.outstanding[held.sequence := held]),
         Some(Delivery(held.body, held.redelivered, held.sequence)))
  }

  datatype HandlerResult = Returned(disposition: Disposition) | Threw

  /** What pump or settle reports: nothing, the handler's exception, or dead-lettering's logic_error. */
  datatype Completion = Done | Rethrown | DeadLetterThrew

  function Drop(m: map<nat, Held>, tag: nat): map<nat, Held> {
    m - {tag}
  }

  /** Erase the delivery, then perform its disposition at the broker. */
  function Resolve(b: BrokerState, t: Transport, who: nat, tag: nat, disposition: Disposition)
    : (BrokerState, Transport, Completion)
    requires tag in t.outstanding && disposition != Deferred
  {
    var held := t.outstanding[tag];
    var b1, t1 := Release(b, held.sequence), t.(outstanding := Drop(t.outstanding, tag));
    match disposition
    case Ack =>
      (End(b1, held.sequence, Acked(who)), t1.(stats := t.stats.(acksPerformed := t.stats.acksPerformed + 1)), Done)
    case Requeue =>
      (RequeueFront(b1, t.topic, held), t1.(stats := t.stats.(requeuesPerformed := t.stats.requeuesPerformed + 1)), Done)
    case Reject =>
      var (b2, kept) := DeadLetter(b1, t.topic, held);
      if kept then (b2, t1.(stats := t.stats.(rejectsPerformed := t.stats.rejectsPerformed + 1)), Done)
      else (b2, t1.(failed := t.failed + 1), DeadLetterThrew)
  }

  /** pump after the handler call. */
  function Finish(b: BrokerState, t: Transport, who: nat, tag: nat, result: HandlerResult): (BrokerState, Transport, Completion)
    requires tag in t.outstanding
  {
    match result
    case Threw => (b, t.(stats := t.stats.(abandoned := t.stats.abandoned + 1)), Rethrown)
    case Returned(Deferred) => (b, t, Done)
    case Returned(disposition) => Resolve(b, t, who, tag, disposition)
  }

  datatype PumpResult = Gone | Alive | PumpThrew(completion: Completion)

  /**
   * pump: at most `attempts` turns of its loop before the slice is over, each finding the broker as
   * the last one left it. What other transports do between two turns is the interleaving model's
   * business (module Fleet).
   */
  function Pump(b: BrokerState, t: Transport, who: nat, attempts: nat, handler: Delivery -> HandlerResult)
    : (BrokerState, Transport, PumpResult)
  {
    if !t.connected then (b, t, Gone)
    else if attempts == 0 then (b, t, Alive)
    else
      match Deliver(b, t, who)
      case (b1, t1, None) => (b1, t1, Alive)
      case (b1, t1, Some(delivery)) =>
        assert delivery.tag in t1.outstanding;
        var (b2, t2, completion) := Finish(b1, t1, who, delivery.tag, handler(delivery));
        (b2, t2, if completion == Done then Alive else PumpThrew(completion))
  }

  /** What the handler answered during that call of pump, if it was called at all. */
  function HandlerAnswer(b: BrokerState, t: Transport, who: nat, attempts: nat, handler: Delivery -> HandlerResult)
    : Option<HandlerResult>
  {
    if !t.connected || attempts == 0 then None
    else
      match Deliver(b, t, who).2
      case None => None
      case Some(delivery) => Some(handler(delivery))
  }

  // ---------------------------------------------------------------- settle and close

  datatype SettleResult = SettledBeforeConnect | CannotDeferAgain | UnknownTag | Resolved(completion: Completion)

  function Settle(b: BrokerState, t: Transport, who: nat, tag: nat, disposition: Disposition)
    : (BrokerState, Transport, SettleResult)
  {
    if !t.connected then (b, t, SettledBeforeConnect)
    else if disposition == Deferred then (b, t, CannotDeferAgain)
    else if tag !in t.outstanding then (b, t, UnknownTag)
    else
      var (b1, t1, completion) := Resolve(b, t, who, tag, disposition);
      (b1, t1, Resolved(completion))
  }

  predicate IsGreatest(n: nat, numbers: set<nat>) {
    n in numbers && forall m | m in numbers :: m <= n
  }

  lemma {:induction false} GreatestExists(numbers: set<nat>)
    requires numbers != {}
    ensures exists n :: IsGreatest(n, numbers)
  {
    var n :| n in numbers;
    var others := numbers - {n};
    if others == {} {
      assert numbers == {n};
      assert IsGreatest(n, numbers);
    } else {
      GreatestExists(others);
      var top :| IsGreatest(top, others);
      assert numbers == others + {n};
      assert IsGreatest(if n <= top then top else n, numbers);
    }
  }

  /** The tag a reverse walk over `_outstanding` visits first. */
  ghost function Greatest(numbers: set<nat>): (n: nat)
    requires numbers != {}
    ensures IsGreatest(n, numbers)
  {
    GreatestExists(numbers);
    var n :| IsGreatest(n, numbers);
    n
  }

  /** One critical section of the return loop: the latest outstanding delivery goes back to the front. */
  ghost function ReturnLatest(b: BrokerState, t: Transport): (BrokerState, Transport)
    requires t.outstanding != map[]
  {
    var tag := Greatest(t.outstanding.Keys);
    var held := t.outstanding[tag];
    (RequeueFront(Release(b, held.sequence), t.topic, held),
     t.(outstanding := Drop(t.outstanding, tag), returned := t.returned + 1))
  }

  ghost function ReturnAll(b: BrokerState, t: Transport): (BrokerState, Transport)
    decreases t.outstanding.Keys
  {
    if t.outstanding == map[] then (b, t)
    else
      var tag := Greatest(t.outstanding.Keys);
      assert Drop(t.outstanding, tag).Keys == t.outstanding.Keys - {tag};
      var (b1, t1) := ReturnLatest(b, t);
      ReturnAll(b1, t1)
  }

  lemma ReturnAllStep(b: BrokerState, t: Transport, tag: nat)
    requires IsGreatest(tag, t.outstanding.Keys)
    ensures ReturnAll(b, t) == ReturnAll(RequeueFront(Release(b, t.outstanding[tag].sequence), t.topic, t.outstanding[tag]),
                                         t.(outstanding := Drop(t.outstanding, tag), returned := t.returned + 1))
    ensures Drop(t.outstanding, tag).Keys == t.outstanding.Keys - {tag}
  {
    assert tag == Greatest(t.outstanding.Keys);
    assert ReturnAll(b, t) == ReturnAll(ReturnLatest(b, t).0, ReturnLatest(b, t).1);
  }

  /** The rest of close(), once nothing is outstanding. */
  function Disconnect(t: Transport): Transport {
    t.(connected := false, subscribed := false, topic := "")
  }

  ghost function Close(b: BrokerState, t: Transport): (BrokerState, Transport) {
    var (b1, t1) := ReturnAll(b, t);
    (b1, Disconnect(t1))
  }
}
