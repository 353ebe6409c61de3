/**
 * Any number of transports sharing one broker, interleaved critical section by critical section.
 * An action the program would refuse (not connected, unknown tag, ...) changes nothing.
 */
module Fleet {
  import opened Seam
  import opened BrokerModel
  import opened TransportModel

  /**
   * `provisioned` and `declared` are not in the program: they remember the counter's value when a
   * topic's forensic destination, and then the topic itself, was first declared successfully.
   */
  datatype World = World(
    broker: BrokerState,
    transports: seq<Transport>,
    provisioned: map<Topic, nat>,
    declared: map<Topic, nat>)

  datatype Action =
    | Connecting(id: nat)
    | Provisioning(id: nat, topic: Topic)                        // first half of ensureTopic
    | Declaring(id: nat, topic: Topic, options: TopicOptions)    // second half
    | Sending(id: nat, topic: Topic, payload: string, durable: bool, route: string)
    | Subscribing(id: nat, topic: Topic)
    | Delivering(id: nat)                                        // one turn of pump's loop
    | Finishing(id: nat, tag: nat, result: HandlerResult)        // the handler came back
    | Settling(id: nat, tag: nat, disposition: Disposition)
    | Returning(id: nat)                                         // one turn of close's return loop
    | Disconnecting(id: nat)                                     // the end of close
    | Purging(id: nat, topic: Topic)

  function Start(count: nat): World {
    World(EMPTY_BROKER, seq(count, i => NEW_TRANSPORT), map[], map[])
  }

  function Put(w: World, id: nat, b: BrokerState, t: Transport): World
    requires id < |w.transports|
  {
    w.(broker := b, transports := w.transports[id := t])
  }

  function Note(m: map<Topic, nat>, topic: Topic, now: nat): map<Topic, nat> {
    if topic in m then m else m[topic := now]
  }

  ghost function Apply(w: World, a: Action): World {
    if a.id >= |w.transports| then w
    else
      var b, t := w.broker, w.transports[a.id];
      match a
      case Connecting(id) => Put(w, id, b, Connect(t))
      case Provisioning(id, topic) =>
        if !t.connected then w
        else
          var (b1, result) := EnsureTopic(b, DeadLetterTopic(topic), ForensicTopicOptions(topic));
          w.(broker := b1, provisioned := if result == Declared then Note(w.provisioned, topic, b.sequence) else w.provisioned)
      case Declaring(id, topic, options) =>
        if !t.connected || (options.deadLetter && topic !in w.provisioned) then w
        else
          var (b1, result) := EnsureTopic(b, topic, options);
          w.(broker := b1, declared := if result == Declared then Note(w.declared, topic, b.sequence) else w.declared)
      case Sending(id, topic, payload, durable, route) =>
        var (b1, t1, _) := Send(b, t, topic, payload, durable, route);
        Put(w, id, b1, t1)
      case Subscribing(id, topic) => Put(w, id, b, Subscribe(t, topic).0)
      case Delivering(id) =>
        var (b1, t1, _) := Deliver(b, t, id);
        Put(w, id, b1, t1)
      case Finishing(id, tag, result) =>
        if tag !in t.outstanding then w
        else
          var (b1, t1, _) := Finish(b, t, id, tag, result);
          Put(w, id, b1, t1)
      case Settling(id, tag, disposition) =>
        var (b1, t1, _) := Settle(b, t, id, tag, disposition);
        Put(w, id, b1, t1)
      case Returning(id) =>
        if t.outstanding == map[] then w
        else
          var (b1, t1) := ReturnLatest(b, t);
          Put(w, id, b1, t1)
      case Disconnecting(id) =>
        if t.outstanding != map[] then w else Put(w, id, b, Disconnect(t))
      case Purging(id, topic) =>
        if !t.connected then w else Put(w, id, Purge(b, topic).0, t)
  }

  /** The state after a schedule: every interleaving of every program is one. */
  ghost function Run(w: World, actions: seq<Action>): World
    decreases |actions|
  {
    if actions == [] then w else Run(Apply(w, actions[0]), actions[1..])
  }
}
