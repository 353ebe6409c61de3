/**
 * The broker's critical sections as functions on its state.
 *
 * The history is not in the program: it remembers, for every sequence number ever stamped,
 * where the copy was published, its bytes and where it is now. Class Broker carries it as a
 * ghost field.
 */
module BrokerModel {
  import opened Wrappers
  import opened Seam
  import opened Names
  import Routes

  datatype TopicState = TopicState(messages: seq<Held>, options: TopicOptions, binding: string)

  /** How a copy's life ended. */
  datatype Fate =
    | Acked(holder: nat)
    | Purged
    | Refused(depth: nat)          // not admitted by a bounded queue that held `depth` messages
    | DeadLettered(copy: nat)      // replaced by one newly stamped copy for the forensic topic
    | Dropped                      // evicted or rejected on a topic declared without deadLetter
    | Lost                         // in the hands of a call that threw logic_error

  datatype Place = Waiting(topic: Topic) | With(holder: nat) | Ended(fate: Fate)

  datatype Stamp = Stamp(topic: Topic, body: string)

  datatype History = History(
    stamps: map<nat, Stamp>,
    places: map<nat, Place>,
    firsts: map<Topic, seq<nat>>,  // first deliveries of each topic, in the order they were taken
    admitted: set<nat>)            // copies ever appended to a queue

  datatype BrokerState = BrokerState(
    topics: map<Topic, TopicState>,
    groups: map<string, Routing>,
    sequence: nat,
    history: History)

  const EMPTY_BROKER := BrokerState(map[], map[], 0, History(map[], map[], map[], {}))

  // ---------------------------------------------------------------- elementary changes

  function PutState(b: BrokerState, topic: Topic, state: TopicState): BrokerState {
    b.(topics := b.topics[topic := state])
  }

  function Queue(b: BrokerState, topic: Topic): seq<Held> {
    if topic in b.topics then b.topics[topic].messages else []
  }

  function SetQueue(b: BrokerState, topic: Topic, messages: seq<Held>): BrokerState
    requires topic in b.topics
  {
    PutState(b, topic, b.topics[topic].(messages := messages))
  }

  function Move(b: BrokerState, n: nat, place: Place): BrokerState {
    b.(history := b.history.(places := b.history.places[n := place]))
  }

  function End(b: BrokerState, n: nat, fate: Fate): BrokerState {
    Move(b, n, Ended(fate))
  }

  /** `++_sequence` for a copy addressed to `topic`. */
  function Restamp(b: BrokerState, topic: Topic, body: string): BrokerState {
    var n := b.sequence + 1;
    b.(sequence := n, history := b.history.(stamps := b.history.stamps[n := Stamp(topic, body)]))
  }

  function Admit(b: BrokerState, n: nat): BrokerState {
    b.(history := b.history.(admitted := b.history.admitted + {n}))
  }

  function PushBack(b: BrokerState, topic: Topic, held: Held): BrokerState
    requires topic in b.topics
  {
    Move(Admit(SetQueue(b, topic, Queue(b, topic) + [held]), held.sequence), held.sequence, Waiting(topic))
  }

  function PushFront(b: BrokerState, topic: Topic, held: Held): BrokerState
    requires topic in b.topics
  {
    Move(SetQueue(b, topic, [held] + Queue(b, topic)), held.sequence, Waiting(topic))
  }

  /** The front copy leaves the queue; its new place is decided by what follows. */
  function DropFront(b: BrokerState, topic: Topic): BrokerState
    requires topic in b.topics && b.topics[topic].messages != []
  {
    var n := b.topics[topic].messages[0].sequence;
    var b1 := SetQueue(b, topic, Queue(b, topic)[1..]);
    b1.(history := b1.history.(places := b1.history.places - {n}))
  }

  /** `_topics[topic]`: creates the entry with default options and an empty binding. */
  function Touch(b: BrokerState, topic: Topic): (r: BrokerState)
    ensures topic in r.topics
  {
    if topic in b.topics then b else PutState(b, topic, TopicState([], DEFAULT_OPTIONS, ""))
  }

  // ---------------------------------------------------------------- overflow and dead-lettering

  /** enqueueLocked's true, its false, and the logic_error it may let through. */
  datatype Verdict = Accepted | Rejected | Failed

  predicate EndsWith(name: Topic, suffix: Topic) {
    |suffix| <= |name| && name[|name| - |suffix|..] == suffix
  }

  lemma ForensicEndsWith(name: Topic, source: Topic)
    requires EndsWith(name, DeadLetterTopic(source))
    ensures EndsWith(name, source) && name != source
  {
    var forensic := DeadLetterTopic(source);
    assert forensic[|forensic| - |source|..] == source;
    assert name[|name| - |forensic|..][|forensic| - |source|..] == name[|name| - |source|..];
  }

  /** Names that dead-lettering from `topic` could still reach; a finite set that shrinks at every step. */
  function LongerNames(b: BrokerState, topic: Topic): set<Topic> {
    set name | name in b.topics && |name| > |topic|
  }

  lemma SameNames(b: BrokerState, c: BrokerState, topic: Topic)
    requires b.topics.Keys == c.topics.Keys
    ensures LongerNames(b, topic) == LongerNames(c, topic)
  {
  }

  lemma NamesShrink(b: BrokerState, c: BrokerState, source: Topic)
    requires b.topics == c.topics && DeadLetterTopic(source) in b.topics
    ensures LongerNames(c, DeadLetterTopic(source)) < LongerNames(b, source)
  {
    assert DeadLetterTopic(source) in LongerNames(b, source);
    assert DeadLetterTopic(source) !in LongerNames(c, DeadLetterTopic(source));
  }

  /** Nothing but queue contents, the counter and the history differs. */
  ghost predicate SameShape(b: BrokerState, c: BrokerState) {
    && b.topics.Keys == c.topics.Keys
    && (forall name | name in b.topics :: c.topics[name].options == b.topics[name].options)
    && (forall name | name in b.topics :: c.topics[name].binding == b.topics[name].binding)
    && b.groups == c.groups
    && b.sequence <= c.sequence
    && b.history.firsts == c.history.firsts
  }

  function Enqueue(b: BrokerState, topic: Topic, held: Held): (r: (BrokerState, Verdict))
    requires topic in b.topics
    ensures SameShape(b, r.0)
    ensures forall name | name in b.topics && !EndsWith(name, topic) :: r.0.topics[name] == b.topics[name]
    decreases LongerNames(b, topic), 1
  {
    var TopicState(messages, options, _) := b.topics[topic];
    if options.maxLength > 0 && |messages| >= options.maxLength then
      match options.overflow
      case DropHead =>
        var evicted := messages[0];
        var (b1, evictedKept) :=
          if options.deadLetter then DeadLetter(DropFront(b, topic), topic, evicted)
          else (End(DropFront(b, topic), evicted.sequence, Dropped), true);
        if evictedKept then (PushBack(b1, topic, held), Accepted)
        else (End(b1, held.sequence, Lost), Failed)
      case RejectPublish =>
        (End(b, held.sequence, Refused(|messages|)), Rejected)
      case RejectPublishDlx =>
        if options.deadLetter then
          var (b1, kept) := DeadLetter(b, topic, held);
          (b1, if kept then Rejected else Failed)
        else (End(b, held.sequence, Refused(|messages|)), Rejected)
    else (PushBack(b, topic, held), Accepted)
  }

  /** deadLetterLocked; the second component is false when it throws. */
  function DeadLetter(b: BrokerState, source: Topic, held: Held): (r: (BrokerState, bool))
    ensures SameShape(b, r.0)
    ensures forall name | name in b.topics && (name == source || !EndsWith(name, source)) :: r.0.topics[name] == b.topics[name]
    decreases LongerNames(b, source), 0
  {
    if source !in b.topics || !b.topics[source].options.deadLetter then
      (End(b, held.sequence, Dropped), true)
    else
      var forensic := DeadLetterTopic(source);
      if forensic !in b.topics then
        (End(b, held.sequence, Lost), false)
      else
        var b1 := Restamp(End(b, held.sequence, DeadLettered(b.sequence + 1)), forensic, held.body);
        var copy := Held(b1.sequence, held.body, false);
        assert forensic in LongerNames(b, source) && forensic !in LongerNames(b1, forensic);
        assert forall name | EndsWith(name, forensic) :: EndsWith(name, source) && name != source by {
          forall name | EndsWith(name, forensic) ensures EndsWith(name, source) && name != source {
            ForensicEndsWith(name, source);
          }
        }
        var (b2, verdict) := Enqueue(b1, forensic, copy);
        (b2, verdict != Failed)
  }

  // ---------------------------------------------------------------- publish

  function PublishTo(b: BrokerState, topic: Topic, body: string): (r: (BrokerState, Verdict))
    requires topic in b.topics
    ensures SameShape(b, r.0)
  {
    var b1 := Restamp(b, topic, body);
    Enqueue(b1, topic, Held(b1.sequence, body, false))
  }

  /** Whether a destination of this binding takes a message published under `key`. */
  predicate Takes(binding: string, routing: Routing, key: string) {
    match routing
    case Broadcast => true
    case Exact => binding == key
    case Pattern => Routes.RouteMatches(binding, key)
  }

  /** Whether a destination of group `group` takes a message published under `key`. */
  predicate Selects(state: TopicState, group: string, routing: Routing, key: string) {
    state.options.group == group && Takes(state.binding, routing, key)
  }

  /** The loop over `_topics`, in key order, for the names not visited yet. */
  ghost function Fanout(b: BrokerState, names: set<Topic>, group: string, routing: Routing, key: string,
                        body: string, accepted: bool): (r: (BrokerState, Verdict))
    requires names <= b.topics.Keys
    ensures SameShape(b, r.0)
    decreases names
  {
    if names == {} then (b, if accepted then Accepted else Rejected)
    else
      var name := Least(names);
      if Selects(b.topics[name], group, routing, key) then
        var (b1, verdict) := PublishTo(b, name, body);
        if verdict == Failed then (b1, Failed)
        else Fanout(b1, names - {name}, group, routing, key, body, verdict == Accepted && accepted)
      else Fanout(b, names - {name}, group, routing, key, body, accepted)
  }

  function GroupOf(b: BrokerState, topic: Topic): string {
    if topic in b.topics then b.topics[topic].options.group else ""
  }

  /** `_groups[group]`: a missing group is created with the first enumerator, Exact. */
  function TouchGroup(b: BrokerState, group: string): BrokerState {
    if group in b.groups then b else b.(groups := b.groups[group := Exact])
  }

  ghost function Publish(b: BrokerState, topic: Topic, body: string, routeOverride: string): (BrokerState, Verdict) {
    var group := GroupOf(b, topic);
    if group == "" then PublishTo(Touch(b, topic), topic, body)
    else
      var b1 := TouchGroup(b, group);
      var key := if routeOverride == "" then b.topics[topic].binding else routeOverride;
      Fanout(b1, b1.topics.Keys, group, b1.groups[group], key, body, true)
  }

  // ---------------------------------------------------------------- the other critical sections

  function Firsts(b: BrokerState, topic: Topic): seq<nat> {
    if topic in b.history.firsts then b.history.firsts[topic] else []
  }

  /** pop_front for transport `who`. */
  function Take(b: BrokerState, topic: Topic, who: nat): (BrokerState, Option<Held>) {
    if Queue(b, topic) == [] then (b, None)
    else
      var held := Queue(b, topic)[0];
      var b1 := Move(DropFront(b, topic), held.sequence, With(who));
      var b2 :=
        if held.redelivered then b1
        else b1.(history := b1.history.(firsts := b1.history.firsts[topic := Firsts(b, topic) + [held.sequence]]));
      (b2, Some(held))
  }

  /** A copy leaves the hands of the transport that held it. */
  function Release(b: BrokerState, n: nat): BrokerState {
    b.(history := b.history.(places := b.history.places - {n}))
  }

  function RequeueFront(b: BrokerState, topic: Topic, held: Held): BrokerState {
    PushFront(Touch(b, topic), topic, held.(redelivered := true))
  }

  ghost function Numbers(messages: seq<Held>): set<nat> {
    set i | 0 <= i < |messages| :: messages[i].sequence
  }

  ghost function Purge(b: BrokerState, topic: Topic): (BrokerState, nat) {
    if topic !in b.topics then (b, 0)
    else
      var purged := map n | n in Numbers(Queue(b, topic)) :: Ended(Purged);
      var b1 := SetQueue(b, topic, []);
      (b1.(history := b1.history.(places := b1.history.places + purged)), |Queue(b, topic)|)
  }

  datatype DeclareResult = Declared | GroupConflict | PropertyConflict

  function BindingOf(topic: Topic, options: TopicOptions): string {
    if options.route == "" then topic else options.route
  }

  function EnsureTopic(b: BrokerState, topic: Topic, options: TopicOptions): (BrokerState, DeclareResult) {
    if options.group != "" && options.group in b.groups && b.groups[options.group] != options.routing then
      (b, GroupConflict)
    else
      var b1 := if options.group == "" then b else b.(groups := b.groups[options.group := options.routing]);
      if topic !in b.topics then
        (PutState(b1, topic, TopicState([], options, BindingOf(topic, options))), Declared)
      else if SameProperties(b.topics[topic].options, options) then (b1, Declared)
      else (b1, PropertyConflict)
  }
}
