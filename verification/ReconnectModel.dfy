/**
 * The connection state of SimpleAmqpTransport: losing it, backing off, restoring it, giving up.
 * Library calls appear as steps that succeed or throw, clock readings as inputs.
 */
module ReconnectModel {
  import opened Arithmetic
  import opened Wrappers
  import opened Seam

  // ---------------------------------------------------------------- backoff

  const INT64_MAX: int := 0x7FFF_FFFF_FFFF_FFFF
  const TWO_TO_63: int := 0x8000_0000_0000_0000
  const TWO_TO_64: int := 0x1_0000_0000_0000_0000

  function Pow2(n: nat): (p: nat)
    ensures p >= 1
  {
    if n == 0 then 1 else 2 * Pow2(n - 1)
  }

  /** The low 64 bits of `v` as a signed number. */
  function Wrap(v: int): int {
    (v + TWO_TO_63) % TWO_TO_64 - TWO_TO_63
  }

  /** Milliseconds; both delays are 64-bit counts and `maxAttempts` is unsigned. */
  datatype ReconnectPolicy = ReconnectPolicy(enabled: bool, maxAttempts: nat, initialDelay: int, maxDelay: int)

  const DEFAULT_POLICY := ReconnectPolicy(false, 5, 250, 5000)

  /** What the backoff is meant to be after the k-th consecutive failure. */
  function IntendedDelay(policy: ReconnectPolicy, k: nat): int
    requires k > 0
  {
    Min(policy.maxDelay, policy.initialDelay * Pow2(k - 1))
  }

  /** What it is: `initialDelay.count() << (k - 1)` on a 64-bit count. */
  function Delay(policy: ReconnectPolicy, k: nat): int
    requires k > 0
  {
    Min(policy.maxDelay, Wrap(policy.initialDelay * Pow2(k - 1)))
  }

  // ---------------------------------------------------------------- state

  /** One reconnection attempt; not in the program. `number` counts consecutive attempts from 1. */
  datatype Try = Try(epoch: nat, policy: ReconnectPolicy, number: nat, start: int, failedAt: Option<int>)

  /** A topic declaration put to the library, and whether it went through. */
  datatype Declaration = Declaration(topic: Topic, options: TopicOptions, accepted: bool)

  /**
   * The transport's flags. The last five fields are not in the program: the topic a consumer is
   * registered for on the current channel, the topic the caller subscribed to, how often the policy
   * was set, every attempt and every declaration so far.
   */
  datatype Link = Link(
    channel: bool,
    connected: bool,
    handler: bool,
    subscribed: bool,
    topicDeclared: bool,
    topic: Topic,
    topicOptions: TopicOptions,
    policy: ReconnectPolicy,
    failedAttempts: nat,
    nextAttempt: int,
    reconnects: nat,
    consuming: Option<Topic>,
    wanted: Topic,
    epoch: nat,
    tries: seq<Try>,
    asked: seq<Declaration>)

  const NEW_LINK := Link(false, false, false, false, false, "", DEFAULT_OPTIONS, DEFAULT_POLICY, 0, 0, 0, None, "", 0, [], [])

  /** ready() */
  predicate Ready(l: Link) {
    l.connected && l.channel
  }

  // ---------------------------------------------------------------- calls

  /** openChannel; false when probing or creating the channel throws, and the old channel stays. */
  function OpenChannel(l: Link, opens: bool): (Link, bool) {
    if opens then (l.(channel := true, connected := true, consuming := None), true) else (l, false)
  }

  function Connect(l: Link, opens: bool): Link {
    OpenChannel(l, opens).0
  }

  function Close(l: Link): Link {
    l.(channel := false, connected := false, subscribed := false, handler := false, consuming := None)
  }

  function SetReconnectPolicy(l: Link, policy: ReconnectPolicy): Link {
    l.(policy := policy, failedAttempts := 0, nextAttempt := 0, epoch := l.epoch + 1)
  }

  datatype CallResult = NoChannel | NotCallable | Twice | LibraryThrew | Fine

  function EnsureTopic(l: Link, topic: Topic, options: TopicOptions, accepted: bool): (Link, CallResult) {
    if !l.channel then (l, NoChannel)
    else
      var l1 := l.(asked := l.asked + [Declaration(topic, options, accepted)]);
      if !accepted then (l1, LibraryThrew)
      else (l1.(topic := topic, topicOptions := options, topicDeclared := true), Fine)
  }

  /** BasicConsume on the current channel for the stored topic. */
  function StartConsuming(l: Link, accepted: bool): (Link, bool) {
    if accepted then (l.(consuming := Some(l.topic)), true) else (l, false)
  }

  function Subscribe(l: Link, topic: Topic, callable: bool, accepted: bool): (Link, CallResult) {
    if !l.channel then (l, NoChannel)
    else if !callable then (l, NotCallable)
    else if l.subscribed then (l, Twice)
    else
      var (l1, consuming) := StartConsuming(l.(handler := true, topic := topic), accepted);
      if consuming then (l1.(subscribed := true, wanted := topic), Fine) else (l1, LibraryThrew)
  }

  // ---------------------------------------------------------------- reconnection

  /** The outside world during one call: two clock readings, and which library steps succeed. */
  datatype World = World(now: int, later: int, opens: bool, declares: bool, consumes: bool)

  /** The attempt itself, up to success; false where a step throws. */
  function Restore(l: Link, world: World): (r: (Link, bool))
    ensures r.0.failedAttempts == l.failedAttempts
  {
    var (l1, created) := OpenChannel(l.(channel := false, consuming := None), world.opens);
    if !created then (l1, false)
    else
      var (l2, declared) := if l1.topicDeclared then EnsureTopic(l1, l1.topic, l1.topicOptions, world.declares) else (l1, Fine);
      if declared != Fine then (l2, false)
      else if l2.subscribed then StartConsuming(l2, world.consumes)
      else (l2, true)
  }

  function LogTry(l: Link, start: int, failedAt: Option<int>): Link {
    l.(tries := l.tries + [Try(l.epoch, l.policy, l.failedAttempts, start, failedAt)])
  }

  function Succeed(l: Link, start: int): Link {
    LogTry(l, start, None).(failedAttempts := 0, reconnects := l.reconnects + 1)
  }

  function Fail(l: Link, start: int, later: int): Link
    requires l.failedAttempts > 0
  {
    LogTry(l, start, Some(later)).(nextAttempt := later + Delay(l.policy, l.failedAttempts), connected := false)
  }

  /** One attempt, and what is remembered of it. */
  function Attempt(l: Link, world: World): Link {
    var (l1, restored) := Restore(l.(failedAttempts := l.failedAttempts + 1), world);
    if restored then Succeed(l1, world.now) else Fail(l1, world.now, world.later)
  }

  function ServiceReconnect(l: Link, world: World): (Link, bool) {
    if !l.policy.enabled then (l, false)
    else if l.failedAttempts >= l.policy.maxAttempts then (l, false)
    else if world.now < l.nextAttempt then (l, true)
    else (Attempt(l, world), true)
  }

  datatype Receive = ConnectionLost | NothingYet | Handled | HandlingThrew

  datatype PumpResult = Alive | Dead | PumpThrew

  function Pump(l: Link, world: World, receive: Receive): (Link, PumpResult) {
    if !Ready(l) then
      var (l1, trying) := if l.policy.enabled then ServiceReconnect(l, world) else (l, false);
      (l1, if trying then Alive else Dead)
    else if !l.subscribed || !l.handler then (l, Alive)
    else
      match receive
      case ConnectionLost =>
        var lost := l.(connected := false);
        var (l1, trying) := if l.policy.enabled then ServiceReconnect(lost, world) else (lost, false);
        (l1, if trying then Alive else Dead)
      case NothingYet => (l, Alive)
      case Handled => (l, Alive)
      case HandlingThrew => (l, PumpThrew)
  }

  // ---------------------------------------------------------------- runs

  datatype Op =
    | Connecting(opens: bool)
    | Closing
    | SettingPolicy(policy: ReconnectPolicy)
    | Declaring(topic: Topic, options: TopicOptions, accepted: bool)
    | Subscribing(topic: Topic, callable: bool, accepted: bool)
    | Pumping(world: World, receive: Receive)

  function Apply(l: Link, op: Op): Link {
    match op
    case Connecting(opens) => Connect(l, opens)
    case Closing => Close(l)
    case SettingPolicy(policy) => SetReconnectPolicy(l, policy)
    case Declaring(topic, options, accepted) => EnsureTopic(l, topic, options, accepted).0
    case Subscribing(topic, callable, accepted) => Subscribe(l, topic, callable, accepted).0
    case Pumping(world, receive) => Pump(l, world, receive).0
  }

  function Run(l: Link, ops: seq<Op>): Link
    decreases |ops|
  {
    if ops == [] then l else Run(Apply(l, ops[0]), ops[1..])
  }
}
