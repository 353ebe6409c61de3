/** What reconnection keeps over any run of losses, failed attempts and clock readings. */
module ReconnectLaws {
  import opened Wrappers
  import opened Seam
  import opened ReconnectModel

  // ---------------------------------------------------------------- attempts and backoff

  predicate Continues(before: Try, next: Try) {
    before.epoch == next.epoch && before.failedAt.Some?
  }

  /** Attempts after a failure under the same policy count on, and wait out the backoff. */
  predicate Spaced(tries: seq<Try>) {
    && (forall i | 0 <= i < |tries| :: 1 <= tries[i].number <= tries[i].policy.maxAttempts && tries[i].policy.enabled)
    && (tries != [] ==> tries[0].number == 1)
    && (forall i | 0 < i < |tries| ::
          if Continues(tries[i - 1], tries[i])
          then && tries[i].policy == tries[i - 1].policy && tries[i].number == tries[i - 1].number + 1
               && tries[i].start >= tries[i - 1].failedAt.value + Delay(tries[i - 1].policy, tries[i - 1].number)
          else tries[i].number == 1)
  }

  /** The attempts counted by `failedAttempts` are the last ones made, all failed. */
  predicate Counted(l: Link) {
    && l.failedAttempts <= l.policy.maxAttempts
    && (forall i | 0 <= i < |l.tries| :: l.tries[i].epoch <= l.epoch)
    && if l.tries != [] && l.tries[|l.tries| - 1].epoch == l.epoch && l.tries[|l.tries| - 1].failedAt.Some?
       then var last := l.tries[|l.tries| - 1];
            && last.policy == l.policy && l.failedAttempts == last.number >= 1
            && l.nextAttempt == last.failedAt.value + Delay(l.policy, last.number)
       else l.failedAttempts == 0
  }

  lemma RestoreKeeps(l: Link, world: World)
    ensures var l1 := Restore(l, world).0;
            && l1.policy == l.policy && l1.tries == l.tries && l1.epoch == l.epoch
            && l1.failedAttempts == l.failedAttempts && l1.nextAttempt == l.nextAttempt
  {
  }

  /** What a further attempt must satisfy, given the ones before it. */
  predicate Follows(tries: seq<Try>, next: Try) {
    && 1 <= next.number <= next.policy.maxAttempts && next.policy.enabled
    && if tries != [] && Continues(tries[|tries| - 1], next)
       then var last := tries[|tries| - 1];
            && last.number >= 1 && next.policy == last.policy && next.number == last.number + 1
            && next.start >= last.failedAt.value + Delay(last.policy, last.number)
       else next.number == 1
  }

  lemma SpacedAppend(tries: seq<Try>, next: Try)
    requires Spaced(tries) && Follows(tries, next)
    ensures Spaced(tries + [next])
  {
    hide Delay;
    var longer := tries + [next];
    assert forall i | 0 <= i < |tries| :: longer[i] == tries[i];
  }

  lemma NextFollows(l: Link, world: World, failedAt: Option<int>)
    requires Spaced(l.tries) && Counted(l)
    requires l.policy.enabled && l.failedAttempts < l.policy.maxAttempts && world.now >= l.nextAttempt
    ensures Follows(l.tries, Try(l.epoch, l.policy, l.failedAttempts + 1, world.now, failedAt))
  {
    hide Delay;
  }

  lemma ServiceSpaces(l: Link, world: World)
    requires Spaced(l.tries) && Counted(l)
    ensures var l1 := ServiceReconnect(l, world).0; Spaced(l1.tries) && Counted(l1)
  {
    hide Restore, Delay, Spaced, Follows;
    RestoreKeeps(l.(failedAttempts := l.failedAttempts + 1), world);
    if l.policy.enabled && l.failedAttempts < l.policy.maxAttempts && world.now >= l.nextAttempt {
      var failedAt := if Restore(l.(failedAttempts := l.failedAttempts + 1), world).1 then None else Some(world.later);
      var next := Try(l.epoch, l.policy, l.failedAttempts + 1, world.now, failedAt);
      NextFollows(l, world, failedAt);
      SpacedAppend(l.tries, next);
      assert ServiceReconnect(l, world).0.tries == l.tries + [next];
    }
  }

  lemma PumpSpaces(l: Link, world: World, receive: Receive)
    requires Spaced(l.tries) && Counted(l)
    ensures var l1 := Pump(l, world, receive).0; Spaced(l1.tries) && Counted(l1)
  {
    hide ServiceReconnect, Delay, Spaced;
    var lost := l.(connected := false);
    assert Counted(lost);
    hide Counted;
    ServiceSpaces(l, world);
    ServiceSpaces(lost, world);
  }

  lemma ApplySpaces(l: Link, op: Op)
    requires Spaced(l.tries) && Counted(l)
    ensures var l1 := Apply(l, op); Spaced(l1.tries) && Counted(l1)
  {
    hide Pump, Delay, Spaced;
    if op.Pumping? {
      PumpSpaces(l, op.world, op.receive);
    }
  }

  lemma {:induction false} RunSpaces(l: Link, ops: seq<Op>)
    requires Spaced(l.tries) && Counted(l)
    ensures Spaced(Run(l, ops).tries) && Counted(Run(l, ops))
    decreases |ops|
  {
    hide Spaced, Counted, Apply;
    if ops != [] {
      ApplySpaces(l, ops[0]);
      RunSpaces(Apply(l, ops[0]), ops[1..]);
    }
  }

  /**
   * Over any run: never more than maxAttempts consecutive failures, and an attempt that follows the
   * k-th failure in a row starts no sooner than Delay(k) after that failure.
   */
  lemma AttemptsAreBoundedAndSpaced(ops: seq<Op>)
    ensures var l := Run(NEW_LINK, ops);
            && l.failedAttempts <= l.policy.maxAttempts
            && Spaced(l.tries)
  {
    RunSpaces(NEW_LINK, ops);
    hide Run;
  }

  // ---------------------------------------------------------------- the shift

  predicate InRange(policy: ReconnectPolicy) {
    0 <= policy.initialDelay <= INT64_MAX && policy.maxDelay <= INT64_MAX
  }

  /** The backoff is the intended one exactly when the shift does not overflow, or its wrapped value reaches the cap. */
  lemma DelayIsIntendedIff(policy: ReconnectPolicy, k: nat)
    requires InRange(policy) && k > 0
    ensures var shifted := policy.initialDelay * Pow2(k - 1);
            Delay(policy, k) == IntendedDelay(policy, k) <==> shifted <= INT64_MAX || Wrap(shifted) >= policy.maxDelay
  {
    var shifted := policy.initialDelay * Pow2(k - 1);
    assert shifted >= 0;
    if shifted <= INT64_MAX {
      assert (shifted + TWO_TO_63) % TWO_TO_64 == shifted + TWO_TO_63;
    }
  }

  lemma {:induction false} Pow2Grows(m: nat, n: nat)
    requires m <= n
    ensures Pow2(m) <= Pow2(n)
    decreases n - m
  {
    if m < n {
      Pow2Grows(m, n - 1);
    }
  }

  /** Even the shift of the last attempt the policy allows fits 64 bits. */
  predicate ShiftFits(policy: ReconnectPolicy) {
    InRange(policy) && (policy.maxAttempts > 0 ==> policy.initialDelay * Pow2(policy.maxAttempts - 1) <= INT64_MAX)
  }

  /** A policy whose last possible shift fits is backed off as intended at every attempt it allows. */
  lemma FittingPolicyIsIntended(policy: ReconnectPolicy, k: nat)
    requires ShiftFits(policy) && 1 <= k <= policy.maxAttempts
    ensures Delay(policy, k) == IntendedDelay(policy, k)
  {
    hide Pow2, Delay, IntendedDelay;
    Pow2Grows(k - 1, policy.maxAttempts - 1);
    TimesGrows(policy.initialDelay, Pow2(k - 1), Pow2(policy.maxAttempts - 1));
    DelayIsIntendedIff(policy, k);
  }

  lemma TimesGrows(x: int, a: int, b: int)
    requires x >= 0 && a <= b
    ensures x * a <= x * b
  {
  }

  /** The backoff over any run: attempt k + 1 starts no sooner than min(maxDelay, initialDelay * 2^(k-1)) after failure k. */
  lemma BackoffIsKept(ops: seq<Op>, i: nat)
    requires var tries := Run(NEW_LINK, ops).tries;
             && 0 < i < |tries| && Continues(tries[i - 1], tries[i])
             && ShiftFits(tries[i].policy)
    ensures var tries := Run(NEW_LINK, ops).tries;
            && tries[i - 1].number >= 1 && tries[i].number == tries[i - 1].number + 1
            && tries[i].start >= tries[i - 1].failedAt.value + IntendedDelay(tries[i].policy, tries[i - 1].number)
  {
    AttemptsAreBoundedAndSpaced(ops);
    hide Run, Delay, IntendedDelay, Pow2, ShiftFits;
    var tries := Run(NEW_LINK, ops).tries;
    FittingPolicyIsIntended(tries[i].policy, tries[i - 1].number);
  }

  /** The shipped defaults fit: 250, 500, 1000, 2000, 4000 ms for five attempts; more would be capped at 5000. */
  lemma DefaultPolicyFits(k: nat)
    requires 1 <= k
    ensures k <= 5 <==> k <= DEFAULT_POLICY.maxAttempts
    ensures k <= 5 ==> Delay(DEFAULT_POLICY, k) == 250 * Pow2(k - 1) <= 4000
    ensures k > 5 ==> IntendedDelay(DEFAULT_POLICY, k) == 5000
  {
    assert Pow2(4) == 16;
    if k <= 5 {
      FittingPolicyIsIntended(DEFAULT_POLICY, k);
      Pow2Grows(k - 1, 4);
    } else {
      Pow2Grows(5, k - 1);
    }
  }

  lemma {:induction false} Pow2Adds(m: nat, n: nat)
    ensures Pow2(m + n) == Pow2(m) * Pow2(n)
    decreases m
  {
    if m > 0 {
      Pow2Adds(m - 1, n);
    }
  }

  /** With a 1 ms initial delay the 64th failure in a row shifts into the sign bit: no backoff at all. */
  lemma ShiftCanOverflow()
    ensures var policy := ReconnectPolicy(true, 100, 1, 5000);
            Delay(policy, 64) < 0 && IntendedDelay(policy, 64) == 5000
  {
    assert Pow2(7) == 128;
    Pow2Adds(7, 7);
    Pow2Adds(14, 14);
    Pow2Adds(28, 28);
    Pow2Adds(56, 7);
    assert Pow2(63) == TWO_TO_63;
  }

  // ---------------------------------------------------------------- giving up

  /** Not connected, and nothing pump may try. */
  predicate GivenUp(l: Link) {
    !Ready(l) && (!l.policy.enabled || l.failedAttempts >= l.policy.maxAttempts)
  }

  predicate Revives(op: Op) {
    op.SettingPolicy? || op == Connecting(true)
  }

  /** From then on every pump answers false and tries nothing, until the policy is set again or the caller reconnects. */
  lemma {:induction false} GivesUpForGood(l: Link, ops: seq<Op>, world: World, receive: Receive)
    requires GivenUp(l) && forall i | 0 <= i < |ops| :: !Revives(ops[i])
    ensures var l1 := Run(l, ops);
            && GivenUp(l1) && l1.tries == l.tries
            && Pump(l1, world, receive) == (l1, Dead)
    decreases |ops|
  {
    if ops != [] {
      assert !Revives(ops[0]);
      var next := Apply(l, ops[0]);
      assert GivenUp(next) && next.tries == l.tries;
      GivesUpForGood(next, ops[1..], world, receive);
    }
  }

  /** The state once the receive, if pump got to make one, has come back. */
  function AfterReceive(l: Link, receive: Receive): Link {
    if Ready(l) && l.subscribed && l.handler && receive == ConnectionLost then l.(connected := false) else l
  }

  /** pump answers false exactly when the connection is gone and no attempt may be made; it stays alive while backing off. */
  lemma DeadMeansGivenUp(l: Link, world: World, receive: Receive)
    ensures var (l1, result) := Pump(l, world, receive);
            && (result == Dead <==> GivenUp(AfterReceive(l, receive)))
            && (result == Dead ==> l1 == AfterReceive(l, receive))
  {
    hide Attempt;
  }

  /**
   * pump's three answers. It throws exactly when a usable, subscribed transport received a message whose
   * handling threw; it says dead exactly when the connection is gone for good; anything else, a handled
   * message, an empty slice, a transport backing off or just tried, is alive.
   */
  lemma PumpSays(l: Link, world: World, receive: Receive)
    ensures var (l1, result) := Pump(l, world, receive);
            var receives := l.connected && l.channel && l.subscribed && l.handler;
            var lost := !(l.connected && l.channel) || (receives && receive == ConnectionLost);
            var mayTry := l.policy.enabled && l.failedAttempts < l.policy.maxAttempts;
            && (result == PumpThrew <==> receives && receive == HandlingThrew)
            && (result == Dead <==> lost && !mayTry)
            && (result == Alive <==> if lost then mayTry else !(receives && receive == HandlingThrew))
            && (!lost ==> l1 == l)
  {
    hide Attempt;
  }

  /** The attempt's steps all have to succeed, and leave everything alone but the channel and the consumer. */
  lemma RestoreSays(l: Link, world: World)
    ensures var (l1, restored) := Restore(l, world);
            && (restored <==> world.opens && (l.topicDeclared ==> world.declares) && (l.subscribed ==> world.consumes))
            && (restored ==> Ready(l1))
            && l1.topic == l.topic && l1.subscribed == l.subscribed && l1.handler == l.handler && l1.reconnects == l.reconnects
  {
  }

  lemma AttemptSays(l: Link, world: World)
    ensures var l1 := Attempt(l, world);
            var restored := world.opens && (l.topicDeclared ==> world.declares) && (l.subscribed ==> world.consumes);
            && |l1.tries| == |l.tries| + 1 && l1.topic == l.topic
            && (Ready(l1) <==> restored)
            && l1.failedAttempts == (if restored then 0 else l.failedAttempts + 1)
            && l1.reconnects == l.reconnects + (if restored then 1 else 0)
            && (!restored ==> l1.nextAttempt == world.later + Delay(l.policy, l.failedAttempts + 1))
            && l1.asked == Restore(l.(failedAttempts := l.failedAttempts + 1), world).0.asked
            && l1.topicDeclared == Restore(l.(failedAttempts := l.failedAttempts + 1), world).0.topicDeclared
            && l1.topicOptions == Restore(l.(failedAttempts := l.failedAttempts + 1), world).0.topicOptions
  {
    hide Restore, Delay;
    RestoreKeeps(l.(failedAttempts := l.failedAttempts + 1), world);
    RestoreSays(l.(failedAttempts := l.failedAttempts + 1), world);
  }

  /** An attempt is made exactly when the connection is lost, the policy allows another and the backoff is over. */
  lemma AttemptIff(l: Link, world: World, receive: Receive)
    ensures var l1 := Pump(l, world, receive).0;
            var lost := AfterReceive(l, receive);
            var attempts := !Ready(lost) && l.policy.enabled && l.failedAttempts < l.policy.maxAttempts && world.now >= l.nextAttempt;
            var restored := world.opens && (l.topicDeclared ==> world.declares) && (l.subscribed ==> world.consumes);
            && |l1.tries| == |l.tries| + (if attempts then 1 else 0)
            && (!attempts ==> l1 == lost)
            && (attempts ==>
                  && (Ready(l1) <==> restored)
                  && l1.failedAttempts == (if restored then 0 else l.failedAttempts + 1)
                  && l1.reconnects == l.reconnects + (if restored then 1 else 0)
                  && (!restored ==> l1.nextAttempt == world.later + Delay(l.policy, l.failedAttempts + 1)))
  {
    hide Attempt, Delay;
    AttemptSays(AfterReceive(l, receive), world);
  }

  /** Setting a policy starts over: on a lost connection the very next pump tries, whatever failed before. */
  lemma PolicyStartsOver(l: Link, policy: ReconnectPolicy, world: World, receive: Receive)
    requires !Ready(l) && world.now >= 0
    ensures var l1 := SetReconnectPolicy(l, policy);
            && l1.policy == policy && l1.failedAttempts == 0
            && (|Pump(l1, world, receive).0.tries| > |l.tries| <==> policy.enabled && policy.maxAttempts > 0)
  {
    AttemptIff(SetReconnectPolicy(l, policy), world, receive);
    hide Pump;
  }

  /** Out of the box a lost connection is final: reconnection is off until a policy turns it on. */
  lemma OffByDefault(ops: seq<Op>, world: World, receive: Receive)
    requires forall i | 0 <= i < |ops| :: !ops[i].SettingPolicy?
    ensures var l := Run(NEW_LINK, ops); !l.policy.enabled && l.tries == [] && Pump(l, world, receive).0.tries == []
  {
    StaysOff(NEW_LINK, ops);
    PumpSays(Run(NEW_LINK, ops), world, receive);
    AttemptIff(Run(NEW_LINK, ops), world, receive);
    hide Run, Pump;
  }

  lemma {:induction false} StaysOff(l: Link, ops: seq<Op>)
    requires !l.policy.enabled && l.tries == [] && forall i | 0 <= i < |ops| :: !ops[i].SettingPolicy?
    ensures !Run(l, ops).policy.enabled && Run(l, ops).tries == []
    decreases |ops|
  {
    if ops != [] {
      StaysOff(Apply(l, ops[0]), ops[1..]);
    }
  }

  // ---------------------------------------------------------------- what the calls say

  /** The refusals of ensureTopic and subscribe, in their order. */
  lemma CallsSay(l: Link, topic: Topic, options: TopicOptions, callable: bool, accepted: bool)
    ensures var result := EnsureTopic(l, topic, options, accepted).1;
            && (result == NoChannel <==> !l.channel)
            && (result == LibraryThrew <==> l.channel && !accepted)
            && (result == Fine <==> l.channel && accepted)
    ensures var (l1, result) := Subscribe(l, topic, callable, accepted);
            && (result == NoChannel <==> !l.channel)
            && (result == NotCallable <==> l.channel && !callable)
            && (result == Twice <==> l.channel && callable && l.subscribed)
            && (result == LibraryThrew <==> l.channel && callable && !l.subscribed && !accepted)
            && (result == Fine <==> l.channel && callable && !l.subscribed && accepted)
            && (result == Fine ==> l1.subscribed && l1.topic == topic && l1.consuming == Some(topic))
            && (result != Fine ==> l1.subscribed == l.subscribed && l1.consuming == l.consuming)
  {
  }

  /** connect makes a transport usable or changes nothing; close drops all but policy, declaration and what was counted. */
  lemma ConnectAndCloseSay(l: Link, opens: bool)
    ensures Connect(l, opens) == if opens then l.(channel := true, connected := true, consuming := None) else l
    ensures var l1 := Close(l);
            && !l1.channel && !l1.connected && !l1.handler && !l1.subscribed && l1.consuming == None
            && l1 == l.(channel := false, connected := false, handler := false, subscribed := false, consuming := None)
  {
  }

  // ---------------------------------------------------------------- redeclaring what was declared

  /** The last declaration that went through. */
  function LastAccepted(asked: seq<Declaration>): Option<Declaration> {
    if asked == [] then None
    else if asked[|asked| - 1].accepted then Some(asked[|asked| - 1])
    else LastAccepted(asked[..|asked| - 1])
  }

  /** The options remembered are those of the last declaration that went through, if any did. */
  predicate Remembers(l: Link) {
    var last := LastAccepted(l.asked);
    && (l.topicDeclared <==> last.Some?)
    && (last.Some? ==> l.topicOptions == last.value.options)
  }

  lemma AskedOnce(l: Link, topic: Topic, options: TopicOptions, accepted: bool)
    requires Remembers(l)
    ensures Remembers(EnsureTopic(l, topic, options, accepted).0)
  {
    var asked := l.asked + [Declaration(topic, options, accepted)];
    assert asked[..|asked| - 1] == l.asked;
  }

  /** What one attempt asks of the library: the remembered declaration once, if there is one and the channel opened. */
  lemma RestoreAsks(l: Link, world: World)
    ensures Restore(l, world).0.asked
         == l.asked + if world.opens && l.topicDeclared then [Declaration(l.topic, l.topicOptions, world.declares)] else []
    ensures Remembers(l) ==> Remembers(Restore(l, world).0)
  {
    var l1 := OpenChannel(l.(channel := false, consuming := None), world.opens).0;
    assert l.asked + [] == l.asked;
    if Remembers(l) {
      AskedOnce(l1, l1.topic, l1.topicOptions, world.declares);
    }
    hide LastAccepted;
  }

  lemma PumpAsks(l: Link, world: World, receive: Receive)
    ensures var l1 := Pump(l, world, receive).0;
            && l1.asked == l.asked + (if |l1.tries| > |l.tries| && world.opens && l.topicDeclared
                                      then [Declaration(l.topic, l.topicOptions, world.declares)] else [])
            && (Remembers(l) ==> Remembers(l1))
  {
    hide Restore, Attempt, Delay, LastAccepted;
    var lost := AfterReceive(l, receive);
    RestoreAsks(lost.(failedAttempts := l.failedAttempts + 1), world);
    AttemptSays(lost, world);
    assert l.asked + [] == l.asked;
  }

  lemma {:induction false} RunRemembers(l: Link, ops: seq<Op>)
    requires Remembers(l)
    ensures Remembers(Run(l, ops))
    decreases |ops|
  {
    hide Pump, LastAccepted;
    if ops != [] {
      var op := ops[0];
      if op.Pumping? {
        PumpAsks(l, op.world, op.receive);
      } else if op.Declaring? {
        AskedOnce(l, op.topic, op.options, op.accepted);
      }
      RunRemembers(Apply(l, op), ops[1..]);
    }
  }

  /**
   * After any run, an attempt that opens the channel redeclares once, with the options of the last
   * declaration that went through, never with others; an attempt before any declaration, or one that
   * cannot open the channel, and a pump that makes no attempt, declare nothing.
   */
  lemma RedeclaresAsDeclared(ops: seq<Op>, world: World, receive: Receive)
    ensures var l := Run(NEW_LINK, ops);
            var l1 := Pump(l, world, receive).0;
            var last := LastAccepted(l.asked);
            l1.asked == l.asked + if |l1.tries| > |l.tries| && world.opens && last.Some?
                                  then [Declaration(l.topic, last.value.options, world.declares)] else []
  {
    RunRemembers(NEW_LINK, ops);
    PumpAsks(Run(NEW_LINK, ops), world, receive);
    hide Run, Pump, LastAccepted;
  }

  /** The topic it is redeclared under is the one declared or subscribed to last. */
  lemma TopicFollowsCalls(l: Link, op: Op)
    ensures Apply(l, op).topic ==
            match op
            case Declaring(topic, _, accepted) => if l.channel && accepted then topic else l.topic
            case Subscribing(topic, callable, _) => if l.channel && callable && !l.subscribed then topic else l.topic
            case _ => l.topic
  {
    hide Attempt;
    if op.Pumping? {
      AttemptSays(AfterReceive(l, op.receive), op.world);
    }
  }

  /**
   * close() does not end it. The next pump makes an attempt exactly when the policy is enabled, has
   * attempts left and the backoff is over; and the transport is ready again exactly when that attempt
   * opens the channel and redeclares what was declared.
   */
  lemma ClosedTransportReconnects(l: Link, world: World, receive: Receive)
    ensures var (l1, result) := Pump(Close(l), world, receive);
            var attempts := l.policy.enabled && l.failedAttempts < l.policy.maxAttempts && world.now >= l.nextAttempt;
            && (|l1.tries| > |l.tries| <==> attempts)
            && (Ready(l1) <==> attempts && world.opens && (l.topicDeclared ==> world.declares))
            && (result == Alive <==> l.policy.enabled && l.failedAttempts < l.policy.maxAttempts)
            && !l1.subscribed
  {
    hide Delay;
  }

  // ---------------------------------------------------------------- ready means consuming

  /** A usable transport with a subscription has its consumer registered on the channel it has now. */
  predicate Consuming(l: Link) {
    Ready(l) && l.subscribed ==> l.consuming == Some(l.wanted)
  }

  predicate LinkOk(l: Link) {
    && Consuming(l)
    && (l.subscribed ==> l.topic == l.wanted && l.handler && (l.channel || !l.connected))
  }

  /** One topic per transport: no second connect and no other topic while subscribed. */
  predicate Orderly(l: Link, op: Op) {
    l.subscribed ==>
      match op
      case Connecting(opens) => !opens
      case Declaring(topic, _, _) => topic == l.topic
      case _ => true
  }

  lemma ServiceRestores(l: Link, world: World)
    requires LinkOk(l) && !Ready(l)
    ensures LinkOk(ServiceReconnect(l, world).0)
  {
    hide Delay;
  }

  lemma ApplyKeepsLink(l: Link, op: Op)
    requires LinkOk(l) && Orderly(l, op)
    ensures LinkOk(Apply(l, op))
  {
    if op.Pumping? {
      hide ServiceReconnect;
      if !Ready(l) {
        ServiceRestores(l, op.world);
      } else {
        ServiceRestores(l.(connected := false), op.world);
      }
    }
  }

  /** What every call keeps: the account of attempts always, the restored consumer when the call is orderly. */
  lemma EveryCallKeeps(l: Link, op: Op)
    ensures Spaced(l.tries) && Counted(l) ==> Spaced(Apply(l, op).tries) && Counted(Apply(l, op))
    ensures LinkOk(l) && Orderly(l, op) ==> LinkOk(Apply(l, op))
  {
    hide Spaced, Counted, LinkOk, Orderly, Apply;
    if Spaced(l.tries) && Counted(l) {
      ApplySpaces(l, op);
    }
    if LinkOk(l) && Orderly(l, op) {
      ApplyKeepsLink(l, op);
    }
  }

  predicate OrderlyRun(l: Link, ops: seq<Op>)
    decreases |ops|
  {
    ops != [] ==> Orderly(l, ops[0]) && OrderlyRun(Apply(l, ops[0]), ops[1..])
  }

  lemma {:induction false} RunKeepsLink(l: Link, ops: seq<Op>)
    requires LinkOk(l) && OrderlyRun(l, ops)
    ensures LinkOk(Run(l, ops))
    decreases |ops|
  {
    hide LinkOk, Apply, Orderly;
    if ops != [] {
      ApplyKeepsLink(l, ops[0]);
      RunKeepsLink(Apply(l, ops[0]), ops[1..]);
    }
  }

  /**
   * ready() with a subscription always means the consumer was re-established on the current channel,
   * even after an attempt that failed once the channel had opened.
   */
  lemma ReadyMeansConsuming(ops: seq<Op>)
    requires OrderlyRun(NEW_LINK, ops)
    ensures Consuming(Run(NEW_LINK, ops))
  {
    hide OrderlyRun, Run;
    RunKeepsLink(NEW_LINK, ops);
  }

  /** For one call the condition is exact: a connect breaks the claim precisely if it succeeds while subscribed. */
  lemma SecondConnectForgetsConsumer(l: Link, opens: bool)
    requires LinkOk(l)
    ensures Consuming(Apply(l, Connecting(opens))) <==> Orderly(l, Connecting(opens))
  {
  }

  /** Declaring another topic while subscribed: the next reconnection consumes that one instead. */
  lemma OtherTopicTakesOver(l: Link, other: Topic, options: TopicOptions, world: World)
    requires LinkOk(l) && Ready(l) && l.subscribed
    requires l.policy.enabled && l.failedAttempts < l.policy.maxAttempts && world.now >= l.nextAttempt
    requires world.opens && world.declares && world.consumes
    ensures var l1 := Apply(Apply(l, Declaring(other, options, true)), Pumping(world, ConnectionLost));
            Ready(l1) && l1.subscribed && (Consuming(l1) <==> Orderly(l, Declaring(other, options, true)))
  {
    hide Delay;
  }

  /** One attempt against a healthy broker is enough, whatever failed before. */
  lemma RecoversInOneAttempt(l: Link, world: World, receive: Receive)
    requires LinkOk(l) && !Ready(l)
    requires l.policy.enabled && l.failedAttempts < l.policy.maxAttempts && world.now >= l.nextAttempt
    requires world.opens && world.declares && world.consumes
    ensures var (l1, result) := Pump(l, world, receive);
            && result == Alive && Ready(l1) && Consuming(l1)
            && l1.subscribed == l.subscribed && l1.failedAttempts == 0 && l1.reconnects == l.reconnects + 1
  {
  }
}
