/** SimpleAmqpTransport's connection handling as the source writes it. */
module SimpleAmqp {
  import opened Wrappers
  import opened Seam
  import opened ReconnectModel
  import opened ReconnectLaws

  class SimpleAmqpTransport {
    var channel: bool
    var connected: bool
    var handler: bool
    var subscribed: bool
    var topicDeclared: bool
    var topic: Topic
    var topicOptions: TopicOptions
    var policy: ReconnectPolicy
    var failedAttempts: nat
    var nextAttempt: int
    var reconnects: nat
    ghost var consuming: Option<Topic>
    ghost var wanted: Topic
    ghost var epoch: nat
    ghost var tries: seq<Try>
    ghost var asked: seq<Declaration>

    ghost function State(): Link
      reads this
    {
      Link(channel, connected, handler, subscribed, topicDeclared, topic, topicOptions, policy,
           failedAttempts, nextAttempt, reconnects, consuming, wanted, epoch, tries, asked)
    }

    /** Attempts made so far are bounded and spaced, and counted as the fields say. */
    ghost predicate Valid()
      reads this
    {
      Spaced(tries) && Counted(State())
    }

    constructor ()
      ensures Valid() && State() == NEW_LINK && LinkOk(State())
    {
      channel, connected, handler, subscribed, topicDeclared := false, false, false, false, false;
      topic, topicOptions, policy := "", DEFAULT_OPTIONS, DEFAULT_POLICY;
      failedAttempts, nextAttempt, reconnects := 0, 0, 0;
      consuming, wanted, epoch, tries, asked := None, "", 0, [], [];
    }

    /** Connected is said only once the channel exists. */
    method OpenChannel(opens: bool) returns (created: bool)
      modifies this
      ensures (State(), created) == ReconnectModel.OpenChannel(old(State()), opens)
    {
      if !opens {
        return false;
      }
      channel := true;
      consuming := None;
      connected := true;
      return true;
    }

    method Connect(opens: bool) returns (created: bool)
      modifies this
      ensures State() == ReconnectModel.Connect(old(State()), opens) && created == opens
      ensures old(Valid()) ==> Valid()
      ensures old(LinkOk(State())) && Orderly(old(State()), Connecting(opens)) ==> LinkOk(State())
    {
      EveryCallKeeps(State(), Connecting(opens));
      hide Spaced, Counted, LinkOk, Orderly;
      created := OpenChannel(opens);
    }

    method Close()
      modifies this
      ensures State() == ReconnectModel.Close(old(State()))
      ensures old(Valid()) ==> Valid()
      ensures old(LinkOk(State())) && Orderly(old(State()), Closing) ==> LinkOk(State())
    {
      EveryCallKeeps(State(), Closing);
      hide Spaced, Counted, LinkOk, Orderly;
      channel := false;
      consuming := None;
      connected, subscribed, handler := false, false, false;
    }

    /** ready(): and then a subscription has its consumer, on the topic asked for, on the channel there is now. */
    method IsReady() returns (ready: bool)
      ensures ready == Ready(State())
      ensures LinkOk(State()) && ready && subscribed ==> consuming == Some(wanted) && topic == wanted
    {
      return connected && channel;
    }

    method EnsureTopic(topic: Topic, options: TopicOptions, accepted: bool) returns (result: CallResult)
      modifies this
      ensures (State(), result) == ReconnectModel.EnsureTopic(old(State()), topic, options, accepted)
      ensures old(Valid()) ==> Valid()
      ensures old(LinkOk(State())) && Orderly(old(State()), Declaring(topic, options, accepted)) ==> LinkOk(State())
    {
      EveryCallKeeps(State(), Declaring(topic, options, accepted));
      hide Spaced, Counted, LinkOk, Orderly;
      if !channel {
        return NoChannel;
      }
      asked := asked + [Declaration(topic, options, accepted)];
      if !accepted {
        return LibraryThrew;
      }
      this.topic, topicOptions, topicDeclared := topic, options, true;
      return Fine;
    }

    method StartConsuming(accepted: bool) returns (started: bool)
      modifies this
      ensures (State(), started) == ReconnectModel.StartConsuming(old(State()), accepted)
    {
      if accepted {
        consuming := Some(topic);
      }
      return accepted;
    }

    method Subscribe(topic: Topic, callable: bool, accepted: bool) returns (result: CallResult)
      modifies this
      ensures (State(), result) == ReconnectModel.Subscribe(old(State()), topic, callable, accepted)
      ensures old(Valid()) ==> Valid()
      ensures old(LinkOk(State())) && Orderly(old(State()), Subscribing(topic, callable, accepted)) ==> LinkOk(State())
    {
      EveryCallKeeps(State(), Subscribing(topic, callable, accepted));
      hide Spaced, Counted, LinkOk, Orderly;
      if !channel {
        return NoChannel;
      }
      if !callable {
        return NotCallable;
      }
      if subscribed {
        return Twice;
      }
      handler, this.topic := true, topic;
      var started := StartConsuming(accepted);
      if !started {
        return LibraryThrew;
      }
      subscribed, wanted := true, topic;
      return Fine;
    }

    method SetReconnectPolicy(policy: ReconnectPolicy)
      modifies this
      ensures State() == ReconnectModel.SetReconnectPolicy(old(State()), policy)
      ensures old(Valid()) ==> Valid()
      ensures old(LinkOk(State())) && Orderly(old(State()), SettingPolicy(policy)) ==> LinkOk(State())
    {
      EveryCallKeeps(State(), SettingPolicy(policy));
      hide Spaced, Counted, LinkOk, Orderly;
      this.policy, failedAttempts, nextAttempt := policy, 0, 0;
      epoch := epoch + 1;
    }

    /** The steps of one attempt in order; false where one throws. */
    method Restore(world: World) returns (restored: bool)
      modifies this
      ensures (State(), restored) == ReconnectModel.Restore(old(State()), world)
    {
      channel := false;
      consuming := None;
      var created := OpenChannel(world.opens);
      if !created {
        return false;
      }
      if topicDeclared {
        var declared := EnsureTopic(topic, topicOptions, world.declares);
        if declared != Fine {
          return false;
        }
      }
      if subscribed {
        restored := StartConsuming(world.consumes);
        return;
      }
      return true;
    }

    method ServiceReconnect(world: World) returns (trying: bool)
      modifies this
      ensures (State(), trying) == ReconnectModel.ServiceReconnect(old(State()), world)
    {
      if !policy.enabled {
        return false;
      }
      if failedAttempts >= policy.maxAttempts {
        return false;
      }
      if world.now < nextAttempt {
        return true;
      }
      Attempt(world);
      return true;
    }

    method Attempt(world: World)
      modifies this
      ensures State() == ReconnectModel.Attempt(old(State()), world)
    {
      failedAttempts := failedAttempts + 1;
      hide Succeed, Fail, ReconnectModel.Restore;
      var restored := Restore(world);
      if restored {
        Succeeded(world.now);
      } else {
        Failed(world.now, world.later);
      }
    }

    method Succeeded(start: int)
      modifies this
      ensures State() == Succeed(old(State()), start)
    {
      tries := tries + [Try(epoch, policy, failedAttempts, start, None)];
      failedAttempts, reconnects := 0, reconnects + 1;
    }

    method Failed(start: int, later: int)
      requires failedAttempts > 0
      modifies this
      ensures State() == Fail(old(State()), start, later)
    {
      hide Delay;
      tries := tries + [Try(epoch, policy, failedAttempts, start, Some(later))];
      nextAttempt, connected := later + Delay(policy, failedAttempts), false;
    }

    method Pump(world: World, receive: Receive) returns (result: PumpResult)
      modifies this
      ensures (State(), result) == ReconnectModel.Pump(old(State()), world, receive)
      ensures old(Valid()) ==> Valid()
      ensures old(LinkOk(State())) && Orderly(old(State()), Pumping(world, receive)) ==> LinkOk(State())
    {
      EveryCallKeeps(State(), Pumping(world, receive));
      hide Spaced, Counted, LinkOk, Orderly;
      var ready := IsReady();
      if !ready {
        if !policy.enabled {
          return Dead;
        }
        var trying := ServiceReconnect(world);
        return if trying then Alive else Dead;
      }
      if !subscribed || !handler {
        return Alive;
      }
      match receive
      case ConnectionLost =>
        connected := false;
        if !policy.enabled {
          return Dead;
        }
        var trying := ServiceReconnect(world);
        return if trying then Alive else Dead;
      case NothingYet => return Alive;
      case Handled => return Alive;
      case HandlingThrew => return PumpThrew;
    }
  }
}
