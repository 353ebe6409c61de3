/** When a tag can be settled, over whole schedules. */
module SettlementLaws {
  import opened Seam
  import opened BrokerModel
  import opened QueueLaws
  import opened BrokerLaws
  import opened TransportModel
  import opened Fleet
  import opened FleetLaws

  /** The tag is among the transport's unresolved deliveries. */
  predicate IsOut(w: World, id: nat, tag: nat) {
    id < |w.transports| && tag in w.transports[id].outstanding
  }

  /** The action that hands this tag to this transport's handler. */
  predicate HandsOut(w: World, a: Action, id: nat, tag: nat) {
    && a == Delivering(id) && id < |w.transports|
    && var taken := Deliver(w.broker, w.transports[id], id).2;
       taken.Some? && taken.value.tag == tag
  }

  /** The action that takes this tag out of this transport's hands. */
  ghost predicate Resolves(w: World, a: Action, id: nat, tag: nat) {
    && a.id == id && IsOut(w, id, tag)
    && match a
       case Finishing(_, t, result) => t == tag && result.Returned? && result.disposition != Deferred
       case Settling(_, t, disposition) => t == tag && w.transports[id].connected && disposition != Deferred
       case Returning(_) => tag == Greatest(w.transports[id].outstanding.Keys)
       case _ => false
  }

  // ---------------------------------------------------------------- one action

  lemma SettleResolvesIff(b: BrokerState, t: Transport, who: nat, tag: nat, disposition: Disposition)
    ensures Settle(b, t, who, tag, disposition).2.Resolved? <==> t.connected && disposition != Deferred && tag in t.outstanding
    ensures var (c, t1, result) := Settle(b, t, who, tag, disposition); !result.Resolved? ==> c == b && t1 == t
  {
  }

  lemma ResolveDrops(b: BrokerState, t: Transport, who: nat, tag: nat, disposition: Disposition)
    requires tag in t.outstanding && disposition != Deferred
    ensures Resolve(b, t, who, tag, disposition).1.outstanding == Drop(t.outstanding, tag)
  {
    hide DeadLetter, RequeueFront, Release, End;
  }

  lemma DeliveringOut(w: World, id: nat, tag: nat)
    requires id < |w.transports|
    ensures IsOut(Apply(w, Delivering(id)), id, tag) <==> HandsOut(w, Delivering(id), id, tag) || IsOut(w, id, tag)
  {
    hide Take;
  }

  lemma FinishingOut(w: World, id: nat, other: nat, result: HandlerResult, tag: nat)
    requires id < |w.transports|
    ensures IsOut(Apply(w, Finishing(id, other, result)), id, tag)
            <==> IsOut(w, id, tag) && !Resolves(w, Finishing(id, other, result), id, tag)
  {
    hide Resolve;
    if other in w.transports[id].outstanding && result.Returned? && result.disposition != Deferred {
      ResolveDrops(w.broker, w.transports[id], id, other, result.disposition);
    }
  }

  lemma SettlingOut(w: World, id: nat, other: nat, disposition: Disposition, tag: nat)
    requires id < |w.transports|
    ensures IsOut(Apply(w, Settling(id, other, disposition)), id, tag)
            <==> IsOut(w, id, tag) && !Resolves(w, Settling(id, other, disposition), id, tag)
  {
    hide Resolve;
    if other in w.transports[id].outstanding && disposition != Deferred {
      ResolveDrops(w.broker, w.transports[id], id, other, disposition);
    }
  }

  lemma ReturningOut(w: World, id: nat, tag: nat)
    requires id < |w.transports|
    ensures IsOut(Apply(w, Returning(id)), id, tag) <==> IsOut(w, id, tag) && !Resolves(w, Returning(id), id, tag)
  {
    hide RequeueFront, Release;
  }

  lemma OtherOut(w: World, a: Action, id: nat, tag: nat)
    requires Leaves(id, a)
    ensures IsOut(Apply(w, a), id, tag) <==> IsOut(w, id, tag)
  {
    hide EnsureTopic, Publish, Deliver, Finish, Settle, ReturnLatest, Purge;
  }

  /** Actions that leave the deliveries of transport `id` alone. */
  predicate Leaves(id: nat, a: Action) {
    a.id != id || !(a.Delivering? || a.Finishing? || a.Settling? || a.Returning?)
  }

  /** A tag is out after an action exactly when it was handed out by it, or was out and not resolved by it. */
  lemma OutAfter(w: World, a: Action, id: nat, tag: nat)
    ensures IsOut(Apply(w, a), id, tag) <==> HandsOut(w, a, id, tag) || (IsOut(w, id, tag) && !Resolves(w, a, id, tag))
  {
    hide Apply;
    if Leaves(id, a) {
      OtherOut(w, a, id, tag);
    } else if id < |w.transports| {
      match a
      case Delivering(_) => DeliveringOut(w, id, tag);
      case Finishing(_, other, result) => FinishingOut(w, id, other, result, tag);
      case Settling(_, other, disposition) => SettlingOut(w, id, other, disposition, tag);
      case Returning(_) => ReturningOut(w, id, tag);
    } else {
      NobodyThere(w, a);
    }
  }

  lemma NobodyThere(w: World, a: Action)
    requires a.id >= |w.transports|
    ensures Apply(w, a) == w
  {
  }

  // ---------------------------------------------------------------- settled once, over every schedule

  ghost predicate NeverHandsOut(w: World, actions: seq<Action>, id: nat, tag: nat)
    decreases |actions|
  {
    actions != [] ==> !HandsOut(w, actions[0], id, tag) && NeverHandsOut(Apply(w, actions[0]), actions[1..], id, tag)
  }

  lemma {:induction false} GoneStaysGone(w: World, actions: seq<Action>, id: nat, tag: nat)
    requires !IsOut(w, id, tag) && NeverHandsOut(w, actions, id, tag)
    ensures !IsOut(Run(w, actions), id, tag)
    decreases |actions|
  {
    hide IsOut, HandsOut, Apply;
    if actions != [] {
      OutAfter(w, actions[0], id, tag);
      GoneStaysGone(Apply(w, actions[0]), actions[1..], id, tag);
    }
  }

  /**
   * Each tag is settled at most once: after a settle that resolved it, whatever anybody does, every
   * later settle of it on that transport is refused and changes nothing, until the transport takes it
   * from the queue again.
   */
  lemma SettledAtMostOnce(count: nat, before: seq<Action>, id: nat, tag: nat, disposition: Disposition,
                          after: seq<Action>, again: Disposition)
    requires var w := Run(Start(count), before);
             id < |w.transports| && Settle(w.broker, w.transports[id], id, tag, disposition).2.Resolved?
    requires NeverHandsOut(Apply(Run(Start(count), before), Settling(id, tag, disposition)), after, id, tag)
    ensures var u := Run(Apply(Run(Start(count), before), Settling(id, tag, disposition)), after);
            && id < |u.transports|
            && var (c, t, result) := Settle(u.broker, u.transports[id], id, tag, again);
               !result.Resolved? && c == u.broker && t == u.transports[id]
  {
    var w := Run(Start(count), before);
    var v := Apply(w, Settling(id, tag, disposition));
    Reachable(count, before);
    SettleResolvesIff(w.broker, w.transports[id], id, tag, disposition);
    ApplyKeeps(w, Settling(id, tag, disposition));
    OutAfter(w, Settling(id, tag, disposition), id, tag);
    hide WorldOk, Run, Apply, Settle, NeverHandsOut, HandsOut, Resolves;
    RunKeeps(v, after);
    GoneStaysGone(v, after, id, tag);
    var u := Run(v, after);
    SettleResolvesIff(u.broker, u.transports[id], id, tag, again);
  }

  /** And when a tag that was ever in a transport's hands is taken again, by anyone, it is flagged as redelivered. */
  lemma TakenAgainIsFlagged(count: nat, before: seq<Action>, id: nat, tag: nat, after: seq<Action>, other: nat)
    requires IsOut(Run(Start(count), before), id, tag)
    requires var u := Run(Run(Start(count), before), after);
             && other < |u.transports|
             && var taken := Deliver(u.broker, u.transports[other], other).2;
                taken.Some? && taken.value.tag == tag
    ensures var u := Run(Run(Start(count), before), after);
            Deliver(u.broker, u.transports[other], other).2.value.redelivered
  {
    var w := Run(Start(count), before);
    var u := Run(w, after);
    Reachable(count, before);
    RunKeeps(w, after);
    assert TransportOk(w.broker, w.transports[id], id) && HeldOk(w.broker, w.transports[id], id, tag);
    var topic := w.transports[id].topic;
    assert Firsts(w.broker, topic) <= Firsts(u.broker, topic);
    hide WorldOk, Run, Advances, Deliver;
    TakenFlagged(u, other, tag, topic);
  }

  lemma TakenFlagged(u: World, id: nat, tag: nat, topic: Topic)
    requires WorldOk(u) && id < |u.transports|
    requires tag in u.broker.history.stamps && u.broker.history.stamps[tag].topic == topic && tag in Firsts(u.broker, topic)
    requires var taken := Deliver(u.broker, u.transports[id], id).2; taken.Some? && taken.value.tag == tag
    ensures Deliver(u.broker, u.transports[id], id).2.value.redelivered
  {
    hide HoldersOk, DeclarationsOk, LossesOk, Fates;
    var q := Queue(u.broker, u.transports[id].topic);
    assert Recorded(u.broker.history, u.transports[id].topic, q[0]);
    FlaggedIfFirst(q, Firsts(u.broker, topic), tag);
  }

  lemma FlaggedIfFirst(q: seq<Held>, firsts: seq<nat>, tag: nat)
    requires Sorted(q, firsts) && q != [] && q[0].sequence == tag && tag in firsts
    ensures q[0].redelivered
  {
  }

  // ---------------------------------------------------------------- what leaves a tag to settle

  lemma {:induction false} OutUnlessTouched(w: World, actions: seq<Action>, id: nat, tag: nat)
    requires forall i | 0 <= i < |actions| :: Leaves(id, actions[i])
    ensures IsOut(Run(w, actions), id, tag) <==> IsOut(w, id, tag)
    decreases |actions|
  {
    hide IsOut, Apply;
    if actions != [] {
      OtherOut(w, actions[0], id, tag);
      OutUnlessTouched(Apply(w, actions[0]), actions[1..], id, tag);
    }
  }

  lemma SameCrowd(w: World, v: World, u: World, id: nat, tag: nat)
    requires IsOut(w, id, tag) && Advances(w, v) && Advances(v, u) && WorldOk(u)
    ensures id < |u.transports|
    ensures IsOut(u, id, tag) <==> tag in u.transports[id].outstanding
    ensures IsOut(u, id, tag) ==> u.transports[id].connected
  {
    assert TransportOk(u.broker, u.transports[id], id);
  }

  /**
   * What settle accepts: after the handler came back, and however long others act, settle resolves the
   * tag exactly when the handler deferred or threw. Its message promises deferred deliveries only.
   */
  lemma DeferredOrThrownCanBeSettled(count: nat, before: seq<Action>, id: nat, tag: nat, result: HandlerResult,
                                     after: seq<Action>, disposition: Disposition)
    requires IsOut(Run(Start(count), before), id, tag) && disposition != Deferred
    requires forall i | 0 <= i < |after| :: Leaves(id, after[i])
    ensures var u := Run(Apply(Run(Start(count), before), Finishing(id, tag, result)), after);
            && id < |u.transports|
            && (Settle(u.broker, u.transports[id], id, tag, disposition).2.Resolved?
                <==> result == Threw || result == Returned(Deferred))
  {
    var w := Run(Start(count), before);
    var finishing := Finishing(id, tag, result);
    var v := Apply(w, finishing);
    Reachable(count, before);
    ApplyKeeps(w, finishing);
    OutAfter(w, finishing, id, tag);
    assert Resolves(w, finishing, id, tag) <==> result.Returned? && result.disposition != Deferred;
    hide Run, Apply, Settle, Resolves, WorldOk, Advances, IsOut;
    RunKeeps(v, after);
    OutUnlessTouched(v, after, id, tag);
    var u := Run(v, after);
    SameCrowd(w, v, u, id, tag);
    SettleResolvesIff(u.broker, u.transports[id], id, tag, disposition);
  }
}
