/** What a grouped publish does to every topic of the broker. */
module FanoutLaws {
  import opened Seam
  import opened BrokerModel
  import opened Names
  import opened ChainLaws
  import opened FleetLaws
  import opened Guarantees

  /** The destinations among `names` that take a copy. */
  function Targets(b: BrokerState, names: set<Topic>, group: string, routing: Routing, key: string): set<Topic>
    requires names <= b.topics.Keys
  {
    set name | name in names && Selects(b.topics[name], group, routing, key)
  }

  // ---------------------------------------------------------------- frames

  /** `name` is reached from `source` by dead-lettering once or more. */
  predicate IsForensicOf(name: Topic, source: Topic)
    decreases |name| - |source|
  {
    |name| > |source| && (name == DeadLetterTopic(source) || IsForensicOf(name, DeadLetterTopic(source)))
  }

  lemma {:induction false} EnqueueFrame(b: BrokerState, topic: Topic, held: Held, name: Topic)
    requires topic in b.topics && name in b.topics && name != topic && !IsForensicOf(name, topic)
    ensures Enqueue(b, topic, held).0.topics[name] == b.topics[name]
    decreases LongerNames(b, topic), 1
  {
    hide EndsWith, SameShape, IsForensicOf, DeadLetter, LongerNames;
    var TopicState(messages, options, _) := b.topics[topic];
    if options.maxLength > 0 && |messages| >= options.maxLength && options.deadLetter {
      match options.overflow
      case DropHead =>
        var b1 := DropFront(b, topic);
        assert LongerNames(b1, topic) == LongerNames(b, topic) by { SameNames(b, b1, topic); }
        DeadLetterFrame(b1, topic, messages[0], name);
      case RejectPublish =>
      case RejectPublishDlx => DeadLetterFrame(b, topic, held, name);
    }
  }

  /** Dead-lettering changes forensic destinations only. */
  lemma {:induction false} DeadLetterFrame(b: BrokerState, source: Topic, held: Held, name: Topic)
    requires name in b.topics && !IsForensicOf(name, source)
    ensures DeadLetter(b, source, held).0.topics[name] == b.topics[name]
    decreases LongerNames(b, source), 0
  {
    hide EndsWith, SameShape, Enqueue, LongerNames;
    var forensic := DeadLetterTopic(source);
    if source in b.topics && b.topics[source].options.deadLetter && forensic in b.topics {
      var b1 := Restamp(End(b, held.sequence, DeadLettered(b.sequence + 1)), forensic, held.body);
      NamesShrink(b, b1, source);
      if |name| > |source| {
        EnqueueFrame(b1, forensic, Held(b1.sequence, held.body, false), name);
      } else {
        ShorterIsNoForensic(name, forensic);
        EnqueueFrame(b1, forensic, Held(b1.sequence, held.body, false), name);
      }
    }
  }

  lemma ShorterIsNoForensic(name: Topic, source: Topic)
    requires |name| <= |source|
    ensures !IsForensicOf(name, source)
  {
  }

  // ---------------------------------------------------------------- one destination

  /** DropHead makes room; the two rejecting policies do not. */
  predicate Admits(state: TopicState) {
    !Full(state) || state.options.overflow == DropHead
  }

  /** A copy of `body` stamped after `sequence` was offered to a topic in state `before`. */
  predicate Offered(before: TopicState, after: TopicState, body: string, sequence: nat) {
    var q, q' := before.messages, after.messages;
    && after.options == before.options && after.binding == before.binding
    && (!Admits(before) ==> q' == q)
    && (Admits(before) ==>
          && q' != []
          && q'[|q'| - 1].body == body && !q'[|q'| - 1].redelivered && q'[|q'| - 1].sequence > sequence
          && q'[..|q'| - 1] == if Full(before) then q[1..] else q)
  }

  predicate Ready(b: BrokerState, name: Topic) {
    name in b.topics && (b.topics[name].options.deadLetter ==> ForensicReady(b, name))
  }

  lemma ReadyStays(b: BrokerState, c: BrokerState, name: Topic)
    requires Ready(b, name) && SameShape(b, c)
    ensures Ready(c, name)
  {
  }

  /** Being full, the topic dead-letters a message: its oldest one under DropHead, the new one under RejectPublishDlx. */
  predicate Overflows(state: TopicState) {
    Full(state) && state.options.deadLetter && state.options.overflow != RejectPublish
  }

  function Sacrificed(state: TopicState, body: string): string {
    if state.options.overflow == DropHead && state.messages != [] then state.messages[0].body else body
  }

  /** A forensic topic was given `evidence`: it is its newest message, unless it was at its cap. */
  predicate Given(before: TopicState, after: TopicState, evidence: string, sequence: nat) {
    var q, q' := before.messages, after.messages;
    && after.options == before.options && after.binding == before.binding
    && if |q| >= FORENSIC_MAX_LENGTH then q' == q
       else q' != [] && q'[..|q'| - 1] == q
            && q'[|q'| - 1].body == evidence && !q'[|q'| - 1].redelivered && q'[|q'| - 1].sequence > sequence
  }

  /** What offering `body` to one destination does to every topic of the broker. */
  ghost predicate OneOffered(b: BrokerState, c: BrokerState, name: Topic, body: string)
    requires name in b.topics && b.topics.Keys == c.topics.Keys
  {
    var forensic := DeadLetterTopic(name);
    && Offered(b.topics[name], c.topics[name], body, b.sequence)
    && (Overflows(b.topics[name]) ==>
          forensic in b.topics && Given(b.topics[forensic], c.topics[forensic], Sacrificed(b.topics[name], body), b.sequence))
    && (forall other | other in b.topics && other != name && !(Overflows(b.topics[name]) && other == forensic) ::
          c.topics[other] == b.topics[other])
  }

  lemma PushGives(before: TopicState, after: TopicState, held: Held, sequence: nat)
    requires after == before.(messages := after.messages) && !held.redelivered && held.sequence > sequence
    requires after.messages == if |before.messages| >= FORENSIC_MAX_LENGTH then before.messages else before.messages + [held]
    ensures Given(before, after, held.body, sequence)
  {
  }

  lemma DeadLetterGives(b: BrokerState, name: Topic, held: Held, sequence: nat)
    requires name in b.topics && b.topics[name].options.deadLetter && ForensicReady(b, name) && b.sequence >= sequence
    ensures var (c, kept) := DeadLetter(b, name, held);
            var forensic := DeadLetterTopic(name);
            && kept && forensic != name && forensic in b.topics && c.topics.Keys == b.topics.Keys
            && Given(b.topics[forensic], c.topics[forensic], held.body, sequence)
            && (forall other | other in b.topics && other != forensic :: c.topics[other] == b.topics[other])
  {
    hide EndsWith, DeadLetter;
    var forensic := DeadLetterTopic(name);
    ForensicTakes(b, name, held);
    assert Pressure(|Queue(b, forensic)|, FORENSIC_MAX_LENGTH) == AtCap <==> |Queue(b, forensic)| >= FORENSIC_MAX_LENGTH;
    hide Pressure, Given;
    var c := DeadLetter(b, name, held).0;
    PushGives(b.topics[forensic], c.topics[forensic], Held(b.sequence + 1, held.body, false), sequence);
  }

  lemma OfferRejecting(b: BrokerState, name: Topic, body: string)
    requires Ready(b, name) && Full(b.topics[name]) && !Admits(b.topics[name])
    ensures var (c, verdict) := PublishTo(b, name, body); verdict == Rejected && OneOffered(b, c, name, body)
  {
    var b1 := Restamp(b, name, body);
    var held := Held(b1.sequence, body, false);
    if Overflows(b.topics[name]) {
      assert ForensicReady(b1, name);
      hide ForensicReady, Given;
      DeadLetterGives(b1, name, held, b.sequence);
      hide DeadLetter, EndsWith;
      assert PublishTo(b, name, body) == (DeadLetter(b1, name, held).0, Rejected);
    } else {
      hide DeadLetter, EndsWith, Given;
      assert PublishTo(b, name, body) == (End(b1, held.sequence, Refused(|b.topics[name].messages|)), Rejected);
    }
  }

  lemma PushOffers(before: TopicState, after: TopicState, held: Held, sequence: nat)
    requires Full(before) && before.options.overflow == DropHead && !held.redelivered && held.sequence > sequence
    requires after == before.(messages := before.messages[1..] + [held])
    ensures Offered(before, after, held.body, sequence)
  {
    assert (before.messages[1..] + [held])[..|before.messages| - 1] == before.messages[1..];
  }

  /** The broker once the oldest message of a full topic has made room for a publish: stamped, evicted, dead-lettered. */
  function Evicted(b: BrokerState, name: Topic, body: string): BrokerState
    requires name in b.topics && Full(b.topics[name])
  {
    var b1, evicted := DropFront(Restamp(b, name, body), name), b.topics[name].messages[0];
    if b.topics[name].options.deadLetter then DeadLetter(b1, name, evicted).0 else End(b1, evicted.sequence, Dropped)
  }

  /** Evicting with a forensic topic in place: first the dead letter, then the new copy. */
  lemma EvictionIs(b: BrokerState, name: Topic, body: string)
    requires Ready(b, name) && Full(b.topics[name]) && Admits(b.topics[name])
    ensures var b1 := Evicted(b, name, body);
            && name in b1.topics
            && PublishTo(b, name, body) == (PushBack(b1, name, Held(b.sequence + 1, body, false)), Accepted)
  {
    var b1, evicted := DropFront(Restamp(b, name, body), name), b.topics[name].messages[0];
    if b.topics[name].options.deadLetter {
      assert ForensicReady(b1, name);
      hide ForensicReady, Given;
      DeadLetterGives(b1, name, evicted, b.sequence);
    }
    hide DeadLetter, EndsWith;
  }

  /** What the eviction alone does: the oldest message is gone, and with deadLetter the forensic topic was given it. */
  lemma EvictionGives(b: BrokerState, name: Topic, body: string)
    requires Ready(b, name) && Full(b.topics[name])
    ensures var c, forensic := Evicted(b, name, body), DeadLetterTopic(name);
            && b.topics.Keys == c.topics.Keys
            && c.topics[name] == b.topics[name].(messages := b.topics[name].messages[1..])
            && (b.topics[name].options.deadLetter ==>
                  && forensic != name && forensic in b.topics
                  && Given(b.topics[forensic], c.topics[forensic], b.topics[name].messages[0].body, b.sequence))
            && (forall other | other in b.topics && other != name && !(b.topics[name].options.deadLetter && other == forensic) ::
                  c.topics[other] == b.topics[other])
  {
    var q := b.topics[name].messages;
    var b1 := DropFront(Restamp(b, name, body), name);
    assert b1.topics == b.topics[name := b.topics[name].(messages := q[1..])] && b1.sequence == b.sequence + 1;
    if b.topics[name].options.deadLetter {
      assert ForensicReady(b1, name);
      hide DeadLetter, ForensicReady, Given, DropFront, EndsWith;
      DeadLetterGives(b1, name, q[0], b.sequence);
    }
  }

  /** From the state after the eviction to the one after the push. */
  lemma EvictionOffers(b: BrokerState, b3: BrokerState, c: BrokerState, name: Topic, held: Held)
    requires name in b.topics && Full(b.topics[name]) && b.topics[name].options.overflow == DropHead
    requires !held.redelivered && held.sequence > b.sequence && b.topics.Keys == b3.topics.Keys
    requires b3.topics[name] == b.topics[name].(messages := b.topics[name].messages[1..])
    requires var forensic, deadLetter := DeadLetterTopic(name), b.topics[name].options.deadLetter;
             && (deadLetter ==>
                   && forensic != name && forensic in b.topics
                   && Given(b.topics[forensic], b3.topics[forensic], b.topics[name].messages[0].body, b.sequence))
             && (forall other | other in b.topics && other != name && !(deadLetter && other == forensic) ::
                   b3.topics[other] == b.topics[other])
    requires c.topics == b3.topics[name := b3.topics[name].(messages := b3.topics[name].messages + [held])]
    ensures OneOffered(b, c, name, held.body)
  {
    PushOffers(b.topics[name], c.topics[name], held, b.sequence);
    hide Offered, Given;
  }

  lemma OfferEvicting(b: BrokerState, name: Topic, body: string)
    requires Ready(b, name) && Full(b.topics[name]) && Admits(b.topics[name])
    ensures var (c, verdict) := PublishTo(b, name, body); verdict == Accepted && OneOffered(b, c, name, body)
  {
    var b1, held := Evicted(b, name, body), Held(b.sequence + 1, body, false);
    EvictionIs(b, name, body);
    EvictionGives(b, name, body);
    hide PublishTo, Evicted, Given, OneOffered;
    EvictionOffers(b, b1, PushBack(b1, name, held), name, held);
  }

  lemma RoomMeansPush(b: BrokerState, name: Topic, body: string)
    requires name in b.topics && !Full(b.topics[name])
    ensures var (c, verdict) := PublishTo(b, name, body);
            && verdict == Accepted && c.sequence == b.sequence + 1
            && c.topics == b.topics[name := b.topics[name].(messages := b.topics[name].messages + [Held(b.sequence + 1, body, false)])]
  {
    hide DeadLetter, EndsWith;
  }

  lemma OfferOne(b: BrokerState, name: Topic, body: string)
    requires Ready(b, name)
    ensures var (c, verdict) := PublishTo(b, name, body);
            verdict == (if Admits(b.topics[name]) then Accepted else Rejected) && OneOffered(b, c, name, body)
  {
    hide PublishTo, ForensicReady;
    if Full(b.topics[name]) {
      hide OneOffered;
      if Admits(b.topics[name]) {
        OfferEvicting(b, name, body);
      } else {
        OfferRejecting(b, name, body);
      }
    } else {
      RoomMeansPush(b, name, body);
    }
  }

  // ---------------------------------------------------------------- all destinations

  /** No destination is the forensic topic of another one. */
  predicate Unrelated(targets: set<Topic>) {
    forall a, b | a in targets && b in targets :: a != DeadLetterTopic(b)
  }

  ghost predicate AllOffered(b: BrokerState, c: BrokerState, targets: set<Topic>, body: string)
    requires targets <= b.topics.Keys && b.topics.Keys == c.topics.Keys
  {
    forall name | name in targets :: Offered(b.topics[name], c.topics[name], body, b.sequence)
  }

  /** Each destination that overflows gives exactly what it sacrifices to its forensic topic. */
  ghost predicate EvidenceGiven(b: BrokerState, c: BrokerState, targets: set<Topic>, body: string)
    requires targets <= b.topics.Keys && b.topics.Keys == c.topics.Keys
  {
    forall name | name in targets && Overflows(b.topics[name]) ::
      var forensic := DeadLetterTopic(name);
      forensic in b.topics && Given(b.topics[forensic], c.topics[forensic], Sacrificed(b.topics[name], body), b.sequence)
  }

  predicate IsEvidenceOf(b: BrokerState, name: Topic, target: Topic)
    requires target in b.topics
  {
    Overflows(b.topics[target]) && name == DeadLetterTopic(target)
  }

  /** Everything but the destinations and the forensic topics of overflowing ones is as it was. */
  ghost predicate OthersUntouched(b: BrokerState, c: BrokerState, targets: set<Topic>)
    requires targets <= b.topics.Keys && b.topics.Keys == c.topics.Keys
  {
    forall name | name in b.topics && name !in targets && (forall t | t in targets :: !IsEvidenceOf(b, name, t)) ::
      c.topics[name] == b.topics[name]
  }

  /** The whole effect of offering `body` to `targets`. */
  ghost predicate Distributed(b: BrokerState, c: BrokerState, targets: set<Topic>, body: string)
    requires targets <= b.topics.Keys
  {
    && b.topics.Keys == c.topics.Keys
    && AllOffered(b, c, targets, body) && EvidenceGiven(b, c, targets, body) && OthersUntouched(b, c, targets)
  }

  predicate AllAdmit(b: BrokerState, targets: set<Topic>)
    requires targets <= b.topics.Keys
  {
    forall name | name in targets :: Admits(b.topics[name])
  }

  lemma TargetsAfter(b: BrokerState, c: BrokerState, names: set<Topic>, x: Topic, group: string, routing: Routing, key: string)
    requires names <= b.topics.Keys && SameShape(b, c)
    ensures Targets(c, names - {x}, group, routing, key) == Targets(b, names, group, routing, key) - {x}
  {
    assert forall name | name in names :: Selects(c.topics[name], group, routing, key) <==> Selects(b.topics[name], group, routing, key);
  }

  lemma ForensicNamesDiffer(a: Topic, b: Topic)
    ensures DeadLetterTopic(a) == DeadLetterTopic(b) ==> a == b
  {
    assert DeadLetterTopic(a)[|DEAD_LETTER_PREFIX|..] == a && DeadLetterTopic(b)[|DEAD_LETTER_PREFIX|..] == b;
  }

  /** The first of several targets leaves the others, and their forensic topics, as they were. */
  lemma RestUnaffected(b: BrokerState, b1: BrokerState, x: Topic, targets: set<Topic>, body: string, t: Topic)
    requires x in targets && t in targets && t != x && targets <= b.topics.Keys && Unrelated(targets)
    requires b.topics.Keys == b1.topics.Keys && OneOffered(b, b1, x, body)
    ensures b1.topics[t] == b.topics[t]
    ensures DeadLetterTopic(t) in b.topics ==> b1.topics[DeadLetterTopic(t)] == b.topics[DeadLetterTopic(t)]
  {
    ForensicNamesDiffer(t, x);
    hide Offered, Given, Overflows, DeadLetterTopic;
  }

  lemma OfferedLater(before: TopicState, after: TopicState, body: string, evidence: string, sequence: nat, later: nat)
    requires sequence <= later
    ensures Offered(before, after, body, later) ==> Offered(before, after, body, sequence)
    ensures Given(before, after, evidence, later) ==> Given(before, after, evidence, sequence)
  {
  }

  /** What the first of several targets and the rest do together, seen at one target. */
  lemma CombinedAt(b: BrokerState, b1: BrokerState, c: BrokerState, x: Topic, targets: set<Topic>, body: string, t: Topic)
    requires x in targets && t in targets && targets <= b.topics.Keys && Unrelated(targets)
    requires b.topics.Keys == b1.topics.Keys == c.topics.Keys && b.sequence <= b1.sequence
    requires OneOffered(b, b1, x, body)
    requires AllOffered(b1, c, targets - {x}, body) && EvidenceGiven(b1, c, targets - {x}, body) && OthersUntouched(b1, c, targets - {x})
    ensures Offered(b.topics[t], c.topics[t], body, b.sequence)
    ensures Overflows(b.topics[t]) ==>
              var forensic := DeadLetterTopic(t);
              forensic in b.topics && Given(b.topics[forensic], c.topics[forensic], Sacrificed(b.topics[t], body), b.sequence)
  {
    var forensic := DeadLetterTopic(t);
    if t == x {
      forall u | u in targets - {x} ensures !IsEvidenceOf(b1, x, u) && !IsEvidenceOf(b1, forensic, u) {
        ForensicNamesDiffer(u, x);
      }
      hide Offered, Given, Overflows, IsEvidenceOf;
      assert c.topics[x] == b1.topics[x];
      assert forensic in b.topics ==> c.topics[forensic] == b1.topics[forensic];
    } else {
      RestUnaffected(b, b1, x, targets, body, t);
      hide OneOffered, OthersUntouched;
      assert Offered(b1.topics[t], c.topics[t], body, b1.sequence);
      OfferedLater(b.topics[t], c.topics[t], body, "", b.sequence, b1.sequence);
      if Overflows(b.topics[t]) {
        assert Given(b1.topics[forensic], c.topics[forensic], Sacrificed(b1.topics[t], body), b1.sequence);
        OfferedLater(b.topics[forensic], c.topics[forensic], "", Sacrificed(b.topics[t], body), b.sequence, b1.sequence);
      }
    }
  }

  lemma OthersCombine(b: BrokerState, b1: BrokerState, c: BrokerState, x: Topic, targets: set<Topic>, body: string)
    requires x in targets && targets <= b.topics.Keys && Unrelated(targets)
    requires b.topics.Keys == b1.topics.Keys == c.topics.Keys
    requires OneOffered(b, b1, x, body) && OthersUntouched(b1, c, targets - {x})
    ensures OthersUntouched(b, c, targets)
  {
    forall t | t in targets - {x} ensures b1.topics[t] == b.topics[t] {
      RestUnaffected(b, b1, x, targets, body, t);
    }
    hide Offered, Given, Overflows;
    forall name | name in b.topics && name !in targets && (forall t | t in targets :: !IsEvidenceOf(b, name, t))
      ensures c.topics[name] == b.topics[name]
    {
      assert !IsEvidenceOf(b, name, x);
      forall t | t in targets - {x} ensures !IsEvidenceOf(b1, name, t) {
        assert !IsEvidenceOf(b, name, t);
      }
    }
  }

  lemma OffersCombine(b: BrokerState, b1: BrokerState, c: BrokerState, x: Topic, targets: set<Topic>, body: string)
    requires x in targets && targets <= b.topics.Keys && Unrelated(targets)
    requires b.topics.Keys == b1.topics.Keys && b.sequence <= b1.sequence
    requires OneOffered(b, b1, x, body) && Distributed(b1, c, targets - {x}, body)
    ensures Distributed(b, c, targets, body)
    ensures AllAdmit(b1, targets - {x}) == AllAdmit(b, targets - {x})
  {
    hide OneOffered, Offered, Given, Overflows, OthersUntouched, Admits;
    OthersCombine(b, b1, c, x, targets, body);
    forall t | t in targets
      ensures Offered(b.topics[t], c.topics[t], body, b.sequence)
      ensures Overflows(b.topics[t]) ==>
                var forensic := DeadLetterTopic(t);
                forensic in b.topics && Given(b.topics[forensic], c.topics[forensic], Sacrificed(b.topics[t], body), b.sequence)
    {
      CombinedAt(b, b1, c, x, targets, body, t);
    }
    forall t | t in targets - {x} ensures b1.topics[t] == b.topics[t] {
      RestUnaffected(b, b1, x, targets, body, t);
    }
  }

  lemma FirstOffer(b: BrokerState, x: Topic, targets: set<Topic>, body: string)
    requires x in targets && targets <= b.topics.Keys && Unrelated(targets) && forall name | name in targets :: Ready(b, name)
    ensures var (b1, verdict) := PublishTo(b, x, body);
            && verdict == (if Admits(b.topics[x]) then Accepted else Rejected)
            && OneOffered(b, b1, x, body)
            && (forall name | name in targets :: Ready(b1, name))
            && Unrelated(targets - {x}) && SameShape(b, b1)
  {
    hide OneOffered, Admits, PublishTo;
    OfferOne(b, x, body);
    forall name | name in targets ensures Ready(PublishTo(b, x, body).0, name) {
      ReadyStays(b, PublishTo(b, x, body).0, name);
    }
  }

  /** The induction step: the target visited first, then the rest. */
  lemma {:induction false} FanoutFirst(b: BrokerState, names: set<Topic>, group: string, routing: Routing, key: string,
                                       body: string, accepted: bool)
    requires names <= b.topics.Keys && names != {} && Selects(b.topics[Least(names)], group, routing, key)
    requires var targets := Targets(b, names, group, routing, key);
             Unrelated(targets) && forall name | name in targets :: Ready(b, name)
    ensures var targets := Targets(b, names, group, routing, key);
            var (c, verdict) := Fanout(b, names, group, routing, key, body, accepted);
            && verdict == (if accepted && AllAdmit(b, targets) then Accepted else Rejected)
            && Distributed(b, c, targets, body)
    decreases names, 0
  {
    var x, targets := Least(names), Targets(b, names, group, routing, key);
    assert x in targets && targets <= b.topics.Keys;
    hide *;
    FirstOffer(b, x, targets, body);
    var (b1, verdict) := PublishTo(b, x, body);
    RestIsReady(b, b1, names, x, group, routing, key);
    FanoutUnfolds(b, names, group, routing, key, body, accepted);
    FanoutExact(b1, names - {x}, group, routing, key, body, verdict == Accepted && accepted);
    AdmitSplit(b, targets, x);
    OffersCombine(b, b1, Fanout(b, names, group, routing, key, body, accepted).0, x, targets, body);
  }

  lemma RestIsReady(b: BrokerState, b1: BrokerState, names: set<Topic>, x: Topic, group: string, routing: Routing, key: string)
    requires names <= b.topics.Keys && SameShape(b, b1)
    requires var targets := Targets(b, names, group, routing, key);
             Unrelated(targets - {x}) && forall name | name in targets :: Ready(b1, name)
    ensures b1.topics.Keys == b.topics.Keys && b.sequence <= b1.sequence
    ensures var rest := Targets(b1, names - {x}, group, routing, key);
            && rest == Targets(b, names, group, routing, key) - {x}
            && Unrelated(rest) && forall name | name in rest :: Ready(b1, name)
  {
    hide Ready, Unrelated, Selects;
    TargetsAfter(b, b1, names, x, group, routing, key);
  }

  lemma FanoutUnfolds(b: BrokerState, names: set<Topic>, group: string, routing: Routing, key: string, body: string, accepted: bool)
    requires names <= b.topics.Keys && names != {} && Selects(b.topics[Least(names)], group, routing, key)
    requires PublishTo(b, Least(names), body).1 != Failed
    ensures var (b1, verdict) := PublishTo(b, Least(names), body);
            && names - {Least(names)} <= b1.topics.Keys
            && Fanout(b, names, group, routing, key, body, accepted)
               == Fanout(b1, names - {Least(names)}, group, routing, key, body, verdict == Accepted && accepted)
            && Fanout(b, names, group, routing, key, body, accepted).0.topics.Keys == b.topics.Keys
  {
    hide PublishTo, Selects;
  }

  lemma AdmitSplit(b: BrokerState, targets: set<Topic>, x: Topic)
    requires targets <= b.topics.Keys && x in targets
    ensures AllAdmit(b, targets) <==> Admits(b.topics[x]) && AllAdmit(b, targets - {x})
  {
    hide Admits;
  }

  lemma {:induction false} FanoutExact(b: BrokerState, names: set<Topic>, group: string, routing: Routing, key: string,
                                       body: string, accepted: bool)
    requires names <= b.topics.Keys
    requires var targets := Targets(b, names, group, routing, key);
             Unrelated(targets) && forall name | name in targets :: Ready(b, name)
    ensures var targets := Targets(b, names, group, routing, key);
            var (c, verdict) := Fanout(b, names, group, routing, key, body, accepted);
            && verdict == (if accepted && AllAdmit(b, targets) then Accepted else Rejected)
            && Distributed(b, c, targets, body)
    decreases names, 1
  {
    var targets := Targets(b, names, group, routing, key);
    if names != {} {
      var x := Least(names);
      hide Offered, Ready, Admits, IsForensicOf, PublishTo;
      if Selects(b.topics[x], group, routing, key) {
        FanoutFirst(b, names, group, routing, key, body, accepted);
      } else {
        TargetsAfter(b, b, names, x, group, routing, key);
        assert targets - {x} == targets;
        FanoutExact(b, names - {x}, group, routing, key, body, accepted);
      }
    }
  }

  lemma PublishToFrame(b: BrokerState, topic: Topic, body: string, name: Topic)
    requires topic in b.topics && name in b.topics && name != topic && !IsForensicOf(name, topic)
    ensures PublishTo(b, topic, body).0.topics[name] == b.topics[name]
  {
    hide Enqueue, IsForensicOf;
    var b1 := Restamp(b, topic, body);
    EnqueueFrame(b1, topic, Held(b1.sequence, body, false), name);
  }

  /** In any broker state, and even if dead-lettering throws: nothing else is touched. */
  lemma {:induction false} FanoutFrame(b: BrokerState, names: set<Topic>, group: string, routing: Routing, key: string,
                                       body: string, accepted: bool, name: Topic)
    requires names <= b.topics.Keys && name in b.topics
    requires var targets := Targets(b, names, group, routing, key);
             name !in targets && forall t | t in targets :: !IsForensicOf(name, t)
    ensures Fanout(b, names, group, routing, key, body, accepted).0.topics[name] == b.topics[name]
    decreases names
  {
    if names != {} {
      var x := Least(names);
      hide IsForensicOf, PublishTo;
      if Selects(b.topics[x], group, routing, key) {
        var (b1, verdict) := PublishTo(b, x, body);
        PublishToFrame(b, x, body, name);
        if verdict != Failed {
          TargetsAfter(b, b1, names, x, group, routing, key);
          FanoutFrame(b1, names - {x}, group, routing, key, body, verdict == Accepted && accepted, name);
        }
      } else {
        FanoutFrame(b, names - {x}, group, routing, key, body, accepted, name);
      }
    }
  }

  // ---------------------------------------------------------------- publish

  /** The route a message travels under: its own, or the publisher's binding. */
  function KeyOf(b: BrokerState, topic: Topic, route: string): string
    requires topic in b.topics
  {
    if route == "" then b.topics[topic].binding else route
  }

  /** The destinations one publish to a grouped topic reaches. */
  function Reached(b: BrokerState, topic: Topic, route: string): set<Topic>
    requires topic in b.topics
  {
    var group := GroupOf(b, topic);
    Targets(b, b.topics.Keys, group, TouchGroup(b, group).groups[group], KeyOf(b, topic, route))
  }

  /**
   * A grouped publish is exact: every destination of the group that the route reaches gets one copy
   * of the body at its end (or refuses it, as its overflow policy says); the forensic topic of each one
   * that overflows gets what it sacrifices, unless at its cap; no other topic changes; and the answer
   * is yes exactly when no destination refused.
   */
  lemma GroupedPublishIsExact(b: BrokerState, topic: Topic, body: string, route: string)
    requires topic in b.topics && b.topics[topic].options.group != ""
    requires Unrelated(Reached(b, topic, route)) && forall name | name in Reached(b, topic, route) :: Ready(b, name)
    ensures var (c, verdict) := Publish(b, topic, body, route);
            && c.topics.Keys == b.topics.Keys
            && verdict == (if AllAdmit(b, Reached(b, topic, route)) then Accepted else Rejected)
            && Distributed(b, c, Reached(b, topic, route), body)
  {
    var group := b.topics[topic].options.group;
    var b1 := TouchGroup(b, group);
    hide Selects, Ready, Offered, Unrelated, Admits, IsForensicOf;
    assert Targets(b1, b1.topics.Keys, group, b1.groups[group], KeyOf(b, topic, route)) == Reached(b, topic, route);
    forall name | name in Reached(b, topic, route) ensures Ready(b1, name) {
      ReadyInGroup(b, group, name);
    }
    hide Fanout;
    FanoutExact(b1, b1.topics.Keys, group, b1.groups[group], KeyOf(b, topic, route), body, true);
  }

  lemma ReadyInGroup(b: BrokerState, group: string, name: Topic)
    requires Ready(b, name)
    ensures Ready(TouchGroup(b, group), name)
  {
  }

  /** Whatever the routing kind and however odd the binding, a publish without a route reaches its own topic. */
  lemma OwnRouteReachesSelf(b: BrokerState, topic: Topic)
    requires topic in b.topics && b.topics[topic].options.group != ""
    ensures topic in Reached(b, topic, "")
  {
    Routes.MatchesItself(Routes.Split(b.topics[topic].binding));
  }

  /** A route no binding matches is accepted and delivered to nobody. */
  lemma UnmatchedRouteVanishes(b: BrokerState, topic: Topic, body: string, route: string)
    requires topic in b.topics && b.topics[topic].options.group != "" && Reached(b, topic, route) == {}
    ensures var (c, verdict) := Publish(b, topic, body, route);
            verdict == Accepted && c.topics == b.topics
  {
    GroupedPublishIsExact(b, topic, body, route);
    hide Publish, Reached, IsForensicOf;
  }

  // ---------------------------------------------------------------- exceptions

  /** The destinations the loop visits before `name`. */
  function Before(names: set<Topic>, name: Topic): set<Topic> {
    set other | other in names && other != name && Leq(other, name)
  }

  /** The broker as the publish loop finds it when it comes to `name`. */
  ghost function WhenReaching(b: BrokerState, names: set<Topic>, group: string, routing: Routing, key: string, body: string,
                              name: Topic): BrokerState
    requires names <= b.topics.Keys
  {
    Fanout(b, Before(names, name), group, routing, key, body, true).0
  }

  /** The answer the loop starts from decides neither what it does nor whether it throws. */
  lemma {:induction false} AnswerIsNoMatter(b: BrokerState, names: set<Topic>, group: string, routing: Routing, key: string,
                                            body: string, accepted: bool)
    requires names <= b.topics.Keys
    ensures var (c, verdict) := Fanout(b, names, group, routing, key, body, accepted);
            var (c', verdict') := Fanout(b, names, group, routing, key, body, true);
            c == c' && (verdict == Failed <==> verdict' == Failed)
    decreases names
  {
    if names != {} {
      var x := Least(names);
      hide PublishTo, Selects;
      if Selects(b.topics[x], group, routing, key) {
        var (b1, verdict) := PublishTo(b, x, body);
        if verdict != Failed {
          AnswerIsNoMatter(b1, names - {x}, group, routing, key, body, verdict == Accepted && accepted);
          AnswerIsNoMatter(b1, names - {x}, group, routing, key, body, verdict == Accepted);
        }
      } else {
        AnswerIsNoMatter(b, names - {x}, group, routing, key, body, accepted);
      }
    }
  }

  lemma BeforeOthers(names: set<Topic>, x: Topic, name: Topic)
    requires IsLeast(x, names) && name in names && name != x
    ensures x in Before(names, name) && IsLeast(x, Before(names, name))
    ensures Before(names, name) - {x} == Before(names - {x}, name)
  {
  }

  lemma NothingBefore(names: set<Topic>, x: Topic)
    requires IsLeast(x, names)
    ensures Before(names, x) == {}
  {
    forall other | other in names && Leq(other, x) ensures other == x {
      LeqAntisymmetric(other, x);
    }
  }

  /** The loop comes to the destination `name` and finds it overwhelmed. */
  ghost predicate StopsAt(b: BrokerState, names: set<Topic>, group: string, routing: Routing, key: string, body: string,
                          name: Topic)
    requires names <= b.topics.Keys
  {
    && name in Targets(b, names, group, routing, key)
    && Overwhelmed(WhenReaching(b, names, group, routing, key, body, name), name)
  }

  /** After the first visit, the loop over the rest finds every later destination as the whole loop does. */
  lemma WhenReachingLater(b: BrokerState, names: set<Topic>, group: string, routing: Routing, key: string, body: string,
                          name: Topic)
    requires names <= b.topics.Keys && name in names && name != Least(names)
    requires var x := Least(names); Selects(b.topics[x], group, routing, key) ==> PublishTo(b, x, body).1 != Failed
    ensures var x := Least(names);
            var b1 := if Selects(b.topics[x], group, routing, key) then PublishTo(b, x, body).0 else b;
            && names - {x} <= b1.topics.Keys
            && WhenReaching(b, names, group, routing, key, body, name)
               == WhenReaching(b1, names - {x}, group, routing, key, body, name)
  {
    var x, before := Least(names), Before(names, name);
    BeforeOthers(names, x, name);
    LeastIsUnique(x, before);
    hide PublishTo, Selects;
    if Selects(b.topics[x], group, routing, key) {
      var (b1, verdict) := PublishTo(b, x, body);
      AnswerIsNoMatter(b1, before - {x}, group, routing, key, body, verdict == Accepted);
    }
  }

  /** The broker after the visit to the first name. */
  ghost function AfterFirst(b: BrokerState, names: set<Topic>, group: string, routing: Routing, key: string, body: string)
    : (b1: BrokerState)
    requires names <= b.topics.Keys && names != {}
    ensures SameShape(b, b1)
  {
    var x := Least(names);
    if Selects(b.topics[x], group, routing, key) then PublishTo(b, x, body).0 else b
  }

  predicate FirstThrows(b: BrokerState, x: Topic, group: string, routing: Routing, key: string, body: string)
    requires x in b.topics
  {
    Selects(b.topics[x], group, routing, key) && PublishTo(b, x, body).1 == Failed
  }

  lemma StopsLater(b: BrokerState, names: set<Topic>, group: string, routing: Routing, key: string, body: string, name: Topic)
    requires names <= b.topics.Keys && name in names && name != Least(names)
    requires !FirstThrows(b, Least(names), group, routing, key, body)
    ensures var b1 := AfterFirst(b, names, group, routing, key, body);
            names - {Least(names)} <= b1.topics.Keys
            && (StopsAt(b1, names - {Least(names)}, group, routing, key, body, name)
                <==> StopsAt(b, names, group, routing, key, body, name))
  {
    var x := Least(names);
    WhenReachingLater(b, names, group, routing, key, body, name);
    TargetsAfter(b, AfterFirst(b, names, group, routing, key, body), names, x, group, routing, key);
    hide PublishTo, Selects, Overwhelmed, WhenReaching;
  }

  lemma StopsFirst(b: BrokerState, names: set<Topic>, group: string, routing: Routing, key: string, body: string)
    requires names <= b.topics.Keys && names != {}
    ensures StopsAt(b, names, group, routing, key, body, Least(names))
            <==> FirstThrows(b, Least(names), group, routing, key, body)
  {
    hide Overwhelmed, PublishTo, Selects;
    var x := Least(names);
    NothingBefore(names, x);
    OfferFailsIff(b, x, body);
    assert WhenReaching(b, names, group, routing, key, body, x) == b;
  }

  lemma {:induction false} FanoutFailsIff(b: BrokerState, names: set<Topic>, group: string, routing: Routing, key: string,
                                          body: string, accepted: bool)
    requires names <= b.topics.Keys
    ensures Fanout(b, names, group, routing, key, body, accepted).1 == Failed
            <==> exists name :: StopsAt(b, names, group, routing, key, body, name)
    decreases names
  {
    hide PublishTo, Selects, Overwhelmed, WhenReaching;
    if names != {} {
      var x := Least(names);
      StopsFirst(b, names, group, routing, key, body);
      if !FirstThrows(b, x, group, routing, key, body) {
        var b1 := AfterFirst(b, names, group, routing, key, body);
        var rest := Selects(b.topics[x], group, routing, key) ==> PublishTo(b, x, body).1 == Accepted;
        FanoutFailsIff(b1, names - {x}, group, routing, key, body, rest && accepted);
        forall name | name in names && name != x
          ensures StopsAt(b1, names - {x}, group, routing, key, body, name)
                  <==> StopsAt(b, names, group, routing, key, body, name)
        {
          StopsLater(b, names, group, routing, key, body, name);
        }
        OnlyNamesStop(b, names, group, routing, key, body);
        OnlyNamesStop(b1, names - {x}, group, routing, key, body);
        hide StopsAt;
      }
    }
  }

  lemma OnlyNamesStop(b: BrokerState, names: set<Topic>, group: string, routing: Routing, key: string, body: string)
    requires names <= b.topics.Keys
    ensures forall name | StopsAt(b, names, group, routing, key, body, name) :: name in names
  {
    hide Overwhelmed, WhenReaching, Selects;
  }

  /**
   * A grouped publish throws exactly when one of the destinations its route reaches is overwhelmed at the
   * moment the loop comes to it. The loop has then served the destinations before it, and not those after.
   */
  lemma GroupedPublishFailsIff(b: BrokerState, topic: Topic, body: string, route: string)
    requires topic in b.topics && b.topics[topic].options.group != ""
    ensures var group, key := GroupOf(b, topic), KeyOf(b, topic, route);
            var b1 := TouchGroup(b, group);
            Publish(b, topic, body, route).1 == Failed
            <==> exists name :: StopsAt(b1, b1.topics.Keys, group, b1.groups[group], key, body, name)
  {
    var group, key := GroupOf(b, topic), KeyOf(b, topic, route);
    var b1 := TouchGroup(b, group);
    PublishIsFanout(b, topic, body, route);
    hide Fanout, StopsAt, Reached;
    FanoutFailsIff(b1, b1.topics.Keys, group, b1.groups[group], key, body, true);
  }

  /** No destination is reached from another one by dead-lettering, however often. */
  predicate Apart(targets: set<Topic>) {
    forall a, b | a in targets && b in targets :: !IsForensicOf(a, b)
  }

  lemma {:induction false} ForensicOfShorter(a: Topic, b: Topic)
    requires IsForensicOf(DeadLetterTopic(a), DeadLetterTopic(b))
    ensures IsForensicOf(a, b)
    decreases |a| - |b|
  {
    ForensicNamesDiffer(a, DeadLetterTopic(b));
    if a != DeadLetterTopic(b) {
      ForensicOfShorter(a, DeadLetterTopic(b));
    }
  }

  /** Two chains that meet are one chain. */
  lemma {:induction false} ChainsMeet(name: Topic, a: Topic, b: Topic)
    requires IsForensicOf(name, a) && IsForensicOf(name, b) && a != b
    ensures IsForensicOf(a, b) || IsForensicOf(b, a)
    decreases |name| - |a|
  {
    ForensicNamesDiffer(a, b);
    if name == DeadLetterTopic(a) {
      ForensicOfShorter(a, b);
    } else if DeadLetterTopic(a) != b {
      ChainsMeet(name, DeadLetterTopic(a), b);
      if IsForensicOf(DeadLetterTopic(a), b) && DeadLetterTopic(a) != DeadLetterTopic(b) {
        ForensicOfShorter(a, b);
      }
    }
  }

  lemma {:induction false} BrokenChainFrame(b: BrokerState, c: BrokerState, source: Topic)
    requires b.topics.Keys == c.topics.Keys
    requires forall name | name in b.topics && (name == source || IsForensicOf(name, source)) :: c.topics[name] == b.topics[name]
    ensures Broken(b, source) <==> Broken(c, source)
    decreases LongerNames(b, source)
  {
    var forensic := DeadLetterTopic(source);
    if source in b.topics && forensic in b.topics {
      NamesShrink(b, b, source);
      BrokenChainFrame(b, c, forensic);
    }
  }

  lemma ChainUntouched(b: BrokerState, names: set<Topic>, group: string, routing: Routing, key: string, body: string,
                       x: Topic, name: Topic)
    requires names <= b.topics.Keys && Apart(Targets(b, names, group, routing, key))
    requires x in Targets(b, names, group, routing, key) && name in b.topics && (name == x || IsForensicOf(name, x))
    ensures WhenReaching(b, names, group, routing, key, body, x).topics[name] == b.topics[name]
  {
    hide IsForensicOf, Fanout, Selects;
    var before := Before(names, x);
    forall t | t in Targets(b, before, group, routing, key) ensures name != t && !IsForensicOf(name, t) {
      if name != x && IsForensicOf(name, t) {
        ChainsMeet(name, x, t);
      }
    }
    FanoutFrame(b, before, group, routing, key, body, true, name);
  }

  lemma StopsAtIff(b: BrokerState, names: set<Topic>, group: string, routing: Routing, key: string, body: string, x: Topic)
    requires names <= b.topics.Keys && Apart(Targets(b, names, group, routing, key))
    ensures StopsAt(b, names, group, routing, key, body, x)
            <==> x in Targets(b, names, group, routing, key) && Overwhelmed(b, x)
  {
    hide Apart, IsForensicOf, Fanout, Selects, Broken;
    if x in Targets(b, names, group, routing, key) {
      var c := WhenReaching(b, names, group, routing, key, body, x);
      forall name | name in b.topics && (name == x || IsForensicOf(name, x)) ensures c.topics[name] == b.topics[name] {
        ChainUntouched(b, names, group, routing, key, body, x, name);
      }
      BrokenChainFrame(b, c, x);
    }
  }

  /** For destinations that are not forensic to one another, the state before the call tells. */
  lemma ApartPublishFailsIff(b: BrokerState, topic: Topic, body: string, route: string)
    requires topic in b.topics && b.topics[topic].options.group != "" && Apart(Reached(b, topic, route))
    ensures Publish(b, topic, body, route).1 == Failed
            <==> exists name | name in Reached(b, topic, route) :: Overwhelmed(b, name)
  {
    var group, key := GroupOf(b, topic), KeyOf(b, topic, route);
    var b1 := TouchGroup(b, group);
    GroupedPublishFailsIff(b, topic, body, route);
    PublishIsFanout(b, topic, body, route);
    hide Publish, Reached, StopsAt, Apart, Broken;
    forall name ensures StopsAt(b1, b1.topics.Keys, group, b1.groups[group], key, body, name)
                        <==> name in Reached(b, topic, route) && Overwhelmed(b, name) {
      StopsAtIff(b1, b1.topics.Keys, group, b1.groups[group], key, body, name);
      if name in b.topics {
        BrokenChainFrame(b, b1, name);
      }
    }
  }

  /** The position of a target when the targets are visited in key order, from 1. */
  ghost function Rank(targets: set<Topic>, name: Topic): nat {
    |set other | other in targets && Leq(other, name)|
  }

  /** With room everywhere, the copies are stamped in key order, one number each. */
  ghost predicate StampedInOrder(b: BrokerState, c: BrokerState, targets: set<Topic>, body: string) {
    && c.sequence == b.sequence + |targets|
    && b.topics.Keys == c.topics.Keys
    && forall name | name in b.topics ::
         c.topics[name] ==
           if name in targets
           then b.topics[name].(messages := b.topics[name].messages + [Held(b.sequence + Rank(targets, name), body, false)])
           else b.topics[name]
  }

  lemma RankAfterLeast(targets: set<Topic>, x: Topic, name: Topic)
    requires IsLeast(x, targets) && name in targets
    ensures Rank(targets, name) == (if name == x then 1 else 1 + Rank(targets - {x}, name))
  {
    LeqTotal(x, x);
    var before := set other | other in targets && Leq(other, name);
    if name == x {
      forall other | other in before ensures other == x { LeqAntisymmetric(other, x); }
      assert before == {x};
    } else {
      assert (set other | other in targets - {x} && Leq(other, name)) == before - {x};
    }
  }

  lemma StampsCombine(b: BrokerState, b1: BrokerState, c: BrokerState, x: Topic, targets: set<Topic>, body: string)
    requires IsLeast(x, targets) && targets <= b.topics.Keys && b1.sequence == b.sequence + 1
    requires b1.topics == b.topics[x := b.topics[x].(messages := b.topics[x].messages + [Held(b.sequence + 1, body, false)])]
    requires StampedInOrder(b1, c, targets - {x}, body)
    ensures StampedInOrder(b, c, targets, body)
  {
    hide Rank;
    forall name | name in targets
      ensures Rank(targets, name) == if name == x then 1 else 1 + Rank(targets - {x}, name)
    {
      RankAfterLeast(targets, x, name);
    }
  }

  /** The first destination visited has room: it gets the next number, and the loop goes on with the others. */
  lemma FirstStamp(b: BrokerState, names: set<Topic>, group: string, routing: Routing, key: string, body: string)
    requires names <= b.topics.Keys && names != {} && Selects(b.topics[Least(names)], group, routing, key)
    requires forall name | name in Targets(b, names, group, routing, key) :: !Full(b.topics[name])
    ensures var x, targets := Least(names), Targets(b, names, group, routing, key);
            var b1 := PublishTo(b, x, body).0;
            && IsLeast(x, targets) && targets <= b.topics.Keys && b1.sequence == b.sequence + 1
            && b1.topics == b.topics[x := b.topics[x].(messages := b.topics[x].messages + [Held(b.sequence + 1, body, false)])]
            && Targets(b1, names - {x}, group, routing, key) == targets - {x}
            && (forall name | name in targets - {x} :: !Full(b1.topics[name]))
            && Fanout(b, names, group, routing, key, body, true) == Fanout(b1, names - {x}, group, routing, key, body, true)
  {
    hide PublishTo, Selects;
    var x := Least(names);
    RoomMeansPush(b, x, body);
    TargetsAfter(b, PublishTo(b, x, body).0, names, x, group, routing, key);
  }

  lemma {:induction false} FanoutStamps(b: BrokerState, names: set<Topic>, group: string, routing: Routing, key: string,
                                        body: string)
    requires names <= b.topics.Keys
    requires forall name | name in Targets(b, names, group, routing, key) :: !Full(b.topics[name])
    ensures var (c, verdict) := Fanout(b, names, group, routing, key, body, true);
            verdict == Accepted && StampedInOrder(b, c, Targets(b, names, group, routing, key), body)
    decreases names
  {
    hide PublishTo, Selects, Full;
    var targets := Targets(b, names, group, routing, key);
    if names != {} {
      var x := Least(names);
      if Selects(b.topics[x], group, routing, key) {
        hide StampedInOrder;
        FirstStamp(b, names, group, routing, key, body);
        var b1 := PublishTo(b, x, body).0;
        FanoutStamps(b1, names - {x}, group, routing, key, body);
        StampsCombine(b, b1, Fanout(b1, names - {x}, group, routing, key, body, true).0, x, targets, body);
      } else {
        TargetsAfter(b, b, names, x, group, routing, key);
        assert targets - {x} == targets;
        FanoutStamps(b, names - {x}, group, routing, key, body);
      }
    }
  }

  lemma PublishIsFanout(b: BrokerState, topic: Topic, body: string, route: string)
    requires topic in b.topics && b.topics[topic].options.group != ""
    ensures var group := b.topics[topic].options.group;
            var b1 := TouchGroup(b, group);
            && b1.topics == b.topics && b1.sequence == b.sequence
            && Targets(b1, b1.topics.Keys, group, b1.groups[group], KeyOf(b, topic, route)) == Reached(b, topic, route)
            && Publish(b, topic, body, route)
               == Fanout(b1, b1.topics.Keys, group, b1.groups[group], KeyOf(b, topic, route), body, true)
  {
    hide Selects, Fanout;
  }

  /** With room at every destination reached: one identical copy each, and not a single other change to any topic. */
  lemma GroupedPublishWithRoom(b: BrokerState, topic: Topic, body: string, route: string)
    requires topic in b.topics && b.topics[topic].options.group != ""
    requires forall name | name in Reached(b, topic, route) :: !Full(b.topics[name])
    ensures var (c, verdict) := Publish(b, topic, body, route);
            verdict == Accepted && StampedInOrder(b, c, Reached(b, topic, route), body)
  {
    var group := b.topics[topic].options.group;
    var b1, key := TouchGroup(b, group), KeyOf(b, topic, route);
    PublishIsFanout(b, topic, body, route);
    hide *;
    FanoutStamps(b1, b1.topics.Keys, group, b1.groups[group], key, body);
    StampsTransfer(b, b1, Publish(b, topic, body, route).0, Reached(b, topic, route), body);
  }

  lemma StampsTransfer(b: BrokerState, b1: BrokerState, c: BrokerState, targets: set<Topic>, body: string)
    requires b1.topics == b.topics && b1.sequence == b.sequence && StampedInOrder(b1, c, targets, body)
    ensures StampedInOrder(b, c, targets, body)
  {
  }

  /** Whatever the overflow policies do, a topic that is no destination and no destination's forensic topic is as it was. */
  lemma PublishFrame(b: BrokerState, topic: Topic, body: string, route: string, name: Topic)
    requires topic in b.topics && name in b.topics && name != topic
    requires !IsForensicOf(name, topic)
    requires b.topics[topic].options.group != "" ==>
               name !in Reached(b, topic, route) && forall t | t in Reached(b, topic, route) :: !IsForensicOf(name, t)
    ensures Publish(b, topic, body, route).0.topics[name] == b.topics[name]
  {
    var group := b.topics[topic].options.group;
    var b1 := TouchGroup(b, group);
    hide Selects, Fanout, IsForensicOf, PublishTo;
    if group == "" {
      PublishToFrame(b, topic, body, name);
    } else {
      assert Targets(b1, b1.topics.Keys, group, b1.groups[group], KeyOf(b, topic, route)) == Reached(b, topic, route);
      FanoutFrame(b1, b1.topics.Keys, group, b1.groups[group], KeyOf(b, topic, route), body, true, name);
    }
  }
}
