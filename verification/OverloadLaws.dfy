/** What a bounded topic keeps, and what its forensic topic keeps, when nobody consumes. */
module OverloadLaws {
  import opened Arithmetic
  import opened Seam
  import opened BrokerModel
  import opened TransportModel
  import opened FleetLaws
  import opened Guarantees

  /** Publishes one after the other, and what each answered. */
  ghost function PublishAll(b: BrokerState, topic: Topic, bodies: seq<string>): (BrokerState, seq<Verdict>)
    decreases |bodies|
  {
    if bodies == [] then (b, [])
    else
      var (b1, verdicts) := PublishAll(b, topic, bodies[..|bodies| - 1]);
      var (b2, verdict) := Publish(b1, topic, bodies[|bodies| - 1], "");
      (b2, verdicts + [verdict])
  }

  function Bodies(q: seq<Held>): (bodies: seq<string>)
    ensures |bodies| == |q|
  {
    seq(|q|, i requires 0 <= i < |q| => q[i].body)
  }

  /** How many of `n` publishes overflow a topic of length `m`. */
  function Excess(n: nat, m: nat): nat {
    if n <= m then 0 else n - m
  }

  function Kept(bodies: seq<string>, m: nat, overflow: OverflowPolicy): seq<string> {
    if overflow == DropHead then bodies[Excess(|bodies|, m)..] else bodies[..Min(|bodies|, m)]
  }

  /** The dead letters kept: the first 2000 bodies sacrificed. */
  function Evidence(bodies: seq<string>, m: nat, overflow: OverflowPolicy): seq<string> {
    var count := Min(Excess(|bodies|, m), FORENSIC_MAX_LENGTH);
    match overflow
    case DropHead => bodies[..count]
    case RejectPublish => []
    case RejectPublishDlx => bodies[Min(|bodies|, m)..Min(|bodies|, m) + count]
  }

  function Answer(index: nat, m: nat, overflow: OverflowPolicy): Verdict {
    if index < m || overflow == DropHead then Accepted else Rejected
  }

  /** An ungrouped topic of length m with dead-lettering ready. */
  predicate BoundedTopic(b: BrokerState, topic: Topic, m: nat, overflow: OverflowPolicy) {
    && topic in b.topics && ForensicReady(b, topic)
    && var options := b.topics[topic].options;
       options.maxLength == m && m > 0 && options.overflow == overflow && options.deadLetter && options.group == ""
  }

  lemma BoundedStays(b: BrokerState, c: BrokerState, topic: Topic, m: nat, overflow: OverflowPolicy)
    requires BoundedTopic(b, topic, m, overflow) && SameShape(b, c)
    ensures BoundedTopic(c, topic, m, overflow)
  {
    assert DeadLetterTopic(topic) in c.topics;
  }

  /** What one publish does to the two queues; `stamp` is the number it takes. */
  ghost predicate Effect(b: BrokerState, topic: Topic, m: nat, overflow: OverflowPolicy, body: string)
    requires topic in b.topics
  {
    var (c, verdict) := PublishTo(b, topic, body);
    var forensic, stamp := DeadLetterTopic(topic), b.sequence + 1;
    var q, f := Queue(b, topic), Queue(b, forensic);
    var arriving := Held(stamp, body, false);
    var sacrificed := Held(stamp + 1, if overflow == DropHead && q != [] then q[0].body else body, false);
    && verdict == (if |q| < m || overflow == DropHead then Accepted else Rejected)
    && Queue(c, topic) == (if |q| < m then q + [arriving] else if overflow == DropHead && q != [] then q[1..] + [arriving] else q)
    && Queue(c, forensic) == (if |q| < m || overflow == RejectPublish || |f| >= FORENSIC_MAX_LENGTH then f else f + [sacrificed])
  }

  lemma RoomEffect(b: BrokerState, topic: Topic, m: nat, overflow: OverflowPolicy, body: string)
    requires BoundedTopic(b, topic, m, overflow) && |Queue(b, topic)| < m
    ensures Effect(b, topic, m, overflow, body)
  {
    assert DeadLetterTopic(topic) != topic;
  }

  lemma DropHeadEffect(b: BrokerState, topic: Topic, m: nat, body: string)
    requires BoundedTopic(b, topic, m, DropHead) && |Queue(b, topic)| >= m
    ensures Effect(b, topic, m, DropHead, body)
  {
    hide EndsWith, DeadLetter;
    var q, b1 := Queue(b, topic), Restamp(b, topic, body);
    var b2 := DropFront(b1, topic);
    assert DeadLetterTopic(topic) != topic;
    ForensicTakes(b2, topic, q[0]);
    assert Pressure(|Queue(b, DeadLetterTopic(topic))|, FORENSIC_MAX_LENGTH) == AtCap
           <==> |Queue(b, DeadLetterTopic(topic))| >= FORENSIC_MAX_LENGTH;
    hide Pressure;
    var b3 := DeadLetter(b2, topic, q[0]).0;
    assert Queue(b3, topic) == q[1..];
  }

  lemma RejectEffect(b: BrokerState, topic: Topic, m: nat, overflow: OverflowPolicy, body: string)
    requires BoundedTopic(b, topic, m, overflow) && |Queue(b, topic)| >= m && overflow != DropHead
    ensures Effect(b, topic, m, overflow, body)
  {
    hide EndsWith, DeadLetter;
    var b1 := Restamp(b, topic, body);
    assert DeadLetterTopic(topic) != topic;
    ForensicTakes(b1, topic, Held(b1.sequence, body, false));
    assert Pressure(|Queue(b, DeadLetterTopic(topic))|, FORENSIC_MAX_LENGTH) == AtCap
           <==> |Queue(b, DeadLetterTopic(topic))| >= FORENSIC_MAX_LENGTH;
  }

  lemma BodiesOf(q: seq<Held>, held: Held)
    ensures Bodies(q + [held]) == Bodies(q) + [held.body]
    ensures q != [] ==> Bodies(q[1..]) == Bodies(q)[1..]
    ensures q != [] ==> Bodies(q[1..] + [held]) == Bodies(q)[1..] + [held.body]
  {
  }

  /** One publish to a bounded topic with a ready forensic topic. */
  lemma OnePublish(b: BrokerState, topic: Topic, m: nat, overflow: OverflowPolicy, body: string)
    requires BoundedTopic(b, topic, m, overflow)
    ensures var (c, verdict) := PublishTo(b, topic, body);
            var q, f := Bodies(Queue(b, topic)), Bodies(Queue(b, DeadLetterTopic(topic)));
            var q', f' := Bodies(Queue(c, topic)), Bodies(Queue(c, DeadLetterTopic(topic)));
            && BoundedTopic(c, topic, m, overflow)
            && verdict == (if |q| < m || overflow == DropHead then Accepted else Rejected)
            && q' == (if |q| < m then q + [body] else if overflow == DropHead then q[1..] + [body] else q)
            && f' == if |q| < m || overflow == RejectPublish || |f| >= FORENSIC_MAX_LENGTH then f
                     else f + [if overflow == DropHead then q[0] else body]
  {
    var forensic, stamp := DeadLetterTopic(topic), b.sequence + 1;
    var q, f := Queue(b, topic), Queue(b, forensic);
    if |q| < m {
      RoomEffect(b, topic, m, overflow, body);
    } else if overflow == DropHead {
      DropHeadEffect(b, topic, m, body);
    } else {
      RejectEffect(b, topic, m, overflow, body);
    }
    var c := PublishTo(b, topic, body).0;
    BoundedStays(b, c, topic, m, overflow);
    assert m > 0;
    hide PublishTo, BoundedTopic;
    BodiesOf(q, Held(stamp, body, false));
    BodiesOf(f, Held(stamp + 1, if overflow == DropHead && q != [] then q[0].body else body, false));
  }

  /** Where n publishes with nobody consuming leave a bounded topic and its forensic topic. */
  ghost predicate Overloaded(b: BrokerState, topic: Topic, m: nat, overflow: OverflowPolicy, bodies: seq<string>) {
    && Bodies(Queue(b, topic)) == Kept(bodies, m, overflow)
    && Bodies(Queue(b, DeadLetterTopic(topic))) == Evidence(bodies, m, overflow)
  }

  predicate Answers(verdicts: seq<Verdict>, m: nat, overflow: OverflowPolicy) {
    forall i | 0 <= i < |verdicts| :: verdicts[i] == Answer(i, m, overflow)
  }

  lemma OneMore(b: BrokerState, topic: Topic, m: nat, overflow: OverflowPolicy, front: seq<string>, last: string)
    requires BoundedTopic(b, topic, m, overflow) && Overloaded(b, topic, m, overflow, front)
    ensures var (c, verdict) := Publish(b, topic, last, "");
            && BoundedTopic(c, topic, m, overflow) && Overloaded(c, topic, m, overflow, front + [last])
            && verdict == Answer(|front|, m, overflow)
  {
    OnePublish(b, topic, m, overflow, last);
    assert m > 0;
    hide PublishTo, BoundedTopic;
    KeptGrows(front, last, m, overflow);
    EvidenceGrows(front, last, m, overflow);
    hide Kept, Evidence, Bodies;
  }

  lemma {:induction false} Overload(b: BrokerState, topic: Topic, m: nat, overflow: OverflowPolicy, bodies: seq<string>)
    requires BoundedTopic(b, topic, m, overflow)
    requires Queue(b, topic) == [] && Queue(b, DeadLetterTopic(topic)) == []
    ensures var (c, verdicts) := PublishAll(b, topic, bodies);
            && BoundedTopic(c, topic, m, overflow) && Overloaded(c, topic, m, overflow, bodies)
            && |verdicts| == |bodies| && Answers(verdicts, m, overflow)
    decreases |bodies|
  {
    hide Publish;
    if bodies != [] {
      var front, last := bodies[..|bodies| - 1], bodies[|bodies| - 1];
      Overload(b, topic, m, overflow, front);
      hide BoundedTopic, Overloaded, Answer;
      OneMore(PublishAll(b, topic, front).0, topic, m, overflow, front, last);
      assert bodies == front + [last];
    }
  }

  /**
   * Overload law. Declare a new ungrouped topic of length m with deadLetter and publish n messages
   * nobody takes. DropHead accepts all, keeps the last m, and the forensic topic has the first 2000
   * evicted, in order; RejectPublish keeps the first m and refuses the rest; RejectPublishDlx does
   * too, and the forensic topic has the next 2000.
   */
  lemma OverloadLaw(b: BrokerState, t: Transport, topic: Topic, options: TopicOptions, bodies: seq<string>)
    requires t.connected && topic !in b.topics && DeadLetterTopic(topic) !in b.topics
    requires DEAD_LETTER_EXCHANGE in b.groups ==> b.groups[DEAD_LETTER_EXCHANGE] == Exact
    requires options.deadLetter && options.group == "" && options.maxLength > 0
    ensures var m, overflow, n := options.maxLength, options.overflow, |bodies|;
            var (declared, outcome) := Declare(b, t, topic, options);
            var (c, verdicts) := PublishAll(declared, topic, bodies);
            && outcome == Answered(Declared)
            && Bodies(Queue(c, topic)) == (if overflow == DropHead then bodies[Excess(n, m)..] else bodies[..Min(n, m)])
            && Bodies(Queue(c, DeadLetterTopic(topic))) == Evidence(bodies, m, overflow)
            && |verdicts| == n
            && (forall i | 0 <= i < n :: verdicts[i] == if i < m || overflow == DropHead then Accepted else Rejected)
  {
    assert DeadLetterTopic(topic) != topic;
    var declared := Declare(b, t, topic, options).0;
    assert BoundedTopic(declared, topic, options.maxLength, options.overflow);
    assert Queue(declared, topic) == [] && Queue(declared, DeadLetterTopic(topic)) == [];
    hide Declare, BoundedTopic, PublishAll, Evidence, Bodies, ForensicReady;
    Overload(declared, topic, options.maxLength, options.overflow, bodies);
  }

  lemma TakeOfAppend<T>(front: seq<T>, last: T, k: nat)
    requires k <= |front|
    ensures (front + [last])[..k] == front[..k]
    ensures (front + [last])[k..] == front[k..] + [last]
    ensures k < |front| ==> front[..k + 1] == front[..k] + [front[k]]
    ensures k < |front| ==> front[k..][1..] == front[k + 1..]
    ensures (front + [last])[..|front| + 1] == front + [last] && front[..|front|] == front
  {
  }

  lemma SliceOfAppend<T>(front: seq<T>, last: T, j: nat, k: nat)
    requires j <= k <= |front|
    ensures (front + [last])[j..k] == front[j..k]
    ensures k == |front| ==> (front + [last])[j..k + 1] == front[j..k] + [last]
  {
  }

  lemma KeptGrows(front: seq<string>, last: string, m: nat, overflow: OverflowPolicy)
    requires m > 0
    ensures var q, bodies := Kept(front, m, overflow), front + [last];
            && |q| == Min(|front|, m)
            && Kept(bodies, m, overflow)
               == (if |q| < m then q + [last] else if overflow == DropHead then q[1..] + [last] else q)
  {
    TakeOfAppend(front, last, Excess(|front|, m));
    TakeOfAppend(front, last, Min(|front|, m));
  }

  lemma EvidenceGrows(front: seq<string>, last: string, m: nat, overflow: OverflowPolicy)
    requires m > 0
    ensures var q, f, bodies := Kept(front, m, overflow), Evidence(front, m, overflow), front + [last];
            |q| == Min(|front|, m)
            && Evidence(bodies, m, overflow)
               == if |q| < m || overflow == RejectPublish || |f| >= FORENSIC_MAX_LENGTH then f
                  else f + [if overflow == DropHead then q[0] else last]
  {
    var count := Min(Excess(|front|, m), FORENSIC_MAX_LENGTH);
    match overflow
    case RejectPublish =>
    case DropHead => TakeOfAppend(front, last, count);
    case RejectPublishDlx => SliceOfAppend(front, last, Min(|front|, m), Min(|front|, m) + count);
  }

  /** The alarm is exact: AtCap is reported precisely when the next dead letter is refused. */
  lemma AtCapMeansRefusing(b: BrokerState, topic: Topic, held: Held)
    requires topic in b.topics && b.topics[topic].options.deadLetter && ForensicReady(b, topic)
    ensures var forensic := DeadLetterTopic(topic);
            Pressure(|Queue(b, forensic)|, FORENSIC_MAX_LENGTH) == AtCap
            <==> Queue(DeadLetter(b, topic, held).0, forensic) == Queue(b, forensic)
  {
    ForensicTakes(b, topic, held);
  }

  function Severity(pressure: ForensicPressure): nat {
    match pressure
    case Normal => 0
    case NearCap => 1
    case AtCap => 2
  }

  /** A deeper queue never reads as less pressure, a longer one never as more, and one without a bound as none. */
  lemma PressureIsMonotone(depth: nat, deeper: nat, cap: nat, longer: nat)
    requires depth <= deeper && 0 < cap <= longer
    ensures Pressure(depth, 0) == Normal
    ensures Severity(Pressure(depth, cap)) <= Severity(Pressure(deeper, cap))
    ensures Severity(Pressure(depth, longer)) <= Severity(Pressure(depth, cap))
  {
  }

  /** For a forensic queue: no alarm below 1800, the early one from 1800, the one that means loss from 2000 on. */
  lemma ForensicPressureGrades(depth: nat)
    ensures Pressure(depth, FORENSIC_MAX_LENGTH) == if depth < 1800 then Normal else if depth < 2000 then NearCap else AtCap
  {
  }
}
