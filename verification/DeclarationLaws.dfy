/** Declaration order does not matter for declarations that agree, as Producer and Consumer make them. */
module DeclarationLaws {
  import opened Wrappers
  import opened Seam
  import opened BrokerModel
  import opened TransportModel
  import opened FanoutLaws

  predicate Reserved(name: Topic) {
    |DEAD_LETTER_PREFIX| <= |name| && name[..|DEAD_LETTER_PREFIX|] == DEAD_LETTER_PREFIX
  }

  /**
   * Declarations by topic name: each passes checkTopicOptions without allowAsymmetric, none uses
   * the reserved prefix, and every group has one routing kind (the forensic group's is Exact).
   */
  predicate Agreeing(wanted: map<Topic, TopicOptions>) {
    && (forall name | name in wanted :: CheckTopicOptions(IN_MEMORY_CAPABILITIES, wanted[name], false).Ok? && !Reserved(name))
    && (forall a, b | a in wanted && b in wanted && wanted[a].group == wanted[b].group && wanted[a].group != "" ::
          wanted[a].routing == wanted[b].routing)
    && (forall a | a in wanted && wanted[a].group == DEAD_LETTER_EXCHANGE :: wanted[a].routing == Exact)
  }

  /** The declarations made one after the other by a connected transport; false once one is refused. */
  function DeclareAll(b: BrokerState, t: Transport, names: seq<Topic>, wanted: map<Topic, TopicOptions>): (BrokerState, bool)
    requires forall i | 0 <= i < |names| :: names[i] in wanted
    decreases |names|
  {
    if names == [] then (b, true)
    else
      var last := names[|names| - 1];
      var (b1, fine) := DeclareAll(b, t, names[..|names| - 1], wanted);
      var (b2, outcome) := Declare(b1, t, last, wanted[last]);
      (b2, fine && outcome == Answered(Declared))
  }

  function NameSet(names: seq<Topic>): set<Topic> {
    set i | 0 <= i < |names| :: names[i]
  }

  function Forensics(names: set<Topic>): set<Topic> {
    set name | name in names :: DeadLetterTopic(name)
  }

  function GroupsOf(names: set<Topic>, wanted: map<Topic, TopicOptions>): set<string>
    requires names <= wanted.Keys
  {
    set name | name in names && wanted[name].group != "" :: wanted[name].group
  }

  function Fresh(name: Topic, options: TopicOptions): TopicState {
    TopicState([], options, BindingOf(name, options))
  }

  /** These topics and their forensic topics, each as declared, and nothing else. */
  ghost predicate HoldsTopics(topics: map<Topic, TopicState>, names: set<Topic>, wanted: map<Topic, TopicOptions>)
    requires names <= wanted.Keys
  {
    && topics.Keys == names + Forensics(names)
    && (forall name | name in names :: topics[name] == Fresh(name, wanted[name]))
    && (forall name | name in names ::
          topics[DeadLetterTopic(name)] == Fresh(DeadLetterTopic(name), ForensicTopicOptions(name)))
  }

  ghost predicate HoldsGroups(groups: map<string, Routing>, names: set<Topic>, wanted: map<Topic, TopicOptions>)
    requires names <= wanted.Keys
  {
    && groups.Keys == GroupsOf(names, wanted) + (if names == {} then {} else {DEAD_LETTER_EXCHANGE})
    && (forall name | name in names && wanted[name].group != "" :: groups[wanted[name].group] == wanted[name].routing)
    && (names != {} ==> groups[DEAD_LETTER_EXCHANGE] == Exact)
  }

  /** The broker holds exactly these declarations: a description that does not mention any order. */
  ghost predicate HoldsExactly(b: BrokerState, names: set<Topic>, wanted: map<Topic, TopicOptions>)
    requires names <= wanted.Keys
  {
    HoldsTopics(b.topics, names, wanted) && HoldsGroups(b.groups, names, wanted)
  }

  lemma ForensicNames(a: Topic, b: Topic)
    ensures Reserved(DeadLetterTopic(a))
    ensures DeadLetterTopic(a) == DeadLetterTopic(b) ==> a == b
  {
    assert DeadLetterTopic(a)[..|DEAD_LETTER_PREFIX|] == DEAD_LETTER_PREFIX;
    assert DeadLetterTopic(a)[|DEAD_LETTER_PREFIX|..] == a;
    assert DeadLetterTopic(b)[|DEAD_LETTER_PREFIX|..] == b;
  }

  // ---------------------------------------------------------------- one declaration

  function AddTopic(topics: map<Topic, TopicState>, name: Topic, options: TopicOptions): map<Topic, TopicState> {
    if name in topics then topics else topics[name := Fresh(name, options)]
  }

  function AddGroup(groups: map<string, Routing>, options: TopicOptions): map<string, Routing> {
    if options.group == "" then groups else groups[options.group := options.routing]
  }

  predicate Fits(b: BrokerState, name: Topic, options: TopicOptions) {
    && (options.group != "" && options.group in b.groups ==> b.groups[options.group] == options.routing)
    && (name in b.topics ==> SameProperties(b.topics[name].options, options))
  }

  lemma FittingSucceeds(b: BrokerState, name: Topic, options: TopicOptions)
    requires Fits(b, name, options)
    ensures EnsureTopic(b, name, options)
         == (b.(topics := AddTopic(b.topics, name, options), groups := AddGroup(b.groups, options)), Declared)
  {
  }

  lemma TopicsGrow(topics: map<Topic, TopicState>, name: Topic, names: set<Topic>, wanted: map<Topic, TopicOptions>)
    requires names <= wanted.Keys && name in wanted && HoldsTopics(topics, names, wanted)
    requires forall other | other in wanted :: !Reserved(other)
    ensures HoldsTopics(AddTopic(AddTopic(topics, DeadLetterTopic(name), ForensicTopicOptions(name)), name, wanted[name]),
                        names + {name}, wanted)
  {
    hide Reserved, Fresh, ForensicTopicOptions;
    hide DeadLetterTopic;
    var forensic := DeadLetterTopic(name);
    forall other ensures (DeadLetterTopic(other) == forensic <==> other == name) && Reserved(DeadLetterTopic(other)) {
      ForensicNames(other, name);
      ForensicNames(name, other);
    }
    assert Forensics(names + {name}) == Forensics(names) + {forensic};
  }

  /** Adding a group that is new, or of the same kind, adds its name and changes nothing else. */
  lemma AddCompatible(groups: map<string, Routing>, options: TopicOptions)
    requires options.group != "" && options.group in groups ==> groups[options.group] == options.routing
    ensures var added := AddGroup(groups, options);
            && added.Keys == groups.Keys + (if options.group == "" then {} else {options.group})
            && (forall group | group in groups :: added[group] == groups[group])
            && (options.group != "" ==> added[options.group] == options.routing)
  {
  }

  lemma GroupsGrow(groups: map<string, Routing>, name: Topic, names: set<Topic>, wanted: map<Topic, TopicOptions>)
    requires names <= wanted.Keys && name in wanted && HoldsGroups(groups, names, wanted)
    requires wanted[name].group == DEAD_LETTER_EXCHANGE ==> wanted[name].routing == Exact
    requires forall other | other in names && wanted[other].group == wanted[name].group != "" ::
               wanted[other].routing == wanted[name].routing
    ensures var first := AddGroup(groups, ForensicTopicOptions(name));
            && (wanted[name].group in first ==> wanted[name].group == "" || first[wanted[name].group] == wanted[name].routing)
            && HoldsGroups(AddGroup(first, wanted[name]), names + {name}, wanted)
  {
    ForensicGroup(name);
    hide ForensicTopicOptions, AddGroup;
    var group, first := wanted[name].group, AddGroup(groups, ForensicTopicOptions(name));
    ExactIfPresent(groups, names, wanted);
    SameKind(groups, name, names, wanted);
    hide HoldsGroups, GroupsOf;
    AddCompatible(groups, ForensicTopicOptions(name));
    AddCompatible(first, wanted[name]);
    GroupsFollow(groups, AddGroup(first, wanted[name]), name, names, wanted);
  }

  lemma ExactIfPresent(groups: map<string, Routing>, names: set<Topic>, wanted: map<Topic, TopicOptions>)
    requires names <= wanted.Keys && HoldsGroups(groups, names, wanted)
    ensures DEAD_LETTER_EXCHANGE in groups ==> groups[DEAD_LETTER_EXCHANGE] == Exact
  {
    if DEAD_LETTER_EXCHANGE in groups {
      assert names != {};
    }
  }

  lemma SameKind(groups: map<string, Routing>, name: Topic, names: set<Topic>, wanted: map<Topic, TopicOptions>)
    requires names <= wanted.Keys && name in wanted && HoldsGroups(groups, names, wanted)
    requires forall other | other in names && wanted[other].group == wanted[name].group != "" ::
               wanted[other].routing == wanted[name].routing
    ensures var group := wanted[name].group;
            group != "" && group != DEAD_LETTER_EXCHANGE && group in groups ==> groups[group] == wanted[name].routing
  {
    var group := wanted[name].group;
    if group != "" && group in groups && group != DEAD_LETTER_EXCHANGE {
      var other :| other in names && wanted[other].group == group;
    }
  }

  lemma GroupsFollow(groups: map<string, Routing>, after: map<string, Routing>, name: Topic, names: set<Topic>,
                     wanted: map<Topic, TopicOptions>)
    requires names <= wanted.Keys && name in wanted && HoldsGroups(groups, names, wanted)
    requires var group := wanted[name].group;
             && after.Keys == groups.Keys + {DEAD_LETTER_EXCHANGE} + (if group == "" then {} else {group})
             && (forall g | g in groups :: after[g] == groups[g])
             && after[DEAD_LETTER_EXCHANGE] == Exact
             && (group != "" ==> after[group] == wanted[name].routing)
    ensures HoldsGroups(after, names + {name}, wanted)
  {
    GroupsOfMore(name, names, wanted);
    forall other | other in names && wanted[other].group != "" ensures wanted[other].group in groups {
      assert wanted[other].group in GroupsOf(names, wanted);
    }
    hide GroupsOf;
  }

  lemma ForensicGroup(name: Topic)
    ensures ForensicTopicOptions(name).group == DEAD_LETTER_EXCHANGE && ForensicTopicOptions(name).routing == Exact
  {
  }

  lemma GroupsOfMore(name: Topic, names: set<Topic>, wanted: map<Topic, TopicOptions>)
    requires names <= wanted.Keys && name in wanted
    ensures GroupsOf(names + {name}, wanted)
         == GroupsOf(names, wanted) + if wanted[name].group == "" then {} else {wanted[name].group}
  {
  }

  lemma ForensicFits(b: BrokerState, name: Topic, names: set<Topic>, wanted: map<Topic, TopicOptions>)
    requires names <= wanted.Keys && name in wanted && HoldsExactly(b, names, wanted)
    requires forall other | other in wanted :: !Reserved(other)
    ensures Fits(b, DeadLetterTopic(name), ForensicTopicOptions(name))
  {
    hide Reserved;
    var forensic := DeadLetterTopic(name);
    ForensicNames(name, name);
    if forensic in b.topics {
      var source :| source in names && forensic == DeadLetterTopic(source);
      ForensicNames(source, name);
    }
  }

  /** One more agreeing declaration succeeds, whether it is new or repeated. */
  lemma DeclareOne(b: BrokerState, t: Transport, name: Topic, names: set<Topic>, wanted: map<Topic, TopicOptions>)
    requires Agreeing(wanted) && names <= wanted.Keys && name in wanted && t.connected
    requires HoldsExactly(b, names, wanted)
    ensures var (c, outcome) := Declare(b, t, name, wanted[name]);
            outcome == Answered(Declared) && HoldsExactly(c, names + {name}, wanted)
            && c.history == b.history && c.sequence == b.sequence
  {
    var options, forensic := wanted[name], DeadLetterTopic(name);
    ForensicNames(name, name);
    assert forensic != name;
    hide Reserved, EnsureTopic;
    TopicsGrow(b.topics, name, names, wanted);
    GroupsGrow(b.groups, name, names, wanted);
    ForensicFits(b, name, names, wanted);
    FittingSucceeds(b, forensic, ForensicTopicOptions(name));
    var b1 := EnsureTopic(b, forensic, ForensicTopicOptions(name)).0;
    assert name in b1.topics ==> name in names by {
      forall other | other in Forensics(names) ensures Reserved(other) {
        var source :| source in names && other == DeadLetterTopic(source);
        ForensicNames(source, source);
      }
    }
    hide HoldsGroups;
    FittingSucceeds(b1, name, options);
  }

  lemma NamesOfFront(names: seq<Topic>)
    requires names != []
    ensures NameSet(names) == NameSet(names[..|names| - 1]) + {names[|names| - 1]}
  {
    var front, last := names[..|names| - 1], names[|names| - 1];
    forall name | name in NameSet(names) ensures name in NameSet(front) + {last} {
      var i :| 0 <= i < |names| && names[i] == name;
      assert i < |front| ==> front[i] == name;
    }
    forall name | name in NameSet(front) ensures name in NameSet(names) {
      var i :| 0 <= i < |front| && front[i] == name;
      assert names[i] == name;
    }
  }

  /** Any list of agreeing declarations succeeds on a fresh broker, and leaves what its names call for. */
  lemma {:induction false} AllSucceed(t: Transport, names: seq<Topic>, wanted: map<Topic, TopicOptions>)
    requires Agreeing(wanted) && t.connected && forall i | 0 <= i < |names| :: names[i] in wanted
    ensures NameSet(names) <= wanted.Keys
    ensures var (b, fine) := DeclareAll(EMPTY_BROKER, t, names, wanted); fine && HoldsExactly(b, NameSet(names), wanted)
    decreases |names|
  {
    if names != [] {
      var front, last := names[..|names| - 1], names[|names| - 1];
      hide Agreeing, HoldsExactly, Declare;
      AllSucceed(t, front, wanted);
      NamesOfFront(names);
      hide NameSet;
      DeclareOne(DeclareAll(EMPTY_BROKER, t, front, wanted).0, t, last, NameSet(front), wanted);
    }
  }

  lemma TopicsAreUnique(topics: map<Topic, TopicState>, topics': map<Topic, TopicState>, names: set<Topic>,
                        wanted: map<Topic, TopicOptions>)
    requires names <= wanted.Keys && HoldsTopics(topics, names, wanted) && HoldsTopics(topics', names, wanted)
    ensures topics == topics'
  {
    hide Fresh, ForensicTopicOptions, DeadLetterTopic;
    forall name | name in topics ensures topics[name] == topics'[name] {
      if name !in names {
        var source :| source in names && name == DeadLetterTopic(source);
      }
    }
  }

  lemma GroupsAreUnique(groups: map<string, Routing>, groups': map<string, Routing>, names: set<Topic>,
                        wanted: map<Topic, TopicOptions>)
    requires names <= wanted.Keys && HoldsGroups(groups, names, wanted) && HoldsGroups(groups', names, wanted)
    ensures groups == groups'
  {
    forall group | group in groups ensures groups[group] == groups'[group] {
      if group in GroupsOf(names, wanted) {
        var name :| name in names && wanted[name].group == group && group != "";
        assert groups[wanted[name].group] == wanted[name].routing;
      }
    }
  }

  /** Whoever starts first: the same names in any order, with any repetitions, give the same topics and groups. */
  lemma OrderDoesNotMatter(t: Transport, names: seq<Topic>, others: seq<Topic>, wanted: map<Topic, TopicOptions>)
    requires Agreeing(wanted) && t.connected
    requires forall i | 0 <= i < |names| :: names[i] in wanted
    requires forall i | 0 <= i < |others| :: others[i] in wanted
    requires NameSet(names) == NameSet(others)
    ensures var (b, fine) := DeclareAll(EMPTY_BROKER, t, names, wanted);
            var (c, fine') := DeclareAll(EMPTY_BROKER, t, others, wanted);
            fine && fine' && b.topics == c.topics && b.groups == c.groups
  {
    hide Agreeing, HoldsTopics, HoldsGroups, NameSet, DeclareAll;
    AllSucceed(t, names, wanted);
    AllSucceed(t, others, wanted);
    var b, c := DeclareAll(EMPTY_BROKER, t, names, wanted).0, DeclareAll(EMPTY_BROKER, t, others, wanted).0;
    TopicsAreUnique(b.topics, c.topics, NameSet(names), wanted);
    GroupsAreUnique(b.groups, c.groups, NameSet(names), wanted);
  }

  // ---------------------------------------------------------------- what one declaration says

  /**
   * A declaration is refused exactly when its group exists with another routing kind, or the topic
   * exists and differs in anything but group, route and routing. It never changes a topic that exists;
   * a new one is empty, with these options, bound to the route or, without one, to its own name.
   */
  lemma DeclarationSays(b: BrokerState, topic: Topic, options: TopicOptions)
    ensures var (c, result) := EnsureTopic(b, topic, options);
            var clash := options.group != "" && options.group in b.groups && b.groups[options.group] != options.routing;
            && (result == GroupConflict <==> clash)
            && (result == PropertyConflict <==>
                  !clash && topic in b.topics
                  && b.topics[topic].options.(group := options.group, route := options.route, routing := options.routing) != options)
            && (clash ==> c == b)
            && (topic in b.topics ==> c.topics == b.topics)
            && (result == Declared && topic !in b.topics ==>
                  c.topics == b.topics[topic := TopicState([], options, if options.route == "" then topic else options.route)])
            && (!clash ==> c.groups == if options.group == "" then b.groups else b.groups[options.group := options.routing])
            && c.sequence == b.sequence
  {
  }

  /** Which destinations of its group a publish reaches, told from the bindings. */
  lemma ReachedTold(b: BrokerState, origin: Topic, route: string, name: Topic)
    requires origin in b.topics && b.topics[origin].options.group != ""
    ensures var group := b.topics[origin].options.group;
            var kind := if group in b.groups then b.groups[group] else Exact;
            var key := if route != "" then route else b.topics[origin].binding;
            name in Reached(b, origin, route)
            <==> name in b.topics && b.topics[name].options.group == group
                 && match kind
                    case Broadcast => true
                    case Exact => key == b.topics[name].binding
                    case Pattern => Routes.Cuttable(Routes.Split(b.topics[name].binding), Routes.Split(key))
  {
    hide Routes.Matches, Routes.Cuttable, Routes.Split;
    if name in b.topics {
      Routes.MatchesIffCuttable(Routes.Split(b.topics[name].binding), Routes.Split(KeyOf(b, origin, route)));
    }
  }

  /** A topic declared into a group takes what is published there under its route or, without one, under its name. */
  lemma DeclaredIsReachedIff(b: BrokerState, topic: Topic, options: TopicOptions, origin: Topic, key: string)
    requires topic !in b.topics && options.group != "" && key != ""
    requires EnsureTopic(b, topic, options).1 == Declared
    requires origin in EnsureTopic(b, topic, options).0.topics
    requires EnsureTopic(b, topic, options).0.topics[origin].options.group == options.group
    ensures var route := if options.route == "" then topic else options.route;
            topic in Reached(EnsureTopic(b, topic, options).0, origin, key)
            <==> match options.routing
                 case Broadcast => true
                 case Exact => key == route
                 case Pattern => Routes.Cuttable(Routes.Split(route), Routes.Split(key))
  {
    DeclarationSays(b, topic, options);
    ReachedTold(EnsureTopic(b, topic, options).0, origin, key, topic);
    hide EnsureTopic, Reached, Routes.Cuttable, Routes.Split;
  }

  /** Who names a group and nothing else gets pattern routing, of its own name unless it names a route too. */
  lemma DefaultsRouteByPattern(b: BrokerState, topic: Topic, group: string, route: string, origin: Topic, key: string)
    requires topic !in b.topics && group != "" && group !in b.groups && key != ""
    ensures var (c, result) := EnsureTopic(b, topic, DEFAULT_OPTIONS.(group := group, route := route));
            && result == Declared
            && (origin in c.topics && c.topics[origin].options.group == group ==>
                  (topic in Reached(c, origin, key)
                   <==> Routes.Cuttable(Routes.Split(if route == "" then topic else route), Routes.Split(key))))
  {
    var options := DEFAULT_OPTIONS.(group := group, route := route);
    DeclarationSays(b, topic, options);
    var c := EnsureTopic(b, topic, options).0;
    if origin in c.topics && c.topics[origin].options.group == group {
      DeclaredIsReachedIff(b, topic, options, origin, key);
    }
    hide EnsureTopic, Reached, Routes.Cuttable, Routes.Split;
  }

  /**
   * The forensic topic of `source` is what the group motus.dead-letter routes the key `source` to; that
   * of the topic without a name, whose route is none, is reached by its own name.
   */
  lemma ForensicIsReachedIff(b: BrokerState, source: Topic, origin: Topic, key: string)
    requires "motus.dead-letter." + source !in b.topics && key != ""
    requires "motus.dead-letter" in b.groups ==> b.groups["motus.dead-letter"] == Exact
    ensures var (c, result) := EnsureTopic(b, DeadLetterTopic(source), ForensicTopicOptions(source));
            && result == Declared && DeadLetterTopic(source) == "motus.dead-letter." + source
            && (origin in c.topics && c.topics[origin].options.group == "motus.dead-letter" ==>
                  (DeadLetterTopic(source) in Reached(c, origin, key) <==> key == if source == "" then "motus.dead-letter." else source))
  {
    var forensic, options := DeadLetterTopic(source), ForensicTopicOptions(source);
    DeclarationSays(b, forensic, options);
    var c := EnsureTopic(b, forensic, options).0;
    if origin in c.topics && c.topics[origin].options.group == "motus.dead-letter" {
      DeclaredIsReachedIff(b, forensic, options, origin, key);
    }
    hide EnsureTopic, Reached, Routes.Cuttable, Routes.Split;
  }

  // ---------------------------------------------------------------- what the option check says

  /** The check names the first capability that is missing, and otherwise wants the defaults unless they are waived. */
  lemma CheckSays(caps: Capabilities, options: TopicOptions, allowAsymmetric: bool)
    ensures var result := CheckTopicOptions(caps, options, allowAsymmetric);
            var defaults := && options.durable && options.shared && !options.deleteWhenUnused && options.deadLetter
                            && options.maxLength == 0 && options.overflow == DropHead;
            && (result == Err(NoDeadLetter) <==> options.deadLetter && !caps.deadLetter)
            && (result == Err(NoRoutingGroups) <==> result != Err(NoDeadLetter) && options.group != "" && !caps.routingGroups)
            && (result == Err(NoBoundedQueue) <==>
                  && result != Err(NoDeadLetter) && result != Err(NoRoutingGroups)
                  && options.maxLength > 0 && !caps.boundedQueue)
            && (result.Ok? <==> && (options.deadLetter ==> caps.deadLetter) && (options.group != "" ==> caps.routingGroups)
                                && (options.maxLength > 0 ==> caps.boundedQueue) && (allowAsymmetric || defaults))
  {
  }

  /** On this backend: every declaration passes with the waiver, and exactly those with the default properties without it. */
  lemma InMemoryChecks(options: TopicOptions)
    ensures CheckTopicOptions(IN_MEMORY_CAPABILITIES, options, true).Ok?
    ensures CheckTopicOptions(IN_MEMORY_CAPABILITIES, options, false).Ok?
            <==> && options.durable && options.shared && !options.deleteWhenUnused && options.deadLetter
                 && options.maxLength == 0 && options.overflow == DropHead
  {
    CheckSays(IN_MEMORY_CAPABILITIES, options, true);
    CheckSays(IN_MEMORY_CAPABILITIES, options, false);
  }

  // ---------------------------------------------------------------- pairs of declarers

  /** Options that pass the check without opting out agree with each other, whatever the two backends can do. */
  lemma CheckedOptionsAgree(caps: Capabilities, one: TopicOptions, caps': Capabilities, other: TopicOptions)
    requires CheckTopicOptions(caps, one, false).Ok? && CheckTopicOptions(caps', other, false).Ok?
    ensures SameProperties(one, other)
  {
  }

  /** Either may start first: a second checked declarer of the same kind of group is never refused, and changes no topic. */
  lemma EitherMayStartFirst(b: BrokerState, topic: Topic, one: TopicOptions, other: TopicOptions)
    requires CheckTopicOptions(IN_MEMORY_CAPABILITIES, one, false).Ok?
    requires CheckTopicOptions(IN_MEMORY_CAPABILITIES, other, false).Ok?
    requires one.group == other.group && one.routing == other.routing
    requires EnsureTopic(b, topic, one).1 == Declared
    ensures var b1 := EnsureTopic(b, topic, one).0; EnsureTopic(b1, topic, other) == (b1, Declared)
  {
    CheckedOptionsAgree(IN_MEMORY_CAPABILITIES, one, IN_MEMORY_CAPABILITIES, other);
    var b1 := EnsureTopic(b, topic, one).0;
    assert one.group != "" ==> b1.groups[one.group := one.routing] == b1.groups;
    hide CheckTopicOptions;
  }

  // ---------------------------------------------------------------- exactly when declaration order matters

  /** The destinations a publish to `origin` is offered to. */
  function Destinations(b: BrokerState, origin: Topic, route: string): set<Topic>
    requires origin in b.topics
  {
    if GroupOf(b, origin) == "" then {origin} else Reached(b, origin, route)
  }

  /**
   * No publish to any topic, under any route of its own or none, can tell the two brokers apart, and
   * later declarations find the same groups and `topic` in the same one.
   */
  ghost predicate RouteAlike(b: BrokerState, c: BrokerState, topic: Topic) {
    && b.topics.Keys == c.topics.Keys && b.groups == c.groups
    && topic in b.topics && b.topics[topic].options.group == c.topics[topic].options.group
    && forall origin, route | origin in b.topics :: Destinations(b, origin, route) == Destinations(c, origin, route)
  }

  /** A message of the group can travel under this key: any but the empty one, which only an empty binding gives. */
  predicate Travels(b: BrokerState, group: string, key: string) {
    || key != ""
    || exists origin | origin in b.topics :: b.topics[origin].options.group == group && b.topics[origin].binding == ""
  }

  /** As patterns the bindings match the same keys; as keys, each binding of the group matches both or neither. */
  ghost predicate SamePatterns(b: BrokerState, group: string, one: string, other: string) {
    && (forall key | Travels(b, group, key) :: Routes.RouteMatches(one, key) <==> Routes.RouteMatches(other, key))
    && (forall name | name in b.topics && b.topics[name].options.group == group ::
          Routes.RouteMatches(b.topics[name].binding, one) <==> Routes.RouteMatches(b.topics[name].binding, other))
  }

  /** Which of the two declares the new topic first makes no difference. */
  ghost predicate Interchangeable(b: BrokerState, topic: Topic, one: TopicOptions, other: TopicOptions) {
    && one.group == other.group
    && (one.group != "" ==>
          && one.routing == other.routing
          && var binding, binding' := BindingOf(topic, one), BindingOf(topic, other);
             match one.routing
             case Broadcast => true
             case Exact => binding == binding'
             case Pattern => SamePatterns(b, one.group, binding, binding'))
  }

  predicate GroupFits(b: BrokerState, options: TopicOptions) {
    options.group != "" && options.group in b.groups ==> b.groups[options.group] == options.routing
  }

  /**
   * Two declarers of a new topic: both orders succeed and route alike exactly when their properties agree,
   * neither contradicts a group that exists, and they are interchangeable; which, in one group of one kind,
   * equal bindings always are.
   */
  lemma OrderIsIrrelevantIff(b: BrokerState, topic: Topic, one: TopicOptions, other: TopicOptions)
    requires topic !in b.topics
    ensures var (b1, r1) := EnsureTopic(b, topic, one);
            var (b2, r2) := EnsureTopic(b1, topic, other);
            var (c1, s1) := EnsureTopic(b, topic, other);
            var (c2, s2) := EnsureTopic(c1, topic, one);
            (r1 == r2 == s1 == s2 == Declared && RouteAlike(b2, c2, topic))
            <==> && SameProperties(one, other) && GroupFits(b, one) && GroupFits(b, other)
                 && Interchangeable(b, topic, one, other)
    ensures one.group == other.group
            && (one.group != "" ==> one.routing == other.routing && BindingOf(topic, one) == BindingOf(topic, other))
            ==> Interchangeable(b, topic, one, other)
  {
    if SameProperties(one, other) && GroupFits(b, one) && GroupFits(b, other) {
      OrderOfFitting(b, topic, one, other);
    } else {
      hide Interchangeable, RouteAlike;
    }
  }

  /** The broker when a declaration's forensic half is done. */
  function AfterForensicHalf(b: BrokerState, topic: Topic, options: TopicOptions): BrokerState {
    if options.deadLetter then EnsureTopic(b, DeadLetterTopic(topic), ForensicTopicOptions(topic)).0 else b
  }

  /** The second declarer's forensic half finds everything in place. */
  lemma SecondHalfIsIdle(b: BrokerState, topic: Topic, options: TopicOptions)
    requires EnsureTopic(b, DeadLetterTopic(topic), ForensicTopicOptions(topic)).1 == Declared
    ensures var b1 := EnsureTopic(b, DeadLetterTopic(topic), ForensicTopicOptions(topic)).0;
            var (c, result) := EnsureTopic(b1, topic, options);
            result == Declared ==> EnsureTopic(c, DeadLetterTopic(topic), ForensicTopicOptions(topic)) == (c, Declared)
  {
    var forensic, wanted := DeadLetterTopic(topic), ForensicTopicOptions(topic);
    var b1 := EnsureTopic(b, forensic, wanted).0;
    var c := EnsureTopic(b1, topic, options).0;
    if EnsureTopic(b1, topic, options).1 == Declared {
      assert c.groups[DEAD_LETTER_EXCHANGE := Exact] == c.groups;
    }
  }

  /** The call users make, through any connected transports: the forensic half must fit, and the rest is as above. */
  lemma DeclareOrderIsIrrelevantIff(b: BrokerState, t: Transport, t': Transport, topic: Topic, one: TopicOptions,
                                    other: TopicOptions)
    requires t.connected && t'.connected && topic !in b.topics
    ensures var (b1, r1) := Declare(b, t, topic, one);
            var (b2, r2) := Declare(b1, t', topic, other);
            var (c1, s1) := Declare(b, t', topic, other);
            var (c2, s2) := Declare(c1, t, topic, one);
            var h := AfterForensicHalf(b, topic, one);
            (r1 == r2 == s1 == s2 == Answered(Declared) && RouteAlike(b2, c2, topic))
            <==> && SameProperties(one, other)
                 && (one.deadLetter ==> Fits(b, DeadLetterTopic(topic), ForensicTopicOptions(topic)))
                 && GroupFits(h, one) && GroupFits(h, other) && Interchangeable(h, topic, one, other)
  {
    var forensic, wanted, h := DeadLetterTopic(topic), ForensicTopicOptions(topic), AfterForensicHalf(b, topic, one);
    if one.deadLetter && EnsureTopic(b, forensic, wanted).1 == Declared {
      SecondHalfIsIdle(b, topic, one);
      SecondHalfIsIdle(b, topic, other);
    }
    hide Interchangeable, RouteAlike;
    if SameProperties(one, other) {
      OrderIsIrrelevantIff(h, topic, one, other);
    }
  }

  lemma OrderOfFitting(b: BrokerState, topic: Topic, one: TopicOptions, other: TopicOptions)
    requires topic !in b.topics && SameProperties(one, other) && GroupFits(b, one) && GroupFits(b, other)
    ensures var (b2, r2) := EnsureTopic(EnsureTopic(b, topic, one).0, topic, other);
            var (c2, s2) := EnsureTopic(EnsureTopic(b, topic, other).0, topic, one);
            && EnsureTopic(b, topic, one).1 == Declared && EnsureTopic(b, topic, other).1 == Declared
            && (r2 == s2 == Declared && RouteAlike(b2, c2, topic) <==> Interchangeable(b, topic, one, other))
  {
    TwoDeclarations(b, topic, one, other);
    TwoDeclarations(b, topic, other, one);
    var (b2, r2) := EnsureTopic(EnsureTopic(b, topic, one).0, topic, other);
    var (c2, s2) := EnsureTopic(EnsureTopic(b, topic, other).0, topic, one);
    hide SameProperties, EnsureTopic, SamePatterns, Destinations;
    if one.group == other.group && (one.group != "" ==> one.routing == other.routing) {
      AddingTwice(b.groups, one, other);
      if Interchangeable(b, topic, one, other) {
        SameDestinations(b, b2, c2, topic, one, other);
      } else if RouteAlike(b2, c2, topic) {
        AlikeMeansInterchangeable(b, b2, c2, topic, one, other);
      }
    }
  }

  lemma AddingTwice(groups: map<string, Routing>, one: TopicOptions, other: TopicOptions)
    requires one.group == other.group && (one.group != "" ==> one.routing == other.routing)
    ensures AddGroup(AddGroup(groups, one), other) == AddGroup(groups, one) == AddGroup(groups, other)
    ensures AddGroup(AddGroup(groups, other), one) == AddGroup(groups, one)
    ensures one.group != "" ==> one.group in AddGroup(groups, one) && AddGroup(groups, one)[one.group] == one.routing
  {
  }

  /** The broker after both declarations of the new topic, `options` being the first. */
  predicate DeclaredBy(b: BrokerState, c: BrokerState, topic: Topic, options: TopicOptions) {
    && topic !in b.topics && c.topics == b.topics[topic := TopicState([], options, BindingOf(topic, options))]
    && (options.group != "" ==> options.group in c.groups && c.groups[options.group] == options.routing)
  }

  lemma ReachedIff(b: BrokerState, origin: Topic, route: string, name: Topic)
    requires origin in b.topics && GroupOf(b, origin) in b.groups
    ensures name in Reached(b, origin, route)
            <==> name in b.topics && b.topics[name].options.group == GroupOf(b, origin)
                 && Takes(b.topics[name].binding, b.groups[GroupOf(b, origin)], KeyOf(b, origin, route))
  {
    hide Takes;
  }

  lemma OwnKey(binding: string)
    ensures Routes.RouteMatches(binding, binding)
  {
    Routes.MatchesItself(Routes.Split(binding));
  }

  /** Whether one destination takes a publish is the same after either order. */
  lemma SameDestination(b: BrokerState, b2: BrokerState, c2: BrokerState, topic: Topic, one: TopicOptions, other: TopicOptions,
                        origin: Topic, route: string, name: Topic)
    requires DeclaredBy(b, b2, topic, one) && DeclaredBy(b, c2, topic, other) && b2.groups == c2.groups
    requires Interchangeable(b, topic, one, other) && origin in b2.topics && GroupOf(b2, origin) == one.group != ""
    ensures name in Reached(b2, origin, route) <==> name in Reached(c2, origin, route)
  {
    hide Reached, Routes.RouteMatches;
    ReachedIff(b2, origin, route, name);
    ReachedIff(c2, origin, route, name);
    OwnKey(BindingOf(topic, one));
    OwnKey(BindingOf(topic, other));
    if origin != topic {
      assert Travels(b, one.group, KeyOf(b2, origin, route));
    }
  }

  /** Publishes within other groups never reach the topic. */
  lemma OtherGroup(b: BrokerState, b2: BrokerState, c2: BrokerState, topic: Topic, one: TopicOptions, other: TopicOptions,
                   origin: Topic, route: string)
    requires DeclaredBy(b, b2, topic, one) && DeclaredBy(b, c2, topic, other) && b2.groups == c2.groups
    requires one.group == other.group && origin in b2.topics && GroupOf(b2, origin) != one.group
    ensures Reached(b2, origin, route) == Reached(c2, origin, route)
  {
    hide Takes;
  }

  lemma SameDestinations(b: BrokerState, b2: BrokerState, c2: BrokerState, topic: Topic, one: TopicOptions, other: TopicOptions)
    requires DeclaredBy(b, b2, topic, one) && DeclaredBy(b, c2, topic, other) && b2.groups == c2.groups
    requires Interchangeable(b, topic, one, other)
    ensures RouteAlike(b2, c2, topic)
  {
    hide Reached, Interchangeable;
    assert one.group == other.group by { assert Interchangeable(b, topic, one, other); SameGroup(b, topic, one, other); }
    forall origin, route | origin in b2.topics ensures Destinations(b2, origin, route) == Destinations(c2, origin, route) {
      if GroupOf(b2, origin) != one.group {
        OtherGroup(b, b2, c2, topic, one, other, origin, route);
      } else if one.group != "" {
        forall name ensures name in Reached(b2, origin, route) <==> name in Reached(c2, origin, route) {
          SameDestination(b, b2, c2, topic, one, other, origin, route, name);
        }
      }
    }
  }

  lemma SameGroup(b: BrokerState, topic: Topic, one: TopicOptions, other: TopicOptions)
    requires Interchangeable(b, topic, one, other)
    ensures one.group == other.group
  {
  }

  lemma AlikeReaches(b2: BrokerState, c2: BrokerState, topic: Topic, origin: Topic, route: string, name: Topic)
    requires RouteAlike(b2, c2, topic) && origin in b2.topics && GroupOf(b2, origin) == GroupOf(c2, origin) != ""
    ensures origin in c2.topics && (name in Reached(b2, origin, route) <==> name in Reached(c2, origin, route))
  {
    hide Reached;
    assert Destinations(b2, origin, route) == Destinations(c2, origin, route);
  }

  /** Under a key that travels the topic is reached in both brokers or in neither. */
  lemma AlikeTakes(b: BrokerState, b2: BrokerState, c2: BrokerState, topic: Topic, one: TopicOptions, other: TopicOptions,
                   key: string)
    requires DeclaredBy(b, b2, topic, one) && DeclaredBy(b, c2, topic, other) && RouteAlike(b2, c2, topic)
    requires one.group == other.group != "" && one.routing == other.routing && Travels(b, one.group, key)
    ensures Takes(BindingOf(topic, one), one.routing, key) <==> Takes(BindingOf(topic, other), one.routing, key)
  {
    hide Reached, Takes, RouteAlike;
    if key != "" {
      AlikeReaches(b2, c2, topic, topic, key, topic);
      ReachedIff(b2, topic, key, topic);
      ReachedIff(c2, topic, key, topic);
    } else {
      var origin :| origin in b.topics && b.topics[origin].options.group == one.group && b.topics[origin].binding == "";
      AlikeReaches(b2, c2, topic, origin, "", topic);
      ReachedIff(b2, origin, "", topic);
      ReachedIff(c2, origin, "", topic);
    }
  }

  /** Under the topic's own binding every other topic is reached in both brokers or in neither. */
  lemma AlikeIsTaken(b: BrokerState, b2: BrokerState, c2: BrokerState, topic: Topic, one: TopicOptions, other: TopicOptions,
                     name: Topic)
    requires DeclaredBy(b, b2, topic, one) && DeclaredBy(b, c2, topic, other) && RouteAlike(b2, c2, topic)
    requires one.group == other.group != "" && one.routing == other.routing
    requires name in b.topics && b.topics[name].options.group == one.group
    ensures Takes(b.topics[name].binding, one.routing, BindingOf(topic, one))
            <==> Takes(b.topics[name].binding, one.routing, BindingOf(topic, other))
  {
    hide Reached, Takes, RouteAlike;
    AlikeReaches(b2, c2, topic, topic, "", name);
    ReachedIff(b2, topic, "", name);
    ReachedIff(c2, topic, "", name);
  }

  lemma AlikeMeansInterchangeable(b: BrokerState, b2: BrokerState, c2: BrokerState, topic: Topic, one: TopicOptions,
                                  other: TopicOptions)
    requires DeclaredBy(b, b2, topic, one) && DeclaredBy(b, c2, topic, other) && RouteAlike(b2, c2, topic)
    requires one.group == other.group && (one.group != "" ==> one.routing == other.routing)
    ensures Interchangeable(b, topic, one, other)
  {
    hide RouteAlike, DeclaredBy, Routes.RouteMatches;
    if one.group != "" {
      var binding, binding' := BindingOf(topic, one), BindingOf(topic, other);
      match one.routing
      case Broadcast =>
      case Exact =>
        if binding != binding' {
          AlikeTakes(b, b2, c2, topic, one, other, if binding != "" then binding else binding');
        }
      case Pattern =>
        forall key | Travels(b, one.group, key)
          ensures Routes.RouteMatches(binding, key) <==> Routes.RouteMatches(binding', key)
        {
          AlikeTakes(b, b2, c2, topic, one, other, key);
        }
        forall name | name in b.topics && b.topics[name].options.group == one.group
          ensures Routes.RouteMatches(b.topics[name].binding, binding) <==> Routes.RouteMatches(b.topics[name].binding, binding')
        {
          AlikeIsTaken(b, b2, c2, topic, one, other, name);
        }
    }
  }

  /** The second declarer of a new topic succeeds unless their groups clash, and changes nothing about the topic. */
  lemma TwoDeclarations(b: BrokerState, topic: Topic, first: TopicOptions, second: TopicOptions)
    requires topic !in b.topics && SameProperties(first, second) && GroupFits(b, first) && GroupFits(b, second)
    ensures var (b1, r1) := EnsureTopic(b, topic, first);
            var (b2, r2) := EnsureTopic(b1, topic, second);
            && r1 == Declared
            && (r2 == Declared <==> first.group == "" || first.group != second.group || first.routing == second.routing)
            && b2.topics == b.topics[topic := TopicState([], first, BindingOf(topic, first))]
            && (r2 == Declared ==> b2.groups == AddGroup(AddGroup(b.groups, first), second))
  {
  }

  /**
   * The first declaration wins. Two declarers of a new topic in one group with different routes both
   * succeed in either order, but which messages of the group reach the topic is decided by the first:
   * its binding, and never the second's. In an Exact group a message under the first one's key reaches
   * the topic in one order and not in the other.
   */
  lemma FirstDeclarationWins(b: BrokerState, topic: Topic, one: TopicOptions, other: TopicOptions, key: string)
    requires topic !in b.topics && SameProperties(one, other) && GroupFits(b, one)
    requires one.group == other.group != "" && one.routing == other.routing && key != ""
    ensures var (b2, r2) := EnsureTopic(EnsureTopic(b, topic, one).0, topic, other);
            var (c2, s2) := EnsureTopic(EnsureTopic(b, topic, other).0, topic, one);
            && r2 == Declared && s2 == Declared && topic in b2.topics && topic in c2.topics
            && (topic in Reached(b2, topic, key) <==> Takes(BindingOf(topic, one), one.routing, key))
            && (topic in Reached(c2, topic, key) <==> Takes(BindingOf(topic, other), one.routing, key))
            && (one.routing == Exact && key == BindingOf(topic, one) != BindingOf(topic, other) ==>
                  topic in Reached(b2, topic, key) && topic !in Reached(c2, topic, key))
  {
    TwoDeclarations(b, topic, one, other);
    TwoDeclarations(b, topic, other, one);
    hide EnsureTopic, SameProperties, Routes.RouteMatches;
  }
}
