// Concrete runs of the event system, in larger steps: joining, advertising, subscribing.
module EventRuns {
  import opened Common
  import opened Directory
  import opened PollTable
  import opened Framing
  import opened Payload
  import opened Runtime
  import opened EventSystem
  import opened EventInvariant
  import opened EventMembership
  import opened Delivery
  import opened EventThread
  import opened EventProgress

  ghost predicate RunTo(ss: seq<System>, ls: seq<Label>, s: System) {
    IsRun(ss, ls) && ss[|ls|] == s
  }

  ghost predicate Reachable(s: System) {
    exists ss: seq<System>, ls: seq<Label> :: RunTo(ss, ls, s)
  }

  lemma StartReachable()
    ensures Reachable(EMPTY_SYSTEM)
  {
    assert RunTo([EMPTY_SYSTEM], [], EMPTY_SYSTEM);
  }

  lemma Onward(s: System, l: Label, s': System)
    requires Reachable(s) && Leads(s, l, s')
    ensures Reachable(s')
  {
    hide Leads;
    var ss, ls :| RunTo(ss, ls, s);
    assert RunTo(ss + [s'], ls + [l], s');
  }

  lemma ReachableOwned(s: System)
    requires Reachable(s)
    ensures Owned(s.directory)
  {
    hide Leads;
    var ss, ls :| RunTo(ss, ls, s);
    RunOwned(ss, ls, |ls|);
  }

  predicate AtRest(s: System, node: nat) {
    && node in s.nodes && s.nodes[node].standing.Member?
    && s.nodes[node].pending.Idle? && s.nodes[node].outbox == [] && s.nodes[node].inbox == []
  }

  // A node has advertised a topic that nobody owned.
  function Advertised(s: System, node: nat, topic: string, typeId: uint32): System
    requires node in s.nodes
  {
    var n := s.nodes[node];
    s.(directory := Update(s.directory, Register(n.name, topic, typeId)),
       nodes := s.nodes[node := n.(publications := n.publications[topic := Publication(typeId, map[])])])
  }

  lemma Advertises(s: System, node: nat, topic: string, typeId: uint32)
    requires Reachable(s) && AtRest(s, node)
    requires s.nodes[node].name in s.directory.live && topic !in s.directory.topics
    ensures Reachable(Advertised(s, node, topic, typeId))
  {
    hide Reachable, Owned, Update;
    ReachableOwned(s);
    var n, query := s.nodes[node], Register(s.nodes[node].name, topic, typeId);
    var n1 := n.(pending := Advertising(topic, typeId), outbox := [query]);
    assert n.outbox + [query] == [query];
    Onward(s, Advertise(node, topic, typeId), WithNode(s, node, n1));
    var n2 := n.(pending := Advertising(topic, typeId), inbox := [Accepted]);
    var s2 := s.(directory := Update(s.directory, query));
    assert n1.outbox[1..] == [] && n1.inbox + [Accepted] == [Accepted];
    assert s.nodes[node := n1][node := n2] == s.nodes[node := n2];
    Onward(WithNode(s, node, n1), MasterAnswers(node), WithNode(s2, node, n2));
    var n3 := n.(publications := n.publications[topic := Publication(typeId, map[])]);
    assert n2.inbox[1..] == [];
    assert s.nodes[node := n2][node := n3] == s.nodes[node := n3];
    Onward(WithNode(s2, node, n2), FinishAdvertise(node), WithNode(s2, node, n3));
  }

  // A node has subscribed to a topic of another, over a new connection.
  function WithSubscription(s: System, node: nat, host: nat, topic: string, typeId: uint32, owner: string,
                            conn: nat): System
    requires node in s.nodes && host in s.nodes && host != node && topic in s.nodes[host].publications
  {
    var n, h := s.nodes[node], s.nodes[host];
    var c := Conn(host, topic, typeId, node, n.name, Subscribed, [], |Published(s, host, topic)|, [], 0, [], [], []);
    s.(conns := s.conns[conn := c],
       nodes := s.nodes[host := h.(publications := Admitted(h.publications, topic, n.name, conn))]
                       [node := n.(waiting := n.waiting + [topic],
                                   subscriptions := n.subscriptions[topic := Subscription(typeId, owner, conn)])])
  }

  function Request(s: System, node: nat, host: nat, topic: string, typeId: uint32): Conn
    requires node in s.nodes
  {
    Conn(host, topic, typeId, node, s.nodes[node].name, Requested, [], 0, [], 0, [], [], [])
  }

  function Dialed(s: System, node: nat, host: nat, topic: string, typeId: uint32, conn: nat): System
    requires node in s.nodes && topic in s.directory.topics
  {
    WithNode(s.(conns := s.conns[conn := Request(s, node, host, topic, typeId)]), node,
             s.nodes[node].(pending := Contacting(conn, s.directory.topics[topic].owner)))
  }

  lemma LookupChangesNothing(d: Directory, topic: string)
    ensures Update(d, FindTopic(topic)) == d
  {
  }

  // The master's answer, and the connection.
  lemma Dials(s: System, node: nat, host: nat, topic: string, typeId: uint32, conn: nat)
    requires Reachable(s) && AtRest(s, node) && host in s.nodes && conn !in s.conns
    requires topic in s.directory.topics && Owned(s.directory)
    requires var owner := s.directory.topics[topic].owner;
      owner in s.directory.live && s.directory.live[owner].listening == s.nodes[host].listening
    ensures Reachable(Dialed(s, node, host, topic, typeId, conn))
  {
    hide Reachable, Owned, Update;
    var n, query := s.nodes[node], FindTopic(topic);
    var owner := s.directory.topics[topic].owner;
    var n1 := n.(pending := Locating(topic, typeId), outbox := [query]);
    assert n.outbox + [query] == [query];
    Onward(s, Locate(node, topic, typeId), WithNode(s, node, n1));
    var verdict := Located(owner, s.directory.live[owner].listening);
    var n2 := n.(pending := Locating(topic, typeId), inbox := [verdict]);
    assert n1.outbox[1..] == [] && n1.inbox + [verdict] == [verdict];
    assert s.nodes[node := n1][node := n2] == s.nodes[node := n2];
    LookupChangesNothing(s.directory, topic);
    Onward(WithNode(s, node, n1), MasterAnswers(node), WithNode(s, node, n2));
    var n3 := n.(pending := Contacting(conn, owner));
    assert n2.inbox[1..] == [];
    assert s.nodes[node := n2][node := n3] == s.nodes[node := n3];
    Onward(WithNode(s, node, n2), Dial(node, host, conn), Dialed(s, node, host, topic, typeId, conn));
  }

  function Granted(c: Conn, start: nat): Conn {
    c.(stage := Answered(OK), stream := Encode(ReplyFrame(OK), PAD), start := start)
  }

  lemma Accepts(s: System, conn: nat)
    requires Reachable(s) && conn in s.conns && s.conns[conn].stage == Requested && s.conns[conn].stream == []
    requires s.conns[conn].publisher in s.nodes
    requires var c := s.conns[conn];
      Judge(s.nodes[c.publisher].publications, c.topic, c.typeId, c.name) == OK
    ensures var c := s.conns[conn];
      Reachable(WithPublications(s.(conns := s.conns[conn := Granted(c, |LogOf(s, c)|)]), c.publisher,
                                 Admitted(s.nodes[c.publisher].publications, c.topic, c.name, conn)))
  {
    hide Reachable, Encode, ReplyFrame;
    var c := s.conns[conn];
    assert [] + Encode(ReplyFrame(OK), PAD) == Encode(ReplyFrame(OK), PAD);
    Onward(s, AcceptSubscriber(conn),
           WithPublications(s.(conns := s.conns[conn := Granted(c, |LogOf(s, c)|)]), c.publisher,
                            Admitted(s.nodes[c.publisher].publications, c.topic, c.name, conn)));
  }

  lemma ReplyDecoded()
    ensures Decode(Encode(ReplyFrame(OK), PAD)) == Some((ReplyFrame(OK), []))
  {
    hide Encode, Decode;
    FrameRoundTripExact(ReplyFrame(OK), PAD, []);
    assert Encode(ReplyFrame(OK), PAD) + [] == Encode(ReplyFrame(OK), PAD);
  }

  lemma Finishes(s: System, node: nat, conn: nat, c: Conn, start: nat, owner: string)
    requires Reachable(s) && node in s.nodes && s.nodes[node].pending == Contacting(conn, owner)
    requires conn in s.conns && s.conns[conn] == Granted(c, start)
    ensures var n := s.nodes[node];
      Reachable(WithNode(
        s.(conns := s.conns[conn := c.(stage := Subscribed, stream := [], start := start)]), node,
        n.(pending := Idle, waiting := n.waiting + [c.topic],
           subscriptions := n.subscriptions[c.topic := Subscription(c.typeId, owner, conn)])))
  {
    hide Reachable, Encode, Decode;
    ReplyDecoded();
    var n := s.nodes[node];
    Onward(s, FinishSubscribe(node), WithNode(
      s.(conns := s.conns[conn := c.(stage := Subscribed, stream := [], start := start)]), node,
      n.(pending := Idle, waiting := n.waiting + [c.topic],
         subscriptions := n.subscriptions[c.topic := Subscription(c.typeId, owner, conn)])));
  }

  lemma Subscribes(s: System, node: nat, host: nat, topic: string, typeId: uint32, conn: nat)
    requires Reachable(s) && AtRest(s, node) && host in s.nodes && host != node && conn !in s.conns
    requires topic in s.directory.topics
    requires var owner := s.directory.topics[topic].owner;
      owner in s.directory.live && s.directory.live[owner].listening == s.nodes[host].listening
    requires Judge(s.nodes[host].publications, topic, typeId, s.nodes[node].name) == OK
    ensures Reachable(WithSubscription(s, node, host, topic, typeId, s.directory.topics[topic].owner, conn))
  {
    hide Reachable, Owned, Encode;
    ReachableOwned(s);
    var owner := s.directory.topics[topic].owner;
    var c, s1 := Request(s, node, host, topic, typeId), Dialed(s, node, host, topic, typeId, conn);
    Dials(s, node, host, topic, typeId, conn);
    Accepts(s1, conn);
    var start := |LogOf(s1, c)|;
    var s2 := WithPublications(s1.(conns := s1.conns[conn := Granted(c, start)]), host,
                               Admitted(s.nodes[host].publications, topic, s.nodes[node].name, conn));
    Finishes(s2, node, conn, c, start, owner);
    var s3 := WithSubscription(s, node, host, topic, typeId, owner, conn);
    assert s2.conns[conn := s3.conns[conn]] == s3.conns;
    assert s2.nodes[node := s3.nodes[node]] == s3.nodes;
  }

  // And the event thread has given the connection a slot.
  function Joined(s: System, node: nat, host: nat, topic: string, typeId: uint32, owner: string, conn: nat): System
    requires node in s.nodes && host in s.nodes && host != node && topic in s.nodes[host].publications
  {
    var s' := WithSubscription(s, node, host, topic, typeId, owner, conn);
    WithNode(s', node, s'.nodes[node].(waiting := [], slots := Installed(s.nodes[node].slots, conn)))
  }

  lemma Joins(s: System, node: nat, host: nat, topic: string, typeId: uint32, conn: nat)
    requires Reachable(s) && AtRest(s, node) && host in s.nodes && host != node && conn !in s.conns
    requires s.nodes[node].waiting == [] && s.nodes[node].phase.Draining?
    requires topic in s.directory.topics
    requires var owner := s.directory.topics[topic].owner;
      owner in s.directory.live && s.directory.live[owner].listening == s.nodes[host].listening
    requires Judge(s.nodes[host].publications, topic, typeId, s.nodes[node].name) == OK
    ensures Reachable(Joined(s, node, host, topic, typeId, s.directory.topics[topic].owner, conn))
  {
    hide Reachable, Installed;
    Subscribes(s, node, host, topic, typeId, conn);
    var s' := WithSubscription(s, node, host, topic, typeId, s.directory.topics[topic].owner, conn);
    assert s'.nodes[node].waiting == [topic] && [topic][1..] == [];
    Onward(s', Watch(node), Joined(s, node, host, topic, typeId, s.directory.topics[topic].owner, conn));
  }

  /* ---- The run ---- */

  const HERE := Address("10.0.0.1", 5201)
  const THERE := Address("10.0.0.2", 5202)
  const EVENT := Event(7, [52, 50])

  function NewNode(name: string, listening: Address, standing: Standing): Node {
    Node(name, listening, map[], map[], [], EmptyTable(), Draining, standing, Idle, [], [])
  }

  // Three runtimes: a subscriber, and two that can publish.
  function Booted(a: Standing, b: Standing, c: Standing): map<nat, Node> {
    map[1 := NewNode("s", HERE, a), 2 := NewNode("p", HERE, b), 3 := NewNode("q", THERE, c)]
  }

  function Start(): System {
    System(
      Directory(map["s" := Contact(HERE, HERE), "p" := Contact(HERE, HERE), "q" := Contact(THERE, THERE)],
                map[], map[]),
      Booted(Member, Member, Member), map[], map[])
  }

  lemma Boots()
    ensures Reachable(System(EMPTY, Booted(Outside, Outside, Outside), map[], map[]))
  {
    hide Reachable, EmptyTable;
    StartReachable();
    var n1, n2 := NewNode("s", HERE, Outside), NewNode("p", HERE, Outside);
    var s1 := System(EMPTY, map[1 := n1], map[], map[]);
    Onward(EMPTY_SYSTEM, Boot(1, "s", HERE), s1);
    var s2 := System(EMPTY, map[1 := n1, 2 := n2], map[], map[]);
    Onward(s1, Boot(2, "p", HERE), s2);
    Onward(s2, Boot(3, "q", THERE), System(EMPTY, Booted(Outside, Outside, Outside), map[], map[]));
  }

  function Entered(s: System, node: nat, peer: Address): System
    requires node in s.nodes
  {
    var n := s.nodes[node];
    System(s.directory.(live := s.directory.live[n.name := Contact(peer, n.listening)]),
           s.nodes[node := n.(standing := Member)], s.conns, s.log)
  }

  lemma Enters(s: System, node: nat, peer: Address)
    requires Reachable(s) && node in s.nodes && s.nodes[node].standing.Outside?
    requires s.nodes[node].name !in s.directory.live
    ensures Reachable(Entered(s, node, peer))
  {
    hide Reachable;
    Onward(s, Enter(node, peer), Entered(s, node, peer));
  }

  lemma NewNodes(name: string, listening: Address)
    ensures var n := NewNode(name, listening, Outside);
      && n.name == name && n.listening == listening && n.standing == Outside
      && n.(standing := Member) == NewNode(name, listening, Member)
  {
  }

  // All three have joined.
  lemma Starts()
    ensures Reachable(Start())
  {
    hide Reachable, NewNode;
    Boots();
    NewNodes("s", HERE);
    NewNodes("p", HERE);
    NewNodes("q", THERE);
    var s0 := System(EMPTY, Booted(Outside, Outside, Outside), map[], map[]);
    Enters(s0, 1, HERE);
    var s1 := Entered(s0, 1, HERE);
    Enters(s1, 2, HERE);
    var s2 := Entered(s1, 2, HERE);
    Enters(s2, 3, THERE);
    assert Entered(s2, 3, THERE).nodes == Start().nodes;
    assert Entered(s2, 3, THERE).directory.live == Start().directory.live;
  }

  // p has advertised the topic.
  ghost predicate Up(s: System) {
    && Reachable(s) && s.nodes.Keys == {1, 2, 3} && s.conns == map[] && s.log == map[]
    && s.nodes[1] == NewNode("s", HERE, Member) && s.nodes[3] == NewNode("q", THERE, Member)
    && s.nodes[2] == NewNode("p", HERE, Member).(publications := map["t" := Publication(7, map[])])
    && s.directory == Start().directory.(topics := map["t" := TopicEntry("p", 7)])
  }

  lemma Ups() returns (s: System)
    ensures Up(s)
  {
    hide Reachable, EmptyTable;
    Starts();
    Advertises(Start(), 2, "t", 7);
    s := Advertised(Start(), 2, "t", 7);
  }

  // The master has removed a participant.
  function Left(s: System, name: string): System {
    s.(directory := Without(s.directory, name), nodes := Standings(s.nodes, Leave(name)))
  }

  lemma Leaves(s: System, name: string)
    requires Reachable(s)
    ensures Reachable(Left(s, name)) && Left(s, name).nodes.Keys == s.nodes.Keys
    ensures forall r :: r in s.nodes && s.nodes[r].name != name ==> Left(s, name).nodes[r] == s.nodes[r]
  {
    hide Reachable, Without;
    Onward(s, MasterStep(Leave(name)), Left(s, name));
  }
}
