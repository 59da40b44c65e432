// Publishers and subscribers as one system: control requests through the master, subscriptions over
// connections of their own, events as frames on byte streams, and in every runtime an event
// thread with a poll table.  The master takes part as the directory, which it refines.
module EventSystem {
  import opened Common
  import opened Directory
  import opened PollTable
  import opened Framing
  import opened Payload
  import opened Runtime

  // FrameType in include/frame.hpp.
  const FRAME_EVENT_SUBSCRIBE: byte := 2
  const FRAME_EVENT: byte := 4

  const PAD: Bytes := [0, 0, 0]

  datatype Event = Event(typeId: uint32, payload: Bytes)

  // How far a subscription over a connection has come.
  datatype Stage = Requested | Answered(response: Response) | Subscribed | Refused

  // A connection from a subscriber to a publisher.  All fields after the stream are history: how
  // many events had been published on the topic when the subscription was accepted, the events
  // written to the connection in full since, how many of them the subscriber has read, and what
  // it has passed to its callback; then the part of a frame that a dying publisher left behind,
  // and what the callback was given for it.
  datatype Conn = Conn(
    publisher: nat, topic: string, typeId: uint32, subscriber: nat, name: string,
    stage: Stage, stream: Bytes,
    start: nat, sent: seq<Event>, taken: nat, delivered: seq<Bytes>, torn: Bytes, strays: seq<Bytes>)

  // What the requester thread of a runtime is waiting for.
  datatype Pending =
    | Idle
    | Advertising(topic: string, typeId: uint32)
    | Locating(topic: string, typeId: uint32)
    | Contacting(conn: nat, publisher: string)

  // Where the event thread of a runtime is: taking in new subscriptions, about to poll, or
  // looking at one slot after the other.
  datatype Phase = Draining | Polling | Visiting(next: nat)

  // A runtime: its tables, its event thread, its requester thread, and its one control socket to
  // the master, with a queue each way.
  datatype Node = Node(
    name: string, listening: Address,
    publications: map<string, Publication>, subscriptions: map<string, Subscription>,
    waiting: seq<string>, slots: seq<Slot>, phase: Phase,
    standing: Standing, pending: Pending, outbox: seq<Query>, inbox: seq<Verdict>)

  // The nodes are the processes that run; a connection whose end is not among them is closed at
  // that end.
  datatype System = System(
    directory: Directory, nodes: map<nat, Node>, conns: map<nat, Conn>, log: map<(nat, string), seq<Event>>)

  const EMPTY_SYSTEM := System(EMPTY, map[], map[], map[])

  datatype Label =
    | MasterStep(query: Query)                      // anything else the master does
    | Boot(node: nat, name: string, listening: Address)
    | Enter(node: nat, peer: Address)               // a runtime joins at the master
    | Advertise(node: nat, topic: string, typeId: uint32)
    | Locate(node: nat, topic: string, typeId: uint32)
    | MasterAnswers(node: nat)
    | FinishAdvertise(node: nat)
    | GiveUp(node: nat)                             // refused by the master, or no publisher there
    | Dial(node: nat, host: nat, conn: nat)
    | AcceptSubscriber(conn: nat)
    | FinishSubscribe(node: nat)
    | Publish(node: nat, topic: string, event: Event, faults: map<nat, Fault>, dies: bool)
    | Exit(node: nat)
    | Watch(node: nat)                              // event thread from here on
    | StartPoll(node: nat)
    | PollSlots(node: nat, ready: set<nat>)
    | Visit(node: nat, junk: Bytes)

  function Published(s: System, node: nat, topic: string): seq<Event> {
    if (node, topic) in s.log then s.log[(node, topic)] else []
  }

  // The response word stands for the JSON text of the reply.
  function ReplyBody(response: Response): Bytes {
    match response
    case OK => [79, 75]
    case DUPLICATE => [68, 85, 80]
    case INVALID => [73, 78, 86]
  }

  function ReplyFrame(response: Response): Frame {
    Frame(FRAME_EVENT_SUBSCRIBE, ReplyBody(response))
  }

  function EventFrame(event: Event): Frame {
    Frame(FRAME_EVENT, Copied(event.payload))
  }

  function EventFrames(events: seq<Event>): seq<Frame> {
    seq(|events|, i requires 0 <= i < |events| => EventFrame(events[i]))
  }

  function Payloads(events: seq<Event>): seq<Bytes> {
    seq(|events|, i requires 0 <= i < |events| => Copied(events[i].payload))
  }

  function Streams(conns: map<nat, Conn>): map<nat, Bytes> {
    map c | c in conns :: conns[c].stream
  }

  function WithNode(s: System, node: nat, n: Node): System {
    s.(nodes := s.nodes[node := n])
  }

  // The master's removal of a participant ends the standing of the runtime behind it.
  function Standings(nodes: map<nat, Node>, q: Query): map<nat, Node> {
    if q.Leave? then map r | r in nodes :: nodes[r].(standing := StandingAfter(nodes[r].standing, nodes[r].name, q))
    else nodes
  }

  function Entry(n: Node, peer: Address): Query {
    Join(API_VERSION, n.name, Contact(peer, n.listening))
  }

  function WithPublications(s: System, node: nat, publications: map<string, Publication>): System
    requires node in s.nodes
  {
    WithNode(s, node, s.nodes[node].(publications := publications))
  }

  // No process, connection or event of this number has been there before.
  ghost predicate Unused(s: System, node: nat) {
    && node !in s.nodes
    && (forall i :: i in s.conns ==> s.conns[i].publisher != node && s.conns[i].subscriber != node)
    && (forall t :: (node, t) !in s.log)
  }

  // poll() would report the connection to its subscriber: there are bytes, or the other end is gone.
  predicate HasInput(s: System, i: int) {
    i in s.conns && (s.conns[i].stream != [] || s.conns[i].publisher !in s.nodes)
  }

  // The window the event thread gives to poll().
  function Window(n: Node): nat {
    Covered(|n.subscriptions|)
  }

  predicate Readable(n: Node, x: nat) {
    x < |n.slots| && n.slots[x].readable
  }

  // Some subscription is over this connection.
  ghost predicate Watched(node: Node, conn: nat) {
    exists t :: t in node.subscriptions && node.subscriptions[t].socket == conn
  }

  // The master has refused, or located a publisher that cannot be reached, or the publisher has
  // gone without an answer.
  predicate Hopeless(s: System, n: Node) {
    match n.pending
    case Locating(_, _) => n.inbox != []
    case Contacting(i, _) => i in s.conns && s.conns[i].publisher !in s.nodes && Decode(s.conns[i].stream).None?
    case _ => false
  }

  // A read does not block, because there is a whole frame or because the other end is gone; junk
  // is then what a frame cut short is taken for.
  predicate CanRead(s: System, c: Conn, junk: Bytes) {
    Decode(c.stream).Some? || (c.publisher !in s.nodes && Completes(c.stream, junk))
  }

  ghost predicate Enabled(s: System, l: Label) {
    match l
    case MasterStep(query) => Admissible(s.directory, query)
    case Boot(node, _, _) => Unused(s, node)
    case Enter(node, _) => node in s.nodes && s.nodes[node].standing.Outside?
    case Advertise(node, _, _) => node in s.nodes && !s.nodes[node].standing.Outside? && s.nodes[node].pending.Idle?
    case Locate(node, _, _) => node in s.nodes && !s.nodes[node].standing.Outside? && s.nodes[node].pending.Idle?
    case MasterAnswers(node) =>
      && node in s.nodes && s.nodes[node].outbox != []
      && MayAsk(s.directory, s.nodes[node].standing, s.nodes[node].outbox[0]) && Owned(s.directory)
    case FinishAdvertise(node) => node in s.nodes && s.nodes[node].pending.Advertising? && s.nodes[node].inbox != []
    case GiveUp(node) => node in s.nodes && Hopeless(s, s.nodes[node])
    case Dial(node, host, conn) =>
      && node in s.nodes && host in s.nodes && conn !in s.conns
      && s.nodes[node].pending.Locating? && s.nodes[node].inbox != []
      && s.nodes[node].inbox[0].Located? && s.nodes[node].inbox[0].at == s.nodes[host].listening
    case AcceptSubscriber(conn) =>
      conn in s.conns && s.conns[conn].stage.Requested? && s.conns[conn].publisher in s.nodes
    case FinishSubscribe(node) =>
      && node in s.nodes && s.nodes[node].pending.Contacting?
      && var c := s.nodes[node].pending.conn;
         c in s.conns && s.conns[c].stage.Answered? && Decode(s.conns[c].stream).Some?
    case Publish(node, topic, event, faults, dies) =>
      && node in s.nodes && topic in s.nodes[node].publications
      && s.nodes[node].publications[topic].typeId == event.typeId
      && |event.payload| < TWO_32
      // Unless the process dies in the middle, the only failure is EPIPE, and only on a
      // connection whose other end is closed.
      && (dies || forall c :: c in faults && c in s.conns ==> faults[c].epipe && s.conns[c].subscriber !in s.nodes)
    case Exit(node) => node in s.nodes
    case Watch(node) =>
      && node in s.nodes && s.nodes[node].phase.Draining?
      && s.nodes[node].waiting != [] && s.nodes[node].waiting[0] in s.nodes[node].subscriptions
    case StartPoll(node) => node in s.nodes && s.nodes[node].phase.Draining? && s.nodes[node].waiting == []
    case PollSlots(node, ready) =>
      && node in s.nodes && s.nodes[node].phase.Polling?
      && forall x :: x in ready ==> x < |s.nodes[node].slots| && HasInput(s, s.nodes[node].slots[x].fd)
    case Visit(node, junk) =>
      && node in s.nodes && s.nodes[node].phase.Visiting? && s.nodes[node].phase.next < |s.nodes[node].slots|
      && var slot := s.nodes[node].slots[s.nodes[node].phase.next];
         slot.readable && slot.fd >= 0 ==> slot.fd in s.conns && CanRead(s, s.conns[slot.fd], junk)
  }

  // What the subscriber does with a readable connection.  An event goes to the callback of the
  // subscription that is over the connection, if there still is one.
  ghost function Read(c: Conn, watched: bool, junk: Bytes): Conn {
    if Decode(c.stream).Some? then
      var (frame, rest) := Decode(c.stream).value;
      if frame.kind != FRAME_EVENT then c.(stream := rest)
      else c.(stream := rest, taken := c.taken + 1,
              delivered := if watched then c.delivered + [frame.data] else c.delivered)
    else if c.stream == [] then c
    else c.(stream := [], torn := [],
            strays := if c.stream[0] == FRAME_EVENT && watched then c.strays + [junk] else c.strays)
  }

  // And with its slot: nothing, unless it is at the end of the stream.
  function SlotsAfter(slots: seq<Slot>, x: nat, c: Conn): seq<Slot>
    requires x < |slots|
  {
    if c.stream == [] then slots[x := slots[x].(fd := -1)] else slots
  }

  function NextPhase(n: Node): Phase
    requires n.phase.Visiting?
  {
    if n.phase.next + 1 < |n.slots| then Visiting(n.phase.next + 1) else Draining
  }

  // What a publication makes of connection i: the frame, or what reaches the socket of it.
  function Sent(c: Conn, i: nat, clients: map<string, nat>, event: Event, faults: map<nat, Fault>, dies: bool): Conn {
    var frame := Encode(EventFrame(event), PAD);
    if !Serves(clients, i) then c
    else if !CutShort(frame, faults, i) then c.(stream := c.stream + frame, sent := c.sent + [event])
    else c.(stream := c.stream + Reaching(frame, faults, i),
            torn := if dies then Reaching(frame, faults, i) else c.torn)
  }

  ghost function Step(s: System, l: Label): System
    requires Enabled(s, l)
  {
    match l
    case MasterStep(query) => s.(directory := Update(s.directory, query), nodes := Standings(s.nodes, query))
    case Boot(node, name, listening) =>
      WithNode(s, node, Node(name, listening, map[], map[], [], EmptyTable(), Draining, Outside, Idle, [], []))
    case Enter(node, peer) =>
      var n := s.nodes[node];
      WithNode(s.(directory := Update(s.directory, Entry(n, peer))), node,
               n.(standing := if n.name in s.directory.live then Outside else Member))
    case Advertise(node, topic, typeId) =>
      var n := s.nodes[node];
      WithNode(s, node, n.(pending := Advertising(topic, typeId),
                           outbox := n.outbox + [Register(n.name, topic, typeId)]))
    case Locate(node, topic, typeId) =>
      var n := s.nodes[node];
      WithNode(s, node, n.(pending := Locating(topic, typeId), outbox := n.outbox + [FindTopic(topic)]))
    case MasterAnswers(node) =>
      var n := s.nodes[node];
      WithNode(s.(directory := Update(s.directory, n.outbox[0])), node,
               n.(outbox := n.outbox[1..], inbox := n.inbox + Answer(s.directory, n.outbox[0])))
    case FinishAdvertise(node) =>
      var n := s.nodes[node];
      var publications :=
        if n.inbox[0] == Accepted
        then n.publications[n.pending.topic := Publication(n.pending.typeId, map[])]
        else n.publications;
      WithNode(s, node, n.(pending := Idle, inbox := n.inbox[1..], publications := publications))
    case GiveUp(node) =>
      var n := s.nodes[node];
      WithNode(s, node, n.(pending := Idle, inbox := if n.pending.Locating? then n.inbox[1..] else n.inbox))
    case Dial(node, host, conn) =>
      var n := s.nodes[node];
      var c := Conn(host, n.pending.topic, n.pending.typeId, node, n.name, Requested, [], 0, [], 0, [], [], []);
      WithNode(s.(conns := s.conns[conn := c]), node,
               n.(pending := Contacting(conn, n.inbox[0].owner), inbox := n.inbox[1..]))
    case AcceptSubscriber(conn) =>
      var c := s.conns[conn];
      var publications := s.nodes[c.publisher].publications;
      var response := Judge(publications, c.topic, c.typeId, c.name);
      var c' := c.(stage := Answered(response), stream := c.stream + Encode(ReplyFrame(response), PAD),
                   start := |Published(s, c.publisher, c.topic)|);
      var s' := s.(conns := s.conns[conn := c']);
      if response == OK then WithPublications(s', c.publisher, Admitted(publications, c.topic, c.name, conn)) else s'
    case FinishSubscribe(node) =>
      var n := s.nodes[node];
      var conn := n.pending.conn;
      var c := s.conns[conn];
      var (frame, rest) := Decode(c.stream).value;
      if frame.data == ReplyBody(OK) then
        WithNode(s.(conns := s.conns[conn := c.(stage := Subscribed, stream := rest)]), node,
                 n.(pending := Idle, waiting := n.waiting + [c.topic],
                    subscriptions := n.subscriptions[c.topic := Subscription(c.typeId, n.pending.publisher, conn)]))
      else
        WithNode(s.(conns := s.conns[conn := c.(stage := Refused, stream := rest)]), node, n.(pending := Idle))
    case Publish(node, topic, event, faults, dies) =>
      var n := s.nodes[node];
      var clients := n.publications[topic].clients;
      var s' := s.(conns := map i | i in s.conns :: Sent(s.conns[i], i, clients, event, faults, dies),
                   log := s.log[(node, topic) := Published(s, node, topic) + [event]]);
      if dies then s'.(nodes := s.nodes - {node})
      else
        var left := Survivors(clients, Encode(EventFrame(event), PAD), faults);
        WithPublications(s', node, n.publications[topic := Publication(event.typeId, left)])
    case Exit(node) => s.(nodes := s.nodes - {node})
    case Watch(node) =>
      var n := s.nodes[node];
      WithNode(s, node, n.(waiting := n.waiting[1..],
                           slots := Installed(n.slots, n.subscriptions[n.waiting[0]].socket)))
    case StartPoll(node) => WithNode(s, node, s.nodes[node].(phase := Polling))
    case PollSlots(node, ready) =>
      var n := s.nodes[node].(slots := Polled(s.nodes[node].slots, Window(s.nodes[node]), ready));
      var hit := exists x :: 0 <= x < Window(n) && Readable(n, x);
      WithNode(s, node, n.(phase := if hit then Visiting(0) else Draining))
    case Visit(node, junk) =>
      var n := s.nodes[node];
      var slot := n.slots[n.phase.next];
      if !slot.readable || slot.fd < 0 then WithNode(s, node, n.(phase := NextPhase(n)))
      else
        var c := s.conns[slot.fd];
        WithNode(s.(conns := s.conns[slot.fd as nat := Read(c, Watched(n, slot.fd), junk)]), node,
                 n.(slots := SlotsAfter(n.slots, n.phase.next, c), phase := NextPhase(n)))
  }

  ghost predicate Leads(s: System, l: Label, s': System) {
    Enabled(s, l) && Step(s, l) == s'
  }

  ghost predicate IsRun(ss: seq<System>, ls: seq<Label>) {
    && |ss| == |ls| + 1
    && ss[0] == EMPTY_SYSTEM
    && forall k :: 0 <= k < |ls| ==> Leads(ss[k], ls[k], ss[k + 1])
  }

  // The streams of a publication are those of one fan-out over the sockets of its clients.
  lemma SentIsFanOut(conns: map<nat, Conn>, clients: map<string, nat>, event: Event, faults: map<nat, Fault>,
                     dies: bool)
    ensures Streams(map i | i in conns :: Sent(conns[i], i, clients, event, faults, dies))
         == FanOut(clients, Streams(conns), Encode(EventFrame(event), PAD), faults)
  {
    hide Encode, Serves, EventFrame;
  }

  // A process can end at any time, and can publish any event of an advertised topic whatever it
  // then finds closed.
  lemma NothingPrevents(s: System, node: nat, topic: string, event: Event, faults: map<nat, Fault>)
    requires node in s.nodes && |event.payload| < TWO_32
    ensures Enabled(s, Exit(node)) && node !in Step(s, Exit(node)).nodes
    ensures topic in s.nodes[node].publications && s.nodes[node].publications[topic].typeId == event.typeId ==>
      && Enabled(s, Publish(node, topic, event, faults, true))
      && ((forall i :: i in faults && i in s.conns ==> faults[i].epipe && s.conns[i].subscriber !in s.nodes) ==>
            Enabled(s, Publish(node, topic, event, faults, false)))
  {
  }

  // The types that the two frames carry on the wire.
  lemma FrameTypes(event: Event, response: Response)
    ensures Encode(EventFrame(event), PAD)[0] == 4 && Encode(ReplyFrame(response), PAD)[0] == 2
  {
  }

  lemma NothingDecodes()
    ensures Decode([]) == None
  {
  }

  // Main result: a turn of the event thread at a marked slot takes one frame if there is one, and
  // frees the slot at the end of the stream; an unmarked slot it passes over.
  lemma VisitExact(s: System, r: nat, junk: Bytes, s': System)
    requires Leads(s, Visit(r, junk), s')
    ensures r in s.nodes && r in s'.nodes && s.nodes[r].phase.Visiting?
    ensures var n, x := s.nodes[r], s.nodes[r].phase.next;
      && x < |n.slots| && |s'.nodes[r].slots| == |n.slots|
      && (forall y :: 0 <= y < |n.slots| && y != x ==> s'.nodes[r].slots[y] == n.slots[y])
      && (!(n.slots[x].readable && n.slots[x].fd >= 0) ==>
            s'.conns == s.conns && s'.nodes[r].slots == n.slots)
      && (n.slots[x].readable && n.slots[x].fd >= 0 ==>
            && n.slots[x].fd in s.conns
            && (s.conns[n.slots[x].fd].stream == [] <==> s'.nodes[r].slots[x].fd == -1)
            && (s.conns[n.slots[x].fd].stream == [] ==> s.conns[n.slots[x].fd].publisher !in s.nodes))
      && s'.nodes[r].phase == if x + 1 < |n.slots| then Visiting(x + 1) else Draining
  {
    hide Decode, Watched, Read;
    var n := s.nodes[r];
    NothingDecodes();
  }
}
