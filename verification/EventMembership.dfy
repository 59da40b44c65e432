// What the directory's answers mean for the runtimes of the event system: a topic is advertised
// once by a runtime, so a subscriber that has been accepted stays one.
module EventMembership {
  import opened Common
  import opened Directory
  import opened PollTable
  import opened Framing
  import opened Payload
  import opened Runtime
  import opened EventSystem
  import opened EventInvariant

  ghost predicate OwnsTopic(d: Directory, name: string, topic: string) {
    topic in d.topics && d.topics[topic].owner == name
  }

  // The control socket carries one request, or its answer, while the requester waits for the
  // master, and nothing otherwise.
  ghost predicate Awaits(n: Node, q: Query) {
    (n.outbox == [q] && n.inbox == []) || (n.outbox == [] && |n.inbox| == 1)
  }

  ghost predicate OneOutstanding(n: Node) {
    match n.pending
    case Idle => n.outbox == [] && n.inbox == []
    case Contacting(_, _) => n.outbox == [] && n.inbox == []
    case Advertising(topic, typeId) => Awaits(n, Register(n.name, topic, typeId))
    case Locating(topic, _) => Awaits(n, FindTopic(topic))
  }

  // A present runtime owns at the master what it has advertised; and an OK it has not read yet is
  // for a topic it has not advertised before.
  ghost predicate Enrolled(d: Directory, n: Node) {
    && OneOutstanding(n)
    && (n.standing.Outside? ==> n.pending.Idle? && n.publications == map[])
    && (n.standing.Member? ==> n.name in d.live && forall t :: t in n.publications ==> OwnsTopic(d, n.name, t))
    && (n.pending.Advertising? && n.inbox == [Accepted] ==>
          n.pending.topic !in n.publications && (n.standing.Member? ==> OwnsTopic(d, n.name, n.pending.topic)))
  }

  ghost predicate AllEnrolled(s: System) {
    Owned(s.directory) && forall r :: r in s.nodes ==> Enrolled(s.directory, s.nodes[r])
  }

  lemma UpdateKeepsOwner(d: Directory, q: Query, name: string)
    requires q != Leave(name)
    ensures name in d.live ==> name in Update(d, q).live
    ensures forall t :: OwnsTopic(d, name, t) ==> OwnsTopic(Update(d, q), name, t)
  {
  }

  // What the master does for others.
  lemma OthersQuery(d: Directory, q: Query, n: Node)
    requires Enrolled(d, n)
    ensures Enrolled(Update(d, q), n.(standing := StandingAfter(n.standing, n.name, q)))
  {
    hide Update, OwnsTopic;
    if q != Leave(n.name) {
      UpdateKeepsOwner(d, q, n.name);
    }
  }

  // What it does for the runtime itself.
  lemma OwnQuery(d: Directory, n: Node)
    requires Enrolled(d, n) && Owned(d) && n.outbox != [] && MayAsk(d, n.standing, n.outbox[0])
    ensures Admissible(d, n.outbox[0]) && !n.outbox[0].Leave?
    ensures Enrolled(Update(d, n.outbox[0]),
                     n.(outbox := n.outbox[1..], inbox := n.inbox + Answer(d, n.outbox[0])))
  {
    var q := n.outbox[0];
    UpdateKeepsOwner(d, q, n.name);
    assert n.inbox + Answer(d, q) == Answer(d, q) && n.outbox[1..] == [];
    if n.pending.Advertising? {
      assert q == Register(n.name, n.pending.topic, n.pending.typeId);
      assert n.pending.topic in Update(d, q).topics;
    }
  }

  lemma Entering(d: Directory, n: Node, peer: Address)
    requires Enrolled(d, n) && n.standing.Outside?
    ensures Admissible(d, Entry(n, peer))
    ensures Enrolled(Update(d, Entry(n, peer)), n.(standing := if n.name in d.live then Outside else Member))
  {
  }

  // The directory stays the same in all other steps, and so do most nodes.
  ghost predicate SameEnrolment(n: Node, n': Node) {
    && n'.name == n.name && n'.standing == n.standing
    && n'.pending == n.pending && n'.outbox == n.outbox && n'.inbox == n.inbox
    && n'.publications.Keys == n.publications.Keys
  }

  lemma SameOutstanding(n: Node, n': Node)
    requires OneOutstanding(n) && SameEnrolment(n, n')
    ensures OneOutstanding(n')
  {
  }

  lemma SameEnrolled(d: Directory, n: Node, n': Node)
    requires Enrolled(d, n) && SameEnrolment(n, n')
    ensures Enrolled(d, n')
  {
    hide OwnsTopic, OneOutstanding;
    SameOutstanding(n, n');
  }

  predicate AsksMaster(l: Label) {
    l.MasterStep? || l.MasterAnswers? || l.Enter?
  }

  // The node that a request or the reading of an answer changes.
  predicate Requests(l: Label) {
    l.Boot? || l.Advertise? || l.Locate? || l.FinishAdvertise? || l.GiveUp? || l.Dial? || l.FinishSubscribe?
  }

  lemma SettledEnrolled(s: System, l: Label, s': System)
    requires Leads(s, l, s') && (l.FinishAdvertise? || l.FinishSubscribe?)
    requires l.node in s.nodes && Enrolled(s.directory, s.nodes[l.node])
    ensures l.node in s'.nodes && Enrolled(s.directory, s'.nodes[l.node])
  {
    hide Decode, Encode, ReplyBody, OwnsTopic, Owned, Update, Answer, Judge;
  }

  lemma AskedEnrolled(s: System, l: Label, s': System)
    requires Leads(s, l, s') && (l.Advertise? || l.Locate? || l.GiveUp? || l.Dial?)
    requires l.node in s.nodes && Enrolled(s.directory, s.nodes[l.node])
    ensures l.node in s'.nodes && Enrolled(s.directory, s'.nodes[l.node])
  {
    hide Decode, Encode, ReplyBody, OwnsTopic, Owned, Update, Answer, Judge;
  }

  lemma BootEnrolled(s: System, l: Label, s': System)
    requires Leads(s, l, s') && l.Boot?
    ensures l.node in s'.nodes && Enrolled(s.directory, s'.nodes[l.node])
  {
    hide Decode, Encode, OwnsTopic, Owned, EmptyTable;
  }

  lemma RequestEnrolled(s: System, l: Label, s': System)
    requires AllEnrolled(s) && Leads(s, l, s') && Requests(l)
    ensures l.node in s'.nodes && Enrolled(s.directory, s'.nodes[l.node])
  {
    hide Enrolled, Step;
    if l.Boot? {
      BootEnrolled(s, l, s');
    } else {
      assert l.node in s.nodes && Enrolled(s.directory, s.nodes[l.node]);
      if l.FinishAdvertise? || l.FinishSubscribe? {
        SettledEnrolled(s, l, s');
      } else {
        AskedEnrolled(s, l, s');
      }
    }
  }

  lemma PublishEnrolment(s: System, l: Label, s': System, r: nat)
    requires Leads(s, l, s') && l.Publish? && r in s'.nodes
    ensures s'.directory == s.directory && r in s.nodes && SameEnrolment(s.nodes[r], s'.nodes[r])
  {
    hide Encode, Sent, Survivors;
  }

  lemma AcceptEnrolment(s: System, conn: nat, s': System, r: nat)
    requires Leads(s, AcceptSubscriber(conn), s') && r in s'.nodes
    ensures s'.directory == s.directory && r in s.nodes && SameEnrolment(s.nodes[r], s'.nodes[r])
  {
    hide Encode;
  }

  lemma OtherNodesSame(s: System, l: Label, s': System, r: nat)
    requires Leads(s, l, s') && !AsksMaster(l) && r in s'.nodes && !(Requests(l) && l.node == r)
    ensures s'.directory == s.directory && r in s.nodes && SameEnrolment(s.nodes[r], s'.nodes[r])
  {
    hide Encode, Decode, ReplyBody, Read, Watched, Sent, Installed, Polled, SlotsAfter;
    if l.Publish? {
      PublishEnrolment(s, l, s', r);
      hide Leads;
    } else if l.AcceptSubscriber? {
      AcceptEnrolment(s, l.conn, s', r);
      hide Leads;
    }
  }

  lemma MasterEnrolled(s: System, l: Label, s': System, r: nat)
    requires AllEnrolled(s) && Leads(s, l, s') && AsksMaster(l) && r in s'.nodes
    ensures r in s.nodes && Enrolled(s'.directory, s'.nodes[r])
  {
    hide Enrolled, Owned, Answer, Update, MayAsk, Admissible;
    var d, n := s.directory, s.nodes[r];
    match l
    case MasterStep(query) => OthersQuery(d, query, n);
    case Enter(node, peer) =>
      Entering(d, s.nodes[node], peer);
      OthersQuery(d, Entry(s.nodes[node], peer), n);
    case MasterAnswers(node) =>
      OwnQuery(d, s.nodes[node]);
      OthersQuery(d, s.nodes[node].outbox[0], n);
  }

  lemma MasterOwned(s: System, l: Label, s': System)
    requires AllEnrolled(s) && Leads(s, l, s') && AsksMaster(l)
    ensures Owned(s'.directory)
  {
    hide Enrolled, Owned, Answer, Update, MayAsk;
    match l
    case MasterStep(query) => UpdateOwned(s.directory, query);
    case Enter(node, peer) =>
      Entering(s.directory, s.nodes[node], peer);
      UpdateOwned(s.directory, Entry(s.nodes[node], peer));
    case MasterAnswers(node) =>
      OwnQuery(s.directory, s.nodes[node]);
      UpdateOwned(s.directory, s.nodes[node].outbox[0]);
  }

  lemma OthersKeepDirectory(s: System, l: Label, s': System)
    requires Leads(s, l, s') && !AsksMaster(l)
    ensures s'.directory == s.directory
  {
    hide Encode, Decode, ReplyBody, Read, Watched, Sent, Installed, Polled, Judge, Survivors;
  }

  lemma StepEnrolled(s: System, l: Label, s': System)
    requires AllEnrolled(s) && Leads(s, l, s')
    ensures AllEnrolled(s')
  {
    hide Enrolled, Owned, Leads, SameEnrolment;
    if AsksMaster(l) {
      MasterOwned(s, l, s');
    } else {
      OthersKeepDirectory(s, l, s');
    }
    forall r | r in s'.nodes
      ensures Enrolled(s'.directory, s'.nodes[r])
    {
      if AsksMaster(l) {
        MasterEnrolled(s, l, s', r);
      } else if Requests(l) && l.node == r {
        RequestEnrolled(s, l, s');
      } else {
        OtherNodesSame(s, l, s', r);
        SameEnrolled(s.directory, s.nodes[r], s'.nodes[r]);
      }
    }
  }

  lemma {:induction false} RunEnrolled(ss: seq<System>, ls: seq<Label>, k: nat)
    requires IsRun(ss, ls) && k <= |ls|
    ensures AllEnrolled(ss[k])
  {
    hide Leads, Enrolled;
    if k > 0 {
      RunEnrolled(ss, ls, k - 1);
      StepEnrolled(ss[k - 1], ls[k - 1], ss[k]);
    }
  }

  // So every entry of the directory names a present participant, and the master can always answer.
  lemma RunOwned(ss: seq<System>, ls: seq<Label>, k: nat)
    requires IsRun(ss, ls) && k <= |ls|
    ensures Owned(ss[k].directory)
  {
    hide Leads, Enrolled, Owned;
    RunEnrolled(ss, ls, k);
  }

  // Main result: in every run, when a runtime reads that its advertisement is accepted, it has not
  // advertised the topic before: an entry for a topic is written once.
  lemma AdvertisedTopicIsNew(ss: seq<System>, ls: seq<Label>, k: nat, p: nat)
    requires IsRun(ss, ls) && k < |ls| && ls[k] == FinishAdvertise(p) && Enabled(ss[k], ls[k])
    requires ss[k].nodes[p].inbox[0] == Accepted
    ensures ss[k].nodes[p].pending.topic !in ss[k].nodes[p].publications
  {
    hide Leads, OwnsTopic, Owned;
    RunEnrolled(ss, ls, k);
    assert Enrolled(ss[k].directory, ss[k].nodes[p]);
    assert ss[k].nodes[p].inbox == [Accepted];
  }

  lemma FinishKeepsTopics(s: System, l: Label, s': System, p: nat)
    requires Leads(s, l, s') && Requests(l) && l.node == p && p in s.nodes
    ensures p in s'.nodes && s.nodes[p].publications.Keys <= s'.nodes[p].publications.Keys
  {
    hide Decode, ReplyBody;
  }

  lemma MasterKeepsTopics(s: System, l: Label, s': System, p: nat)
    requires Leads(s, l, s') && AsksMaster(l) && p in s.nodes
    ensures p in s'.nodes && s'.nodes[p].publications == s.nodes[p].publications
  {
    hide Answer, Update;
  }

  lemma StepKeepsTopics(s: System, l: Label, s': System, p: nat)
    requires Leads(s, l, s') && p in s.nodes && p in s'.nodes
    ensures s.nodes[p].publications.Keys <= s'.nodes[p].publications.Keys
  {
    hide Leads;
    if AsksMaster(l) {
      MasterKeepsTopics(s, l, s', p);
    } else if Requests(l) && l.node == p {
      FinishKeepsTopics(s, l, s', p);
    } else {
      OtherNodesSame(s, l, s', p);
    }
  }

  lemma {:induction false} TopicsLast(ss: seq<System>, ls: seq<Label>, p: nat, j: nat, k: nat)
    requires IsRun(ss, ls) && j <= k <= |ls| && forall m :: j <= m <= k ==> p in ss[m].nodes
    ensures ss[j].nodes[p].publications.Keys <= ss[k].nodes[p].publications.Keys
  {
    hide Leads;
    if j < k {
      TopicsLast(ss, ls, p, j, k - 1);
      StepKeepsTopics(ss[k - 1], ls[k - 1], ss[k], p);
    }
  }

  // In this step a runtime reads that its advertisement of the topic is accepted.
  ghost predicate ReadsAccepted(s: System, l: Label, p: nat, topic: string) {
    && l == FinishAdvertise(p) && Enabled(s, l)
    && s.nodes[p].pending.topic == topic && s.nodes[p].inbox[0] == Accepted
  }

  lemma AdvertisesEntry(s: System, l: Label, s': System, p: nat, topic: string)
    requires Leads(s, l, s') && ReadsAccepted(s, l, p, topic)
    ensures p in s'.nodes && topic in s'.nodes[p].publications
  {
  }

  lemma AdvertisedAtMostOnce(ss: seq<System>, ls: seq<Label>, p: nat, topic: string, j: nat, k: nat)
    requires IsRun(ss, ls) && j < k < |ls| && forall m :: j <= m <= k ==> p in ss[m].nodes
    requires ReadsAccepted(ss[j], ls[j], p, topic)
    ensures !ReadsAccepted(ss[k], ls[k], p, topic)
  {
    hide Leads;
    AdvertisesEntry(ss[j], ls[j], ss[j + 1], p, topic);
    TopicsLast(ss, ls, p, j + 1, k);
    if ReadsAccepted(ss[k], ls[k], p, topic) {
      AdvertisedTopicIsNew(ss, ls, k, p);
    }
  }

  /* ---- Subscribers stay ---- */

  ghost predicate IsServed(s: System, i: nat) {
    && i in s.conns
    && s.conns[i].publisher in s.nodes && s.conns[i].topic in s.nodes[s.conns[i].publisher].publications
    && Serves(s.nodes[s.conns[i].publisher].publications[s.conns[i].topic].clients, i)
  }

  // The publisher has accepted the connection, and both processes run.
  ghost predicate Stands(s: System, i: nat) {
    && i in s.conns && (s.conns[i].stage == Answered(OK) || s.conns[i].stage == Subscribed)
    && s.conns[i].publisher in s.nodes && s.conns[i].subscriber in s.nodes
  }

  ghost predicate AllServed(s: System) {
    forall i :: Stands(s, i) ==> IsServed(s, i)
  }

  lemma ServedName(clients: map<string, nat>, fd: nat) returns (n: string)
    requires Serves(clients, fd)
    ensures n in clients && clients[n] == fd
  {
    n :| n in clients && clients[n] == fd;
  }

  lemma AcceptServes(s: System, conn: nat, s': System, i: nat)
    requires AllServed(s) && Leads(s, AcceptSubscriber(conn), s') && Stands(s', i)
    ensures IsServed(s', i)
  {
    hide Encode, Published;
    var c := s'.conns[i];
    if i == conn {
      ServedBy(s'.nodes[c.publisher].publications[c.topic].clients, c.name);
    } else {
      assert Stands(s, i);
      var n := ServedName(s.nodes[c.publisher].publications[c.topic].clients, i);
      var clients := s'.nodes[c.publisher].publications[c.topic].clients;
      assert n in clients && clients[n] == i;
      ServedBy(clients, n);
    }
  }

  // The clients of a publication that are written to in full, or whose end is not closed, stay.
  lemma ClientsStay(s: System, l: Label, s': System, p: nat, t: string, n: string)
    requires Leads(s, l, s') && l.Publish? && p in s'.nodes && p in s.nodes
    requires t in s.nodes[p].publications && n in s.nodes[p].publications[t].clients
    requires (p, t) == (l.node, l.topic) ==>
      !Gone(Encode(EventFrame(l.event), PAD), l.faults, s.nodes[p].publications[t].clients[n])
    ensures t in s'.nodes[p].publications && n in s'.nodes[p].publications[t].clients
    ensures s'.nodes[p].publications[t].clients[n] == s.nodes[p].publications[t].clients[n]
  {
    hide Encode, Sent, Gone;
  }

  lemma PublishServes(s: System, l: Label, s': System, i: nat)
    requires AllServed(s) && Leads(s, l, s') && l.Publish? && Stands(s', i)
    ensures IsServed(s', i)
  {
    hide Leads, Encode, Serves, CutShort;
    PublishKeeps(s, l, s');
    assert Stands(s, i);
    var c := s.conns[i];
    var n := ServedName(s.nodes[c.publisher].publications[c.topic].clients, i);
    PublishedTo(s, l, s', i);
    ClientsStay(s, l, s', c.publisher, c.topic, n);
    ServedBy(s'.nodes[c.publisher].publications[c.topic].clients, n);
  }

  // An accepted advertisement adds a topic, and refused or not takes none away.
  lemma AdvertiseServes(s: System, p: nat, s': System, i: nat)
    requires AllServed(s) && AllEnrolled(s) && Leads(s, FinishAdvertise(p), s') && Stands(s', i)
    ensures IsServed(s', i)
  {
    hide Owned, OwnsTopic, Serves;
    assert Enrolled(s.directory, s.nodes[p]);
    assert Stands(s, i) && IsServed(s, i);
  }

  lemma FinishServes(s: System, node: nat, s': System, i: nat)
    requires Sound(s) && AllServed(s) && Leads(s, FinishSubscribe(node), s') && Stands(s', i)
    ensures IsServed(s', i)
  {
    hide Sound, ConnSound, Serves, Decode, ReplyBody, LogOf;
    FinishAnswers(s, node, s');
    assert Stands(s, i) && IsServed(s, i);
  }

  lemma VisitServes(s: System, l: Label, s': System, i: nat)
    requires AllServed(s) && Leads(s, l, s') && l.Visit? && Stands(s', i)
    ensures IsServed(s', i)
  {
    hide Leads, Serves, Read, Watched, InTable;
    VisitChanges(s, l, s');
    var n := s.nodes[l.node];
    if Reads(n) {
      ReadChanges(s.conns[Current(n).fd], Watched(n, Current(n).fd), l.junk);
    }
    assert Stands(s, i) && IsServed(s, i);
  }

  lemma OthersServe(s: System, l: Label, s': System, i: nat)
    requires AllServed(s) && Leads(s, l, s') && Stands(s', i)
    requires !l.AcceptSubscriber? && !l.Publish? && !l.FinishAdvertise? && !l.FinishSubscribe? && !l.Visit?
    ensures IsServed(s', i)
  {
    hide Serves, Answer, Update, Installed, Polled, Decode;
    assert Stands(s, i) && IsServed(s, i);
  }

  lemma StepServed(s: System, l: Label, s': System)
    requires Sound(s) && AllEnrolled(s) && AllServed(s) && Leads(s, l, s')
    ensures AllServed(s')
  {
    hide Sound, AllEnrolled, Leads, Stands, IsServed;
    forall i | Stands(s', i)
      ensures IsServed(s', i)
    {
      match l
      case AcceptSubscriber(conn) => AcceptServes(s, conn, s', i);
      case Publish(_, _, _, _, _) => PublishServes(s, l, s', i);
      case FinishAdvertise(p) => AdvertiseServes(s, p, s', i);
      case FinishSubscribe(node) => FinishServes(s, node, s', i);
      case Visit(_, _) => VisitServes(s, l, s', i);
      case _ => OthersServe(s, l, s', i);
    }
  }

  // Main result: in every run, a publisher goes on sending to every subscriber it has accepted,
  // as long as both processes run.
  lemma {:induction false} AcceptedStaysServed(ss: seq<System>, ls: seq<Label>, k: nat)
    requires IsRun(ss, ls) && k <= |ls|
    ensures AllServed(ss[k])
  {
    hide Leads, Sound, AllEnrolled, IsServed;
    if k > 0 {
      AcceptedStaysServed(ss, ls, k - 1);
      RunSound(ss, ls, k - 1);
      RunEnrolled(ss, ls, k - 1);
      StepServed(ss[k - 1], ls[k - 1], ss[k]);
    }
  }

  /* ---- Acceptance ---- */

  ghost predicate ServesAs(s: System, i: nat, p: nat, topic: string, name: string) {
    && IsServed(s, i) && s.conns[i].name == name
    && s.conns[i].publisher == p && s.conns[i].topic == topic
  }

  // The publisher serves somebody of this name on the topic.
  ghost predicate ServesName(s: System, p: nat, topic: string, name: string) {
    exists i :: ServesAs(s, i, p, topic, name)
  }

  lemma ClientNames(s: System, p: nat, t: string, n: string)
    requires Sound(s) && p in s.nodes && t in s.nodes[p].publications
    ensures n in s.nodes[p].publications[t].clients <==> ServesName(s, p, t, n)
  {
    hide ConnsSound, TornSound, SubscriptionsSound, ThreadsSound, Serves;
    var clients := s.nodes[p].publications[t].clients;
    if n in clients {
      assert IsClient(s, p, t, n, clients[n], s.nodes[p].publications[t].typeId);
      ServedBy(clients, n);
      assert ServesAs(s, clients[n], p, t, n);
    }
    if i :| ServesAs(s, i, p, t, n) {
      ServedIsClient(s, p, t, i);
      var other := ServedName(clients, i);
      assert IsClient(s, p, t, other, i, s.nodes[p].publications[t].typeId);
    }
  }

  // Main result: in every run, a publisher that runs can answer every request it has not answered.
  // It is OK exactly for an advertised topic, with the type of the advertisement, under a name that
  // the publisher does not serve there, whoever else it serves; DUPLICATE exactly if it does serve
  // the name; and INVALID otherwise.
  lemma AcceptsExact(ss: seq<System>, ls: seq<Label>, k: nat, i: nat)
    requires IsRun(ss, ls) && k <= |ls| && i in ss[k].conns && ss[k].conns[i].stage == Requested
    requires ss[k].conns[i].publisher in ss[k].nodes
    ensures Enabled(ss[k], AcceptSubscriber(i)) && i in Step(ss[k], AcceptSubscriber(i)).conns
    ensures var c, stage := ss[k].conns[i], Step(ss[k], AcceptSubscriber(i)).conns[i].stage;
      var publications := ss[k].nodes[c.publisher].publications;
      var known := c.topic in publications && publications[c.topic].typeId == c.typeId;
      && (stage == Answered(OK) <==> known && !ServesName(ss[k], c.publisher, c.topic, c.name))
      && (stage == Answered(DUPLICATE) <==> known && ServesName(ss[k], c.publisher, c.topic, c.name))
      && (stage == Answered(INVALID) <==> !known)
  {
    hide Leads, Sound, ServesName, Encode, Published;
    RunSound(ss, ls, k);
    var c := ss[k].conns[i];
    if c.topic in ss[k].nodes[c.publisher].publications {
      ClientNames(ss[k], c.publisher, c.topic, c.name);
    }
  }

  lemma AcceptKeepsServed(s: System, i: nat, s': System, other: nat)
    requires Leads(s, AcceptSubscriber(i), s') && s.conns[i].stage == Requested
    requires s'.conns[i].stage == Answered(OK) && other != i && IsServed(s, other)
    ensures IsServed(s', i) && IsServed(s', other)
  {
    hide Encode, Published, Serves;
    var c, o := s'.conns[i], s.conns[other];
    ServedBy(s'.nodes[c.publisher].publications[c.topic].clients, c.name);
    var n := ServedName(s.nodes[o.publisher].publications[o.topic].clients, other);
    ServedBy(s'.nodes[o.publisher].publications[o.topic].clients, n);
  }

  // Main result: an accepted subscriber joins those that are served; nobody is pushed out.
  lemma AcceptedJoinsOthers(ss: seq<System>, ls: seq<Label>, k: nat, i: nat, other: nat)
    requires IsRun(ss, ls) && k < |ls| && ls[k] == AcceptSubscriber(i)
    requires i in ss[k + 1].conns && ss[k + 1].conns[i].stage == Answered(OK)
    requires other != i && IsServed(ss[k], other)
    ensures IsServed(ss[k + 1], i) && IsServed(ss[k + 1], other)
  {
    assert Leads(ss[k], ls[k], ss[k + 1]);
    hide IsRun;
    AcceptKeepsServed(ss[k], i, ss[k + 1], other);
  }
}
