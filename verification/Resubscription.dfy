// Runs in which a runtime goes deaf.  A subscriber subscribes again to a topic that has a new
// publisher, while its connection to the old one is still open: the new connection gets a slot
// that poll does not look at, or two slots, at the second of which the event thread blocks.
module Resubscription {
  import opened Common
  import opened Directory
  import opened PollTable
  import opened Framing
  import opened Payload
  import opened Runtime
  import opened EventSystem
  import opened EventInvariant
  import opened EventMembership
  import opened Delivery
  import opened EventThread
  import opened EventProgress
  import opened EventRuns

  // The subscriber is over connection 10 to p, and the master has then removed p.
  ghost predicate Half(s: System) {
    && Reachable(s) && AtRest(s, 1) && AtRest(s, 3) && 2 in s.nodes
    && s.nodes[1].name == "s" && s.nodes[1].waiting == [] && s.nodes[1].phase.Draining?
    && s.nodes[1].slots == Table([10]) && s.nodes[1].subscriptions == map["t" := Subscription(7, "p", 10)]
    && s.nodes[3].name == "q" && s.nodes[3].listening == THERE && s.nodes[3].publications == map[]
    && s.directory == Directory(map["s" := Contact(HERE, HERE), "q" := Contact(THERE, THERE)], map[], map[])
    && s.conns.Keys == {10} && s.conns[10].publisher == 2 && s.log == map[]
  }

  lemma FirstHalf() returns (s: System)
    ensures Half(s)
  {
    hide Reachable, EmptyTable, Installed, Table, Encode, Standings;
    var s1 := Ups();
    Joins(s1, 1, 2, "t", 7, 10);
    var s2 := Joined(s1, 1, 2, "t", 7, "p", 10);
    Leaves(s2, "p");
    s := Left(s2, "p");
    assert EmptyTable() == Table([]);
    InstalledNext([], 10);
    assert [] + [10] == [10];
  }

  // It has subscribed again, over connection 11 to q.
  ghost predicate Again(s: System) {
    && Reachable(s) && 1 in s.nodes && 2 in s.nodes && 3 in s.nodes
    && s.nodes[1].slots == Table([10, 11]) && s.nodes[1].subscriptions == map["t" := Subscription(7, "q", 11)]
    && s.nodes[3].publications == map["t" := Publication(7, map["s" := 11])]
    && s.conns.Keys == {10, 11} && s.conns[10].publisher == 2
    && s.conns[11] == Conn(3, "t", 7, 1, "s", Subscribed, [], 0, [], 0, [], [], [])
    && s.log == map[]
  }

  lemma SecondHalf(h: System) returns (s: System)
    requires Half(h)
    ensures Again(s)
  {
    hide Reachable, Installed, Table;
    Advertises(h, 3, "t", 7);
    var s1 := Advertised(h, 3, "t", 7);
    Joins(s1, 1, 3, "t", 7, 11);
    s := Joined(s1, 1, 3, "t", 7, "q", 11);
    InstalledNext([10], 11);
    assert [10] + [11] == [10, 11];
  }

  lemma PublishesUnread(a: System) returns (s: System)
    requires Again(a)
    ensures Reachable(s) && 1 in s.nodes && s.nodes[1] == a.nodes[1] && 2 in s.nodes && 3 in s.nodes
    ensures s.nodes[3].publications == a.nodes[3].publications
    ensures s.conns.Keys == {10, 11} && s.conns[10].publisher == 2
    ensures s.conns[11] == a.conns[11].(sent := [EVENT], stream := Encode(EventFrame(EVENT), PAD))
  {
    hide Reachable, Table, Encode;
    s := Step(a, Publish(3, "t", EVENT, map[], false));
    assert Enabled(a, Publish(3, "t", EVENT, map[], false));
    Onward(a, Publish(3, "t", EVENT, map[], false), s);
    ServedBy(map["s" := 11], "s");
    assert Survivors(map["s" := 11], Encode(EventFrame(EVENT), PAD), map[]) == map["s" := 11];
  }

  // Main result: a runtime can go deaf.  Its only subscription is attached at both ends and in
  // the poll table, an event is waiting in the stream, and the slot is outside the window: all
  // because the connection to an earlier publisher of the topic is still open.
  lemma ResubscriptionGoesDeaf() returns (s: System)
    ensures Reachable(s) && Attached(s, 11) && s.conns[11].subscriber == 1
    ensures HasInput(s, 11) && s.conns[11].sent == [EVENT] && s.conns[11].delivered == []
    ensures s.nodes[1].subscriptions.Keys == {"t"}
    ensures InTable(s.nodes[1].slots, 11) && !InWindow(s.nodes[1], 11)
    ensures 10 in s.conns && s.conns[10].publisher in s.nodes
  {
    hide Reachable, Table;
    var h := FirstHalf();
    var a := SecondHalf(h);
    hide Half;
    s := PublishesUnread(a);
    assert s.nodes[1].subscriptions["t"].socket == 11;
    assert s.nodes[1].slots[1].fd == 11;
  }

  /* ---- Another run: two slots for one connection ---- */

  // The subscriber has subscribed at p and then at q, before its event thread has looked.
  ghost predicate Twice(s: System) {
    && Reachable(s) && AtRest(s, 1) && AtRest(s, 3)
    && s.nodes[1].name == "s" && s.nodes[1].waiting == ["t", "t"] && s.nodes[1].phase.Draining?
    && s.nodes[1].slots == Table([]) && s.nodes[1].subscriptions == map["t" := Subscription(7, "q", 11)]
    && s.nodes[3].name == "q" && s.nodes[3].listening == THERE
    && s.nodes[3].publications == map["t" := Publication(7, map["s" := 11])]
    && s.directory == Directory(map["s" := Contact(HERE, HERE), "q" := Contact(THERE, THERE)],
                                map["t" := TopicEntry("q", 7)], map[])
    && s.conns.Keys == {10, 11} && s.conns[11] == Conn(3, "t", 7, 1, "s", Subscribed, [], 0, [], 0, [], [], [])
    && s.log == map[]
  }

  // At p, whom the master has then removed.
  ghost predicate Once(s: System) {
    && Reachable(s) && AtRest(s, 1) && AtRest(s, 3) && s.log == map[]
    && s.nodes[1].name == "s" && s.nodes[1].waiting == ["t"] && s.nodes[1].phase.Draining?
    && s.nodes[1].slots == Table([]) && s.nodes[1].subscriptions == map["t" := Subscription(7, "p", 10)]
    && s.nodes[3].name == "q" && s.nodes[3].listening == THERE && s.nodes[3].publications == map[]
    && s.directory == Directory(map["s" := Contact(HERE, HERE), "q" := Contact(THERE, THERE)], map[], map[])
    && s.conns.Keys == {10}
  }

  lemma SubscribesOnce() returns (s: System)
    ensures Once(s)
  {
    hide Reachable, EmptyTable, Table, Encode, Standings;
    var s1 := Ups();
    Subscribes(s1, 1, 2, "t", 7, 10);
    var s2 := WithSubscription(s1, 1, 2, "t", 7, "p", 10);
    Leaves(s2, "p");
    s := Left(s2, "p");
    assert EmptyTable() == Table([]);
  }

  lemma SubscribesTwice() returns (s: System)
    ensures Twice(s)
  {
    hide Reachable, Table, Encode;
    var s1 := SubscribesOnce();
    Advertises(s1, 3, "t", 7);
    var s2 := Advertised(s1, 3, "t", 7);
    Subscribes(s2, 1, 3, "t", 7, 11);
    s := WithSubscription(s2, 1, 3, "t", 7, "q", 11);
    assert ["t"] + ["t"] == ["t", "t"];
  }

  // Then to another topic of q.
  ghost predicate Thrice(s: System, waiting: seq<string>, front: seq<int>) {
    && Reachable(s) && 1 in s.nodes && 3 in s.nodes && |front| <= MAX_CONNECTIONS
    && s.nodes[1].waiting == waiting && s.nodes[1].phase.Draining? && s.nodes[1].slots == Table(front)
    && s.nodes[1].subscriptions == map["t" := Subscription(7, "q", 11), "u" := Subscription(8, "q", 12)]
    && "t" in s.nodes[3].publications && s.nodes[3].publications["t"] == Publication(7, map["s" := 11])
    && 11 in s.conns && s.conns[11] == Conn(3, "t", 7, 1, "s", Subscribed, [], 0, [], 0, [], [], [])
    && s.log == map[]
  }

  lemma SubscribesThrice() returns (s: System)
    ensures Thrice(s, ["t", "t", "u"], [])
  {
    hide Reachable, Table, Encode;
    var s1 := SubscribesTwice();
    Advertises(s1, 3, "u", 8);
    var s2 := Advertised(s1, 3, "u", 8);
    Subscribes(s2, 1, 3, "u", 8, 12);
    s := WithSubscription(s2, 1, 3, "u", 8, "q", 12);
    assert ["t", "t"] + ["u"] == ["t", "t", "u"];
  }

  lemma WatchOne(s: System, waiting: seq<string>, front: seq<int>, topic: string) returns (s': System)
    requires Thrice(s, [topic] + waiting, front) && |front| < MAX_CONNECTIONS && -1 !in front
    requires topic == "t" || topic == "u"
    ensures Thrice(s', waiting, front + [if topic == "t" then 11 else 12])
  {
    hide Reachable, Table, Installed;
    var fd: nat := if topic == "t" then 11 else 12;
    InstalledNext(front, fd);
    assert ([topic] + waiting)[1..] == waiting;
    s' := WithNode(s, 1, s.nodes[1].(waiting := waiting, slots := Installed(Table(front), fd)));
    Onward(s, Watch(1), s');
  }

  lemma WatchAll() returns (s: System)
    ensures Thrice(s, [], [11, 11, 12])
  {
    hide Thrice;
    var s0 := SubscribesThrice();
    assert ["t", "t", "u"] == ["t"] + ["t", "u"] && ["t", "u"] == ["t"] + ["u"] && ["u"] == ["u"] + [];
    var s1 := WatchOne(s0, ["t", "u"], [], "t");
    assert [] + [11] == [11];
    var s2 := WatchOne(s1, ["u"], [11], "t");
    assert [11] + [11] == [11, 11];
    s := WatchOne(s2, [], [11, 11], "u");
    assert [11, 11] + [12] == [11, 11, 12];
  }

  // One event is waiting, and poll has marked both slots of its connection.
  ghost predicate MarkedTwice(s: System, next: nat) {
    && Reachable(s) && 1 in s.nodes && s.nodes[1].phase == Visiting(next) && |s.nodes[1].slots| == MAX_CONNECTIONS
    && s.nodes[1].slots[0] == Slot(11, true) && s.nodes[1].slots[1] == Slot(11, true)
    && 11 in s.conns && s.conns[11].publisher in s.nodes
    && s.conns[11].delivered == [] && Watched(s.nodes[1], 11)
  }

  lemma SameWindow(n: Node)
    ensures forall n': Node :: n'.subscriptions == n.subscriptions ==> Window(n') == Window(n)
  {
  }

  lemma SameWatched(n: Node, n': Node, i: nat)
    requires Watched(n, i) && n'.subscriptions == n.subscriptions
    ensures Watched(n', i)
  {
  }

  lemma MarksBoth(s: System) returns (s': System)
    requires Reachable(s) && 1 in s.nodes && s.nodes[1].phase.Polling?
    requires s.nodes[1].slots == Table([11, 11, 12]) && Window(s.nodes[1]) == 2 && Watched(s.nodes[1], 11)
    requires 11 in s.conns && s.conns[11].stream != [] && s.conns[11].publisher in s.nodes
    requires s.conns[11].delivered == []
    ensures MarkedTwice(s', 0) && s'.conns == s.conns
  {
    hide Reachable, Watched, Window;
    var n := s.nodes[1];
    SameWindow(n);
    var marked := n.(slots := Polled(n.slots, 2, {0, 1}));
    assert marked.slots[0] == Slot(11, true) && marked.slots[1] == Slot(11, true);
    assert Readable(marked, 0);
    s' := WithNode(s, 1, marked.(phase := Visiting(0)));
    SameWatched(n, s'.nodes[1], 11);
    Onward(s, PollSlots(1, {0, 1}), s');
  }

  lemma TwoTopics(s: System)
    requires Thrice(s, [], [11, 11, 12])
    ensures Window(s.nodes[1]) == 2 && Watched(s.nodes[1], 11)
  {
    var n := s.nodes[1];
    assert n.subscriptions.Keys == {"t", "u"};
    assert |n.subscriptions.Keys| == 2;
    assert n.subscriptions["t"].socket == 11;
  }

  lemma PollsTwice() returns (s: System)
    ensures MarkedTwice(s, 0) && s.conns[11].stream == Encode(EventFrame(EVENT), PAD)
  {
    hide Reachable, Encode, EventFrame, Polled, Table, Window, Watched;
    var s0 := WatchAll();
    TwoTopics(s0);
    var publish := Publish(3, "t", EVENT, map[], false);
    assert Enabled(s0, publish);
    var s1 := Step(s0, publish);
    ServedBy(map["s" := 11], "s");
    HeaderAt(EventFrame(EVENT), PAD, []);
    assert s1.conns[11].stream == [] + Encode(EventFrame(EVENT), PAD) == Encode(EventFrame(EVENT), PAD);
    Onward(s0, publish, s1);
    hide MarkedTwice, Thrice;
    var n := s1.nodes[1];
    var s2 := WithNode(s1, 1, n.(phase := EventSystem.Polling));
    Onward(s1, StartPoll(1), s2);
    SameWindow(n);
    SameWatched(n, s2.nodes[1], 11);
    s := MarksBoth(s2);
  }

  lemma ReadsEvent(c: Conn)
    requires c.stream == Encode(EventFrame(EVENT), PAD) && c.delivered == []
    ensures Decode(c.stream).Some?
    ensures Read(c, true, []).delivered == [Copied(EVENT.payload)] && Read(c, true, []).stream == []
    ensures Read(c, true, []).publisher == c.publisher
  {
    hide Encode, Decode, Strncpy;
    FrameRoundTripExact(EventFrame(EVENT), PAD, []);
    assert Encode(EventFrame(EVENT), PAD) + [] == Encode(EventFrame(EVENT), PAD);
  }

  // Main result: two slots for one connection stop the event thread.  It has read the only event,
  // is at the second slot, and waits for bytes that nobody has sent, whatever else there is to read.
  lemma SecondSlotBlocks() returns (s: System)
    ensures Reachable(s) && 1 in s.nodes && s.nodes[1].phase == Visiting(1)
    ensures 11 in s.conns && s.conns[11].delivered == [Copied(EVENT.payload)]
    ensures forall junk :: !Enabled(s, Visit(1, junk))
  {
    hide Reachable, Encode, Decode, Copied, Read, Watched;
    var s0 := PollsTwice();
    ReadsEvent(s0.conns[11]);
    HeaderAt(EventFrame(EVENT), PAD, []);
    assert Enabled(s0, Visit(1, []));
    s := Step(s0, Visit(1, []));
    Onward(s0, Visit(1, []), s);
    NothingToDecode();
  }
}
