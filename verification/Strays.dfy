// A run in which a callback is given bytes that nobody has published: the publisher dies in the
// middle of an event.
module Strays {
  import opened Common
  import opened Directory
  import opened PollTable
  import opened Framing
  import opened Payload
  import opened Runtime
  import opened EventSystem
  import opened EventInvariant
  import opened EventMembership
  import opened EventRuns

  // The frame of EVENT has ten bytes; nine are written.
  const CUT: nat := 9
  const JUNK: Bytes := [52, 0]

  function Part(): Bytes {
    Encode(EventFrame(EVENT), PAD)[..CUT]
  }

  lemma PartIsCut()
    ensures |Encode(EventFrame(EVENT), PAD)| == 10 && Decode(Part()).None? && Completes(Part(), JUNK)
    ensures Part() != [] && Part()[0] == FRAME_EVENT
  {
    var frame := EventFrame(EVENT);
    CopiedExact(EVENT.payload);
    HeaderAt(frame, PAD, []);
    assert Encode(frame, PAD) + [] == Encode(frame, PAD) && frame.data + [] == frame.data;
    CutShortIsIncomplete(frame, PAD, CUT);
    LengthRoundTrip(2);
    assert Part()[4..HEADER_SIZE] == Encode(frame, PAD)[4..HEADER_SIZE];
    assert Part()[HEADER_SIZE..] == Encode(frame, PAD)[HEADER_SIZE..][..1] == [52];
  }

  // The subscriber is over connection 10, whose slot poll looks at.
  ghost predicate Subscribes10(s: System) {
    && Reachable(s) && 1 in s.nodes && 2 in s.nodes
    && s.nodes[1].waiting == [] && s.nodes[1].phase.Draining? && s.nodes[1].slots == Table([10])
    && s.nodes[1].subscriptions == map["t" := Subscription(7, "p", 10)]
    && s.nodes[2].publications == map["t" := Publication(7, map["s" := 10])]
    && 10 in s.conns && s.conns[10] == Conn(2, "t", 7, 1, "s", Subscribed, [], 0, [], 0, [], [], [])
  }

  lemma SubscribesOver10() returns (s: System)
    ensures Subscribes10(s)
  {
    hide Reachable, EmptyTable, Installed, Table, Encode;
    var u := Ups();
    Joins(u, 1, 2, "t", 7, 10);
    s := Joined(u, 1, 2, "t", 7, "p", 10);
    assert EmptyTable() == Table([]);
    InstalledNext([], 10);
    assert [] + [10] == [10];
  }

  // The publisher has died, and its last bytes are in the stream.
  ghost predicate Left10(s: System, phase: Phase, slots: seq<Slot>) {
    && Reachable(s) && 1 in s.nodes && 2 !in s.nodes
    && s.nodes[1].waiting == [] && s.nodes[1].phase == phase && s.nodes[1].slots == slots
    && s.nodes[1].subscriptions == map["t" := Subscription(7, "p", 10)]
    && 10 in s.conns && s.conns[10] == Conn(2, "t", 7, 1, "s", Subscribed, Part(), 0, [], 0, [], Part(), [])
  }

  lemma DiesInside() returns (s: System)
    ensures Left10(s, Draining, Table([10]))
  {
    hide Reachable, Table, Encode, EventFrame;
    var u := SubscribesOver10();
    PartIsCut();
    ServedBy(map["s" := 10], "s");
    var publish := Publish(2, "t", EVENT, map[10 := Fault(CUT, false)], true);
    assert Enabled(u, publish);
    s := Step(u, publish);
    Onward(u, publish, s);
    assert s.conns[10].stream == [] + Part() == Part();
  }

  lemma OneTopic(n: Node)
    requires n.subscriptions == map["t" := Subscription(7, "p", 10)]
    ensures Window(n) == 1 && Watched(n, 10)
  {
    assert n.subscriptions.Keys == {"t"};
    assert n.subscriptions["t"].socket == 10;
  }

  lemma PollsOnce(u: System) returns (s: System)
    requires Left10(u, Draining, Table([10]))
    ensures Left10(s, Visiting(0), Polled(Table([10]), 1, {0}))
  {
    hide Reachable, Window, Watched, Part;
    PartIsCut();
    var n := u.nodes[1];
    OneTopic(n);
    var u1 := WithNode(u, 1, n.(phase := EventSystem.Polling));
    Onward(u, StartPoll(1), u1);
    OneTopic(u1.nodes[1]);
    var marked := n.(slots := Polled(n.slots, 1, {0}), phase := EventSystem.Polling);
    OneTopic(marked);
    assert marked.slots[0] == Slot(10, true);
    assert Readable(marked, 0);
    s := WithNode(u, 1, marked.(phase := Visiting(0)));
    assert u1.nodes[1 := s.nodes[1]] == s.nodes;
    assert Enabled(u1, PollSlots(1, {0}));
    Onward(u1, PollSlots(1, {0}), s);
  }

  // Main result: a callback can be given an event that nobody has published, here one that starts
  // as the event in which the publisher died and ends as the buffer happened to.
  lemma CallbackSeesStray() returns (s: System)
    ensures Reachable(s) && 10 in s.conns && s.conns[10].sent == [] && s.conns[10].delivered == []
    ensures s.conns[10].strays == [JUNK] && JUNK != Copied(EVENT.payload)
  {
    hide Reachable, Window, Watched, Part, Encode, Decode, Completes, EventFrame, Table;
    var u := DiesInside();
    var v := PollsOnce(u);
    OneTopic(v.nodes[1]);
    PartIsCut();
    CopiedExact(EVENT.payload);
    assert v.nodes[1].slots[0] == Slot(10, true);
    var l := Visit(1, JUNK);
    assert Enabled(v, l);
    s := Step(v, l);
    Onward(v, l, s);
    assert [] + [JUNK] == [JUNK];
  }
}
