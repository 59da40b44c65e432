// What subscribers receive, over whole runs of publishers, subscribers and master.
module Delivery {
  import opened Common
  import opened Directory
  import opened PollTable
  import opened Framing
  import opened Payload
  import opened Runtime
  import opened EventSystem
  import opened EventInvariant
  import opened EventMembership
  import Calls

  // The events a run publishes on a topic of a node.
  function PublishedBy(ls: seq<Label>, node: nat, topic: string): seq<Event> {
    if ls == [] then []
    else
      var l := ls[|ls| - 1];
      PublishedBy(ls[..|ls| - 1], node, topic) +
      if l.Publish? && l.node == node && l.topic == topic then [l.event] else []
  }

  lemma StepKeepsLog(s: System, l: Label, s': System)
    requires Leads(s, l, s') && !l.Publish?
    ensures s'.log == s.log
  {
    hide Encode, Decode, Answer, Update, Judge, Admitted, Read;
  }

  lemma StepLogs(s: System, l: Label, s': System, node: nat, topic: string)
    requires Leads(s, l, s')
    ensures Published(s', node, topic) == Published(s, node, topic) + PublishedBy([l], node, topic)
  {
    assert [l][..0] == [];
    if l.Publish? {
      hide Leads, Published;
      PublishLogs(s, l, s');
    } else {
      StepKeepsLog(s, l, s');
    }
  }

  lemma {:induction false} RunLogs(ss: seq<System>, ls: seq<Label>, j: nat, k: nat, node: nat, topic: string)
    requires IsRun(ss, ls) && j <= k <= |ls|
    ensures Published(ss[k], node, topic) == Published(ss[j], node, topic) + PublishedBy(ls[j..k], node, topic)
  {
    hide Leads, Published;
    if j < k {
      RunLogs(ss, ls, j, k - 1, node, topic);
      StepLogs(ss[k - 1], ls[k - 1], ss[k], node, topic);
      assert ls[j..k][..k - 1 - j] == ls[j..k - 1];
      assert [ls[k - 1]][..0] == [];
    }
  }

  lemma ReadKeeps(s: System, l: Label, s': System)
    requires Leads(s, l, s') && l.Visit?
    ensures s'.conns.Keys == s.conns.Keys
    ensures forall i :: i in s.conns ==>
      && SameEnds(s.conns[i], s'.conns[i])
      && s'.conns[i].stage == s.conns[i].stage && s'.conns[i].start == s.conns[i].start
      && s'.conns[i].sent == s.conns[i].sent
  {
    hide Leads, Read, Watched, InTable;
    VisitChanges(s, l, s');
    var n := s.nodes[l.node];
    if Reads(n) {
      ReadChanges(s.conns[Current(n).fd], Watched(n, Current(n).fd), l.junk);
    }
  }

  // A connection keeps its ends, and once accepted its start.
  lemma StepKeepsConn(s: System, l: Label, s': System, i: nat)
    requires Leads(s, l, s') && i in s.conns
    ensures i in s'.conns && SameEnds(s.conns[i], s'.conns[i])
    ensures !s.conns[i].stage.Requested? ==> !s'.conns[i].stage.Requested? && s'.conns[i].start == s.conns[i].start
  {
    hide Encode, Decode, Answer, Update, Judge, Admitted, Read;
    if l.Publish? {
      PublishKeeps(s, l, s');
      hide Leads;
    }
    if l.Visit? {
      ReadKeeps(s, l, s');
      hide Leads;
    }
  }

  lemma {:induction false} AcceptedStays(ss: seq<System>, ls: seq<Label>, i: nat, a: nat, k: nat)
    requires IsRun(ss, ls) && a < k <= |ls| && ls[a] == AcceptSubscriber(i)
    ensures i in ss[a + 1].conns && i in ss[k].conns
    ensures SameEnds(ss[a + 1].conns[i], ss[k].conns[i]) && !ss[k].conns[i].stage.Requested?
    ensures ss[k].conns[i].start == |LogOf(ss[a + 1], ss[k].conns[i])|
  {
    hide Leads, Published;
    if k == a + 1 {
      AcceptStarts(ss[a], i, ss[k]);
    } else {
      AcceptedStays(ss, ls, i, a, k - 1);
      StepKeepsConn(ss[k - 1], ls[k - 1], ss[k], i);
    }
  }

  lemma DeliveredOfConn(c: Conn, open: bool, before: seq<Event>, events: seq<Event>)
    requires ConnSound(c, before + events, open) && c.start == |before|
    ensures |c.delivered| <= |c.sent| <= |events| && c.sent == events[..|c.sent|]
    ensures c.delivered == Payloads(events[..|c.delivered|])
    ensures forall e :: e in events[..|c.delivered|] ==> e.typeId == c.typeId
  {
    hide Encode, EncodeAll, EventFrames, Payloads;
    assert (before + events)[c.start..c.start + |c.sent|] == events[..|c.sent|];
    assert c.sent[..|c.delivered|] == events[..|c.delivered|];
    forall e | e in events[..|c.delivered|]
      ensures e in c.sent
    {
    }
  }

  // Main result: over every run, what has been passed to the callback of an accepted subscription
  // is a prefix, in order and without duplicates, of what its publisher has published on the
  // topic since the acceptance; and all of it has the type subscribed to.  (What a publisher that
  // dies in the middle of a frame adds is in StraysExact.)
  lemma DeliveredInOrder(ss: seq<System>, ls: seq<Label>, i: nat, a: nat, k: nat)
    requires IsRun(ss, ls) && a < k <= |ls| && ls[a] == AcceptSubscriber(i)
    ensures i in ss[k].conns
    ensures var c := ss[k].conns[i];
      var events := PublishedBy(ls[a + 1..k], c.publisher, c.topic);
      && |c.delivered| <= |events|
      && c.delivered == Payloads(events[..|c.delivered|])
      && forall e :: e in events[..|c.delivered|] ==> e.typeId == c.typeId
  {
    hide Leads, ConnSound, Sound, Published, Payloads;
    AcceptedStays(ss, ls, i, a, k);
    RunSound(ss, ls, k);
    ConnOf(ss[k], i);
    var c := ss[k].conns[i];
    RunLogs(ss, ls, a + 1, k, c.publisher, c.topic);
    DeliveredOfConn(c, c.subscriber in ss[k].nodes, LogOf(ss[a + 1], c),
                    PublishedBy(ls[a + 1..k], c.publisher, c.topic));
  }

  // Main result, with types: if the publisher serializes values, one event each, whose text has
  // nothing after a NUL and can be read back, then the nth call of the callback is for the nth value.
  lemma ValuesInOrder<T(!new)>(
    ss: seq<System>, ls: seq<Label>, i: nat, a: nat, k: nat, codec: Calls.Codec<T>, values: seq<T>)
    requires IsRun(ss, ls) && a < k <= |ls| && ls[a] == AcceptSubscriber(i) && i in ss[k].conns
    requires Calls.RoundTrips(codec) && forall x :: NulsTrail(codec.serialize(x))
    requires var c := ss[k].conns[i];
      var events := PublishedBy(ls[a + 1..k], c.publisher, c.topic);
      && |events| == |values|
      && forall n :: 0 <= n < |events| ==> events[n] == Event(codec.id, codec.serialize(values[n]))
    ensures var c := ss[k].conns[i];
      && |c.delivered| <= |values|
      && (forall n :: 0 <= n < |c.delivered| ==> codec.deserialize(c.delivered[n]) == values[n])
      && (c.delivered != [] ==> c.typeId == codec.id)
  {
    hide Leads, Copied, NulsTrail;
    DeliveredInOrder(ss, ls, i, a, k);
    var c := ss[k].conns[i];
    var events := PublishedBy(ls[a + 1..k], c.publisher, c.topic);
    forall n | 0 <= n < |c.delivered|
      ensures codec.deserialize(c.delivered[n]) == values[n] && c.typeId == codec.id
    {
      CopiedExact(events[n].payload);
      assert c.delivered[n] == Copied(events[..|c.delivered|][n].payload);
      assert events[..|c.delivered|][n] in events[..|c.delivered|];
    }
    assert c.delivered != [] ==> codec.deserialize(c.delivered[0]) == values[0];
  }

  /* ---- Nothing is lost ---- */

  // The subscription over the connection is current, and both processes run.
  ghost predicate Attached(s: System, i: nat) {
    && i in s.conns && s.conns[i].stage == Subscribed
    && s.conns[i].publisher in s.nodes && s.conns[i].subscriber in s.nodes
    && Watched(s.nodes[s.conns[i].subscriber], i)
  }

  lemma NoFrames()
    ensures DecodeAll([]) == ([], [])
  {
  }

  lemma NoEvents(events: seq<Event>)
    requires EventFrames(events) == []
    ensures events == []
  {
  }

  // The frames waiting in the stream are the events sent and not yet delivered.
  lemma InFlight(c: Conn, log: seq<Event>)
    requires ConnSound(c, log, true) && c.stage == Subscribed && c.torn == [] && |c.delivered| == c.taken
    ensures DecodeAll(c.stream) == (EventFrames(c.sent[|c.delivered|..]), [])
  {
    var ahead := c.sent[c.taken..];
    assert forall e :: e in ahead ==> e in c.sent;
    hide Encode, Decode, EncodeAll, SentMatchesLog, Payloads, Strncpy;
    assert Framable(EventFrames(ahead));
    StreamRoundTrip(EventFrames(ahead), PAD, []);
    NoFrames();
    assert EventFrames(ahead) + [] == EventFrames(ahead);
  }

  lemma AttachedFacts(s: System, i: nat)
    requires Sound(s) && Attached(s, i) && IsServed(s, i)
    ensures var c := s.conns[i];
      && c.start + |c.sent| == |LogOf(s, c)| && |c.delivered| == c.taken && c.torn == []
      && ConnSound(c, LogOf(s, c), true)
  {
    hide ConnSound, ConnsSound, TornSound, ClientsSound, SubscriptionsSound, ThreadsSound, Serves, Watched;
    var c := s.conns[i];
    ConnOf(s, i);
    ServedIsClient(s, c.publisher, c.topic, i);
    WatchedIsSubscribed(s, i);
  }

  // Main result: and nothing is lost.  While a subscription is current and both processes run, every
  // event published on the topic since the acceptance has been delivered or is waiting, in order,
  // in the stream; so when the stream is empty all have been delivered.
  lemma NothingLost(ss: seq<System>, ls: seq<Label>, i: nat, a: nat, k: nat)
    requires IsRun(ss, ls) && a < k <= |ls| && ls[a] == AcceptSubscriber(i) && Attached(ss[k], i)
    ensures var c := ss[k].conns[i];
      var events := PublishedBy(ls[a + 1..k], c.publisher, c.topic);
      && |c.delivered| <= |events|
      && c.delivered == Payloads(events[..|c.delivered|])
      && DecodeAll(c.stream) == (EventFrames(events[|c.delivered|..]), [])
      && (c.stream == [] ==> c.delivered == Payloads(events))
  {
    hide Leads, Sound, ConnSound, Published, Payloads, EventFrames, DecodeAll, Serves, Watched, IsServed;
    AcceptedStays(ss, ls, i, a, k);
    RunSound(ss, ls, k);
    AcceptedStaysServed(ss, ls, k);
    assert Stands(ss[k], i);
    AttachedFacts(ss[k], i);
    var c := ss[k].conns[i];
    var events := PublishedBy(ls[a + 1..k], c.publisher, c.topic);
    RunLogs(ss, ls, a + 1, k, c.publisher, c.topic);
    DeliveredOfConn(c, true, LogOf(ss[a + 1], c), events);
    InFlight(c, LogOf(ss[k], c));
    assert c.sent == events;
    if c.stream == [] {
      NoFrames();
      NoEvents(events[|c.delivered|..]);
      assert events[..|c.delivered|] == events;
    }
  }

  lemma StaysRequested(s: System, l: Label, s': System, i: nat)
    requires Sound(s) && Leads(s, l, s') && i in s'.conns && l != AcceptSubscriber(i)
    requires i in s.conns ==> s.conns[i].stage.Requested?
    ensures s'.conns[i].stage.Requested?
  {
    hide ConnsSound, TornSound, ClientsSound, SubscriptionsSound, ThreadsSound, Encode, Decode, Judge, Admitted, Read;
    if l.Publish? {
      PublishKeeps(s, l, s');
      hide Leads;
    }
    if l.Visit? {
      ReadKeeps(s, l, s');
      hide Leads;
    }
  }

  lemma {:induction false} UnacceptedIsRequested(ss: seq<System>, ls: seq<Label>, i: nat, k: nat)
    requires IsRun(ss, ls) && k <= |ls|
    requires forall a :: 0 <= a < k ==> ls[a] != AcceptSubscriber(i)
    ensures i in ss[k].conns ==> ss[k].conns[i].stage.Requested?
  {
    hide Leads, Sound;
    if k > 0 && i in ss[k].conns {
      RunSound(ss, ls, k - 1);
      UnacceptedIsRequested(ss, ls, i, k - 1);
      StaysRequested(ss[k - 1], ls[k - 1], ss[k], i);
    }
  }

  // Before it is accepted, a subscription gets nothing.
  lemma UnacceptedGetsNothing(ss: seq<System>, ls: seq<Label>, i: nat, k: nat)
    requires IsRun(ss, ls) && k <= |ls| && i in ss[k].conns
    requires forall a :: 0 <= a < k ==> ls[a] != AcceptSubscriber(i)
    ensures ss[k].conns[i].stream == [] && ss[k].conns[i].delivered == [] && ss[k].conns[i].strays == []
  {
    hide Leads, Sound, ConnSound, Published;
    UnacceptedIsRequested(ss, ls, i, k);
    RunSound(ss, ls, k);
    ConnOf(ss[k], i);
    RequestedIsUnsent(ss[k].conns[i], LogOf(ss[k], ss[k].conns[i]), ss[k].conns[i].subscriber in ss[k].nodes);
  }

  /* ---- Frames cut short ---- */

  // In this step a publisher dies while it writes an event to connection i, between its first
  // and its last byte.
  ghost predicate Tears(s: System, l: Label, i: nat) {
    && l.Publish? && l.dies
    && CutShort(Encode(EventFrame(l.event), PAD), l.faults, i)
    && i in s.conns && (l.node, l.topic) == (s.conns[i].publisher, s.conns[i].topic)
  }

  ghost predicate IsTorn(s: System, i: nat) {
    i in s.conns && (s.conns[i].torn != [] || s.conns[i].strays != [])
  }

  lemma PublishTears(s: System, l: Label, s': System, i: nat)
    requires Sound(s) && Leads(s, l, s') && l.Publish? && IsTorn(s', i)
    ensures IsTorn(s, i) || Tears(s, l, i)
  {
    hide Leads, Encode, CutShort, Serves, ConnsSound, TornSound, SubscriptionsSound, ThreadsSound, ClientsSound, Sent;
    PublishKeeps(s, l, s');
    PublishedTo(s, l, s', i);
    if s'.conns[i].torn != s.conns[i].torn {
      TornByDeath(s.conns[i], i, s.nodes[l.node].publications[l.topic].clients, l.event, l.faults, l.dies);
      ServedIsClient(s, l.node, l.topic, i);
    }
  }

  lemma OthersTearNothing(s: System, l: Label, s': System, i: nat)
    requires Leads(s, l, s') && !l.Publish? && !l.Visit? && IsTorn(s', i)
    ensures IsTorn(s, i)
  {
    hide Encode, Decode, Answer, Update, Judge, Admitted, Read;
  }

  lemma VisitTearsNothing(s: System, l: Label, s': System, i: nat)
    requires Sound(s) && Leads(s, l, s') && l.Visit? && IsTorn(s', i)
    ensures IsTorn(s, i)
  {
    hide Leads, ConnsSound, TornSound, SubscriptionsSound, ClientsSound, Read, ConnSound, Watched, InTable;
    VisitChanges(s, l, s');
    var n := s.nodes[l.node];
    if Reads(n) && Current(n).fd == i {
      ThreadsOf(s, l.node, i);
      ConnOf(s, i);
      WatchedIsSubscribed(s, i);
      ReadConn(s.conns[i], LogOf(s, s.conns[i]), Watched(n, i), l.junk);
    }
  }

  lemma NothingTorn(i: nat)
    ensures !IsTorn(EMPTY_SYSTEM, i)
  {
  }

  // Only the death of its publisher in the middle of a frame makes a callback see anything that
  // was not published.
  lemma {:induction false} StraysComeFromDeath(ss: seq<System>, ls: seq<Label>, i: nat, k: nat) returns (j: nat)
    requires IsRun(ss, ls) && k <= |ls| && IsTorn(ss[k], i)
    ensures j < k && Tears(ss[j], ls[j], i)
  {
    hide Leads, Sound, IsTorn, Tears;
    if k == 0 {
      NothingTorn(i);
    } else {
      RunSound(ss, ls, k - 1);
      var s, l, s' := ss[k - 1], ls[k - 1], ss[k];
      if l.Publish? {
        PublishTears(s, l, s', i);
      } else if l.Visit? {
        VisitTearsNothing(s, l, s', i);
      } else {
        OthersTearNothing(s, l, s', i);
      }
      if Tears(s, l, i) {
        j := k - 1;
      } else {
        j := StraysComeFromDeath(ss, ls, i, k - 1);
      }
    }
  }

  // In this step the event thread reads from connection i.
  predicate ReadsFrom(s: System, l: Label, i: nat) {
    l.Visit? && l.node in s.nodes && Reads(s.nodes[l.node]) && Current(s.nodes[l.node]).fd == i
  }

  lemma VisitReads(s: System, l: Label, s': System, i: nat)
    requires Leads(s, l, s') && ReadsFrom(s, l, i)
    ensures i in s.conns && s'.conns == s.conns[i := Read(s.conns[i], Watched(s.nodes[l.node], i), l.junk)]
    ensures InTable(s.nodes[l.node].slots, i)
    ensures Decode(s.conns[i].stream).None? ==> Completes(s.conns[i].stream, l.junk)
  {
    hide Read, Watched, Decode, Completes;
  }

  lemma ReadsStray(c: Conn, log: seq<Event>, watched: bool, junk: Bytes)
    requires ConnSound(c, log, true) && c.stage.Subscribed?
    requires Decode(c.stream).None? ==> Completes(c.stream, junk)
    ensures var c' := Read(c, watched, junk);
      && (c'.strays != c.strays <==> c.torn != [] && c.taken == |c.sent| && watched)
      && (c'.strays != c.strays ==>
            c'.strays == [junk] && Completes(c.torn, junk) && c'.delivered == c.delivered)
  {
    hide Read, Completes, Decode, EncodeAll, EventFrames;
    ReadNext(c, log, watched, junk);
    if c.taken == |c.sent| {
      NothingAhead(c);
    }
  }

  // Main result: a callback is given bytes that are no published event exactly when the event
  // thread reads on after all the events of a publisher that died in the middle of the next one;
  // that happens at most once, and what it is given has the announced length and starts with the
  // bytes that were written, if the header was.
  lemma StraysExact(ss: seq<System>, ls: seq<Label>, k: nat, i: nat)
    requires IsRun(ss, ls) && k < |ls| && ReadsFrom(ss[k], ls[k], i)
    ensures i in ss[k].conns && i in ss[k + 1].conns
    ensures var c, c' := ss[k].conns[i], ss[k + 1].conns[i];
      && (c'.strays != c.strays <==> c.torn != [] && c.taken == |c.sent| && Watched(ss[k].nodes[ls[k].node], i))
      && (c'.strays != c.strays ==>
            && c'.strays == [ls[k].junk] && Completes(c.torn, ls[k].junk) && c'.delivered == c.delivered
            && exists j :: 0 <= j < k && Tears(ss[j], ls[j], i))
  {
    var s, l, s' := ss[k], ls[k], ss[k + 1];
    VisitReads(s, l, s', i);
    RunSound(ss, ls, k);
    hide Leads, ConnsSound, TornSound, SubscriptionsSound, ClientsSound;
    hide Read, Watched, InTable, Completes, Tears, Decode, ConnSound;
    ThreadsOf(s, l.node, i);
    ConnOf(s, i);
    var c := s.conns[i];
    ReadsStray(c, LogOf(s, c), Watched(s.nodes[l.node], i), l.junk);
    if c.torn != [] {
      var j := StraysComeFromDeath(ss, ls, i, k);
    }
  }

  /* ---- Who is not a client ---- */

  lemma PublishServesLess(s: System, l: Label, s': System, i: nat)
    requires Leads(s, l, s') && l.Publish? && i in s.conns && IsServed(s', i)
    ensures IsServed(s, i)
  {
    PublishKeeps(s, l, s');
    hide Leads, Serves;
    var c := s'.conns[i];
    var clients := s'.nodes[c.publisher].publications[c.topic].clients;
    var n := ServedName(clients, i);
    ClientsAfter(s, l, s', c.publisher, c.topic, n);
    ServedBy(s.nodes[c.publisher].publications[c.topic].clients, n);
  }

  lemma PublishSkips(s: System, l: Label, s': System, i: nat)
    requires Sound(s) && Leads(s, l, s') && l.Publish? && i in s.conns && !IsServed(s, i)
    ensures i in s'.conns && s'.conns[i].sent == s.conns[i].sent
  {
    PublishedTo(s, l, s', i);
    hide Leads, Sent, Serves, ConnsSound, TornSound, SubscriptionsSound, ThreadsSound, ClientsSound;
    var clients := s.nodes[l.node].publications[l.topic].clients;
    if Serves(clients, i) {
      ServedIsClient(s, l.node, l.topic, i);
      assert false;
    }
    NotSent(s.conns[i], i, clients, l.event, l.faults, l.dies);
  }

  lemma AcceptServesLess(s: System, j: nat, s': System, i: nat)
    requires Leads(s, AcceptSubscriber(j), s') && i in s.conns && !s.conns[i].stage.Requested?
    ensures i in s'.conns && s'.conns[i] == s.conns[i] && (IsServed(s', i) ==> IsServed(s, i))
  {
    hide Encode, Published;
    assert i != j;
    if IsServed(s', i) {
      var c := s.conns[i];
      var n := ServedName(s'.nodes[c.publisher].publications[c.topic].clients, i);
      assert n in s.nodes[c.publisher].publications[c.topic].clients;
      ServedBy(s.nodes[c.publisher].publications[c.topic].clients, n);
    }
  }

  // No other step makes a client of a connection that has been accepted.
  lemma OthersServeLess(s: System, l: Label, s': System, i: nat)
    requires Leads(s, l, s') && !l.Publish? && !l.Visit? && !l.AcceptSubscriber? && i in s.conns
    ensures i in s'.conns && s'.conns[i].sent == s.conns[i].sent && (IsServed(s', i) ==> IsServed(s, i))
  {
    hide Encode, Decode, Answer, Update, Installed, Polled, Published, ReplyBody;
  }

  lemma StepServesLess(s: System, l: Label, s': System, i: nat)
    requires Sound(s) && Leads(s, l, s') && i in s.conns && !s.conns[i].stage.Requested? && !IsServed(s, i)
    ensures i in s'.conns && !s'.conns[i].stage.Requested? && !IsServed(s', i) && s'.conns[i].sent == s.conns[i].sent
  {
    hide Sound, Leads;
    StepKeepsConn(s, l, s', i);
    if l.Publish? {
      PublishSkips(s, l, s', i);
      if IsServed(s', i) {
        PublishServesLess(s, l, s', i);
      }
    } else if l.Visit? {
      VisitChanges(s, l, s');
      ReadKeeps(s, l, s');
    } else if l.AcceptSubscriber? {
      AcceptServesLess(s, l.conn, s', i);
    } else {
      OthersServeLess(s, l, s', i);
    }
  }

  // A subscriber that is no longer a client never becomes one again over the same connection.
  lemma {:induction false} UnservedGetsNothing(ss: seq<System>, ls: seq<Label>, i: nat, j: nat, k: nat)
    requires IsRun(ss, ls) && j <= k <= |ls|
    requires i in ss[j].conns && !ss[j].conns[i].stage.Requested? && !IsServed(ss[j], i)
    ensures i in ss[k].conns && !ss[k].conns[i].stage.Requested? && !IsServed(ss[k], i)
    ensures ss[k].conns[i].sent == ss[j].conns[i].sent
  {
    hide Leads, Sound, IsServed;
    if j < k {
      UnservedGetsNothing(ss, ls, i, j, k - 1);
      RunSound(ss, ls, k - 1);
      StepServesLess(ss[k - 1], ls[k - 1], ss[k], i);
    }
  }
}
