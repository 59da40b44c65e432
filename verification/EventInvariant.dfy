// What holds in every reachable state of the event system, step by step.
module EventInvariant {
  import opened Common
  import opened Directory
  import opened PollTable
  import opened Framing
  import opened Payload
  import opened Runtime
  import opened EventSystem

  // The events written since acceptance are those published since, from the beginning, all of
  // the type subscribed to.
  ghost predicate SentMatchesLog(c: Conn, log: seq<Event>) {
    && c.start + |c.sent| <= |log|
    && c.sent == log[c.start..c.start + |c.sent|]
    && (forall e :: e in c.sent ==> e.typeId == c.typeId && |e.payload| < TWO_32)
  }

  // What has been read of them, and what is still in the stream of a subscriber that runs.
  ghost predicate StreamMatchesSent(c: Conn, open: bool) {
    && |c.delivered| <= c.taken <= |c.sent|
    && c.delivered == Payloads(c.sent[..|c.delivered|])
    && match c.stage
       case Requested => c.stream == [] && c.sent == [] && c.torn == [] && c.strays == []
       case Answered(response) =>
         && c.taken == 0
         && (open ==> c.stream == Encode(ReplyFrame(response), PAD) + (EncodeAll(EventFrames(c.sent), PAD) + c.torn))
       case Subscribed => open ==> c.stream == EncodeAll(EventFrames(c.sent[c.taken..]), PAD) + c.torn
       case Refused => true
  }

  // A frame cut short comes last, and is read once.
  ghost predicate TornLast(c: Conn) {
    && (c.torn != [] ==> Decode(c.torn).None? && c.torn[0] == FRAME_EVENT)
    && |c.strays| <= 1
    && (c.strays != [] ==> c.torn == [] && c.taken == |c.sent|)
  }

  ghost predicate ConnSound(c: Conn, log: seq<Event>, open: bool) {
    SentMatchesLog(c, log) && StreamMatchesSent(c, open) && TornLast(c)
  }

  function LogOf(s: System, c: Conn): seq<Event> {
    Published(s, c.publisher, c.topic)
  }

  ghost predicate ConnsSound(s: System) {
    forall i :: i in s.conns ==> ConnSound(s.conns[i], LogOf(s, s.conns[i]), s.conns[i].subscriber in s.nodes)
  }

  // Only a dead publisher leaves a frame cut short.
  ghost predicate TornSound(s: System) {
    forall i :: i in s.conns && (s.conns[i].torn != [] || s.conns[i].strays != []) ==> s.conns[i].publisher !in s.nodes
  }

  // A client in a publication is a connection accepted for it that has been sent everything
  // published since.
  ghost predicate IsClient(s: System, p: nat, t: string, n: string, i: nat, typeId: uint32) {
    && i in s.conns
    && s.conns[i].publisher == p && s.conns[i].topic == t && s.conns[i].name == n && s.conns[i].typeId == typeId
    && (s.conns[i].stage == Answered(OK) || s.conns[i].stage == Subscribed)
    && s.conns[i].start + |s.conns[i].sent| == |Published(s, p, t)|
  }

  ghost predicate ClientsSound(s: System) {
    forall p, t, n :: p in s.nodes && t in s.nodes[p].publications && n in s.nodes[p].publications[t].clients ==>
      IsClient(s, p, t, n, s.nodes[p].publications[t].clients[n], s.nodes[p].publications[t].typeId)
  }

  // A current subscription has passed to its callback everything it has read.
  ghost predicate IsSubscription(s: System, r: nat, t: string, sub: Subscription) {
    && sub.socket in s.conns
    && s.conns[sub.socket].subscriber == r && s.conns[sub.socket].topic == t
    && s.conns[sub.socket].typeId == sub.typeId
    && s.conns[sub.socket].stage == Subscribed
    && |s.conns[sub.socket].delivered| == s.conns[sub.socket].taken
  }

  ghost predicate SubscriptionsSound(s: System) {
    forall r, t :: r in s.nodes && t in s.nodes[r].subscriptions ==>
      IsSubscription(s, r, t, s.nodes[r].subscriptions[t])
  }

  // The requester thread waits for the publisher's answer, or has not read it.
  predicate Awaited(stage: Stage) {
    stage.Requested? || stage.Answered?
  }

  // The event thread polls subscriptions of its own node; the requester thread contacts what is
  // not yet one.
  ghost predicate ThreadsSound(s: System) {
    && (forall r, i: nat :: r in s.nodes && InTable(s.nodes[r].slots, i) ==>
          i in s.conns && s.conns[i].subscriber == r && s.conns[i].stage == Subscribed)
    && (forall r :: r in s.nodes && s.nodes[r].pending.Contacting? ==>
          var i := s.nodes[r].pending.conn;
          i in s.conns && s.conns[i].subscriber == r && Awaited(s.conns[i].stage))
  }

  ghost predicate Sound(s: System) {
    ConnsSound(s) && TornSound(s) && ClientsSound(s) && SubscriptionsSound(s) && ThreadsSound(s)
  }

  lemma StartSound()
    ensures Sound(EMPTY_SYSTEM)
  {
  }

  lemma WatchedIsSubscribed(s: System, i: nat)
    requires SubscriptionsSound(s)
    ensures forall r :: r in s.nodes && Watched(s.nodes[r], i) ==>
      && i in s.conns && s.conns[i].stage == Subscribed && s.conns[i].subscriber == r
      && |s.conns[i].delivered| == s.conns[i].taken
  {
    forall r | r in s.nodes && Watched(s.nodes[r], i)
      ensures i in s.conns && s.conns[i].stage == Subscribed && s.conns[i].subscriber == r
      ensures |s.conns[i].delivered| == s.conns[i].taken
    {
      var t :| t in s.nodes[r].subscriptions && s.nodes[r].subscriptions[t].socket == i;
      assert IsSubscription(s, r, t, s.nodes[r].subscriptions[t]);
    }
  }

  lemma ConnOf(s: System, i: nat)
    requires Sound(s) && i in s.conns
    ensures ConnSound(s.conns[i], LogOf(s, s.conns[i]), s.conns[i].subscriber in s.nodes)
    ensures s.conns[i].publisher in s.nodes ==> s.conns[i].torn == [] && s.conns[i].strays == []
  {
    hide ConnSound;
  }

  // What the two threads of node know of connection i.
  lemma ThreadsOf(s: System, node: nat, i: nat)
    requires ThreadsSound(s) && node in s.nodes
    ensures InTable(s.nodes[node].slots, i) ==>
      i in s.conns && s.conns[i].subscriber == node && s.conns[i].stage == Subscribed
    ensures s.nodes[node].pending.Contacting? && s.nodes[node].pending.conn == i ==>
      && i in s.conns && s.conns[i].subscriber == node && Awaited(s.conns[i].stage)
      && forall r :: r in s.nodes && s.nodes[r].pending.Contacting? && s.nodes[r].pending.conn == i ==> r == node
  {
  }

  lemma StageOfContacted(s: System, i: nat)
    requires ThreadsSound(s)
    ensures forall r :: r in s.nodes && s.nodes[r].pending.Contacting? && s.nodes[r].pending.conn == i ==>
      i in s.conns && Awaited(s.conns[i].stage) && s.conns[i].subscriber == r
  {
  }

  /* ---- Steps that leave connections and the log alone ---- */

  ghost predicate NodeKept(n: Node, n': Node) {
    && n'.subscriptions == n.subscriptions
    && (forall i: nat :: InTable(n'.slots, i) ==> InTable(n.slots, i) || Watched(n, i))
    && (n'.pending.Contacting? ==> n'.pending == n.pending)
    && (forall t, c :: t in n'.publications && c in n'.publications[t].clients ==>
          t in n.publications && n'.publications[t] == n.publications[t])
  }

  ghost predicate NodeFresh(n: Node) {
    n.subscriptions == map[] && n.publications == map[] && n.slots == EmptyTable() && !n.pending.Contacting?
  }

  // The nodes of s' are those of s, but for queues, new and dead processes, subscriptions now
  // polled, and publications without clients.
  ghost predicate OnlyQueues(s: System, s': System) {
    && s'.conns == s.conns && s'.log == s.log
    && forall r :: r in s'.nodes ==>
      if r in s.nodes then NodeKept(s.nodes[r], s'.nodes[r]) else NodeFresh(s'.nodes[r]) && Unused(s, r)
  }

  lemma ClosedConn(c: Conn, log: seq<Event>)
    requires ConnSound(c, log, true)
    ensures ConnSound(c, log, false)
  {
    hide Encode, EncodeAll, EventFrames, Payloads;
  }

  lemma OnlyQueuesConns(s: System, s': System)
    requires ConnsSound(s) && TornSound(s) && OnlyQueues(s, s')
    ensures ConnsSound(s') && TornSound(s')
  {
    hide ConnSound, NodeKept, NodeFresh;
    forall i | i in s'.conns
      ensures ConnSound(s'.conns[i], LogOf(s', s'.conns[i]), s'.conns[i].subscriber in s'.nodes)
    {
      var c := s.conns[i];
      if c.subscriber in s.nodes && c.subscriber !in s'.nodes {
        ClosedConn(c, LogOf(s, c));
      }
    }
  }

  lemma OnlyQueuesClients(s: System, s': System)
    requires ClientsSound(s) && OnlyQueues(s, s')
    ensures ClientsSound(s')
  {
  }

  lemma OnlyQueuesSubscriptions(s: System, s': System)
    requires SubscriptionsSound(s) && OnlyQueues(s, s')
    ensures SubscriptionsSound(s')
  {
  }

  lemma NoneInTable(i: nat)
    ensures !InTable(EmptyTable(), i)
  {
  }

  lemma OnlyQueuesThreads(s: System, s': System)
    requires SubscriptionsSound(s) && ThreadsSound(s) && OnlyQueues(s, s')
    ensures ThreadsSound(s')
  {
    hide SubscriptionsSound, InTable, Watched;
    forall r, i: nat | r in s'.nodes && InTable(s'.nodes[r].slots, i)
      ensures i in s'.conns && s'.conns[i].subscriber == r && s'.conns[i].stage == Subscribed
    {
      NoneInTable(i);
      assert r in s.nodes && NodeKept(s.nodes[r], s'.nodes[r]);
      WatchedIsSubscribed(s, i);
    }
  }

  lemma OnlyQueuesSound(s: System, s': System)
    requires Sound(s) && OnlyQueues(s, s')
    ensures Sound(s')
  {
    hide ConnsSound, TornSound, ClientsSound, SubscriptionsSound, ThreadsSound, OnlyQueues;
    OnlyQueuesConns(s, s');
    OnlyQueuesClients(s, s');
    OnlyQueuesSubscriptions(s, s');
    OnlyQueuesThreads(s, s');
  }

  predicate MovesQueues(l: Label) {
    || l.MasterStep? || l.MasterAnswers? || l.Boot? || l.Enter? || l.Exit?
    || l.Advertise? || l.FinishAdvertise? || l.Locate? || l.GiveUp?
  }

  lemma QueueStepSound(s: System, l: Label, s': System)
    requires Sound(s) && Leads(s, l, s') && MovesQueues(l)
    ensures Sound(s')
  {
    hide Sound;
    assert OnlyQueues(s, s');
    OnlyQueuesSound(s, s');
  }

  predicate MovesTable(l: Label) {
    l.Watch? || l.StartPoll? || l.PollSlots?
  }

  lemma WatchKept(s: System, r: nat, s': System)
    requires Leads(s, Watch(r), s')
    ensures OnlyQueues(s, s')
  {
    hide FirstSlot;
    var n, n' := s.nodes[r], s'.nodes[r];
    forall i: nat | InTable(n'.slots, i)
      ensures InTable(n.slots, i) || Watched(n, i)
    {
      var x :| 0 <= x < |n'.slots| && n'.slots[x].fd == i;
      if n.slots[x].fd != i {
        assert n.subscriptions[n.waiting[0]].socket == i;
      }
    }
  }

  // The event thread polls nothing but what it has polled and what is subscribed to.
  lemma TableKept(s: System, l: Label, s': System)
    requires Leads(s, l, s') && MovesTable(l)
    ensures OnlyQueues(s, s')
  {
    if l.Watch? {
      WatchKept(s, l.node, s');
      hide Leads;
    } else {
      var n, n' := s.nodes[l.node], s'.nodes[l.node];
      assert forall x :: 0 <= x < |n'.slots| ==> x < |n.slots| && n'.slots[x].fd == n.slots[x].fd;
      hide Watched;
    }
  }

  lemma TableStepSound(s: System, l: Label, s': System)
    requires Sound(s) && Leads(s, l, s') && MovesTable(l)
    ensures Sound(s')
  {
    hide Sound;
    TableKept(s, l, s');
    OnlyQueuesSound(s, s');
  }

  /* ---- Steps of one connection ---- */

  lemma DialedConn(c: Conn, log: seq<Event>, open: bool)
    requires c.stage == Requested && c.stream == [] && c.start == 0 && c.sent == [] && c.taken == 0
    requires c.delivered == [] && c.torn == [] && c.strays == []
    ensures ConnSound(c, log, open)
  {
  }

  lemma RequestedIsUnsent(c: Conn, log: seq<Event>, open: bool)
    requires ConnSound(c, log, open) && c.stage.Requested?
    ensures c.sent == [] && c.stream == [] && c.delivered == [] && c.torn == [] && c.strays == []
  {
  }

  lemma AcceptedConn(c: Conn, log: seq<Event>, open: bool, response: Response)
    requires ConnSound(c, log, open) && c.stage.Requested?
    ensures ConnSound(
      c.(stage := Answered(response), stream := c.stream + Encode(ReplyFrame(response), PAD), start := |log|),
      log, open)
  {
    hide Encode;
    assert EventFrames(c.sent) == [];
  }

  // The answer arrives as it was given, and what follows it are the events.
  lemma FinishedConn(c: Conn, log: seq<Event>)
    requires ConnSound(c, log, true) && c.stage.Answered?
    ensures var rest := EncodeAll(EventFrames(c.sent), PAD) + c.torn;
      && Decode(c.stream) == Some((ReplyFrame(c.stage.response), rest))
      && ConnSound(c.(stage := Subscribed, stream := rest), log, true)
      && ConnSound(c.(stage := Refused, stream := rest), log, true)
  {
    hide Encode, Decode;
    FrameRoundTripExact(ReplyFrame(c.stage.response), PAD, EncodeAll(EventFrames(c.sent), PAD) + c.torn);
    assert c.sent[c.taken..] == c.sent;
  }

  lemma NextDecoded(sent: seq<Event>, taken: nat, torn: Bytes)
    requires taken < |sent| && |sent[taken].payload| < TWO_32
    ensures Decode(EncodeAll(EventFrames(sent[taken..]), PAD) + torn)
         == Some((EventFrame(sent[taken]), EncodeAll(EventFrames(sent[taken + 1..]), PAD) + torn))
  {
    hide Encode, Decode, Strncpy;
    var frame, rest := EventFrame(sent[taken]), EncodeAll(EventFrames(sent[taken + 1..]), PAD);
    assert EventFrames(sent[taken..])[1..] == EventFrames(sent[taken + 1..]);
    assert Encode(frame, PAD) + rest + torn == Encode(frame, PAD) + (rest + torn);
    FrameRoundTripExact(frame, PAD, rest + torn);
  }

  lemma NothingAhead(c: Conn)
    requires StreamMatchesSent(c, true) && TornLast(c) && c.stage.Subscribed? && c.taken == |c.sent|
    ensures c.stream == c.torn && Decode(c.stream).None?
  {
    hide Encode;
    assert EventFrames(c.sent[c.taken..]) == [];
  }

  // What is read next is the next event that was sent; when there is none, what the publisher
  // has left of the event it died in.
  lemma ReadNext(c: Conn, log: seq<Event>, watched: bool, junk: Bytes)
    requires ConnSound(c, log, true) && c.stage.Subscribed?
    ensures c.taken < |c.sent| ==>
      Read(c, watched, junk) == c.(
        stream := Decode(c.stream).value.1, taken := c.taken + 1,
        delivered := if watched then c.delivered + [Copied(c.sent[c.taken].payload)] else c.delivered)
    ensures c.taken == |c.sent| ==>
      Read(c, watched, junk) == c.(
        stream := [], torn := [], strays := if watched && c.torn != [] then c.strays + [junk] else c.strays)
    ensures Decode(c.stream).Some? <==> c.taken < |c.sent|
    ensures c.taken < |c.sent| ==>
      Decode(c.stream).value.1 == EncodeAll(EventFrames(c.sent[c.taken + 1..]), PAD) + c.torn
  {
    hide Encode, Decode, EncodeAll, Strncpy, EventFrames, Payloads;
    if c.taken < |c.sent| {
      assert c.sent[c.taken] in c.sent;
      NextDecoded(c.sent, c.taken, c.torn);
    } else {
      NothingAhead(c);
    }
  }

  lemma ReadFrameStream(c: Conn, watched: bool, c': Conn)
    requires StreamMatchesSent(c, true) && c.stage.Subscribed? && c.taken < |c.sent|
    requires watched ==> |c.delivered| == c.taken
    requires c' == c.(stream := EncodeAll(EventFrames(c.sent[c.taken + 1..]), PAD) + c.torn, taken := c.taken + 1,
                      delivered := if watched then c.delivered + [Copied(c.sent[c.taken].payload)] else c.delivered)
    ensures StreamMatchesSent(c', true)
  {
    hide Encode, EncodeAll, Copied, EventFrames;
    assert c.sent[..c.taken + 1] == c.sent[..c.taken] + [c.sent[c.taken]];
  }

  lemma NoFramesLeft(sent: seq<Event>)
    ensures EncodeAll(EventFrames(sent[|sent|..]), PAD) == []
  {
    hide Encode;
    assert EventFrames(sent[|sent|..]) == [];
  }

  lemma ReadRestStream(c: Conn, c': Conn)
    requires StreamMatchesSent(c, true) && c.stage.Subscribed? && c.taken == |c.sent|
    requires c' == c.(stream := [], torn := [], strays := c'.strays)
    ensures StreamMatchesSent(c', true)
  {
    hide Encode, EncodeAll, EventFrames, Payloads;
    NoFramesLeft(c.sent);
  }

  lemma ReadStream(c: Conn, log: seq<Event>, watched: bool, junk: Bytes)
    requires ConnSound(c, log, true) && c.stage.Subscribed?
    requires watched ==> |c.delivered| == c.taken
    ensures StreamMatchesSent(Read(c, watched, junk), true)
  {
    ReadNext(c, log, watched, junk);
    assert c.taken <= |c.sent|;
    hide Encode, Decode, EncodeAll, Copied, EventFrames, Read, SentMatchesLog, TornLast, StreamMatchesSent;
    if c.taken < |c.sent| {
      ReadFrameStream(c, watched, Read(c, watched, junk));
    } else {
      ReadRestStream(c, Read(c, watched, junk));
    }
  }

  lemma ReadChanges(c: Conn, watched: bool, junk: Bytes)
    ensures var c' := Read(c, watched, junk);
      c' == c.(stream := c'.stream, taken := c'.taken, delivered := c'.delivered, torn := c'.torn, strays := c'.strays)
  {
    hide Decode;
  }

  lemma ReadCounts(c: Conn, log: seq<Event>, watched: bool, junk: Bytes)
    requires ConnSound(c, log, true) && c.stage.Subscribed?
    ensures var c' := Read(c, watched, junk);
      && TornLast(c')
      && (watched && |c.delivered| == c.taken ==> |c'.delivered| == c'.taken)
      && (c.torn == [] && c.strays == [] ==> c'.torn == [] && c'.strays == [])
  {
    ReadNext(c, log, watched, junk);
    assert c.taken <= |c.sent|;
    hide Encode, Decode, EncodeAll, Copied, EventFrames, Read, SentMatchesLog, StreamMatchesSent;
  }

  lemma ReadSent(c: Conn, log: seq<Event>, watched: bool, junk: Bytes)
    requires SentMatchesLog(c, log)
    ensures SentMatchesLog(Read(c, watched, junk), log)
  {
    ReadChanges(c, watched, junk);
    hide Read;
  }

  lemma ReadConn(c: Conn, log: seq<Event>, watched: bool, junk: Bytes)
    requires ConnSound(c, log, true) && c.stage.Subscribed?
    requires watched ==> |c.delivered| == c.taken
    ensures var c' := Read(c, watched, junk);
      && ConnSound(c', log, true)
      && c' == c.(stream := c'.stream, taken := c'.taken, delivered := c'.delivered,
                  torn := c'.torn, strays := c'.strays)
      && (watched ==> |c'.delivered| == c'.taken)
      && (c.torn == [] && c.strays == [] ==> c'.torn == [] && c'.strays == [])
  {
    hide Read, TornLast, StreamMatchesSent, SentMatchesLog;
    ReadStream(c, log, watched, junk);
    ReadCounts(c, log, watched, junk);
    ReadSent(c, log, watched, junk);
    ReadChanges(c, watched, junk);
  }

  lemma SentExtends(c: Conn, log: seq<Event>, event: Event, c': Conn)
    requires SentMatchesLog(c, log) && |event.payload| < TWO_32
    requires c' == c.(sent := c.sent + [event], stream := c'.stream)
    requires c.start + |c.sent| == |log| && event.typeId == c.typeId
    ensures SentMatchesLog(c', log + [event])
  {
    assert (log + [event])[c.start..] == log[c.start..] + [event];
  }

  lemma FramesExtend(sent: seq<Event>, taken: nat, event: Event)
    requires taken <= |sent|
    ensures EncodeAll(EventFrames((sent + [event])[taken..]), PAD)
         == EncodeAll(EventFrames(sent[taken..]), PAD) + Encode(EventFrame(event), PAD)
  {
    hide Encode, EncodeAll, Strncpy;
    EncodeAllAppend(EventFrames(sent[taken..]), EventFrame(event), PAD);
    assert (sent + [event])[taken..] == sent[taken..] + [event];
    assert EventFrames(sent[taken..] + [event]) == EventFrames(sent[taken..]) + [EventFrame(event)];
  }

  lemma StreamExtends(c: Conn, open: bool, event: Event, c': Conn)
    requires StreamMatchesSent(c, open) && !c.stage.Requested? && c.torn == []
    requires c' == c.(sent := c.sent + [event], stream := c.stream + Encode(EventFrame(event), PAD))
    ensures StreamMatchesSent(c', open)
  {
    hide Encode, EncodeAll, EventFrames, EventFrame, ReplyFrame;
    assert c'.sent[..|c.delivered|] == c.sent[..|c.delivered|];
    hide Payloads;
    if c.stage.Subscribed? {
      FramesExtend(c.sent, c.taken, event);
    } else {
      FramesExtend(c.sent, 0, event);
      assert c.sent[0..] == c.sent && c'.sent[0..] == c'.sent;
    }
  }

  // A publication on the topic of the connection: as a client that is written to in full.
  lemma PublishedConn(c: Conn, log: seq<Event>, open: bool, event: Event, c': Conn)
    requires ConnSound(c, log, open) && |event.payload| < TWO_32
    requires !c.stage.Requested? && c.torn == [] && c.strays == []
    requires c' == c.(sent := c.sent + [event], stream := c.stream + Encode(EventFrame(event), PAD))
    requires c.start + |c.sent| == |log| && event.typeId == c.typeId
    ensures ConnSound(c', log + [event], open)
  {
    hide SentMatchesLog, StreamMatchesSent, Encode, EventFrame;
    SentExtends(c, log, event, c');
    StreamExtends(c, open, event, c');
  }

  lemma LogExtends(c: Conn, log: seq<Event>, event: Event)
    requires SentMatchesLog(c, log)
    ensures SentMatchesLog(c, log + [event])
  {
    assert (log + [event])[c.start..c.start + |c.sent|] == log[c.start..c.start + |c.sent|];
  }

  lemma SameSent(c: Conn, log: seq<Event>, stream: Bytes, torn: Bytes)
    requires SentMatchesLog(c, log)
    ensures SentMatchesLog(c.(stream := stream, torn := torn), log)
  {
  }

  // As a client whose end is closed, or as no client.
  lemma UnsentConn(c: Conn, log: seq<Event>, open: bool, event: Event, stream: Bytes)
    requires ConnSound(c, log, open) && (open || c.stage.Requested? ==> stream == c.stream)
    ensures ConnSound(c.(stream := stream), log + [event], open)
  {
    hide Encode, SentMatchesLog;
    LogExtends(c, log, event);
    assert SentMatchesLog(c.(stream := stream), log + [event]) by { SameSent(c, log + [event], stream, c.torn); }
  }

  // As a client whose frame is cut short by the death of the publisher.
  lemma TornConn(c: Conn, log: seq<Event>, open: bool, event: Event, k: nat)
    requires ConnSound(c, log, open) && |event.payload| < TWO_32 && k < |Encode(EventFrame(event), PAD)|
    requires !c.stage.Requested? && c.torn == [] && c.strays == []
    ensures var part := Encode(EventFrame(event), PAD)[..k];
      ConnSound(c.(stream := c.stream + part, torn := part), log + [event], open)
  {
    hide Encode, Decode, EncodeAll, EventFrames, Payloads, ReplyFrame, Strncpy, SentMatchesLog;
    var part := Encode(EventFrame(event), PAD)[..k];
    CutShortIsIncomplete(EventFrame(event), PAD, k);
    LogExtends(c, log, event);
    SameSent(c, log + [event], c.stream + part, part);
  }

  /* ---- Steps that change one connection ---- */

  ghost predicate SameEnds(c: Conn, c': Conn) {
    && c'.publisher == c.publisher && c'.topic == c.topic && c'.typeId == c.typeId
    && c'.subscriber == c.subscriber && c'.name == c.name
  }

  // Connection i is now c, and nothing else has happened to the invariants' other subjects.
  ghost predicate OneConn(s: System, s': System, i: nat, c: Conn) {
    && s'.conns == s.conns[i := c] && s'.log == s.log && s'.nodes.Keys == s.nodes.Keys
    && (i in s.conns ==> SameEnds(s.conns[i], c))
  }

  lemma SameLog(s: System, c: Conn, c': Conn)
    requires SameEnds(c, c')
    ensures LogOf(s, c) == LogOf(s, c')
  {
  }

  lemma OneConnSound(s: System, s': System, i: nat, c: Conn)
    requires ConnsSound(s) && TornSound(s) && OneConn(s, s', i, c)
    requires ConnSound(c, LogOf(s, c), c.subscriber in s.nodes)
    requires c.torn != [] || c.strays != [] ==> i in s.conns && (s.conns[i].torn != [] || s.conns[i].strays != [])
    ensures ConnsSound(s') && TornSound(s')
  {
    hide ConnSound;
  }

  lemma OneConnClients(s: System, s': System, i: nat, c: Conn)
    requires ClientsSound(s) && OneConn(s, s', i, c)
    requires forall p :: p in s.nodes ==> s'.nodes[p].publications == s.nodes[p].publications
    requires i in s.conns && (s.conns[i].stage == Answered(OK) || s.conns[i].stage == Subscribed) ==>
      && (c.stage == Answered(OK) || c.stage == Subscribed)
      && c.start == s.conns[i].start && c.sent == s.conns[i].sent
    ensures ClientsSound(s')
  {
    forall p, t, n | p in s'.nodes && t in s'.nodes[p].publications && n in s'.nodes[p].publications[t].clients
      ensures IsClient(s', p, t, n, s'.nodes[p].publications[t].clients[n], s'.nodes[p].publications[t].typeId)
    {
      assert IsClient(s, p, t, n, s.nodes[p].publications[t].clients[n], s.nodes[p].publications[t].typeId);
    }
  }

  lemma OneConnSubscriptions(s: System, s': System, i: nat, c: Conn)
    requires SubscriptionsSound(s) && OneConn(s, s', i, c)
    requires forall r :: r in s.nodes ==> s'.nodes[r].subscriptions == s.nodes[r].subscriptions
    requires forall r :: r in s.nodes && Watched(s.nodes[r], i) ==> c.stage == Subscribed && |c.delivered| == c.taken
    ensures SubscriptionsSound(s')
  {
    forall r, t | r in s'.nodes && t in s'.nodes[r].subscriptions
      ensures IsSubscription(s', r, t, s'.nodes[r].subscriptions[t])
    {
      assert IsSubscription(s, r, t, s.nodes[r].subscriptions[t]);
      if s.nodes[r].subscriptions[t].socket == i {
        assert Watched(s.nodes[r], i);
      }
    }
  }

  lemma OneConnThreads(s: System, s': System, i: nat, c: Conn)
    requires ThreadsSound(s) && OneConn(s, s', i, c)
    requires forall r, j: nat :: r in s.nodes && InTable(s'.nodes[r].slots, j) ==> InTable(s.nodes[r].slots, j)
    requires forall r :: r in s.nodes && s'.nodes[r].pending.Contacting? ==>
      s'.nodes[r].pending == s.nodes[r].pending || (s'.nodes[r].pending.conn == i && c.subscriber == r)
    requires i in s.conns && s.conns[i].stage == Subscribed ==> c.stage == Subscribed
    requires forall r :: r in s.nodes && s'.nodes[r].pending.Contacting? && s'.nodes[r].pending.conn == i ==>
      Awaited(c.stage)
    ensures ThreadsSound(s')
  {
  }

  lemma DialSound(s: System, node: nat, host: nat, conn: nat, s': System)
    requires Sound(s) && Leads(s, Dial(node, host, conn), s')
    ensures Sound(s')
  {
    hide ConnSound, ConnsSound, TornSound, ClientsSound, SubscriptionsSound, ThreadsSound, LogOf, Watched, InTable;
    var c := s'.conns[conn];
    DialedConn(c, LogOf(s, c), c.subscriber in s.nodes);
    OneConnSound(s, s', conn, c);
    OneConnClients(s, s', conn, c);
    WatchedIsSubscribed(s, conn);
    OneConnSubscriptions(s, s', conn, c);
    StageOfContacted(s, conn);
    OneConnThreads(s, s', conn, c);
  }

  // The accepted client has been sent everything published since: nothing.
  lemma AcceptClients(s: System, s': System, i: nat, c: Conn)
    requires ClientsSound(s) && OneConn(s, s', i, c) && i in s.conns && s.conns[i].stage.Requested?
    requires c.sent == [] && c.stage.Answered? && c.publisher in s.nodes
    requires c.start == |Published(s, c.publisher, c.topic)|
    requires c.stage == Answered(Judge(s.nodes[c.publisher].publications, c.topic, c.typeId, c.name))
    requires s'.nodes[c.publisher].publications ==
      if c.stage.response == OK then Admitted(s.nodes[c.publisher].publications, c.topic, c.name, i)
      else s.nodes[c.publisher].publications
    requires forall p :: p in s.nodes && p != c.publisher ==> s'.nodes[p].publications == s.nodes[p].publications
    ensures ClientsSound(s')
  {
    forall p, t, n | p in s'.nodes && t in s'.nodes[p].publications && n in s'.nodes[p].publications[t].clients
      ensures IsClient(s', p, t, n, s'.nodes[p].publications[t].clients[n], s'.nodes[p].publications[t].typeId)
    {
      if p != c.publisher || t != c.topic || n != c.name || c.stage.response != OK {
        assert n in s.nodes[p].publications[t].clients;
        assert IsClient(s, p, t, n, s.nodes[p].publications[t].clients[n], s.nodes[p].publications[t].typeId);
      }
    }
  }

  // Acceptance fixes the start.
  lemma AcceptStarts(s: System, i: nat, s': System)
    requires Leads(s, AcceptSubscriber(i), s')
    ensures i in s.conns && i in s'.conns && SameEnds(s.conns[i], s'.conns[i]) && s'.conns[i].stage.Answered?
    ensures s'.conns[i].start == |LogOf(s, s.conns[i])| == |LogOf(s', s'.conns[i])|
  {
    hide Encode;
  }

  lemma AcceptSound(s: System, conn: nat, s': System)
    requires Sound(s) && Leads(s, AcceptSubscriber(conn), s')
    ensures Sound(s')
  {
    hide ConnSound, ConnsSound, TornSound, ClientsSound, SubscriptionsSound, ThreadsSound, LogOf, Watched, InTable;
    hide Encode, ReplyFrame;
    var a, c := s.conns[conn], s'.conns[conn];
    var response, open := Judge(s.nodes[a.publisher].publications, a.topic, a.typeId, a.name), a.subscriber in s.nodes;
    ConnOf(s, conn);
    AcceptStarts(s, conn, s');
    AcceptedConn(a, LogOf(s, a), open, response);
    SameLog(s, a, c);
    OneConnSound(s, s', conn, c);
    RequestedIsUnsent(a, LogOf(s, a), open);
    AcceptClients(s, s', conn, c);
    WatchedIsSubscribed(s, conn);
    OneConnSubscriptions(s, s', conn, c);
    StageOfContacted(s, conn);
    OneConnThreads(s, s', conn, c);
  }

  lemma FinishSubscriptions(s: System, s': System, node: nat, i: nat, topic: string, sub: Subscription)
    requires SubscriptionsSound(s) && node in s.nodes && s'.nodes.Keys == s.nodes.Keys
    requires i in s.conns && s.conns[i].stage.Answered?
    requires forall j :: j in s.conns && j != i ==> j in s'.conns && s'.conns[j] == s.conns[j]
    requires forall r :: r in s.nodes && r != node ==> s'.nodes[r].subscriptions == s.nodes[r].subscriptions
    requires s'.nodes[node].subscriptions == s.nodes[node].subscriptions
          || (s'.nodes[node].subscriptions == s.nodes[node].subscriptions[topic := sub]
              && IsSubscription(s', node, topic, sub))
    ensures SubscriptionsSound(s')
  {
    forall r, t | r in s'.nodes && t in s'.nodes[r].subscriptions
      ensures IsSubscription(s', r, t, s'.nodes[r].subscriptions[t])
    {
      if t in s.nodes[r].subscriptions && s'.nodes[r].subscriptions[t] == s.nodes[r].subscriptions[t] {
        assert IsSubscription(s, r, t, s.nodes[r].subscriptions[t]);
      }
    }
  }

  // The subscriber learns what the publisher decided.
  ghost predicate ConnAnswered(s: System, s': System, i: nat) {
    && i in s.conns && s.conns[i].stage.Answered? && i in s'.conns
    && s.conns[i].taken == 0 && s.conns[i].delivered == []
    && (s.conns[i].stage == Answered(OK) <==> s'.conns[i].stage == Subscribed)
  }

  lemma FinishAnswers(s: System, node: nat, s': System)
    requires Sound(s) && Leads(s, FinishSubscribe(node), s')
    ensures var i := s.nodes[node].pending.conn;
      && ConnAnswered(s, s', i)
      && ConnSound(s'.conns[i], LogOf(s, s.conns[i]), true)
  {
    hide Encode, Decode, EncodeAll, SentMatchesLog, Payloads, LogOf;
    var i := s.nodes[node].pending.conn;
    var c := s.conns[i];
    ThreadsOf(s, node, i);
    ConnOf(s, i);
    assert c.taken == 0 && c.delivered == [];
    hide Sound, StreamMatchesSent, ConnSound;
    FinishedConn(c, LogOf(s, c));
  }

  lemma FinishSound(s: System, node: nat, s': System)
    requires Sound(s) && Leads(s, FinishSubscribe(node), s')
    ensures Sound(s')
  {
    hide ConnSound, ConnsSound, TornSound, ClientsSound, SubscriptionsSound, ThreadsSound, LogOf, Watched, InTable;
    hide Decode, ReplyBody;
    var i := s.nodes[node].pending.conn;
    ThreadsOf(s, node, i);
    FinishAnswers(s, node, s');
    var a, c := s.conns[i], s'.conns[i];
    SameLog(s, a, c);
    FinishSubscriptions(s, s', node, i, a.topic, Subscription(a.typeId, s.nodes[node].pending.publisher, i));
    OneConnSound(s, s', i, c);
    OneConnClients(s, s', i, c);
    OneConnThreads(s, s', i, c);
  }

  // The slot the event thread looks at.
  function Current(n: Node): Slot {
    if n.phase.Visiting? && n.phase.next < |n.slots| then n.slots[n.phase.next] else FREE
  }

  predicate Reads(n: Node) {
    Current(n).readable && Current(n).fd >= 0
  }

  // The node and the connection that a visit changes.
  lemma VisitChanges(s: System, l: Label, s': System)
    requires Leads(s, l, s') && l.Visit?
    ensures l.node in s.nodes && l.node in s'.nodes
    ensures var n, n' := s.nodes[l.node], s'.nodes[l.node];
      && s'.nodes == s.nodes[l.node := n'] && s'.log == s.log
      && n' == n.(slots := n'.slots, phase := n'.phase)
      && (forall j: nat :: InTable(n'.slots, j) ==> InTable(n.slots, j))
      && if Reads(n) then
           var i: nat := Current(n).fd;
           && InTable(n.slots, i) && i in s.conns
           && s'.conns == s.conns[i := Read(s.conns[i], Watched(n, i), l.junk)]
         else s'.conns == s.conns
  {
    hide Read, Watched, Decode;
  }

  lemma ReadSound(s: System, s': System, node: nat, i: nat, junk: Bytes)
    requires Sound(s) && node in s.nodes && InTable(s.nodes[node].slots, i) && i in s.conns
    requires s'.conns == s.conns[i := Read(s.conns[i], Watched(s.nodes[node], i), junk)] && s'.log == s.log
    requires node in s'.nodes && s'.nodes == s.nodes[node := s'.nodes[node]]
    requires s'.nodes[node] == s.nodes[node].(slots := s'.nodes[node].slots, phase := s'.nodes[node].phase)
    requires forall j: nat :: InTable(s'.nodes[node].slots, j) ==> InTable(s.nodes[node].slots, j)
    ensures Sound(s')
  {
    hide ConnSound, ConnsSound, TornSound, ClientsSound, SubscriptionsSound, ThreadsSound, LogOf, Watched, InTable;
    hide Read;
    ThreadsOf(s, node, i);
    ConnOf(s, i);
    WatchedIsSubscribed(s, i);
    StageOfContacted(s, i);
    var c := s'.conns[i];
    ReadConn(s.conns[i], LogOf(s, s.conns[i]), Watched(s.nodes[node], i), junk);
    SameLog(s, s.conns[i], c);
    OneConnSound(s, s', i, c);
    OneConnClients(s, s', i, c);
    OneConnSubscriptions(s, s', i, c);
    OneConnThreads(s, s', i, c);
  }

  lemma SkipSound(s: System, s': System, node: nat)
    requires Sound(s) && node in s.nodes && node in s'.nodes
    requires s'.conns == s.conns && s'.log == s.log && s'.nodes == s.nodes[node := s'.nodes[node]]
    requires s'.nodes[node] == s.nodes[node].(slots := s'.nodes[node].slots, phase := s'.nodes[node].phase)
    requires forall j: nat :: InTable(s'.nodes[node].slots, j) ==> InTable(s.nodes[node].slots, j)
    ensures Sound(s')
  {
    hide Sound, InTable, Watched;
    assert OnlyQueues(s, s');
    OnlyQueuesSound(s, s');
  }

  lemma VisitSound(s: System, l: Label, s': System)
    requires Sound(s) && Leads(s, l, s') && l.Visit?
    ensures Sound(s')
  {
    hide Sound, Leads, Read, Watched, InTable, Current;
    VisitChanges(s, l, s');
    if Reads(s.nodes[l.node]) {
      ReadSound(s, s', l.node, Current(s.nodes[l.node]).fd, l.junk);
    } else {
      SkipSound(s, s', l.node);
    }
  }

  /* ---- Publishing ---- */

  lemma PublishLogs(s: System, l: Label, s': System)
    requires Leads(s, l, s') && l.Publish?
    ensures Published(s', l.node, l.topic) == Published(s, l.node, l.topic) + [l.event]
    ensures forall p: nat, t: string :: (p, t) != (l.node, l.topic) ==> Published(s', p, t) == Published(s, p, t)
  {
    hide Sent, Survivors;
  }

  // What a publication leaves alone.
  lemma PublishKeeps(s: System, l: Label, s': System)
    requires Leads(s, l, s') && l.Publish?
    ensures s'.conns.Keys == s.conns.Keys && s'.nodes.Keys == if l.dies then s.nodes.Keys - {l.node} else s.nodes.Keys
    ensures forall r :: r in s'.nodes ==>
      && s'.nodes[r].subscriptions == s.nodes[r].subscriptions && s'.nodes[r].waiting == s.nodes[r].waiting
      && s'.nodes[r].slots == s.nodes[r].slots && s'.nodes[r].phase == s.nodes[r].phase
      && s'.nodes[r].pending == s.nodes[r].pending
    ensures forall i :: i in s.conns ==>
      s'.conns[i] == s.conns[i].(stream := s'.conns[i].stream, sent := s'.conns[i].sent, torn := s'.conns[i].torn)
  {
    hide Encode, Serves, CutShort, Published, Survivors;
  }

  // The clients it is sent to, and how it can be cut short.
  lemma PublishedTo(s: System, l: Label, s': System, i: nat)
    requires Leads(s, l, s') && l.Publish? && i in s.conns
    ensures i in s'.conns && l.node in s.nodes && l.topic in s.nodes[l.node].publications
    ensures s.nodes[l.node].publications[l.topic].typeId == l.event.typeId && |l.event.payload| < TWO_32
    ensures s'.conns[i] == Sent(s.conns[i], i, s.nodes[l.node].publications[l.topic].clients, l.event, l.faults, l.dies)
    ensures CutShort(Encode(EventFrame(l.event), PAD), l.faults, i) && !l.dies ==>
      s.conns[i].subscriber !in s.nodes && Gone(Encode(EventFrame(l.event), PAD), l.faults, i)
  {
    hide Encode, Sent, Survivors;
  }

  lemma ServedIsClient(s: System, p: nat, t: string, i: nat)
    requires ClientsSound(s) && p in s.nodes && t in s.nodes[p].publications
    requires Serves(s.nodes[p].publications[t].clients, i)
    ensures i in s.conns && IsClient(s, p, t, s.conns[i].name, i, s.nodes[p].publications[t].typeId)
  {
    var clients := s.nodes[p].publications[t].clients;
    var n :| n in clients && clients[n] == i;
  }

  lemma CutShortAt(frame: Bytes, faults: map<nat, Fault>, fd: nat)
    requires CutShort(frame, faults, fd)
    ensures fd in faults && faults[fd].taken < |frame| && Reaching(frame, faults, fd) == frame[..faults[fd].taken]
  {
  }

  lemma SentConn(c: Conn, i: nat, log: seq<Event>, open: bool, clients: map<string, nat>, event: Event,
                 faults: map<nat, Fault>, dies: bool)
    requires ConnSound(c, log, open) && |event.payload| < TWO_32
    requires Serves(clients, i) ==>
      && !c.stage.Requested? && c.torn == [] && c.strays == []
      && c.start + |c.sent| == |log| && event.typeId == c.typeId
    requires CutShort(Encode(EventFrame(event), PAD), faults, i) ==> dies || !open
    ensures ConnSound(Sent(c, i, clients, event, faults, dies), log + [event], open)
  {
    hide ConnSound, Encode, Serves, CutShort;
    var frame := Encode(EventFrame(event), PAD);
    var c' := Sent(c, i, clients, event, faults, dies);
    if !Serves(clients, i) {
      UnsentConn(c, log, open, event, c.stream);
    } else if !CutShort(frame, faults, i) {
      PublishedConn(c, log, open, event, c');
    } else if dies {
      CutShortAt(frame, faults, i);
      TornConn(c, log, open, event, faults[i].taken);
    } else {
      UnsentConn(c, log, open, event, c'.stream);
    }
  }

  lemma NotSent(c: Conn, i: nat, clients: map<string, nat>, event: Event, faults: map<nat, Fault>, dies: bool)
    requires !Serves(clients, i)
    ensures Sent(c, i, clients, event, faults, dies) == c
  {
    hide Serves;
  }

  lemma TornByDeath(c: Conn, i: nat, clients: map<string, nat>, event: Event, faults: map<nat, Fault>, dies: bool)
    requires Sent(c, i, clients, event, faults, dies).torn != c.torn
    ensures dies && Serves(clients, i) && CutShort(Encode(EventFrame(event), PAD), faults, i)
  {
    hide Encode, Serves;
  }

  lemma PublishConn(s: System, l: Label, s': System, i: nat)
    requires Sound(s) && Leads(s, l, s') && l.Publish? && i in s.conns
    ensures i in s'.conns && ConnSound(s'.conns[i], LogOf(s', s'.conns[i]), s'.conns[i].subscriber in s'.nodes)
    ensures s'.conns[i].torn != [] || s'.conns[i].strays != [] ==> s'.conns[i].publisher !in s'.nodes
  {
    hide Leads, ConnSound, ConnsSound, SubscriptionsSound, ThreadsSound, ClientsSound, Serves, CutShort, Encode,
      Published, Sent;
    PublishedTo(s, l, s', i);
    var c := s.conns[i];
    var open, log, clients := c.subscriber in s.nodes, LogOf(s, c), s.nodes[l.node].publications[l.topic].clients;
    PublishLogs(s, l, s');
    PublishKeeps(s, l, s');
    ConnOf(s, i);
    var c' := s'.conns[i];
    if Serves(clients, i) {
      ServedIsClient(s, l.node, l.topic, i);
    } else {
      NotSent(c, i, clients, l.event, l.faults, l.dies);
    }
    if (c.publisher, c.topic) == (l.node, l.topic) {
      SentConn(c, i, log, open, clients, l.event, l.faults, l.dies);
    }
    if open && c.subscriber !in s'.nodes {
      ClosedConn(c', LogOf(s', c'));
    }
    if c'.torn != c.torn {
      TornByDeath(c, i, clients, l.event, l.faults, l.dies);
    }
  }

  lemma PublishConns(s: System, l: Label, s': System)
    requires Sound(s) && Leads(s, l, s') && l.Publish?
    ensures ConnsSound(s') && TornSound(s')
  {
    hide Sound, ConnSound, Leads, LogOf;
    PublishKeeps(s, l, s');
    forall i | i in s'.conns
      ensures ConnSound(s'.conns[i], LogOf(s', s'.conns[i]), s'.conns[i].subscriber in s'.nodes)
      ensures s'.conns[i].torn != [] || s'.conns[i].strays != [] ==> s'.conns[i].publisher !in s'.nodes
    {
      PublishConn(s, l, s', i);
    }
  }

  // Who is a client after a publication was one before.
  lemma ClientsAfter(s: System, l: Label, s': System, p: nat, t: string, n: string)
    requires Leads(s, l, s') && l.Publish?
    requires p in s'.nodes && t in s'.nodes[p].publications && n in s'.nodes[p].publications[t].clients
    ensures p in s.nodes && t in s.nodes[p].publications && n in s.nodes[p].publications[t].clients
    ensures s'.nodes[p].publications[t].clients[n] == s.nodes[p].publications[t].clients[n]
    ensures s'.nodes[p].publications[t].typeId == s.nodes[p].publications[t].typeId
    ensures p == l.node ==> !l.dies
    ensures p == l.node && t == l.topic ==>
      !Gone(Encode(EventFrame(l.event), PAD), l.faults, s.nodes[p].publications[t].clients[n])
  {
    hide Encode, Sent, Gone;
  }

  lemma ServedBy(clients: map<string, nat>, n: string)
    requires n in clients
    ensures Serves(clients, clients[n])
  {
  }

  lemma PublishClient(s: System, l: Label, s': System, p: nat, t: string, n: string)
    requires Sound(s) && Leads(s, l, s') && l.Publish?
    requires p in s'.nodes && t in s'.nodes[p].publications && n in s'.nodes[p].publications[t].clients
    ensures IsClient(s', p, t, n, s'.nodes[p].publications[t].clients[n], s'.nodes[p].publications[t].typeId)
  {
    hide Leads, ConnsSound, TornSound, SubscriptionsSound, ThreadsSound, Serves, CutShort, Encode, Published;
    ClientsAfter(s, l, s', p, t, n);
    var before := s.nodes[p].publications[t];
    var i := before.clients[n];
    assert IsClient(s, p, t, n, i, before.typeId);
    PublishedTo(s, l, s', i);
    PublishLogs(s, l, s');
    var clients := s.nodes[l.node].publications[l.topic].clients;
    if p == l.node && t == l.topic {
      ServedBy(clients, n);
    } else if Serves(clients, i) {
      ServedIsClient(s, l.node, l.topic, i);
    } else {
      hide ClientsSound;
      NotSent(s.conns[i], i, clients, l.event, l.faults, l.dies);
    }
  }

  lemma PublishClients(s: System, l: Label, s': System)
    requires Sound(s) && Leads(s, l, s') && l.Publish?
    ensures ClientsSound(s')
  {
    hide Leads, Sound, IsClient;
    forall p, t, n | p in s'.nodes && t in s'.nodes[p].publications && n in s'.nodes[p].publications[t].clients
      ensures IsClient(s', p, t, n, s'.nodes[p].publications[t].clients[n], s'.nodes[p].publications[t].typeId)
    {
      PublishClient(s, l, s', p, t, n);
    }
  }

  lemma PublishSubscriptions(s: System, l: Label, s': System)
    requires SubscriptionsSound(s) && Leads(s, l, s') && l.Publish?
    ensures SubscriptionsSound(s')
  {
    hide Leads;
    PublishKeeps(s, l, s');
  }

  lemma PublishThreads(s: System, l: Label, s': System)
    requires ThreadsSound(s) && Leads(s, l, s') && l.Publish?
    ensures ThreadsSound(s')
  {
    hide Leads, InTable;
    PublishKeeps(s, l, s');
  }

  lemma PublishSound(s: System, l: Label, s': System)
    requires Sound(s) && Leads(s, l, s') && l.Publish?
    ensures Sound(s')
  {
    hide Leads, ConnsSound, TornSound, ClientsSound, SubscriptionsSound, ThreadsSound;
    PublishClients(s, l, s');
    PublishConns(s, l, s');
    PublishSubscriptions(s, l, s');
    PublishThreads(s, l, s');
  }

  /* ---- Runs ---- */

  lemma StepSound(s: System, l: Label, s': System)
    requires Sound(s) && Leads(s, l, s')
    ensures Sound(s')
  {
    hide Sound, Leads;
    match l
    case Dial(node, host, conn) => DialSound(s, node, host, conn, s');
    case AcceptSubscriber(conn) => AcceptSound(s, conn, s');
    case FinishSubscribe(node) => FinishSound(s, node, s');
    case Publish(_, _, _, _, _) => PublishSound(s, l, s');
    case Visit(_, _) => VisitSound(s, l, s');
    case Watch(_) => TableStepSound(s, l, s');
    case StartPoll(_) => TableStepSound(s, l, s');
    case PollSlots(_, _) => TableStepSound(s, l, s');
    case _ => QueueStepSound(s, l, s');
  }

  lemma {:induction false} RunSound(ss: seq<System>, ls: seq<Label>, k: nat)
    requires IsRun(ss, ls) && k <= |ls|
    ensures Sound(ss[k])
  {
    hide Sound, Leads;
    if k == 0 {
      StartSound();
    } else {
      RunSound(ss, ls, k - 1);
      StepSound(ss[k - 1], ls[k - 1], ss[k]);
    }
  }
}
