// What is owed to a subscription can be delivered: from every reachable state the event thread has
// a way to the next event, provided its runtime has not subscribed to a topic again.
module EventProgress {
  import opened Common
  import opened Directory
  import opened PollTable
  import opened Framing
  import opened Payload
  import opened Runtime
  import opened EventSystem
  import opened EventInvariant
  import opened EventMembership
  import opened Delivery
  import opened EventThread

  /* ---- A pass over the table does not block ---- */

  ghost predicate Fed(s: System, slots: seq<Slot>, next: nat) {
    forall x :: next <= x < |slots| && slots[x].readable && slots[x].fd >= 0 ==> HasInput(s, slots[x].fd)
  }

  // What the last poll has marked can still be read.
  ghost predicate PassFed(s: System, r: nat) {
    r in s.nodes && s.nodes[r].phase.Visiting? ==> Fed(s, s.nodes[r].slots, s.nodes[r].phase.next)
  }

  lemma SentGrows(c: Conn, i: nat, clients: map<string, nat>, event: Event, faults: map<nat, Fault>, dies: bool)
    ensures c.stream != [] ==> Sent(c, i, clients, event, faults, dies).stream != []
  {
    hide Encode, Serves, CutShort;
  }

  lemma OthersKeepInput(s: System, l: Label, s': System, j: nat)
    requires Leads(s, l, s') && !l.Publish? && !l.Visit?
    requires j in s.conns && s.conns[j].stage == Subscribed && HasInput(s, j)
    ensures HasInput(s', j)
  {
    hide Encode, Decode, Answer, Update, Judge, Admitted, Published, ReplyBody, Installed, Polled;
  }

  // Only its own subscriber takes anything out of a stream.
  lemma InputStays(s: System, l: Label, s': System, j: nat)
    requires Sound(s) && Leads(s, l, s') && j in s.conns && s.conns[j].stage == Subscribed && HasInput(s, j)
    requires !ReadsFrom(s, l, j)
    ensures HasInput(s', j)
  {
    hide Sound, Encode, Decode, Answer, Update, Judge, Admitted, Read, Watched, ReplyBody, Sent, Survivors;
    if l.Publish? {
      PublishedTo(s, l, s', j);
      PublishKeeps(s, l, s');
      SentGrows(s.conns[j], j, s.nodes[l.node].publications[l.topic].clients, l.event, l.faults, l.dies);
      hide Leads;
    } else if l.Visit? {
      VisitChanges(s, l, s');
      hide Leads;
    } else {
      OthersKeepInput(s, l, s', j);
    }
  }

  lemma InTableSubscribed(s: System, r: nat, j: nat)
    requires Sound(s) && r in s.nodes && InTable(s.nodes[r].slots, j)
    ensures j in s.conns && s.conns[j].stage == Subscribed && s.conns[j].subscriber == r
  {
    hide ConnsSound, TornSound, ClientsSound, SubscriptionsSound, InTable;
    ThreadsOf(s, r, j);
  }

  // The connections of a table, before the step of a node.
  lemma TableInput(s: System, l: Label, s': System, r: nat)
    requires Sound(s) && Leads(s, l, s') && r in s.nodes
    ensures forall j: nat :: InTable(s.nodes[r].slots, j) && HasInput(s, j) && !ReadsFrom(s, l, j) ==> HasInput(s', j)
  {
    hide Sound, Leads, InTable, HasInput, ReadsFrom;
    forall j: nat | InTable(s.nodes[r].slots, j) && HasInput(s, j) && !ReadsFrom(s, l, j)
      ensures HasInput(s', j)
    {
      InTableSubscribed(s, r, j);
      InputStays(s, l, s', j);
    }
  }

  lemma VisitTable(s: System, l: Label, s': System)
    requires Leads(s, l, s') && l.Visit?
    ensures l.node in s.nodes && l.node in s'.nodes
    ensures var n, n' := s.nodes[l.node], s'.nodes[l.node];
      && n.phase.Visiting? && n.phase.next < |n.slots| && |n'.slots| == |n.slots|
      && n'.phase == NextPhase(n)
      && (forall x :: 0 <= x < |n.slots| && x != n.phase.next ==> n'.slots[x] == n.slots[x])
  {
    hide Read, Watched, Decode;
  }

  // What the slots that are still to be visited are for: a visit takes the next phase, and its
  // connection is in no other slot.
  lemma VisitFed(s: System, l: Label, s': System, r: nat)
    requires Sound(s) && Leads(s, l, s') && l.Visit? && l.node == r && PassFed(s, r)
    requires r in s.nodes ==> SlotsDistinct(s.nodes[r].slots)
    ensures PassFed(s', r)
  {
    hide Sound, HasInput;
    VisitTable(s, l, s');
    TableInput(s, l, s', r);
    hide Leads;
    var n, n' := s.nodes[r], s'.nodes[r];
    forall x | n.phase.next < x < |n'.slots| && n'.slots[x].readable && n'.slots[x].fd >= 0
      ensures HasInput(s', n'.slots[x].fd)
    {
      assert InTable(n.slots, n.slots[x].fd);
      assert !ReadsFrom(s, l, n.slots[x].fd);
    }
  }

  lemma PollFed(s: System, r: nat, ready: set<nat>, s': System)
    requires Leads(s, PollSlots(r, ready), s') && TablesSound(s)
    ensures PassFed(s', r)
  {
    assert TableSound(s.nodes[r]);
    assert s'.conns == s.conns && s'.nodes.Keys == s.nodes.Keys;
  }

  lemma CurrentInTable(n: Node)
    requires Reads(n)
    ensures InTable(n.slots, Current(n).fd)
  {
  }

  lemma NotReadByOthers(s: System, l: Label, r: nat, j: nat)
    requires Sound(s) && r in s.nodes && InTable(s.nodes[r].slots, j) && !(l.Visit? && l.node == r)
    ensures !ReadsFrom(s, l, j)
  {
    hide Sound, InTable;
    InTableSubscribed(s, r, j);
    if ReadsFrom(s, l, j) {
      CurrentInTable(s.nodes[l.node]);
      InTableSubscribed(s, l.node, j);
      assert false;
    }
  }

  lemma OthersFed(s: System, l: Label, s': System, r: nat)
    requires Sound(s) && Leads(s, l, s') && r in s.nodes && r in s'.nodes && PassFed(s, r)
    requires s'.nodes[r].slots == s.nodes[r].slots && s'.nodes[r].phase == s.nodes[r].phase
    requires !(l.Visit? && l.node == r)
    ensures PassFed(s', r)
  {
    hide Sound, HasInput, Leads;
    TableInput(s, l, s', r);
    var n, n' := s.nodes[r], s'.nodes[r];
    if n'.phase.Visiting? {
      forall x | n'.phase.next <= x < |n'.slots| && n'.slots[x].readable && n'.slots[x].fd >= 0
        ensures HasInput(s', n'.slots[x].fd)
      {
        var j: nat := n.slots[x].fd;
        assert InTable(n.slots, j);
        InTableSubscribed(s, r, j);
        NotReadByOthers(s, l, r, j);
      }
    }
  }

  lemma FinishPhase(s: System, r: nat, s': System)
    requires Leads(s, FinishSubscribe(r), s')
    ensures r in s.nodes && r in s'.nodes
    ensures s'.nodes[r].slots == s.nodes[r].slots && s'.nodes[r].phase == s.nodes[r].phase
  {
    hide Decode, ReplyBody;
  }

  lemma DrainingFed(s: System, r: nat)
    requires r in s.nodes ==> !s.nodes[r].phase.Visiting?
    ensures PassFed(s, r)
  {
  }

  lemma WatchPhase(s: System, l: Label, s': System)
    requires Leads(s, l, s') && (l.Watch? || l.StartPoll?)
    ensures l.node in s'.nodes && !s'.nodes[l.node].phase.Visiting?
  {
  }

  lemma StepFed(s: System, l: Label, s': System, r: nat)
    requires Sound(s) && TablesSound(s) && Leads(s, l, s') && PassFed(s, r)
    requires r in s.nodes ==> SlotsDistinct(s.nodes[r].slots)
    ensures PassFed(s', r)
  {
    hide Sound, TablesSound, Leads, SlotsDistinct, PassFed;
    if r !in s'.nodes {
      DrainingFed(s', r);
    } else if !Touches(l, r) {
      OthersKeepTable(s, l, s', r);
      if r in s.nodes {
        OthersFed(s, l, s', r);
      } else {
        DrainingFed(s', r);
      }
    } else {
      match l
      case FinishSubscribe(_) =>
        FinishPhase(s, r, s');
        OthersFed(s, l, s', r);
      case Visit(_, _) => VisitFed(s, l, s', r);
      case PollSlots(_, ready) => PollFed(s, r, ready, s');
      case _ =>
        WatchPhase(s, l, s');
        DrainingFed(s', r);
    }
  }

  lemma {:induction false} RunFed(ss: seq<System>, ls: seq<Label>, r: nat, k: nat)
    requires IsRun(ss, ls) && k <= |ls|
    requires forall j :: 0 <= j < k ==> !Resubscribes(ss[j], ls[j], r)
    ensures PassFed(ss[k], r)
  {
    hide Leads, Sound, TablesSound, Resubscribes, SlotsDistinct;
    if k > 0 {
      RunFed(ss, ls, r, k - 1);
      RunSound(ss, ls, k - 1);
      RunTables(ss, ls, k - 1);
      RunFresh(ss, ls, r, k - 1);
      StepFed(ss[k - 1], ls[k - 1], ss[k], r);
    }
  }

  lemma TornStream(c: Conn, log: seq<Event>)
    requires ConnSound(c, log, true) && c.stage == Subscribed && Decode(c.stream).None?
    ensures c.taken == |c.sent| && c.stream == c.torn
  {
    ReadNext(c, log, false, []);
    assert c.taken <= |c.sent|;
    hide SentMatchesLog, Decode;
    NothingAhead(c);
  }

  lemma SomeCompletion(stream: Bytes) returns (data: Bytes)
    requires Decode(stream).None?
    ensures Completes(stream, data)
  {
    if |stream| < HEADER_SIZE {
      data := [];
    } else {
      var size, body := DecodeLength(stream[4..HEADER_SIZE]), stream[HEADER_SIZE..];
      data := body + seq(size - |body|, i => NUL);
    }
  }

  lemma InputCanBeRead(s: System, i: nat) returns (junk: Bytes)
    requires Sound(s) && i in s.conns && HasInput(s, i)
    requires s.conns[i].stage == Subscribed && s.conns[i].subscriber in s.nodes
    ensures CanRead(s, s.conns[i], junk)
  {
    hide Sound, ConnSound, Decode, Completes;
    var c := s.conns[i];
    ConnOf(s, i);
    junk := [];
    if Decode(c.stream).None? {
      TornStream(c, LogOf(s, c));
      junk := SomeCompletion(c.stream);
    }
  }

  // A visit is never blocked.
  lemma VisitProceeds(s: System, r: nat) returns (junk: Bytes)
    requires Sound(s) && r in s.nodes && TableSound(s.nodes[r]) && PassFed(s, r) && s.nodes[r].phase.Visiting?
    ensures Enabled(s, Visit(r, junk))
  {
    hide Sound, ConnSound, Decode, Completes;
    junk := [];
    var n := s.nodes[r];
    if Reads(n) {
      CurrentInTable(n);
      InTableSubscribed(s, r, n.slots[n.phase.next].fd);
      junk := InputCanBeRead(s, n.slots[n.phase.next].fd);
    }
  }

  // Main result: the event thread blocks in the middle of a pass exactly when the slot it looks at
  // is marked and its connection has nothing to read.  Without two slots for one connection that
  // cannot happen (VisitProceeds).
  lemma VisitBlocksExact(s: System, r: nat)
    requires Sound(s) && r in s.nodes && TableSound(s.nodes[r]) && s.nodes[r].phase.Visiting?
    ensures (exists junk :: Enabled(s, Visit(r, junk)))
       <==> (Reads(s.nodes[r]) ==> HasInput(s, Current(s.nodes[r]).fd))
  {
    hide Sound, ConnSound, Completes;
    var n := s.nodes[r];
    if Reads(n) {
      CurrentInTable(n);
      InTableSubscribed(s, r, Current(n).fd);
      if HasInput(s, Current(n).fd) {
        var junk := InputCanBeRead(s, Current(n).fd);
        assert Enabled(s, Visit(r, junk));
      }
    } else {
      assert Enabled(s, Visit(r, []));
    }
  }

  /* ---- The way to the next event ---- */

  // All slots that poll could report.
  ghost function AllReady(s: System, r: nat): set<nat>
    requires r in s.nodes
  {
    set x | 0 <= x < |s.nodes[r].slots| && HasInput(s, s.nodes[r].slots[x].fd)
  }

  // A step of the event thread of r, in which poll reports all it can.
  ghost predicate ThreadStep(s: System, l: Label, s': System, r: nat) {
    && Leads(s, l, s') && r in s.nodes
    && (l == Watch(r) || l == StartPoll(r) || l == PollSlots(r, AllReady(s, r)) || (l.Visit? && l.node == r))
  }

  ghost predicate Path(s: System, ls: seq<Label>, s': System, r: nat)
    decreases |ls|
  {
    if ls == [] then s == s' else exists next :: ThreadStep(s, ls[0], next, r) && Path(next, ls[1..], s', r)
  }

  ghost predicate InWindow(n: Node, i: int) {
    exists x :: 0 <= x < Window(n) && x < |n.slots| && n.slots[x].fd == i
  }

  // The socket that a waiting topic will bring to the table.
  function Coming(n: Node, w: nat): int
    requires w < |n.waiting|
  {
    if n.waiting[w] in n.subscriptions then n.subscriptions[n.waiting[w]].socket else -1
  }

  // No connection has two slots, or will have when those that wait have theirs.
  ghost predicate NoDouble(n: Node) {
    && SlotsDistinct(n.slots)
    && (forall w :: 0 <= w < |n.waiting| && Coming(n, w) >= 0 ==> !InTable(n.slots, Coming(n, w)))
    && (forall v, w :: 0 <= v < w < |n.waiting| && Coming(n, v) >= 0 ==> Coming(n, v) != Coming(n, w))
  }

  // An event is owed over connection i, which has a slot in the window of r, and all is well with r.
  ghost predicate Ready(s: System, r: nat, i: nat) {
    && Sound(s) && TablesSound(s) && PassFed(s, r) && Attached(s, i) && IsServed(s, i)
    && s.conns[i].subscriber == r && InWindow(s.nodes[r], i) && NoDouble(s.nodes[r])
    && |s.conns[i].delivered| < |s.conns[i].sent|
  }

  ghost predicate DeliversNext(c: Conn, c': Conn)
    requires |c.delivered| < |c.sent|
  {
    c'.delivered == c.delivered + [Copied(c.sent[|c.delivered|].payload)]
  }

  lemma ReadyRead(s: System, l: Label, s': System, r: nat, i: nat)
    requires Ready(s, r, i) && ThreadStep(s, l, s', r) && ReadsFrom(s, l, i)
    ensures i in s'.conns && DeliversNext(s.conns[i], s'.conns[i])
  {
    hide Leads, TablesSound, NoDouble, InWindow, PassFed, ConnsSound, TornSound, ClientsSound, SubscriptionsSound,
      ThreadsSound, Read, Watched, IsServed, ConnSound, InTable, Copied;
    VisitReads(s, l, s', i);
    AttachedFacts(s, i);
    var c := s.conns[i];
    ReadNext(c, LogOf(s, c), Watched(s.nodes[l.node], i), l.junk);
  }

  lemma TableStepChanges(s: System, l: Label, s': System)
    requires Leads(s, l, s') && MovesTable(l)
    ensures s'.conns == s.conns && l.node in s.nodes && l.node in s'.nodes
    ensures var n' := s'.nodes[l.node];
      s'.nodes == s.nodes[l.node := s.nodes[l.node].(slots := n'.slots, waiting := n'.waiting, phase := n'.phase)]
  {
    hide Installed, Polled;
  }

  // The thread's steps leave the publications and subscriptions alone.
  lemma ThreadStepKeeps(s: System, l: Label, s': System, r: nat)
    requires ThreadStep(s, l, s', r)
    ensures s'.nodes.Keys == s.nodes.Keys
    ensures forall q :: q in s.nodes ==>
      s'.nodes[q].publications == s.nodes[q].publications && s'.nodes[q].subscriptions == s.nodes[q].subscriptions
  {
    hide Leads;
    if l.Visit? {
      VisitChanges(s, l, s');
    } else {
      TableStepChanges(s, l, s');
    }
  }

  lemma ThreadStepConn(s: System, l: Label, s': System, r: nat, i: nat)
    requires ThreadStep(s, l, s', r) && i in s.conns && !ReadsFrom(s, l, i)
    ensures i in s'.conns && s'.conns[i] == s.conns[i]
  {
    hide Leads;
    if l.Visit? {
      VisitChanges(s, l, s');
    } else {
      TableStepChanges(s, l, s');
    }
  }

  // The connection keeps its slot, and the window.
  lemma VisitKeepsSlot(s: System, l: Label, s': System, i: nat)
    requires Leads(s, l, s') && l.Visit? && l.node in s.nodes
    requires InWindow(s.nodes[l.node], i) && !ReadsFrom(s, l, i)
    ensures l.node in s'.nodes && InWindow(s'.nodes[l.node], i)
  {
    hide Read, Decode, Watched;
    var n := s.nodes[l.node];
    var x :| 0 <= x < Window(n) && x < |n.slots| && n.slots[x].fd == i;
    assert s'.nodes[l.node].slots[x].fd == i;
  }

  lemma TableStepKeepsSlot(s: System, l: Label, s': System, i: nat)
    requires Leads(s, l, s') && MovesTable(l) && l.node in s.nodes && InWindow(s.nodes[l.node], i)
    ensures l.node in s'.nodes && InWindow(s'.nodes[l.node], i)
  {
    hide FirstSlot;
    var n := s.nodes[l.node];
    var x :| 0 <= x < Window(n) && x < |n.slots| && n.slots[x].fd == i;
    assert s'.nodes[l.node].slots[x].fd == i;
  }

  lemma ThreadStepSlot(s: System, l: Label, s': System, r: nat, i: nat)
    requires ThreadStep(s, l, s', r) && InWindow(s.nodes[r], i) && !ReadsFrom(s, l, i)
    ensures r in s'.nodes && InWindow(s'.nodes[r], i)
  {
    hide Leads, InWindow;
    if l.Visit? {
      VisitKeepsSlot(s, l, s', i);
    } else {
      TableStepKeepsSlot(s, l, s', i);
    }
  }

  lemma FewerSlots(n: Node, n': Node)
    requires NoDouble(n) && n'.waiting == n.waiting && n'.subscriptions == n.subscriptions
    requires |n'.slots| == |n.slots|
    requires forall x :: 0 <= x < |n.slots| ==> n'.slots[x].fd == n.slots[x].fd || n'.slots[x].fd == -1
    ensures NoDouble(n')
  {
    assert forall w :: 0 <= w < |n.waiting| ==> Coming(n', w) == Coming(n, w);
  }

  // The front of the queue takes its slot.
  lemma WatchNoDouble(n: Node, n': Node)
    requires NoDouble(n) && n.waiting != [] && n.waiting[0] in n.subscriptions
    requires n' == n.(waiting := n.waiting[1..], slots := Installed(n.slots, n.subscriptions[n.waiting[0]].socket))
    ensures NoDouble(n')
  {
    hide FirstSlot;
    var fd := n.subscriptions[n.waiting[0]].socket;
    assert Coming(n, 0) == fd && !InTable(n.slots, fd);
    assert forall w :: 0 <= w < |n'.waiting| ==> Coming(n', w) == Coming(n, w + 1);
    forall w | 0 <= w < |n'.waiting| && Coming(n', w) >= 0
      ensures !InTable(n'.slots, Coming(n', w))
    {
      assert Coming(n, 0) != Coming(n, w + 1) && !InTable(n.slots, Coming(n, w + 1));
    }
  }

  lemma ThreadStepNoDouble(s: System, l: Label, s': System, r: nat)
    requires ThreadStep(s, l, s', r) && TablesSound(s) && NoDouble(s.nodes[r])
    ensures r in s'.nodes && NoDouble(s'.nodes[r])
  {
    hide Leads, NoDouble, TableSound;
    if l == Watch(r) {
      WatchKeepsTable(s, r, s');
      WatchNoDouble(s.nodes[r], s'.nodes[r]);
    } else {
      if l.Visit? {
        VisitChanges(s, l, s');
      } else {
        PollChanges(s, l, s');
      }
      StepTable(s, l, s', r);
      FewerSlots(s.nodes[r], s'.nodes[r]);
    }
  }

  lemma AttachedStays(s: System, s': System, i: nat)
    requires Attached(s, i) && IsServed(s, i) && i in s'.conns && s'.conns[i] == s.conns[i]
    requires s'.nodes.Keys == s.nodes.Keys
    requires forall q :: q in s.nodes ==>
      s'.nodes[q].publications == s.nodes[q].publications && s'.nodes[q].subscriptions == s.nodes[q].subscriptions
    ensures Attached(s', i) && IsServed(s', i)
  {
    hide Serves;
  }

  lemma StepTables(s: System, l: Label, s': System)
    requires TablesSound(s) && Leads(s, l, s')
    ensures TablesSound(s')
  {
    hide Leads, TableSound;
    forall q | q in s'.nodes
      ensures TableSound(s'.nodes[q])
    {
      StepTable(s, l, s', q);
    }
  }

  lemma NoDoubleDistinct(n: Node)
    requires NoDouble(n)
    ensures SlotsDistinct(n.slots)
  {
  }

  lemma ReadyStep(s: System, l: Label, s': System, r: nat, i: nat)
    requires Ready(s, r, i) && ThreadStep(s, l, s', r) && !ReadsFrom(s, l, i)
    ensures Ready(s', r, i) && s'.conns[i] == s.conns[i]
  {
    hide Sound, TablesSound, NoDouble, PassFed, IsServed, Watched, InWindow, Leads, SlotsDistinct;
    StepSound(s, l, s');
    StepTables(s, l, s');
    ThreadStepKeeps(s, l, s', r);
    ThreadStepConn(s, l, s', r, i);
    ThreadStepSlot(s, l, s', r, i);
    ThreadStepNoDouble(s, l, s', r);
    AttachedStays(s, s', i);
    NoDoubleDistinct(s.nodes[r]);
    StepFed(s, l, s', r);
  }

  lemma {:induction false} PathConcat(s: System, ls: seq<Label>, s': System, more: seq<Label>, s'': System, r: nat)
    requires Path(s, ls, s', r) && Path(s', more, s'', r)
    ensures Path(s, ls + more, s'', r)
    decreases |ls|
  {
    hide ThreadStep;
    if ls == [] {
      assert ls + more == more;
    } else {
      var next :| ThreadStep(s, ls[0], next, r) && Path(next, ls[1..], s', r);
      PathConcat(next, ls[1..], s', more, s'', r);
      assert (ls + more)[1..] == ls[1..] + more;
    }
  }

  lemma OneStep(s: System, l: Label, s': System, r: nat)
    requires ThreadStep(s, l, s', r)
    ensures Path(s, [l], s', r)
  {
    hide ThreadStep;
    assert [l][1..] == [];
    assert Path(s', [], s', r);
  }

  lemma StepLeads(s: System, l: Label)
    requires Enabled(s, l)
    ensures Leads(s, l, Step(s, l))
  {
  }

  // Where a pass stands: done, because it has delivered the next event, or at its end.
  ghost predicate PassResult(s: System, s': System, r: nat, i: nat, done: bool)
    requires Ready(s, r, i)
  {
    if done then i in s'.conns && DeliversNext(s.conns[i], s'.conns[i])
    else Ready(s', r, i) && s'.conns[i] == s.conns[i] && s'.nodes[r].phase.Draining?
  }

  ghost predicate MarkedFrom(n: Node, i: nat)
    requires n.phase.Visiting?
  {
    exists x :: n.phase.next <= x < |n.slots| && n.slots[x] == Slot(i, true)
  }

  // The rest of a pass: it ends, and delivers the next event if the connection is marked.
  lemma FinishPass(s: System, r: nat, i: nat) returns (ls: seq<Label>, s': System, done: bool)
    requires Ready(s, r, i) && s.nodes[r].phase.Visiting?
    ensures Path(s, ls, s', r) && PassResult(s, s', r, i, done)
    ensures MarkedFrom(s.nodes[r], i) ==> done
    decreases MAX_CONNECTIONS - s.nodes[r].phase.next
  {
    hide Leads, Sound, NoDouble, PassFed, IsServed, Watched, InWindow, DeliversNext, Path;
    var n := s.nodes[r];
    assert TableSound(n);
    var junk := VisitProceeds(s, r);
    var l, next := Visit(r, junk), Step(s, Visit(r, junk));
    StepLeads(s, l);
    VisitTable(s, l, next);
    OneStep(s, l, next, r);
    if ReadsFrom(s, l, i) {
      ReadyRead(s, l, next, r, i);
      ls, s', done := [l], next, true;
    } else {
      ReadyStep(s, l, next, r, i);
      ls, s', done := [l], next, false;
      if next.nodes[r].phase.Visiting? {
        var more: seq<Label>;
        more, s', done := FinishPass(next, r, i);
        PathConcat(s, [l], next, more, s', r);
        ls := [l] + more;
      }
    }
  }

  // Taking in what waits.
  lemma {:induction false} DrainQueue(s: System, r: nat, i: nat) returns (ls: seq<Label>, s': System)
    requires Ready(s, r, i) && s.nodes[r].phase.Draining?
    ensures Path(s, ls, s', r) && Ready(s', r, i) && s'.conns[i] == s.conns[i] && s'.nodes[r].phase.Polling?
    decreases |s.nodes[r].waiting|
  {
    hide Leads, Sound, NoDouble, PassFed, IsServed, Watched, InWindow, Path;
    var n := s.nodes[r];
    assert TableSound(n);
    var l := if n.waiting == [] then StartPoll(r) else Watch(r);
    var next := Step(s, l);
    StepLeads(s, l);
    OneStep(s, l, next, r);
    ReadyStep(s, l, next, r, i);
    ls, s' := [l], next;
    if n.waiting != [] {
      var more: seq<Label>;
      more, s' := DrainQueue(next, r, i);
      PathConcat(s, [l], next, more, s', r);
      ls := [l] + more;
    }
  }

  lemma NothingToDecode()
    ensures Decode([]).None?
  {
  }

  // What is owed is in the stream.
  lemma OwedIsInput(s: System, i: nat)
    requires Sound(s) && Attached(s, i) && IsServed(s, i) && |s.conns[i].delivered| < |s.conns[i].sent|
    ensures HasInput(s, i)
  {
    hide Sound, Decode, ConnSound, IsServed, Watched;
    AttachedFacts(s, i);
    var c := s.conns[i];
    ReadNext(c, LogOf(s, c), false, []);
    NothingToDecode();
  }

  // A poll that reports everything marks the connection.
  lemma PollMarks(s: System, r: nat, i: nat) returns (s': System)
    requires Ready(s, r, i) && s.nodes[r].phase.Polling?
    ensures Path(s, [PollSlots(r, AllReady(s, r))], s', r) && Ready(s', r, i) && s'.conns[i] == s.conns[i]
    ensures s'.nodes[r].phase == Visiting(0) && MarkedFrom(s'.nodes[r], i)
  {
    hide Sound, NoDouble, PassFed, IsServed, Watched, HasInput, Path, TablesSound;
    var n := s.nodes[r];
    OwedIsInput(s, i);
    var x: nat :| 0 <= x < Window(n) && x < |n.slots| && n.slots[x].fd == i;
    var l := PollSlots(r, AllReady(s, r));
    s' := Step(s, l);
    StepLeads(s, l);
    OneStep(s, l, s', r);
    assert x in AllReady(s, r) && x < Window(n);
    assert s'.nodes[r].slots[x] == Slot(i, true);
    assert Readable(n.(slots := Polled(n.slots, Window(n), AllReady(s, r))), x);
    hide Leads, InWindow;
    ReadyStep(s, l, s', r, i);
  }

  lemma FromPolling(s: System, r: nat, i: nat) returns (ls: seq<Label>, s': System)
    requires Ready(s, r, i) && s.nodes[r].phase.Polling?
    ensures Path(s, ls, s', r) && i in s'.conns && DeliversNext(s.conns[i], s'.conns[i])
  {
    var next := PollMarks(s, r, i);
    var l := PollSlots(r, AllReady(s, r));
    hide Sound, TablesSound, NoDouble, PassFed, IsServed, Watched, InWindow, Path, AllReady, DeliversNext;
    var more, last, done := FinishPass(next, r, i);
    PathConcat(s, [l], next, more, last, r);
    ls, s' := [l] + more, last;
  }

  lemma FromDraining(s: System, r: nat, i: nat) returns (ls: seq<Label>, s': System)
    requires Ready(s, r, i) && s.nodes[r].phase.Draining?
    ensures Path(s, ls, s', r) && i in s'.conns && DeliversNext(s.conns[i], s'.conns[i])
  {
    hide Sound, TablesSound, NoDouble, PassFed, IsServed, Watched, InWindow, Path, DeliversNext;
    var start, next := DrainQueue(s, r, i);
    var more, last := FromPolling(next, r, i);
    PathConcat(s, start, next, more, last, r);
    ls, s' := start + more, last;
  }

  // From every state in which an event is owed, the event thread has a way to it.
  lemma ReadyDelivers(s: System, r: nat, i: nat) returns (ls: seq<Label>, s': System)
    requires Ready(s, r, i)
    ensures Path(s, ls, s', r) && i in s'.conns && DeliversNext(s.conns[i], s'.conns[i])
  {
    hide Sound, TablesSound, NoDouble, PassFed, IsServed, Watched, InWindow, Path, DeliversNext;
    if s.nodes[r].phase.Visiting? {
      var start, next, done := FinishPass(s, r, i);
      ls, s' := start, next;
      if !done {
        var more, last := FromDraining(next, r, i);
        PathConcat(s, start, next, more, last, r);
        ls, s' := start + more, last;
      }
    } else if s.nodes[r].phase.Draining? {
      ls, s' := FromDraining(s, r, i);
    } else {
      ls, s' := FromPolling(s, r, i);
    }
  }

  // A way of the thread is a continuation of the run.
  lemma {:induction false} PathIsRun(ss: seq<System>, ls: seq<Label>, more: seq<Label>, s': System, r: nat)
    returns (states: seq<System>)
    requires IsRun(ss, ls) && Path(ss[|ls|], more, s', r)
    ensures IsRun(ss + states, ls + more) && (ss + states)[|ls + more|] == s'
    decreases |more|
  {
    hide Leads;
    states := [];
    if more == [] {
      assert ss + [] == ss && ls + [] == ls;
    } else {
      var next :| ThreadStep(ss[|ls|], more[0], next, r) && Path(next, more[1..], s', r);
      var rest := PathIsRun(ss + [next], ls + [more[0]], more[1..], s', r);
      states := [next] + rest;
      assert ss + [next] + rest == ss + states;
      assert ls + [more[0]] + more[1..] == ls + more;
    }
  }

  // Main result: whenever an event is owed to an attached subscription that has a slot in the
  // window, no connection has two slots, and what the last poll has marked can still be read,
  // some continuation of the run, in which nobody but the event thread moves and poll reports
  // everything there is, delivers it as the next one.
  lemma NextIsDelivered(ss: seq<System>, ls: seq<Label>, i: nat, a: nat, r: nat)
    returns (more: seq<Label>, states: seq<System>, s': System)
    requires IsRun(ss, ls) && a < |ls| && ls[a] == AcceptSubscriber(i) && Attached(ss[|ls|], i)
    requires ss[|ls|].conns[i].subscriber == r && InWindow(ss[|ls|].nodes[r], i)
    requires NoDouble(ss[|ls|].nodes[r]) && PassFed(ss[|ls|], r)
    requires var c := ss[|ls|].conns[i];
      |c.delivered| < |PublishedBy(ls[a + 1..], c.publisher, c.topic)|
    ensures IsRun(ss + states, ls + more) && (ss + states)[|ls + more|] == s' && Path(ss[|ls|], more, s', r)
    ensures var c := ss[|ls|].conns[i];
      var events := PublishedBy(ls[a + 1..], c.publisher, c.topic);
      i in s'.conns && s'.conns[i].delivered == c.delivered + [Copied(events[|c.delivered|].payload)]
  {
    hide Leads, Sound, TablesSound, NoDouble, PassFed, IsServed, Watched, InWindow, Path, Published,
      Payloads, ConnSound, Copied;
    var k := |ls|;
    assert ls[a + 1..k] == ls[a + 1..];
    RunSound(ss, ls, k);
    RunTables(ss, ls, k);
    AcceptedStaysServed(ss, ls, k);
    assert Stands(ss[k], i);
    AcceptedStays(ss, ls, i, a, k);
    AttachedFacts(ss[k], i);
    var c := ss[k].conns[i];
    RunLogs(ss, ls, a + 1, k, c.publisher, c.topic);
    DeliveredOfConn(c, true, LogOf(ss[a + 1], c), PublishedBy(ls[a + 1..], c.publisher, c.topic));
    assert c.sent == PublishedBy(ls[a + 1..], c.publisher, c.topic);
    more, s' := ReadyDelivers(ss[k], r, i);
    states := PathIsRun(ss, ls, more, s', r);
  }

  lemma FreshIsSingle(s: System, r: nat)
    requires Sound(s) && r in s.nodes && TableSound(s.nodes[r]) && Fresh(s, r)
    ensures NoDouble(s.nodes[r])
  {
    hide Sound;
    var n := s.nodes[r];
    forall w | 0 <= w < |n.waiting|
      ensures Coming(n, w) in s.conns && s.conns[Coming(n, w)].topic == n.waiting[w]
      ensures !InTable(n.slots, Coming(n, w))
    {
      assert n.waiting[w] in n.waiting;
      SocketTopic(s, r, n.waiting[w]);
      forall x | 0 <= x < |n.slots|
        ensures n.slots[x].fd != Coming(n, w)
      {
        assert n.slots[x].fd != -1 ==> IsCurrent(s.conns, n.subscriptions, n.waiting, n.slots[x].fd);
      }
    }
  }

  // Main result: so delivery never gets stuck as long as a runtime has not subscribed to a topic
  // again, once the connection is in its table.
  lemma FreshIsDelivered(ss: seq<System>, ls: seq<Label>, i: nat, a: nat, r: nat)
    returns (more: seq<Label>, states: seq<System>, s': System)
    requires IsRun(ss, ls) && a < |ls| && ls[a] == AcceptSubscriber(i) && Attached(ss[|ls|], i)
    requires ss[|ls|].conns[i].subscriber == r && InTable(ss[|ls|].nodes[r].slots, i)
    requires forall j :: 0 <= j < |ls| ==> !Resubscribes(ss[j], ls[j], r)
    requires var c := ss[|ls|].conns[i];
      |c.delivered| < |PublishedBy(ls[a + 1..], c.publisher, c.topic)|
    ensures IsRun(ss + states, ls + more) && (ss + states)[|ls + more|] == s' && Path(ss[|ls|], more, s', r)
    ensures var c := ss[|ls|].conns[i];
      var events := PublishedBy(ls[a + 1..], c.publisher, c.topic);
      i in s'.conns && s'.conns[i].delivered == c.delivered + [Copied(events[|c.delivered|].payload)]
  {
    hide Leads, Sound, Fresh, NoDouble, PassFed, Watched, Path, Resubscribes, Copied, PublishedBy;
    var k := |ls|;
    RunSound(ss, ls, k);
    RunTables(ss, ls, k);
    RunFresh(ss, ls, r, k);
    RunFed(ss, ls, r, k);
    NoResubscriptionCovers(ss, ls, r, k);
    FreshIsSingle(ss[k], r);
    more, states, s' := NextIsDelivered(ss, ls, i, a, r);
  }

  /* ---- What poll can see ---- */

  ghost predicate Marked(n: Node, i: int) {
    exists x :: 0 <= x < |n.slots| && n.slots[x] == Slot(i, true)
  }

  ghost predicate CanMark(s: System, r: nat, ready: set<nat>, i: nat) {
    Enabled(s, PollSlots(r, ready)) && Marked(Step(s, PollSlots(r, ready)).nodes[r], i)
  }

  lemma PollMarksExact(s: System, r: nat, ready: set<nat>, i: nat)
    requires TablesSound(s) && Enabled(s, PollSlots(r, ready))
    ensures Marked(Step(s, PollSlots(r, ready)).nodes[r], i)
       <==> exists x :: x in ready && x < Window(s.nodes[r]) && s.nodes[r].slots[x].fd == i
  {
    var n, n' := s.nodes[r], Step(s, PollSlots(r, ready)).nodes[r];
    assert TableSound(n) && n'.slots == Polled(n.slots, Window(n), ready);
    if Marked(n', i) {
      var x :| 0 <= x < |n'.slots| && n'.slots[x] == Slot(i, true);
      assert n.slots[x].fd == i && x in ready;
    }
    if x :| x in ready && x < Window(n) && n.slots[x].fd == i {
      assert n'.slots[x] == Slot(i, true);
    }
  }

  // The window is as long as the runtime has topics.
  lemma WindowExact(s: System, r: nat, i: nat)
    requires TablesSound(s) && r in s.nodes
    ensures |s.nodes[r].slots| == 1024
    ensures InWindow(s.nodes[r], i) <==>
      exists x :: 0 <= x < 1024 && x < |s.nodes[r].subscriptions| && s.nodes[r].slots[x].fd == i
  {
    assert TableSound(s.nodes[r]);
  }

  // Main result: whatever has happened before, the next poll can mark a connection exactly if it
  // has input and a slot in the window.
  lemma PollReachesExact(ss: seq<System>, ls: seq<Label>, k: nat, r: nat, i: nat)
    requires IsRun(ss, ls) && k <= |ls| && r in ss[k].nodes && ss[k].nodes[r].phase.Polling?
    ensures (exists ready :: CanMark(ss[k], r, ready, i)) <==> HasInput(ss[k], i) && InWindow(ss[k].nodes[r], i)
  {
    hide Leads, TableSound, HasInput, Step;
    RunTables(ss, ls, k);
    var s, n := ss[k], ss[k].nodes[r];
    if ready :| CanMark(s, r, ready, i) {
      PollMarksExact(s, r, ready, i);
    }
    if HasInput(s, i) && InWindow(n, i) {
      var x: nat :| 0 <= x < Window(n) && x < |n.slots| && n.slots[x].fd == i;
      PollMarksExact(s, r, {x}, i);
      assert CanMark(s, r, {x}, i);
    }
  }

  // What has been read over a connection.
  ghost predicate SameReads(c: Conn, c': Conn) {
    c'.stage == c.stage && c'.subscriber == c.subscriber && c'.taken == c.taken
    && c'.delivered == c.delivered && c'.strays == c.strays
  }

  lemma RequestsReadNothing(s: System, l: Label, s': System, i: nat)
    requires Leads(s, l, s') && !l.Publish? && !l.Visit? && i in s.conns && s.conns[i].stage == Subscribed
    ensures i in s'.conns && SameReads(s.conns[i], s'.conns[i])
  {
    hide Encode, Decode, Answer, Update, Judge, Admitted, Published, ReplyBody, Installed, Polled;
  }

  lemma OthersReadNothing(s: System, l: Label, s': System, i: nat)
    requires Leads(s, l, s') && !ReadsFrom(s, l, i) && i in s.conns && s.conns[i].stage == Subscribed
    ensures i in s'.conns && SameReads(s.conns[i], s'.conns[i])
  {
    hide Leads;
    if l.Publish? {
      PublishKeeps(s, l, s');
    } else if l.Visit? {
      VisitChanges(s, l, s');
    } else {
      RequestsReadNothing(s, l, s', i);
    }
  }

  lemma ReadIsInWindow(s: System, l: Label, r: nat, i: nat)
    requires Sound(s) && TablesSound(s) && ReadsFrom(s, l, i) && i in s.conns && s.conns[i].subscriber == r
    ensures l.node == r && InWindow(s.nodes[r], i)
  {
    hide Sound, InTable;
    CurrentInTable(s.nodes[l.node]);
    InTableSubscribed(s, l.node, i);
    assert TableSound(s.nodes[r]);
    var x := s.nodes[r].phase.next;
    assert s.nodes[r].slots[x].fd == i;
  }

  // Main result: and as long as it has no slot in the window, nothing is read over it, in any run.
  lemma {:induction false} OutsideStaysUnread(ss: seq<System>, ls: seq<Label>, r: nat, i: nat, j: nat, k: nat)
    requires IsRun(ss, ls) && j <= k <= |ls|
    requires i in ss[j].conns && ss[j].conns[i].stage == Subscribed && ss[j].conns[i].subscriber == r
    requires forall m :: j <= m < k && r in ss[m].nodes ==> !InWindow(ss[m].nodes[r], i)
    ensures i in ss[k].conns && SameReads(ss[j].conns[i], ss[k].conns[i])
  {
    hide Leads, Sound, TablesSound, InWindow;
    if j < k {
      OutsideStaysUnread(ss, ls, r, i, j, k - 1);
      RunSound(ss, ls, k - 1);
      RunTables(ss, ls, k - 1);
      if ReadsFrom(ss[k - 1], ls[k - 1], i) {
        ReadIsInWindow(ss[k - 1], ls[k - 1], r, i);
        assert false;
      }
      OthersReadNothing(ss[k - 1], ls[k - 1], ss[k], i);
    }
  }
}
