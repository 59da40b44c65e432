// From a subscription to its events: the event thread takes every new subscription in, and so
// whatever is owed to a subscription can be delivered, wherever its connection is.
module EventArrival {
  import opened Common
  import opened Directory
  import opened PollTable
  import opened Framing
  import opened Payload
  import opened Runtime
  import opened EventSystem
  import opened EventInvariant
  import opened EventMembership
  import opened Delivery
  import opened EventThread
  import opened EventProgress

  /* ---- Nobody loses a slot ---- */

  // A process that has ended does not come back under its number while a connection knows it.
  lemma EndedStays(s: System, l: Label, s': System, i: nat)
    requires Leads(s, l, s') && i in s.conns && s.conns[i].publisher !in s.nodes
    ensures i in s'.conns && s'.conns[i].publisher == s.conns[i].publisher && s'.conns[i].publisher !in s'.nodes
  {
    StepKeepsConn(s, l, s', i);
    if l.Publish? {
      PublishKeeps(s, l, s');
      hide Leads;
    } else if l.Visit? {
      VisitChanges(s, l, s');
      hide Leads;
    } else {
      hide Update, Answer, Judge, Admitted, Decode, Encode, Published, ReplyBody, Installed, Polled, EmptyTable;
    }
  }

  lemma {:induction false} EndedForGood(ss: seq<System>, ls: seq<Label>, i: nat, j: nat, k: nat)
    requires IsRun(ss, ls) && j <= k <= |ls| && i in ss[j].conns && ss[j].conns[i].publisher !in ss[j].nodes
    ensures i in ss[k].conns && ss[k].conns[i].publisher !in ss[k].nodes
    decreases k - j
  {
    hide Leads;
    if j < k {
      EndedStays(ss[j], ls[j], ss[j + 1], i);
      EndedForGood(ss, ls, i, j + 1, k);
    }
  }

  // One slot for each topic: as long as there are not more topics than slots, a new one finds room.
  lemma WaitingHasRoom(s: System, r: nat)
    requires r in s.nodes && TableSound(s.nodes[r]) && s.nodes[r].waiting != [] && Fresh(s, r)
    requires |s.nodes[r].subscriptions| <= 1024
    ensures FirstSlot(s.nodes[r].slots, -1) < |s.nodes[r].slots|
  {
    var n := s.nodes[r];
    var f := FirstSlot(n.slots, -1);
    CountTopics(s.conns, n.subscriptions, n.waiting, n.slots, f);
    assert n.waiting[0] in n.waiting;
    hide Fresh, FreshTable;
    SmallerSet(TopicsBelow(s.conns, n.slots, f), n.subscriptions.Keys, n.waiting[0]);
  }

  // A runtime that never subscribes to a topic again and has a slot for each of its topics.
  ghost predicate Orderly(ss: seq<System>, ls: seq<Label>, r: nat) {
    && IsRun(ss, ls)
    && (forall j :: 0 <= j < |ls| ==> !Resubscribes(ss[j], ls[j], r))
    && (forall j :: 0 <= j < |ss| && r in ss[j].nodes ==> |ss[j].nodes[r].subscriptions| <= 1024)
  }

  lemma TableOf(s: System, r: nat)
    requires TablesSound(s) && r in s.nodes
    ensures TableSound(s.nodes[r])
  {
  }

  lemma AttachedIsPlaced(ss: seq<System>, ls: seq<Label>, r: nat, i: nat) returns (t: string)
    requires Orderly(ss, ls, r) && Attached(ss[|ls|], i) && ss[|ls|].conns[i].subscriber == r
    ensures SubscribedOver(ss[|ls|], r, t, i) && Placed(ss[|ls|].nodes[r], t, i)
  {
    hide Leads, Sound, TablesSound, Resubscribes, Fresh, Placed;
    t :| t in ss[|ls|].nodes[r].subscriptions && ss[|ls|].nodes[r].subscriptions[t].socket == i;
    SubscribedIsPlaced(ss, ls, r, t, i, |ls|);
    if h :| 0 <= h < |ls| && LosesSlot(ss[h], ls[h], r, t, i) {
      if ls[h].Visit? {
        EndedForGood(ss, ls, i, h, |ls|);
      } else {
        RunFresh(ss, ls, r, h);
        RunTables(ss, ls, h);
        TableOf(ss[h], r);
        WaitingHasRoom(ss[h], r);
      }
      assert false;
    }
  }

  /* ---- The way into the table ---- */

  function Rank(phase: Phase): nat {
    match phase
    case Polling => MAX_CONNECTIONS + 1
    case Visiting(next) => if next < MAX_CONNECTIONS then MAX_CONNECTIONS - next else 0
    case Draining => 0
  }

  lemma TakesFront(s: System, r: nat)
    requires TablesSound(s) && r in s.nodes && s.nodes[r].phase.Draining? && s.nodes[r].waiting != []
    ensures ThreadStep(s, Watch(r), Step(s, Watch(r)), r) && r in Step(s, Watch(r)).nodes
    ensures |Step(s, Watch(r)).nodes[r].waiting| < |s.nodes[r].waiting|
  {
    TableOf(s, r);
    assert s.nodes[r].waiting[0] in s.nodes[r].waiting;
    StepLeads(s, Watch(r));
  }

  // Nearer to the next drain, with the same queue.
  ghost predicate Nearer(s: System, s': System, r: nat) {
    && r in s.nodes && r in s'.nodes && s'.nodes[r].waiting == s.nodes[r].waiting
    && Rank(s'.nodes[r].phase) < Rank(s.nodes[r].phase)
  }

  lemma PollsAll(s: System, r: nat)
    requires r in s.nodes && s.nodes[r].phase.Polling?
    ensures var l := PollSlots(r, AllReady(s, r)); ThreadStep(s, l, Step(s, l), r) && Nearer(s, Step(s, l), r)
  {
    StepLeads(s, PollSlots(r, AllReady(s, r)));
  }

  lemma VisitIsNearer(s: System, l: Label, s': System, r: nat)
    requires ThreadStep(s, l, s', r) && l.Visit? && TableSound(s.nodes[r])
    ensures Nearer(s, s', r)
  {
    VisitTable(s, l, s');
    VisitChanges(s, l, s');
    hide Leads;
  }

  lemma VisitsNext(s: System, r: nat) returns (l: Label)
    requires Sound(s) && r in s.nodes && TableSound(s.nodes[r]) && PassFed(s, r) && s.nodes[r].phase.Visiting?
    ensures l != Watch(r) && Enabled(s, l) && ThreadStep(s, l, Step(s, l), r) && Nearer(s, Step(s, l), r)
  {
    hide Sound, Step, TableSound, Leads, Enabled;
    var junk := VisitProceeds(s, r);
    l := Visit(r, junk);
    StepLeads(s, l);
    VisitIsNearer(s, l, Step(s, l), r);
  }

  // The thread finishes its pass and then takes the front of the queue.
  lemma NextThreadStep(s: System, r: nat) returns (l: Label, s': System)
    requires Sound(s) && TablesSound(s) && PassFed(s, r) && r in s.nodes && s.nodes[r].waiting != []
    ensures ThreadStep(s, l, s', r) && r in s'.nodes
    ensures if l == Watch(r) then |s'.nodes[r].waiting| < |s.nodes[r].waiting| else Nearer(s, s', r)
  {
    TableOf(s, r);
    hide Sound, PassFed, TablesSound, TableSound, Step, Enabled, ThreadStep;
    match s.nodes[r].phase {
      case Draining =>
        l := Watch(r);
        TakesFront(s, r);
      case Polling =>
        l := PollSlots(r, AllReady(s, r));
        PollsAll(s, r);
      case Visiting(_) => l := VisitsNext(s, r);
    }
    s' := Step(s, l);
  }

  lemma WaitingIsOutside(s: System, r: nat, t: string, i: nat)
    requires Sound(s) && SubscribedOver(s, r, t, i) && t in s.nodes[r].waiting && Fresh(s, r)
    ensures !InTable(s.nodes[r].slots, i)
  {
    SocketTopic(s, r, t);
    hide Sound;
    var n := s.nodes[r];
    forall x | 0 <= x < |n.slots|
      ensures n.slots[x].fd != i
    {
      assert n.slots[x].fd != -1 ==> IsCurrent(s.conns, n.subscriptions, n.waiting, n.slots[x].fd);
    }
  }

  // After a step in which the topic has left the queue, the connection is in the table.
  lemma TurnHasCome(s: System, l: Label, s': System, r: nat, t: string, i: nat)
    requires TablesSound(s) && ThreadStep(s, l, s', r) && l == Watch(r) && SubscribedOver(s, r, t, i) && Fresh(s, r)
    requires |s.nodes[r].subscriptions| <= 1024
    requires t in s.nodes[r].waiting && t !in s'.nodes[r].waiting
    ensures InTable(s'.nodes[r].slots, i)
  {
    WatchKeepsTable(s, r, s');
    TableOf(s, r);
    WaitingHasRoom(s, r);
    hide Leads, TablesSound, Fresh;
    var n := s.nodes[r];
    assert n.waiting == [n.waiting[0]] + n.waiting[1..];
    assert s'.nodes[r].slots[FirstSlot(n.slots, -1)].fd == i;
  }

  // The state after a step of the thread that does not read from the connection.
  ghost predicate Unmoved(s: System, s': System, r: nat, i: nat) {
    && i in s.conns && i in s'.conns && s'.conns[i] == s.conns[i]
    && (Attached(s, i) ==> Attached(s', i))
    && r in s.nodes && r in s'.nodes && s'.nodes[r].subscriptions == s.nodes[r].subscriptions
  }

  lemma StepUnmoved(s: System, l: Label, s': System, r: nat, i: nat)
    requires ThreadStep(s, l, s', r) && Attached(s, i) && IsServed(s, i) && !InTable(s.nodes[r].slots, i)
    ensures Unmoved(s, s', r, i)
  {
    if ReadsFrom(s, l, i) {
      VisitTable(s, l, s');
      CurrentInTable(s.nodes[r]);
      assert false;
    }
    hide Leads, IsServed, Watched;
    ThreadStepKeeps(s, l, s', r);
    ThreadStepConn(s, l, s', r, i);
    AttachedStays(s, s', i);
  }

  lemma OrderlyStep(ss: seq<System>, ls: seq<Label>, r: nat, l: Label, s': System)
    requires Orderly(ss, ls, r) && ThreadStep(ss[|ls|], l, s', r)
    requires r in s'.nodes && s'.nodes[r].subscriptions == ss[|ls|].nodes[r].subscriptions
    ensures Orderly(ss + [s'], ls + [l], r)
  {
    hide Leads;
  }

  lemma EndIsSound(ss: seq<System>, ls: seq<Label>, r: nat)
    requires Orderly(ss, ls, r)
    ensures Sound(ss[|ls|]) && TablesSound(ss[|ls|]) && PassFed(ss[|ls|], r) && Fresh(ss[|ls|], r)
  {
    hide Leads, Sound, TablesSound, PassFed, Fresh, Resubscribes;
    RunSound(ss, ls, |ls|);
    RunTables(ss, ls, |ls|);
    RunFed(ss, ls, r, |ls|);
    RunFresh(ss, ls, r, |ls|);
  }

  lemma AttachedIsServed(ss: seq<System>, ls: seq<Label>, i: nat)
    requires IsRun(ss, ls) && Attached(ss[|ls|], i)
    ensures IsServed(ss[|ls|], i)
  {
    hide Leads, IsServed;
    AcceptedStaysServed(ss, ls, |ls|);
    assert Stands(ss[|ls|], i);
  }

  lemma {:induction false} ReachesTable(ss: seq<System>, ls: seq<Label>, r: nat, t: string, i: nat)
    returns (more: seq<Label>, s': System)
    requires Orderly(ss, ls, r) && Attached(ss[|ls|], i)
    requires SubscribedOver(ss[|ls|], r, t, i) && t in ss[|ls|].nodes[r].waiting
    ensures Path(ss[|ls|], more, s', r) && Unmoved(ss[|ls|], s', r, i) && InTable(s'.nodes[r].slots, i)
    decreases |ss[|ls|].nodes[r].waiting|, Rank(ss[|ls|].nodes[r].phase)
  {
    hide Leads, Sound, TablesSound, PassFed, Fresh, IsServed, Watched, Path, InTable, Rank, ThreadStep, Attached,
      Resubscribes;
    var s := ss[|ls|];
    EndIsSound(ss, ls, r);
    AttachedIsServed(ss, ls, i);
    var l, next := NextThreadStep(s, r);
    WaitingIsOutside(s, r, t, i);
    StepUnmoved(s, l, next, r, i);
    OneStep(s, l, next, r);
    more, s' := [l], next;
    if t !in next.nodes[r].waiting {
      TurnHasCome(s, l, next, r, t, i);
    } else {
      OrderlyStep(ss, ls, r, l, next);
      assert (ss + [next])[|ls + [l]|] == next;
      var rest: seq<Label>;
      rest, s' := ReachesTable(ss + [next], ls + [l], r, t, i);
      PathConcat(s, [l], next, rest, s', r);
      more := [l] + rest;
    }
  }

  /* ---- Whatever is owed can be delivered ---- */

  predicate OfThread(l: Label, r: nat) {
    l == Watch(r) || l == StartPoll(r) || (l.PollSlots? && l.node == r) || (l.Visit? && l.node == r)
  }

  lemma {:induction false} PathLabels(s: System, ls: seq<Label>, s': System, r: nat)
    requires Path(s, ls, s', r)
    ensures forall k :: 0 <= k < |ls| ==> OfThread(ls[k], r)
    decreases |ls|
  {
    hide Leads;
    if ls != [] {
      var next :| ThreadStep(s, ls[0], next, r) && Path(next, ls[1..], s', r);
      PathLabels(next, ls[1..], s', r);
      assert forall k :: 0 < k < |ls| ==> ls[k] == ls[1..][k - 1];
    }
  }

  lemma {:induction false} NothingPublished(ls: seq<Label>, more: seq<Label>, r: nat, node: nat, topic: string)
    requires forall k :: 0 <= k < |more| ==> OfThread(more[k], r)
    ensures PublishedBy(ls + more, node, topic) == PublishedBy(ls, node, topic)
  {
    if more == [] {
      assert ls + more == ls;
    } else {
      var before := more[..|more| - 1];
      assert (ls + more)[..|ls + more| - 1] == ls + before;
      NothingPublished(ls, before, r, node, topic);
    }
  }

  // The extended run has no resubscription either.
  lemma ExtendedRun(ss: seq<System>, ls: seq<Label>, r: nat, more: seq<Label>, states: seq<System>)
    requires Orderly(ss, ls, r) && IsRun(ss + states, ls + more)
    requires forall k :: 0 <= k < |more| ==> OfThread(more[k], r)
    ensures forall j :: 0 <= j < |ls + more| ==> !Resubscribes((ss + states)[j], (ls + more)[j], r)
  {
    hide Leads;
  }

  // Main result: in every run in which a runtime with at most 1024 topics never subscribes to a
  // topic again, whatever else happens and wherever its threads stand, the next event that is owed
  // to a subscription is delivered by some continuation in which only its event thread moves.
  lemma OwedIsDelivered(ss: seq<System>, ls: seq<Label>, i: nat, a: nat, r: nat)
    returns (more: seq<Label>, states: seq<System>, s': System)
    requires Orderly(ss, ls, r) && a < |ls| && ls[a] == AcceptSubscriber(i)
    requires Attached(ss[|ls|], i) && ss[|ls|].conns[i].subscriber == r
    requires var c := ss[|ls|].conns[i];
      |c.delivered| < |PublishedBy(ls[a + 1..], c.publisher, c.topic)|
    ensures IsRun(ss + states, ls + more) && (ss + states)[|ls + more|] == s' && Path(ss[|ls|], more, s', r)
    ensures var c := ss[|ls|].conns[i];
      var events := PublishedBy(ls[a + 1..], c.publisher, c.topic);
      i in s'.conns && s'.conns[i].delivered == c.delivered + [Copied(events[|c.delivered|].payload)]
  {
    hide Leads, Path, Resubscribes, Copied, PublishedBy, InTable, Watched;
    var s := ss[|ls|];
    var c := s.conns[i];
    var t := AttachedIsPlaced(ss, ls, r, i);
    if InTable(s.nodes[r].slots, i) {
      more, states, s' := FreshIsDelivered(ss, ls, i, a, r);
    } else {
      var start, mid := ReachesTable(ss, ls, r, t, i);
      var first := PathIsRun(ss, ls, start, mid, r);
      PathLabels(s, start, mid, r);
      ExtendedRun(ss, ls, r, start, first);
      NothingPublished(ls[a + 1..], start, r, c.publisher, c.topic);
      assert (ls + start)[a + 1..] == ls[a + 1..] + start;
      var rest, end;
      rest, end, s' := FreshIsDelivered(ss + first, ls + start, i, a, r);
      PathConcat(s, start, mid, rest, s', r);
      more, states := start + rest, first + end;
      assert ss + first + end == ss + states && ls + start + rest == ls + more;
    }
  }
}
