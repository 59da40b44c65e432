// The event thread of a runtime: which part of its poll table poll() looks at, when that is all of
// it, and that what is owed to a subscription can then be delivered.
module EventThread {
  import opened Common
  import opened Directory
  import opened PollTable
  import opened Framing
  import opened Payload
  import opened Runtime
  import opened EventSystem
  import opened EventInvariant
  import Delivery

  /* ---- What holds of every table ---- */

  // The unchecked lookup of a new subscription finds it, and poll marks nothing outside its
  // window, which never shrinks.
  ghost predicate TableSound(n: Node) {
    && |n.slots| == MAX_CONNECTIONS
    && (forall t :: t in n.waiting ==> t in n.subscriptions)
    && (forall x :: 0 <= x < |n.slots| && n.slots[x].readable ==> x < Window(n))
    && (n.phase.Visiting? ==> n.phase.next < MAX_CONNECTIONS)
  }

  ghost predicate TablesSound(s: System) {
    forall r :: r in s.nodes ==> TableSound(s.nodes[r])
  }

  lemma MoreSubscriptions(n: Node, t: string, sub: Subscription)
    ensures |n.subscriptions| <= |n.subscriptions[t := sub]|
    ensures Window(n) <= Covered(|n.subscriptions[t := sub]|)
  {
    assert n.subscriptions[t := sub].Keys == n.subscriptions.Keys + {t};
    if t !in n.subscriptions {
      assert |n.subscriptions.Keys + {t}| == |n.subscriptions.Keys| + 1;
    } else {
      assert n.subscriptions.Keys + {t} == n.subscriptions.Keys;
    }
  }

  // What every step but Watch makes of the table of a node: slots become free, the window grows.
  ghost predicate TableKept(n: Node, n': Node) {
    && |n'.slots| == |n.slots| && Window(n) <= Window(n')
    && (forall x :: 0 <= x < |n.slots| ==> n'.slots[x].fd == n.slots[x].fd || n'.slots[x].fd == -1)
  }

  // What a subscription that is refused or accepted makes of it.
  lemma FinishKeepsTable(s: System, r: nat, s': System)
    requires Leads(s, FinishSubscribe(r), s')
    ensures r in s.nodes && r in s'.nodes && TableKept(s.nodes[r], s'.nodes[r])
    ensures TableSound(s.nodes[r]) ==> TableSound(s'.nodes[r])
  {
    hide Decode, ReplyBody;
    var n := s.nodes[r];
    var c := s.conns[n.pending.conn];
    MoreSubscriptions(n, c.topic, Subscription(c.typeId, n.pending.publisher, n.pending.conn));
  }

  lemma WatchKeepsTable(s: System, r: nat, s': System)
    requires Leads(s, Watch(r), s')
    ensures r in s.nodes && r in s'.nodes
    ensures TableSound(s.nodes[r]) ==> TableSound(s'.nodes[r])
    ensures var n, n' := s.nodes[r], s'.nodes[r];
      && n.waiting != [] && n.waiting[0] in n.subscriptions
      && n' == n.(waiting := n.waiting[1..], slots := Installed(n.slots, n.subscriptions[n.waiting[0]].socket))
  {
  }

  lemma PollKeepsTable(s: System, l: Label, s': System)
    requires Leads(s, l, s') && (l.StartPoll? || l.PollSlots?)
    ensures l.node in s.nodes && l.node in s'.nodes && TableKept(s.nodes[l.node], s'.nodes[l.node])
    ensures TableSound(s.nodes[l.node]) ==> TableSound(s'.nodes[l.node])
  {
  }

  lemma VisitKeepsTable(s: System, l: Label, s': System)
    requires Leads(s, l, s') && l.Visit?
    ensures l.node in s.nodes && l.node in s'.nodes && TableKept(s.nodes[l.node], s'.nodes[l.node])
    ensures TableSound(s.nodes[l.node]) ==> TableSound(s'.nodes[l.node])
  {
    hide Read, Watched, Decode;
  }

  // The steps that touch the table, the subscriptions or the thread of a node.
  predicate Touches(l: Label, r: nat) {
    match l
    case FinishSubscribe(node) => node == r
    case Watch(node) => node == r
    case StartPoll(node) => node == r
    case PollSlots(node, _) => node == r
    case Visit(node, _) => node == r
    case _ => false
  }

  // Two nodes, or none before, with the same table, subscriptions and thread.
  ghost predicate SameTable(s: System, s': System, r: nat)
    requires r in s'.nodes
  {
    var n' := s'.nodes[r];
    if r in s.nodes then
      var n := s.nodes[r];
      n'.subscriptions == n.subscriptions && n'.waiting == n.waiting && n'.slots == n.slots && n'.phase == n.phase
    else
      n'.subscriptions == map[] && n'.waiting == [] && n'.slots == EmptyTable() && n'.phase == Draining
  }

  lemma RequestsKeepTable(s: System, l: Label, s': System, r: nat)
    requires Leads(s, l, s') && !l.Publish? && !Touches(l, r) && r in s'.nodes
    ensures SameTable(s, s', r)
  {
    hide Encode, Decode, Answer, Update, Judge, Admitted, Read, Watched, SlotsAfter, Published, ReplyBody, EmptyTable,
      Installed, Polled;
  }

  lemma OthersKeepTable(s: System, l: Label, s': System, r: nat)
    requires Leads(s, l, s') && !Touches(l, r) && r in s'.nodes
    ensures SameTable(s, s', r)
  {
    hide Leads;
    if l.Publish? {
      PublishKeeps(s, l, s');
    } else {
      RequestsKeepTable(s, l, s', r);
    }
  }

  lemma StepTable(s: System, l: Label, s': System, r: nat)
    requires Leads(s, l, s') && r in s'.nodes && TablesSound(s)
    ensures TableSound(s'.nodes[r])
    ensures l != Watch(r) && r in s.nodes ==> TableKept(s.nodes[r], s'.nodes[r])
    ensures l != Watch(r) && r !in s.nodes ==> s'.nodes[r].slots == EmptyTable()
  {
    hide Leads;
    if !Touches(l, r) {
      OthersKeepTable(s, l, s', r);
    } else {
      match l
      case FinishSubscribe(_) => FinishKeepsTable(s, r, s');
      case Watch(_) => WatchKeepsTable(s, r, s');
      case Visit(_, _) => VisitKeepsTable(s, l, s');
      case _ => PollKeepsTable(s, l, s');
    }
  }

  lemma {:induction false} RunTables(ss: seq<System>, ls: seq<Label>, k: nat)
    requires IsRun(ss, ls) && k <= |ls|
    ensures TablesSound(ss[k])
  {
    hide Leads, TableSound;
    if k > 0 {
      RunTables(ss, ls, k - 1);
      forall r | r in ss[k].nodes
        ensures TableSound(ss[k].nodes[r])
      {
        StepTable(ss[k - 1], ls[k - 1], ss[k], r);
      }
    }
  }

  // Main result: the event thread never fails to find a new subscription.
  lemma LookupNeverThrows(ss: seq<System>, ls: seq<Label>, k: nat, r: nat)
    requires IsRun(ss, ls) && k <= |ls| && r in ss[k].nodes
    requires ss[k].nodes[r].phase.Draining? && ss[k].nodes[r].waiting != []
    ensures Enabled(ss[k], Watch(r))
  {
    RunTables(ss, ls, k);
  }

  /* ---- Whether poll looks at every slot ---- */

  ghost predicate CoversAll(s: System, r: nat) {
    r in s.nodes ==> AllBelow(s.nodes[r].slots, Window(s.nodes[r]))
  }

  // The slot that the next new subscription gets is in the window, or there is none.
  predicate RoomInWindow(n: Node) {
    FirstSlot(n.slots, -1) == |n.slots| || FirstSlot(n.slots, -1) < Window(n)
  }

  lemma KeptCovers(n: Node, n': Node)
    requires AllBelow(n.slots, Window(n)) && TableKept(n, n')
    ensures AllBelow(n'.slots, Window(n'))
  {
    hide Window;
  }

  lemma InstalledCovers(slots: seq<Slot>, fd: nat, window: nat)
    requires AllBelow(slots, window)
    ensures AllBelow(Installed(slots, fd), window)
       <==> FirstSlot(slots, -1) == |slots| || FirstSlot(slots, -1) < window
  {
    var i := FirstSlot(slots, -1);
    assert i < |slots| ==> Installed(slots, fd)[i].fd == fd;
  }

  lemma EmptyCovers(window: nat)
    ensures AllBelow(EmptyTable(), window)
  {
  }

  lemma StepCovers(s: System, l: Label, s': System, r: nat)
    requires Leads(s, l, s') && TablesSound(s) && CoversAll(s, r)
    ensures CoversAll(s', r) <==> (l == Watch(r) ==> RoomInWindow(s.nodes[r]))
  {
    hide Leads, AllBelow, TableKept, TableSound;
    if l == Watch(r) {
      WatchKeepsTable(s, r, s');
      var n := s.nodes[r];
      InstalledCovers(n.slots, n.subscriptions[n.waiting[0]].socket, Window(n));
    } else if r in s'.nodes {
      StepTable(s, l, s', r);
      if r in s.nodes {
        KeptCovers(s.nodes[r], s'.nodes[r]);
      } else {
        EmptyCovers(Window(s'.nodes[r]));
      }
    }
  }

  lemma {:induction false} RoomKeepsCoverage(ss: seq<System>, ls: seq<Label>, r: nat, k: nat)
    requires IsRun(ss, ls) && k <= |ls|
    requires forall j :: 0 <= j < k && ls[j] == Watch(r) ==> r in ss[j].nodes && RoomInWindow(ss[j].nodes[r])
    ensures CoversAll(ss[k], r)
  {
    hide RoomInWindow, Leads;
    if k > 0 {
      RoomKeepsCoverage(ss, ls, r, k - 1);
      RunTables(ss, ls, k - 1);
      StepCovers(ss[k - 1], ls[k - 1], ss[k], r);
    }
  }

  // Main result: poll looks at every occupied slot of a runtime in all states of a run exactly if
  // every new subscription finds its slot in the window, which is as long as there are topics.
  lemma CoverageExact(ss: seq<System>, ls: seq<Label>, r: nat)
    requires IsRun(ss, ls)
    ensures (forall k :: 0 <= k < |ss| ==> CoversAll(ss[k], r))
       <==> (forall k :: 0 <= k < |ls| && ls[k] == Watch(r) ==> r in ss[k].nodes && RoomInWindow(ss[k].nodes[r]))
  {
    hide CoversAll, RoomInWindow, Leads;
    if forall k :: 0 <= k < |ss| ==> CoversAll(ss[k], r) {
      forall k | 0 <= k < |ls| && ls[k] == Watch(r)
        ensures r in ss[k].nodes && RoomInWindow(ss[k].nodes[r])
      {
        RunTables(ss, ls, k);
        WatchKeepsTable(ss[k], r, ss[k + 1]);
        StepCovers(ss[k], ls[k], ss[k + 1], r);
      }
    }
    if forall k :: 0 <= k < |ls| && ls[k] == Watch(r) ==> r in ss[k].nodes && RoomInWindow(ss[k].nodes[r]) {
      forall k | 0 <= k < |ss|
        ensures CoversAll(ss[k], r)
      {
        RoomKeepsCoverage(ss, ls, r, k);
      }
    }
  }

  /* ---- Runs in which nobody subscribes to a topic again ---- */

  // The connection in a slot is that of a subscription that does not wait for a slot.
  ghost predicate IsCurrent(conns: map<nat, Conn>, subs: map<string, Subscription>, waiting: seq<string>, fd: int) {
    fd in conns && conns[fd].topic in subs && subs[conns[fd].topic].socket == fd && conns[fd].topic !in waiting
  }

  // Every slot is that of a current subscription, in one slot only, and no topic waits twice.
  ghost predicate FreshTable(conns: map<nat, Conn>, subs: map<string, Subscription>, waiting: seq<string>,
                             slots: seq<Slot>)
  {
    && Distinct(waiting)
    && (forall x :: 0 <= x < |slots| && slots[x].fd != -1 ==> IsCurrent(conns, subs, waiting, slots[x].fd))
    && SlotsDistinct(slots)
  }

  ghost predicate Fresh(s: System, r: nat) {
    r in s.nodes ==>
      FreshTable(s.conns, s.nodes[r].subscriptions, s.nodes[r].waiting, s.nodes[r].slots)
  }

  ghost function TopicsBelow(conns: map<nat, Conn>, slots: seq<Slot>, f: nat): set<string>
    requires f <= |slots|
  {
    set x | 0 <= x < f && slots[x].fd in conns :: conns[slots[x].fd].topic
  }

  // As many topics as slots.
  lemma {:induction false} CountTopics(conns: map<nat, Conn>, subs: map<string, Subscription>, waiting: seq<string>,
                                       slots: seq<Slot>, f: nat)
    requires FreshTable(conns, subs, waiting, slots) && f <= |slots|
    requires forall x :: 0 <= x < f ==> slots[x].fd != -1
    ensures |TopicsBelow(conns, slots, f)| == f
    ensures TopicsBelow(conns, slots, f) <= subs.Keys
    ensures forall t :: t in waiting ==> t !in TopicsBelow(conns, slots, f)
  {
    if f > 0 {
      CountTopics(conns, subs, waiting, slots, f - 1);
      var before, last := TopicsBelow(conns, slots, f - 1), slots[f - 1].fd;
      assert IsCurrent(conns, subs, waiting, last);
      assert TopicsBelow(conns, slots, f) == before + {conns[last].topic};
      forall x | 0 <= x < f - 1 && slots[x].fd in conns
        ensures conns[slots[x].fd].topic != conns[last].topic
      {
        assert IsCurrent(conns, subs, waiting, slots[x].fd);
      }
    }
  }

  // Main result: the slot of a new subscription is outside the window only if some slot holds a
  // connection that is no longer, or twice, or again that of a topic: a topic has been subscribed
  // to again while an older connection still has its slot.
  lemma FreshHasRoom(s: System, r: nat)
    requires r in s.nodes && TableSound(s.nodes[r]) && s.nodes[r].waiting != [] && Fresh(s, r)
    ensures RoomInWindow(s.nodes[r])
  {
    var n := s.nodes[r];
    var f := FirstSlot(n.slots, -1);
    CountTopics(s.conns, n.subscriptions, n.waiting, n.slots, f);
    assert n.waiting[0] in n.waiting;
    hide Fresh, FreshTable;
    SmallerSet(TopicsBelow(s.conns, n.slots, f), n.subscriptions.Keys, n.waiting[0]);
  }

  // In this step a node subscribes to a topic that it already subscribes to.
  ghost predicate Resubscribes(s: System, l: Label, r: nat) {
    && l == FinishSubscribe(r) && r in s.nodes && s.nodes[r].pending.Contacting?
    && s.nodes[r].pending.conn in s.conns
    && s.conns[s.nodes[r].pending.conn].stage == Answered(OK)
    && s.conns[s.nodes[r].pending.conn].topic in s.nodes[r].subscriptions
  }

  // Slots become free, and connections keep their topics.
  lemma FreedFresh(conns: map<nat, Conn>, conns': map<nat, Conn>, subs: map<string, Subscription>,
                   waiting: seq<string>, slots: seq<Slot>, slots': seq<Slot>)
    requires FreshTable(conns, subs, waiting, slots) && |slots'| == |slots|
    requires forall x :: 0 <= x < |slots| ==> slots'[x].fd == slots[x].fd || slots'[x].fd == -1
    requires forall i :: i in conns ==> i in conns' && conns'[i].topic == conns[i].topic
    ensures FreshTable(conns', subs, waiting, slots')
  {
    forall x | 0 <= x < |slots'| && slots'[x].fd != -1
      ensures IsCurrent(conns', subs, waiting, slots'[x].fd)
    {
      assert IsCurrent(conns, subs, waiting, slots[x].fd);
    }
  }

  // The front of the queue gets a slot.
  lemma InstalledFresh(conns: map<nat, Conn>, subs: map<string, Subscription>, waiting: seq<string>,
                       slots: seq<Slot>, fd: nat)
    requires FreshTable(conns, subs, waiting, slots) && waiting != [] && waiting[0] in subs
    requires subs[waiting[0]].socket == fd && fd in conns && conns[fd].topic == waiting[0]
    ensures FreshTable(conns, subs, waiting[1..], Installed(slots, fd))
  {
    assert waiting == [waiting[0]] + waiting[1..];
    assert waiting[0] !in waiting[1..];
    assert IsCurrent(conns, subs, waiting[1..], fd);
    var slots' := Installed(slots, fd);
    forall x | 0 <= x < |slots| && slots[x].fd != -1
      ensures slots[x].fd != fd && IsCurrent(conns, subs, waiting[1..], slots[x].fd)
    {
      assert IsCurrent(conns, subs, waiting, slots[x].fd);
    }
    assert forall x :: 0 <= x < |slots'| ==> slots'[x].fd == slots[x].fd || slots'[x].fd == fd;
  }

  // A new topic comes to the queue.
  lemma QueuedFresh(conns: map<nat, Conn>, conns': map<nat, Conn>, subs: map<string, Subscription>,
                    waiting: seq<string>, slots: seq<Slot>, topic: string, sub: Subscription)
    requires FreshTable(conns, subs, waiting, slots) && topic !in subs && forall t :: t in waiting ==> t in subs
    requires forall i :: i in conns ==> i in conns' && conns'[i].topic == conns[i].topic
    ensures FreshTable(conns', subs[topic := sub], waiting + [topic], slots)
  {
    forall x | 0 <= x < |slots| && slots[x].fd != -1
      ensures IsCurrent(conns', subs[topic := sub], waiting + [topic], slots[x].fd)
    {
      assert IsCurrent(conns, subs, waiting, slots[x].fd);
    }
  }

  lemma SocketTopic(s: System, r: nat, t: string)
    requires Sound(s) && r in s.nodes && t in s.nodes[r].subscriptions
    ensures s.nodes[r].subscriptions[t].socket in s.conns
    ensures s.conns[s.nodes[r].subscriptions[t].socket].topic == t
  {
    hide ConnsSound, TornSound, ClientsSound, ThreadsSound;
    assert IsSubscription(s, r, t, s.nodes[r].subscriptions[t]);
  }

  lemma WatchFresh(s: System, r: nat, s': System)
    requires Sound(s) && Leads(s, Watch(r), s') && Fresh(s, r)
    ensures Fresh(s', r)
  {
    hide Sound, FreshTable, Installed;
    WatchKeepsTable(s, r, s');
    assert s'.conns == s.conns;
    hide Leads;
    var n := s.nodes[r];
    SocketTopic(s, r, n.waiting[0]);
    InstalledFresh(s.conns, n.subscriptions, n.waiting, n.slots, n.subscriptions[n.waiting[0]].socket);
  }

  // The subscriber takes the reply for an OK exactly if it is one.
  lemma FinishChanges(s: System, r: nat, s': System)
    requires Sound(s) && Leads(s, FinishSubscribe(r), s')
    ensures r in s.nodes && r in s'.nodes && s.nodes[r].pending.Contacting?
    ensures var n, n' := s.nodes[r], s'.nodes[r];
      var i := n.pending.conn;
      && i in s.conns && n'.slots == n.slots
      && if s.conns[i].stage == Answered(OK)
         then n'.waiting == n.waiting + [s.conns[i].topic]
           && n'.subscriptions ==
                n.subscriptions[s.conns[i].topic := Subscription(s.conns[i].typeId, n.pending.publisher, i)]
         else n'.waiting == n.waiting && n'.subscriptions == n.subscriptions
  {
    hide Sound, ConnSound, Decode, ReplyBody, LogOf;
    FinishAnswers(s, r, s');
  }

  lemma ConnTopics(s: System, l: Label, s': System)
    requires Leads(s, l, s')
    ensures forall i :: i in s.conns ==> i in s'.conns && s'.conns[i].topic == s.conns[i].topic
  {
    forall i | i in s.conns
      ensures i in s'.conns && s'.conns[i].topic == s.conns[i].topic
    {
      Delivery.StepKeepsConn(s, l, s', i);
    }
  }

  lemma FinishFresh(s: System, r: nat, s': System)
    requires Sound(s) && TablesSound(s) && Leads(s, FinishSubscribe(r), s') && Fresh(s, r)
    requires !Resubscribes(s, FinishSubscribe(r), r)
    ensures Fresh(s', r)
  {
    hide Sound, FreshTable, Leads;
    FinishChanges(s, r, s');
    ConnTopics(s, FinishSubscribe(r), s');
    var n := s.nodes[r];
    var c := s.conns[n.pending.conn];
    assert TableSound(n);
    if c.stage == Answered(OK) {
      QueuedFresh(s.conns, s'.conns, n.subscriptions, n.waiting, n.slots, c.topic,
                  Subscription(c.typeId, n.pending.publisher, n.pending.conn));
    } else {
      FreedFresh(s.conns, s'.conns, n.subscriptions, n.waiting, n.slots, n.slots);
    }
  }

  lemma PollChanges(s: System, l: Label, s': System)
    requires Leads(s, l, s') && (l.StartPoll? || l.PollSlots?)
    ensures l.node in s.nodes && l.node in s'.nodes
    ensures s'.nodes[l.node].subscriptions == s.nodes[l.node].subscriptions
    ensures s'.nodes[l.node].waiting == s.nodes[l.node].waiting
  {
  }

  lemma EmptyFresh(conns: map<nat, Conn>)
    ensures FreshTable(conns, map[], [], EmptyTable())
  {
  }

  lemma StepFresh(s: System, l: Label, s': System, r: nat)
    requires Sound(s) && TablesSound(s) && Leads(s, l, s') && Fresh(s, r) && !Resubscribes(s, l, r)
    ensures Fresh(s', r)
  {
    hide Leads, Sound, TableSound, Resubscribes, FreshTable, EmptyTable, Window;
    if l == Watch(r) {
      WatchFresh(s, r, s');
    } else if l == FinishSubscribe(r) {
      FinishFresh(s, r, s');
    } else if r in s'.nodes {
      ConnTopics(s, l, s');
      StepTable(s, l, s', r);
      if !Touches(l, r) {
        OthersKeepTable(s, l, s', r);
      } else if l.Visit? {
        VisitChanges(s, l, s');
      } else {
        PollChanges(s, l, s');
      }
      if r in s.nodes {
        var n, n' := s.nodes[r], s'.nodes[r];
        FreedFresh(s.conns, s'.conns, n.subscriptions, n.waiting, n.slots, n'.slots);
      } else {
        EmptyFresh(s'.conns);
      }
    }
  }

  lemma {:induction false} RunFresh(ss: seq<System>, ls: seq<Label>, r: nat, k: nat)
    requires IsRun(ss, ls) && k <= |ls|
    requires forall j :: 0 <= j < k ==> !Resubscribes(ss[j], ls[j], r)
    ensures Fresh(ss[k], r)
  {
    hide Leads, Sound, TablesSound, Resubscribes;
    if k > 0 {
      RunFresh(ss, ls, r, k - 1);
      RunSound(ss, ls, k - 1);
      RunTables(ss, ls, k - 1);
      StepFresh(ss[k - 1], ls[k - 1], ss[k], r);
    }
  }

  // Main result: in a run in which a runtime never subscribes to a topic again, poll looks at
  // every occupied slot in every state.
  lemma NoResubscriptionCovers(ss: seq<System>, ls: seq<Label>, r: nat, k: nat)
    requires IsRun(ss, ls) && k <= |ls|
    requires forall j :: 0 <= j < k ==> !Resubscribes(ss[j], ls[j], r)
    ensures CoversAll(ss[k], r)
  {
    hide Leads, Resubscribes, Fresh, RoomInWindow, CoversAll;
    forall j | 0 <= j < k && ls[j] == Watch(r)
      ensures r in ss[j].nodes && RoomInWindow(ss[j].nodes[r])
    {
      RunFresh(ss, ls, r, j);
      RunTables(ss, ls, j);
      WatchKeepsTable(ss[j], r, ss[j + 1]);
      FreshHasRoom(ss[j], r);
    }
    RoomKeepsCoverage(ss, ls, r, k);
  }

  /* ---- Whoever subscribes gets a slot ---- */

  ghost predicate SubscribedOver(s: System, r: nat, t: string, i: nat) {
    r in s.nodes && t in s.nodes[r].subscriptions && s.nodes[r].subscriptions[t].socket == i
  }

  // The topic waits for the event thread, or its connection is in the table.
  ghost predicate Placed(n: Node, t: string, i: nat) {
    t in n.waiting || InTable(n.slots, i)
  }

  // The ways to lose a place in the table, or never to get one: the event thread finds the end of
  // the stream, or the table full when the turn of the topic comes.
  ghost predicate LosesSlot(s: System, l: Label, r: nat, t: string, i: nat) {
    && SubscribedOver(s, r, t, i)
    && var n := s.nodes[r];
       || (l.Visit? && l.node == r && n.phase.Visiting? && n.phase.next < |n.slots| && n.slots[n.phase.next].fd == i
           && i in s.conns && s.conns[i].stream == [] && s.conns[i].publisher !in s.nodes)
       || (l == Watch(r) && n.waiting != [] && n.waiting[0] == t
           && forall x :: 0 <= x < |n.slots| ==> n.slots[x].fd != -1)
  }

  lemma VisitKeepsPlace(s: System, l: Label, s': System, r: nat, t: string, i: nat)
    requires Leads(s, l, s') && l.Visit? && l.node == r && SubscribedOver(s, r, t, i) && Placed(s.nodes[r], t, i)
    requires !LosesSlot(s, l, r, t, i)
    ensures r in s'.nodes && Placed(s'.nodes[r], t, i)
  {
    VisitExact(s, r, l.junk, s');
    VisitKeepsTable(s, l, s');
    VisitChanges(s, l, s');
    hide Leads;
    var n, n' := s.nodes[r], s'.nodes[r];
    if t !in n.waiting {
      var x :| 0 <= x < |n.slots| && n.slots[x].fd == i;
      assert n'.slots[x].fd == i;
    }
  }

  lemma WatchKeepsPlace(s: System, s': System, r: nat, t: string, i: nat)
    requires Leads(s, Watch(r), s') && SubscribedOver(s, r, t, i) && Placed(s.nodes[r], t, i)
    requires !LosesSlot(s, Watch(r), r, t, i)
    ensures r in s'.nodes && Placed(s'.nodes[r], t, i)
  {
    WatchKeepsTable(s, r, s');
    hide Leads;
    var n, n' := s.nodes[r], s'.nodes[r];
    assert n.waiting == [n.waiting[0]] + n.waiting[1..];
    if n.waiting[0] == t {
      var f := FirstSlot(n.slots, -1);
      assert f < |n.slots| && n'.slots[f].fd == i;
    } else if t !in n.waiting {
      var x :| 0 <= x < |n.slots| && n.slots[x].fd == i;
      assert n'.slots[x].fd == i;
    }
  }

  lemma PollKeepsPlace(s: System, l: Label, s': System, t: string, i: nat)
    requires Leads(s, l, s') && (l.StartPoll? || l.PollSlots?)
    requires SubscribedOver(s, l.node, t, i) && Placed(s.nodes[l.node], t, i)
    ensures l.node in s'.nodes && Placed(s'.nodes[l.node], t, i)
  {
    PollChanges(s, l, s');
    var n, n' := s.nodes[l.node], s'.nodes[l.node];
    if t !in n.waiting {
      var x :| 0 <= x < |n.slots| && n.slots[x].fd == i;
      assert n'.slots[x].fd == i;
    }
  }

  // A subscription over a connection starts in the queue.
  lemma SubscribedAfter(s: System, l: Label, s': System, r: nat, t: string, i: nat)
    requires Sound(s) && Leads(s, l, s') && SubscribedOver(s', r, t, i) && !SubscribedOver(s, r, t, i)
    ensures l == FinishSubscribe(r) && t in s'.nodes[r].waiting
  {
    hide Leads, Sound;
    if !Touches(l, r) {
      OthersKeepTable(s, l, s', r);
    } else {
      match l
      case FinishSubscribe(_) => FinishChanges(s, r, s');
      case Watch(_) => WatchKeepsTable(s, r, s');
      case Visit(_, _) => VisitChanges(s, l, s');
      case _ => PollChanges(s, l, s');
    }
  }

  lemma StepKeepsPlace(s: System, l: Label, s': System, r: nat, t: string, i: nat)
    requires Sound(s) && Leads(s, l, s') && SubscribedOver(s, r, t, i) && SubscribedOver(s', r, t, i)
    requires Placed(s.nodes[r], t, i) && !LosesSlot(s, l, r, t, i)
    ensures Placed(s'.nodes[r], t, i)
  {
    hide Leads, Sound, LosesSlot;
    if !Touches(l, r) {
      OthersKeepTable(s, l, s', r);
    } else {
      match l
      case FinishSubscribe(_) => FinishChanges(s, r, s');
      case Watch(_) => WatchKeepsPlace(s, s', r, t, i);
      case Visit(_, _) => VisitKeepsPlace(s, l, s', r, t, i);
      case _ => PollKeepsPlace(s, l, s', t, i);
    }
  }

  lemma QueuedIsPlaced(n: Node, t: string, i: nat)
    requires t in n.waiting
    ensures Placed(n, t, i)
  {
  }

  // Main result: in every run, every current subscription waits for its slot or has one, unless
  // the event thread has come to the end of its stream or its turn came at a full table.
  lemma {:induction false} SubscribedIsPlaced(ss: seq<System>, ls: seq<Label>, r: nat, t: string, i: nat, k: nat)
    requires IsRun(ss, ls) && k <= |ls| && SubscribedOver(ss[k], r, t, i)
    ensures Placed(ss[k].nodes[r], t, i) || exists h :: 0 <= h < k && LosesSlot(ss[h], ls[h], r, t, i)
  {
    hide Leads, Sound, LosesSlot, Placed;
    if k > 0 {
      var s, l, s' := ss[k - 1], ls[k - 1], ss[k];
      RunSound(ss, ls, k - 1);
      if SubscribedOver(s, r, t, i) {
        SubscribedIsPlaced(ss, ls, r, t, i, k - 1);
        if Placed(s.nodes[r], t, i) && !LosesSlot(s, l, r, t, i) {
          StepKeepsPlace(s, l, s', r, t, i);
        }
      } else {
        SubscribedAfter(s, l, s', r, t, i);
        QueuedIsPlaced(s'.nodes[r], t, i);
      }
    }
  }
}
