// The watchdog over whole runs: what the counter counts, who gets queued, who never does, and
// what happens to a participant poll does not look at.
module Watchdog {
  import opened Common
  import opened Directory
  import opened PollTable
  import opened Registry
  import opened Machine
  import opened Consistency
  import opened DeadQueue
  import opened Slots

  // The step processes a keep-alive from fd.
  ghost predicate Resets(m: Machine, l: Label, fd: nat) {
    l == VisitSlot(Received(KeepAlive)) && Visited(m) == fd
  }

  // The ticks among steps j..k since the last keep-alive from fd.
  ghost function SilentTicks(ms: seq<Machine>, ls: seq<Label>, fd: nat, j: nat, k: nat): nat
    requires IsRun(ms, ls) && j <= k <= |ls|
  {
    if j == k then 0
    else if ls[k - 1].Tick? then SilentTicks(ms, ls, fd, j, k - 1) + 1
    else if Resets(ms[k - 1], ls[k - 1], fd) then 0
    else SilentTicks(ms, ls, fd, j, k - 1)
  }

  ghost predicate Present(m: Machine, n: string, fd: nat) {
    n in m.registry.participants && m.registry.participants[n].socket == fd
  }

  ghost predicate PresentFrom(ms: seq<Machine>, n: string, fd: nat, j: nat, k: nat) {
    forall i :: j <= i <= k && i < |ms| ==> Present(ms[i], n, fd)
  }

  ghost function Counter(m: Machine, n: string): int {
    if n in m.registry.participants then m.registry.participants[n].watchdog else -1
  }

  // A connection that is accepted under a new name starts with a counter of zero, at the addresses
  // that its socket and its first frame give.
  lemma JoinStartsAtZero(m: Machine, fd: nat, peer: Address, hello: Hello, m': Machine)
    requires Sound(m) && Leads(m, Connect(fd, peer, hello), m')
    requires hello.Hello? && Reply(fd, Accepted) in Step(m, Connect(fd, peer, hello)).replies
    ensures Present(m', hello.name, fd) && Counter(m', hello.name) == 0
    ensures hello.name !in m.registry.participants
    ensures var contact := m'.registry.participants[hello.name].contact;
      contact.peer == peer && contact.listening == hello.listening
  {
  }

  lemma HandleCounter(r: Registry, fd: nat, frame: ControlFrame, n: string)
    requires NamesAgree(r.participants, r.sockets) && n in r.participants && Handle(r, fd, frame).Done?
    ensures Handle(r, fd, frame).registry.participants[n].watchdog
         == if frame.KeepAlive? && fd == r.participants[n].socket then 0 else r.participants[n].watchdog
    ensures Handle(r, fd, frame).registry.participants[n].socket == r.participants[n].socket
  {
  }

  lemma CounterStep(m: Machine, l: Label, m': Machine, n: string, fd: nat)
    requires Sound(m) && Leads(m, l, m') && Present(m, n, fd)
    requires l.Bury? ==> m.registry.deadQueue[0] != n
    ensures Present(m', n, fd)
    ensures Counter(m', n) == if l.Tick? then (Counter(m, n) + 1) % 0x100
                              else if Resets(m, l, fd) then 0
                              else Counter(m, n)
  {
    hide TopicsAgree, MethodsAgree, Handle;
    match l
    case VisitSlot(Received(frame)) => HandleCounter(m.registry, Visited(m), frame, n);
    case _ =>
  }

  lemma RemovedOnlyByBury(m: Machine, m': Machine, n: string)
    requires Sound(m) && Leads(m, Bury, m') && m.registry.deadQueue[0] == n
    ensures n !in m'.registry.participants
  {
  }

  lemma NextModulo(x: nat)
    ensures (x % 0x100 + 1) % 0x100 == (x + 1) % 0x100
  {
  }

  lemma BuryEnabled(m: Machine, l: Label, m': Machine)
    requires Leads(m, l, m')
    ensures l.Bury? ==> m.registry.deadQueue != []
    ensures l.Tick? ==>
      && Enumerates(l.order, m.registry.participants.Keys)
      && m'.registry.deadQueue == m.registry.deadQueue + Overdue(m.registry.participants, l.order)
  {
  }

  // Whoever is still present has not been removed.
  lemma KeptByBury(m: Machine, l: Label, m': Machine, n: string, fd: nat)
    requires Sound(m) && Leads(m, l, m') && Present(m', n, fd)
    ensures l.Bury? ==> m.registry.deadQueue != [] && m.registry.deadQueue[0] != n
  {
    hide Sound, Leads;
    BuryEnabled(m, l, m');
    if l.Bury? && m.registry.deadQueue[0] == n {
      RemovedOnlyByBury(m, m', n);
      assert false;
    }
  }

  // Main result: while a participant is present its counter is the number of ticks since it
  // joined or its last keep-alive was processed, modulo 256.
  lemma {:induction false} CounterCountsSilence(ms: seq<Machine>, ls: seq<Label>, n: string, fd: nat, j: nat, k: nat)
    requires IsRun(ms, ls) && ms[0] == START && j <= k <= |ls|
    requires PresentFrom(ms, n, fd, j, k) && Counter(ms[j], n) == 0
    ensures Counter(ms[k], n) == SilentTicks(ms, ls, fd, j, k) % 0x100
  {
    hide Sound, Leads, Counter, Resets, Present;
    if k > j {
      CounterCountsSilence(ms, ls, n, fd, j, k - 1);
      RunSound(ms, ls, k - 1);
      assert Present(ms[k - 1], n, fd) && Present(ms[k], n, fd);
      KeptByBury(ms[k - 1], ls[k - 1], ms[k], n, fd);
      CounterStep(ms[k - 1], ls[k - 1], ms[k], n, fd);
      NextModulo(SilentTicks(ms, ls, fd, j, k - 1));
    }
  }

  lemma TickQueues(m: Machine, l: Label, m': Machine, n: string)
    requires Leads(m, l, m') && l.Tick? && n in m.registry.participants
    ensures n in m'.registry.deadQueue
       <==> n in m.registry.deadQueue || (Counter(m, n) + 1) % 0x100 >= SILENT_LIMIT
  {
    BuryEnabled(m, l, m');
    OverdueExact(m.registry.participants, l.order);
    hide Leads;
  }

  // Main result: a tick queues a present participant exactly if, counting this one, at least
  // three ticks (modulo 256) have passed in silence; in particular at the third.
  lemma TickQueuesExact(ms: seq<Machine>, ls: seq<Label>, n: string, fd: nat, j: nat, k: nat)
    requires IsRun(ms, ls) && ms[0] == START && j <= k < |ls| && ls[k].Tick?
    requires PresentFrom(ms, n, fd, j, k) && Counter(ms[j], n) == 0
    ensures n in ms[k + 1].registry.deadQueue
       <==> n in ms[k].registry.deadQueue || (SilentTicks(ms, ls, fd, j, k) + 1) % 0x100 >= 3
    ensures SilentTicks(ms, ls, fd, j, k) == 2 ==> n in ms[k + 1].registry.deadQueue
  {
    hide Leads, Counter, SilentTicks;
    CounterCountsSilence(ms, ls, n, fd, j, k);
    assert Present(ms[k], n, fd);
    TickQueues(ms[k], ls[k], ms[k + 1], n);
  }

  // Whenever a tick comes, fewer than two have passed in silence: none is the third in a row.
  ghost predicate Prompt(ms: seq<Machine>, ls: seq<Label>, fd: nat, j: nat)
    requires IsRun(ms, ls) && j <= |ls|
  {
    forall k :: j <= k < |ls| && ls[k].Tick? ==> SilentTicks(ms, ls, fd, j, k) < SILENT_LIMIT - 1
  }

  lemma QueueOnlyGrowsAtTicks(m: Machine, l: Label, m': Machine, n: string)
    requires Leads(m, l, m') && !l.Tick? && n !in m.registry.deadQueue
    ensures n !in m'.registry.deadQueue
  {
  }

  lemma StaysPresent(m: Machine, l: Label, m': Machine, n: string, fd: nat)
    requires Sound(m) && Leads(m, l, m') && Present(m, n, fd) && n !in m.registry.deadQueue
    ensures Present(m', n, fd)
  {
    hide Sound, Leads;
    BuryEnabled(m, l, m');
    if l.Bury? {
      assert m.registry.deadQueue[0] in m.registry.deadQueue;
    }
    CounterStep(m, l, m', n, fd);
  }

  // Main result: a participant that never lets a third tick in a row pass in silence is never
  // queued and never removed, however the threads interleave.
  lemma {:induction false} PromptParticipantStays(ms: seq<Machine>, ls: seq<Label>, n: string, fd: nat, j: nat, k: nat)
    requires IsRun(ms, ls) && ms[0] == START && j <= k <= |ls| && Prompt(ms, ls, fd, j)
    requires Present(ms[j], n, fd) && Counter(ms[j], n) == 0 && n !in ms[j].registry.deadQueue
    ensures PresentFrom(ms, n, fd, j, k) && n !in ms[k].registry.deadQueue
  {
    hide Sound, Leads, Counter, SilentTicks;
    if k > j {
      PromptParticipantStays(ms, ls, n, fd, j, k - 1);
      var m, l, m' := ms[k - 1], ls[k - 1], ms[k];
      assert Present(m, n, fd);
      RunSound(ms, ls, k - 1);
      StaysPresent(m, l, m', n, fd);
      assert PresentFrom(ms, n, fd, j, k);
      if l.Tick? {
        assert SilentTicks(ms, ls, fd, j, k - 1) < SILENT_LIMIT - 1;
        TickQueuesExact(ms, ls, n, fd, j, k - 1);
      } else {
        QueueOnlyGrowsAtTicks(m, l, m', n);
      }
    }
  }

  /* ---- Slots outside the window ---- */

  // Poll does not look at slot i during steps j..k.
  ghost predicate OutsideWindow(ms: seq<Machine>, i: nat, j: nat, k: nat) {
    forall s :: j <= s <= k && s < |ms| ==> Window(ms[s].registry) <= i
  }

  lemma DeafStep(m: Machine, l: Label, m': Machine, i: nat, n: string, fd: nat)
    requires Sound(m) && SlotsDistinct(m.registry.slots) && Leads(m, l, m')
    requires i < |m.registry.slots| && m.registry.slots[i] == Slot(fd, false) && Window(m.registry) <= i
    requires Present(m, n, fd) && Present(m', n, fd)
    ensures !Resets(m, l, fd)
    ensures i < |m'.registry.slots| && m'.registry.slots[i] == Slot(fd, false)
  {
    hide TopicsAgree, MethodsAgree, Handle, Overdue;
    if l.Bury? && m.registry.deadQueue[0] == n {
      RemovedOnlyByBury(m, m', n);
      assert false;
    }
  }

  ghost function Ticks(ls: seq<Label>, j: nat, k: nat): nat
    requires j <= k <= |ls|
  {
    if j == k then 0 else Ticks(ls, j, k - 1) + if ls[k - 1].Tick? then 1 else 0
  }

  lemma {:induction false} UncoveredSlotStaysDeaf(
    ms: seq<Machine>, ls: seq<Label>, i: nat, n: string, fd: nat, j: nat, u: nat, k: nat)
    requires IsRun(ms, ls) && ms[0] == START && PlacedBeforeRemoved(ms, ls) && j <= u <= k <= |ls|
    requires OutsideWindow(ms, i, u, k) && PresentFrom(ms, n, fd, j, k)
    requires i < |ms[u].registry.slots| && ms[u].registry.slots[i] == Slot(fd, false)
    ensures i < |ms[k].registry.slots| && ms[k].registry.slots[i] == Slot(fd, false)
    ensures SilentTicks(ms, ls, fd, j, k) == SilentTicks(ms, ls, fd, j, u) + Ticks(ls, u, k)
  {
    hide Sound, Leads;
    if k > u {
      UncoveredSlotStaysDeaf(ms, ls, i, n, fd, j, u, k - 1);
      RunSound(ms, ls, k - 1);
      RunKeepsSlots(ms, ls, k - 1);
      assert Present(ms[k - 1], n, fd) && Present(ms[k], n, fd);
      DeafStep(ms[k - 1], ls[k - 1], ms[k], i, n, fd);
    }
  }

  // Main result: once a participant sits in a slot outside the window and is not marked
  // readable, nothing it sends is processed, and it is queued for removal at the third tick
  // since its last keep-alive that was.
  lemma UncoveredParticipantIsQueued(
    ms: seq<Machine>, ls: seq<Label>, i: nat, n: string, fd: nat, j: nat, u: nat, k: nat)
    requires IsRun(ms, ls) && ms[0] == START && PlacedBeforeRemoved(ms, ls) && j <= u <= k < |ls|
    requires PresentFrom(ms, n, fd, j, k) && Counter(ms[j], n) == 0
    requires i < |ms[u].registry.slots| && ms[u].registry.slots[i] == Slot(fd, false)
    requires OutsideWindow(ms, i, u, k)
    requires SilentTicks(ms, ls, fd, j, u) + Ticks(ls, u, k) == SILENT_LIMIT - 1 && ls[k].Tick?
    ensures n in ms[k + 1].registry.deadQueue
  {
    UncoveredSlotStaysDeaf(ms, ls, i, n, fd, j, u, k);
    TickQueuesExact(ms, ls, n, fd, j, k);
  }
}
