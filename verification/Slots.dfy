// The poll table: which descriptors it holds, when filling it can end the process, how far up
// it is filled, and which of it poll() looks at.
module Slots {
  import opened Common
  import opened Directory
  import opened PollTable
  import opened Registry
  import opened Machine
  import opened Consistency
  import opened DeadQueue

  // Occupied slots are of live participants, and the participants waiting for a slot are live,
  // wait once and have none.
  ghost predicate SlotsLive(slots: seq<Slot>, sockets: map<nat, string>) {
    forall i :: 0 <= i < |slots| ==> slots[i].fd == -1 || (slots[i].fd >= 0 && slots[i].fd in sockets)
  }

  ghost predicate QueueLive(r: Registry) {
    && Distinct(r.newQueue)
    && (forall n :: n in r.newQueue ==> n in r.participants && !InTable(r.slots, r.participants[n].socket))
  }

  ghost predicate SlotsConsistent(r: Registry) {
    SlotsDistinct(r.slots) && SlotsLive(r.slots, r.sockets) && QueueLive(r)
  }

  lemma ClearedSlots(slots: seq<Slot>, sockets: map<nat, string>, fd: nat)
    requires SlotsDistinct(slots) && SlotsLive(slots, sockets)
    ensures SlotsDistinct(ClearSlot(slots, fd))
    ensures SlotsLive(ClearSlot(slots, fd), sockets - {fd})
    ensures forall other :: !InTable(slots, other) && other != -1 ==> !InTable(ClearSlot(slots, fd), other)
  {
  }

  // Main result, one removal: it keeps the table consistent exactly if the participant that is
  // removed is not still waiting for its slot.
  lemma BuryKeepsSlotsExact(r: Registry)
    requires Consistent(r) && SlotsConsistent(r) && r.deadQueue != [] && r.deadQueue[0] in r.participants
    ensures SlotsConsistent(BuryFront(r).registry) <==> r.deadQueue[0] !in r.newQueue
  {
    var name, r' := r.deadQueue[0], BuryFront(r).registry;
    ClearedSlots(r.slots, r.sockets, r.participants[name].socket);
    assert r'.participants == r.participants - {name} && r'.newQueue == r.newQueue;
    if name in r.newQueue {
      assert name !in r'.participants;
    }
  }

  lemma AdmitKeepsSlots(r: Registry, fd: nat, peer: Address, hello: Hello)
    requires Consistent(r) && SlotsConsistent(r) && fd !in r.sockets
    ensures SlotsConsistent(Admit(r, fd, peer, hello).registry)
  {
    if hello.Hello? && hello.name !in r.participants {
      assert !InTable(r.slots, fd);
      assert hello.name !in r.newQueue;
      DistinctJoin(r.newQueue, [hello.name]);
    }
  }

  lemma PlaceKeepsSlots(r: Registry)
    requires Consistent(r) && SlotsConsistent(r) && r.newQueue != []
    ensures PlaceFront(r).Done? && SlotsConsistent(PlaceFront(r).registry)
  {
    hide TopicsAgree, MethodsAgree;
    var name, rest, i := r.newQueue[0], r.newQueue[1..], FirstSlot(r.slots, -1);
    assert name in r.participants;
    assert r.newQueue == [name] + rest;
    DistinctSplit([name], rest);
    forall n | n in rest
      ensures r.participants[n].socket != r.participants[name].socket
    {
      assert n in r.newQueue;
      assert r.sockets[r.participants[n].socket] == n && r.sockets[r.participants[name].socket] == name;
    }
  }

  lemma HandleKeepsSlots(r: Registry, fd: nat, frame: ControlFrame)
    requires SlotsConsistent(r) && Handle(r, fd, frame).Done?
    ensures SlotsConsistent(Handle(r, fd, frame).registry)
  {
    var r' := Handle(r, fd, frame).registry;
    assert forall n :: n in r.participants ==> r'.participants[n].socket == r.participants[n].socket;
  }

  lemma VisitKeepsSlots(r: Registry, i: nat, input: Input)
    requires SlotsConsistent(r) && i < |r.slots| && (input.NotReadable? <==> !Due(r, i)) && Visit(r, i, input).Done?
    ensures SlotsConsistent(Visit(r, i, input).registry)
  {
    if input.Received? { HandleKeepsSlots(r, r.slots[i].fd, input.frame); }
  }

  // A step keeps the table consistent unless it removes a participant that waits for its slot.
  lemma StepKeepsSlots(m: Machine, l: Label, m': Machine)
    requires Sound(m) && SlotsConsistent(m.registry) && Leads(m, l, m')
    requires l.Bury? ==> m.registry.deadQueue[0] !in m.registry.newQueue
    ensures SlotsConsistent(m'.registry)
  {
    hide Consistent, Handle;
    match l
    case Connect(fd, peer, hello) => AdmitKeepsSlots(m.registry, fd, peer, hello);
    case Bury => BuryKeepsSlotsExact(m.registry);
    case Place => PlaceKeepsSlots(m.registry);
    case VisitSlot(input) => VisitKeepsSlots(m.registry, m.phase.next, input);
    case _ =>
  }

  ghost predicate PlacedBeforeRemoved(ms: seq<Machine>, ls: seq<Label>)
    requires IsRun(ms, ls)
  {
    forall k :: 0 <= k < |ls| && ls[k].Bury? ==>
      Enabled(ms[k], Bury) && ms[k].registry.deadQueue[0] !in ms[k].registry.newQueue
  }

  // Main result: if every participant gets its slot before it is removed, occupied slots hold
  // distinct descriptors of live participants, in every reachable state.
  lemma {:induction false} RunKeepsSlots(ms: seq<Machine>, ls: seq<Label>, k: nat)
    requires IsRun(ms, ls) && ms[0] == START && PlacedBeforeRemoved(ms, ls) && k < |ms|
    ensures SlotsConsistent(ms[k].registry)
  {
    hide Leads, Sound;
    if k > 0 {
      RunKeepsSlots(ms, ls, k - 1);
      RunSound(ms, ls, k - 1);
      StepKeepsSlots(ms[k - 1], ls[k - 1], ms[k]);
    }
  }

  // Then the lookups the handlers do not check always succeed: only what the JSON library throws
  // at ends the process.
  lemma LookupsSucceedExact(m: Machine, l: Label)
    requires Sound(m) && SlotsConsistent(m.registry) && Enabled(m, l)
    requires l.Place? || l.VisitSlot?
    ensures Step(m, l).Halt? <==> l.VisitSlot? && l.input.Received? && Throws(m.registry, l.input.frame)
  {
    if l.Place? {
      PlaceKeepsSlots(m.registry);
    } else {
      var slot := m.registry.slots[m.phase.next];
      assert l.input.Received? ==> slot.fd in m.registry.sockets;
    }
  }

  /* ---- Filling the table ---- */

  function DrainNew(r: Registry): Outcome
    decreases |r.newQueue|
  {
    if r.newQueue == [] then Done(r, [])
    else
      var o := PlaceFront(r);
      if o.Abort? then o else DrainNew(o.registry)
  }

  function FreeSlots(slots: seq<Slot>): (n: nat)
    ensures n <= |slots|
    ensures n == 0 <==> FirstSlot(slots, -1) == |slots|
  {
    if slots == [] then 0 else (if slots[0].fd == -1 then 1 else 0) + FreeSlots(slots[1..])
  }

  lemma {:induction false} FillingUsesOne(slots: seq<Slot>, slot: Slot)
    requires FirstSlot(slots, -1) < |slots| && slot.fd != -1
    ensures FreeSlots(slots[FirstSlot(slots, -1) := slot]) == FreeSlots(slots) - 1
  {
    if slots[0].fd == -1 {
      assert slots[0 := slot][1..] == slots[1..];
    } else {
      FillingUsesOne(slots[1..], slot);
      assert slots[FirstSlot(slots, -1) := slot][1..] == slots[1..][FirstSlot(slots[1..], -1) := slot];
    }
  }

  // The descriptors in the table.
  ghost function Held(slots: seq<Slot>): set<int> {
    set i | 0 <= i < |slots| && slots[i].fd != -1 :: slots[i].fd
  }

  // The descriptors of the first n participants in the queue.
  ghost function Sockets(r: Registry, n: nat): set<int> {
    set i | 0 <= i < n && i < |r.newQueue| && r.newQueue[i] in r.participants
      :: r.participants[r.newQueue[i]].socket
  }

  lemma FillingHolds(slots: seq<Slot>, slot: Slot)
    requires FirstSlot(slots, -1) < |slots| && slot.fd != -1
    ensures Held(slots[FirstSlot(slots, -1) := slot]) == Held(slots) + {slot.fd}
  {
    var i := FirstSlot(slots, -1);
    var filled := slots[i := slot];
    assert filled[i].fd == slot.fd;
    assert forall j :: 0 <= j < |slots| && j != i ==> filled[j] == slots[j];
  }

  lemma NextSockets(r: Registry, r': Registry, n: nat)
    requires r.newQueue != [] && r.newQueue[0] in r.participants
    requires r'.newQueue == r.newQueue[1..] && r'.participants == r.participants
    ensures Sockets(r, n + 1) == {r.participants[r.newQueue[0]].socket} + Sockets(r', n)
  {
    var q, now, later := r.newQueue, Sockets(r, n + 1), Sockets(r', n);
    var first := r.participants[q[0]].socket;
    forall x | x in now
      ensures x in {first} + later
    {
      var j :| 0 <= j < n + 1 && j < |q| && q[j] in r.participants && r.participants[q[j]].socket == x;
      if j > 0 { assert r'.newQueue[j - 1] == q[j]; }
    }
    forall x | x in later
      ensures x in now
    {
      var j :| 0 <= j < n && j < |r'.newQueue| && r'.newQueue[j] in r.participants
        && r.participants[r'.newQueue[j]].socket == x;
      assert q[j + 1] == r'.newQueue[j];
    }
    assert first in now;
  }

  lemma PlacedHeld(r: Registry)
    requires r.newQueue != [] && r.newQueue[0] in r.participants && FreeSlots(r.slots) > 0
    ensures var r' := PlaceFront(r).registry;
      && FreeSlots(r'.slots) == FreeSlots(r.slots) - 1
      && Held(r'.slots) + Sockets(r', FreeSlots(r'.slots)) == Held(r.slots) + Sockets(r, FreeSlots(r.slots))
  {
    var slot := Slot(r.participants[r.newQueue[0]].socket, false);
    FillingUsesOne(r.slots, slot);
    FillingHolds(r.slots, slot);
    NextSockets(r, PlaceFront(r).registry, FreeSlots(r.slots) - 1);
  }

  // Main result: draining the new queue ends the process exactly if one of the names that still
  // find a free slot is absent; otherwise exactly the descriptors of those names enter the
  // table.  A name that finds the table full is dropped without a lookup.
  lemma {:induction false} DrainNewExact(r: Registry)
    ensures DrainNew(r).Done? <==>
      forall i :: 0 <= i < |r.newQueue| && i < FreeSlots(r.slots) ==> r.newQueue[i] in r.participants
    ensures DrainNew(r).Done? ==>
      && DrainNew(r).registry == r.(newQueue := [], slots := DrainNew(r).registry.slots)
      && Held(DrainNew(r).registry.slots) == Held(r.slots) + Sockets(r, FreeSlots(r.slots))
    decreases |r.newQueue|
  {
    if r.newQueue != [] {
      var q, i := r.newQueue, FirstSlot(r.slots, -1);
      if i == |r.slots| {
        DrainNewExact(PlaceFront(r).registry);
      } else if q[0] in r.participants {
        var r' := PlaceFront(r).registry;
        PlacedHeld(r);
        DrainNewExact(r');
        assert forall j :: 0 <= j < |q| - 1 ==> r'.newQueue[j] == q[j + 1];
        assert forall j :: 0 < j < |q| ==> q[j] == r'.newQueue[j - 1];
      }
    }
  }

  /* ---- How far up the table is filled ---- */

  function Occupied(slots: seq<Slot>): (n: nat)
    ensures n <= |slots|
  {
    if slots == [] then 0 else (if slots[0].fd == -1 then 0 else 1) + Occupied(slots[1..])
  }

  lemma {:induction false} PrefixOccupied(slots: seq<Slot>, i: nat)
    requires i <= |slots| && forall j :: 0 <= j < i ==> slots[j].fd != -1
    ensures i <= Occupied(slots)
  {
    if i > 0 {
      assert forall j :: 0 <= j < i - 1 ==> slots[1..][j] == slots[j + 1];
      PrefixOccupied(slots[1..], i - 1);
    }
  }

  // The largest number of slots occupied at the same time, up to state k.
  ghost function Peak(ms: seq<Machine>, k: nat): (peak: nat)
    requires k < |ms|
    ensures Occupied(ms[k].registry.slots) <= peak
  {
    var here := Occupied(ms[k].registry.slots);
    if k == 0 then here
    else
      var before := Peak(ms, k - 1);
      if here > before then here else before
  }

  ghost predicate Filled(m: Machine, i: nat) {
    i < |m.registry.slots| && m.registry.slots[i].fd != -1
  }

  lemma NotFilled(m: Machine, l: Label, m': Machine, i: nat)
    requires Leads(m, l, m') && !l.Place? && Filled(m', i)
    ensures Filled(m, i)
  {
    hide Overdue, ResetWatchdog, RegisterTopic, ProvideMethod, FindPublisher, FindProvider, List;
  }

  // A slot becomes occupied only as the lowest free one.
  lemma StepFillsLowest(m: Machine, l: Label, m': Machine, i: nat)
    requires Leads(m, l, m') && |m.registry.slots| == |m'.registry.slots|
    requires Filled(m', i) && !Filled(m, i)
    ensures forall j :: 0 <= j <= i ==> m'.registry.slots[j].fd != -1
  {
    hide Admit, Overdue, ResetWatchdog, RegisterTopic, ProvideMethod, FindPublisher, FindProvider, List;
    if !l.Place? {
      NotFilled(m, l, m', i);
      assert false;
    }
  }

  lemma FilledBelowPeak(ms: seq<Machine>, k: nat, i: nat)
    requires k < |ms| && i < |ms[k].registry.slots|
    requires forall j :: 0 <= j <= i ==> ms[k].registry.slots[j].fd != -1
    ensures i < Peak(ms, k)
  {
    PrefixOccupied(ms[k].registry.slots, i + 1);
  }

  // Main result: no slot at or above the peak is ever used.
  lemma {:induction false} SlotsStayBelowPeak(ms: seq<Machine>, ls: seq<Label>, k: nat, i: nat)
    requires IsRun(ms, ls) && ms[0] == START && k < |ms| && Filled(ms[k], i)
    ensures i < Peak(ms, k)
  {
    hide Leads;
    if k > 0 {
      RunSound(ms, ls, k - 1);
      RunSound(ms, ls, k);
      if Filled(ms[k - 1], i) {
        SlotsStayBelowPeak(ms, ls, k - 1, i);
      } else {
        StepFillsLowest(ms[k - 1], ls[k - 1], ms[k], i);
        FilledBelowPeak(ms, k, i);
      }
    }
  }

  ghost predicate WindowCovers(r: Registry) {
    AllBelow(r.slots, Window(r))
  }

  // So poll looks at every occupied slot as long as the number of participants has not fallen
  // below the peak.
  lemma WindowCoversAtPeak(ms: seq<Machine>, ls: seq<Label>, k: nat)
    requires IsRun(ms, ls) && ms[0] == START && k < |ms|
    requires Peak(ms, k) <= |ms[k].registry.participants|
    ensures WindowCovers(ms[k].registry)
  {
    RunSound(ms, ls, k);
    forall i | 0 <= i < |ms[k].registry.slots| && ms[k].registry.slots[i].fd != -1
      ensures i < Window(ms[k].registry)
    {
      SlotsStayBelowPeak(ms, ls, k, i);
    }
  }

  lemma ClearedExact(slots: seq<Slot>, fd: nat)
    requires SlotsDistinct(slots)
    ensures |ClearSlot(slots, fd)| == |slots|
    ensures forall i :: 0 <= i < |slots| ==>
      ClearSlot(slots, fd)[i].fd == if slots[i].fd == fd then -1 else slots[i].fd
  {
  }

  lemma RemovalChanges(r: Registry)
    requires Consistent(r) && SlotsDistinct(r.slots) && r.deadQueue != [] && r.deadQueue[0] in r.participants
    ensures var r', fd := BuryFront(r).registry, r.participants[r.deadQueue[0]].socket;
      && |r.participants| > 0 && |r'.participants| == |r.participants| - 1 && |r'.slots| == |r.slots| == MAX_CONNECTIONS
      && forall i :: 0 <= i < |r.slots| ==> r'.slots[i].fd == if r.slots[i].fd == fd then -1 else r.slots[i].fd
  {
    hide NamesAgree, TopicsAgree, MethodsAgree, ClearSlot;
    var name, r' := r.deadQueue[0], BuryFront(r).registry;
    assert name in r.participants.Keys;
    assert r'.participants.Keys == r.participants.Keys - {name};
    assert |r'.participants.Keys| == |r.participants.Keys| - 1;
    ClearedExact(r.slots, r.participants[name].socket);
  }

  lemma ShrinkExact(slots: seq<Slot>, slots': seq<Slot>, n: nat, fd: nat)
    requires AllBelow(slots, Covered(n)) && n > 0 && |slots'| == |slots| == MAX_CONNECTIONS
    requires forall i :: 0 <= i < |slots| ==> slots'[i].fd == if slots[i].fd == fd then -1 else slots[i].fd
    ensures AllBelow(slots', Covered(n - 1))
       <==> n > MAX_CONNECTIONS || slots[n - 1].fd == -1 || slots[n - 1].fd == fd
  {
    if n <= MAX_CONNECTIONS {
      assert slots'[n - 1].fd == if slots[n - 1].fd == fd then -1 else slots[n - 1].fd;
    }
  }

  // A removal shrinks the window by its last slot; that slot must be free by then.
  predicate LeavesCovered(r: Registry)
    requires r.deadQueue != []
  {
    |r.participants| > MAX_CONNECTIONS || |r.participants| == 0 || |r.slots| < |r.participants|
    || r.slots[|r.participants| - 1].fd == -1
    || (r.deadQueue[0] in r.participants
        && r.slots[|r.participants| - 1].fd == r.participants[r.deadQueue[0]].socket)
  }

  // Main result: a removal keeps every occupied slot in the window exactly if the last slot of the
  // window is free, or is that of the participant that is removed.
  lemma RemovalKeepsCoverageExact(r: Registry)
    requires Consistent(r) && SlotsDistinct(r.slots) && SlotsLive(r.slots, r.sockets) && WindowCovers(r)
    requires r.deadQueue != [] && r.deadQueue[0] in r.participants
    ensures WindowCovers(BuryFront(r).registry) <==> LeavesCovered(r)
  {
    var name, n := r.deadQueue[0], |r.participants|;
    RemovalChanges(r);
    hide Consistent, SlotsDistinct, SlotsLive, BuryFront;
    ShrinkExact(r.slots, BuryFront(r).registry.slots, n, r.participants[name].socket);
  }

  ghost function NamesBelow(slots: seq<Slot>, sockets: map<nat, string>, f: nat): set<string>
    requires f <= |slots|
  {
    set i | 0 <= i < f && slots[i].fd in sockets :: sockets[slots[i].fd]
  }

  // As many participants as occupied slots.
  lemma {:induction false} CountNames(r: Registry, f: nat)
    requires Consistent(r) && SlotsDistinct(r.slots) && SlotsLive(r.slots, r.sockets) && f <= |r.slots|
    requires forall i :: 0 <= i < f ==> r.slots[i].fd != -1
    ensures |NamesBelow(r.slots, r.sockets, f)| == f
    ensures forall n :: n in NamesBelow(r.slots, r.sockets, f) ==>
      n in r.participants && InTable(r.slots, r.participants[n].socket)
  {
    hide TopicsAgree, MethodsAgree;
    if f > 0 {
      CountNames(r, f - 1);
      var before, last := NamesBelow(r.slots, r.sockets, f - 1), r.sockets[r.slots[f - 1].fd];
      assert NamesBelow(r.slots, r.sockets, f) == before + {last};
      assert r.participants[last].socket == r.slots[f - 1].fd;
      forall i | 0 <= i < f - 1 && r.slots[i].fd in r.sockets
        ensures r.sockets[r.slots[i].fd] != last
      {
        assert r.participants[r.sockets[r.slots[i].fd]].socket == r.slots[i].fd;
      }
    }
  }

  // Whoever waits for a slot gets one in the window.
  lemma PlaceKeepsCoverage(r: Registry)
    requires Consistent(r) && SlotsConsistent(r) && WindowCovers(r) && r.newQueue != []
    ensures WindowCovers(PlaceFront(r).registry)
  {
    hide NamesAgree, TopicsAgree, MethodsAgree, SlotsDistinct, SlotsLive;
    var name, f := r.newQueue[0], FirstSlot(r.slots, -1);
    assert name in r.participants && !InTable(r.slots, r.participants[name].socket);
    CountNames(r, f);
    assert |r.slots| == MAX_CONNECTIONS;
    hide Consistent, SlotsConsistent;
    SmallerSet(NamesBelow(r.slots, r.sockets, f), r.participants.Keys, name);
    assert |r.participants.Keys| == |r.participants|;
  }

  lemma WiderWindow(r: Registry, r': Registry)
    requires r.participants.Keys <= r'.participants.Keys
    ensures Window(r) <= Window(r')
  {
    var more := r'.participants.Keys - r.participants.Keys;
    assert r'.participants.Keys == r.participants.Keys + more;
    assert |r'.participants.Keys| == |r.participants.Keys| + |more|;
  }

  lemma MoreParticipants(r: Registry, r': Registry)
    requires WindowCovers(r) && r.participants.Keys <= r'.participants.Keys && |r'.slots| == |r.slots|
    requires forall i :: 0 <= i < |r.slots| ==> r'.slots[i].fd == r.slots[i].fd || r'.slots[i].fd == -1
    ensures WindowCovers(r')
  {
    WiderWindow(r, r');
    hide Window;
  }

  // No other step takes a slot or removes a participant.
  lemma StepKeepsParticipants(m: Machine, l: Label, m': Machine)
    requires Leads(m, l, m') && !l.Bury? && !l.Place?
    ensures m.registry.participants.Keys <= m'.registry.participants.Keys
    ensures |m'.registry.slots| == |m.registry.slots|
    ensures forall i :: 0 <= i < |m.registry.slots| ==>
      m'.registry.slots[i].fd == m.registry.slots[i].fd || m'.registry.slots[i].fd == -1
  {
    hide ResetWatchdog, RegisterTopic, ProvideMethod, FindPublisher, FindProvider, List, Overdue;
  }

  lemma StepCoverageExact(m: Machine, l: Label, m': Machine)
    requires Sound(m) && SlotsConsistent(m.registry) && Leads(m, l, m') && WindowCovers(m.registry)
    ensures l.Bury? ==> m.registry.deadQueue != []
    ensures WindowCovers(m'.registry) <==> (l.Bury? ==> LeavesCovered(m.registry))
  {
    hide Consistent, WindowCovers, LeavesCovered, SlotsDistinct, SlotsLive, QueueLive;
    if l.Bury? {
      RemovalKeepsCoverageExact(m.registry);
    } else if l.Place? {
      PlaceKeepsCoverage(m.registry);
    } else {
      StepKeepsParticipants(m, l, m');
      hide Leads;
      MoreParticipants(m.registry, m'.registry);
    }
  }

  ghost predicate CoveredThroughout(ms: seq<Machine>) {
    forall k :: 0 <= k < |ms| ==> WindowCovers(ms[k].registry)
  }

  ghost predicate RemovalsLeaveCovered(ms: seq<Machine>, ls: seq<Label>)
    requires IsRun(ms, ls)
  {
    forall k :: 0 <= k < |ls| && ls[k].Bury? ==> ms[k].registry.deadQueue != [] && LeavesCovered(ms[k].registry)
  }

  lemma StartCovered()
    ensures WindowCovers(START.registry)
  {
  }

  lemma {:induction false} RemovalsKeepCoverage(ms: seq<Machine>, ls: seq<Label>, k: nat)
    requires IsRun(ms, ls) && ms[0] == START && k < |ms| && RemovalsLeaveCovered(ms, ls)
    requires forall j :: 0 <= j < |ms| ==> SlotsConsistent(ms[j].registry)
    ensures WindowCovers(ms[k].registry)
  {
    hide Leads, Sound, SlotsConsistent, WindowCovers, LeavesCovered;
    if k == 0 {
      StartCovered();
    } else {
      RemovalsKeepCoverage(ms, ls, k - 1);
      RunSound(ms, ls, k - 1);
      StepCoverageExact(ms[k - 1], ls[k - 1], ms[k]);
    }
  }

  // Main result: in a run with consistent slots, poll looks at every occupied slot in every state
  // exactly if each removal finds the last slot of the window free or its own.
  lemma CoverageExact(ms: seq<Machine>, ls: seq<Label>)
    requires IsRun(ms, ls) && ms[0] == START
    requires forall j :: 0 <= j < |ms| ==> SlotsConsistent(ms[j].registry)
    ensures CoveredThroughout(ms) <==> RemovalsLeaveCovered(ms, ls)
  {
    hide Leads, Sound, SlotsConsistent, WindowCovers, LeavesCovered;
    if CoveredThroughout(ms) {
      forall k | 0 <= k < |ls| && ls[k].Bury?
        ensures ms[k].registry.deadQueue != [] && LeavesCovered(ms[k].registry)
      {
        RunSound(ms, ls, k);
        StepCoverageExact(ms[k], ls[k], ms[k + 1]);
      }
    }
    if RemovalsLeaveCovered(ms, ls) {
      forall k | 0 <= k < |ms|
        ensures WindowCovers(ms[k].registry)
      {
        RemovalsKeepCoverage(ms, ls, k);
      }
    }
  }
}
