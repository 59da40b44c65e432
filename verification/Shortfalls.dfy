// Two runs that show where the conditions of the other modules are needed: poll can stop looking
// at a live participant although the control loop keeps up, and a control loop that is too slow
// ends the process.
module Shortfalls {
  import opened Common
  import opened Directory
  import opened PollTable
  import opened Registry
  import opened Machine
  import opened Slots
  import opened Timely

  ghost predicate RunTo(ms: seq<Machine>, ls: seq<Label>, m: Machine) {
    IsRun(ms, ls) && ms[0] == START && ms[|ls|] == m
  }

  ghost predicate Reachable(m: Machine) {
    exists ms: seq<Machine>, ls: seq<Label> :: RunTo(ms, ls, m)
  }

  // A run that keeps up, with so many ticks since the last new drain.
  ghost predicate RunInTime(ms: seq<Machine>, ls: seq<Label>, m: Machine, ticks: nat) {
    RunTo(ms, ls, m) && KeepsUp(ms, ls) && TicksSincePlaced(ls, |ls|) == ticks
  }

  ghost predicate ReachableInTime(m: Machine, ticks: nat) {
    exists ms: seq<Machine>, ls: seq<Label> :: RunInTime(ms, ls, m, ticks)
  }

  lemma StartReachable()
    ensures Reachable(START) && ReachableInTime(START, 0)
  {
    assert RunTo([START], [], START) && RunInTime([START], [], START, 0);
  }

  lemma ExtendedRun(ms: seq<Machine>, ls: seq<Label>, l: Label, m': Machine)
    requires IsRun(ms, ls) && Leads(ms[|ls|], l, m')
    ensures IsRun(ms + [m'], ls + [l])
  {
    hide Leads;
  }

  lemma {:induction false} TicksOfPrefix(ls: seq<Label>, l: Label, k: nat)
    requires k <= |ls|
    ensures TicksSincePlaced(ls + [l], k) == TicksSincePlaced(ls, k)
  {
    if k > 0 {
      TicksOfPrefix(ls, l, k - 1);
    }
  }

  lemma Onward(m: Machine, l: Label, m': Machine)
    requires Reachable(m) && Leads(m, l, m')
    ensures Reachable(m')
  {
    hide Leads;
    var ms, ls :| RunTo(ms, ls, m);
    ExtendedRun(ms, ls, l, m');
    assert RunTo(ms + [m'], ls + [l], m');
  }

  function NextTicks(l: Label, ticks: nat): nat {
    if l.Tick? then ticks + 1 else if l.UnlockNewQueue? then 0 else ticks
  }

  lemma OnwardInTime(m: Machine, ticks: nat, l: Label, m': Machine)
    requires ReachableInTime(m, ticks) && Leads(m, l, m')
    requires l.Tick? ==> m.registry.deadQueue == []
    requires l.LockDeadQueue? ==> ticks < SILENT_LIMIT
    ensures ReachableInTime(m', NextTicks(l, ticks))
  {
    hide Leads;
    var ms, ls :| RunInTime(ms, ls, m, ticks);
    ExtendedRun(ms, ls, l, m');
    forall k | 0 <= k <= |ls|
      ensures TicksSincePlaced(ls + [l], k) == TicksSincePlaced(ls, k)
    {
      TicksOfPrefix(ls, l, k);
    }
    assert KeepsUp(ms + [m'], ls + [l]);
    assert RunInTime(ms + [m'], ls + [l], m', NextTicks(l, ticks));
  }

  function Placed(m: Machine, name: string, i: nat): Machine
    requires name in m.registry.participants && i < |m.registry.slots|
  {
    m.(registry := m.registry.(
      newQueue := [], slots := m.registry.slots[i := Slot(m.registry.participants[name].socket, false)]))
  }

  // One turn of the control loop that finds nobody dead, one participant to place, and nothing
  // to read.
  lemma QuietTurn(m: Machine, ticks: nat, name: string, i: nat)
    requires ReachableInTime(m, ticks) && ticks < SILENT_LIMIT && m.phase.Sleeping?
    requires m.registry.deadQueue == [] && m.registry.newQueue == [name] && name in m.registry.participants
    requires i < |m.registry.slots| && m.registry.slots[i] == FREE
    requires forall j :: 0 <= j < i ==> m.registry.slots[j].fd != -1
    requires forall j :: 0 <= j < |m.registry.slots| ==> !m.registry.slots[j].readable
    ensures ReachableInTime(Placed(m, name, i), 0)
  {
    hide ReachableInTime;
    var m1 := m.(phase := DrainingDead);
    OnwardInTime(m, ticks, LockDeadQueue, m1);
    var m2 := m.(phase := DrainingNew);
    OnwardInTime(m1, ticks, LockNewQueue, m2);
    var placed := Placed(m, name, i);
    var m3 := placed.(phase := DrainingNew);
    assert PlaceFront(m.registry).Done? && PlaceFront(m.registry).registry == placed.registry;
    OnwardInTime(m2, ticks, Place, m3);
    var m4 := placed.(phase := Polling);
    OnwardInTime(m3, ticks, UnlockNewQueue, m4);
    assert Poll(placed.registry, {}) == placed.registry;
    OnwardInTime(m4, 0, PollSlots({}), placed);
  }

  const HERE := Address("10.0.0.1", 5101)

  function Greeting(name: string): Hello {
    Hello(name, HERE, API_VERSION)
  }

  function Entry(name: string, fd: nat, watchdog: uint8): Participant {
    Participant(name, Contact(HERE, HERE), fd, map[], map[], watchdog)
  }

  // A master that knows only a, on descriptor 1, and has not placed it.
  function Alone(watchdog: uint8, dead: seq<string>): Machine {
    Machine(INITIAL.(participants := map["a" := Entry("a", 1, watchdog)], sockets := map[1 := "a"],
                     newQueue := ["a"], deadQueue := dead),
            Sleeping, {1})
  }

  lemma JoinAlone()
    ensures Reachable(Alone(0, []))
  {
    hide Reachable, EmptyTable;
    StartReachable();
    Onward(START, Connect(1, HERE, Greeting("a")), Alone(0, []));
  }

  lemma TickAlone(watchdog: uint8, dead: seq<string>)
    requires watchdog < 0xff && Reachable(Alone(watchdog, dead))
    ensures Reachable(Alone(watchdog + 1, if watchdog + 1 >= SILENT_LIMIT then dead + ["a"] else dead))
  {
    hide Reachable, EmptyTable;
    var m := Alone(watchdog, dead);
    var m' := Alone(watchdog + 1, if watchdog + 1 >= SILENT_LIMIT then dead + ["a"] else dead);
    assert ["a"][1..] == [];
    assert Overdue(m.registry.participants, ["a"]) == if watchdog + 1 >= SILENT_LIMIT then ["a"] else [];
    assert Age(m.registry, ["a"]) == m'.registry;
    Onward(m, Label.Tick(["a"]), m');
  }

  lemma FourTicks()
    ensures Reachable(Alone(4, ["a", "a"]))
  {
    hide Reachable, Alone;
    assert [] + ["a"] == ["a"] && ["a"] + ["a"] == ["a", "a"];
    JoinAlone();
    TickAlone(0, []);
    TickAlone(1, []);
    TickAlone(2, []);
    TickAlone(3, ["a"]);
  }

  // Main result: four ticks without a turn of the control loop end the process, with one silent
  // participant.
  lemma SlowDrainEndsTheMaster() returns (m: Machine)
    ensures Reachable(m) && Enabled(m, Bury) && Step(m, Bury) == Halt(MissingKey)
  {
    hide Reachable, EmptyTable, ClearSlot;
    FourTicks();
    var queued := Alone(4, ["a", "a"]);
    var locked := queued.(phase := DrainingDead);
    Onward(queued, LockDeadQueue, locked);
    m := locked.(registry := BuryFront(locked.registry).registry);
    Onward(locked, Bury, m);
  }

  lemma NothingToClear(fd: nat)
    ensures ClearSlot(EmptyTable(), fd) == EmptyTable() && FirstSlot(EmptyTable(), -1) == 0
  {
  }

  lemma ThreeTicks()
    ensures Reachable(Alone(3, ["a"]))
  {
    hide Reachable, Alone;
    assert [] + ["a"] == ["a"];
    JoinAlone();
    TickAlone(0, []);
    TickAlone(1, []);
    TickAlone(2, []);
  }

  // Main result: and three ticks, if the participant has not got its slot: it is removed first, and
  // then not found.
  lemma LateSlotEndsTheMaster() returns (m: Machine)
    ensures Reachable(m) && Enabled(m, Place) && Step(m, Place) == Halt(MissingKey)
  {
    hide Reachable, EmptyTable;
    ThreeTicks();
    var queued := Alone(3, ["a"]);
    var locked := queued.(phase := DrainingDead);
    Onward(queued, LockDeadQueue, locked);
    NothingToClear(1);
    var buried := locked.(registry := BuryFront(locked.registry).registry);
    assert buried.registry.deadQueue == [] && buried.registry.newQueue == ["a"];
    Onward(locked, Bury, buried);
    m := buried.(phase := DrainingNew);
    Onward(buried, LockNewQueue, m);
  }

  // a placed and b, if known, on descriptor 2.
  function Joined(a: uint8, b: Option<uint8>, waiting: seq<string>, dead: seq<string>, slots: seq<Slot>): Machine {
    var one := map["a" := Entry("a", 1, a)];
    Machine(INITIAL.(
              participants := if b.Some? then one["b" := Entry("b", 2, b.value)] else one,
              sockets := if b.Some? then map[1 := "a", 2 := "b"] else map[1 := "a"],
              newQueue := waiting, deadQueue := dead, slots := slots),
            Sleeping, if b.Some? then {1, 2} else {1})
  }

  lemma PlaceFirst()
    ensures ReachableInTime(Joined(0, None, [], [], Table([1])), 0)
  {
    hide ReachableInTime, EmptyTable, Table;
    StartReachable();
    var m := Joined(0, None, ["a"], [], Table([]));
    assert m.registry.slots == INITIAL.slots;
    OnwardInTime(START, 0, Connect(1, HERE, Greeting("a")), m);
    QuietTurn(m, 0, "a", 0);
    assert Placed(m, "a", 0).registry.slots == Table([1]);
  }

  lemma TickFirst(a: uint8, ticks: nat)
    requires a < 2 && ReachableInTime(Joined(a, None, [], [], Table([1])), ticks)
    ensures ReachableInTime(Joined(a + 1, None, [], [], Table([1])), ticks + 1)
  {
    hide ReachableInTime, EmptyTable, Table;
    var m, m' := Joined(a, None, [], [], Table([1])), Joined(a + 1, None, [], [], Table([1]));
    assert ["a"][1..] == [];
    assert Overdue(m.registry.participants, ["a"]) == [];
    assert Age(m.registry, ["a"]) == m'.registry;
    OnwardInTime(m, ticks, Label.Tick(["a"]), m');
  }

  lemma PlaceSecond()
    requires ReachableInTime(Joined(2, None, [], [], Table([1])), 2)
    ensures ReachableInTime(Joined(2, Some(0), [], [], Table([1, 2])), 0)
  {
    hide ReachableInTime, EmptyTable, Table;
    var m := Joined(2, Some(0), ["b"], [], Table([1]));
    OnwardInTime(Joined(2, None, [], [], Table([1])), 2, Connect(2, HERE, Greeting("b")), m);
    QuietTurn(m, 2, "b", 1);
    assert Placed(m, "b", 1).registry.slots == Table([1, 2]);
  }

  lemma TickBoth()
    requires ReachableInTime(Joined(2, Some(0), [], [], Table([1, 2])), 0)
    ensures ReachableInTime(Joined(3, Some(1), [], ["a"], Table([1, 2])), 1)
  {
    hide ReachableInTime, EmptyTable, Table;
    var m, m' := Joined(2, Some(0), [], [], Table([1, 2])), Joined(3, Some(1), [], ["a"], Table([1, 2]));
    var ps, order := m.registry.participants, ["a", "b"];
    assert order[1..] == ["b"] && ["b"][1..] == [];
    assert Overdue(ps, ["b"]) == [];
    assert Overdue(ps, order) == ["a"] + [];
    assert Age(m.registry, order) == m'.registry;
    OnwardInTime(m, 0, Label.Tick(order), m');
  }

  // Main result: however promptly the control loop runs, it can come to poll too small a part of
  // the table.  Here b is the only participant left, and its slot is outside the window.
  lemma CoverageCanFail() returns (m: Machine, ticks: nat)
    ensures ReachableInTime(m, ticks) && m.registry.deadQueue == [] && m.registry.newQueue == []
    ensures m.registry.participants.Keys == {"b"} && !WindowCovers(m.registry)
  {
    hide ReachableInTime, EmptyTable, Table;
    PlaceFirst();
    TickFirst(0, 0);
    TickFirst(1, 1);
    PlaceSecond();
    TickBoth();
    var queued := Joined(3, Some(1), [], ["a"], Table([1, 2]));
    var locked := queued.(phase := DrainingDead);
    OnwardInTime(queued, 1, LockDeadQueue, locked);
    m, ticks := locked.(registry := BuryFront(locked.registry).registry), 1;
    OnwardInTime(locked, 1, Bury, m);
    assert m.registry.slots[1].fd == 2;
    assert m.registry.participants == map["b" := Entry("b", 2, 1)];
  }
}
