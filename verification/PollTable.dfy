// The table a control loop hands to poll(), in the master and in the event thread of a runtime: a
// fixed number of slots, filled lowest first and freed anywhere.
module PollTable {
  import opened Common

  const MAX_CONNECTIONS: nat := 1024

  // One entry of the poll table; readable is the POLLIN bit left in revents by the last poll
  // that covered the entry.
  datatype Slot = Slot(fd: int, readable: bool)

  const FREE := Slot(-1, false)

  function EmptyTable(): (slots: seq<Slot>)
    ensures |slots| == MAX_CONNECTIONS && forall i :: 0 <= i < |slots| ==> slots[i] == FREE
  {
    seq(MAX_CONNECTIONS, i => FREE)
  }

  // The loop "for i: if poll_fd_list[i].fd == fd { ...; break }".
  function FirstSlot(slots: seq<Slot>, fd: int): (i: nat)
    ensures i <= |slots|
    ensures i < |slots| ==> slots[i].fd == fd
    ensures forall j :: 0 <= j < i ==> slots[j].fd != fd
  {
    if |slots| == 0 || slots[0].fd == fd then 0
    else
      var k := FirstSlot(slots[1..], fd);
      assert forall j :: 0 < j < k + 1 ==> slots[j] == slots[1..][j - 1];
      k + 1
  }

  function ClearSlot(slots: seq<Slot>, fd: int): (r: seq<Slot>) {
    var i := FirstSlot(slots, fd);
    if i < |slots| then slots[i := slots[i].(fd := -1)] else slots
  }

  // poll() writes revents only for the first window entries, and reports nothing for free ones.
  function Polled(slots: seq<Slot>, window: nat, ready: set<nat>): (r: seq<Slot>) {
    seq(|slots|, i requires 0 <= i < |slots| =>
      if i < window then slots[i].(readable := i in ready && slots[i].fd >= 0) else slots[i])
  }

  // A new descriptor goes into the lowest free slot; a full table drops it silently.
  function Installed(slots: seq<Slot>, fd: nat): (r: seq<Slot>) {
    var i := FirstSlot(slots, -1);
    if i == |slots| then slots else slots[i := Slot(fd, false)]
  }

  // The number of entries poll() is told to look at, when it is given count.
  function Covered(count: nat): (window: nat)
    ensures window <= MAX_CONNECTIONS
  {
    if count < MAX_CONNECTIONS then count else MAX_CONNECTIONS
  }

  // Every occupied slot is among the first window.
  ghost predicate AllBelow(slots: seq<Slot>, window: nat) {
    forall i :: 0 <= i < |slots| && slots[i].fd != -1 ==> i < window
  }

  // Occupied slots hold distinct descriptors.
  ghost predicate SlotsDistinct(slots: seq<Slot>) {
    forall i, j :: 0 <= i < j < |slots| && slots[i].fd >= 0 ==> slots[i].fd != slots[j].fd
  }

  ghost predicate InTable(slots: seq<Slot>, fd: int) {
    exists i :: 0 <= i < |slots| && slots[i].fd == fd
  }

  // A table with these descriptors in front.
  function Table(front: seq<int>): (slots: seq<Slot>)
    requires |front| <= MAX_CONNECTIONS
    ensures |slots| == MAX_CONNECTIONS
    ensures forall i :: 0 <= i < |slots| ==> slots[i] == Slot(if i < |front| then front[i] else -1, false)
  {
    seq(MAX_CONNECTIONS, i => Slot(if 0 <= i < |front| then front[i] else -1, false))
  }

  lemma InstalledNext(front: seq<int>, fd: nat)
    requires |front| < MAX_CONNECTIONS && -1 !in front
    ensures Installed(Table(front), fd) == Table(front + [fd])
  {
    var slots := Table(front);
    assert FirstSlot(slots, -1) == |front| by {
      assert forall i :: 0 <= i < |front| ==> slots[i].fd == front[i] && front[i] in front;
      assert slots[|front|].fd == -1;
    }
  }
}
