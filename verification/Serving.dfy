// The control loop serves everybody: poll marks what it is told, a pass over the table visits every
// marked slot, and whoever joins gets a slot.
module Serving {
  import opened Common
  import opened Directory
  import opened PollTable
  import opened Registry
  import opened Machine
  import opened Consistency
  import opened Watchdog

  /* ---- One poll, one visit ---- */

  predicate Occupied(m: Machine, i: nat) {
    i < |m.registry.slots| && m.registry.slots[i].fd >= 0
  }

  predicate Marked(m: Machine, i: nat) {
    Occupied(m, i) && m.registry.slots[i].readable
  }

  // What poll() is told to look at.
  predicate Looked(m: Machine, i: nat) {
    i < 1024 && i < |m.registry.participants|
  }

  // Main result: a poll marks exactly the occupied slots it looks at that are ready, leaves the bits
  // of the others, and a pass over the table follows exactly if it has marked one.
  lemma PollExact(m: Machine, ready: set<nat>, m': Machine)
    requires Leads(m, PollSlots(ready), m')
    ensures m'.registry == m.registry.(slots := m'.registry.slots) && |m'.registry.slots| == |m.registry.slots|
    ensures forall i :: 0 <= i < |m.registry.slots| ==>
      && m'.registry.slots[i].fd == m.registry.slots[i].fd
      && (m'.registry.slots[i].readable <==>
            if Looked(m, i) then i in ready && Occupied(m, i) else m.registry.slots[i].readable)
    ensures (exists i :: i in ready && Looked(m, i) && Occupied(m, i)) ==> m'.phase == Phase.Serving(0)
    ensures !(exists i :: i in ready && Looked(m, i) && Occupied(m, i)) ==> m'.phase == Sleeping
  {
    var slots := m'.registry.slots;
    if i :| i in ready && Looked(m, i) && Occupied(m, i) {
      assert slots[i].readable;
    }
  }

  // Main result: a visit reads exactly if the slot is marked; it frees the slot if the peer has
  // closed, and no other; and the loop goes on to the next slot, or to sleep after the last.
  lemma VisitExact(m: Machine, input: Input, m': Machine)
    requires Leads(m, VisitSlot(input), m')
    ensures m.phase.Serving? && m.phase.next < |m.registry.slots|
    ensures input.NotReadable? <==> !Marked(m, m.phase.next)
    ensures input.NotReadable? || input.Truncated? ==> m'.registry == m.registry
    ensures input.PeerClosed? ==>
      var i := m.phase.next;
      m'.registry == m.registry.(slots := m.registry.slots[i := Slot(-1, m.registry.slots[i].readable)])
    ensures input.Received? ==> m'.registry.slots == m.registry.slots
    ensures m'.phase ==
      if m.phase.next + 1 < |m.registry.slots| then Phase.Serving(m.phase.next + 1) else Sleeping
  {
  }

  // In the middle of a pass nothing but a visit moves the loop or changes the table.
  lemma PassStep(m: Machine, l: Label, m': Machine)
    requires Leads(m, l, m') && m.phase.Serving? && !l.VisitSlot?
    ensures m'.phase == m.phase && m'.registry.slots == m.registry.slots
  {
  }

  /* ---- A pass ---- */

  // The steps j..k are in one pass.
  ghost predicate InPass(ms: seq<Machine>, j: nat, k: nat) {
    forall h :: j <= h < k && h < |ms| ==> ms[h].phase.Serving?
  }

  ghost predicate VisitsSlot(ms: seq<Machine>, ls: seq<Label>, h: nat, i: nat) {
    h < |ls| && h < |ms| && ls[h].VisitSlot? && ms[h].phase == Phase.Serving(i)
  }

  // The loop never goes back.
  lemma {:induction false} PassAdvances(ms: seq<Machine>, ls: seq<Label>, j: nat, k: nat)
    requires IsRun(ms, ls) && j <= k <= |ls| && InPass(ms, j, k + 1)
    ensures ms[j].phase.next <= ms[k].phase.next
    ensures j < k && ls[j].VisitSlot? ==> ms[j].phase.next < ms[k].phase.next
    decreases k - j
  {
    hide Leads;
    if j < k {
      PassAdvances(ms, ls, j + 1, k);
      if ls[j].VisitSlot? {
        VisitExact(ms[j], ls[j].input, ms[j + 1]);
      } else {
        PassStep(ms[j], ls[j], ms[j + 1]);
      }
    }
  }

  // Main result: whatever else happens meanwhile, a slot that is marked when a pass begins is read
  // in that pass, exactly once, on the descriptor it then holds.
  lemma {:induction false} MarkedIsRead(ms: seq<Machine>, ls: seq<Label>, j: nat, k: nat, i: nat) returns (h: nat)
    requires IsRun(ms, ls) && j < k <= |ls| && InPass(ms, j, k) && !ms[k].phase.Serving?
    requires ms[j].phase.Serving? && ms[j].phase.next <= i && Marked(ms[j], i)
    ensures j <= h < k && VisitsSlot(ms, ls, h, i) && !ls[h].input.NotReadable?
    ensures Visited(ms[h]) == ms[j].registry.slots[i].fd
    ensures forall other :: j <= other < k && VisitsSlot(ms, ls, other, i) ==> other == h
    decreases k - j
  {
    hide Leads;
    var m, l, m' := ms[j], ls[j], ms[j + 1];
    if l.VisitSlot? {
      VisitExact(m, l.input, m');
      if m.phase.next == i {
        h := j;
        forall other | j < other < k
          ensures !VisitsSlot(ms, ls, other, i)
        {
          PassAdvances(ms, ls, j, other);
        }
      } else {
        assert m'.registry.slots[i] == m.registry.slots[i] && m'.phase.Serving?;
        h := MarkedIsRead(ms, ls, j + 1, k, i);
      }
    } else {
      PassStep(m, l, m');
      h := MarkedIsRead(ms, ls, j + 1, k, i);
    }
  }

  /* ---- Whoever joins gets a slot ---- */

  // The ways to lose a place in the table, or never to get one: the peer closes, or the table is
  // full when the turn comes.
  ghost predicate LosesSlot(m: Machine, l: Label, n: string, fd: nat) {
    && Present(m, n, fd)
    && ((l == VisitSlot(PeerClosed) && Visited(m) == fd)
        || (l.Place? && m.registry.newQueue != [] && m.registry.newQueue[0] == n
            && forall i :: 0 <= i < |m.registry.slots| ==> m.registry.slots[i].fd != -1))
  }

  ghost predicate Placed(m: Machine, n: string, fd: nat) {
    n in m.registry.newQueue || InTable(m.registry.slots, fd)
  }

  lemma HandleSockets(r: Registry, fd: nat, frame: ControlFrame, n: string)
    requires NamesAgree(r.participants, r.sockets) && Handle(r, fd, frame).Done?
    ensures n in Handle(r, fd, frame).registry.participants <==> n in r.participants
    ensures n in r.participants ==>
      Handle(r, fd, frame).registry.participants[n].socket == r.participants[n].socket
  {
    if n in r.participants {
      HandleCounter(r, fd, frame, n);
    }
  }

  lemma JoinQueues(m: Machine, l: Label, m': Machine, n: string, fd: nat)
    requires Leads(m, l, m') && Present(m', n, fd) && !Present(m, n, fd) && Sound(m)
    ensures n in m'.registry.newQueue
  {
    hide TopicsAgree, MethodsAgree, Overdue, ClearSlot;
    if l.VisitSlot? && l.input.Received? {
      HandleSockets(m.registry, Visited(m), l.input.frame, n);
    }
  }

  lemma BuryKeepsPlace(m: Machine, m': Machine, n: string, fd: nat)
    requires Sound(m) && Leads(m, Bury, m') && Present(m, n, fd) && Present(m', n, fd) && Placed(m, n, fd)
    ensures Placed(m', n, fd)
  {
    hide TopicsAgree, MethodsAgree;
    if i :| 0 <= i < |m.registry.slots| && m.registry.slots[i].fd == fd {
      assert m'.registry.slots[i].fd == fd;
    }
  }

  lemma PlaceKeepsPlace(m: Machine, m': Machine, n: string, fd: nat)
    requires Leads(m, Place, m') && Present(m, n, fd) && Placed(m, n, fd) && !LosesSlot(m, Place, n, fd)
    ensures Placed(m', n, fd)
  {
    var q, slots := m.registry.newQueue, m.registry.slots;
    var f := FirstSlot(slots, -1);
    assert q == [q[0]] + m'.registry.newQueue;
    if q[0] == n {
      assert f < |slots| && m'.registry.slots[f].fd == fd;
    }
    if i :| 0 <= i < |slots| && slots[i].fd == fd {
      assert m'.registry.slots[i].fd == fd;
    }
  }

  lemma VisitKeepsPlace(m: Machine, input: Input, m': Machine, n: string, fd: nat)
    requires Sound(m) && Leads(m, VisitSlot(input), m') && Present(m, n, fd) && Placed(m, n, fd)
    requires !LosesSlot(m, VisitSlot(input), n, fd)
    ensures Placed(m', n, fd)
  {
    hide Consistent, Handle;
    if i :| 0 <= i < |m.registry.slots| && m.registry.slots[i].fd == fd {
      assert m'.registry.slots[i].fd == fd;
    }
  }

  lemma OthersKeepPlace(m: Machine, l: Label, m': Machine, n: string, fd: nat)
    requires Leads(m, l, m') && !l.Bury? && !l.Place? && !l.VisitSlot? && Placed(m, n, fd)
    ensures Placed(m', n, fd)
  {
    hide Overdue;
    if i :| 0 <= i < |m.registry.slots| && m.registry.slots[i].fd == fd {
      assert m'.registry.slots[i].fd == fd;
    }
  }

  lemma StepKeepsPlace(m: Machine, l: Label, m': Machine, n: string, fd: nat)
    requires Sound(m) && Leads(m, l, m') && Present(m, n, fd) && Present(m', n, fd)
    requires Placed(m, n, fd) && !LosesSlot(m, l, n, fd)
    ensures Placed(m', n, fd)
  {
    hide Sound, Leads, Present, Placed, LosesSlot;
    match l
    case Bury => BuryKeepsPlace(m, m', n, fd);
    case Place => PlaceKeepsPlace(m, m', n, fd);
    case VisitSlot(input) => VisitKeepsPlace(m, input, m', n, fd);
    case _ => OthersKeepPlace(m, l, m', n, fd);
  }

  lemma QueuedIsPlaced(m: Machine, n: string, fd: nat)
    requires n in m.registry.newQueue
    ensures Placed(m, n, fd)
  {
  }

  // Main result: in every reachable state, every participant that is present waits for its slot or
  // has one, unless its peer has closed or its turn came at a full table.
  lemma {:induction false} PresentIsPlaced(ms: seq<Machine>, ls: seq<Label>, n: string, fd: nat, k: nat)
    requires IsRun(ms, ls) && ms[0] == START && k <= |ls| && Present(ms[k], n, fd)
    ensures Placed(ms[k], n, fd) || exists h :: 0 <= h < k && LosesSlot(ms[h], ls[h], n, fd)
  {
    hide Sound, Leads, LosesSlot, Placed;
    if k > 0 {
      var m, l, m' := ms[k - 1], ls[k - 1], ms[k];
      RunSound(ms, ls, k - 1);
      if Present(m, n, fd) {
        PresentIsPlaced(ms, ls, n, fd, k - 1);
        if Placed(m, n, fd) && !LosesSlot(m, l, n, fd) {
          StepKeepsPlace(m, l, m', n, fd);
        }
      } else {
        JoinQueues(m, l, m', n, fd);
        QueuedIsPlaced(m', n, fd);
      }
    }
  }

  lemma AcceptedGrows(m: Machine, l: Label, m': Machine)
    requires Leads(m, l, m')
    ensures m.accepted <= m'.accepted
  {
  }

  // Nobody has a descriptor before accept() has returned it.
  lemma {:induction false} NotPresentBefore(ms: seq<Machine>, ls: seq<Label>, n: string, fd: nat, h: nat, j: nat)
    requires IsRun(ms, ls) && ms[0] == START && h <= j <= |ls| && fd !in ms[j].accepted
    ensures fd !in ms[h].accepted && !Present(ms[h], n, fd)
  {
    hide Leads, TopicsAgree, MethodsAgree;
    if h < j {
      AcceptedGrows(ms[j - 1], ls[j - 1], ms[j]);
      NotPresentBefore(ms, ls, n, fd, h, j - 1);
    } else {
      RunSound(ms, ls, h);
    }
  }

  // Main result: from the OK to its join on, at the end of every new drain the participant has its
  // slot, if it is still present, its peer has not closed, and the table was not full at its turn.
  lemma JoinedHasSlot(ms: seq<Machine>, ls: seq<Label>, fd: nat, peer: Address, hello: Hello, j: nat, k: nat)
    requires IsRun(ms, ls) && ms[0] == START && j < k < |ls|
    requires ls[j] == Connect(fd, peer, hello) && hello.Hello? && Enabled(ms[j], ls[j]) && Step(ms[j], ls[j]).Next?
    requires Step(ms[j], ls[j]).replies == [Reply(fd, Accepted)]
    requires ls[k] == UnlockNewQueue && PresentFrom(ms, hello.name, fd, j + 1, k)
    requires forall h :: j < h < k ==> !LosesSlot(ms[h], ls[h], hello.name, fd)
    ensures InTable(ms[k].registry.slots, fd)
  {
    assert Leads(ms[k], ls[k], ms[k + 1]);
    assert ms[k].registry.newQueue == [];
    assert fd !in ms[j].accepted;
    hide Leads, Enabled, Step, InTable;
    assert Present(ms[k], hello.name, fd);
    PresentIsPlaced(ms, ls, hello.name, fd, k);
    if h :| 0 <= h < k && LosesSlot(ms[h], ls[h], hello.name, fd) {
      NotPresentBefore(ms, ls, hello.name, fd, h, j);
    }
  }

  /* ---- Nobody is stuck ---- */

  predicate OfControl(l: Label) {
    !l.Connect? && !l.Tick?
  }

  // Main result: in every reachable state the control loop has a next step; in a pass it can be
  // whatever the peer has sent, if the slot is marked.
  lemma ControlNeverStuck(ms: seq<Machine>, ls: seq<Label>, k: nat) returns (l: Label)
    requires IsRun(ms, ls) && ms[0] == START && k <= |ls|
    ensures OfControl(l) && Enabled(ms[k], l)
    ensures forall ready :: ms[k].phase.Polling? ==> Enabled(ms[k], PollSlots(ready))
    ensures forall frame :: ms[k].phase.Serving? && Marked(ms[k], ms[k].phase.next) ==>
      Enabled(ms[k], VisitSlot(Received(frame)))
  {
    RunSound(ms, ls, k);
    var m := ms[k];
    match m.phase
    case Sleeping => l := LockDeadQueue;
    case DrainingDead => l := if m.registry.deadQueue != [] then Bury else LockNewQueue;
    case DrainingNew => l := if m.registry.newQueue != [] then Place else UnlockNewQueue;
    case Polling => l := PollSlots({});
    case Serving(i) => l := VisitSlot(if Marked(m, i) then Truncated else NotReadable);
  }

  // The watchdog waits for the dead drain only, and a join for the new drain only.
  lemma OthersRun(m: Machine, fd: nat, peer: Address, hello: Hello, order: seq<string>)
    requires fd !in m.accepted && Enumerates(order, m.registry.participants.Keys)
    ensures !m.phase.DrainingDead? ==> Enabled(m, Tick(order))
    ensures !m.phase.DrainingNew? || !hello.Hello? ==> Enabled(m, Connect(fd, peer, hello))
  {
  }

  /* ---- What is answered ---- */

  // The version a runtime has to send with its first frame, and what it is told.
  lemma VersionExact(m: Machine, fd: nat, peer: Address, hello: Hello)
    requires Sound(m) && Enabled(m, Connect(fd, peer, hello))
    ensures Step(m, Connect(fd, peer, hello)).Next?
    ensures Step(m, Connect(fd, peer, hello)).replies ==
      match hello
      case Discarded => []
      case MissingMembers => [Reply(fd, Invalid)]
      case Hello(name, _, version) =>
        [Reply(fd, if version != "1.1" then VersionMismatch
                   else if name in m.registry.participants then Duplicate
                   else Accepted)]
  {
  }

  // The only answer of a step, on the descriptor being visited.
  ghost predicate Answers(m: Machine, frame: ControlFrame, v: Verdict)
    requires Enabled(m, VisitSlot(Received(frame)))
  {
    Step(m, VisitSlot(Received(frame))).Next? && Step(m, VisitSlot(Received(frame))).replies == [Reply(Visited(m), v)]
  }

  // Frames that neither claim nor look up anything: a lacking body is told INVALID, an unknown type
  // is passed over, a body the parser rejects ends the process.
  lemma OddFramesExact(m: Machine, frame: ControlFrame)
    requires Sound(m) && Enabled(m, VisitSlot(Received(frame)))
    ensures var step := Step(m, VisitSlot(Received(frame)));
      && (frame.Partial? ==> Answers(m, frame, Invalid) && step.machine.registry == m.registry)
      && (frame.Unhandled? ==> step.Next? && step.replies == [] && step.machine.registry == m.registry)
      && (frame.Malformed? ==> step.Halt?)
      && (frame.KeepAlive? && Visited(m) in m.registry.sockets ==> step.Next? && step.replies == [])
  {
  }

  lemma TopicsListed(r: Registry)
    requires Consistent(r)
    ensures forall t, id: uint32, owner ::
      (t, id, owner) in List(r, Topics).topics <==> Holds(r.participants, owner, t, id)
  {
    forall t, id: uint32, owner
      ensures (t, id, owner) in List(r, Topics).topics <==> Holds(r.participants, owner, t, id)
    {
      if Holds(r.participants, owner, t, id) {
        assert t in r.events && r.events[t] == EventInfo(t, id, owner);
      }
    }
  }

  lemma MethodsListed(r: Registry)
    requires Consistent(r)
    ensures forall f, types, owner ::
      (f, types, owner) in List(r, Methods).methods <==> Offers(r.participants, owner, f, types)
  {
    forall f, types, owner
      ensures (f, types, owner) in List(r, Methods).methods <==> Offers(r.participants, owner, f, types)
    {
      if Offers(r.participants, owner, f, types) {
        assert f in r.methods && r.methods[f] == MethodInfo(f, types, owner);
      }
    }
  }

  // Main result: a listing holds every topic, participant or method there is, with its type ids
  // and its owner or its addresses, and nothing else; listing changes nothing.
  lemma ListingsExact(m: Machine, listing: Listing)
    requires Sound(m) && Enabled(m, VisitSlot(Received(Debug(listing))))
    ensures var r, step := m.registry, Step(m, VisitSlot(Received(Debug(listing))));
      && step.Next? && step.machine.registry == r
      && |step.replies| == 1 && step.replies[0].fd == Visited(m)
      && match listing
         case Topics =>
           && step.replies[0].verdict.TopicTable?
           && forall t, id: uint32, owner ::
                (t, id, owner) in step.replies[0].verdict.topics <==> Holds(r.participants, owner, t, id)
         case Participants =>
           && step.replies[0].verdict.ParticipantTable?
           && forall n, contact :: (n, contact) in step.replies[0].verdict.participants
                <==> n in r.participants && r.participants[n].contact == contact
         case Methods =>
           && step.replies[0].verdict.MethodTable?
           && forall f, types, owner ::
                (f, types, owner) in step.replies[0].verdict.methods <==> Offers(r.participants, owner, f, types)
         case Other => step.replies[0].verdict == EmptyReply
  {
    TopicsListed(m.registry);
    MethodsListed(m.registry);
  }
}
