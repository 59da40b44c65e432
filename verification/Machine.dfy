// The three threads of the master as a step machine over the registry.  Each region that runs
// under the locks is one step; the phase of the control thread says which queue it holds locked,
// and so which steps of the accept loop and of the watchdog can fall in between.
module Machine {
  import opened Common
  import opened Directory
  import opened PollTable
  import opened Registry

  datatype Phase = Sleeping | DrainingDead | DrainingNew | Polling | Serving(next: nat)

  // accepted remembers every descriptor accept() has returned: none is ever closed, so none is
  // ever returned again.
  datatype Machine = Machine(registry: Registry, phase: Phase, accepted: set<nat>)

  const START := Machine(INITIAL, Sleeping, {})

  datatype Label =
    | Connect(fd: nat, peer: Address, hello: Hello)  // accept loop, needs the new queue
    | Tick(order: seq<string>)                       // watchdog, needs the dead queue
    | LockDeadQueue                                  // control thread from here on
    | Bury
    | LockNewQueue
    | Place
    | UnlockNewQueue
    | PollSlots(ready: set<nat>)
    | VisitSlot(input: Input)

  datatype Reply = Reply(fd: nat, verdict: Verdict)

  datatype Result = Next(machine: Machine, replies: seq<Reply>) | Halt(cause: Cause)

  ghost predicate Enabled(m: Machine, l: Label) {
    match l
    case Connect(fd, _, hello) => fd !in m.accepted && (hello.Hello? ==> !m.phase.DrainingNew?)
    case Tick(order) => !m.phase.DrainingDead? && Enumerates(order, m.registry.participants.Keys)
    case LockDeadQueue => m.phase.Sleeping?
    case Bury => m.phase.DrainingDead? && m.registry.deadQueue != []
    case LockNewQueue => m.phase.DrainingDead? && m.registry.deadQueue == []
    case Place => m.phase.DrainingNew? && m.registry.newQueue != []
    case UnlockNewQueue => m.phase.DrainingNew? && m.registry.newQueue == []
    case PollSlots(_) => m.phase.Polling?
    case VisitSlot(input) =>
      && m.phase.Serving?
      && m.phase.next < |m.registry.slots|
      && (input.NotReadable? <==> !Due(m.registry, m.phase.next))
  }

  function Addressed(fd: nat, verdicts: seq<Verdict>): seq<Reply> {
    seq(|verdicts|, i requires 0 <= i < |verdicts| => Reply(fd, verdicts[i]))
  }

  function Resume(m: Machine, o: Outcome, fd: nat, phase: Phase): Result {
    match o
    case Done(registry, verdicts) => Next(m.(registry := registry, phase := phase), Addressed(fd, verdicts))
    case Abort(cause) => Halt(cause)
  }

  // The descriptor of the slot being visited; only a slot that is due gets a reply.
  function Visited(m: Machine): nat {
    if m.phase.Serving? && m.phase.next < |m.registry.slots| && m.registry.slots[m.phase.next].fd >= 0
    then m.registry.slots[m.phase.next].fd
    else 0
  }

  ghost function Step(m: Machine, l: Label): Result
    requires Enabled(m, l)
  {
    var r := m.registry;
    match l
    case Connect(fd, peer, hello) =>
      Resume(m.(accepted := m.accepted + {fd}), Admit(r, fd, peer, hello), fd, m.phase)
    case Tick(order) => Next(m.(registry := Age(r, order)), [])
    case LockDeadQueue => Next(m.(phase := DrainingDead), [])
    case Bury => Resume(m, BuryFront(r), 0, DrainingDead)
    case LockNewQueue => Next(m.(phase := DrainingNew), [])
    case Place => Resume(m, PlaceFront(r), 0, DrainingNew)
    case UnlockNewQueue => Next(m.(phase := Polling), [])
    case PollSlots(ready) =>
      var polled := Poll(r, ready);
      var hit := exists i :: 0 <= i < |polled.slots| && i < Window(r) && polled.slots[i].readable;
      Next(m.(registry := polled, phase := if hit then Serving(0) else Sleeping), [])
    case VisitSlot(input) =>
      var next := m.phase.next + 1;
      Resume(m, Visit(r, m.phase.next, input), Visited(m), if next < |r.slots| then Serving(next) else Sleeping)
  }

  ghost predicate Leads(m: Machine, l: Label, m': Machine) {
    Enabled(m, l) && Step(m, l).Next? && Step(m, l).machine == m'
  }

  // A run: states ms, with ms[k + 1] reached from ms[k] by ls[k] without halting.
  ghost predicate IsRun(ms: seq<Machine>, ls: seq<Label>) {
    && |ms| == |ls| + 1
    && forall k :: 0 <= k < |ls| ==> Leads(ms[k], ls[k], ms[k + 1])
  }
}
