// How fast the control loop has to be.  If the dead queue is empty at every tick, and at most two
// ticks fall between the end of one new drain and the start of the next dead drain, then every
// participant gets its slot before it can be removed, and only a body the JSON library throws at
// can end the process.
module Timely {
  import opened Common
  import opened Directory
  import opened PollTable
  import opened Registry
  import opened Machine
  import opened Consistency
  import opened DeadQueue
  import opened Slots
  import opened Watchdog

  // The ticks among the first k steps since the new queue was last unlocked.
  function TicksSincePlaced(ls: seq<Label>, k: nat): nat
    requires k <= |ls|
  {
    if k == 0 then 0
    else if ls[k - 1].Tick? then TicksSincePlaced(ls, k - 1) + 1
    else if ls[k - 1].UnlockNewQueue? then 0
    else TicksSincePlaced(ls, k - 1)
  }

  ghost predicate KeepsUp(ms: seq<Machine>, ls: seq<Label>)
    requires IsRun(ms, ls)
  {
    && DrainedBetweenTicks(ms, ls)
    && forall k :: 0 <= k < |ls| && ls[k].LockDeadQueue? ==> TicksSincePlaced(ls, k) < SILENT_LIMIT
  }

  // Whoever still waits for a slot has seen no more ticks than the last new drain, and so cannot
  // have been queued for removal.
  ghost predicate WaitersYoung(m: Machine, ticks: nat) {
    && (m.phase.DrainingDead? ==> ticks < SILENT_LIMIT)
    && (!m.phase.DrainingNew? && ticks < SILENT_LIMIT ==>
          forall n :: n in m.registry.newQueue ==> Counter(m, n) <= ticks && n !in m.registry.deadQueue)
  }

  ghost predicate Healthy(m: Machine, ticks: nat) {
    SlotsConsistent(m.registry) && DeadQueueSound(m.registry) && WaitersYoung(m, ticks)
  }

  lemma TickKeepsYoung(m: Machine, order: seq<string>, ticks: nat)
    requires Healthy(m, ticks) && Enabled(m, Label.Tick(order))
    ensures WaitersYoung(Step(m, Label.Tick(order)).machine, ticks + 1)
  {
    OverdueExact(m.registry.participants, order);
    var m' := Step(m, Label.Tick(order)).machine;
    if !m.phase.DrainingNew? && ticks + 1 < SILENT_LIMIT {
      forall n | n in m'.registry.newQueue
        ensures Counter(m', n) <= ticks + 1 && n !in m'.registry.deadQueue
      {
        assert n in m.registry.participants && Counter(m, n) <= ticks;
      }
    }
  }

  lemma VisitKeepsYoung(m: Machine, input: Input, m': Machine, ticks: nat)
    requires Sound(m) && Healthy(m, ticks) && Leads(m, VisitSlot(input), m')
    ensures WaitersYoung(m', ticks)
  {
    hide TopicsAgree, MethodsAgree, Handle;
    if input.Received? && ticks < SILENT_LIMIT {
      forall n | n in m'.registry.newQueue
        ensures Counter(m', n) <= ticks
      {
        HandleCounter(m.registry, Visited(m), input.frame, n);
        assert Counter(m, n) <= ticks;
      }
    }
  }

  lemma BuryKeepsYoung(m: Machine, m': Machine, ticks: nat)
    requires Sound(m) && Healthy(m, ticks) && Leads(m, Bury, m')
    ensures m.registry.deadQueue[0] !in m.registry.newQueue
    ensures WaitersYoung(m', ticks)
  {
    assert m.registry.deadQueue[0] in m.registry.deadQueue;
  }

  lemma StepKeepsYoung(m: Machine, l: Label, m': Machine, ticks: nat)
    requires Sound(m) && Healthy(m, ticks) && Leads(m, l, m') && !l.Tick? && !l.UnlockNewQueue?
    requires l.LockDeadQueue? ==> ticks < SILENT_LIMIT
    ensures WaitersYoung(m', ticks)
  {
    hide TopicsAgree, MethodsAgree, Handle;
    match l
    case VisitSlot(input) => VisitKeepsYoung(m, input, m', ticks);
    case Bury => BuryKeepsYoung(m, m', ticks);
    case _ =>
  }

  lemma StartHealthy()
    ensures Healthy(START, 0)
  {
  }

  lemma HealthyNext(m: Machine, l: Label, m': Machine, ticks: nat)
    requires Sound(m) && Healthy(m, ticks) && Leads(m, l, m')
    requires l.LockDeadQueue? ==> ticks < SILENT_LIMIT
    requires l.Tick? ==> m.registry.deadQueue == []
    ensures Healthy(m', if l.Tick? then ticks + 1 else if l.UnlockNewQueue? then 0 else ticks)
  {
    hide Sound, SlotsConsistent, DeadQueueSound;
    if l.Bury? { BuryKeepsYoung(m, m', ticks); }
    StepKeepsSlots(m, l, m');
    StepKeepsDeadQueue(m, l, m');
    match l
    case Tick(order) => TickKeepsYoung(m, order, ticks);
    case UnlockNewQueue =>
    case _ => StepKeepsYoung(m, l, m', ticks);
  }

  lemma {:induction false} KeepingUpIsHealthy(ms: seq<Machine>, ls: seq<Label>, k: nat)
    requires IsRun(ms, ls) && ms[0] == START && KeepsUp(ms, ls) && k <= |ls|
    ensures Healthy(ms[k], TicksSincePlaced(ls, k))
  {
    hide Sound, Leads, SlotsConsistent, DeadQueueSound, WaitersYoung;
    if k == 0 {
      StartHealthy();
    } else {
      KeepingUpIsHealthy(ms, ls, k - 1);
      RunSound(ms, ls, k - 1);
      HealthyNext(ms[k - 1], ls[k - 1], ms[k], TicksSincePlaced(ls, k - 1));
    }
  }

  // Main result: in a run that keeps up, the poll table and the dead queue are in order in every
  // state, and no step that can come next ends the process, except for reading a frame whose body
  // the JSON library throws at.
  lemma KeepingUpNeverHalts(ms: seq<Machine>, ls: seq<Label>, k: nat, l: Label)
    requires IsRun(ms, ls) && ms[0] == START && KeepsUp(ms, ls) && k <= |ls| && Enabled(ms[k], l)
    ensures SlotsConsistent(ms[k].registry) && DeadQueueSound(ms[k].registry)
    ensures Step(ms[k], l).Halt? <==> l.VisitSlot? && l.input.Received? && Throws(ms[k].registry, l.input.frame)
  {
    hide Consistent, SlotsConsistent, Handle;
    KeepingUpIsHealthy(ms, ls, k);
    RunSound(ms, ls, k);
    if l.Place? || l.VisitSlot? {
      LookupsSucceedExact(ms[k], l);
    }
  }
}
