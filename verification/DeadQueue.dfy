// The dead queue: when draining it ends the process, and what a complete drain removes.
module DeadQueue {
  import opened Common
  import opened Directory
  import opened PollTable
  import opened Registry
  import opened Machine
  import opened Consistency

  ghost predicate DeadQueueSound(r: Registry) {
    Distinct(r.deadQueue) && forall n :: n in r.deadQueue ==> n in r.participants
  }

  ghost function Queued(r: Registry): set<string> {
    set n | n in r.deadQueue
  }

  // The whole loop, with nothing in between.
  function DrainDead(r: Registry): Outcome
    decreases |r.deadQueue|
  {
    if r.deadQueue == [] then Done(r, [])
    else
      var o := BuryFront(r);
      if o.Abort? then o else DrainDead(o.registry)
  }

  // The registry without a set of participants: nobody's name, descriptor, topic or method is
  // touched but theirs.
  ghost predicate IsWithout(r: Registry, dead: set<string>, r': Registry) {
    && r'.participants == (map n | n in r.participants && n !in dead :: r.participants[n])
    && r'.sockets == (map fd | fd in r.sockets && r.sockets[fd] !in dead :: r.sockets[fd])
    && r'.events == (map t | t in r.events && r.events[t].publisher !in dead :: r.events[t])
    && r'.methods == (map m | m in r.methods && r.methods[m].provider !in dead :: r.methods[m])
    && r'.newQueue == r.newQueue
  }

  lemma NameErased(ps: map<string, Participant>, sockets: map<nat, string>, name: string)
    requires NamesAgree(ps, sockets) && name in ps
    ensures ps - {name} == map n | n in ps && n !in {name} :: ps[n]
    ensures sockets - {ps[name].socket} == map fd | fd in sockets && sockets[fd] !in {name} :: sockets[fd]
  {
    assert forall fd :: fd in sockets ==> (fd == ps[name].socket <==> sockets[fd] == name);
  }

  lemma BuryIsWithout(r: Registry)
    requires Consistent(r) && r.deadQueue != [] && r.deadQueue[0] in r.participants
    ensures IsWithout(r, {r.deadQueue[0]}, BuryFront(r).registry)
  {
    hide NamesAgree, TopicsAgree, MethodsAgree;
    var name, r' := r.deadQueue[0], BuryFront(r).registry;
    assert r'.participants == r.participants - {name} && r'.sockets == r.sockets - {r.participants[name].socket};
    assert r'.events == r.events - r.participants[name].topics.Keys;
    assert r'.methods == r.methods - r.participants[name].methods.Keys;
    TopicsErased(r.participants, r.events, name);
    MethodsErased(r.participants, r.methods, name);
    NameErased(r.participants, r.sockets, name);
  }

  lemma WithoutTwice(r: Registry, a: set<string>, r': Registry, b: set<string>, r'': Registry)
    requires IsWithout(r, a, r') && IsWithout(r', b, r'')
    ensures IsWithout(r, a + b, r'')
  {
  }

  // After burying the front, the rest of the queue is sound exactly if the front was present and
  // the queue was sound.
  lemma BurySoundness(r: Registry)
    requires Consistent(r) && r.deadQueue != []
    ensures BuryFront(r).Done? <==> r.deadQueue[0] in r.participants
    ensures BuryFront(r).Done? ==> (DeadQueueSound(BuryFront(r).registry) <==> DeadQueueSound(r))
  {
    hide NamesAgree, TopicsAgree, MethodsAgree;
    if BuryFront(r).Done? {
      var q, r' := r.deadQueue, BuryFront(r).registry;
      BuryIsWithout(r);
      assert r'.deadQueue == q[1..];
      if DeadQueueSound(r') {
        assert forall n :: n in q ==> n == q[0] || n in q[1..];
        assert forall i :: 0 < i < |q| ==> q[i] == q[1..][i - 1] && q[i] in r'.deadQueue;
        forall i, j | 0 <= i < j < |q|
          ensures q[i] != q[j]
        {
          if i > 0 { assert q[1..][i - 1] != q[1..][j - 1]; }
        }
      }
    }
  }

  // A drain that ends well: the queued participants are gone, and nothing else is.
  ghost predicate Drained(r: Registry, r': Registry) {
    IsWithout(r, Queued(r), r') && r'.deadQueue == [] && Consistent(r')
  }

  lemma DrainedNext(r: Registry, r': Registry)
    requires Consistent(r) && r.deadQueue != [] && BuryFront(r).Done?
    requires Drained(BuryFront(r).registry, r')
    ensures Drained(r, r')
  {
    var next := BuryFront(r).registry;
    BuryIsWithout(r);
    WithoutTwice(r, {r.deadQueue[0]}, next, Queued(next), r');
    assert r.deadQueue == [r.deadQueue[0]] + next.deadQueue;
    assert Queued(r) == {r.deadQueue[0]} + Queued(next);
  }

  // Main result: draining the dead queue ends the process exactly if the queue holds a name
  // twice or an absent one; otherwise it empties the queue and removes the queued participants,
  // all they own, and nothing else.
  lemma {:induction false} DrainDeadExact(r: Registry)
    requires Consistent(r)
    ensures DrainDead(r).Done? <==> DeadQueueSound(r)
    ensures DrainDead(r).Abort? ==> DrainDead(r) == Abort(MissingKey)
    ensures DrainDead(r).Done? ==> Drained(r, DrainDead(r).registry)
    decreases |r.deadQueue|
  {
    if r.deadQueue == [] {
      assert IsWithout(r, Queued(r), r);
    } else {
      BurySoundness(r);
      if BuryFront(r).Done? {
        BuryConsistent(r);
        DrainDeadExact(BuryFront(r).registry);
        if DrainDead(r).Done? { DrainedNext(r, DrainDead(r).registry); }
      }
    }
  }

  /* ---- What the watchdog puts in the queue ---- */

  lemma {:induction false} OverdueExact(ps: map<string, Participant>, order: seq<string>)
    ensures forall n :: n in Overdue(ps, order) <==> n in order && IsOverdue(ps, n)
    ensures Distinct(order) ==> Distinct(Overdue(ps, order))
  {
    if order != [] {
      var rest := order[1..];
      OverdueExact(ps, rest);
      assert order == [order[0]] + rest;
      if Distinct(order) {
        assert forall i, j :: 0 <= i < j < |rest| ==> rest[i] == order[i + 1] && rest[j] == order[j + 1];
        assert forall x :: x in rest ==> x != order[0];
        assert order[0] !in rest;
      }
    }
  }

  lemma DistinctSplit(a: seq<string>, b: seq<string>)
    requires Distinct(a + b)
    ensures Distinct(a) && Distinct(b) && forall x :: x in a ==> x !in b
  {
    var c := a + b;
    forall i, j | 0 <= i < j < |a| ensures a[i] != a[j] { assert c[i] != c[j]; }
    forall i, j | 0 <= i < j < |b| ensures b[i] != b[j] { assert c[|a| + i] != c[|a| + j]; }
    forall i, j | 0 <= i < |a| && 0 <= j < |b| ensures a[i] != b[j] { assert c[i] != c[|a| + j]; }
  }

  lemma DistinctJoin(a: seq<string>, b: seq<string>)
    requires Distinct(a) && Distinct(b) && forall x :: x in a ==> x !in b
    ensures Distinct(a + b)
  {
    var c := a + b;
    forall i, j | 0 <= i < j < |c|
      ensures c[i] != c[j]
    {
      if j < |a| {
        assert a[i] != a[j];
      } else if i < |a| {
        assert a[i] in a && b[j - |a|] in b;
      } else {
        assert b[i - |a|] != b[j - |a|];
      }
    }
  }

  // Main result: a tick keeps the queue sound exactly if nobody already queued is still silent
  // enough to be queued again.
  lemma TickKeepsDeadQueueExact(r: Registry, order: seq<string>)
    requires DeadQueueSound(r) && Enumerates(order, r.participants.Keys)
    ensures DeadQueueSound(Age(r, order))
       <==> forall n :: n in r.deadQueue ==> !IsOverdue(r.participants, n)
  {
    var queue, late := r.deadQueue, Overdue(r.participants, order);
    OverdueExact(r.participants, order);
    if Distinct(queue + late) {
      DistinctSplit(queue, late);
    }
    if forall x :: x in queue ==> x !in late {
      DistinctJoin(queue, late);
    }
  }

  lemma StillSilentIsFatal(r: Registry, order: seq<string>, name: string)
    requires Consistent(r) && DeadQueueSound(r) && Enumerates(order, r.participants.Keys)
    requires name in r.deadQueue && IsOverdue(r.participants, name)
    ensures DrainDead(Age(r, order)) == Abort(MissingKey)
  {
    TickKeepsDeadQueueExact(r, order);
    AgeConsistent(r, order);
    DrainDeadExact(Age(r, order));
  }

  lemma EmptyQueueSound(r: Registry)
    requires r.deadQueue == []
    ensures DeadQueueSound(r)
  {
  }

  lemma FirstOverdueTick(r: Registry, order: seq<string>, name: string)
    requires r.deadQueue == [] && name in r.participants
    requires SILENT_LIMIT - 1 <= r.participants[name].watchdog <= 0xfd
    requires Enumerates(order, r.participants.Keys)
    ensures DeadQueueSound(Age(r, order))
    ensures name in Age(r, order).deadQueue
    ensures Age(r, order).participants[name].watchdog == r.participants[name].watchdog + 1
  {
    hide Distinct, Overdue, DeadQueueSound;
    OverdueExact(r.participants, order);
    assert Age(r, order).deadQueue == [] + Overdue(r.participants, order) == Overdue(r.participants, order);
    EmptyQueueSound(r);
    TickKeepsDeadQueueExact(r, order);
  }

  // In particular, whoever is overdue at one tick and stays silent makes the next drain fail,
  // unless a drain comes between the two ticks.
  lemma SecondTickBeforeDrainIsFatal(r: Registry, first: seq<string>, second: seq<string>, name: string)
    requires Consistent(r) && r.deadQueue == [] && name in r.participants
    requires SILENT_LIMIT - 1 <= r.participants[name].watchdog <= 0xfd
    requires Enumerates(first, r.participants.Keys) && Enumerates(second, r.participants.Keys)
    ensures DrainDead(Age(Age(r, first), second)) == Abort(MissingKey)
  {
    FirstOverdueTick(r, first, name);
    AgeConsistent(r, first);
    StillSilentIsFatal(Age(r, first), second, name);
  }

  /* ---- Runs in which the queue is drained between ticks ---- */

  ghost predicate DrainedBetweenTicks(ms: seq<Machine>, ls: seq<Label>)
    requires IsRun(ms, ls)
  {
    forall k :: 0 <= k < |ls| && ls[k].Tick? ==> ms[k].registry.deadQueue == []
  }

  lemma StepKeepsDeadQueue(m: Machine, l: Label, m': Machine)
    requires Sound(m) && DeadQueueSound(m.registry) && Leads(m, l, m')
    requires l.Tick? ==> m.registry.deadQueue == []
    ensures DeadQueueSound(m'.registry)
  {
    match l
    case Tick(order) => TickKeepsDeadQueueExact(m.registry, order);
    case Bury => BurySoundness(m.registry);
    case _ =>
  }

  // Main result: if the dead queue is empty at every tick, it never holds a duplicate or an
  // absent name, so the lookup in the dead drain never throws, whatever else is interleaved.
  lemma {:induction false} DrainedRunSound(ms: seq<Machine>, ls: seq<Label>, k: nat)
    requires IsRun(ms, ls) && ms[0] == START && DrainedBetweenTicks(ms, ls) && k < |ms|
    ensures DeadQueueSound(ms[k].registry)
  {
    hide Leads, Sound;
    if k > 0 {
      DrainedRunSound(ms, ls, k - 1);
      RunSound(ms, ls, k - 1);
      StepKeepsDeadQueue(ms[k - 1], ls[k - 1], ms[k]);
    }
  }

  lemma DrainedRunNeverThrows(ms: seq<Machine>, ls: seq<Label>, k: nat)
    requires IsRun(ms, ls) && ms[0] == START && DrainedBetweenTicks(ms, ls) && k < |ms|
    requires Enabled(ms[k], Bury)
    ensures Step(ms[k], Bury).Next?
  {
    DrainedRunSound(ms, ls, k);
  }
}
