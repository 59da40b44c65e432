// First owner wins: how long a registration lasts, and what everybody else is told meanwhile.
module Ownership {
  import opened Common
  import opened Directory
  import opened PollTable
  import opened Registry
  import opened Machine
  import opened Consistency
  import opened Refinement

  // What can be owned: a topic or a method.
  datatype Item = TopicItem(topic: string) | MethodItem(fn: string)

  ghost predicate Taken(r: Registry, item: Item) {
    match item
    case TopicItem(t) => t in r.events
    case MethodItem(m) => m in r.methods
  }

  ghost function Owner(r: Registry, item: Item): string
    requires Taken(r, item)
  {
    match item
    case TopicItem(t) => r.events[t].publisher
    case MethodItem(m) => r.methods[m].provider
  }

  // The owner and the type ids the item is registered with.
  ghost predicate SameEntry(r: Registry, r': Registry, item: Item) {
    match item
    case TopicItem(t) => t in r.events && t in r'.events && r'.events[t] == r.events[t]
    case MethodItem(m) => m in r.methods && m in r'.methods && r'.methods[m] == r.methods[m]
  }

  // The step reads a frame that tries to register the item, or that looks it up.
  ghost predicate Claims(l: Label, item: Item) {
    match item
    case TopicItem(t) => l.VisitSlot? && l.input.Received? && l.input.frame.EventRegister? && l.input.frame.topic == t
    case MethodItem(m) => l.VisitSlot? && l.input.Received? && l.input.frame.MethodProvide? && l.input.frame.name == m
  }

  ghost predicate LooksUp(l: Label, item: Item) {
    match item
    case TopicItem(t) => l.VisitSlot? && l.input.Received? && l.input.frame.EventSubscribe? && l.input.frame.topic == t
    case MethodItem(m) => l.VisitSlot? && l.input.Received? && l.input.frame.MethodQuery? && l.input.frame.name == m
  }

  // The only reply of the step is the verdict, on the socket the frame came from.
  ghost predicate Told(m: Machine, l: Label, verdict: Verdict)
    requires Enabled(m, l) && Step(m, l).Next?
  {
    |Step(m, l).replies| == 1 && Step(m, l).replies[0] == Reply(Visited(m), verdict)
  }

  ghost predicate Removes(m: Machine, l: Label, n: string) {
    l.Bury? && m.registry.deadQueue != [] && m.registry.deadQueue[0] == n
  }

  lemma HandleKeepsEntry(r: Registry, fd: nat, frame: ControlFrame, item: Item)
    requires Handle(r, fd, frame).Done? && Taken(r, item)
    ensures SameEntry(r, Handle(r, fd, frame).registry, item)
  {
  }

  lemma BuryKeepsEntry(r: Registry, item: Item)
    requires Consistent(r) && r.deadQueue != [] && BuryFront(r).Done? && Taken(r, item)
    requires r.deadQueue[0] != Owner(r, item)
    ensures SameEntry(r, BuryFront(r).registry, item)
  {
    hide NamesAgree;
  }

  lemma StepKeepsEntry(m: Machine, l: Label, m': Machine, item: Item)
    requires Sound(m) && Leads(m, l, m') && Taken(m.registry, item)
    requires !Removes(m, l, Owner(m.registry, item))
    ensures SameEntry(m.registry, m'.registry, item)
  {
    hide Handle, Consistent, BuryFront;
    match l
    case VisitSlot(Received(frame)) => HandleKeepsEntry(m.registry, Visited(m), frame, item);
    case Bury => BuryKeepsEntry(m.registry, item);
    case _ =>
  }

  lemma ClaimOnTaken(m: Machine, l: Label, m': Machine, item: Item)
    requires Sound(m) && Leads(m, l, m') && Taken(m.registry, item) && Claims(l, item)
    ensures Told(m, l, Duplicate)
    ensures m'.registry == m.registry
  {
  }

  lemma {:induction false} EntryLasts(ms: seq<Machine>, ls: seq<Label>, item: Item, j: nat, k: nat)
    requires IsRun(ms, ls) && ms[0] == START && j <= k <= |ls| && Taken(ms[j].registry, item)
    requires forall s :: j <= s < k ==> !Removes(ms[s], ls[s], Owner(ms[j].registry, item))
    ensures SameEntry(ms[j].registry, ms[k].registry, item)
  {
    hide Sound, Leads, Removes;
    if k > j {
      EntryLasts(ms, ls, item, j, k - 1);
      RunSound(ms, ls, k - 1);
      StepKeepsEntry(ms[k - 1], ls[k - 1], ms[k], item);
    }
  }

  // Main result: from the moment an item has an owner until that owner is removed, the entry does
  // not change, and whoever tries to register the item is told DUPLICATE and changes nothing,
  // whatever happens in between.
  lemma FirstOwnerWins(ms: seq<Machine>, ls: seq<Label>, item: Item, j: nat, k: nat)
    requires IsRun(ms, ls) && ms[0] == START && j <= k < |ls| && Taken(ms[j].registry, item)
    requires forall s :: j <= s < k ==> !Removes(ms[s], ls[s], Owner(ms[j].registry, item))
    ensures SameEntry(ms[j].registry, ms[k].registry, item)
    ensures Claims(ls[k], item) ==>
      && Leads(ms[k], ls[k], ms[k + 1])
      && Told(ms[k], ls[k], Duplicate)
      && ms[k + 1].registry == ms[k].registry
  {
    hide Sound, Leads, Removes;
    EntryLasts(ms, ls, item, j, k);
    RunSound(ms, ls, k);
    if Claims(ls[k], item) {
      ClaimOnTaken(ms[k], ls[k], ms[k + 1], item);
    }
  }

  // The first OK really makes the sender the owner, under the type ids of its frame.
  lemma AcceptedClaimOwns(m: Machine, l: Label, m': Machine, item: Item)
    requires Sound(m) && Leads(m, l, m') && Claims(l, item)
    ensures Told(m, l, if Taken(m.registry, item) then Duplicate else Accepted)
    ensures !Taken(m.registry, item) ==>
      && Visited(m) in m.registry.sockets
      && Taken(m'.registry, item)
      && Owner(m'.registry, item) == m.registry.sockets[Visited(m)]
      && match item
         case TopicItem(t) => Some(m'.registry.events[t].typeId) == l.input.frame.typeId
         case MethodItem(f) => Some(m'.registry.methods[f].types) == l.input.frame.types
  {
  }

  lemma RemovalFrees(m: Machine, m': Machine, item: Item)
    requires Sound(m) && Leads(m, Bury, m') && Taken(m.registry, item)
    requires m.registry.deadQueue[0] == Owner(m.registry, item)
    ensures !Taken(m'.registry, item)
  {
  }

  lemma StepKeepsFree(m: Machine, l: Label, m': Machine, item: Item)
    requires Sound(m) && Leads(m, l, m') && !Taken(m.registry, item) && !Claims(l, item)
    ensures !Taken(m'.registry, item)
  {
    hide Sound, Consistent;
  }

  lemma {:induction false} FreeLasts(ms: seq<Machine>, ls: seq<Label>, item: Item, j: nat, k: nat)
    requires IsRun(ms, ls) && ms[0] == START && j <= k <= |ls| && !Taken(ms[j].registry, item)
    requires forall s :: j <= s < k ==> !Claims(ls[s], item)
    ensures !Taken(ms[k].registry, item)
  {
    hide Sound, Leads, Claims, Taken;
    if k > j {
      FreeLasts(ms, ls, item, j, k - 1);
      RunSound(ms, ls, k - 1);
      StepKeepsFree(ms[k - 1], ls[k - 1], ms[k], item);
    }
  }

  lemma LookupAnswer(m: Machine, l: Label, m': Machine, item: Item)
    requires Sound(m) && Leads(m, l, m') && LooksUp(l, item)
    ensures !Taken(m.registry, item) ==> Told(m, l, NotPublished)
    ensures Taken(m.registry, item) ==> !Told(m, l, NotPublished)
  {
  }

  // Main result: after the removal of its owner at step j, an item is reported NOT_PUBLISHED to
  // everyone who looks it up, until somebody registers it again.
  lemma RemovedOwnerIsForgotten(ms: seq<Machine>, ls: seq<Label>, item: Item, j: nat, k: nat)
    requires IsRun(ms, ls) && ms[0] == START && j < k < |ls| && Taken(ms[j].registry, item)
    requires Removes(ms[j], ls[j], Owner(ms[j].registry, item))
    requires forall s :: j < s < k ==> !Claims(ls[s], item)
    ensures !Taken(ms[k].registry, item)
    ensures LooksUp(ls[k], item) ==>
      && Leads(ms[k], ls[k], ms[k + 1])
      && Told(ms[k], ls[k], NotPublished)
  {
    hide Sound, Leads, Claims, Taken, LooksUp;
    RunSound(ms, ls, j);
    RemovalFrees(ms[j], ms[j + 1], item);
    FreeLasts(ms, ls, item, j + 1, k);
    RunSound(ms, ls, k);
    if LooksUp(ls[k], item) {
      LookupAnswer(ms[k], ls[k], ms[k + 1], item);
    }
  }

  /* ---- At most one OK per socket ---- */

  // As long as the participant behind fd is present, it owns the item.
  ghost predicate Granted(m: Machine, fd: nat, item: Item) {
    && fd in m.accepted
    && (fd in m.registry.sockets ==>
          Taken(m.registry, item) && Owner(m.registry, item) == m.registry.sockets[fd])
  }

  lemma BuryKeepsGrant(m: Machine, m': Machine, fd: nat, item: Item)
    requires Sound(m) && Leads(m, Bury, m') && Granted(m, fd, item)
    ensures Granted(m', fd, item)
  {
    if fd in m.registry.sockets && m.registry.deadQueue[0] != m.registry.sockets[fd] {
      BuryKeepsEntry(m.registry, item);
    }
  }

  lemma SocketsStay(m: Machine, l: Label, m': Machine, fd: nat)
    requires Sound(m) && Leads(m, l, m') && !l.Bury? && fd in m.accepted
    ensures fd in m'.accepted && (fd in m'.registry.sockets <==> fd in m.registry.sockets)
    ensures fd in m.registry.sockets ==> m'.registry.sockets[fd] == m.registry.sockets[fd]
  {
    hide Consistent, Overdue, ClearSlot;
  }

  lemma StepKeepsGrant(m: Machine, l: Label, m': Machine, fd: nat, item: Item)
    requires Sound(m) && Leads(m, l, m') && Granted(m, fd, item)
    ensures Granted(m', fd, item)
  {
    hide Sound, Leads;
    if l.Bury? {
      BuryKeepsGrant(m, m', fd, item);
    } else {
      SocketsStay(m, l, m', fd);
      if fd in m.registry.sockets {
        StepKeepsEntry(m, l, m', item);
      }
    }
  }

  lemma {:induction false} GrantLasts(ms: seq<Machine>, ls: seq<Label>, fd: nat, item: Item, j: nat, k: nat)
    requires IsRun(ms, ls) && ms[0] == START && j <= k <= |ls| && Granted(ms[j], fd, item)
    ensures Granted(ms[k], fd, item)
  {
    hide Sound, Leads, Granted;
    if k > j {
      GrantLasts(ms, ls, fd, item, j, k - 1);
      RunSound(ms, ls, k - 1);
      StepKeepsGrant(ms[k - 1], ls[k - 1], ms[k], fd, item);
    }
  }

  lemma AcceptedIsGranted(m: Machine, l: Label, m': Machine, item: Item)
    requires Sound(m) && Leads(m, l, m') && Claims(l, item) && Told(m, l, Accepted)
    ensures Granted(m', Visited(m), item)
  {
    AcceptedClaimOwns(m, l, m', item);
    hide Consistent, Told, Taken, Owner;
  }

  // Main result: on one control socket an item is answered OK at most once, in any run: while the
  // participant is present it owns the item, and a descriptor that has been removed never comes back.
  lemma AcceptedAtMostOnce(ms: seq<Machine>, ls: seq<Label>, item: Item, j: nat, k: nat)
    requires IsRun(ms, ls) && ms[0] == START && j < k < |ls|
    requires Claims(ls[j], item) && Claims(ls[k], item) && Visited(ms[j]) == Visited(ms[k])
    requires Leads(ms[j], ls[j], ms[j + 1]) && Told(ms[j], ls[j], Accepted)
    ensures Leads(ms[k], ls[k], ms[k + 1]) && !Told(ms[k], ls[k], Accepted)
  {
    hide Sound, Leads, Claims;
    RunSound(ms, ls, j);
    RunSound(ms, ls, k);
    AcceptedIsGranted(ms[j], ls[j], ms[j + 1], item);
    GrantLasts(ms, ls, Visited(ms[j]), item, j + 1, k);
    AcceptedClaimOwns(ms[k], ls[k], ms[k + 1], item);
  }
}
