// The five mutexes of the master and the order in which its three threads take them.
module Locks {
  import opened Common

  datatype Lock = DeadQueue | NewQueue | ParticipantInfo | EventList | MethodList
  datatype Mode = Shared | Exclusive
  datatype Thread = Control | Watchdog | Acceptor

  type Held = map<Lock, Mode>

  // What a thread holds, and the request it is blocked in, if any.
  datatype ThreadState = ThreadState(held: Held, wants: Option<(Lock, Mode)>)

  const IDLE := ThreadState(map[], None)

  datatype LockState = LockState(control: ThreadState, watchdog: ThreadState, acceptor: ThreadState) {
    function Of(t: Thread): ThreadState {
      match t
      case Control => control
      case Watchdog => watchdog
      case Acceptor => acceptor
    }

    function With(t: Thread, state: ThreadState): (s: LockState)
      ensures s.Of(t) == state && forall u: Thread :: u != t ==> s.Of(u) == Of(u)
    {
      match t
      case Control => this.(control := state)
      case Watchdog => this.(watchdog := state)
      case Acceptor => this.(acceptor := state)
    }
  }

  const UNLOCKED := LockState(IDLE, IDLE, IDLE)

  /* ---- The code: what runs under which locks ---- */

  // The locked regions of src/ubus_master.cpp.
  datatype Region =
    | DeadDrain          // 61-62, the queue itself
    | Removal            // 63-94
    | TopicsErased       // 74-77
    | MethodsErased      // 80-83
    | NewDrain           // 98-99, the queue itself
    | Placement          // 100-111
    | Polling            // 115-116
    | KeepAlive          // 158-159
    | Registration       // 166-180
    | TopicLookup        // 214-223
    | Provision          // 254-271
    | MethodLookup       // 305-314
    | TopicListing       // 497-504
    | ParticipantListing // 513-522
    | MethodListing      // 531-539
    | WatchdogPass       // 465-472
    | Admission          // 410-435

  function Runner(r: Region): Thread {
    match r
    case WatchdogPass => Watchdog
    case Admission => Acceptor
    case _ => Control
  }

  // The locks of a region, in the order in which they are taken.
  function Plan(r: Region): seq<(Lock, Mode)> {
    match r
    case DeadDrain => [(DeadQueue, Exclusive)]
    case Removal => [(DeadQueue, Exclusive), (ParticipantInfo, Exclusive)]
    case TopicsErased => [(DeadQueue, Exclusive), (ParticipantInfo, Exclusive), (EventList, Exclusive)]
    case MethodsErased => [(DeadQueue, Exclusive), (ParticipantInfo, Exclusive), (MethodList, Exclusive)]
    case NewDrain => [(NewQueue, Exclusive)]
    case Placement => [(NewQueue, Exclusive), (ParticipantInfo, Shared)]
    case Polling => [(ParticipantInfo, Shared)]
    case KeepAlive => [(ParticipantInfo, Exclusive)]
    case Registration => [(ParticipantInfo, Shared), (EventList, Exclusive)]
    case TopicLookup => [(EventList, Exclusive)]
    case Provision => [(ParticipantInfo, Shared), (MethodList, Exclusive)]
    case MethodLookup => [(MethodList, Exclusive)]
    case TopicListing => [(EventList, Exclusive)]
    case ParticipantListing => [(ParticipantInfo, Shared)]
    case MethodListing => [(MethodList, Exclusive)]
    case WatchdogPass => [(DeadQueue, Exclusive), (ParticipantInfo, Shared)]
    case Admission => [(NewQueue, Exclusive), (ParticipantInfo, Exclusive)]
  }

  // What is held after these requests.
  function Taken(plan: seq<(Lock, Mode)>): (held: Held)
    ensures forall l :: l in held ==> exists i :: 0 <= i < |plan| && plan[i].0 == l
  {
    if plan == [] then map[]
    else
      var last := |plan| - 1;
      Taken(plan[..last])[plan[last].0 := plan[last].1]
  }

  // On its way into a region a thread asks for the next lock of it.
  ghost predicate Asks(t: Thread, held: Held, l: Lock, m: Mode, r: Region, i: nat) {
    Runner(r) == t && i < |Plan(r)| && held == Taken(Plan(r)[..i]) && Plan(r)[i] == (l, m)
  }

  ghost predicate Requests(t: Thread, held: Held, l: Lock, m: Mode) {
    exists r: Region, i: nat :: Asks(t, held, l, m, r, i)
  }

  // What the threads share.  What is written before an object is put into a map and only read
  // afterwards is not listed: names, addresses and sockets.
  datatype Data =
    | ParticipantMap | SocketMap | Counters | OwnerLists | TopicIndex | MethodIndex | NewNames | DeadNames | PollTable

  // Looking up a key of socket_participant_mapping_ with [] counts as a write: it can insert.
  predicate Writes(r: Region, d: Data) {
    match r
    case DeadDrain => d.DeadNames?
    case Removal => d.PollTable? || d.ParticipantMap? || d.SocketMap? || d.DeadNames?
    case TopicsErased => d.TopicIndex?
    case MethodsErased => d.MethodIndex?
    case NewDrain => d.NewNames?
    case Placement => d.PollTable? || d.NewNames?
    case Polling => d.PollTable?
    case KeepAlive => d.SocketMap? || d.Counters?
    case Registration => d.SocketMap? || d.TopicIndex? || d.OwnerLists?
    case Provision => d.SocketMap? || d.MethodIndex? || d.OwnerLists?
    case WatchdogPass => d.Counters? || d.DeadNames?
    case Admission => d.ParticipantMap? || d.SocketMap? || d.NewNames?
    case _ => false
  }

  predicate Accesses(r: Region, d: Data) {
    || Writes(r, d)
    || match r
       case TopicsErased => d.OwnerLists?
       case MethodsErased => d.OwnerLists?
       case Placement => d.ParticipantMap?
       case Polling => d.ParticipantMap?
       case KeepAlive => d.PollTable?
       case Registration => d.PollTable?
       case Provision => d.PollTable?
       case TopicLookup => d.TopicIndex?
       case MethodLookup => d.MethodIndex?
       case TopicListing => d.TopicIndex?
       case ParticipantListing => d.ParticipantMap?
       case MethodListing => d.MethodIndex?
       case WatchdogPass => d.ParticipantMap?
       case _ => false
  }

  /* ---- The semantics of the mutexes ---- */

  predicate Compatible(a: Mode, b: Mode) {
    a == Shared && b == Shared
  }

  ghost predicate ConflictsWithHolder(s: LockState, t: Thread, l: Lock, m: Mode) {
    exists u: Thread :: u != t && l in s.Of(u).held && !Compatible(m, s.Of(u).held[l])
  }

  // An implementation may also keep a reader waiting behind a waiting writer.
  ghost predicate BehindWriter(s: LockState, t: Thread, l: Lock, m: Mode) {
    m == Shared && exists u: Thread :: u != t && s.Of(u).wants == Some((l, Exclusive))
  }

  ghost predicate Blocked(s: LockState, t: Thread) {
    match s.Of(t).wants
    case None => false
    case Some((l, m)) => ConflictsWithHolder(s, t, l, m) || BehindWriter(s, t, l, m)
  }

  datatype Action = Request(l: Lock, m: Mode) | Grant | Release(l: Lock)

  ghost predicate CanDo(s: LockState, t: Thread, a: Action) {
    match a
    case Request(l, m) => s.Of(t).wants == None && Requests(t, s.Of(t).held, l, m)
    case Grant => s.Of(t).wants.Some? && !ConflictsWithHolder(s, t, s.Of(t).wants.value.0, s.Of(t).wants.value.1)
    case Release(l) => s.Of(t).wants == None && l in s.Of(t).held
  }

  ghost function Do(s: LockState, t: Thread, a: Action): LockState
    requires CanDo(s, t, a)
  {
    match a
    case Request(l, m) => s.With(t, s.Of(t).(wants := Some((l, m))))
    case Grant => s.With(t, ThreadState(s.Of(t).held[s.Of(t).wants.value.0 := s.Of(t).wants.value.1], None))
    case Release(l) => s.With(t, s.Of(t).(held := s.Of(t).held - {l}))
  }

  ghost predicate IsLockRun(ss: seq<LockState>, steps: seq<(Thread, Action)>) {
    && |ss| == |steps| + 1
    && ss[0] == UNLOCKED
    && forall k :: 0 <= k < |steps| ==>
      CanDo(ss[k], steps[k].0, steps[k].1) && ss[k + 1] == Do(ss[k], steps[k].0, steps[k].1)
  }

  /* ---- The order ---- */

  function Rank(l: Lock): nat {
    match l
    case DeadQueue => 0
    case NewQueue => 0
    case ParticipantInfo => 1
    case EventList => 2
    case MethodList => 2
  }

  // A thread only waits for a lock that ranks above everything it holds; so it never waits for a
  // lock it holds itself, and never holds two of one rank.
  ghost predicate Ordered(s: LockState) {
    forall t: Thread, l: Lock :: s.Of(t).wants.Some? && l in s.Of(t).held ==> Rank(l) < Rank(s.Of(t).wants.value.0)
  }

  ghost predicate OnePerRank(s: LockState) {
    forall t: Thread, l: Lock, l': Lock :: l in s.Of(t).held && l' in s.Of(t).held && Rank(l) == Rank(l') ==> l == l'
  }

  // Whoever holds a lock exclusively is its only holder.
  ghost predicate MutuallyExclusive(s: LockState) {
    forall t: Thread, u: Thread, l: Lock :: t != u && l in s.Of(t).held && l in s.Of(u).held ==>
      Compatible(s.Of(t).held[l], s.Of(u).held[l])
  }

  // Every region takes its locks in the order of their ranks.
  lemma PlanIsOrdered(r: Region, i: nat, j: nat)
    requires i < j < |Plan(r)|
    ensures Rank(Plan(r)[i].0) < Rank(Plan(r)[j].0)
  {
  }

  lemma RequestIsOrdered(t: Thread, held: Held, l: Lock, m: Mode, other: Lock)
    requires Requests(t, held, l, m) && other in held
    ensures Rank(other) < Rank(l)
  {
    hide Plan, Rank;
    var r: Region, i: nat :| Asks(t, held, l, m, r, i);
    var j :| 0 <= j < i && Plan(r)[..i][j].0 == other;
    PlanIsOrdered(r, j, i);
  }

  ghost predicate InOrder(s: LockState) {
    Ordered(s) && OnePerRank(s) && MutuallyExclusive(s)
  }

  lemma SameHeld(s: LockState, s': LockState)
    requires forall t: Thread :: s.Of(t).held == s'.Of(t).held
    ensures OnePerRank(s) ==> OnePerRank(s')
    ensures MutuallyExclusive(s) ==> MutuallyExclusive(s')
  {
    hide Rank;
  }

  lemma RequestKeepsOrder(s: LockState, t: Thread, l: Lock, m: Mode)
    requires CanDo(s, t, Request(l, m)) && InOrder(s)
    ensures InOrder(Do(s, t, Request(l, m)))
  {
    hide Requests, Rank, OnePerRank, MutuallyExclusive;
    SameHeld(s, Do(s, t, Request(l, m)));
    forall other | other in s.Of(t).held
      ensures Rank(other) < Rank(l)
    {
      RequestIsOrdered(t, s.Of(t).held, l, m, other);
    }
  }

  lemma GrantKeepsExclusion(s: LockState, t: Thread)
    requires CanDo(s, t, Grant) && MutuallyExclusive(s)
    ensures MutuallyExclusive(Do(s, t, Grant))
  {
    hide Requests, Rank;
  }

  lemma GrantKeepsOrder(s: LockState, t: Thread)
    requires CanDo(s, t, Grant) && InOrder(s)
    ensures InOrder(Do(s, t, Grant))
  {
    hide Requests, Rank, MutuallyExclusive;
    GrantKeepsExclusion(s, t);
  }

  lemma ReleaseKeepsOrder(s: LockState, t: Thread, l: Lock)
    requires CanDo(s, t, Release(l)) && InOrder(s)
    ensures InOrder(Do(s, t, Release(l)))
  {
    hide Requests, Rank;
  }

  lemma ActionKeepsOrder(s: LockState, t: Thread, a: Action)
    requires CanDo(s, t, a) && InOrder(s)
    ensures InOrder(Do(s, t, a))
  {
    hide InOrder;
    match a
    case Request(l, m) => RequestKeepsOrder(s, t, l, m);
    case Grant => GrantKeepsOrder(s, t);
    case Release(l) => ReleaseKeepsOrder(s, t, l);
  }

  lemma UnlockedInOrder()
    ensures InOrder(UNLOCKED)
  {
    hide Requests, Plan, Taken, Writes, Accesses, Rank;
  }

  lemma {:induction false} RunIsOrdered(ss: seq<LockState>, steps: seq<(Thread, Action)>, k: nat)
    requires IsLockRun(ss, steps) && k < |ss|
    ensures InOrder(ss[k])
  {
    hide CanDo, InOrder;
    if k == 0 {
      UnlockedInOrder();
    } else {
      RunIsOrdered(ss, steps, k - 1);
      assert CanDo(ss[k - 1], steps[k - 1].0, steps[k - 1].1);
      assert ss[k - 1 + 1] == ss[k];
      ActionKeepsOrder(ss[k - 1], steps[k - 1].0, steps[k - 1].1);
    }
  }

  /* ---- Progress ---- */

  // Not blocked, and with something to do: a lock to give back or a request that can be granted.
  ghost predicate CanRun(s: LockState, t: Thread) {
    !Blocked(s, t) && (s.Of(t).wants.Some? || s.Of(t).held != map[])
  }

  // From any waiting thread, following who stands in the way leads to one that can run: each
  // step goes up in rank, or from a reader to the writer it queues behind.
  lemma {:induction false} WaiterLeadsToRunner(s: LockState, t: Thread) returns (r: Thread)
    requires Ordered(s) && s.Of(t).wants.Some?
    ensures CanRun(s, r)
    decreases 2 - Rank(s.Of(t).wants.value.0), s.Of(t).wants.value.1 == Shared
  {
    var (l, m) := s.Of(t).wants.value;
    if !Blocked(s, t) {
      r := t;
    } else if ConflictsWithHolder(s, t, l, m) {
      var u: Thread :| u != t && l in s.Of(u).held && !Compatible(m, s.Of(u).held[l]);
      if s.Of(u).wants.None? {
        r := u;
      } else {
        r := WaiterLeadsToRunner(s, u);
      }
    } else {
      var u: Thread :| u != t && s.Of(u).wants == Some((l, Exclusive));
      r := WaiterLeadsToRunner(s, u);
    }
  }

  // Main result: in every reachable state, if some thread is blocked then another one can run.
  lemma DeadlockFree(ss: seq<LockState>, steps: seq<(Thread, Action)>, k: nat, t: Thread)
    requires IsLockRun(ss, steps) && k < |ss| && Blocked(ss[k], t)
    ensures exists u: Thread :: u != t && CanRun(ss[k], u)
  {
    RunIsOrdered(ss, steps, k);
    var u := WaiterLeadsToRunner(ss[k], t);
  }

  /* ---- Data races ---- */

  ghost predicate Inside(s: LockState, r: Region) {
    s.Of(Runner(r)).held == Taken(Plan(r))
  }

  // A thread that nobody disturbs gets into each of its regions.
  lemma {:induction false} EnteredAlone(r: Region, k: nat) returns (ss: seq<LockState>, steps: seq<(Thread, Action)>)
    requires k <= |Plan(r)|
    ensures IsLockRun(ss, steps)
    ensures ss[|steps|] == UNLOCKED.With(Runner(r), ThreadState(Taken(Plan(r)[..k]), None))
  {
    hide Plan;
    var t := Runner(r);
    if k == 0 {
      ss, steps := [UNLOCKED], [];
    } else {
      ss, steps := EnteredAlone(r, k - 1);
      var (l, m) := Plan(r)[k - 1];
      var s := ss[|steps|];
      assert Asks(t, s.Of(t).held, l, m, r, k - 1);
      var asking := Do(s, t, Request(l, m));
      var holding := Do(asking, t, Grant);
      assert Plan(r)[..k][..k - 1] == Plan(r)[..k - 1];
      ss, steps := ss + [asking, holding], steps + [(t, Request(l, m)), (t, Grant)];
    }
  }

  lemma RegionReached(r: Region) returns (ss: seq<LockState>, steps: seq<(Thread, Action)>)
    ensures IsLockRun(ss, steps) && Inside(ss[|steps|], r)
  {
    ss, steps := EnteredAlone(r, |Plan(r)|);
    assert Plan(r)[..|Plan(r)|] == Plan(r);
    hide IsLockRun, Plan, Taken;
  }

  // Regions of different threads that touch the same thing, one of them to change it, have a lock
  // in common that keeps them apart.
  lemma ConflictIsLocked(a: Region, b: Region, d: Data) returns (l: Lock)
    requires Runner(a) != Runner(b) && Writes(a, d) && Accesses(b, d)
    ensures l in Taken(Plan(a)) && l in Taken(Plan(b))
    ensures !Compatible(Taken(Plan(a))[l], Taken(Plan(b))[l])
  {
    l := if d.DeadNames? then DeadQueue else if d.NewNames? then NewQueue else ParticipantInfo;
  }

  // Main result: in every reachable state, what one thread changes in the region it is in no other
  // thread touches in the region that it is in.
  lemma NoDataRace(ss: seq<LockState>, steps: seq<(Thread, Action)>, k: nat, a: Region, b: Region, d: Data)
    requires IsLockRun(ss, steps) && k < |ss| && Inside(ss[k], a) && Inside(ss[k], b)
    requires Runner(a) != Runner(b) && Writes(a, d)
    ensures !Accesses(b, d)
  {
    hide Plan, Taken, Writes, Accesses;
    RunIsOrdered(ss, steps, k);
    if Accesses(b, d) {
      var l := ConflictIsLocked(a, b, d);
    }
  }

  // While the watchdog makes its pass the control thread is not in its dead drain, and during a
  // join it is not in its new drain and nobody looks at the participants.
  lemma RegionsKeepOut(ss: seq<LockState>, steps: seq<(Thread, Action)>, k: nat)
    requires IsLockRun(ss, steps) && k < |ss|
    ensures Inside(ss[k], WatchdogPass) ==> DeadQueue !in ss[k].control.held
    ensures Inside(ss[k], Admission) ==>
      NewQueue !in ss[k].control.held && ParticipantInfo !in ss[k].control.held + ss[k].watchdog.held
  {
    hide IsLockRun, Requests, Writes, Accesses, Rank, Ordered, OnePerRank;
    RunIsOrdered(ss, steps, k);
    var s := ss[k];
    if Inside(s, WatchdogPass) {
      assert Taken(Plan(WatchdogPass)) == map[DeadQueue := Exclusive, ParticipantInfo := Shared];
      assert s.Of(Watchdog).held[DeadQueue] == Exclusive;
      assert DeadQueue !in s.Of(Control).held;
    }
    if Inside(s, Admission) {
      assert Taken(Plan(Admission)) == map[NewQueue := Exclusive, ParticipantInfo := Exclusive];
      assert s.Of(Acceptor).held[NewQueue] == Exclusive && s.Of(Acceptor).held[ParticipantInfo] == Exclusive;
      assert NewQueue !in s.Of(Control).held && ParticipantInfo !in s.Of(Control).held;
      assert ParticipantInfo !in s.Of(Watchdog).held;
    }
  }
}
