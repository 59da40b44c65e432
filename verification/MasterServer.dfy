// UBusMaster as the source has it: participants are shared objects, pointed to from the name map,
// from the descriptor map and from the global indexes, and changed in place through any of these
// pointers.  Each method is proved to do what the corresponding function of the registry does to
// the value of the whole structure.
module MasterServer {
  import opened Common
  import opened Directory
  import opened PollTable
  import opened Registry
  import opened Consistency
  import opened DeadQueue
  import opened Slots

  class ParticipantInfo {
    const name: string
    const contact: Contact
    const socket: nat
    var publishedTopics: map<string, uint32>
    var methodList: map<string, MethodTypes>
    var watchdog: uint8

    constructor (name: string, contact: Contact, socket: nat)
      ensures Value() == Participant(name, contact, socket, map[], map[], 0)
    {
      this.name, this.contact, this.socket := name, contact, socket;
      publishedTopics, methodList, watchdog := map[], map[], 0;
    }

    ghost function Value(): Participant
      reads this
    {
      Participant(name, contact, socket, publishedTopics, methodList, watchdog)
    }
  }

  datatype EventRecord = EventRecord(name: string, typeId: uint32, publisher: ParticipantInfo)
  datatype MethodRecord = MethodRecord(name: string, types: MethodTypes, provider: ParticipantInfo)

  // A pointer leads to the object the name map holds under the name in that object.
  ghost predicate Shared(ps: map<string, ParticipantInfo>, p: ParticipantInfo) {
    p.name in ps && ps[p.name] == p
  }

  ghost predicate ObjectsMatch(ps: map<string, ParticipantInfo>, repr: set<ParticipantInfo>,
                               view: map<string, Participant>)
    reads repr
  {
    && ps.Keys == view.Keys
    && forall n :: n in ps ==> ps[n] in repr && ps[n].name == n && ps[n].Value() == view[n]
  }

  // Everybody but the rest has been struck once.
  ghost predicate Struck(ps: map<string, ParticipantInfo>, repr: set<ParticipantInfo>, rest: set<string>,
                         view: map<string, Participant>)
    reads repr
  {
    && ps.Keys == view.Keys
    && forall n :: n in ps ==>
      && ps[n] in repr && ps[n].name == n
      && ps[n].Value() == if n in rest then view[n] else Bumped(view[n])
  }

  lemma NoneDistinct()
    ensures Distinct<string>([])
  {
  }

  lemma DistinctNext(order: seq<string>, n: string)
    requires Distinct(order) && n !in order
    ensures Distinct(order + [n])
  {
  }

  lemma ObjectAt(ps: map<string, ParticipantInfo>, repr: set<ParticipantInfo>, view: map<string, Participant>,
                 n: string)
    requires ObjectsMatch(ps, repr, view)
    ensures n in ps <==> n in view
    ensures n in ps ==> ps[n] in repr && ps[n].name == n && ps[n].Value() == view[n]
  {
  }

  lemma ObjectsAfterInsert(ps: map<string, ParticipantInfo>, repr: set<ParticipantInfo>,
                           view: map<string, Participant>, info: ParticipantInfo)
    requires ObjectsMatch(ps, repr, view)
    ensures ObjectsMatch(ps[info.name := info], repr + {info}, view[info.name := info.Value()])
  {
  }

  lemma ObjectsAfterRemoval(ps: map<string, ParticipantInfo>, repr: set<ParticipantInfo>,
                            view: map<string, Participant>, name: string)
    requires ObjectsMatch(ps, repr, view)
    ensures ObjectsMatch(ps - {name}, repr, view - {name})
  {
  }

  ghost predicate SocketsMatch(ps: map<string, ParticipantInfo>, sockets: map<nat, ParticipantInfo>,
                               view: map<nat, string>)
  {
    && sockets.Keys == view.Keys
    && forall fd :: fd in sockets ==> Shared(ps, sockets[fd]) && sockets[fd].name == view[fd]
  }

  ghost predicate EventsMatch(ps: map<string, ParticipantInfo>, events: map<string, EventRecord>,
                              view: map<string, EventInfo>)
  {
    && events.Keys == view.Keys
    && forall t :: t in events ==>
      && Shared(ps, events[t].publisher)
      && view[t] == EventInfo(events[t].name, events[t].typeId, events[t].publisher.name)
  }

  ghost predicate MethodsMatch(ps: map<string, ParticipantInfo>, methods: map<string, MethodRecord>,
                               view: map<string, MethodInfo>)
  {
    && methods.Keys == view.Keys
    && forall m :: m in methods ==>
      && Shared(ps, methods[m].provider)
      && view[m] == MethodInfo(methods[m].name, methods[m].types, methods[m].provider.name)
  }

  // How a region of the master ends: normally, having written these replies, or with the process.
  datatype Ending = Continues(verdicts: seq<Verdict>) | Terminates(cause: Cause)

  ghost predicate Matches(e: Ending, o: Outcome, r: Registry) {
    match o
    case Done(r', verdicts) => e == Continues(verdicts) && r == r'
    case Abort(cause) => e == Terminates(cause)
  }

  lemma SocketAt(ps: map<string, ParticipantInfo>, sockets: map<nat, ParticipantInfo>, view: map<nat, string>, fd: nat)
    requires SocketsMatch(ps, sockets, view)
    ensures fd in sockets <==> fd in view
    ensures fd in sockets ==> Shared(ps, sockets[fd]) && sockets[fd].name == view[fd]
  {
  }

  lemma KeysAgree(ps: map<string, ParticipantInfo>, events: map<string, EventRecord>,
                  methods: map<string, MethodRecord>, view: Registry)
    requires EventsMatch(ps, events, view.events) && MethodsMatch(ps, methods, view.methods)
    ensures events.Keys == view.events.Keys && methods.Keys == view.methods.Keys
  {
  }

  lemma EventsAfterAdd(ps: map<string, ParticipantInfo>, events: map<string, EventRecord>, view: map<string, EventInfo>,
                       topic: string, typeId: uint32, info: ParticipantInfo)
    requires EventsMatch(ps, events, view) && Shared(ps, info)
    ensures EventsMatch(ps, events[topic := EventRecord(topic, typeId, info)],
                        view[topic := EventInfo(topic, typeId, info.name)])
  {
  }

  lemma MethodsAfterAdd(ps: map<string, ParticipantInfo>, methods: map<string, MethodRecord>,
                        view: map<string, MethodInfo>, name: string, types: MethodTypes, info: ParticipantInfo)
    requires MethodsMatch(ps, methods, view) && Shared(ps, info)
    ensures MethodsMatch(ps, methods[name := MethodRecord(name, types, info)],
                         view[name := MethodInfo(name, types, info.name)])
  {
  }

  lemma SocketsAfterRemoval(ps: map<string, ParticipantInfo>, sockets: map<nat, ParticipantInfo>, view: Registry,
                            name: string, p: Participant)
    requires SocketsMatch(ps, sockets, view.sockets) && NamesAgree(view.participants, view.sockets)
    requires name in view.participants && view.participants[name] == p
    ensures SocketsMatch(ps - {name}, sockets - {p.socket}, view.sockets - {p.socket})
  {
  }

  lemma EventsAfterRemoval(ps: map<string, ParticipantInfo>, events: map<string, EventRecord>, view: Registry,
                           name: string, p: Participant)
    requires EventsMatch(ps, events, view.events) && TopicsAgree(view.participants, view.events)
    requires name in view.participants && view.participants[name] == p
    ensures EventsMatch(ps - {name}, events - p.topics.Keys, view.events - p.topics.Keys)
  {
  }

  lemma MethodsAfterRemoval(ps: map<string, ParticipantInfo>, methods: map<string, MethodRecord>, view: Registry,
                            name: string, p: Participant)
    requires MethodsMatch(ps, methods, view.methods) && MethodsAgree(view.participants, view.methods)
    requires name in view.participants && view.participants[name] == p
    ensures MethodsMatch(ps - {name}, methods - p.methods.Keys, view.methods - p.methods.Keys)
  {
  }

  lemma NothingListed(r: Registry)
    ensures List(r, Other) == EmptyReply
  {
  }

  lemma FirstSlotIs(s: seq<Slot>, fd: int, i: nat)
    requires i <= |s| && (i < |s| ==> s[i].fd == fd) && forall j :: 0 <= j < i ==> s[j].fd != fd
    ensures FirstSlot(s, fd) == i
  {
  }

  lemma BuryFields(r: Registry)
    requires r.deadQueue != []
    ensures r.deadQueue[0] !in r.participants ==> BuryFront(r) == Abort(MissingKey)
    ensures r.deadQueue[0] in r.participants ==>
      var p := r.participants[r.deadQueue[0]];
      BuryFront(r) == Done(Registry(
        r.participants - {r.deadQueue[0]}, r.sockets - {p.socket}, r.events - p.topics.Keys, r.methods - p.methods.Keys,
        r.newQueue, r.deadQueue[1..], ClearSlot(r.slots, p.socket)), [])
  {
  }

  lemma RegisterFields(r: Registry, fd: nat, topic: string, typeId: uint32, n: string, p: Participant)
    requires Sender(r, fd) == Some(p) && r.sockets[fd] == n && p.name == n && topic !in r.events
    ensures RegisterTopic(r, fd, topic, Some(typeId)) == Done(Registry(
      r.participants[n := p.(topics := p.topics[topic := typeId])], r.sockets,
      r.events[topic := EventInfo(topic, typeId, n)], r.methods, r.newQueue, r.deadQueue, r.slots), [Accepted])
  {
  }

  lemma ProvideFields(r: Registry, fd: nat, name: string, types: MethodTypes, n: string, p: Participant)
    requires Sender(r, fd) == Some(p) && r.sockets[fd] == n && p.name == n && name !in r.methods
    ensures ProvideMethod(r, fd, name, Some(types)) == Done(Registry(
      r.participants[n := p.(methods := p.methods[name := types])], r.sockets,
      r.events, r.methods[name := MethodInfo(name, types, n)], r.newQueue, r.deadQueue, r.slots), [Accepted])
  {
  }

  lemma AgeFields(r: Registry, order: seq<string>)
    ensures Age(r, order).participants.Keys == r.participants.Keys
    ensures forall n :: n in r.participants ==> Age(r, order).participants[n] == Bumped(r.participants[n])
    ensures Age(r, order).sockets == r.sockets && Age(r, order).events == r.events && Age(r, order).methods == r.methods
    ensures Age(r, order).newQueue == r.newQueue && Age(r, order).slots == r.slots
    ensures Age(r, order).deadQueue == r.deadQueue + Overdue(r.participants, order)
  {
  }

  lemma OverdueNone(ps: map<string, Participant>)
    ensures Overdue(ps, []) == []
  {
  }

  lemma {:induction false} OverdueAppend(ps: map<string, Participant>, order: seq<string>, n: string)
    ensures Overdue(ps, order + [n]) == Overdue(ps, order) + if IsOverdue(ps, n) then [n] else []
  {
    hide IsOverdue;
    if order == [] {
      assert [n][1..] == [];
    } else {
      OverdueAppend(ps, order[1..], n);
      assert (order + [n])[1..] == order[1..] + [n];
    }
  }

  class UBusMaster {
    var participants: map<string, ParticipantInfo>
    var sockets: map<nat, ParticipantInfo>
    var events: map<string, EventRecord>
    var methods: map<string, MethodRecord>
    var newQueue: seq<string>
    var deadQueue: seq<string>
    const slots: array<Slot>
    ghost var Repr: set<ParticipantInfo>
    ghost var view: Registry  // the value of the whole structure

    ghost predicate Valid()
      reads this, Repr, slots
    {
      && ObjectsMatch(participants, Repr, view.participants)
      && SocketsMatch(participants, sockets, view.sockets)
      && EventsMatch(participants, events, view.events)
      && MethodsMatch(participants, methods, view.methods)
      && newQueue == view.newQueue
      && deadQueue == view.deadQueue
      && slots[..] == view.slots
      && slots.Length == MAX_CONNECTIONS
    }

    constructor ()
      ensures Valid() && fresh(Repr) && fresh(slots)
      ensures view == INITIAL
    {
      participants, sockets, events, methods := map[], map[], map[], map[];
      newQueue, deadQueue, Repr, view := [], [], {}, INITIAL;
      slots := new Slot[MAX_CONNECTIONS](i => FREE);
    }

    lemma PointersAfterInsert(info: ParticipantInfo, fd: nat)
      requires SocketsMatch(participants, sockets, view.sockets)
      requires EventsMatch(participants, events, view.events)
      requires MethodsMatch(participants, methods, view.methods)
      requires info.name !in participants
      ensures var ps := participants[info.name := info];
        && SocketsMatch(ps, sockets[fd := info], view.sockets[fd := info.name])
        && EventsMatch(ps, events, view.events)
        && MethodsMatch(ps, methods, view.methods)
    {
    }

    method Insert(info: ParticipantInfo)
      requires Valid() && info.name !in participants
      requires info.Value() == Participant(info.name, info.contact, info.socket, map[], map[], 0)
      modifies `participants, `sockets, `newQueue, `Repr, `view
      ensures Valid() && Repr == old(Repr) + {info}
      ensures view == old(view).(participants := old(view).participants[info.name := info.Value()],
                                 sockets := old(view).sockets[info.socket := info.name],
                                 newQueue := old(view).newQueue + [info.name])
    {
      hide ObjectsMatch, SocketsMatch, EventsMatch, MethodsMatch;
      ObjectsAfterInsert(participants, Repr, view.participants, info);
      PointersAfterInsert(info, info.socket);
      participants := participants[info.name := info];
      sockets := sockets[info.socket := info];
      newQueue := newQueue + [info.name];
      Repr := Repr + {info};
      view := view.(participants := view.participants[info.name := info.Value()],
                    sockets := view.sockets[info.socket := info.name],
                    newQueue := view.newQueue + [info.name]);
    }

    // accept_new_connection, from the parsed body to the reply.
    method AcceptConnection(fd: nat, peer: Address, hello: Hello) returns (ending: Ending)
      requires Valid()
      modifies this
      ensures Valid() && fresh(Repr - old(Repr))
      ensures Matches(ending, Admit(old(view), fd, peer, hello), view)
    {
      match hello {
        case Discarded => ending := Continues([]);
        case MissingMembers => ending := Continues([Invalid]);
        case Hello(name, listening, version) =>
          if version != API_VERSION {
            ending := Continues([VersionMismatch]);
          } else if name in participants {
            ending := Continues([Duplicate]);
          } else {
            var info := new ParticipantInfo(name, Contact(peer, listening), fd);
            Insert(info);
            ending := Continues([Accepted]);
          }
      }
    }

    // The dead drain: while the queue is not empty, bury its front.
    method DrainDeadParticipants() returns (ending: Ending)
      requires Valid() && Consistent(view)
      modifies `participants, `sockets, `events, `methods, `deadQueue, `view, slots
      ensures ending.Continues? ==> Valid()
      ensures Matches(ending, DrainDead(old(view)), view)
    {
      hide SocketsMatch, EventsMatch, MethodsMatch, BuryFront;
      ending := Continues([]);
      while deadQueue != []
        invariant Valid() && Consistent(view) && ending == Continues([])
        invariant DrainDead(view) == DrainDead(old(view))
        decreases |deadQueue|
      {
        ghost var before := view;
        ending := BuryOne();
        if ending.Terminates? { return; }
        BuryConsistent(before);
      }
    }

    method BuryOne() returns (ending: Ending)
      requires Valid() && Consistent(view) && deadQueue != []
      modifies `participants, `sockets, `events, `methods, `deadQueue, `view, slots
      ensures ending.Continues? ==> Valid()
      ensures ending.Continues? ==> |deadQueue| < |old(deadQueue)| && ending == Continues([])
      ensures ending.Terminates? ==> deadQueue == old(deadQueue)
      ensures Matches(ending, BuryFront(old(view)), view)
    {
      hide ObjectsMatch, SocketsMatch, EventsMatch, MethodsMatch, Consistent, BuryFront;
      ObjectAt(participants, Repr, view.participants, deadQueue[0]);
      ObjectsAfterRemoval(participants, Repr, view.participants, deadQueue[0]);
      BuryFields(view);
      var name := deadQueue[0];
      var thrown := ReleaseSlot(name);
      if thrown { return Terminates(MissingKey); }
      var info := participants[name];
      Forget(info);
      deadQueue := deadQueue[1..];
      view := BuryFront(view).registry;
      ending := Continues([]);
    }

    // The scan of the poll table; every comparison looks the participant up with at().
    method ReleaseSlot(name: string) returns (thrown: bool)
      requires slots.Length == MAX_CONNECTIONS
      modifies slots
      ensures thrown <==> name !in participants
      ensures slots[..] == if thrown then old(slots[..]) else ClearSlot(old(slots[..]), participants[name].socket)
    {
      var i := 0;
      while i < slots.Length
        invariant 0 <= i <= slots.Length && slots[..] == old(slots[..])
        invariant i > 0 ==> name in participants
        invariant name in participants ==> forall j :: 0 <= j < i ==> slots[j].fd != participants[name].socket
      {
        if name !in participants { return true; }
        if slots[i].fd == participants[name].socket {
          FirstSlotIs(slots[..], participants[name].socket, i);
          slots[i] := slots[i].(fd := -1);
          return false;
        }
        i := i + 1;
      }
      FirstSlotIs(slots[..], participants[name].socket, i);
      thrown := false;
    }

    // Erase everything that leads to the object.
    method Forget(info: ParticipantInfo)
      requires ObjectsMatch(participants, Repr, view.participants) && Consistent(view) && Shared(participants, info)
      requires SocketsMatch(participants, sockets, view.sockets)
      requires EventsMatch(participants, events, view.events)
      requires MethodsMatch(participants, methods, view.methods)
      modifies `participants, `sockets, `events, `methods
      ensures var ps := old(participants) - {info.name};
        && participants == ps
        && SocketsMatch(ps, sockets, view.sockets - {info.socket})
        && EventsMatch(ps, events, view.events - info.publishedTopics.Keys)
        && MethodsMatch(ps, methods, view.methods - info.methodList.Keys)
    {
      hide ObjectsMatch, SocketsMatch, EventsMatch, MethodsMatch, Consistent;
      PointersAfterRemoval(info);
      EraseEvents(info.publishedTopics.Keys);
      EraseMethods(info.methodList.Keys);
      participants := participants - {info.name};
      if info.socket in sockets {
        sockets := sockets - {info.socket};
      } else {
        assert sockets - {info.socket} == sockets;
      }
    }

    lemma PointersAfterRemoval(info: ParticipantInfo)
      requires ObjectsMatch(participants, Repr, view.participants) && Consistent(view) && Shared(participants, info)
      requires SocketsMatch(participants, sockets, view.sockets)
      requires EventsMatch(participants, events, view.events)
      requires MethodsMatch(participants, methods, view.methods)
      ensures var ps := participants - {info.name};
        && SocketsMatch(ps, sockets - {info.socket}, view.sockets - {info.socket})
        && EventsMatch(ps, events - info.publishedTopics.Keys, view.events - info.publishedTopics.Keys)
        && MethodsMatch(ps, methods - info.methodList.Keys, view.methods - info.methodList.Keys)
    {
      hide SocketsMatch, EventsMatch, MethodsMatch, NamesAgree, TopicsAgree, MethodsAgree;
      assert info.name in view.participants && view.participants[info.name] == info.Value();
      SocketsAfterRemoval(participants, sockets, view, info.name, info.Value());
      EventsAfterRemoval(participants, events, view, info.name, info.Value());
      MethodsAfterRemoval(participants, methods, view, info.name, info.Value());
    }

    method EraseEvents(topics: set<string>)
      modifies `events
      ensures events == old(events) - topics
    {
      var rest := topics;
      while rest != {}
        invariant rest <= topics && events == old(events) - (topics - rest)
        decreases rest
      {
        var t :| t in rest;
        events := events - {t};
        rest := rest - {t};
      }
    }

    method EraseMethods(names: set<string>)
      modifies `methods
      ensures methods == old(methods) - names
    {
      var rest := names;
      while rest != {}
        invariant rest <= names && methods == old(methods) - (names - rest)
        decreases rest
      {
        var m :| m in rest;
        methods := methods - {m};
        rest := rest - {m};
      }
    }

    // The new drain: while the queue is not empty, find a free slot for its front.
    method PlaceNewParticipants() returns (ending: Ending)
      requires Valid()
      modifies `newQueue, `view, slots
      ensures ending.Continues? ==> Valid()
      ensures Matches(ending, DrainNew(old(view)), view)
    {
      hide ObjectsMatch, SocketsMatch, EventsMatch, MethodsMatch, PlaceFront;
      ending := Continues([]);
      while newQueue != []
        invariant Valid() && ending == Continues([])
        invariant DrainNew(view) == DrainNew(old(view))
        decreases |newQueue|
      {
        ending := PlaceOne();
        if ending.Terminates? { return; }
      }
    }

    method PlaceOne() returns (ending: Ending)
      requires Valid() && newQueue != []
      modifies `newQueue, `view, slots
      ensures ending.Continues? ==> Valid() && ending == Continues([]) && |newQueue| < |old(newQueue)|
      ensures ending.Terminates? ==> newQueue == old(newQueue)
      ensures Matches(ending, PlaceFront(old(view)), view)
    {
      hide ObjectsMatch, SocketsMatch, EventsMatch, MethodsMatch;
      var name := newQueue[0];
      ObjectAt(participants, Repr, view.participants, name);
      var i := 0;
      while i < slots.Length && slots[i].fd != -1
        invariant 0 <= i <= slots.Length
        invariant forall j :: 0 <= j < i ==> slots[j].fd != -1
      {
        i := i + 1;
      }
      FirstSlotIs(slots[..], -1, i);
      if i < slots.Length {
        if name !in participants { return Terminates(MissingKey); }
        slots[i] := Slot(participants[name].socket, false);
      }
      newQueue := newQueue[1..];
      view := view.(newQueue := newQueue, slots := slots[..]);
      ending := Continues([]);
    }

    // The frame handlers.
    method HandleFrame(fd: nat, frame: ControlFrame) returns (ending: Ending)
      requires Valid()
      modifies `events, `methods, `view, Repr
      ensures ending.Continues? ==> Valid()
      ensures Matches(ending, Handle(old(view), fd, frame), view)
    {
      hide ObjectsMatch, SocketsMatch, EventsMatch, MethodsMatch;
      hide ResetWatchdog, RegisterTopic, ProvideMethod, FindPublisher, FindProvider, List;
      match frame {
        case KeepAlive => ending := HandleKeepAlive(fd);
        case EventRegister(topic, typeId) => ending := HandleRegister(fd, topic, typeId);
        case EventSubscribe(topic) => ending := HandleSubscribe(topic);
        case MethodProvide(name, types) => ending := HandleProvide(fd, name, types);
        case MethodQuery(name) => ending := HandleQuery(name);
        case Partial => ending := Continues([Invalid]);
        case Malformed => ending := Terminates(UncaughtJson);
        case Debug(listing) =>
          var table := HandleDebug(listing);
          ending := Continues([table]);
        case Unhandled => ending := Continues([]);
      }
    }

    // One turn of the loop over the poll table: the header has been read, or the peer is gone.
    method VisitSlot(i: nat, input: Input) returns (ending: Ending)
      requires Valid() && i < slots.Length
      requires input.NotReadable? <==> !Due(view, i)
      modifies `events, `methods, `view, Repr, slots
      ensures ending.Continues? ==> Valid()
      ensures Matches(ending, Visit(old(view), i, input), view)
    {
      hide ObjectsMatch, SocketsMatch, EventsMatch, MethodsMatch, Handle;
      ending := Continues([]);
      match input {
        case NotReadable =>
        case Truncated =>
        case PeerClosed =>
          slots[i] := slots[i].(fd := -1);
          view := view.(slots := slots[..]);
        case Received(frame) =>
          ending := HandleFrame(slots[i].fd, frame);
      }
    }

    method HandleKeepAlive(fd: nat) returns (ending: Ending)
      requires Valid()
      modifies `view, Repr
      ensures ending.Continues? ==> Valid()
      ensures Matches(ending, ResetWatchdog(old(view), fd), view)
    {
      hide ObjectsMatch, SocketsMatch, EventsMatch, MethodsMatch;
      SocketAt(participants, sockets, view.sockets, fd);
      if fd !in sockets { return Terminates(NullParticipant); }
      var info := sockets[fd];
      ObjectAt(participants, Repr, view.participants, info.name);
      info.watchdog := 0;
      ObjectsAfterUpdate(info);
      view := view.(participants := view.participants[info.name := info.Value()]);
      ending := Continues([]);
    }

    method HandleRegister(fd: nat, topic: string, declared: Option<uint32>) returns (ending: Ending)
      requires Valid()
      modifies `events, `view, Repr
      ensures ending.Continues? ==> Valid()
      ensures Matches(ending, RegisterTopic(old(view), fd, topic, declared), view)
    {
      hide ObjectsMatch, SocketsMatch, EventsMatch, MethodsMatch;
      KeysAgree(participants, events, methods, view);
      SocketAt(participants, sockets, view.sockets, fd);
      if topic in events { return Continues([Duplicate]); }
      if declared.None? { return Terminates(UncaughtJson); }
      var typeId := declared.value;
      if fd !in sockets { return Terminates(NullParticipant); }
      var info := sockets[fd];
      ObjectAt(participants, Repr, view.participants, info.name);
      EventsAfterAdd(participants, events, view.events, topic, typeId, info);
      RegisterFields(view, fd, topic, typeId, info.name, info.Value());
      hide RegisterTopic;
      events := events[topic := EventRecord(topic, typeId, info)];
      info.publishedTopics := info.publishedTopics[topic := typeId];
      ObjectsAfterUpdate(info);
      view := RegisterTopic(view, fd, topic, declared).registry;
      ending := Continues([Accepted]);
    }

    method HandleProvide(fd: nat, name: string, declared: Option<MethodTypes>) returns (ending: Ending)
      requires Valid()
      modifies `methods, `view, Repr
      ensures ending.Continues? ==> Valid()
      ensures Matches(ending, ProvideMethod(old(view), fd, name, declared), view)
    {
      hide ObjectsMatch, SocketsMatch, EventsMatch, MethodsMatch;
      KeysAgree(participants, events, methods, view);
      SocketAt(participants, sockets, view.sockets, fd);
      if name in methods { return Continues([Duplicate]); }
      if declared.None? { return Terminates(UncaughtJson); }
      var types := declared.value;
      if fd !in sockets { return Terminates(NullParticipant); }
      var info := sockets[fd];
      ObjectAt(participants, Repr, view.participants, info.name);
      MethodsAfterAdd(participants, methods, view.methods, name, types, info);
      ProvideFields(view, fd, name, types, info.name, info.Value());
      hide ProvideMethod;
      methods := methods[name := MethodRecord(name, types, info)];
      info.methodList := info.methodList[name := types];
      ObjectsAfterUpdate(info);
      view := ProvideMethod(view, fd, name, declared).registry;
      ending := Continues([Accepted]);
    }

    method HandleSubscribe(topic: string) returns (ending: Ending)
      requires Valid()
      ensures Matches(ending, FindPublisher(view, topic), view)
    {
      if topic !in events { return Continues([NotPublished]); }
      var publisher := events[topic].publisher;
      ObjectAt(participants, Repr, view.participants, publisher.name);
      ending := Continues([Located(publisher.name, publisher.contact.listening)]);
    }

    method HandleQuery(name: string) returns (ending: Ending)
      requires Valid()
      ensures Matches(ending, FindProvider(view, name), view)
    {
      if name !in methods { return Continues([NotPublished]); }
      var provider := methods[name].provider;
      ObjectAt(participants, Repr, view.participants, provider.name);
      ending := Continues([Located(provider.name, provider.contact.listening)]);
    }

    method HandleDebug(listing: Listing) returns (table: Verdict)
      requires Valid()
      ensures table == List(view, listing)
    {
      hide ObjectsMatch, SocketsMatch, EventsMatch, MethodsMatch, List;
      NothingListed(view);
      match listing {
        case Topics =>
          table := ListTopics();
        case Participants =>
          table := ListParticipants();
        case Methods =>
          table := ListMethods();
        case Other =>
          table := EmptyReply;
      }
    }

    method ListTopics() returns (table: Verdict)
      requires EventsMatch(participants, events, view.events)
      ensures table == List(view, Topics)
    {
      table := TopicTable(set t | t in events :: (events[t].name, events[t].typeId, events[t].publisher.name));
    }

    method ListParticipants() returns (table: Verdict)
      requires ObjectsMatch(participants, Repr, view.participants)
      ensures table == List(view, Participants)
    {
      table := ParticipantTable(set n | n in participants :: (participants[n].name, participants[n].contact));
    }

    method ListMethods() returns (table: Verdict)
      requires MethodsMatch(participants, methods, view.methods)
      ensures table == List(view, Methods)
    {
      table := MethodTable(set m | m in methods :: (methods[m].name, methods[m].types, methods[m].provider.name));
    }

    // One object has changed, and with it the value of the one participant that it is.
    twostate lemma ObjectsAfterUpdate(info: ParticipantInfo)
      requires old(ObjectsMatch(participants, Repr, view.participants)) && old(Shared(participants, info))
      requires participants == old(participants) && Repr == old(Repr)
      requires forall p :: p in Repr && p != info ==> unchanged(p)
      ensures ObjectsMatch(participants, Repr, old(view).participants[info.name := info.Value()])
    {
    }

    // keep_alive_worker, one pass over the participants in some order.
    method WatchdogTick() returns (order: seq<string>)
      requires Valid()
      modifies `deadQueue, `view, Repr
      ensures Valid()
      ensures Enumerates(order, old(view).participants.Keys)
      ensures view == Age(old(view), order)
    {
      hide SocketsMatch, EventsMatch, MethodsMatch, Bumped, Age, Overdue;
      order := StrikeAll();
      AgeFields(view, order);
      view := Age(view, order);
    }

    method StrikeAll() returns (order: seq<string>)
      requires ObjectsMatch(participants, Repr, view.participants)
      modifies `deadQueue, Repr
      ensures Enumerates(order, participants.Keys)
      ensures forall n :: n in participants ==> participants[n].Value() == Bumped(view.participants[n])
      ensures deadQueue == old(deadQueue) + Overdue(view.participants, order)
    {
      hide Bumped, IsOverdue, Overdue, Distinct;
      var rest := participants.Keys;
      order := [];
      OverdueNone(view.participants);
      NoneDistinct();
      assert Struck(participants, Repr, rest, view.participants);
      while rest != {}
        invariant rest <= participants.Keys
        invariant Distinct(order) && forall n :: n in order <==> n in participants && n !in rest
        invariant Struck(participants, Repr, rest, view.participants)
        invariant deadQueue == old(deadQueue) + Overdue(view.participants, order)
        decreases rest
        modifies `deadQueue, Repr
      {
        var n :| n in rest;
        StrikeNext(n, rest);
        OverdueAppend(view.participants, order, n);
        DistinctNext(order, n);
        rest := rest - {n};
        order := order + [n];
      }
    }

    method StrikeNext(n: string, ghost rest: set<string>)
      requires n in participants && n in rest && Struck(participants, Repr, rest, view.participants)
      modifies `deadQueue, Repr
      ensures Struck(participants, Repr, rest - {n}, view.participants)
      ensures deadQueue == old(deadQueue) + if IsOverdue(view.participants, n) then [n] else []
    {
      hide Bumped, IsOverdue;
      Strike(n, participants[n], view.participants);
    }

    method Strike(n: string, info: ParticipantInfo, ghost ps: map<string, Participant>)
      requires n in ps && ps[n] == info.Value()
      modifies `deadQueue, info`watchdog
      ensures info.Value() == Bumped(ps[n])
      ensures deadQueue == old(deadQueue) + if IsOverdue(ps, n) then [n] else []
    {
      info.watchdog := (info.watchdog + 1) % 0x100;
      if info.watchdog >= SILENT_LIMIT {
        deadQueue := deadQueue + [n];
      }
    }
  }
}
