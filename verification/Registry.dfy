// The shared state of the master (include/ubus_master.hpp) as a value, and one function for each
// region of src/ubus_master.cpp that runs under its locks.  A topic is stored both in the global
// index and with its owner, a participant in the name map, in the descriptor map and in a poll
// slot; nothing here assumes that the copies agree.
module Registry {
  import opened Common
  import opened Directory
  import opened PollTable

  const SILENT_LIMIT: nat := 3

  datatype Participant = Participant(
    name: string,
    contact: Contact,
    socket: nat,
    topics: map<string, uint32>,
    methods: map<string, MethodTypes>,
    watchdog: uint8)

  // The publisher and provider pointers are modelled by the name in the object pointed to.
  datatype EventInfo = EventInfo(name: string, typeId: uint32, publisher: string)
  datatype MethodInfo = MethodInfo(name: string, types: MethodTypes, provider: string)

  datatype Registry = Registry(
    participants: map<string, Participant>,
    sockets: map<nat, string>,
    events: map<string, EventInfo>,
    methods: map<string, MethodInfo>,
    newQueue: seq<string>,
    deadQueue: seq<string>,
    slots: seq<Slot>)

  const INITIAL := Registry(map[], map[], map[], map[], [], [], EmptyTable())

  // Why the master process ends: std::out_of_range from map::at, a null participant pointer, or
  // a JSON exception that no handler catches.
  datatype Cause = MissingKey | NullParticipant | UncaughtJson

  datatype Outcome = Done(registry: Registry, verdicts: seq<Verdict>) | Abort(cause: Cause)

  // The first frame on a new connection; Discarded stands for everything that gets no reply.
  datatype Hello = Discarded | MissingMembers | Hello(name: string, listening: Address, version: string)

  datatype Listing = Topics | Participants | Methods | Other

  // A frame on a control socket, by type and decoded body.  A request whose JSON object lacks a
  // required member is Partial, one whose body is not JSON or does not name its topic or method
  // by a string is Malformed; the four kinds of request treat the two alike.  Type ids that are
  // not numbers are None; subscribe and query never look at theirs.
  datatype ControlFrame =
    | KeepAlive
    | EventRegister(topic: string, typeId: Option<uint32>)
    | EventSubscribe(topic: string)
    | MethodProvide(name: string, types: Option<MethodTypes>)
    | MethodQuery(name: string)
    | Partial
    | Malformed
    | Debug(listing: Listing)
    | Unhandled

  // What the control loop finds when it visits a poll slot.
  datatype Input = NotReadable | PeerClosed | Truncated | Received(frame: ControlFrame)

  /* ---- Connection accepted (accept_new_connection) ---- */

  function Admit(r: Registry, fd: nat, peer: Address, hello: Hello): Outcome {
    match hello
    case Discarded => Done(r, [])
    case MissingMembers => Done(r, [Invalid])
    case Hello(name, listening, version) =>
      if version != API_VERSION then Done(r, [VersionMismatch])
      else if name in r.participants then Done(r, [Duplicate])
      else
        var p := Participant(name, Contact(peer, listening), fd, map[], map[], 0);
        Done(r.(participants := r.participants[name := p],
                sockets := r.sockets[fd := name],
                newQueue := r.newQueue + [name]), [Accepted])
  }

  /* ---- Watchdog tick (keep_alive_worker) ---- */

  function Bumped(p: Participant): Participant {
    p.(watchdog := (p.watchdog + 1) % 0x100)
  }

  predicate IsOverdue(ps: map<string, Participant>, n: string) {
    n in ps && Bumped(ps[n]).watchdog >= SILENT_LIMIT
  }

  // The names the tick pushes, when it visits the participants in this order.
  function Overdue(ps: map<string, Participant>, order: seq<string>): seq<string> {
    if order == [] then []
    else (if IsOverdue(ps, order[0]) then [order[0]] else []) + Overdue(ps, order[1..])
  }

  function Age(r: Registry, order: seq<string>): Registry {
    r.(participants := map n | n in r.participants :: Bumped(r.participants[n]),
       deadQueue := r.deadQueue + Overdue(r.participants, order))
  }

  /* ---- Queue drains (process_control_message, first half) ---- */

  function Removed(r: Registry, name: string): Registry
    requires name in r.participants
  {
    var p := r.participants[name];
    r.(participants := r.participants - {name},
       sockets := r.sockets - {p.socket},
       events := r.events - p.topics.Keys,
       methods := r.methods - p.methods.Keys)
  }

  // One iteration of the dead drain.  The scan of the poll table calls participant_list_.at on
  // its first comparison, before the presence check that follows it.
  function BuryFront(r: Registry): Outcome
    requires r.deadQueue != []
  {
    var name := r.deadQueue[0];
    if name !in r.participants then Abort(MissingKey)
    else
      var swept := r.(slots := ClearSlot(r.slots, r.participants[name].socket));
      Done(Removed(swept, name).(deadQueue := r.deadQueue[1..]), [])
  }

  // One iteration of the new drain.  The lookup happens only once a free slot has been found; a
  // full table drops the name silently.
  function PlaceFront(r: Registry): Outcome
    requires r.newQueue != []
  {
    var name := r.newQueue[0];
    var rest := r.(newQueue := r.newQueue[1..]);
    var i := FirstSlot(r.slots, -1);
    if i == |r.slots| then Done(rest, [])
    else if name !in r.participants then Abort(MissingKey)
    else Done(rest.(slots := r.slots[i := Slot(r.participants[name].socket, false)]), [])
  }

  // The poll call: its window is the number of participants, not the table size.
  function Window(r: Registry): nat {
    Covered(|r.participants|)
  }

  function Poll(r: Registry, ready: set<nat>): Registry {
    r.(slots := Polled(r.slots, Window(r), ready))
  }

  /* ---- Control frames (process_control_message, second half) ---- */

  // A slot is visited when its POLLIN bit is set and its descriptor is not negative, whether or
  // not the last poll covered it.
  predicate Due(r: Registry, i: nat)
    requires i < |r.slots|
  {
    r.slots[i].readable && r.slots[i].fd >= 0
  }

  // socket_participant_mapping_[fd]: a missing key yields a null pointer.
  function Sender(r: Registry, fd: nat): Option<Participant> {
    if fd in r.sockets && r.sockets[fd] in r.participants then Some(r.participants[r.sockets[fd]]) else None
  }

  function Locate(r: Registry, name: string): Outcome {
    if name in r.participants
    then Done(r, [Located(r.participants[name].name, r.participants[name].contact.listening)])
    else Abort(NullParticipant)
  }

  function RegisterTopic(r: Registry, fd: nat, topic: string, typeId: Option<uint32>): Outcome {
    if topic in r.events then Done(r, [Duplicate])
    else if typeId.None? then Abort(UncaughtJson)
    else
      var sender := Sender(r, fd);
      if sender.None? then Abort(NullParticipant)
      else
        var p := sender.value.(topics := sender.value.topics[topic := typeId.value]);
        Done(r.(events := r.events[topic := EventInfo(topic, typeId.value, p.name)],
                participants := r.participants[r.sockets[fd] := p]), [Accepted])
  }

  function ProvideMethod(r: Registry, fd: nat, name: string, types: Option<MethodTypes>): Outcome {
    if name in r.methods then Done(r, [Duplicate])
    else if types.None? then Abort(UncaughtJson)
    else
      var sender := Sender(r, fd);
      if sender.None? then Abort(NullParticipant)
      else
        var p := sender.value.(methods := sender.value.methods[name := types.value]);
        Done(r.(methods := r.methods[name := MethodInfo(name, types.value, p.name)],
                participants := r.participants[r.sockets[fd] := p]), [Accepted])
  }

  function FindPublisher(r: Registry, topic: string): Outcome {
    if topic !in r.events then Done(r, [NotPublished]) else Locate(r, r.events[topic].publisher)
  }

  function FindProvider(r: Registry, name: string): Outcome {
    if name !in r.methods then Done(r, [NotPublished]) else Locate(r, r.methods[name].provider)
  }

  function ResetWatchdog(r: Registry, fd: nat): Outcome {
    var sender := Sender(r, fd);
    if sender.None? then Abort(NullParticipant)
    else Done(r.(participants := r.participants[r.sockets[fd] := sender.value.(watchdog := 0)]), [])
  }

  // process_debug_message; a body it cannot parse, or a query it does not know, gets an empty reply.
  function List(r: Registry, listing: Listing): Verdict {
    match listing
    case Topics => TopicTable(set t | t in r.events :: (r.events[t].name, r.events[t].typeId, r.events[t].publisher))
    case Participants =>
      ParticipantTable(set n | n in r.participants :: (r.participants[n].name, r.participants[n].contact))
    case Methods =>
      MethodTable(set m | m in r.methods :: (r.methods[m].name, r.methods[m].types, r.methods[m].provider))
    case Other => EmptyReply
  }

  // Of the handlers that parse a body, only the debug handler catches what the parser throws.
  function Handle(r: Registry, fd: nat, frame: ControlFrame): (o: Outcome)
    ensures o.Done? ==>
      && o.registry.sockets == r.sockets
      && o.registry.participants.Keys == r.participants.Keys
      && o.registry.newQueue == r.newQueue
      && o.registry.deadQueue == r.deadQueue
      && o.registry.slots == r.slots
  {
    match frame
    case KeepAlive => ResetWatchdog(r, fd)
    case EventRegister(topic, typeId) => RegisterTopic(r, fd, topic, typeId)
    case EventSubscribe(topic) => FindPublisher(r, topic)
    case MethodProvide(name, types) => ProvideMethod(r, fd, name, types)
    case MethodQuery(name) => FindProvider(r, name)
    case Partial => Done(r, [Invalid])
    case Malformed => Abort(UncaughtJson)
    case Debug(listing) => Done(r, [List(r, listing)])
    case Unhandled => Done(r, [])
  }

  // What the library throws at: a malformed body, or a registration that has to read type ids
  // that are not numbers.
  predicate Throws(r: Registry, frame: ControlFrame) {
    match frame
    case Malformed => true
    case EventRegister(topic, typeId) => topic !in r.events && typeId.None?
    case MethodProvide(name, types) => name !in r.methods && types.None?
    case _ => false
  }

  // One turn of the loop over the poll table.
  function Visit(r: Registry, i: nat, input: Input): Outcome
    requires i < |r.slots|
    requires input.NotReadable? <==> !Due(r, i)
  {
    match input
    case NotReadable => Done(r, [])
    case Truncated => Done(r, [])
    case PeerClosed => Done(r.(slots := r.slots[i := r.slots[i].(fd := -1)]), [])
    case Received(frame) => Handle(r, r.slots[i].fd, frame)
  }
}
