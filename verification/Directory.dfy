// The service the master is meant to provide, without any of its bookkeeping: who is present,
// who owns each topic and each method, and under which type ids.  No sockets, no queues, no
// poll table, and no fact stored twice.
module Directory {
  import opened Common

  const API_VERSION := "1.1"

  datatype TopicEntry = TopicEntry(owner: string, typeId: uint32)
  datatype MethodEntry = MethodEntry(owner: string, types: MethodTypes)

  datatype Directory = Directory(
    live: map<string, Contact>,
    topics: map<string, TopicEntry>,
    methods: map<string, MethodEntry>)

  // What can be asked of the directory.
  datatype Query =
    | Nothing
    | Join(version: string, name: string, contact: Contact)
    | Leave(name: string)
    | Register(owner: string, topic: string, typeId: uint32)
    | FindTopic(topic: string)
    | Provide(owner: string, name: string, types: MethodTypes)
    | FindMethod(name: string)
    | ListTopics
    | ListParticipants
    | ListMethods
    | Incomplete
    | UnknownListing

  // What it answers; the contents of a reply frame.
  datatype Verdict =
    | Accepted
    | Duplicate
    | NotPublished
    | Invalid
    | VersionMismatch
    | Located(owner: string, at: Address)
    | TopicTable(topics: set<(string, uint32, string)>)
    | ParticipantTable(participants: set<(string, Contact)>)
    | MethodTable(methods: set<(string, MethodTypes, string)>)
    | EmptyReply

  const EMPTY := Directory(map[], map[], map[])

  // Removing a participant takes everything it owns with it.
  function Without(d: Directory, name: string): Directory {
    Directory(
      d.live - {name},
      d.topics - (set t | t in d.topics && d.topics[t].owner == name),
      d.methods - (set m | m in d.methods && d.methods[m].owner == name))
  }

  function Update(d: Directory, q: Query): Directory {
    match q
    case Join(version, name, contact) =>
      if version == API_VERSION && name !in d.live then d.(live := d.live[name := contact]) else d
    case Leave(name) => Without(d, name)
    case Register(owner, topic, typeId) =>
      if topic in d.topics then d else d.(topics := d.topics[topic := TopicEntry(owner, typeId)])
    case Provide(owner, name, types) =>
      if name in d.methods then d else d.(methods := d.methods[name := MethodEntry(owner, types)])
    case _ => d
  }

  // Every owner of something is present.
  ghost predicate Owned(d: Directory) {
    && (forall t :: t in d.topics ==> d.topics[t].owner in d.live)
    && (forall m :: m in d.methods ==> d.methods[m].owner in d.live)
  }

  // Where a runtime stands with the directory: it has not joined, is present, or has been removed.
  datatype Standing = Outside | Member | Removed

  function StandingAfter(standing: Standing, name: string, q: Query): Standing {
    if standing.Member? && q == Leave(name) then Removed else standing
  }

  // What a runtime is still answered on the socket it joined with: anything while it is present,
  // and afterwards at most what registers nothing.
  ghost predicate MayAsk(d: Directory, standing: Standing, q: Query) {
    standing.Member? || (standing.Removed? && Update(d, q) == d)
  }

  // A registration is read from a participant, or changes nothing because the item is taken.
  ghost predicate Admissible(d: Directory, q: Query) {
    (q.Register? || q.Provide?) && q.owner !in d.live ==> Update(d, q) == d
  }

  lemma UpdateOwned(d: Directory, q: Query)
    requires Owned(d) && Admissible(d, q)
    ensures Owned(Update(d, q))
  {
  }

  // The answers to a query: none for Nothing and Leave, one for everything else.
  function Answer(d: Directory, q: Query): seq<Verdict>
    requires Owned(d)
  {
    match q
    case Nothing => []
    case Leave(_) => []
    case Join(version, name, _) =>
      [if version != API_VERSION then VersionMismatch else if name in d.live then Duplicate else Accepted]
    case Register(_, topic, _) => [if topic in d.topics then Duplicate else Accepted]
    case Provide(_, name, _) => [if name in d.methods then Duplicate else Accepted]
    case FindTopic(topic) =>
      [if topic in d.topics
       then Located(d.topics[topic].owner, d.live[d.topics[topic].owner].listening)
       else NotPublished]
    case FindMethod(name) =>
      [if name in d.methods
       then Located(d.methods[name].owner, d.live[d.methods[name].owner].listening)
       else NotPublished]
    case ListTopics => [TopicTable(set t | t in d.topics :: (t, d.topics[t].typeId, d.topics[t].owner))]
    case ListParticipants => [ParticipantTable(set n | n in d.live :: (n, d.live[n]))]
    case ListMethods => [MethodTable(set m | m in d.methods :: (m, d.methods[m].types, d.methods[m].owner))]
    case Incomplete => [Invalid]
    case UnknownListing => [EmptyReply]
  }
}
